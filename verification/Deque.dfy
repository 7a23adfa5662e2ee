/**
 The owner/thief deque as an interleaving machine over unbounded cursors, one action per
 atomic operation. `mem[c]` is the value last written for cursor `c`; the slot array, the mask
 and the 32-bit words belong to `WorkerQueues`, which refines this machine.
 */
module Deque {
  import opened Jobs
  import opened Claims
  import opened Words

  /** Where the owner stands inside push, batch push, steal-into or pop. */
  datatype Owner =
    | Rest
      /** Measured `room` free slots; wrote `staged` at `tail`, `tail + 1`, ... but published nothing. */
    | Filling(room: nat, staged: seq<Job>)
      /** Holds a snapshot of the packed word: `blocked` was `lb` and `seen` were the items. */
    | Popping(lb: nat, seen: seq<Job>)
      /** The compare-and-swap took cursor `c`, abstractly removing `due`; the slot is unread. */
    | Taking(c: nat, due: Job)

  /** Linearization points, in the order they happened. */
  datatype Event =
    | Pushed(vs: seq<Job>)
    | Popped(v: Job)
    | FoundEmpty
    | Stole(taker: nat, vs: seq<Job>)

  datatype State = State(
    cap: nat,
    tail: nat,
    blocked: nat,
    stolen: nat,
    mem: seq<Job>,
    claims: seq<Claim>,
    owner: Owner,
    events: seq<Event>)
  {
    /** The unclaimed items `[blocked, tail)`, oldest first. */
    function Items(): seq<Job>
      requires blocked <= tail <= |mem|
    {
      mem[blocked..tail]
    }
  }

  datatype Action =
    | Measure                   // owner loads `stolen` and computes the free slots
    | Write(v: Job)             // owner writes the next unpublished slot
    | Publish                   // owner adds to the tail half of the word
    | Look                      // owner loads the word, or a failed exchange returns it
    | GiveUp                    // owner's pop returns nothing
    | PopSwap                   // owner's exchange moves the tail back by one
    | PopRead                   // owner reads the slot it took
    | ClaimPrefix(t: nat, n: nat) // thief's exchange moves `blocked` forward by `n`
    | Copy(t: nat, i: nat)      // thief reads the next slot of its claim, at place `i` of the claim order
    | Release(t: nat, i: nat)   // thief publishes `stolen`

  datatype Actor = TheOwner | Thief(t: nat)

  function By(a: Action): Actor {
    match a
    case ClaimPrefix(t, _) => Thief(t)
    case Copy(t, _) => Thief(t)
    case Release(t, _) => Thief(t)
    case _ => TheOwner
  }

  function Init(cap: nat): State {
    State(cap, 0, 0, 0, [], [], Rest, [])
  }

  ghost predicate Next(s: State, a: Action, s': State) {
    match a
    case Measure =>
      && s.owner.Rest? && s.tail <= s.stolen + s.cap
      && s' == s.(owner := Filling(s.stolen + s.cap - s.tail, []))
    case Write(v) =>
      && s.owner.Filling? && |s.owner.staged| < s.owner.room && s.tail + |s.owner.staged| <= |s.mem|
      && s' == s.(mem := Store(s.mem, s.tail + |s.owner.staged|, v),
                  owner := s.owner.(staged := s.owner.staged + [v]))
    case Publish =>
      && s.owner.Filling?
      && s' == s.(tail := s.tail + |s.owner.staged|, owner := Rest,
                  events := if s.owner.staged == [] then s.events else s.events + [Pushed(s.owner.staged)])
    case Look =>
      && (s.owner.Rest? || (s.owner.Popping? && s.owner.seen != []))
      && s.blocked <= s.tail <= |s.mem|
      && s' == s.(owner := Popping(s.blocked, s.Items()),
                  events := if s.Items() == [] then s.events + [FoundEmpty] else s.events)
    case GiveUp =>
      && s.owner.Popping? && s.owner.seen == []
      && s' == s.(owner := Rest)
    case PopSwap =>
      && s.owner.Popping? && s.owner.seen != []
      && s.blocked == s.owner.lb && s.tail == s.owner.lb + |s.owner.seen| <= |s.mem|
      && s' == s.(tail := s.tail - 1, owner := Taking(s.tail - 1, s.mem[s.tail - 1]),
                  events := s.events + [Popped(s.mem[s.tail - 1])])
    case PopRead =>
      && s.owner.Taking?
      && s' == s.(owner := Rest)
    case ClaimPrefix(t, n) =>
      && !Engaged(s.claims, t)
      && 0 < n && s.blocked + n <= s.tail <= |s.mem|
      && var taken := s.mem[s.blocked..s.blocked + n];
      && s' == s.(blocked := s.blocked + n, claims := s.claims + [Claim(t, s.blocked, taken, [])],
                  events := s.events + [Stole(t, taken)])
    case Copy(t, i) =>
      && i < |s.claims| && s.claims[i].taker == t
      && var c := s.claims[i];
      && |c.got| < |c.promise| && c.start + |c.got| < |s.mem|
      && s' == s.(claims := s.claims[i := c.(got := c.got + [s.mem[c.start + |c.got|]])])
    case Release(t, i) =>
      && i < |s.claims| && s.claims[i].taker == t
      && var c := s.claims[i];
      && |c.got| == |c.promise| && c.start == s.stolen
      && s' == s.(stolen := s.stolen + |c.promise|, claims := s.claims[..i] + s.claims[i + 1..])
  }

  // ---------------------------------------------------------------- specification

  /** One operation of a sequential deque, or nothing if it is illegal there. */
  ghost function Apply(q: seq<Job>, e: Event): Option<seq<Job>> {
    match e
    case Pushed(vs) => Some(q + vs)
    case Popped(v) => if q != [] && q[|q| - 1] == v then Some(q[..|q| - 1]) else None
    case FoundEmpty => if q == [] then Some(q) else None
    case Stole(_, vs) => if vs != [] && vs <= q then Some(q[|vs|..]) else None
  }

  /** The abstract deque: what a sequential deque holds after `evs`, or nothing if they are illegal. */
  ghost function Replay(evs: seq<Event>): Option<seq<Job>> {
    if evs == [] then Some([])
    else
      match Replay(evs[..|evs| - 1])
      case None => None
      case Some(q) => Apply(q, evs[|evs| - 1])
  }

  lemma LastOf(evs: seq<Event>, e: Event)
    ensures (evs + [e])[..|evs + [e]| - 1] == evs
    ensures (evs + [e])[|evs + [e]| - 1] == e
  {
  }

  lemma ReplayStep(evs: seq<Event>, e: Event, q: seq<Job>)
    requires Replay(evs) == Some(q)
    ensures Replay(evs + [e]) == Apply(q, e)
  {
    LastOf(evs, e);
    hide Apply;
  }

  ghost predicate OwnerInv(s: State) {
    match s.owner
    case Rest => true
    case Filling(room, staged) =>
      && |staged| <= room && s.tail + room <= s.stolen + s.cap
      && s.tail + |staged| <= |s.mem|
      && s.mem[s.tail..s.tail + |staged|] == staged
    case Popping(lb, seen) => lb <= s.blocked && s.tail == lb + |seen| <= lb + s.cap
    case Taking(c, due) => c == s.tail < s.stolen + s.cap && c < |s.mem| && s.mem[c] == due
  }

  ghost predicate CursorInv(s: State) {
    && s.stolen <= s.blocked <= s.tail <= s.stolen + s.cap
    && s.tail <= |s.mem|
  }

  ghost predicate ClaimInv(s: State) {
    Sound(s.claims, s.stolen, s.blocked, s.mem)
  }

  ghost predicate Inv(s: State) {
    && CursorInv(s)
    && ClaimInv(s)
    && OwnerInv(s)
    && Replay(s.events) == Some(s.Items())
  }

  lemma InitInv(cap: nat)
    ensures Inv(Init(cap))
  {
  }

  // ---------------------------------------------------------------- preservation

  lemma WriteStep(s: State, v: Job, s': State)
    requires Inv(s) && Next(s, Write(v), s')
    ensures Inv(s')
  {
    hide Replay, Sound;
    var c := s.tail + |s.owner.staged|;
    assert s'.mem[..s.tail] == s.mem[..s.tail];
    PrefixSlices(s, s');
    SoundByPrefix(s.claims, s.stolen, s.blocked, s.mem, s'.mem);
    assert s'.mem[s.tail..c + 1] == s.mem[s.tail..c] + [v];
  }

  lemma PrefixSlices(s: State, s': State)
    requires s.blocked <= s.tail <= |s.mem| && s.tail <= |s'.mem|
    requires s'.mem[..s.tail] == s.mem[..s.tail]
    ensures s'.mem[..s.blocked] == s.mem[..s.blocked]
    ensures s'.mem[s.blocked..s.tail] == s.mem[s.blocked..s.tail]
  {
    assert s'.mem[..s.blocked] == s'.mem[..s.tail][..s.blocked];
    assert s.mem[..s.blocked] == s.mem[..s.tail][..s.blocked];
    assert s'.mem[s.blocked..s.tail] == s'.mem[..s.tail][s.blocked..];
    assert s.mem[s.blocked..s.tail] == s.mem[..s.tail][s.blocked..];
  }

  lemma PublishStep(s: State, s': State)
    requires Inv(s) && Next(s, Publish, s')
    ensures Inv(s') && s'.Items() == s.Items() + s.owner.staged
  {
    hide Replay, Sound;
    Join(s.mem, s.blocked, s.tail, s'.tail);
    ReplayStep(s.events, Pushed(s.owner.staged), s.Items());
  }

  lemma PopSwapStep(s: State, s': State)
    requires Inv(s) && Next(s, PopSwap, s')
    ensures Inv(s') && s.Items() == s'.Items() + [s'.owner.due]
  {
    hide Replay, Sound;
    ReplayStep(s.events, Popped(s.mem[s.tail - 1]), s.Items());
    assert s.mem[s.blocked..s.tail] == s.mem[s.blocked..s.tail - 1] + [s.mem[s.tail - 1]];
    assert s'.Items() == s.Items()[..|s.Items()| - 1];
  }

  lemma OwnerStep(s: State, a: Action, s': State)
    requires Inv(s) && Next(s, a, s') && By(a) == TheOwner
    ensures Inv(s')
  {
    hide Replay, Sound;
    match a
    case Write(v) => WriteStep(s, v, s');
    case Publish => PublishStep(s, s');
    case PopSwap => PopSwapStep(s, s');
    case Look => ReplayStep(s.events, FoundEmpty, s.Items());
    case _ =>
  }

  lemma ClaimStep(s: State, t: nat, n: nat, s': State)
    requires Inv(s) && Next(s, ClaimPrefix(t, n), s')
    ensures Inv(s')
  {
    var taken := s.mem[s.blocked..s.blocked + n];
    AddClaim(s.claims, s.stolen, s.blocked, s.mem, Claim(t, s.blocked, taken, []));
    hide Replay, Sound, Engaged;
    Join(s.mem, s.blocked, s.blocked + n, s.tail);
    Front(taken, s'.Items());
    ReplayStep(s.events, Stole(t, taken), s.Items());
  }

  lemma CopyStep(s: State, t: nat, i: nat, s': State)
    requires Inv(s) && Next(s, Copy(t, i), s')
    ensures Inv(s')
    ensures s'.claims[i].got <= s.claims[i].promise
  {
    ReadOne(s.claims, s.stolen, s.blocked, s.mem, i);
    hide Sound, Replay;
  }

  lemma ReleaseShape(s: State, t: nat, i: nat, s': State)
    requires ClaimInv(s) && Next(s, Release(t, i), s')
    ensures i == 0 && s.claims != [] && |s.claims[0].got| == |s.claims[0].promise|
    ensures s' == s.(stolen := s.claims[0].End(), claims := s.claims[1..])
  {
    ReleaseIsFirst(s.claims, s.stolen, s.blocked, i);
  }

  lemma ReleaseStep(s: State, t: nat, i: nat, s': State)
    requires Inv(s) && Next(s, Release(t, i), s')
    ensures Inv(s')
    ensures i == 0 && s'.claims == s.claims[1..]
    ensures s.claims[0].got == s.claims[0].promise
  {
    hide Next, Sound, Replay, Engaged;
    ReleaseShape(s, t, i, s');
    DropOldest(s.claims, s.stolen, s.blocked, s.mem);
  }

  lemma StepInv(s: State, a: Action, s': State)
    requires Inv(s) && Next(s, a, s')
    ensures Inv(s') && s'.cap == s.cap
  {
    match a
    case ClaimPrefix(t, n) => ClaimStep(s, t, n, s');
    case Copy(t, i) => CopyStep(s, t, i, s');
    case Release(t, i) => ReleaseStep(s, t, i, s');
    case _ => OwnerStep(s, a, s');
  }

  // ---------------------------------------------------------------- whole runs

  /** A finite run: `states[k]` goes to `states[k + 1]` by `acts[k]`. */
  ghost predicate Run(states: seq<State>, acts: seq<Action>) {
    && |states| == |acts| + 1
    && forall k :: 0 <= k < |acts| ==> Next(states[k], acts[k], states[k + 1])
  }

  /** One owner, any number of thieves, any interleaving, any length. */
  lemma {:induction false} RunInv(states: seq<State>, acts: seq<Action>, cap: nat, k: nat)
    requires Run(states, acts) && states[0] == Init(cap) && k < |states|
    ensures Inv(states[k]) && states[k].cap == cap
  {
    hide Next, Inv;
    if k == 0 {
      InitInv(cap);
    } else {
      RunInv(states, acts, cap, k - 1);
      StepInv(states[k - 1], acts[k - 1], states[k]);
    }
  }

  /** The three cursor ranges of a reachable state use pairwise different slots. */
  lemma RangesDisjoint(s: State, c: nat, d: nat)
    requires Inv(s) && s.stolen <= c < d < s.stolen + s.cap
    ensures Slot(c, s.cap) != Slot(d, s.cap)
  {
    SlotsDiffer(c, d, s.cap);
  }

  /** An owner write lands in a slot that holds no unclaimed item and that no thief may still read. */
  lemma WriteIsSafe(s: State, v: Job, s': State)
    requires Inv(s) && Next(s, Write(v), s')
    ensures s.cap > 0
    ensures forall c :: s.stolen <= c < s.tail + |s.owner.staged| ==>
      Slot(c, s.cap) != Slot(s.tail + |s.owner.staged|, s.cap)
    ensures forall cl, c :: cl in s.claims && cl.start <= c < cl.End() ==>
      Slot(c, s.cap) != Slot(s.tail + |s.owner.staged|, s.cap)
  {
    var w := s.tail + |s.owner.staged|;
    forall c | s.stolen <= c < w
      ensures Slot(c, s.cap) != Slot(w, s.cap)
    {
      RangesDisjoint(s, c, w);
    }
    forall cl | cl in s.claims
      ensures s.stolen <= cl.start && cl.End() <= s.blocked
    {
      var i :| 0 <= i < |s.claims| && s.claims[i] == cl;
      TilesBounds(s.claims, s.stolen, s.blocked, i);
    }
  }

  /** Every read returns the value that was abstractly removed for that cursor. */
  lemma ReadsAreRight(s: State, a: Action, s': State)
    requires Inv(s) && Next(s, a, s')
    ensures a == PopRead ==> s.mem[s.owner.c] == s.owner.due
    ensures a.Copy? ==> s'.claims[a.i].got == s.claims[a.i].promise[..|s.claims[a.i].got| + 1]
    ensures a.Release? ==> s.claims[a.i].got == s.claims[a.i].promise
  {
    if a.Copy? {
      CopyStep(s, a.t, a.i, s');
    } else if a.Release? {
      ReleaseStep(s, a.t, a.i, s');
    }
  }

  /** The abstract sequence changes only at the linearization points, and then as a deque does. */
  lemma ItemsRefine(s: State, a: Action, s': State)
    requires Inv(s) && Next(s, a, s')
    ensures Inv(s')
    ensures a == Publish ==> s'.Items() == s.Items() + s.owner.staged
    ensures a == PopSwap ==> s.Items() == s'.Items() + [s'.owner.due]
    ensures a.ClaimPrefix? ==>
      s.Items() == s'.claims[|s.claims|].promise + s'.Items() && |s'.claims[|s.claims|].promise| == a.n
    ensures a == GiveUp ==> s.owner.seen == [] && s'.Items() == s.Items()
    ensures a != Publish && a != PopSwap && !a.ClaimPrefix? ==> s'.Items() == s.Items()
  {
    hide Sound, Replay, Engaged;
    StepInv(s, a, s');
    match a
    case Publish => PublishStep(s, s');
    case PopSwap => PopSwapStep(s, s');
    case ClaimPrefix(t, n) =>
      assert s.Items() == s.mem[s.blocked..s.blocked + n] + s'.Items();
    case Write(v) =>
      assert s'.mem[..s.tail] == s.mem[..s.tail];
      PrefixSlices(s, s');
    case _ =>
  }

  // ---------------------------------------------------------------- progress

  /** The oldest claimant is never blocked: it can read its next slot or publish. */
  lemma OldestCanStep(s: State) returns (a: Action, s': State)
    requires Inv(s) && s.claims != []
    ensures By(a) == Thief(s.claims[0].taker) && Next(s, a, s')
    ensures if |s.claims[0].got| < |s.claims[0].promise| then a.Copy? else a.Release? && s'.stolen > s.stolen
  {
    var c := s.claims[0];
    assert c in s.claims;
    TilesBounds(s.claims, s.stolen, s.blocked, 0);
    if |c.got| < |c.promise| {
      a := Copy(c.taker, 0);
      s' := s.(claims := s.claims[0 := c.(got := c.got + [s.mem[c.start + |c.got|]])]);
    } else {
      a := Release(c.taker, 0);
      s' := s.(stolen := s.stolen + |c.promise|, claims := s.claims[..0] + s.claims[0 + 1..]);
    }
  }

  /** A pop that loses its exchange to a thief retries with strictly fewer items. */
  lemma LostExchangeShrinks(s: State, s': State)
    requires Inv(s) && s.owner.Popping? && Next(s, Look, s')
    ensures s'.owner.Popping? && |s'.owner.seen| <= |s.owner.seen|
    ensures s.blocked != s.owner.lb ==> |s'.owner.seen| < |s.owner.seen|
  {
  }

  // ---------------------------------------------------------------- interference

  /** The events of one actor, in order. */
  ghost function EventsOf(evs: seq<Event>, who: Actor): seq<Event> {
    if evs == [] then []
    else
      var e := evs[|evs| - 1];
      EventsOf(evs[..|evs| - 1], who) + (if Author(e) == who then [e] else [])
  }

  function Author(e: Event): Actor {
    if e.Stole? then Thief(e.taker) else TheOwner
  }

  lemma EventsAppend(evs: seq<Event>, e: Event, who: Actor)
    ensures EventsOf(evs + [e], who) == EventsOf(evs, who) + (if Author(e) == who then [e] else [])
  {
    LastOf(evs, e);
  }

  /** `s` goes to `s'` by `acts`, none of them an action of `who`. */
  ghost predicate Others(who: Actor, s: State, acts: seq<Action>, s': State)
    decreases |acts|
  {
    if acts == [] then s == s'
    else
      By(acts[0]) != who && exists mid :: Next(s, acts[0], mid) && Others(who, mid, acts[1..], s')
  }

  /** Any finite number of steps of any other threads. */
  ghost predicate Interference(who: Actor, s: State, s': State) {
    exists acts :: Others(who, s, acts, s')
  }

  lemma NoInterference(who: Actor, s: State)
    ensures Interference(who, s, s)
  {
    assert Others(who, s, [], s);
  }

  /** `s` goes to `s'` by `acts`, of anybody. */
  ghost predicate Path(s: State, acts: seq<Action>, s': State)
    decreases |acts|
  {
    if acts == [] then s == s'
    else exists mid :: Next(s, acts[0], mid) && Path(mid, acts[1..], s')
  }

  ghost predicate Leads(s: State, s': State) {
    exists acts :: Path(s, acts, s')
  }

  lemma LeadsSelf(s: State)
    ensures Leads(s, s)
  {
    assert Path(s, [], s);
  }

  lemma StepLeads(s: State, a: Action, s': State)
    requires Next(s, a, s')
    ensures Leads(s, s')
  {
    assert Path(s', [a][1..], s');
    assert Path(s, [a], s');
  }

  lemma {:induction false} OthersPath(who: Actor, s: State, acts: seq<Action>, s': State)
    requires Others(who, s, acts, s')
    ensures Path(s, acts, s')
    decreases |acts|
  {
    hide Next;
    if acts != [] {
      var mid :| Next(s, acts[0], mid) && Others(who, mid, acts[1..], s');
      OthersPath(who, mid, acts[1..], s');
    }
  }

  lemma InterferenceLeads(who: Actor, s: State, s': State)
    requires Interference(who, s, s')
    ensures Leads(s, s')
  {
    var acts :| Others(who, s, acts, s');
    OthersPath(who, s, acts, s');
  }

  lemma {:induction false} PathAppend(s: State, acts: seq<Action>, mid: State, more: seq<Action>, s': State)
    requires Path(s, acts, mid) && Path(mid, more, s')
    ensures Path(s, acts + more, s')
    decreases |acts|
  {
    hide Next;
    if acts == [] {
      assert acts + more == more;
    } else {
      var next :| Next(s, acts[0], next) && Path(next, acts[1..], mid);
      PathAppend(next, acts[1..], mid, more, s');
      assert (acts + more)[1..] == acts[1..] + more;
    }
  }

  lemma LeadsOn(s: State, mid: State, s': State)
    requires Leads(s, mid) && Leads(mid, s')
    ensures Leads(s, s')
  {
    var acts :| Path(s, acts, mid);
    var more :| Path(mid, more, s');
    PathAppend(s, acts, mid, more, s');
  }

  /** What led to `v` also leads to every later state. */
  lemma Carries(v: State, v': State)
    requires Leads(v, v')
    ensures forall s :: Leads(s, v) ==> Leads(s, v')
  {
    forall s | Leads(s, v)
      ensures Leads(s, v')
    {
      LeadsOn(s, v, v');
    }
  }

  lemma StepCarries(v: State, a: Action, v': State)
    requires Next(v, a, v')
    ensures forall s :: Leads(s, v) ==> Leads(s, v')
  {
    StepLeads(v, a, v');
    Carries(v, v');
  }

  /** The log only grows; without a new event no item comes or goes, and whoever holds a new claim has logged it. */
  ghost predicate Grows(s: State, s': State) {
    && s'.cap == s.cap && s.events <= s'.events && s.stolen <= s'.stolen
    && (s'.events == s.events ==> s'.tail == s.tail && s'.blocked == s.blocked)
    && (forall c :: c in s'.claims ==> Engaged(s.claims, c.taker) || Logged(s, s', Thief(c.taker)))
  }

  /** `who` has an event in the log of `s'` that was not there in `s`. */
  ghost predicate Logged(s: State, s': State, who: Actor) {
    exists k :: |s.events| <= k < |s'.events| && Author(s'.events[k]) == who
  }

  lemma GrowsStep(s: State, a: Action, s': State)
    requires Next(s, a, s')
    ensures Grows(s, s')
  {
    match a
    case ClaimPrefix(t, n) =>
      assert Author(s'.events[|s.events|]) == Thief(t);
      forall c | c in s'.claims
        ensures Engaged(s.claims, c.taker) || Logged(s, s', Thief(c.taker))
      {
        if c in s.claims {
          var i :| 0 <= i < |s.claims| && s.claims[i] == c;
        }
      }
    case Copy(t, i) =>
      forall c | c in s'.claims
        ensures Engaged(s.claims, c.taker)
      {
        var k :| 0 <= k < |s'.claims| && s'.claims[k] == c;
        assert s.claims[k].taker == c.taker;
      }
    case Release(t, i) =>
      forall c | c in s'.claims
        ensures Engaged(s.claims, c.taker)
      {
        assert c in s.claims;
        var k :| 0 <= k < |s.claims| && s.claims[k] == c;
      }
    case _ =>
      forall c | c in s'.claims
        ensures Engaged(s.claims, c.taker)
      {
        var k :| 0 <= k < |s.claims| && s.claims[k] == c;
      }
  }

  lemma GrowsOn(s: State, mid: State, s': State)
    requires Grows(s, mid) && Grows(mid, s')
    ensures Grows(s, s')
  {
    forall c | c in s'.claims
      ensures Engaged(s.claims, c.taker) || Logged(s, s', Thief(c.taker))
    {
      if Logged(mid, s', Thief(c.taker)) {
        var k :| |mid.events| <= k < |s'.events| && Author(s'.events[k]) == Thief(c.taker);
      } else {
        var i :| 0 <= i < |mid.claims| && mid.claims[i].taker == c.taker;
        assert mid.claims[i] in mid.claims;
        if Logged(s, mid, Thief(c.taker)) {
          var k :| |s.events| <= k < |mid.events| && Author(mid.events[k]) == Thief(c.taker);
          assert s'.events[k] == mid.events[k];
        }
      }
    }
  }

  lemma {:induction false} PathGrows(s: State, acts: seq<Action>, s': State)
    requires Path(s, acts, s')
    ensures Grows(s, s')
    decreases |acts|
  {
    hide Next;
    if acts == [] {
      forall c | c in s'.claims
        ensures Engaged(s.claims, c.taker)
      {
        var k :| 0 <= k < |s.claims| && s.claims[k] == c;
      }
    } else {
      hide Grows;
      var mid :| Next(s, acts[0], mid) && Path(mid, acts[1..], s');
      GrowsStep(s, acts[0], mid);
      PathGrows(mid, acts[1..], s');
      GrowsOn(s, mid, s');
    }
  }

  lemma LeadsGrows(s: State, s': State)
    requires Leads(s, s')
    ensures Grows(s, s')
  {
    var acts :| Path(s, acts, s');
    PathGrows(s, acts, s');
  }

  /** States that were seen on the way from `from` to `to`. */
  ghost predicate Sightings(from: State, seen: seq<State>, to: State) {
    forall k :: 0 <= k < |seen| ==> Leads(from, seen[k]) && Leads(seen[k], to)
  }

  lemma SightingsOn(from: State, seen: seq<State>, mid: State, to: State)
    requires Sightings(from, seen, mid) && Leads(mid, to)
    ensures Sightings(from, seen, to)
  {
    forall k | 0 <= k < |seen|
      ensures Leads(seen[k], to)
    {
      LeadsOn(seen[k], mid, to);
    }
  }

  lemma SightingsAdd(from: State, seen: seq<State>, to: State)
    requires Sightings(from, seen, to) && Leads(from, to)
    ensures Sightings(from, seen + [to], to)
  {
    LeadsSelf(to);
    hide Leads;
  }

  lemma SightingsSince(start: State, from: State, seen: seq<State>, to: State)
    requires Leads(start, from) && Sightings(from, seen, to)
    ensures Sightings(start, seen, to)
  {
    forall k | 0 <= k < |seen|
      ensures Leads(start, seen[k])
    {
      LeadsOn(start, from, seen[k]);
    }
  }

  /** No thief has ever touched the deque: its log is the owner's. */
  ghost predicate Alone(s: State) {
    s.claims == [] && EventsOf(s.events, TheOwner) == s.events
  }

  lemma AloneStep(s: State, a: Action, s': State)
    requires Next(s, a, s') && By(a) == TheOwner
    ensures Alone(s) ==> Alone(s')
  {
    if |s'.events| > |s.events| {
      EventsAppend(s.events, s'.events[|s.events|], TheOwner);
    }
    hide EventsOf;
  }

  /** A deque without thieves holds exactly what its owner's log says. */
  lemma LogDecides(s: State, e: Event, s': State)
    requires Inv(s) && Inv(s') && Alone(s) && Alone(s')
    requires EventsOf(s'.events, TheOwner) == EventsOf(s.events, TheOwner) + [e]
    ensures match e
      case Pushed(vs) => s'.Items() == s.Items() + vs
      case Popped(v) => s.Items() == s'.Items() + [v]
      case FoundEmpty => s.Items() == [] == s'.Items()
      case Stole(_, _) => true
  {
    ReplayStep(s.events, e, s.Items());
    hide EventsOf, Replay, Sound, OwnerInv;
  }

  /** What the owner may rely on while thieves run. */
  ghost predicate OwnerSees(s: State, s': State) {
    && s'.cap == s.cap && s'.tail == s.tail && s'.mem == s.mem && s'.owner == s.owner
    && s.stolen <= s'.stolen && s.blocked <= s'.blocked
    && EventsOf(s'.events, TheOwner) == EventsOf(s.events, TheOwner)
  }

  /** What a thief may rely on while the owner and other thieves run. */
  ghost predicate ThiefSees(t: nat, s: State, s': State) {
    && s'.cap == s.cap && s.stolen <= s'.stolen
    && (forall c: Claim :: c.taker == t ==> (c in s.claims <==> c in s'.claims))
    && EventsOf(s'.events, Thief(t)) == EventsOf(s.events, Thief(t))
  }

  lemma {:induction false} OwnerStable(s: State, acts: seq<Action>, s': State)
    requires Inv(s) && Others(TheOwner, s, acts, s')
    ensures Inv(s') && OwnerSees(s, s')
    decreases |acts|
  {
    if acts != [] {
      var a := acts[0];
      var mid :| Next(s, a, mid) && Others(TheOwner, mid, acts[1..], s');
      StepInv(s, a, mid);
      if a.ClaimPrefix? {
        EventsAppend(s.events, mid.events[|s.events|], TheOwner);
      }
      OwnerStable(mid, acts[1..], s');
    }
  }

  lemma {:induction false} ThiefStable(t: nat, s: State, acts: seq<Action>, s': State)
    requires Inv(s) && Others(Thief(t), s, acts, s')
    ensures Inv(s') && ThiefSees(t, s, s')
    decreases |acts|
  {
    if acts != [] {
      var a := acts[0];
      var mid :| Next(s, a, mid) && Others(Thief(t), mid, acts[1..], s');
      StepInv(s, a, mid);
      ThiefSeesStep(t, s, a, mid);
      ThiefStable(t, mid, acts[1..], s');
    }
  }

  lemma OwnerRelies(s: State, s': State)
    requires Inv(s) && Interference(TheOwner, s, s')
    ensures Inv(s') && OwnerSees(s, s')
  {
    var acts :| Others(TheOwner, s, acts, s');
    OwnerStable(s, acts, s');
  }

  lemma ThiefRelies(t: nat, s: State, s': State)
    requires Inv(s) && Interference(Thief(t), s, s')
    ensures Inv(s') && ThiefSees(t, s, s')
  {
    var acts :| Others(Thief(t), s, acts, s');
    ThiefStable(t, s, acts, s');
  }

  lemma ThiefSeesStep(t: nat, s: State, a: Action, s': State)
    requires Inv(s) && Next(s, a, s') && By(a) != Thief(t)
    ensures ThiefSees(t, s, s')
  {
    hide Sound, Replay, Engaged;
    if |s'.events| > |s.events| {
      EventsAppend(s.events, s'.events[|s.events|], Thief(t));
    }
    match a
    case ClaimPrefix(_, _) =>
    case Copy(_, i) =>
      forall c: Claim | c.taker == t
        ensures c in s.claims <==> c in s'.claims
      {
        if c in s.claims {
          var k :| 0 <= k < |s.claims| && s.claims[k] == c;
          assert s'.claims[k] == c;
        }
      }
    case Release(_, i) =>
      forall c: Claim | c.taker == t
        ensures c in s.claims <==> c in s'.claims
      {
        if c in s.claims {
          var k :| 0 <= k < |s.claims| && s.claims[k] == c;
          assert k != i;
          assert s'.claims[if k < i then k else k - 1] == c;
        }
      }
    case _ =>
  }
}
