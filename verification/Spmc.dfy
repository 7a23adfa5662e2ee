/**
 The single-producer, multi-consumer FIFO ring as an interleaving machine over unbounded cursors.
 Here `(stolen, blocked)` share the packed word and `tail` is separate, so a consumer holds a
 snapshot made of two loads, `head` before `tail`. Its exchange compares 32-bit halves only.
 */
module Spmc {
  import opened Jobs
  import opened Claims
  import opened Words

  datatype Producer =
    | Rest
    | Filling(room: nat, staged: seq<Job>)

  /**
   What a consumer has loaded: the head alone, or the head and then the tail. `wasEmpty` is history:
   the ring held nothing at the tail load.
   */
  datatype Snap =
    | Head(stolen: nat, blocked: nat)
    | Both(stolen: nat, blocked: nat, tail: nat, wasEmpty: bool)

  datatype Event =
    | Pushed(vs: seq<Job>)
    | Took(consumer: nat, vs: seq<Job>)
    | FoundEmpty(consumer: nat)

  datatype State = State(
    cap: nat,
    tail: nat,
    blocked: nat,
    stolen: nat,
    mem: seq<Job>,
    claims: seq<Claim>,
    producer: Producer,
    snaps: map<nat, Snap>,
    events: seq<Event>)
  {
    function Items(): seq<Job>
      requires blocked <= tail <= |mem|
    {
      mem[blocked..tail]
    }
  }

  datatype Action =
    | Measure
    | Write(v: Job)
    | Publish
    | LoadHead(c: nat)          // also: the value a failed exchange hands back
    | LoadTail(c: nat)
    | GiveUp(c: nat)
    | Take(c: nat, n: nat)      // successful exchange, claiming `n` items
    | Copy(c: nat, i: nat)
    | Release(c: nat, i: nat)

  function Init(cap: nat): State {
    State(cap, 0, 0, 0, [], [], Rest, map[], [])
  }

  /** The packed words of the snapshot and of the ring are equal. */
  predicate Matches(s: State, p: Snap) {
    Low(s.stolen) == Low(p.stolen) && Low(s.blocked) == Low(p.blocked)
  }

  /** Items the consumer computes from its snapshot, in wrapping arithmetic. */
  function Seen(p: Snap): nat
    requires p.Both?
  {
    FilledSlots(Low(p.tail), Low(p.blocked))
  }

  /** The exchange of consumer `c` for `n` items would succeed now. */
  ghost predicate CanTake(s: State, c: nat, n: nat) {
    && c in s.snaps && s.snaps[c].Both? && !Engaged(s.claims, c)
    && Matches(s, s.snaps[c])
    && 0 < n <= Seen(s.snaps[c])
  }

  /** What the slot of cursor `c` holds; a cursor never written reads what its slot held before. */
  function Peek(mem: seq<Job>, cap: nat, c: nat): Job {
    if c < |mem| then mem[c] else if 0 < cap <= c then Peek(mem, cap, c - cap) else 0
  }

  function PeekAll(mem: seq<Job>, cap: nat, lo: nat, n: nat): (r: seq<Job>)
    ensures |r| == n
    ensures lo + n <= |mem| ==> r == mem[lo..lo + n]
  {
    if n == 0 then [] else PeekAll(mem, cap, lo, n - 1) + [Peek(mem, cap, lo + n - 1)]
  }

  ghost predicate Next(s: State, a: Action, s': State) {
    match a
    case Measure =>
      && s.producer.Rest? && s.tail <= s.stolen + s.cap
      && s' == s.(producer := Filling(s.stolen + s.cap - s.tail, []))
    case Write(v) =>
      && s.producer.Filling? && |s.producer.staged| < s.producer.room && s.tail + |s.producer.staged| <= |s.mem|
      && s' == s.(mem := Store(s.mem, s.tail + |s.producer.staged|, v),
                  producer := s.producer.(staged := s.producer.staged + [v]))
    case Publish =>
      && s.producer.Filling?
      && s' == s.(tail := s.tail + |s.producer.staged|, producer := Rest,
                  events := if s.producer.staged == [] then s.events else s.events + [Pushed(s.producer.staged)])
    case LoadHead(c) =>
      && !Engaged(s.claims, c)
      && s' == s.(snaps := s.snaps[c := Head(s.stolen, s.blocked)])
    case LoadTail(c) =>
      && c in s.snaps && s.snaps[c].Head?
      && var p := s.snaps[c];
      && s' == s.(snaps := s.snaps[c := Both(p.stolen, p.blocked, s.tail, s.tail == s.blocked)],
                  events := if s.tail == p.blocked then s.events + [FoundEmpty(c)] else s.events)
    case GiveUp(c) =>
      && c in s.snaps && s.snaps[c].Both? && Seen(s.snaps[c]) == 0
      && s' == s.(snaps := s.snaps - {c})
    case Take(c, n) =>
      && CanTake(s, c, n)
      && var taken := PeekAll(s.mem, s.cap, s.blocked, n);
      && s' == s.(blocked := s.blocked + n, claims := s.claims + [Claim(c, s.blocked, taken, [])],
                  snaps := s.snaps - {c}, events := s.events + [Took(c, taken)])
    case Copy(c, i) =>
      && i < |s.claims| && s.claims[i].taker == c
      && var cl := s.claims[i];
      && |cl.got| < |cl.promise|
      && s' == s.(claims := s.claims[i := cl.(got := cl.got + [Peek(s.mem, s.cap, cl.start + |cl.got|)])])
    case Release(c, i) =>
      && i < |s.claims| && s.claims[i].taker == c
      && var cl := s.claims[i];
      && |cl.got| == |cl.promise| && cl.start == s.stolen
      && s' == s.(stolen := s.stolen + |cl.promise|, claims := s.claims[..i] + s.claims[i + 1..])
  }

  /** A claim comes from a snapshot of the head that is at most `d` behind; other steps are free. */
  ghost predicate Within(d: int, s: State, a: Action) {
    a.Take? && a.c in s.snaps ==> s.blocked - s.snaps[a.c].blocked <= d
  }

  ghost predicate Fresh(s: State, a: Action) {
    Within(M32 - 1, s, a)
  }

  // ---------------------------------------------------------------- specification

  /** One operation of a sequential FIFO queue, or nothing if it is illegal there. */
  ghost function Apply(q: seq<Job>, e: Event): Option<seq<Job>> {
    match e
    case Pushed(vs) => Some(q + vs)
    case Took(_, vs) => if vs != [] && vs <= q then Some(q[|vs|..]) else None
    case FoundEmpty(_) => if q == [] then Some(q) else None
  }

  /** The abstract FIFO: what it holds after `evs`, or nothing if they are illegal. */
  ghost function Replay(evs: seq<Event>): Option<seq<Job>> {
    if evs == [] then Some([])
    else
      match Replay(evs[..|evs| - 1])
      case None => None
      case Some(q) => Apply(q, evs[|evs| - 1])
  }

  lemma LastOf(evs: seq<Event>, e: Event)
    ensures (evs + [e])[..|evs + [e]| - 1] == evs
    ensures (evs + [e])[|evs + [e]| - 1] == e
  {
  }

  lemma ReplayStep(evs: seq<Event>, e: Event, q: seq<Job>)
    requires Replay(evs) == Some(q)
    ensures Replay(evs + [e]) == Apply(q, e)
  {
    LastOf(evs, e);
    hide Apply;
  }

  ghost predicate SnapInv(s: State, p: Snap) {
    && p.stolen <= p.blocked <= p.stolen + s.cap
    && p.stolen <= s.stolen && p.blocked <= s.blocked
    && (p.Both? ==> p.blocked <= p.tail <= s.tail && (p.tail == p.blocked ==> p.wasEmpty))
  }

  ghost predicate CursorInv(s: State) {
    s.stolen <= s.blocked <= s.tail <= s.stolen + s.cap && s.tail <= |s.mem| && s.cap < MAX_CAPACITY
  }

  ghost predicate ClaimInv(s: State) {
    Sound(s.claims, s.stolen, s.blocked, s.mem)
  }

  ghost predicate ProducerInv(s: State) {
    s.producer.Filling? ==>
      && |s.producer.staged| <= s.producer.room && s.tail + s.producer.room <= s.stolen + s.cap
      && s.tail + |s.producer.staged| <= |s.mem|
      && s.mem[s.tail..s.tail + |s.producer.staged|] == s.producer.staged
  }

  ghost predicate SnapsInv(s: State) {
    forall c :: c in s.snaps ==> SnapInv(s, s.snaps[c])
  }

  ghost predicate Inv(s: State) {
    && CursorInv(s) && ClaimInv(s) && ProducerInv(s) && SnapsInv(s)
    && Replay(s.events) == Some(s.Items())
  }

  lemma InitInv(cap: nat)
    requires cap < MAX_CAPACITY
    ensures Inv(Init(cap))
  {
  }

  /** Snapshots stay valid as the cursors move forward. */
  lemma SnapsGrow(s: State, s': State)
    requires SnapsInv(s) && s'.cap == s.cap && s.stolen <= s'.stolen && s.blocked <= s'.blocked && s.tail <= s'.tail
    requires forall c :: c in s'.snaps ==> c in s.snaps && s'.snaps[c] == s.snaps[c]
    ensures SnapsInv(s')
  {
    forall c | c in s'.snaps
      ensures SnapInv(s', s'.snaps[c])
    {
      assert SnapInv(s, s.snaps[c]);
    }
  }

  // ---------------------------------------------------------------- preservation

  lemma WriteStep(s: State, v: Job, s': State)
    requires Inv(s) && Next(s, Write(v), s')
    ensures Inv(s') && s'.Items() == s.Items()
  {
    hide Sound, Replay, SnapsInv;
    var c := s.tail + |s.producer.staged|;
    assert s'.mem[..s.tail] == s.mem[..s.tail];
    assert s'.mem[..s.blocked] == s.mem[..s.blocked];
    SoundByPrefix(s.claims, s.stolen, s.blocked, s.mem, s'.mem);
    SliceOfPrefix(s.mem, s'.mem, s.tail, s.blocked, s.tail);
    assert s'.mem[s.tail..c + 1] == s.mem[s.tail..c] + [v];
    SnapsGrow(s, s');
  }

  lemma PublishStep(s: State, s': State)
    requires Inv(s) && Next(s, Publish, s')
    ensures Inv(s') && s'.Items() == s.Items() + s.producer.staged
  {
    hide SnapsInv, Sound, Replay;
    SnapsGrow(s, s');
    Join(s.mem, s.blocked, s.tail, s'.tail);
    ReplayStep(s.events, Pushed(s.producer.staged), s.Items());
  }

  /** Loading head first: a tail equal to the snapshot's `blocked` means the ring is empty right now. */
  lemma LoadTailStep(s: State, c: nat, s': State)
    requires Inv(s) && Next(s, LoadTail(c), s')
    ensures Inv(s')
    ensures s.tail == s.snaps[c].blocked ==> s.Items() == []
  {
    hide Sound, Replay;
    ReplayStep(s.events, FoundEmpty(c), s.Items());
  }

  /** A fresh exchange claims the items at `blocked`. */
  lemma TakeIsClaim(s: State, c: nat, n: nat, s': State)
    requires Inv(s) && Next(s, Take(c, n), s') && Fresh(s, Take(c, n))
    ensures 0 < n && s.blocked + n <= s.tail && !Engaged(s.claims, c)
    ensures var taken := s.mem[s.blocked..s.blocked + n];
      s' == s.(blocked := s.blocked + n, claims := s.claims + [Claim(c, s.blocked, taken, [])],
               snaps := s.snaps - {c}, events := s.events + [Took(c, taken)])
  {
    FreshTakeIsSafe(s, c, n);
    hide Sound, Replay, SnapsInv, Engaged, Seen, Matches, Fresh;
  }

  lemma TakeStep(s: State, c: nat, n: nat, s': State)
    requires Inv(s) && Next(s, Take(c, n), s') && Fresh(s, Take(c, n))
    ensures Inv(s') && s.Items() == s'.claims[|s.claims|].promise + s'.Items()
    ensures s'.claims[|s.claims|].start == s.blocked && |s'.claims[|s.claims|].promise| == n
  {
    hide Next, Fresh, Replay, SnapsInv, Sound, Engaged;
    TakeIsClaim(s, c, n, s');
    var cl := Claim(c, s.blocked, s.mem[s.blocked..s.blocked + n], []);
    AddClaim(s.claims, s.stolen, s.blocked, s.mem, cl);
    Join(s.mem, s.blocked, s.blocked + n, s.tail);
    Front(cl.promise, s'.Items());
    ReplayStep(s.events, Took(c, cl.promise), s.Items());
    SnapsGrow(s, s');
  }

  lemma CopyStep(s: State, c: nat, i: nat, s': State)
    requires Inv(s) && Next(s, Copy(c, i), s')
    ensures Inv(s') && s'.claims[i].got == s.claims[i].promise[..|s.claims[i].got| + 1]
  {
    ReadOne(s.claims, s.stolen, s.blocked, s.mem, i);
    SnapsGrow(s, s');
    hide Sound, Replay, SnapsInv;
  }

  lemma ReleaseShape(s: State, c: nat, i: nat, s': State)
    requires ClaimInv(s) && Next(s, Release(c, i), s')
    ensures i == 0 && s.claims != [] && |s.claims[0].got| == |s.claims[0].promise|
    ensures s' == s.(stolen := s.claims[0].End(), claims := s.claims[1..])
  {
    ReleaseIsFirst(s.claims, s.stolen, s.blocked, i);
  }

  lemma ReleaseStep(s: State, c: nat, i: nat, s': State)
    requires Inv(s) && Next(s, Release(c, i), s')
    ensures Inv(s') && i == 0 && s'.claims == s.claims[1..]
    ensures s.claims[0].got == s.claims[0].promise
  {
    hide Next, Sound, Replay, Engaged, SnapsInv;
    ReleaseShape(s, c, i, s');
    DropOldest(s.claims, s.stolen, s.blocked, s.mem);
    SnapsGrow(s, s');
  }

  lemma StepInv(s: State, a: Action, s': State)
    requires Inv(s) && Next(s, a, s') && Fresh(s, a)
    ensures Inv(s') && s'.cap == s.cap
  {
    match a
    case Write(v) => WriteStep(s, v, s');
    case Publish => PublishStep(s, s');
    case LoadTail(c) => LoadTailStep(s, c, s');
    case Take(c, n) => TakeStep(s, c, n, s');
    case Copy(c, i) => CopyStep(s, c, i, s');
    case Release(c, i) => ReleaseStep(s, c, i, s');
    case _ => hide Sound, Replay;
  }

  // ---------------------------------------------------------------- whole runs

  ghost predicate Run(states: seq<State>, acts: seq<Action>) {
    && |states| == |acts| + 1
    && forall k :: 0 <= k < |acts| ==> Next(states[k], acts[k], states[k + 1])
  }

  /** A run in which every claim comes from a head snapshot at most `d` behind. */
  ghost predicate RunWithin(states: seq<State>, acts: seq<Action>, d: int) {
    Run(states, acts) && forall k :: 0 <= k < |acts| ==> Within(d, states[k], acts[k])
  }

  /** Reached from the empty ring by claims that are less than 2^32 behind. */
  ghost predicate Reachable(cap: nat, s: State) {
    exists states, acts :: RunWithin(states, acts, M32 - 1) && states[0] == Init(cap) && states[|acts|] == s
  }

  lemma InitReachable(cap: nat)
    ensures Reachable(cap, Init(cap))
  {
    var states: seq<State>, acts: seq<Action> := [Init(cap)], [];
    assert RunWithin(states, acts, M32 - 1) && states[0] == Init(cap) && states[|acts|] == Init(cap);
  }

  lemma ExtendRun(states: seq<State>, acts: seq<Action>, d: int, a: Action, s': State)
    requires RunWithin(states, acts, d) && Next(states[|acts|], a, s') && Within(d, states[|acts|], a)
    ensures RunWithin(states + [s'], acts + [a], d)
  {
    var longer, all := states + [s'], acts + [a];
    forall k | 0 <= k < |all|
      ensures Next(longer[k], all[k], longer[k + 1]) && Within(d, longer[k], all[k])
    {
      if k < |acts| {
        assert Next(states[k], acts[k], states[k + 1]) && Within(d, states[k], acts[k]);
      }
      hide Next, Within;
    }
  }

  lemma Extend(cap: nat, s: State, a: Action, s': State)
    requires Reachable(cap, s) && Next(s, a, s') && Fresh(s, a)
    ensures Reachable(cap, s')
  {
    var states, acts :| RunWithin(states, acts, M32 - 1) && states[0] == Init(cap) && states[|acts|] == s;
    ExtendRun(states, acts, M32 - 1, a, s');
    var longer := states + [s'];
    assert longer[0] == Init(cap) && longer[|acts + [a]|] == s';
  }

  lemma {:induction false} RunInv(states: seq<State>, acts: seq<Action>, cap: nat, k: nat)
    requires RunWithin(states, acts, M32 - 1) && states[0] == Init(cap) && cap < MAX_CAPACITY && k < |states|
    ensures Inv(states[k]) && states[k].cap == cap
  {
    hide Next, Inv;
    if k == 0 {
      InitInv(cap);
    } else {
      RunInv(states, acts, cap, k - 1);
      StepInv(states[k - 1], acts[k - 1], states[k]);
    }
  }

  lemma ReachableInv(cap: nat, s: State)
    requires Reachable(cap, s) && cap < MAX_CAPACITY
    ensures Inv(s) && s.cap == cap
  {
    var states, acts :| RunWithin(states, acts, M32 - 1) && states[0] == Init(cap) && states[|acts|] == s;
    RunInv(states, acts, cap, |acts|);
  }

  // ---------------------------------------------------------------- stale snapshots

  /**
   If the head moved by less than 2^32 since the consumer's load, a successful exchange proves that
   it did not move at all, and because `tail` was loaded after `head` the claim lies inside the
   published items.
   */
  lemma FreshTakeIsSafe(s: State, c: nat, n: nat)
    requires Inv(s) && CanTake(s, c, n) && Fresh(s, Take(c, n))
    ensures s.blocked == s.snaps[c].blocked && s.stolen == s.snaps[c].stolen
    ensures s.blocked + n <= s.tail
  {
    var p := s.snaps[c];
    assert SnapInv(s, p);
    hide Sound, Replay, SnapsInv;
    LowInjective(p.blocked, s.blocked);
    LowInjective(p.stolen, s.stolen);
    LowSub(p.tail, p.blocked);
  }

  /** In the run every claim takes published items only. */
  ghost predicate ClaimsPublished(states: seq<State>, acts: seq<Action>)
    requires |states| > |acts|
  {
    forall k :: 0 <= k < |acts| && acts[k].Take? ==> states[k].blocked + acts[k].n <= states[k].tail
  }

  /** Claims at most `d` behind are correct in every run that has no others. */
  ghost predicate SafeWithin(cap: nat, d: nat) {
    forall states, acts :: RunWithin(states, acts, d) && states[0] == Init(cap) ==> ClaimsPublished(states, acts)
  }

  /** The bound of 2^32 is exact: one more, and a run claims an item that was never pushed. */
  lemma BoundIsExact(cap: nat, d: nat)
    requires 0 < cap < MAX_CAPACITY
    ensures SafeWithin(cap, d) <==> d < M32
  {
    if d < M32 {
      forall states, acts | RunWithin(states, acts, d) && states[0] == Init(cap)
        ensures ClaimsPublished(states, acts)
      {
        FreshRunIsSafe(states, acts, cap);
      }
    } else {
      var states, acts := StaleClaim(cap);
      assert RunWithin(states, acts, d);
      assert !ClaimsPublished(states, acts);
    }
  }

  lemma FreshRunIsSafe(states: seq<State>, acts: seq<Action>, cap: nat)
    requires RunWithin(states, acts, M32 - 1) && states[0] == Init(cap) && cap < MAX_CAPACITY
    ensures ClaimsPublished(states, acts)
  {
    forall k | 0 <= k < |acts| && acts[k].Take?
      ensures states[k].blocked + acts[k].n <= states[k].tail
    {
      RunInv(states, acts, cap, k);
      assert Next(states[k], acts[k], states[k + 1]) && Within(M32 - 1, states[k], acts[k]);
      FreshTakeIsSafe(states[k], acts[k].c, acts[k].n);
    }
  }

  /**
   Consumer 0 stalls on a snapshot of one item while 2^32 items pass through the ring, and then its
   exchange succeeds: the last step of the run claims an item that does not exist.
   */
  lemma StaleClaim(cap: nat) returns (states: seq<State>, acts: seq<Action>)
    requires 0 < cap < MAX_CAPACITY
    ensures RunWithin(states, acts, M32) && states[0] == Init(cap) && |acts| > 0
    ensures acts[|acts| - 1] == Take(0, 1) && states[|acts|].blocked == states[|acts|].tail + 1
    ensures states[|acts| - 1].blocked == states[|acts| - 1].tail
  {
    var s := StaleRun(cap, M32);
    var s' := BadTake(s);
    var before, did :| RunWithin(before, did, M32 - 1) && before[0] == Init(cap) && before[|did|] == s;
    Loosen(before, did, M32 - 1, M32);
    hide *;
    ExtendRun(before, did, M32, Take(0, 1), s');
    states, acts := before + [s'], did + [Take(0, 1)];
  }

  lemma Loosen(states: seq<State>, acts: seq<Action>, d: int, e: int)
    requires RunWithin(states, acts, d) && d <= e
    ensures RunWithin(states, acts, e)
  {
    hide Next;
  }

  lemma BadTake(s: State) returns (s': State)
    requires Idle(s, M32) && 0 in s.snaps && s.snaps[0] == Both(0, 0, 1, false)
    ensures Next(s, Take(0, 1), s') && Within(M32, s, Take(0, 1))
    ensures s'.blocked == s'.tail + 1 && s.blocked == s.tail
  {
    assert Seen(s.snaps[0]) == 1;
    var taken := PeekAll(s.mem, s.cap, s.blocked, 1);
    s' := s.(blocked := s.blocked + 1, claims := s.claims + [Claim(0, s.blocked, taken, [])],
             snaps := s.snaps - {0}, events := s.events + [Took(0, taken)]);
  }

  /** Consumer 0 holds a snapshot of one item while `k` items pass through the ring. */
  lemma StaleRun(cap: nat, k: nat) returns (s: State)
    requires 0 < cap < MAX_CAPACITY && k > 0
    ensures Reachable(cap, s) && Idle(s, k) && s.cap == cap
    ensures 0 in s.snaps && s.snaps[0] == Both(0, 0, 1, false) && 1 !in s.snaps
  {
    hide Reachable;
    InitReachable(cap);
    s := PushOne(cap, Init(cap), 0);
    s := OfHead(cap, s);
    var s' := s.(snaps := s.snaps[0 := Both(0, 0, 1, false)]);
    Extend(cap, s, LoadTail(0), s');
    s := PopOne(cap, s', 0);
    s := PassItems(cap, s, 1, k);
  }

  lemma OfHead(cap: nat, s: State) returns (s': State)
    requires Reachable(cap, s) && s.claims == []
    ensures Reachable(cap, s') && s' == s.(snaps := s.snaps[0 := Head(s.stolen, s.blocked)])
  {
    s' := s.(snaps := s.snaps[0 := Head(s.stolen, s.blocked)]);
    Extend(cap, s, LoadHead(0), s');
  }

  /** Items `j .. k - 1` pass through an idle ring, one at a time. */
  lemma {:induction false} PassItems(cap: nat, s: State, j: nat, k: nat) returns (s': State)
    requires 0 < cap < MAX_CAPACITY && Reachable(cap, s) && s.cap == cap && Idle(s, j) && j <= k && 1 !in s.snaps
    ensures Reachable(cap, s') && s'.cap == cap && Idle(s', k) && s'.snaps == s.snaps
    decreases k - j
  {
    hide Reachable;
    s' := s;
    if j < k {
      s' := PushOne(cap, s, j);
      s' := PopOne(cap, s', j);
      s' := PassItems(cap, s', j + 1, k);
    }
  }

  ghost predicate Idle(s: State, k: nat) {
    s.tail == s.blocked == s.stolen == k && |s.mem| == k && s.claims == [] && s.producer.Rest?
  }

  lemma PushOne(cap: nat, s: State, k: nat) returns (s': State)
    requires Reachable(cap, s) && Idle(s, k) && s.cap == cap > 0
    ensures Reachable(cap, s')
    ensures s'.(mem := s.mem, events := s.events) == s.(tail := k + 1) && |s'.mem| == k + 1
  {
    hide Reachable;
    var s1 := s.(producer := Filling(cap, []));
    Extend(cap, s, Measure, s1);
    var s2 := s1.(mem := s1.mem + [0], producer := Filling(cap, [] + [0]));
    Extend(cap, s1, Write(0), s2);
    s' := s2.(tail := k + 1, producer := Rest, events := s2.events + [Pushed(s2.producer.staged)]);
    Extend(cap, s2, Publish, s');
  }

  /** Consumer 1 takes the only item. */
  lemma PopOne(cap: nat, s: State, k: nat) returns (s': State)
    requires Reachable(cap, s) && s.claims == [] && s.producer.Rest? && 1 !in s.snaps
    requires s.tail == k + 1 == |s.mem| && s.blocked == s.stolen == k
    ensures Reachable(cap, s') && Idle(s', k + 1) && s'.snaps == s.snaps && s'.cap == s.cap
  {
    hide Reachable;
    var s1 := s.(snaps := s.snaps[1 := Head(k, k)]);
    Extend(cap, s, LoadHead(1), s1);
    var s2 := s1.(snaps := s1.snaps[1 := Both(k, k, k + 1, false)]);
    Extend(cap, s1, LoadTail(1), s2);
    LowSub(k + 1, k);
    s' := TakeOne(cap, s2, k);
    assert s'.snaps == s.snaps;
  }

  lemma TakeOne(cap: nat, s: State, k: nat) returns (s': State)
    requires Reachable(cap, s) && CanTake(s, 1, 1) && s.claims == [] && s.producer.Rest?
    requires s.tail == k + 1 == |s.mem| && s.blocked == s.stolen == k && s.snaps[1].blocked == k
    ensures Reachable(cap, s') && Idle(s', k + 1) && s'.snaps == s.snaps - {1} && s'.cap == s.cap
  {
    hide Reachable, CanTake;
    var taken := PeekAll(s.mem, s.cap, k, 1);
    var cl := Claim(1, k, taken, []);
    var s3 := s.(blocked := k + 1, claims := s.claims + [cl], snaps := s.snaps - {1}, events := s.events + [Took(1, taken)]);
    Extend(cap, s, Take(1, 1), s3);
    var s4 := s3.(claims := s3.claims[0 := cl.(got := cl.got + [s.mem[k]])]);
    Extend(cap, s3, Copy(1, 0), s4);
    s' := s4.(stolen := k + 1, claims := s4.claims[..0] + s4.claims[0 + 1..]);
    Extend(cap, s4, Release(1, 0), s');
  }

  // ---------------------------------------------------------------- emptiness

  /** The wrapping count is zero exactly at multiples of 2^32, so below 2^32 it is zero only for an empty view. */
  lemma EmptyIsExact(p: Snap)
    requires p.Both? && p.blocked <= p.tail
    ensures Seen(p) == 0 <==> (p.tail - p.blocked) % M32 == 0
    ensures p.tail - p.blocked < M32 ==> (Seen(p) == 0 <==> p.tail == p.blocked)
  {
    LowSub(p.tail, p.blocked);
  }

  /** Whoever sees nothing, with a tail at most `d` above its head, loaded the tail of an empty ring. */
  ghost predicate EmptyWithin(cap: nat, d: nat) {
    forall s, c :: Reachable(cap, s) && SeesNothing(s, c, d) ==> s.snaps[c].wasEmpty && s.snaps[c].tail == s.snaps[c].blocked
  }

  ghost predicate SeesNothing(s: State, c: nat, d: nat) {
    c in s.snaps && s.snaps[c].Both? && s.snaps[c].tail - s.snaps[c].blocked <= d && Seen(s.snaps[c]) == 0
  }

  /** The answer "empty" is right exactly while the tail is loaded less than 2^32 above the loaded head. */
  lemma EmptyBoundIsExact(cap: nat, d: nat)
    requires 0 < cap < MAX_CAPACITY
    ensures EmptyWithin(cap, d) <==> d < M32
  {
    if d < M32 {
      forall s, c | Reachable(cap, s) && SeesNothing(s, c, d)
        ensures s.snaps[c].wasEmpty && s.snaps[c].tail == s.snaps[c].blocked
      {
        ReachableInv(cap, s);
        assert SnapInv(s, s.snaps[c]);
        EmptyIsExact(s.snaps[c]);
      }
    } else {
      var s, s' := StaleEmpty(cap);
      assert SeesNothing(s, 0, d);
    }
  }

  /**
   Consumer 0 loads the head, 2^32 - 1 items pass, one more is pushed, and it loads the tail: it may
   give up on a ring that holds an item, although the head moved by less than 2^32.
   */
  lemma StaleEmpty(cap: nat) returns (s: State, s': State)
    requires 0 < cap < MAX_CAPACITY
    ensures Reachable(cap, s) && s.blocked == M32 - 1 && s.tail == M32
    ensures 0 in s.snaps && s.snaps[0] == Both(0, 0, M32, false) && Seen(s.snaps[0]) == 0
    ensures Next(s, GiveUp(0), s')
  {
    hide Reachable;
    InitReachable(cap);
    s := OfHead(cap, Init(cap));
    s := PassItems(cap, s, 0, M32 - 1);
    s := PushOne(cap, s, M32 - 1);
    var full := s.(snaps := s.snaps[0 := Both(0, 0, M32, false)]);
    Extend(cap, s, LoadTail(0), full);
    s := full;
    EmptyIsExact(s.snaps[0]);
    s' := s.(snaps := s.snaps - {0});
  }

  // ---------------------------------------------------------------- linearizability

  /** The abstract queue changes only at the linearization points, in first-in first-out order. */
  lemma ItemsRefine(s: State, a: Action, s': State)
    requires Inv(s) && Next(s, a, s') && Fresh(s, a)
    ensures Inv(s') && |s'.Items()| <= s'.cap
    ensures a.GiveUp? && s.snaps[a.c].tail - s.snaps[a.c].blocked < M32 ==> s.snaps[a.c].wasEmpty
    ensures a == Publish ==> s'.Items() == s.Items() + s.producer.staged
    ensures a.Take? ==> s.Items() == s'.claims[|s.claims|].promise + s'.Items()
    ensures a != Publish && !a.Take? ==> s'.Items() == s.Items()
    ensures a.Release? ==> s.claims[a.i].got == s.claims[a.i].promise
  {
    hide Sound, Replay;
    StepInv(s, a, s');
    match a
    case Write(v) => WriteStep(s, v, s');
    case Publish => PublishStep(s, s');
    case Take(c, n) => TakeStep(s, c, n, s');
    case Release(c, i) => ReleaseStep(s, c, i, s');
    case GiveUp(c) =>
      assert SnapInv(s, s.snaps[c]);
      EmptyIsExact(s.snaps[c]);
    case _ =>
  }

  /** A producer write lands in a slot that holds no item and that no consumer may still read. */
  lemma WriteIsSafe(s: State, v: Job, s': State)
    requires Inv(s) && Next(s, Write(v), s')
    ensures s.cap > 0
    ensures forall c :: s.stolen <= c < s.tail + |s.producer.staged| ==>
      Slot(c, s.cap) != Slot(s.tail + |s.producer.staged|, s.cap)
  {
    hide Sound, Replay, SnapsInv;
    var w := s.tail + |s.producer.staged|;
    forall c | s.stolen <= c < w
      ensures Slot(c, s.cap) != Slot(w, s.cap)
    {
      SlotsDiffer(c, w, s.cap);
    }
  }

  /** The oldest claimant is never blocked: it can read its next slot or publish. */
  lemma OldestCanStep(s: State) returns (a: Action, s': State)
    requires Inv(s) && s.claims != []
    ensures By(a) == Consumer(s.claims[0].taker) && Next(s, a, s')
    ensures if |s.claims[0].got| < |s.claims[0].promise| then a.Copy? else a.Release? && s'.stolen > s.stolen
  {
    var cl := s.claims[0];
    assert cl in s.claims;
    assert Kept(cl, s.mem);
    DropOldest(s.claims, s.stolen, s.blocked, s.mem);
    TilesBounds(s.claims, s.stolen, s.blocked, 0);
    if |cl.got| < |cl.promise| {
      a := Copy(cl.taker, 0);
      s' := s.(claims := s.claims[0 := cl.(got := cl.got + [Peek(s.mem, s.cap, cl.start + |cl.got|)])]);
    } else {
      a := Release(cl.taker, 0);
      s' := s.(stolen := s.stolen + |cl.promise|, claims := s.claims[..0] + s.claims[0 + 1..]);
    }
  }

  /**
   A later claim disturbs the release of the oldest one: it stays that claim's turn, with no older claim
   before it, but the word the claimant has loaded is no longer the head.
   */
  lemma LaterClaimDisturbs(s: State, cl: Claim, d: nat, n: nat, s': State)
    requires Inv(s) && cl in s.claims && cl.start == s.stolen
    requires Next(s, Take(d, n), s') && Fresh(s, Take(d, n)) && d != cl.taker
    ensures Inv(s') && cl in s'.claims && s'.stolen == cl.start && !Behind(s'.claims, cl.taker)
    ensures !Matches(s', Head(s.stolen, s.blocked))
  {
    TakeIsClaim(s, d, n, s');
    TakeStep(s, d, n, s');
    var i :| 0 <= i < |s.claims| && s.claims[i] == cl;
    ReleaseIsFirst(s.claims, s.stolen, s.blocked, i);
    assert s'.claims[0] == cl;
    hide Next, Fresh, Sound, Replay, SnapsInv, Engaged;
    if Low(s'.blocked) == Low(s.blocked) {
      LowInjective(s.blocked, s'.blocked);
    }
  }

  // ---------------------------------------------------------------- interference

  datatype Actor = TheProducer | Consumer(c: nat)

  function By(a: Action): Actor {
    match a
    case LoadHead(c) => Consumer(c)
    case LoadTail(c) => Consumer(c)
    case GiveUp(c) => Consumer(c)
    case Take(c, _) => Consumer(c)
    case Copy(c, _) => Consumer(c)
    case Release(c, _) => Consumer(c)
    case _ => TheProducer
  }

  function Author(e: Event): Actor {
    match e
    case Pushed(_) => TheProducer
    case Took(c, _) => Consumer(c)
    case FoundEmpty(c) => Consumer(c)
  }

  ghost function EventsOf(evs: seq<Event>, who: Actor): seq<Event> {
    if evs == [] then []
    else EventsOf(evs[..|evs| - 1], who) + (if Author(evs[|evs| - 1]) == who then [evs[|evs| - 1]] else [])
  }

  lemma EventsAppend(evs: seq<Event>, e: Event, who: Actor)
    ensures EventsOf(evs + [e], who) == EventsOf(evs, who) + (if Author(e) == who then [e] else [])
  {
    LastOf(evs, e);
  }

  /** `s` goes to `s'` by `acts`, none of them an action of `who`; claims come from heads less than 2^32 behind. */
  ghost predicate Others(who: Actor, s: State, acts: seq<Action>, s': State)
    decreases |acts|
  {
    if acts == [] then s == s'
    else By(acts[0]) != who && Fresh(s, acts[0]) && exists mid :: Next(s, acts[0], mid) && Others(who, mid, acts[1..], s')
  }

  ghost predicate Interference(who: Actor, s: State, s': State) {
    exists acts :: Others(who, s, acts, s')
  }

  lemma NoInterference(who: Actor, s: State)
    ensures Interference(who, s, s)
  {
    assert Others(who, s, [], s);
  }

  /** `s` goes to `s'` by `acts`, of anybody. */
  ghost predicate Path(s: State, acts: seq<Action>, s': State)
    decreases |acts|
  {
    if acts == [] then s == s'
    else exists mid :: Next(s, acts[0], mid) && Path(mid, acts[1..], s')
  }

  ghost predicate Leads(s: State, s': State) {
    exists acts :: Path(s, acts, s')
  }

  lemma StepLeads(s: State, a: Action, s': State)
    requires Next(s, a, s')
    ensures Leads(s, s')
  {
    assert Path(s', [a][1..], s');
    assert Path(s, [a], s');
  }

  lemma {:induction false} OthersPath(who: Actor, s: State, acts: seq<Action>, s': State)
    requires Others(who, s, acts, s')
    ensures Path(s, acts, s')
    decreases |acts|
  {
    hide Next;
    if acts != [] {
      var mid :| Next(s, acts[0], mid) && Others(who, mid, acts[1..], s');
      OthersPath(who, mid, acts[1..], s');
    }
  }

  lemma InterferenceLeads(who: Actor, s: State, s': State)
    requires Interference(who, s, s')
    ensures Leads(s, s')
  {
    var acts :| Others(who, s, acts, s');
    OthersPath(who, s, acts, s');
  }

  lemma {:induction false} PathAppend(s: State, acts: seq<Action>, mid: State, more: seq<Action>, s': State)
    requires Path(s, acts, mid) && Path(mid, more, s')
    ensures Path(s, acts + more, s')
    decreases |acts|
  {
    hide Next;
    if acts == [] {
      assert acts + more == more;
    } else {
      var next :| Next(s, acts[0], next) && Path(next, acts[1..], mid);
      PathAppend(next, acts[1..], mid, more, s');
      assert (acts + more)[1..] == acts[1..] + more;
    }
  }

  lemma LeadsOn(s: State, mid: State, s': State)
    requires Leads(s, mid) && Leads(mid, s')
    ensures Leads(s, s')
  {
    var acts :| Path(s, acts, mid);
    var more :| Path(mid, more, s');
    PathAppend(s, acts, mid, more, s');
  }

  /** The cursors only move forward. */
  lemma {:induction false} PathAdvances(s: State, acts: seq<Action>, s': State)
    requires Path(s, acts, s')
    ensures s.tail <= s'.tail && s.blocked <= s'.blocked && s.stolen <= s'.stolen
    decreases |acts|
  {
    if acts != [] {
      var mid :| Next(s, acts[0], mid) && Path(mid, acts[1..], s');
      PathAdvances(mid, acts[1..], s');
      hide CanTake, Engaged, PeekAll, Peek;
    }
  }

  lemma LeadsForward(s: State, s': State)
    requires Leads(s, s')
    ensures s.tail <= s'.tail && s.blocked <= s'.blocked && s.stolen <= s'.stolen
  {
    var acts :| Path(s, acts, s');
    PathAdvances(s, acts, s');
  }

  /** States that were seen on the way from `from` to `to`. */
  ghost predicate Sightings(from: State, seen: seq<State>, to: State) {
    forall k :: 0 <= k < |seen| ==> Leads(from, seen[k]) && Leads(seen[k], to)
  }

  lemma LeadsSelf(s: State)
    ensures Leads(s, s)
  {
    assert Path(s, [], s);
  }

  lemma SightingsOn(from: State, seen: seq<State>, mid: State, to: State)
    requires Sightings(from, seen, mid) && Leads(mid, to)
    ensures Sightings(from, seen, to)
  {
    forall k | 0 <= k < |seen|
      ensures Leads(seen[k], to)
    {
      LeadsOn(seen[k], mid, to);
    }
  }

  lemma SightingsAdd(from: State, seen: seq<State>, to: State)
    requires Sightings(from, seen, to) && Leads(from, to)
    ensures Sightings(from, seen + [to], to)
  {
    LeadsSelf(to);
    hide Leads;
  }

  lemma SightingsSince(start: State, from: State, seen: seq<State>, to: State)
    requires Leads(start, from) && Sightings(from, seen, to)
    ensures Sightings(start, seen, to)
  {
    forall k | 0 <= k < |seen|
      ensures Leads(start, seen[k])
    {
      LeadsOn(start, from, seen[k]);
    }
  }

  ghost predicate ProducerSees(s: State, s': State) {
    && s'.cap == s.cap && s'.tail == s.tail && s'.mem == s.mem && s'.producer == s.producer
    && s.stolen <= s'.stolen
    && EventsOf(s'.events, TheProducer) == EventsOf(s.events, TheProducer)
  }

  ghost predicate ConsumerSees(c: nat, s: State, s': State) {
    && s'.cap == s.cap && s.blocked <= s'.blocked && s.stolen <= s'.stolen && s.tail <= s'.tail
    && (c in s'.snaps <==> c in s.snaps) && (c in s.snaps ==> s'.snaps[c] == s.snaps[c])
    && (forall cl: Claim :: cl.taker == c ==> (cl in s.claims <==> cl in s'.claims))
    && EventsOf(s'.events, Consumer(c)) == EventsOf(s.events, Consumer(c))
  }

  lemma {:induction false} ProducerStable(s: State, acts: seq<Action>, s': State)
    requires Inv(s) && Others(TheProducer, s, acts, s')
    ensures Inv(s') && ProducerSees(s, s')
    decreases |acts|
  {
    if acts != [] {
      var a := acts[0];
      var mid :| Next(s, a, mid) && Others(TheProducer, mid, acts[1..], s');
      StepInv(s, a, mid);
      ProducerSeesStep(s, a, mid);
      ProducerStable(mid, acts[1..], s');
    }
  }

  lemma ProducerSeesStep(s: State, a: Action, s': State)
    requires Next(s, a, s') && By(a) != TheProducer
    ensures ProducerSees(s, s')
  {
    if |s'.events| > |s.events| {
      EventsAppend(s.events, s'.events[|s.events|], TheProducer);
    }
    hide EventsOf, Engaged, Seen, Matches;
  }

  lemma {:induction false} ConsumerStable(c: nat, s: State, acts: seq<Action>, s': State)
    requires Inv(s) && Others(Consumer(c), s, acts, s')
    ensures Inv(s') && ConsumerSees(c, s, s')
    decreases |acts|
  {
    if acts != [] {
      var a := acts[0];
      var mid :| Next(s, a, mid) && Others(Consumer(c), mid, acts[1..], s');
      StepInv(s, a, mid);
      ConsumerSeesStep(c, s, a, mid);
      ConsumerStable(c, mid, acts[1..], s');
    }
  }

  lemma ConsumerSeesStep(c: nat, s: State, a: Action, s': State)
    requires Next(s, a, s') && By(a) != Consumer(c)
    ensures ConsumerSees(c, s, s')
  {
    LogOfOthers(c, s, a, s');
    hide EventsOf, Engaged, Seen, Matches, CanTake, Peek;
    forall cl: Claim | cl.taker == c
      ensures cl in s.claims <==> cl in s'.claims
    {
      if cl in s.claims && (a.Copy? || a.Release?) {
        var k :| 0 <= k < |s.claims| && s.claims[k] == cl;
        assert k != a.i;
        assert a.Copy? ==> s'.claims[k] == cl;
        assert a.Release? ==> s'.claims[if k < a.i then k else k - 1] == cl;
      }
    }
  }

  lemma LogOfOthers(c: nat, s: State, a: Action, s': State)
    requires Next(s, a, s') && By(a) != Consumer(c)
    ensures EventsOf(s'.events, Consumer(c)) == EventsOf(s.events, Consumer(c))
  {
    hide Engaged, Seen, Matches, CanTake, Peek;
    if |s'.events| > |s.events| {
      EventsAppend(s.events, s'.events[|s.events|], Consumer(c));
    }
    hide EventsOf;
  }

  lemma ProducerRelies(s: State, s': State)
    requires Inv(s) && Interference(TheProducer, s, s')
    ensures Inv(s') && ProducerSees(s, s')
  {
    var acts :| Others(TheProducer, s, acts, s');
    ProducerStable(s, acts, s');
  }

  lemma ConsumerRelies(c: nat, s: State, s': State)
    requires Inv(s) && Interference(Consumer(c), s, s')
    ensures Inv(s') && ConsumerSees(c, s, s')
  {
    var acts :| Others(Consumer(c), s, acts, s');
    ConsumerStable(c, s, acts, s');
  }
}
