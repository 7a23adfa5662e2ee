/**
 The SPMC ring as it is stored: the packed word `(stolen, blocked)`, a separate 32-bit `tail` and a
 masked slot array. Each atomic action refines one action of `Spmc`; the operations are the code's
 own loops with interference by all other threads between any two atomic actions.
 */
module SpmcRings {
  import opened Words
  import opened Jobs
  import opened Claims
  import S = Spmc

  datatype Taken =
    | Nothing
    | Got(jobs: seq<Job>)
      /** All exchanges failed. */
    | Contended
      /** The claim was made and read, but all polls passed before its turn. */
    | Waiting

  /** How the exchange loop ended: with a claim, on an empty ring, or with every exchange lost. */
  datatype Claiming = Made | Vacant | Outrun

  /** How far the other threads may run while a consumer is between two of its actions. */
  datatype Limit = NoLimit | TailBelow(bound: nat) | HeadBelow(bound: nat)

  ghost predicate Obeys(limit: Limit, v: S.State) {
    match limit
    case NoLimit => true
    case TailBelow(bound) => v.tail < bound
    case HeadBelow(bound) => v.blocked < bound
  }

  /**
   What a consumer met on its way: `seen`, the ring at one of its snapshots; `taken`, what it claimed;
   `moved`, the ring at each exchange that failed because the head had moved; `polled`, its polls for its turn.
   */
  datatype Witness = Witness(seen: S.State, taken: seq<Job>, moved: seq<S.State>, polled: seq<Poll>)

  /** A poll in vain: the ring at the load and, if it was the claim's turn, at the exchange; or a spurious failure. */
  datatype Poll = Poll(atLoad: S.State, atSwap: S.State, glitch: bool)

  /** A later claim landed between load and exchange. */
  ghost predicate Overtaken(p: Poll) {
    !p.glitch && p.atLoad.blocked < p.atSwap.blocked
  }

  /** Why a poll of `c` failed: an older claim was pending, a later claim landed in between, or for no reason. */
  ghost predicate Explained(p: Poll, c: nat) {
    Behind(p.atLoad.claims, c) || Overtaken(p) || p.glitch
  }

  ghost function Losses(polled: seq<Poll>): nat {
    if polled == [] then 0
    else Losses(polled[..|polled| - 1]) + if Overtaken(polled[|polled| - 1]) then 1 else 0
  }

  ghost function Glitches(polled: seq<Poll>): nat {
    if polled == [] then 0
    else Glitches(polled[..|polled| - 1]) + if polled[|polled| - 1].glitch then 1 else 0
  }

  lemma CountLast(polled: seq<Poll>, p: Poll)
    ensures Losses(polled + [p]) == Losses(polled) + if Overtaken(p) then 1 else 0
    ensures Glitches(polled + [p]) == Glitches(polled) + if p.glitch then 1 else 0
  {
    assert (polled + [p])[..|polled|] == polled;
  }

  ghost predicate PollsBetween(v0: S.State, polled: seq<Poll>, v: S.State) {
    forall k :: 0 <= k < |polled| ==>
      S.Leads(v0, polled[k].atLoad) && S.Leads(polled[k].atLoad, polled[k].atSwap) && S.Leads(polled[k].atSwap, v)
  }

  /**
   What polling in vain for the turn of `cl` has met. Once its turn has come no poll finds an older claim,
   and every later claim that gets in the way has taken at least one more slot behind it.
   */
  ghost predicate Waited(v0: S.State, polled: seq<Poll>, cl: Claim, v: S.State) {
    && PollsBetween(v0, polled, v)
    && cl.End() + Losses(polled) <= v.blocked
    && (forall k :: 0 <= k < |polled| ==> Explained(polled[k], cl.taker))
    && (forall k :: 0 <= k < |polled| ==> v.stolen == cl.start || Behind(polled[k].atLoad.claims, cl.taker))
    && (forall k :: 0 <= k < |polled| - Losses(polled) - Glitches(polled) ==> Behind(polled[k].atLoad.claims, cl.taker))
  }

  lemma WaitedNot(v: S.State, cl: Claim)
    requires S.Inv(v) && cl in v.claims
    ensures Waited(v, [], cl, v)
  {
    var i :| 0 <= i < |v.claims| && v.claims[i] == cl;
    TilesBounds(v.claims, v.stolen, v.blocked, i);
  }

  lemma WaitedOn(v0: S.State, polled: seq<Poll>, cl: Claim, v: S.State, v': S.State)
    requires Waited(v0, polled, cl, v) && S.Leads(v, v')
    requires v.blocked <= v'.blocked && v.stolen <= v'.stolen <= cl.start
    ensures Waited(v0, polled, cl, v')
  {
    hide S.Leads, Behind, Explained, Losses, Glitches;
    forall k | 0 <= k < |polled|
      ensures S.Leads(polled[k].atSwap, v')
    {
      S.LeadsOn(polled[k].atSwap, v, v');
    }
  }

  /** One more poll, which found an older claim. */
  lemma WaitedBehind(v0: S.State, polled: seq<Poll>, cl: Claim, v: S.State)
    requires Waited(v0, polled, cl, v) && S.Leads(v0, v) && v.stolen != cl.start && Behind(v.claims, cl.taker)
    ensures Waited(v0, polled + [Poll(v, v, false)], cl, v)
  {
    S.LeadsSelf(v);
    CountLast(polled, Poll(v, v, false));
    hide S.Leads, Behind, Losses, Glitches;
  }

  /** One more poll, at the claim's turn, whose exchange failed. */
  lemma WaitedMore(v0: S.State, polled: seq<Poll>, cl: Claim, v: S.State, v': S.State, glitch: bool)
    requires Waited(v0, polled, cl, v) && S.Leads(v0, v) && S.Leads(v, v')
    requires v.stolen == v'.stolen == cl.start && v.blocked <= v'.blocked && (glitch || v.blocked < v'.blocked)
    ensures Waited(v0, polled + [Poll(v, v', glitch)], cl, v')
  {
    WaitedOn(v0, polled, cl, v, v');
    S.LeadsSelf(v');
    CountLast(polled, Poll(v, v', glitch));
    hide S.Leads, Behind, Losses, Glitches;
  }

  /** Later claims get in the way at most once for each slot they can take behind the claim. */
  lemma LossesAreBounded(v0: S.State, polled: seq<Poll>, cl: Claim, v: S.State)
    requires Waited(v0, polled, cl, v) && S.Inv(v) && cl in v.claims
    ensures Losses(polled) <= v.cap - |cl.promise|
  {
    var i :| 0 <= i < |v.claims| && v.claims[i] == cl;
    TilesBounds(v.claims, v.stolen, v.blocked, i);
    assert v.blocked <= v.stolen + v.cap;
  }

  lemma WaitedInVain(v0: S.State, polled: seq<Poll>, cl: Claim, v: S.State, spurious: nat)
    requires Waited(v0, polled, cl, v) && Glitches(polled) <= spurious && Losses(polled) <= v.cap - |cl.promise|
    ensures InVain(polled, cl.taker, |polled|, spurious, v.cap, |cl.promise|) && PollsBetween(v0, polled, v)
  {
    hide PollsBetween, Behind, Explained, Losses, Glitches;
  }

  lemma PollsOn(v0: S.State, polled: seq<Poll>, cl: Claim, v: S.State, v': S.State)
    requires Waited(v0, polled, cl, v) && S.Leads(v, v')
    ensures PollsBetween(v0, polled, v')
  {
    hide S.Leads, Behind, Explained, Losses, Glitches;
    forall k | 0 <= k < |polled|
      ensures S.Leads(polled[k].atSwap, v')
    {
      S.LeadsOn(polled[k].atSwap, v, v');
    }
  }

  lemma WaitedSince(start: S.State, v0: S.State, polled: seq<Poll>, v: S.State)
    requires S.Leads(start, v0) && PollsBetween(v0, polled, v)
    ensures PollsBetween(start, polled, v)
  {
    forall k | 0 <= k < |polled|
      ensures S.Leads(start, polled[k].atLoad)
    {
      S.LeadsOn(start, v0, polled[k].atLoad);
    }
  }

  /** The polls of a claim of `amount` slots that was left waiting, in a ring of `cap` slots. */
  ghost predicate InVain(polled: seq<Poll>, c: nat, polls: nat, spurious: nat, cap: nat, amount: nat) {
    && |polled| == polls && (forall k :: 0 <= k < polls ==> Explained(polled[k], c))
    && Glitches(polled) <= spurious && Losses(polled) <= cap - amount
    && forall k :: 0 <= k < polls - spurious - (cap - amount) ==> Behind(polled[k].atLoad.claims, c)
  }

  /** How far a snapshot's head is; every exchange moves the head on. */
  ghost function Reach(p: S.Snap): nat {
    p.stolen + p.blocked
  }

  /** At each of these moments the head was no longer where consumer `c` had last seen it, each time further on. */
  ghost predicate HeadMoved(moved: seq<S.State>, c: nat) {
    && (forall k :: 0 <= k < |moved| ==>
          c in moved[k].snaps && moved[k].snaps[c].Both? && !S.Matches(moved[k], moved[k].snaps[c]))
    && (forall j, k :: 0 <= j < k < |moved| ==> Reach(moved[j].snaps[c]) < Reach(moved[k].snaps[c]))
  }

  /** One past the highest cursor whose slot is in use. */
  ghost function Top(v: S.State): nat {
    match v.producer
    case Filling(_, staged) => v.tail + |staged|
    case Rest => v.tail
  }

  ghost predicate Represents(head: u64, tail: u32, cells: seq<Job>, v: S.State) {
    && IsCapacity(v.cap) && |cells| == v.cap
    && head == Pack(Low(v.stolen), Low(v.blocked))
    && tail == Low(v.tail)
    && Top(v) <= |v.mem|
    && forall c :: v.stolen <= c < Top(v) ==> cells[Slot(c, v.cap)] == v.mem[c]
  }

  ghost function Written(v: S.State, x: Job): S.State
    requires v.producer.Filling? && v.tail + |v.producer.staged| <= |v.mem|
  {
    v.(mem := Store(v.mem, v.tail + |v.producer.staged|, x), producer := v.producer.(staged := v.producer.staged + [x]))
  }

  lemma WriteIsStep(v: S.State, x: Job)
    requires S.Inv(v) && v.producer.Filling? && |v.producer.staged| < v.producer.room
    ensures Top(v) == v.tail + |v.producer.staged| <= |v.mem| && v.cap > 0
    ensures S.Next(v, S.Write(x), Written(v, x)) && S.Inv(Written(v, x))
    ensures forall c :: v.stolen <= c < Top(v) ==> Slot(c, v.cap) != Slot(Top(v), v.cap)
  {
    assert Top(v) <= |v.mem|;
    hide S.Inv, Slot;
    S.WriteStep(v, x, Written(v, x));
    S.WriteIsSafe(v, x, Written(v, x));
    hide S.Next;
  }

  /** Writing one more slot keeps every other live slot. */
  lemma WriteRepresents(head: u64, tail: u32, cells: seq<Job>, v: S.State, x: Job)
    requires S.Inv(v) && Represents(head, tail, cells, v)
    requires v.producer.Filling? && |v.producer.staged| < v.producer.room
    ensures Top(v) <= |v.mem| && v.cap > 0 && Slot(Top(v), v.cap) < |cells|
    ensures S.Next(v, S.Write(x), Written(v, x)) && S.Inv(Written(v, x))
    ensures Represents(head, tail, cells[Slot(Top(v), v.cap) := x], Written(v, x))
  {
    hide S.Inv, S.Next, IsCapacity, Low, Pack, Slot;
    WriteIsStep(v, x);
    var w, cells' := Top(v), cells[Slot(Top(v), v.cap) := x];
    forall c | v.stolen <= c < w + 1
      ensures cells'[Slot(c, v.cap)] == Written(v, x).mem[c]
    {
      assert c < w ==> cells[Slot(c, v.cap)] == v.mem[c];
    }
    assert Top(Written(v, x)) == w + 1;
  }

  ghost function Published(v: S.State): S.State
    requires v.producer.Filling?
  {
    v.(tail := v.tail + |v.producer.staged|, producer := S.Rest,
       events := if v.producer.staged == [] then v.events else v.events + [S.Pushed(v.producer.staged)])
  }

  lemma PublishRepresents(head: u64, tail: u32, cells: seq<Job>, v: S.State, amount: nat)
    requires S.Inv(v) && Represents(head, tail, cells, v) && v.producer.Filling? && |v.producer.staged| == amount
    ensures S.Next(v, S.Publish, Published(v)) && S.Inv(Published(v))
    ensures Represents(head, WrapAdd(tail, Low(amount)), cells, Published(v))
  {
    LowAdd(v.tail, amount);
    S.PublishStep(v, Published(v));
    hide S.Inv, IsCapacity, Low, WrapAdd, Slot;
  }

  ghost function Claimed(v: S.State, c: nat, n: nat): S.State
    requires v.blocked + n <= |v.mem|
  {
    var taken := v.mem[v.blocked..v.blocked + n];
    v.(blocked := v.blocked + n, claims := v.claims + [Claim(c, v.blocked, taken, [])],
       snaps := v.snaps - {c}, events := v.events + [S.Took(c, taken)])
  }

  lemma ClaimIsStep(v: S.State, c: nat, n: nat)
    requires S.Inv(v) && S.CanTake(v, c, n) && S.Fresh(v, S.Take(c, n))
    ensures v.blocked == v.snaps[c].blocked && v.stolen == v.snaps[c].stolen && v.blocked + n <= |v.mem|
    ensures S.Next(v, S.Take(c, n), Claimed(v, c, n)) && S.Inv(Claimed(v, c, n))
  {
    S.FreshTakeIsSafe(v, c, n);
    assert v.tail <= |v.mem|;
    hide S.Inv, S.CanTake, S.Fresh;
    assert S.PeekAll(v.mem, v.cap, v.blocked, n) == v.mem[v.blocked..v.blocked + n];
    hide S.PeekAll;
    S.TakeStep(v, c, n, Claimed(v, c, n));
  }

  /** With the head loaded less than 2^32 ago, a successful exchange is a correct claim. */
  lemma ClaimRepresents(head: u64, tail: u32, cells: seq<Job>, v: S.State, c: nat, n: nat)
    requires S.Inv(v) && Represents(head, tail, cells, v) && S.CanTake(v, c, n) && S.Fresh(v, S.Take(c, n))
    ensures v.blocked == v.snaps[c].blocked && v.stolen == v.snaps[c].stolen && v.blocked + n <= |v.mem|
    ensures S.Next(v, S.Take(c, n), Claimed(v, c, n)) && S.Inv(Claimed(v, c, n))
    ensures Represents(Pack(Low(v.stolen), WrapAdd(Low(v.blocked), Low(n))), tail, cells, Claimed(v, c, n))
  {
    hide S.Inv, S.Next, S.CanTake, S.Fresh, Low, WrapAdd, Slot, Pack, IsCapacity;
    ClaimIsStep(v, c, n);
    LowAdd(v.blocked, n);
    assert Top(Claimed(v, c, n)) == Top(v);
  }

  /** The exchange of a consumer with a fresh snapshot: when it succeeds, and what it then is. */
  lemma SwapIsExact(head: u64, tail: u32, cells: seq<Job>, v: S.State, c: nat, n: nat)
    requires S.Inv(v) && Represents(head, tail, cells, v) && c in v.snaps && v.snaps[c].Both? && !Engaged(v.claims, c)
    requires 0 < n <= S.Seen(v.snaps[c]) && S.Fresh(v, S.Take(c, n))
    ensures var p := v.snaps[c]; head == Pack(Low(p.stolen), Low(p.blocked)) <==> S.Matches(v, p)
    ensures S.Matches(v, v.snaps[c]) ==>
      && v.blocked + n <= |v.mem| && v.blocked == v.snaps[c].blocked && Claimed(v, c, n).cap == v.cap
      && S.Next(v, S.Take(c, n), Claimed(v, c, n)) && S.Inv(Claimed(v, c, n))
      && Represents(Pack(Low(v.snaps[c].stolen), WrapAdd(Low(v.blocked), Low(n))), tail, cells, Claimed(v, c, n))
  {
    var p := v.snaps[c];
    UnpackPack(Low(p.stolen), Low(p.blocked));
    UnpackPack(Low(v.stolen), Low(v.blocked));
    assert head == Pack(Low(v.stolen), Low(v.blocked));
    hide S.Inv, Represents, Low, WrapAdd, Pack, Unpack, Engaged, S.Seen, S.Fresh, S.Next;
    if S.Matches(v, p) {
      assert S.CanTake(v, c, n);
      hide S.CanTake;
      ClaimRepresents(head, tail, cells, v, c, n);
    }
  }

  ghost function Copied(v: S.State, i: nat): S.State
    requires i < |v.claims| && v.claims[i].start + |v.claims[i].got| < |v.mem|
  {
    var c := v.claims[i];
    v.(claims := v.claims[i := c.(got := c.got + [v.mem[c.start + |c.got|]])])
  }

  lemma CopyStays(v: S.State, c: Claim) returns (i: nat)
    requires S.Inv(v) && c in v.claims && |c.got| < |c.promise|
    ensures i < |v.claims| && v.claims[i] == c
    ensures v.stolen <= c.start + |c.got| < v.blocked <= v.tail <= Top(v) && v.blocked <= |v.mem|
    ensures v.mem[c.start + |c.got|] == c.promise[|c.got|]
    ensures S.Next(v, S.Copy(c.taker, i), Copied(v, i)) && S.Inv(Copied(v, i))
    ensures c.(got := c.promise[..|c.got| + 1]) in Copied(v, i).claims
  {
    i :| 0 <= i < |v.claims| && v.claims[i] == c;
    TilesBounds(v.claims, v.stolen, v.blocked, i);
    assert Kept(c, v.mem);
    var k := |c.got|;
    assert v.mem[c.start + k] == v.mem[c.start..c.End()][k];
    assert v.blocked <= v.tail <= |v.mem|;
    hide S.Inv, Sound, Kept;
    S.CopyStep(v, c.taker, i, Copied(v, i));
    assert c.got + [c.promise[k]] == c.promise[..k + 1];
    assert Copied(v, i).claims[i] in Copied(v, i).claims;
  }

  lemma CopyRepresents(head: u64, tail: u32, cells: seq<Job>, v: S.State, i: nat)
    requires Represents(head, tail, cells, v)
    requires i < |v.claims| && v.claims[i].start + |v.claims[i].got| < |v.mem|
    ensures Represents(head, tail, cells, Copied(v, i))
  {
    hide Low, IsCapacity, Slot;
  }

  lemma LiveSlot(head: u64, tail: u32, cells: seq<Job>, v: S.State, base: nat, offset: nat)
    requires Represents(head, tail, cells, v) && v.stolen <= base + offset < Top(v)
    ensures SlotOf(WrapAdd(Low(base), Low(offset)), v.cap - 1) < |cells|
    ensures cells[SlotOf(WrapAdd(Low(base), Low(offset)), v.cap - 1)] == v.mem[base + offset]
  {
    LowAdd(base, offset);
    MaskedSlot(base + offset, v.cap);
    hide Low, WrapAdd, SlotOf, IsCapacity;
  }

  /** With nobody inside, the words give the number of items. */
  lemma AtRest(head: u64, tail: u32, cells: seq<Job>, v: S.State)
    requires S.Inv(v) && Represents(head, tail, cells, v) && v.producer.Rest?
    ensures v.stolen <= v.blocked <= v.tail == Top(v) <= |v.mem|
    ensures Unpack(head).1 == Low(v.blocked) && FilledSlots(tail, Low(v.blocked)) == v.tail - v.blocked
  {
    UnpackPack(Low(v.stolen), Low(v.blocked));
    WrappedDifferences(v.cap, v.tail, v.blocked, v.stolen);
  }

  ghost function Released(v: S.State): S.State
    requires v.claims != []
  {
    v.(stolen := v.stolen + |v.claims[0].promise|, claims := v.claims[..0] + v.claims[0 + 1..])
  }

  lemma TurnIsExact(v: S.State, c: Claim)
    requires S.Inv(v) && c in v.claims
    ensures Low(v.stolen) == Low(c.start) <==> v.stolen == c.start
  {
    var i :| 0 <= i < |v.claims| && v.claims[i] == c;
    TilesBounds(v.claims, v.stolen, v.blocked, i);
    assert v.blocked <= v.stolen + v.cap;
    if Low(v.stolen) == Low(c.start) {
      LowInjective(v.stolen, c.start);
    }
  }

  lemma ReleaseIsStep(v: S.State, c: Claim)
    requires S.Inv(v) && c in v.claims && c.got == c.promise && c.start == v.stolen
    ensures v.claims != [] && v.claims[0] == c
    ensures S.Next(v, S.Release(c.taker, 0), Released(v)) && S.Inv(Released(v))
    ensures !Engaged(Released(v).claims, c.taker)
  {
    var i :| 0 <= i < |v.claims| && v.claims[i] == c;
    ReleaseIsFirst(v.claims, v.stolen, v.blocked, i);
    DropOldest(v.claims, v.stolen, v.blocked, v.mem);
    hide Sound, Engaged, S.Inv;
    assert S.Next(v, S.Release(c.taker, 0), Released(v));
    S.ReleaseStep(v, c.taker, 0, Released(v));
  }

  lemma ReleaseRepresents(head: u64, tail: u32, cells: seq<Job>, v: S.State, c: Claim)
    requires S.Inv(v) && Represents(head, tail, cells, v)
    requires c in v.claims && c.got == c.promise && c.start == v.stolen
    ensures v.claims != [] && S.Next(v, S.Release(c.taker, 0), Released(v)) && S.Inv(Released(v))
    ensures !Engaged(Released(v).claims, c.taker)
    ensures Represents(Pack(WrapAdd(Low(v.stolen), Low(|c.promise|)), Low(v.blocked)), tail, cells, Released(v))
  {
    hide S.Next, S.Inv, Low, WrapAdd, Pack, IsCapacity, Slot, Engaged;
    ReleaseIsStep(v, c);
    LowAdd(v.stolen, |c.promise|);
  }

  /** At its turn a claimant compares the whole word, and within one ring's length that compares the true cursors. */
  lemma ReleaseIsExact(head: u64, tail: u32, cells: seq<Job>, v: S.State, c: Claim, was: nat)
    requires S.Inv(v) && Represents(head, tail, cells, v) && v.stolen == c.start <= was <= v.blocked
    ensures head == Pack(Low(c.start), Low(was)) <==> v.blocked == was
  {
    UnpackPack(Low(c.start), Low(was));
    UnpackPack(Low(v.stolen), Low(v.blocked));
    assert head == Pack(Low(v.stolen), Low(v.blocked));
    assert v.blocked <= v.stolen + v.cap && v.cap < MAX_CAPACITY;
    hide S.Inv, Represents, Pack, Unpack;
    if Low(v.blocked) == Low(was) {
      LowInjective(was, v.blocked);
    }
  }

  /** The snapshot of `c` in `seen` was taken between `v0` and `v`. */
  ghost predicate Glimpse(v0: S.State, seen: S.State, v: S.State, c: nat) {
    && c in seen.snaps && seen.snaps[c].Both?
    && var p := seen.snaps[c];
    && v0.blocked <= p.blocked <= v.blocked && v0.tail <= p.tail <= v.tail && p.blocked <= p.tail
  }

  lemma GlimpseIs(v0: S.State, seen: S.State, v: S.State, c: nat)
    requires Glimpse(v0, seen, v, c)
    ensures c in seen.snaps && seen.snaps[c].Both? && seen.snaps[c].blocked <= seen.snaps[c].tail
  {
  }

  lemma GlimpseOf(v0: S.State, v: S.State, c: nat)
    requires c in v.snaps && v.snaps[c].Both? && v.snaps[c].blocked == v0.blocked <= v.snaps[c].tail
    requires v0.blocked <= v.blocked && v0.tail <= v.snaps[c].tail <= v.tail
    ensures Glimpse(v0, v, v, c)
  {
  }

  /** If the cursors show that nobody else pushed or took, the snapshot saw the queue as it was. */
  lemma TakenAlone(v0: S.State, seen: S.State, v: S.State, v': S.State, c: nat, amount: nat, max: nat)
    requires Glimpse(v0, seen, v, c) && v.blocked + amount <= v'.blocked && v.tail <= v'.tail
    requires amount == Min(max, seen.snaps[c].tail - seen.snaps[c].blocked)
    ensures v'.tail == v0.tail && v'.blocked == v0.blocked + amount ==>
      v0.blocked <= v0.tail && amount == Min(max, v0.tail - v0.blocked)
  {
  }

  /** The exchanges that failed before the head reached `reach`, seen between `v0` and `v`. */
  ghost predicate MovedBy(v0: S.State, moved: seq<S.State>, c: nat, reach: nat, v: S.State) {
    HeadMoved(moved, c) && S.Sightings(v0, moved, v) && forall k :: 0 <= k < |moved| ==> Reach(moved[k].snaps[c]) < reach
  }

  lemma NoneMoved(v0: S.State, c: nat, reach: nat, v: S.State)
    ensures MovedBy(v0, [], c, reach, v)
  {
  }

  lemma MovedMore(v0: S.State, moved: seq<S.State>, c: nat, v: S.State)
    requires c in v.snaps && v.snaps[c].Both? && MovedBy(v0, moved, c, Reach(v.snaps[c]), v) && S.Leads(v0, v)
    requires !S.Matches(v, v.snaps[c]) && v.snaps[c].stolen <= v.stolen && v.snaps[c].blocked <= v.blocked
    ensures MovedBy(v0, moved + [v], c, v.stolen + v.blocked, v)
  {
    S.SightingsAdd(v0, moved, v);
    hide S.Sightings, Low;
  }

  lemma MovedOn(v0: S.State, moved: seq<S.State>, c: nat, reach: nat, v: S.State, reach': nat, v': S.State)
    requires MovedBy(v0, moved, c, reach, v) && reach <= reach' && S.Leads(v, v')
    ensures MovedBy(v0, moved, c, reach', v')
  {
    S.SightingsOn(v0, moved, v, v');
    hide S.Sightings, HeadMoved, Reach;
  }

  /** Attempts since `v0`, now at snapshot `v.snaps[c]`, with `amount` the least of `max` and what `seen` showed. */
  ghost predicate Trying(v0: S.State, seen: S.State, moved: seq<S.State>, c: nat, amount: nat, max: nat, v: S.State) {
    && S.Leads(v0, v) && S.Leads(v0, seen) && S.Leads(seen, v)
    && Glimpse(v0, seen, v, c) && Glimpse(v0, v, v, c)
    && amount <= max && (amount == max || amount == seen.snaps[c].tail - seen.snaps[c].blocked)
    && MovedBy(v0, moved, c, Reach(v.snaps[c]), v)
  }

  lemma TryLeads(v0: S.State, seen: S.State, moved: seq<S.State>, c: nat, amount: nat, max: nat, v: S.State)
    requires Trying(v0, seen, moved, c, amount, max, v)
    ensures S.Leads(v0, v) && S.Leads(v0, seen) && S.Leads(seen, v) && Glimpse(v0, seen, v, c)
  {
    hide S.Leads, MovedBy, Glimpse;
  }

  lemma MovedIs(v0: S.State, moved: seq<S.State>, c: nat, reach: nat, v: S.State)
    requires MovedBy(v0, moved, c, reach, v)
    ensures HeadMoved(moved, c) && S.Sightings(v0, moved, v)
  {
  }

  lemma TryStart(v0: S.State, v: S.State, c: nat, max: nat)
    requires S.Leads(v0, v) && Glimpse(v0, v, v, c)
    ensures Trying(v0, v, [], c, max, max, v)
  {
    S.LeadsSelf(v);
    NoneMoved(v0, c, Reach(v.snaps[c]), v);
    hide S.Leads, MovedBy;
  }

  /** The attempt takes no more than its own snapshot shows. */
  lemma TryNarrow(v0: S.State, seen: S.State, moved: seq<S.State>, c: nat, amount: nat, max: nat, v: S.State)
    requires Trying(v0, seen, moved, c, amount, max, v)
    ensures var filled := v.snaps[c].tail - v.snaps[c].blocked;
      && Glimpse(v0, seen, v, c)
      && (filled < amount || amount == max ==>
            Trying(v0, v, moved, c, Min(filled, amount), max, v) && Min(filled, amount) == Min(max, filled))
      && (!(filled < amount || amount == max) ==> amount == Min(max, seen.snaps[c].tail - seen.snaps[c].blocked))
  {
    S.LeadsSelf(v);
    hide S.Leads, MovedBy;
  }

  /** The exchange failed, for no reason or because the head had moved. */
  lemma TryFailed(v0: S.State, seen: S.State, moved: seq<S.State>, c: nat, amount: nat, max: nat, v: S.State, glitch: bool)
    requires Trying(v0, seen, moved, c, amount, max, v) && v.snaps[c].stolen <= v.stolen
    requires glitch || !S.Matches(v, v.snaps[c])
    ensures MovedBy(v0, if glitch then moved else moved + [v], c, v.stolen + v.blocked, v)
  {
    if glitch {
      S.LeadsSelf(v);
      MovedOn(v0, moved, c, Reach(v.snaps[c]), v, v.stolen + v.blocked, v);
    } else {
      MovedMore(v0, moved, c, v);
    }
  }

  /** After a failed exchange the consumer looks again. */
  lemma TryAgain(v0: S.State, seen: S.State, moved: seq<S.State>, moved': seq<S.State>, c: nat, amount: nat, max: nat,
                 v: S.State, v': S.State)
    requires Trying(v0, seen, moved, c, amount, max, v) && MovedBy(v0, moved', c, v.stolen + v.blocked, v)
    requires S.Leads(v, v') && c in v'.snaps && v'.snaps[c].Both?
    requires var p := v'.snaps[c];
      p.stolen == v.stolen && p.blocked == v.blocked <= p.tail && p.blocked <= v'.blocked && v.tail <= p.tail <= v'.tail
    ensures Trying(v0, seen, moved', c, amount, max, v')
  {
    S.LeadsOn(v0, v, v');
    S.LeadsOn(seen, v, v');
    S.LeadsForward(v, v');
    MovedOn(v0, moved', c, v.stolen + v.blocked, v, Reach(v'.snaps[c]), v');
    hide S.Leads, MovedBy;
  }

  class Ring {
    var head: u64
    var tail: u32
    const cells: array<Job>
    const mask: u32
    /** The unbounded ring this ring represents. */
    ghost var view: S.State

    ghost predicate Valid()
      reads this, cells
    {
      && S.Inv(view)
      && mask == view.cap - 1
      && Represents(head, tail, cells[..], view)
    }

    ghost function EventsOf(who: S.Actor): seq<S.Event>
      reads this
    {
      S.EventsOf(view.events, who)
    }

    constructor (capacity: nat)
      requires IsCapacity(capacity)
      ensures Valid() && view == S.Init(capacity) && fresh(cells)
    {
      head := Pack(0, 0);
      tail := 0;
      cells := new Job[capacity](_ => 0);
      mask := capacity - 1;
      view := S.Init(capacity);
    }

    // -------------------------------------------------------------- interference

    /** Between two producer actions the consumers take any finite number of steps. */
    method OthersThanProducer()
      requires Valid()
      modifies this`head, this`view
      ensures Valid() && S.Interference(S.TheProducer, old(view), view)
    {
      S.NoInterference(S.TheProducer, view);
    }

    method YieldAsProducer()
      requires Valid()
      modifies this`head, this`view
      ensures Valid() && S.ProducerSees(old(view), view)
    {
      ghost var v := view;
      OthersThanProducer();
      S.ProducerRelies(v, view);
    }

    /** Between two actions of consumer `c` everybody else takes any finite number of steps within `limit`. */
    method OthersThanConsumer(c: nat, ghost limit: Limit)
      requires Valid() && Obeys(limit, view)
      modifies this`head, this`tail, this`view, cells
      ensures Valid() && S.Interference(S.Consumer(c), old(view), view) && Obeys(limit, view)
    {
      S.NoInterference(S.Consumer(c), view);
    }

    method YieldAsConsumer(c: nat, ghost limit: Limit)
      requires Valid() && Obeys(limit, view)
      modifies this`head, this`tail, this`view, cells
      ensures Valid() && S.ConsumerSees(c, old(view), view) && Obeys(limit, view)
      ensures S.Leads(old(view), view)
    {
      ghost var v := view;
      OthersThanConsumer(c, limit);
      S.InterferenceLeads(S.Consumer(c), v, view);
      S.ConsumerRelies(c, v, view);
    }

    // -------------------------------------------------------------- atomic actions

    /** The producer's head load: its own tail is known, so this fixes the free slots. */
    method LoadRoom() returns (free: u32)
      requires Valid() && view.producer.Rest?
      modifies this`view
      ensures Valid() && S.Next(old(view), S.Measure, view) && free == view.producer.room
    {
      UnpackPack(Low(view.stolen), Low(view.blocked));
      WrappedDifferences(view.cap, view.tail, view.blocked, view.stolen);
      free := EmptySlots(mask + 1, tail, Unpack(head).0);
      view := view.(producer := S.Filling(view.stolen + view.cap - view.tail, []));
    }

    method WriteSlot(at: u32, offset: nat, x: Job)
      requires Valid() && view.producer.Filling? && |view.producer.staged| == offset < view.producer.room
      requires at == Low(view.tail)
      modifies this`view, cells
      ensures Valid() && S.Next(old(view), S.Write(x), view)
    {
      hide Low, WrapAdd, WrapSub, SlotOf, FilledSlots;
      ghost var v, slots := view, cells[..];
      LowAdd(v.tail, offset);
      MaskedSlot(v.tail + offset, v.cap);
      WriteRepresents(head, tail, slots, v, x);
      hide *;
      cells[SlotOf(WrapAdd(at, Low(offset)), mask)] := x;
      view := Written(v, x);
      assert cells[..] == slots[Slot(v.tail + offset, v.cap) := x];
    }

    /** The producer's plain store of the tail. */
    method StoreTail(at: u32, amount: nat)
      requires Valid() && view.producer.Filling? && |view.producer.staged| == amount && at == Low(view.tail)
      modifies this`tail, this`view
      ensures Valid() && S.Next(old(view), S.Publish, view)
    {
      PublishRepresents(head, tail, cells[..], view, amount);
      assert at == tail;
      hide *;
      tail := WrapAdd(at, Low(amount));
      view := Published(view);
    }

    /** A consumer's head load, or the head a failed exchange hands back. */
    method LoadHead(c: nat) returns (stolen: u32, blocked: u32)
      requires Valid() && !Engaged(view.claims, c)
      modifies this`view
      ensures Valid() && S.Next(old(view), S.LoadHead(c), view)
      ensures stolen == Low(view.stolen) && blocked == Low(view.blocked) && view.tail < view.blocked + M32
    {
      UnpackPack(Low(view.stolen), Low(view.blocked));
      assert view.tail <= view.stolen + view.cap && view.cap < MAX_CAPACITY;
      var halves := Unpack(head);
      stolen, blocked := halves.0, halves.1;
      ghost var v := view;
      view := v.(snaps := v.snaps[c := S.Head(v.stolen, v.blocked)]);
      S.StepInv(v, S.LoadHead(c), view);
      hide S.Inv, Low, IsCapacity, Slot, Engaged;
    }

    method LoadTail(c: nat) returns (at: u32)
      requires Valid() && c in view.snaps && view.snaps[c].Head?
      modifies this`view
      ensures Valid() && S.Next(old(view), S.LoadTail(c), view) && at == Low(view.tail)
    {
      at := tail;
      ghost var v := view;
      ghost var p := v.snaps[c];
      view := v.(snaps := v.snaps[c := S.Both(p.stolen, p.blocked, v.tail, v.tail == v.blocked)],
                 events := if v.tail == p.blocked then v.events + [S.FoundEmpty(c)] else v.events);
      S.StepInv(v, S.LoadTail(c), view);
      hide S.Inv, Low, IsCapacity, Slot;
    }

    /** The consumer's weak exchange `(stolen, blocked) -> (stolen, blocked + n)`. */
    method SwapHead(c: nat, stolen: u32, blocked: u32, n: nat, spurious: bool) returns (ok: bool)
      requires Valid() && c in view.snaps && view.snaps[c].Both? && !Engaged(view.claims, c)
      requires stolen == Low(view.snaps[c].stolen) && blocked == Low(view.snaps[c].blocked)
      requires 0 < n <= S.Seen(view.snaps[c]) && S.Fresh(view, S.Take(c, n))
      modifies this`head, this`view
      ensures Valid()
      ensures ok ==>
        && S.Next(old(view), S.Take(c, n), view) && blocked == Low(old(view.blocked))
        && old(view.blocked) + n <= |old(view.mem)|
      ensures !ok ==> view == old(view)
      ensures ok <==> !spurious && S.Matches(old(view), old(view.snaps[c]))
    {
      hide S.Inv, S.Next, Represents, Low, WrapAdd, Pack, Engaged, S.Seen, S.Fresh, S.Matches;
      ghost var v := view;
      SwapIsExact(head, tail, cells[..], v, c, n);
      var current, next := Pack(stolen, blocked), Pack(stolen, WrapAdd(blocked, Low(n)));
      ok := !spurious && head == current;
      if ok {
        head := next;
        view := Claimed(v, c, n);
      }
    }

    method CopySlot(ghost c: Claim, start: u32, offset: nat) returns (x: Job)
      requires Valid() && c in view.claims
      requires start == Low(c.start) && offset == |c.got| < |c.promise|
      modifies this`view
      ensures Valid() && exists i :: S.Next(old(view), S.Copy(c.taker, i), view)
      ensures x == c.promise[offset] && view.tail == old(view.tail)
      ensures c.(got := c.promise[..offset + 1]) in view.claims
      ensures S.EventsOf(view.events, S.Consumer(c.taker)) == old(S.EventsOf(view.events, S.Consumer(c.taker)))
    {
      hide S.Inv, S.Next, Represents, Low, WrapAdd, SlotOf, S.EventsOf;
      ghost var i := CopyStays(view, c);
      LiveSlot(head, tail, cells[..], view, c.start, offset);
      CopyRepresents(head, tail, cells[..], view, i);
      x := cells[SlotOf(WrapAdd(start, Low(offset)), mask)];
      view := Copied(view, i);
    }

    /** The head load of the publication loop. */
    method LoadWord() returns (stolen: u32, blocked: u32)
      requires Valid()
      ensures stolen == Low(view.stolen) && blocked == Low(view.blocked)
    {
      UnpackPack(Low(view.stolen), Low(view.blocked));
      var halves := Unpack(head);
      stolen, blocked := halves.0, halves.1;
    }

    /**
     The exchange of the publication loop, at the turn of claim `c`, on a word loaded when `blocked` was `was`.
     It fails if a later claim has landed since; if it succeeds it has undone no claim.
     */
    method SwapStolen(ghost c: Claim, ghost was: nat, stolen: u32, blocked: u32, amount: nat, spurious: bool)
        returns (ok: bool)
      requires Valid() && c in view.claims && c.got == c.promise && amount == |c.promise|
      requires view.stolen == c.start <= was <= view.blocked && stolen == Low(c.start) && blocked == Low(was)
      modifies this`head, this`view
      ensures Valid()
      ensures ok ==> S.Next(old(view), S.Release(c.taker, 0), view) && !Engaged(view.claims, c.taker)
      ensures view.events == old(view.events)
      ensures !ok ==> view == old(view)
      ensures ok <==> !spurious && old(view.blocked) == was
    {
      hide S.Inv, S.Next, Represents, Low, WrapAdd, Pack, Engaged;
      ReleaseIsExact(head, tail, cells[..], view, c, was);
      var current, next := Pack(stolen, blocked), Pack(WrapAdd(stolen, Low(amount)), blocked);
      ok := !spurious && head == current;
      if ok {
        ReleaseRepresents(head, tail, cells[..], view, c);
        head := next;
        view := Released(view);
      }
    }

    // -------------------------------------------------------------- operations

    ghost method Abandon()
      requires Valid() && view.producer.Filling? && view.producer.staged == []
      modifies this`view
      ensures Valid() && S.Next(old(view), S.Publish, view)
    {
      view := view.(producer := S.Rest);
    }

    /**
     `push_batch` (and `push`, with one value): appends the longest prefix of `vals` that the request
     and the free slots at the head load allow, in order.
     */
    method PushBatch(max: nat, vals: seq<Job>) returns (moved: nat)
      requires Valid() && view.producer.Rest?
      modifies this, cells
      ensures Valid() && view.producer.Rest? && view.cap == old(view.cap)
      ensures old(view.tail <= view.stolen + view.cap)
      ensures moved == Min(old(view.stolen + view.cap - view.tail), Min(max, |vals|))
      ensures EventsOf(S.TheProducer) ==
        old(EventsOf(S.TheProducer)) + (if moved > 0 then [S.Pushed(vals[..moved])] else [])
    {
      hide S.Inv, Represents, S.EventsOf;
      var free := LoadRoom();
      ghost var cap := view.cap;
      YieldAsProducer();
      var at := LoadOwnTail();
      YieldAsProducer();
      moved := Min(free, Min(max, |vals|));
      var k := 0;
      while k < moved
        invariant 0 <= k <= moved <= free && moved <= |vals|
        invariant Valid() && view.cap == cap && view.producer == S.Filling(free, vals[..k]) && at == Low(view.tail)
        invariant EventsOf(S.TheProducer) == old(EventsOf(S.TheProducer))
      {
        WriteSlot(at, k, vals[k]);
        assert vals[..k + 1] == vals[..k] + [vals[k]];
        YieldAsProducer();
        k := k + 1;
      }
      if moved < 1 {
        Abandon();
        return;
      }
      S.EventsAppend(view.events, S.Pushed(vals[..moved]), S.TheProducer);
      StoreTail(at, moved);
    }

    method LoadOwnTail() returns (at: u32)
      requires Valid()
      ensures at == Low(view.tail)
    {
      at := tail;
    }

    /**
     `pop`, `pop_batch` and `pop_batch_to`: the exchange loop, the copy loop and the publication loop.
     What is returned is the claimed prefix of the queue, in push order: as many items as `max` and one of
     its snapshots (`seen`) allow. If the cursors show that nobody else pushed or took, that is as many as
     `max` and the queue at the call allow. Nothing is returned only if the ring was empty at the
     last tail load. At most `spurious` exchanges and as many polls fail for no reason: it is `Contended`
     only if at every other one of its `retries + 1` exchanges the head had moved on. It is `Waiting` only
     if all polls were in vain, which later claims can cause at most `cap - amount` times.
     */
    method TakeBatch(c: nat, max: nat, retries: nat, polls: nat, spurious: nat) returns (r: Taken, ghost w: Witness)
      requires Valid() && !Engaged(view.claims, c) && c !in view.snaps && max > 0
      modifies this, cells
      ensures Valid()
      ensures r.Got? ==> 0 < |r.jobs| <= max && r.jobs == w.taken
      ensures Engaged(view.claims, c) ==> r.Waiting?
      ensures EventsOf(S.Consumer(c)) == old(EventsOf(S.Consumer(c))) +
        (match r
         case Nothing => [S.FoundEmpty(c)]
         case Contended => []
         case _ => [S.Took(c, w.taken)])
      ensures S.Leads(old(view), w.seen) && S.Leads(w.seen, view) && c in w.seen.snaps && w.seen.snaps[c].Both?
      ensures w.seen.snaps[c].blocked <= w.seen.snaps[c].tail
      ensures r.Got? || r.Waiting? ==> |w.taken| == Min(max, w.seen.snaps[c].tail - w.seen.snaps[c].blocked)
      ensures (r.Got? || r.Waiting?) && view.tail == old(view.tail) && view.blocked == old(view.blocked) + |w.taken| ==>
        old(view.blocked <= view.tail) && |w.taken| == Min(max, old(view.tail - view.blocked))
      ensures r.Contended? ==>
        |w.moved| > retries - spurious && HeadMoved(w.moved, c) && S.Sightings(old(view), w.moved, view)
      ensures r.Waiting? ==>
        PollsBetween(old(view), w.polled, view) && InVain(w.polled, c, polls, spurious, view.cap, |w.taken|)
    {
      hide S.Inv, Represents, S.EventsOf, S.Leads, S.Sightings, S.Next, HeadMoved, Low, Engaged, PollsBetween, InVain, Glimpse;
      ghost var v0 := view;
      CursorsOrdered();
      var how, amount, start;
      ghost var v, seen, moved;
      how, amount, start, v, seen, moved := Reserve(c, max, retries, spurious);
      GlimpseIs(v0, seen, v, c);
      S.LeadsOn(seen, v, view);
      if how != Made {
        return if how == Vacant then Nothing else Contended, Witness(seen, [], moved, []);
      }
      ghost var polled;
      r, polled := Transfer(c, v, start, amount, polls, spurious);
      S.LeadsOn(seen, v, view);
      S.LeadsForward(v, view);
      TakenAlone(v0, seen, v, view, c, amount, max);
      WaitedSince(v0, v, polled, view);
      w := Witness(seen, v.mem[v.blocked..v.blocked + amount], moved, polled);
    }

    /**
     The exchange loop. `v` is the ring at its last exchange, or at the load that found it empty; `seen`, at
     the snapshot that set the amount.
     */
    method Reserve(c: nat, max: nat, retries: nat, spurious: nat)
        returns (how: Claiming, amount: nat, start: u32, ghost v: S.State, ghost seen: S.State, ghost moved: seq<S.State>)
      requires Valid() && !Engaged(view.claims, c) && max > 0
      modifies this, cells
      ensures Valid() && S.Leads(old(view), seen) && S.Leads(seen, v) && S.Leads(old(view), v) && S.Leads(v, view)
      ensures Glimpse(old(view), seen, v, c)
      ensures how == Made ==>
        && 0 < amount == Min(max, seen.snaps[c].tail - seen.snaps[c].blocked)
        && S.Next(v, S.Take(c, amount), view) && v.blocked + amount <= |v.mem| && start == Low(v.blocked)
        && S.EventsOf(v.events, S.Consumer(c)) == old(EventsOf(S.Consumer(c)))
      ensures how != Made ==>
        && !Engaged(view.claims, c)
        && EventsOf(S.Consumer(c)) ==
             old(EventsOf(S.Consumer(c))) + (if how == Vacant then [S.FoundEmpty(c)] else [])
      ensures how == Outrun ==>
        |moved| > retries - spurious && HeadMoved(moved, c) && S.Sightings(old(view), moved, view)
    {
      hide S.Inv, Represents, S.EventsOf, S.Leads, S.Sightings, HeadMoved, Low, FilledSlots, S.Seen, S.Matches, Engaged;
      hide Trying, MovedBy, Reach, Glimpse, S.Next;
      ghost var v0, mine := view, EventsOf(S.Consumer(c));
      var stolen, blocked, at := Look(c);
      CursorsOrdered();
      seen, moved := view, [];
      GlimpseOf(v0, view, c);
      TryStart(v0, view, c, max);
      var left, budget := retries, spurious;
      amount := max;
      while true
        invariant Valid() && Looking(c, stolen, blocked, at) && 0 < amount <= max
        invariant EventsOf(S.Consumer(c)) ==
          if view.snaps[c].tail == view.snaps[c].blocked then mine + [S.FoundEmpty(c)] else mine
        invariant Trying(v0, seen, moved, c, amount, max, view)
        invariant |moved| + (spurious - budget) == retries - left && 0 <= budget <= spurious
        decreases left
      {
        start := blocked;
        var filled := FilledSlots(at, blocked);
        SeenIsExact(view.snaps[c]);
        v := view;
        S.LeadsSelf(v);
        TryNarrow(v0, seen, moved, c, amount, max, v);
        if filled < 1 {
          TryLeads(v0, seen, moved, c, amount, max, v);
          view := v.(snaps := v.snaps - {c});
          Forgets(v, c);
          return Vacant, amount, start, v, seen, moved;
        }
        if filled < amount || amount == max {
          amount, seen := Min(filled, amount), view;
        }
        TryLeads(v0, seen, moved, c, amount, max, v);
        var glitch: bool := *;
        glitch := glitch && budget > 0;
        var ok := SwapHead(c, stolen, blocked, amount, glitch);
        if ok {
          S.StepLeads(v, S.Take(c, amount), view);
          return Made, amount, start, v, seen, moved;
        }
        ghost var moved' := if glitch then moved else moved + [v];
        TryFailed(v0, seen, moved, c, amount, max, v, glitch);
        if glitch {
          budget := budget - 1;
        }
        if left == 0 {
          MovedIs(v0, moved', c, v.stolen + v.blocked, v);
          return Outrun, amount, start, v, seen, moved';
        }
        left := left - 1;
        stolen, blocked, at := Look(c);
        TryAgain(v0, seen, moved, moved', c, amount, max, v, view);
        moved := moved';
      }
    }

    lemma CursorsOrdered()
      requires Valid()
      ensures view.blocked <= view.tail
    {
    }

    /** Dropping a snapshot changes nothing else. */
    lemma Forgets(v: S.State, c: nat)
      requires S.Inv(v) && Represents(head, tail, cells[..], v) && mask == v.cap - 1 && view == v.(snaps := v.snaps - {c})
      ensures Valid() && (c in v.snaps && v.snaps[c].Both? && S.Seen(v.snaps[c]) == 0 ==> S.Leads(v, view))
    {
      S.SnapsGrow(v, view);
      if c in v.snaps && v.snaps[c].Both? && S.Seen(v.snaps[c]) == 0 {
        S.StepLeads(v, S.GiveUp(c), view);
      }
      hide S.Inv, Represents, S.Leads;
    }

    /** A snapshot is in hand, less than 2^32 behind, and `stolen`, `blocked` and `at` are its words. */
    ghost predicate Looking(c: nat, stolen: u32, blocked: u32, at: u32)
      reads this
    {
      && !Engaged(view.claims, c) && c in view.snaps && view.snaps[c].Both?
      && var p := view.snaps[c];
      && stolen == Low(p.stolen) && blocked == Low(p.blocked) && at == Low(p.tail)
      && p.blocked <= p.tail < p.blocked + M32 && p.tail <= view.tail
      && p.stolen <= view.stolen && p.blocked <= view.blocked < p.blocked + M32
    }

    /** Head, then tail: a fresh snapshot whose emptiness the log records. */
    method Look(c: nat) returns (stolen: u32, blocked: u32, at: u32)
      requires Valid() && !Engaged(view.claims, c)
      modifies this, cells
      ensures Valid() && Looking(c, stolen, blocked, at)
      ensures view.snaps[c].stolen == old(view.stolen) && view.snaps[c].blocked == old(view.blocked)
      ensures old(view.tail) <= view.snaps[c].tail <= view.tail
      ensures EventsOf(S.Consumer(c)) == old(EventsOf(S.Consumer(c))) +
        (if view.snaps[c].tail == view.snaps[c].blocked then [S.FoundEmpty(c)] else [])
      ensures S.Leads(old(view), view)
    {
      hide S.Inv, Represents, S.EventsOf, S.Leads;
      ghost var v0 := view;
      stolen, blocked := LoadHead(c);
      S.StepLeads(v0, S.LoadHead(c), view);
      ghost var limit, v1 := view.blocked + M32, view;
      YieldAsConsumer(c, TailBelow(limit));
      S.LeadsOn(v0, v1, view);
      S.EventsAppend(view.events, S.FoundEmpty(c), S.Consumer(c));
      ghost var v2 := view;
      at := LoadTail(c);
      S.StepLeads(v2, S.LoadTail(c), view);
      S.LeadsOn(v0, v2, view);
      SnapOrdered(c);
      ghost var v3 := view;
      // From here on only the head must stay near: the tail may run as far as it likes.
      YieldAsConsumer(c, HeadBelow(limit));
      S.LeadsOn(v0, v3, view);
      SnapOrdered(c);
    }

    lemma SnapOrdered(c: nat)
      requires Valid() && c in view.snaps && view.snaps[c].Both?
      ensures var p := view.snaps[c];
        p.stolen <= view.stolen && p.blocked <= p.tail <= view.tail && p.blocked <= view.blocked <= view.tail
    {
      assert S.SnapInv(view, view.snaps[c]);
    }

    /** After a successful exchange on `v`: read the claimed slots, then release them in claim order. */
    method Transfer(c: nat, ghost v: S.State, start: u32, amount: nat, polls: nat, spurious: nat)
        returns (r: Taken, ghost polled: seq<Poll>)
      requires Valid() && S.Next(v, S.Take(c, amount), view) && v.blocked + amount <= |v.mem| && start == Low(v.blocked)
      modifies this, cells
      ensures Valid() && (r.Waiting? || r == Got(v.mem[v.blocked..v.blocked + amount]))
      ensures Engaged(view.claims, c) ==> r.Waiting?
      ensures EventsOf(S.Consumer(c)) ==
        S.EventsOf(v.events, S.Consumer(c)) + [S.Took(c, v.mem[v.blocked..v.blocked + amount])]
      ensures S.Leads(v, view) && v.blocked + amount <= view.blocked && PollsBetween(v, polled, view)
      ensures r.Waiting? ==> InVain(polled, c, polls, spurious, view.cap, amount)
    {
      hide S.Inv, Represents, S.EventsOf, S.Leads, PollsBetween, InVain, Engaged, Low, S.CanTake;
      ghost var v1, cl := view, Claim(c, v.blocked, v.mem[v.blocked..v.blocked + amount], []);
      S.StepLeads(v, S.Take(c, amount), view);
      S.EventsAppend(v.events, S.Took(c, cl.promise), S.Consumer(c));
      assert view.claims[|v.claims|] == cl;
      hide S.Next;
      var jobs := CopyAll(c, cl, start, amount);
      S.LeadsOn(v, v1, view);
      ghost var v2 := view;
      r, polled := Publish(c, cl.(got := jobs), start, jobs, polls, spurious);
      WaitedSince(v, v2, polled, view);
      S.LeadsOn(v, v2, view);
      S.LeadsOn(v1, v2, view);
      S.LeadsForward(v1, view);
    }

    /** The copy loop. */
    method CopyAll(c: nat, ghost cl: Claim, start: u32, amount: nat) returns (jobs: seq<Job>)
      requires Valid() && cl in view.claims && cl.taker == c && cl.got == []
      requires start == Low(cl.start) && amount == |cl.promise|
      modifies this, cells
      ensures Valid() && jobs == cl.promise && cl.(got := jobs) in view.claims
      ensures EventsOf(S.Consumer(c)) == old(EventsOf(S.Consumer(c)))
      ensures S.Leads(old(view), view)
    {
      hide S.Inv, Represents, S.EventsOf, S.Leads, S.Next;
      ghost var v0 := view;
      S.LeadsSelf(v0);
      jobs := [];
      var k := 0;
      assert cl == cl.(got := cl.promise[..0]);
      while k < amount
        invariant 0 <= k <= amount == |cl.promise|
        invariant Valid() && jobs == cl.promise[..k] && cl.(got := jobs) in view.claims
        invariant EventsOf(S.Consumer(c)) == old(EventsOf(S.Consumer(c)))
        invariant S.Leads(v0, view)
      {
        ghost var v1 := view;
        YieldAsConsumer(c, NoLimit);
        S.LeadsOn(v0, v1, view);
        ghost var v2 := view;
        var x := CopySlot(cl.(got := jobs), start, k);
        ghost var i :| S.Next(v2, S.Copy(c, i), view);
        S.StepLeads(v2, S.Copy(c, i), view);
        S.LeadsOn(v0, v2, view);
        jobs := jobs + [x];
        assert jobs == cl.promise[..k + 1];
        k := k + 1;
      }
    }

    lemma AheadOrTurn(cl: Claim)
      requires Valid() && cl in view.claims
      ensures view.stolen <= cl.start <= view.blocked && (view.stolen == cl.start || Behind(view.claims, cl.taker))
    {
      var i :| 0 <= i < |view.claims| && view.claims[i] == cl;
      TilesBounds(view.claims, view.stolen, view.blocked, i);
      BehindOrTurn(view.claims, view.stolen, view.blocked, cl);
    }

    /** A poll for the turn of `cl`, added to those made in vain since `v0`: load, and at its turn exchange. */
    method PollHead(c: nat, ghost v0: S.State, ghost cl: Claim, start: u32, amount: nat, glitch: bool, ghost before: seq<Poll>)
        returns (ok: bool, ghost polled: seq<Poll>)
      requires Valid() && cl in view.claims && cl.taker == c && cl.got == cl.promise
      requires start == Low(cl.start) && amount == |cl.promise|
      requires S.Leads(v0, view) && Waited(v0, before, cl, view)
      modifies this, cells
      ensures Valid() && S.Leads(v0, view) && view.cap == old(view.cap)
      ensures EventsOf(S.Consumer(c)) == old(EventsOf(S.Consumer(c)))
      ensures if ok then !Engaged(view.claims, c) && polled == before && PollsBetween(v0, polled, view)
              else cl in view.claims && Waited(v0, polled, cl, view)
      ensures !ok ==> |polled| == |before| + 1 && polled[..|before|] == before && (polled[|before|].glitch ==> glitch)
    {
      hide S.Inv, Represents, S.EventsOf, S.Leads, S.Next, Engaged, Behind, Low, Waited, PollsBetween;
      ghost var v := view;
      AheadOrTurn(cl);
      YieldAsConsumer(c, NoLimit);
      AheadOrTurn(cl);
      S.LeadsOn(v0, v, view);
      WaitedOn(v0, before, cl, v, view);
      var stolen, blocked := LoadWord();
      ghost var v1 := view;
      TurnIsExact(view, cl);
      if stolen != start {
        WaitedBehind(v0, before, cl, v1);
        return false, before + [Poll(v1, v1, false)];
      }
      YieldAsConsumer(c, NoLimit);
      AheadOrTurn(cl);
      S.LeadsOn(v0, v1, view);
      ghost var v2 := view;
      ok := SwapStolen(cl, v1.blocked, stolen, blocked, amount, glitch);
      if ok {
        S.StepLeads(v2, S.Release(c, 0), view);
        S.LeadsOn(v0, v2, view);
        WaitedOn(v0, before, cl, v1, v2);
        PollsOn(v0, before, cl, v2, view);
        polled := before;
      } else {
        WaitedMore(v0, before, cl, v1, v2, glitch);
        polled := before + [Poll(v1, v2, glitch)];
      }
    }

    /**
     The publication loop. It is left waiting only if every poll met an older claim, or a later claim between
     its load and its exchange, or failed for no reason; the last two happen at most `cap - |jobs|` and
     `spurious` times, so all earlier polls met an older claim.
     */
    method Publish(c: nat, ghost cl: Claim, start: u32, jobs: seq<Job>, polls: nat, spurious: nat)
        returns (r: Taken, ghost polled: seq<Poll>)
      requires Valid() && cl in view.claims && cl.taker == c && cl.got == cl.promise == jobs
      requires start == Low(cl.start)
      modifies this, cells
      ensures Valid() && (r == Got(jobs) || r.Waiting?) && view.cap == old(view.cap)
      ensures Engaged(view.claims, c) ==> r.Waiting?
      ensures EventsOf(S.Consumer(c)) == old(EventsOf(S.Consumer(c)))
      ensures PollsBetween(old(view), polled, view) && S.Leads(old(view), view)
      ensures r.Waiting? ==> InVain(polled, c, polls, spurious, view.cap, |jobs|)
    {
      hide S.Inv, Represents, S.EventsOf, S.Leads, S.Next, Engaged, Behind, Low, Waited;
      ghost var v0 := view;
      S.LeadsSelf(v0);
      polled := [];
      WaitedNot(v0, cl);
      var left, budget := polls, spurious;
      while left > 0
        invariant Valid() && cl in view.claims && view.cap == old(view.cap)
        invariant EventsOf(S.Consumer(c)) == old(EventsOf(S.Consumer(c)))
        invariant S.Leads(v0, view) && Waited(v0, polled, cl, view)
        invariant |polled| + left == polls && 0 <= budget <= spurious && Glitches(polled) <= spurious - budget
      {
        var glitch: bool := *;
        glitch := glitch && budget > 0;
        var ok;
        ok, polled := PollHead(c, v0, cl, start, |jobs|, glitch, polled);
        if ok {
          return Got(jobs), polled;
        }
        if glitch {
          budget := budget - 1;
        }
        left := left - 1;
      }
      LossesAreBounded(v0, polled, cl, view);
      WaitedInVain(v0, polled, cl, view, spurious);
      r := Waiting;
    }

    /** `Drop`: with exclusive access, exactly the unclaimed items are dropped, each once, in order. */
    method DropItems() returns (dropped: seq<Job>)
      requires Valid() && view.producer.Rest? && view.claims == []
      ensures dropped == view.Items()
    {
      hide S.Inv, Represents, Low, WrapAdd, SlotOf, FilledSlots, Unpack, Top;
      ghost var v := view;
      AtRest(head, tail, cells[..], v);
      var blocked := Unpack(head).1;
      var count := FilledSlots(tail, blocked);
      dropped := [];
      var offset := 0;
      while offset < count
        invariant offset <= count
        invariant view.blocked + offset <= |view.mem| && dropped == view.mem[view.blocked..view.blocked + offset]
      {
        ghost var c := view.blocked + offset;
        LiveSlot(head, tail, cells[..], view, view.blocked, offset);
        dropped := dropped + [cells[SlotOf(WrapAdd(blocked, Low(offset)), mask)]];
        assert view.mem[view.blocked..c + 1] == view.mem[view.blocked..c] + [view.mem[c]];
        offset := offset + 1;
      }
      assert dropped == view.mem[view.blocked..view.tail];
    }
  }

  /** Within 2^32 of the loaded head the wrapping difference is the true one. */
  lemma SeenIsExact(p: S.Snap)
    requires p.Both? && p.blocked <= p.tail < p.blocked + M32
    ensures S.Seen(p) == FilledSlots(Low(p.tail), Low(p.blocked)) == p.tail - p.blocked
  {
    LowSub(p.tail, p.blocked);
  }
}
