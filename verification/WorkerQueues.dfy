/**
 The worker deque as it is stored: one packed 64-bit word `(tail, blocked)`, a separate 32-bit
 `stolen` counter and a masked slot array. Each atomic action refines one action of `Deque`, and
 the operations are the code's own loops with interference by all other threads between any two
 atomic actions.
 */
module WorkerQueues {
  import opened Words
  import opened Jobs
  import opened Claims
  import D = Deque

  datatype Steal =
    | Empty
    | Busy
    | Success(moved: nat)
      /** The claim is copied but an earlier claim is still unpublished after the given polls. */
    | Waiting

  /**
   What a steal met on its way: `room`, the destination at its `stolen` load; `seen`, the victim at its
   anchor load; `jobs`, what was claimed; `polled`, the victim at each poll for the claim's turn.
   */
  datatype Witness = Witness(room: D.State, seen: D.State, jobs: seq<Job>, polled: seq<D.State>)

  /** One past the highest cursor whose slot is in use. */
  ghost function Top(v: D.State): nat {
    match v.owner
    case Filling(_, staged) => v.tail + |staged|
    case Taking(_, _) => v.tail + 1
    case _ => v.tail
  }

  /** The stored words and slots represent the unbounded deque `v`. */
  ghost predicate Represents(anchor: u64, stolen: u32, cells: seq<Job>, v: D.State) {
    && IsCapacity(v.cap) && |cells| == v.cap
    && anchor == Pack(Low(v.tail), Low(v.blocked))
    && stolen == Low(v.stolen)
    && Top(v) <= |v.mem|
    && forall c :: v.stolen <= c < Top(v) ==> cells[Slot(c, v.cap)] == v.mem[c]
  }

  /** The deque after the owner has staged `x`. */
  ghost function Written(v: D.State, x: Job): D.State
    requires v.owner.Filling? && v.tail + |v.owner.staged| <= |v.mem|
  {
    v.(mem := Store(v.mem, v.tail + |v.owner.staged|, x), owner := v.owner.(staged := v.owner.staged + [x]))
  }

  lemma WriteIsStep(v: D.State, x: Job)
    requires D.Inv(v) && v.owner.Filling? && |v.owner.staged| < v.owner.room
    ensures Top(v) == v.tail + |v.owner.staged| <= |v.mem| && v.cap > 0
    ensures D.Next(v, D.Write(x), Written(v, x)) && D.Inv(Written(v, x))
    ensures forall c :: v.stolen <= c < Top(v) ==> Slot(c, v.cap) != Slot(Top(v), v.cap)
  {
    assert Top(v) <= |v.mem|;
    hide D.Inv, Slot;
    D.WriteStep(v, x, Written(v, x));
    D.WriteIsSafe(v, x, Written(v, x));
    hide D.Next;
  }

  /** Writing one more slot keeps every other live slot. */
  lemma WriteRepresents(anchor: u64, stolen: u32, cells: seq<Job>, v: D.State, x: Job)
    requires D.Inv(v) && Represents(anchor, stolen, cells, v)
    requires v.owner.Filling? && |v.owner.staged| < v.owner.room
    ensures Top(v) <= |v.mem| && v.cap > 0 && Slot(Top(v), v.cap) < |cells|
    ensures D.Next(v, D.Write(x), Written(v, x)) && D.Inv(Written(v, x))
    ensures Represents(anchor, stolen, cells[Slot(Top(v), v.cap) := x], Written(v, x))
  {
    hide D.Inv, D.Next, IsCapacity, Low, Pack, Slot;
    WriteIsStep(v, x);
    var w, cells' := Top(v), cells[Slot(Top(v), v.cap) := x];
    forall c | v.stolen <= c < w + 1
      ensures cells'[Slot(c, v.cap)] == Written(v, x).mem[c]
    {
      assert c < w ==> cells[Slot(c, v.cap)] == v.mem[c];
    }
    assert Top(Written(v, x)) == w + 1;
  }

  /** Two packed words are equal exactly when both halves are. */
  lemma PackInjective(a: u32, b: u32, c: u32, d: u32)
    requires Pack(a, b) == Pack(c, d)
    ensures a == c && b == d
  {
    UnpackPack(a, b);
    UnpackPack(c, d);
  }

  /** Comparing the 32-bit `stolen` with a claim's 32-bit start decides whether it is its turn. */
  lemma TurnIsExact(stolen: u32, v: D.State, c: Claim)
    requires D.Inv(v) && v.cap < MAX_CAPACITY && stolen == Low(v.stolen) && c in v.claims
    ensures stolen == Low(c.start) <==> v.stolen == c.start
  {
    var i :| 0 <= i < |v.claims| && v.claims[i] == c;
    TilesBounds(v.claims, v.stolen, v.blocked, i);
    if stolen == Low(c.start) {
      LowInjective(v.stolen, c.start);
    }
  }

  /** The deque after its oldest claim is published. */
  ghost function Released(v: D.State): D.State
    requires v.claims != []
  {
    v.(stolen := v.stolen + |v.claims[0].promise|, claims := v.claims[..0] + v.claims[0 + 1..])
  }

  lemma ReleaseRepresents(anchor: u64, stolen: u32, cells: seq<Job>, v: D.State, c: Claim)
    requires D.Inv(v) && Represents(anchor, stolen, cells, v)
    requires c in v.claims && c.got == c.promise && c.start == v.stolen
    ensures v.claims != [] && D.Next(v, D.Release(c.taker, 0), Released(v)) && D.Inv(Released(v))
    ensures !Engaged(Released(v).claims, c.taker)
    ensures Represents(anchor, WrapAdd(stolen, Low(|c.promise|)), cells, Released(v))
  {
    hide D.Next, D.Inv, Low, WrapAdd, IsCapacity, Slot, Engaged;
    ReleaseIsStep(v, c);
    LowAdd(v.stolen, |c.promise|);
  }

  lemma ReleaseIsStep(v: D.State, c: Claim)
    requires D.Inv(v) && c in v.claims && c.got == c.promise && c.start == v.stolen
    ensures v.claims != [] && v.claims[0] == c
    ensures D.Next(v, D.Release(c.taker, 0), Released(v)) && D.Inv(Released(v))
    ensures !Engaged(Released(v).claims, c.taker)
  {
    var i :| 0 <= i < |v.claims| && v.claims[i] == c;
    ReleaseIsFirst(v.claims, v.stolen, v.blocked, i);
    DropOldest(v.claims, v.stolen, v.blocked, v.mem);
    hide Sound, Engaged, D.Inv;
    assert D.Next(v, D.Release(c.taker, 0), Released(v));
    D.ReleaseStep(v, c.taker, 0, Released(v));
  }

  /** The deque after thief `t` has claimed its first `n` unclaimed items. */
  ghost function Claimed(v: D.State, t: nat, n: nat): D.State
    requires v.blocked + n <= |v.mem|
  {
    var taken := v.mem[v.blocked..v.blocked + n];
    v.(blocked := v.blocked + n, claims := v.claims + [Claim(t, v.blocked, taken, [])],
       events := v.events + [D.Stole(t, taken)])
  }

  lemma ClaimRepresents(anchor: u64, stolen: u32, cells: seq<Job>, v: D.State, t: nat, n: nat)
    requires D.Inv(v) && Represents(anchor, stolen, cells, v) && !Engaged(v.claims, t)
    requires 0 < n <= FilledSlots(Low(v.tail), Low(v.blocked))
    ensures v.blocked + n <= |v.mem| && D.Next(v, D.ClaimPrefix(t, n), Claimed(v, t, n)) && D.Inv(Claimed(v, t, n))
    ensures Represents(Pack(Low(v.tail), WrapAdd(Low(v.blocked), Low(n))), stolen, cells, Claimed(v, t, n))
  {
    hide Low, WrapAdd, WrapSub, SlotOf, FilledSlots, Slot, Sound, D.Replay;
    WrappedDifferences(v.cap, v.tail, v.blocked, v.stolen);
    LowAdd(v.blocked, n);
    D.ClaimStep(v, t, n, Claimed(v, t, n));
  }

  /** A live cursor's masked slot holds the value written for that cursor. */
  lemma LiveSlot(anchor: u64, stolen: u32, cells: seq<Job>, v: D.State, base: nat, offset: nat)
    requires Represents(anchor, stolen, cells, v) && v.stolen <= base + offset < Top(v)
    ensures SlotOf(WrapAdd(Low(base), Low(offset)), v.cap - 1) < |cells|
    ensures cells[SlotOf(WrapAdd(Low(base), Low(offset)), v.cap - 1)] == v.mem[base + offset]
  {
    LowAdd(base, offset);
    MaskedSlot(base + offset, v.cap);
    hide Low, WrapAdd, SlotOf, IsCapacity;
  }

  lemma Ordered(v: D.State)
    requires D.Inv(v)
    ensures v.stolen <= v.blocked <= v.tail <= v.stolen + v.cap
  {
  }

  lemma AtRest(anchor: u64, stolen: u32, cells: seq<Job>, v: D.State)
    requires D.Inv(v) && Represents(anchor, stolen, cells, v) && v.owner.Rest?
    ensures v.stolen <= v.blocked <= v.tail == Top(v) <= |v.mem|
  {
  }

  /** The deque after the claim at place `i` has read its next slot. */
  ghost function Copied(v: D.State, i: nat): D.State
    requires i < |v.claims| && v.claims[i].start + |v.claims[i].got| < |v.mem|
  {
    var c := v.claims[i];
    v.(claims := v.claims[i := c.(got := c.got + [v.mem[c.start + |c.got|]])])
  }

  lemma CopyStays(v: D.State, c: Claim) returns (i: nat)
    requires D.Inv(v) && c in v.claims && |c.got| < |c.promise|
    ensures i < |v.claims| && v.claims[i] == c
    ensures v.stolen <= c.start + |c.got| < v.blocked <= v.tail <= Top(v) && v.blocked <= |v.mem|
    ensures v.mem[c.start + |c.got|] == c.promise[|c.got|]
    ensures D.Next(v, D.Copy(c.taker, i), Copied(v, i)) && D.Inv(Copied(v, i))
    ensures c.(got := c.promise[..|c.got| + 1]) in Copied(v, i).claims
  {
    i :| 0 <= i < |v.claims| && v.claims[i] == c;
    TilesBounds(v.claims, v.stolen, v.blocked, i);
    var k := |c.got|;
    assert v.mem[c.start + k] == v.mem[c.start..c.End()][k];
    D.CopyStep(v, c.taker, i, Copied(v, i));
    assert c.got + [c.promise[k]] == c.promise[..k + 1];
    assert Copied(v, i).claims[i] in Copied(v, i).claims;
  }

  lemma CopyRepresents(anchor: u64, stolen: u32, cells: seq<Job>, v: D.State, i: nat)
    requires Represents(anchor, stolen, cells, v)
    requires i < |v.claims| && v.claims[i].start + |v.claims[i].got| < |v.mem|
    ensures Represents(anchor, stolen, cells, Copied(v, i))
  {
    hide Low, IsCapacity, Slot;
  }

  /** The deque after the owner has added its staged items to the tail. */
  ghost function Published(v: D.State): D.State
    requires v.owner.Filling?
  {
    v.(tail := v.tail + |v.owner.staged|, owner := D.Rest,
       events := if v.owner.staged == [] then v.events else v.events + [D.Pushed(v.owner.staged)])
  }

  /** Adding to the high half of the packed word moves the tail and leaves `blocked` alone. */
  lemma PublishRepresents(anchor: u64, stolen: u32, cells: seq<Job>, v: D.State, amount: nat)
    requires D.Inv(v) && Represents(anchor, stolen, cells, v) && v.owner.Filling? && |v.owner.staged| == amount
    ensures D.Next(v, D.Publish, Published(v)) && D.Inv(Published(v))
    ensures Represents(FetchAddHigh(anchor, Low(amount)), stolen, cells, Published(v))
  {
    hide Low, WrapAdd, WrapSub, SlotOf, FilledSlots, FetchAddHigh, Slot, Sound, D.Replay;
    FetchAddKeepsLow(Low(v.tail), Low(v.blocked), Low(amount));
    LowAdd(v.tail, amount);
    D.PublishStep(v, Published(v));
  }

  /** The deque after the owner's exchange has taken the last item. */
  ghost function PoppedBack(v: D.State): D.State
    requires 0 < v.tail <= |v.mem|
  {
    v.(tail := v.tail - 1, owner := D.Taking(v.tail - 1, v.mem[v.tail - 1]),
       events := v.events + [D.Popped(v.mem[v.tail - 1])])
  }

  /** The packed word still equals the owner's snapshot exactly when no thief has claimed since. */
  lemma SnapIsExact(anchor: u64, stolen: u32, cells: seq<Job>, v: D.State, tail: u32, blocked: u32)
    requires D.Inv(v) && Represents(anchor, stolen, cells, v) && v.owner.Popping? && v.owner.seen != []
    requires tail == Low(v.tail) && blocked == Low(v.owner.lb)
    ensures anchor == Pack(tail, blocked) <==> v.blocked == v.owner.lb
  {
    assert v.owner.lb <= v.blocked < v.owner.lb + M32;
    assert anchor == Pack(Low(v.tail), Low(v.blocked));
    hide D.Inv, Represents, Pack;
    if anchor == Pack(tail, blocked) {
      PackInjective(tail, blocked, Low(v.tail), Low(v.blocked));
      LowInjective(v.owner.lb, v.blocked);
    }
  }

  lemma HasTail(v: D.State)
    requires D.Inv(v) && v.owner.Popping? && v.owner.seen != []
    ensures 0 < v.tail <= |v.mem|
  {
  }

  lemma LowOne()
    ensures Low(1) == 1
  {
  }

  lemma PopIsStep(v: D.State)
    requires D.Inv(v) && v.owner.Popping? && v.owner.seen != [] && v.blocked == v.owner.lb
    ensures 0 < v.tail <= |v.mem| && D.Next(v, D.PopSwap, PoppedBack(v)) && D.Inv(PoppedBack(v))
  {
    assert 0 < v.tail <= |v.mem| && v.tail == v.owner.lb + |v.owner.seen|;
    hide D.Inv;
    D.PopSwapStep(v, PoppedBack(v));
  }

  /** The owner's exchange: when it succeeds, and what it then is. */
  lemma SwapIsExact(anchor: u64, stolen: u32, cells: seq<Job>, v: D.State, tail: u32, blocked: u32)
    requires D.Inv(v) && Represents(anchor, stolen, cells, v) && v.owner.Popping? && v.owner.seen != []
    requires tail == Low(v.tail) && blocked == Low(v.owner.lb)
    ensures anchor == Pack(tail, blocked) <==> v.blocked == v.owner.lb
    ensures 0 < v.tail <= |v.mem| && Low(v.tail - 1) == WrapSub(tail, 1)
    ensures v.blocked == v.owner.lb ==>
      && D.Next(v, D.PopSwap, PoppedBack(v)) && D.Inv(PoppedBack(v))
      && Represents(Pack(WrapSub(tail, 1), blocked), stolen, cells, PoppedBack(v))
  {
    hide D.Inv, D.Next, Low, WrapSub, Pack, Slot, IsCapacity;
    SnapIsExact(anchor, stolen, cells, v, tail, blocked);
    HasTail(v);
    LowSub(v.tail, 1);
    if v.blocked == v.owner.lb {
      PopIsStep(v);
    }
    LowOne();
  }

  class WorkerQueue {
    var anchor: u64
    var stolen: u32
    const cells: array<Job>
    const mask: u32
    /** The unbounded deque this queue represents. */
    ghost var view: D.State
    /** No other thread can reach this deque. */
    ghost const secluded: bool

    ghost predicate Valid()
      reads this, cells
    {
      && D.Inv(view)
      && mask == view.cap - 1
      && Represents(anchor, stolen, cells[..], view)
      && (secluded ==> D.Alone(view))
    }

    /** The part of the linearization log that belongs to `who`. */
    ghost function EventsOf(who: D.Actor): seq<D.Event>
      reads this
    {
      D.EventsOf(view.events, who)
    }

    constructor (capacity: nat, ghost secluded: bool)
      requires IsCapacity(capacity)
      ensures Valid() && view == D.Init(capacity) && this.secluded == secluded && fresh(cells)
    {
      this.secluded := secluded;
      anchor := Pack(0, 0);
      stolen := 0;
      cells := new Job[capacity](_ => 0);
      mask := capacity - 1;
      view := D.Init(capacity);
    }

    // -------------------------------------------------------------- interference

    /** Between two owner actions the thieves, if there are any, take any finite number of steps. */
    method OthersThanOwner()
      requires Valid()
      modifies this`anchor, this`stolen, this`view
      ensures Valid() && D.Interference(D.TheOwner, old(view), view)
      ensures secluded ==> view == old(view)
    {
      D.NoInterference(D.TheOwner, view);
    }

    method YieldAsOwner()
      requires Valid()
      modifies this`anchor, this`stolen, this`view
      ensures Valid() && D.OwnerSees(old(view), view) && D.Interference(D.TheOwner, old(view), view)
      ensures secluded ==> view == old(view)
      ensures forall s :: D.Leads(s, old(view)) ==> D.Leads(s, view)
    {
      ghost var v := view;
      OthersThanOwner();
      D.InterferenceLeads(D.TheOwner, v, view);
      D.Carries(v, view);
      D.OwnerRelies(v, view);
    }

    /** Between two actions of thief `t` the owner and the other thieves take any finite number of steps. */
    method OthersThanThief(t: nat)
      requires Valid() && !secluded
      modifies this`anchor, this`stolen, this`view, cells
      ensures Valid() && D.Interference(D.Thief(t), old(view), view)
    {
      D.NoInterference(D.Thief(t), view);
    }

    method YieldAsThief(t: nat)
      requires Valid() && !secluded
      modifies this`anchor, this`stolen, this`view, cells
      ensures Valid() && D.ThiefSees(t, old(view), view) && D.Interference(D.Thief(t), old(view), view)
      ensures D.Leads(old(view), view) && (Engaged(view.claims, t) <==> Engaged(old(view).claims, t))
      ensures EventsOf(D.Thief(t)) == old(EventsOf(D.Thief(t)))
    {
      ghost var v := view;
      OthersThanThief(t);
      D.InterferenceLeads(D.Thief(t), v, view);
      D.ThiefRelies(t, v, view);
    }

    // -------------------------------------------------------------- atomic actions

    method LoadAnchor() returns (tail: u32, blocked: u32)
      requires Valid()
      ensures tail == Low(view.tail) && blocked == Low(view.blocked)
      ensures FilledSlots(tail, blocked) == view.tail - view.blocked >= 0
    {
      UnpackPack(Low(view.tail), Low(view.blocked));
      WrappedDifferences(view.cap, view.tail, view.blocked, view.stolen);
      var halves := Unpack(anchor);
      tail, blocked := halves.0, halves.1;
    }

    /** The `stolen` load of `cursor_data`, taken by the owner with its own tail. */
    method LoadRoom(tail: u32) returns (free: u32)
      requires Valid() && view.owner.Rest? && tail == Low(view.tail)
      modifies this`view
      ensures Valid() && D.Next(old(view), D.Measure, view) && free == view.owner.room
      ensures forall s :: D.Leads(s, old(view)) ==> D.Leads(s, view)
    {
      WrappedDifferences(view.cap, view.tail, view.blocked, view.stolen);
      free := EmptySlots(mask + 1, tail, stolen);
      ghost var v := view;
      view := v.(owner := D.Filling(v.stolen + v.cap - v.tail, []));
      D.AloneStep(v, D.Measure, view);
      D.StepCarries(v, D.Measure, view);
    }

    method WriteSlot(tail: u32, offset: nat, x: Job)
      requires Valid() && view.owner.Filling? && |view.owner.staged| == offset < view.owner.room
      requires tail == Low(view.tail)
      modifies this`view, cells
      ensures Valid() && D.Next(old(view), D.Write(x), view)
      ensures forall s :: D.Leads(s, old(view)) ==> D.Leads(s, view)
    {
      hide Low, WrapAdd, WrapSub, SlotOf, FilledSlots;
      ghost var v, slots := view, cells[..];
      LowAdd(v.tail, offset);
      MaskedSlot(v.tail + offset, v.cap);
      WriteRepresents(anchor, stolen, slots, v, x);
      D.AloneStep(v, D.Write(x), Written(v, x));
      D.StepCarries(v, D.Write(x), Written(v, x));
      hide *;
      cells[SlotOf(WrapAdd(tail, Low(offset)), mask)] := x;
      view := Written(v, x);
      assert cells[..] == slots[Slot(v.tail + offset, v.cap) := x];
    }

    /** `fetch_add` on the tail half. */
    method PublishTail(amount: nat)
      requires Valid() && view.owner.Filling? && |view.owner.staged| == amount
      modifies this`anchor, this`view
      ensures Valid() && D.Next(old(view), D.Publish, view)
      ensures forall s :: D.Leads(s, old(view)) ==> D.Leads(s, view)
    {
      hide D.Inv, D.Next, Represents, Low, FetchAddHigh, D.Alone;
      PublishRepresents(anchor, stolen, cells[..], view, amount);
      D.AloneStep(view, D.Publish, Published(view));
      D.StepCarries(view, D.Publish, Published(view));
      anchor := FetchAddHigh(anchor, Low(amount));
      view := Published(view);
    }

    /** The owner's anchor load at the head of `pop`, and the value a failed exchange hands back. */
    method LookAnchor() returns (tail: u32, blocked: u32)
      requires Valid() && (view.owner.Rest? || (view.owner.Popping? && view.owner.seen != []))
      modifies this`view
      ensures Valid() && D.Next(old(view), D.Look, view)
      ensures tail == Low(view.tail) && blocked == Low(view.owner.lb)
      ensures FilledSlots(tail, blocked) == |view.owner.seen| <= view.cap
    {
      hide Low, WrapAdd, WrapSub, SlotOf, FilledSlots, Sound, D.Replay;
      tail, blocked := LoadAnchor();
      ghost var v := view;
      view := v.(owner := D.Popping(v.blocked, v.Items()),
                 events := if v.Items() == [] then v.events + [D.FoundEmpty] else v.events);
      D.OwnerStep(v, D.Look, view);
      D.AloneStep(v, D.Look, view);
    }

    /** The owner's weak exchange `(tail, blocked) -> (tail - 1, blocked)`; `spurious` makes it fail anyway. */
    method SwapTail(tail: u32, blocked: u32, spurious: bool) returns (ok: bool)
      requires Valid() && view.owner.Popping? && view.owner.seen != []
      requires tail == Low(view.tail) && blocked == Low(view.owner.lb)
      modifies this`anchor, this`view
      ensures Valid()
      ensures ok ==> D.Next(old(view), D.PopSwap, view) && Low(view.owner.c) == WrapSub(tail, 1)
      ensures !ok ==> view == old(view)
      ensures ok <==> !spurious && old(view.blocked == view.owner.lb)
    {
      var current, next := Pack(tail, blocked), Pack(WrapSub(tail, 1), blocked);
      SwapIsExact(anchor, stolen, cells[..], view, tail, blocked);
      if view.blocked == view.owner.lb {
        D.AloneStep(view, D.PopSwap, PoppedBack(view));
      }
      hide *;
      ok := !spurious && anchor == current;
      if ok {
        anchor := next;
        view := PoppedBack(view);
      }
    }

    method ReadPopped(cursor: u32) returns (x: Job)
      requires Valid() && view.owner.Taking? && cursor == Low(view.owner.c)
      modifies this`view
      ensures Valid() && D.Next(old(view), D.PopRead, view)
      ensures x == old(view.owner.due)
    {
      MaskedSlot(view.owner.c, view.cap);
      x := cells[SlotOf(cursor, mask)];
      view := view.(owner := D.Rest);
    }

    /**
     A thief's strong exchange `(tail, blocked) -> (tail, blocked + n)`. The snapshot is any pair of
     words, however stale or wrapped: a success is a correct claim because both halves were compared.
     */
    method SwapBlocked(t: nat, tail: u32, blocked: u32, n: nat) returns (ok: bool)
      requires Valid() && !secluded && !Engaged(view.claims, t)
      requires 0 < n <= FilledSlots(tail, blocked)
      modifies this`anchor, this`view
      ensures Valid()
      ensures ok ==> D.Next(old(view), D.ClaimPrefix(t, n), view) && blocked == Low(old(view.blocked))
      ensures !ok ==> view == old(view)
      ensures ok <==> tail == Low(old(view.tail)) && blocked == Low(old(view.blocked))
    {
      ghost var v := view;
      var current, next := Pack(tail, blocked), Pack(tail, WrapAdd(blocked, Low(n)));
      ok := anchor == current;
      if ok {
        PackInjective(tail, blocked, Low(v.tail), Low(v.blocked));
        ClaimRepresents(anchor, stolen, cells[..], v, t, n);
        anchor := next;
        view := Claimed(v, t, n);
      } else if tail == Low(v.tail) && blocked == Low(v.blocked) {
        assert false;
      }
    }

    method CopySlot(ghost c: Claim, start: u32, offset: nat) returns (x: Job)
      requires Valid() && !secluded && c in view.claims
      requires start == Low(c.start) && offset == |c.got| < |c.promise|
      modifies this`view
      ensures Valid() && exists i :: D.Next(old(view), D.Copy(c.taker, i), view)
      ensures x == c.promise[offset]
      ensures c.(got := c.promise[..offset + 1]) in view.claims
      ensures D.EventsOf(view.events, D.Thief(c.taker)) == old(D.EventsOf(view.events, D.Thief(c.taker)))
    {
      hide D.Inv, D.Next, Represents, Low, WrapAdd, SlotOf, D.EventsOf, D.Alone;
      ghost var i := CopyStays(view, c);
      LiveSlot(anchor, stolen, cells[..], view, c.start, offset);
      CopyRepresents(anchor, stolen, cells[..], view, i);
      x := cells[SlotOf(WrapAdd(start, Low(offset)), mask)];
      view := Copied(view, i);
    }

    /** The `stolen` load of the publication loop decides exactly whether it is the turn of `c`. */
    method LoadStolen(ghost c: Claim) returns (now: u32)
      requires Valid() && c in view.claims
      ensures now == Low(c.start) <==> view.stolen == c.start
    {
      TurnIsExact(stolen, view, c);
      now := stolen;
    }

    /** The exchange of the publication loop. */
    method SwapStolen(ghost c: Claim, start: u32, amount: nat, spurious: bool) returns (ok: bool)
      requires Valid() && !secluded && c in view.claims && c.got == c.promise
      requires start == Low(c.start) && amount == |c.promise|
      modifies this`stolen, this`view
      ensures Valid()
      ensures ok ==> D.Next(old(view), D.Release(c.taker, 0), view) && !Engaged(view.claims, c.taker)
      ensures view.events == old(view.events)
      ensures !ok ==> view == old(view)
      ensures ok <==> !spurious && old(view.stolen) == c.start
    {
      TurnIsExact(stolen, view, c);
      ok := !spurious && stolen == start;
      if ok {
        ReleaseRepresents(anchor, stolen, cells[..], view, c);
        stolen := WrapAdd(start, Low(amount));
        view := Released(view);
      }
    }

    // -------------------------------------------------------------- operations

    /** A measured ring that receives nothing: no store happens. */
    ghost method Abandon()
      requires Valid() && view.owner.Filling? && view.owner.staged == []
      modifies this`view
      ensures Valid() && D.Next(old(view), D.Publish, view)
      ensures forall s :: D.Leads(s, old(view)) ==> D.Leads(s, view)
    {
      ghost var v := view;
      view := v.(owner := D.Rest);
      D.StepCarries(v, D.Publish, view);
    }

    /** A look that found nothing ends the pop. */
    ghost method ConcludeEmpty()
      requires Valid() && view.owner.Popping? && view.owner.seen == []
      modifies this`view
      ensures Valid() && D.Next(old(view), D.GiveUp, view)
    {
      view := view.(owner := D.Rest);
    }

    /**
     `push`: appends one job, or reports a ring that was full at its `stolen` load. `at` is the deque
     at that load.
     */
    method Push(x: Job) returns (ok: bool, ghost at: D.State)
      requires Valid() && view.owner.Rest?
      modifies this, cells
      ensures Valid() && view.owner.Rest? && view.cap == old(view.cap)
      ensures EventsOf(D.TheOwner) == old(EventsOf(D.TheOwner)) + (if ok then [D.Pushed([x])] else [])
      ensures D.Interference(D.TheOwner, old(view), at) && (ok <==> at.tail < at.stolen + at.cap)
      ensures D.Leads(at, view) && (secluded ==> at == old(view))
    {
      hide D.Inv, Represents, D.EventsOf, D.Interference, D.Leads;
      var tail, _ := LoadAnchor();
      YieldAsOwner();
      at := view;
      D.LeadsSelf(at);
      var free := LoadRoom(tail);
      YieldAsOwner();
      if free < 1 {
        Abandon();
        return false, at;
      }
      WriteSlot(tail, 0, x);
      YieldAsOwner();
      assert view.owner.staged == [x];
      D.EventsAppend(view.events, D.Pushed([x]), D.TheOwner);
      PublishTail(1);
      return true, at;
    }

    /**
     `push_batch_by_taking_from_queue`: `src` are the elements found under the source's lock and
     `hint` its cached length, which may be stale. Moves the longest prefix of `src` that the request,
     the hint and the free slots at the `stolen` load (deque `at`) allow, in order.
     */
    method PushBatch(max: nat, hint: nat, src: seq<Job>) returns (moved: nat, ghost at: D.State)
      requires Valid() && view.owner.Rest?
      modifies this, cells
      ensures Valid() && view.owner.Rest? && view.cap == old(view.cap)
      ensures D.Interference(D.TheOwner, old(view), at) && at.tail <= at.stolen + at.cap
      ensures D.Leads(at, view) && (secluded ==> at == old(view))
      ensures moved == Min(Min(at.stolen + at.cap - at.tail, Min(max, hint)), |src|)
      ensures EventsOf(D.TheOwner) ==
        old(EventsOf(D.TheOwner)) + (if moved > 0 then [D.Pushed(src[..moved])] else [])
    {
      hide D.Inv, Represents, D.EventsOf, D.Interference, D.Leads;
      var tail, _ := LoadAnchor();
      YieldAsOwner();
      at := view;
      D.LeadsSelf(at);
      var free := LoadRoom(tail);
      ghost var cap := view.cap;
      YieldAsOwner();
      var amount := Min(free, Min(max, hint));
      moved := Min(amount, |src|);
      var k := 0;
      while k < moved
        invariant 0 <= k <= moved <= free && moved <= |src|
        invariant Valid() && view.cap == cap && view.owner == D.Filling(free, src[..k]) && tail == Low(view.tail)
        invariant EventsOf(D.TheOwner) == old(EventsOf(D.TheOwner)) && D.Leads(at, view)
      {
        WriteSlot(tail, k, src[k]);
        assert src[..k + 1] == src[..k] + [src[k]];
        YieldAsOwner();
        k := k + 1;
      }
      if moved < 1 {
        Abandon();
        return;
      }
      D.EventsAppend(view.events, D.Pushed(src[..moved]), D.TheOwner);
      PublishTail(moved);
    }

    /**
     `pop`: the weak exchange may fail spuriously at most `spurious` times; it loses to thieves at
     most as often as there were items at the first look. Nothing is returned only if a look found
     the deque empty.
     */
    method Pop(spurious: nat) returns (r: Option<Job>, ghost lost: nat)
      requires Valid() && view.owner.Rest?
      modifies this, cells
      ensures Valid() && view.owner.Rest? && view.cap == old(view.cap)
      ensures EventsOf(D.TheOwner) ==
        old(EventsOf(D.TheOwner)) + [match r case None => D.FoundEmpty case Some(x) => D.Popped(x)]
      ensures lost <= old(view.tail - view.blocked)
    {
      hide D.Inv, Represents, D.EventsOf, D.Interference;
      ghost var mine := EventsOf(D.TheOwner);
      D.EventsAppend(view.events, D.FoundEmpty, D.TheOwner);
      var tail, blocked := LookAnchor();
      lost := 0;
      YieldAsOwner();
      var budget := spurious;
      while FilledSlots(tail, blocked) >= 1
        invariant Valid() && view.owner.Popping? && view.cap == old(view.cap)
        invariant tail == Low(view.tail) && blocked == Low(view.owner.lb)
        invariant FilledSlots(tail, blocked) == |view.owner.seen|
        invariant EventsOf(D.TheOwner) == if view.owner.seen == [] then mine + [D.FoundEmpty] else mine
        invariant lost + |view.owner.seen| <= old(view.tail - view.blocked)
        decreases FilledSlots(tail, blocked) + budget
      {
        var glitch: bool := *;
        glitch := glitch && budget > 0;
        ghost var v := view;
        var ok := SwapTail(tail, blocked, glitch);
        if ok {
          D.EventsAppend(v.events, D.Popped(view.owner.due), D.TheOwner);
          YieldAsOwner();
          var x := ReadPopped(WrapSub(tail, 1));
          return Some(x), lost;
        }
        // The failed exchange returns the word it found, in the same atomic action.
        tail, blocked := LookAnchor();
        D.EventsAppend(v.events, D.FoundEmpty, D.TheOwner);
        D.LostExchangeShrinks(v, view);
        if glitch {
          budget := budget - 1;
        } else {
          lost := lost + 1;
        }
        YieldAsOwner();
      }
      ConcludeEmpty();
      r := None;
    }

    /** `Drop`: with exclusive access, exactly the unclaimed items are dropped, each once, in order. */
    method DropItems() returns (dropped: seq<Job>)
      requires Valid() && view.owner.Rest? && view.claims == []
      ensures dropped == view.Items()
    {
      hide D.Inv, Represents, Low, WrapAdd, SlotOf, FilledSlots, Top, D.Alone;
      AtRest(anchor, stolen, cells[..], view);
      var tail, blocked := LoadAnchor();
      var count := FilledSlots(tail, blocked);
      dropped := [];
      var offset := 0;
      while offset < count
        invariant offset <= count
        invariant view.blocked + offset <= |view.mem| && dropped == view.mem[view.blocked..view.blocked + offset]
      {
        ghost var c := view.blocked + offset;
        LiveSlot(anchor, stolen, cells[..], view, view.blocked, offset);
        dropped := dropped + [cells[SlotOf(WrapAdd(blocked, Low(offset)), mask)]];
        assert view.mem[view.blocked..c + 1] == view.mem[view.blocked..c] + [view.mem[c]];
        offset := offset + 1;
      }
      assert dropped == view.mem[view.blocked..view.tail];
    }
  }

  /**
   `try_steal_batch_to`: thief `t`, who owns `dst`, claims a prefix of `victim` with one exchange,
   copies it, publishes `stolen` when its turn has come, then publishes its own tail. On success the
   same jobs in the same order left the front of `victim` and joined the back of `dst`. The destination
   at its `stolen` load and the victim at its anchor load decide between `Empty` and a claim, and the
   size of the claim. `Busy` means that the victim's anchor has moved. At most `spurious` polls fail for
   no reason: it is left `Waiting` only if an older claim was pending at all polls but the last `spurious`.
   If the logs show that nobody else stepped in, the answer is what a sequential steal gives.
   */
  method TrySteal(t: nat, max: nat, victim: WorkerQueue, dst: WorkerQueue, polls: nat, spurious: nat)
      returns (r: Steal, ghost w: Witness)
    requires max > 0 && victim != dst && victim.cells != dst.cells && !victim.secluded
    requires victim.Valid() && dst.Valid() && dst.view.owner.Rest? && !Engaged(victim.view.claims, t)
    modifies victim, victim.cells, dst, dst.cells
    ensures victim.Valid() && dst.Valid()
    ensures r.Success? ==> 0 < r.moved == |w.jobs| <= max
    ensures Engaged(victim.view.claims, t) ==> r.Waiting?
    ensures D.Interference(D.TheOwner, old(dst.view), w.room) && w.room.tail <= w.room.stolen + w.room.cap
    ensures dst.secluded ==> w.room == old(dst.view)
    ensures D.Interference(D.Thief(t), old(victim.view), w.seen) && w.seen.blocked <= w.seen.tail
    ensures r.Empty? <==> w.room.tail == w.room.stolen + w.room.cap || w.seen.tail == w.seen.blocked
    ensures r.Success? || r.Waiting? ==>
      |w.jobs| == Min(w.room.stolen + w.room.cap - w.room.tail, Min(max, w.seen.tail - w.seen.blocked))
    ensures r.Busy? ==> (victim.view.tail, victim.view.blocked) != (w.seen.tail, w.seen.blocked)
    ensures victim.EventsOf(D.Thief(t)) ==
      old(victim.EventsOf(D.Thief(t))) + (if r.Success? || r.Waiting? then [D.Stole(t, w.jobs)] else [])
    ensures dst.EventsOf(D.TheOwner) ==
      old(dst.EventsOf(D.TheOwner)) + (if r.Success? then [D.Pushed(w.jobs)] else [])
    ensures r.Waiting? ==> dst.view.owner.Filling? && dst.view.owner.staged == w.jobs
    ensures !r.Waiting? ==> dst.view.owner.Rest?
    ensures r.Waiting? ==>
      && |w.polled| == polls && D.Sightings(old(victim.view), w.polled, victim.view)
      && forall k :: 0 <= k < polls - spurious ==> Behind(w.polled[k].claims, t)
    ensures D.Leads(old(victim.view), victim.view)
    ensures D.Leads(w.seen, victim.view) && D.Leads(w.room, dst.view)
    ensures Quiet(t, old(victim.view), victim.view, r, w.jobs) && dst.view.stolen == old(dst.view.stolen) ==>
      SequentialSteal(old(victim.view), old(dst.view), max, polls > spurious, r, w.jobs)
  {
    hide D.Inv, Represents, D.EventsOf, D.Interference, D.Leads, D.Sightings, Behind, Low, FilledSlots, D.Alone, D.ThiefSees, Engaged;
    hide Quiet, SequentialSteal, D.OwnerSees;
    ghost var v0, d0 := victim.view, dst.view;
    Ordered(v0);
    Ordered(d0);
    var free, dstTail, tail, blocked;
    ghost var room, seen;
    free, dstTail, tail, blocked, room, seen := Survey(t, victim, dst);
    ghost var v := victim.view;
    var amount := Min(free, Min(max, FilledSlots(tail, blocked)));
    if amount < 1 {
      dst.Abandon();
      w := Witness(room, seen, [], []);
      AloneIsSequential(t, v0, d0, w, victim.view, dst.view, max, polls, spurious, Empty);
      return Empty, w;
    }
    var ok := victim.SwapBlocked(t, tail, blocked, amount);
    if !ok {
      dst.Abandon();
      w := Witness(room, seen, [], []);
      AloneIsSequential(t, v0, d0, w, victim.view, dst.view, max, polls, spurious, Busy);
      return Busy, w;
    }
    ghost var polled;
    r, polled := Transfer(t, v, victim, dst, blocked, dstTail, amount, polls, spurious);
    D.LeadsOn(v0, v, victim.view);
    D.LeadsOn(seen, v, victim.view);
    D.SightingsSince(v0, v, polled, victim.view);
    w := Witness(room, seen, v.mem[v.blocked..v.blocked + amount], polled);
    AloneIsSequential(t, v0, d0, w, victim.view, dst.view, max, polls, spurious, r);
  }

  /** The loads of a steal: the destination's two, then the victim's anchor, with everybody moving in between. */
  method Survey(t: nat, victim: WorkerQueue, dst: WorkerQueue)
      returns (free: nat, dstTail: u32, tail: u32, blocked: u32, ghost room: D.State, ghost seen: D.State)
    requires victim != dst && victim.cells != dst.cells && !victim.secluded
    requires victim.Valid() && dst.Valid() && dst.view.owner.Rest?
    modifies victim, victim.cells, dst, dst.cells
    ensures victim.Valid() && dst.Valid()
    ensures dst.view.owner == D.Filling(free, []) && dstTail == Low(dst.view.tail)
    ensures Engaged(victim.view.claims, t) <==> old(Engaged(victim.view.claims, t))
    ensures victim.EventsOf(D.Thief(t)) == old(victim.EventsOf(D.Thief(t))) == D.EventsOf(seen.events, D.Thief(t))
    ensures dst.EventsOf(D.TheOwner) == old(dst.EventsOf(D.TheOwner))
    ensures D.Interference(D.TheOwner, old(dst.view), room) && (dst.secluded ==> room == old(dst.view))
    ensures room.tail == old(dst.view.tail) && free == room.stolen + room.cap - room.tail
    ensures D.Leads(old(dst.view), room) && D.Leads(room, dst.view)
    ensures D.Interference(D.Thief(t), old(victim.view), seen)
    ensures tail == Low(seen.tail) && blocked == Low(seen.blocked) && FilledSlots(tail, blocked) == seen.tail - seen.blocked
    ensures D.Leads(old(victim.view), seen) && D.Leads(seen, victim.view) && D.Leads(old(victim.view), victim.view)
  {
    hide D.Inv, Represents, D.EventsOf, D.Interference, D.Leads, Low, FilledSlots, D.Alone, D.ThiefSees, Engaged;
    ghost var v0 := victim.view;
    D.LeadsSelf(dst.view);
    var own, _ := dst.LoadAnchor();
    dstTail := own;
    dst.YieldAsOwner();
    room := dst.view;
    D.LeadsSelf(room);
    free := dst.LoadRoom(dstTail);
    dst.YieldAsOwner();
    victim.YieldAsThief(t);
    seen := victim.view;
    tail, blocked := victim.LoadAnchor();
    dst.YieldAsOwner();
    victim.YieldAsThief(t);
    D.LeadsOn(v0, seen, victim.view);
  }

  /** Nobody but thief `t` has added to the victim's log. */
  ghost predicate Quiet(t: nat, v0: D.State, v: D.State, r: Steal, jobs: seq<Job>) {
    v.events == v0.events + if r.Success? || r.Waiting? then [D.Stole(t, jobs)] else []
  }

  /**
   What a steal does alone: nothing if there is no item or no room; otherwise as many jobs as room, request
   and items allow are claimed, and moved unless older claims were already pending.
   */
  ghost predicate SequentialSteal(v0: D.State, d0: D.State, max: nat, patient: bool, r: Steal, jobs: seq<Job>) {
    && v0.blocked <= v0.tail && d0.tail <= d0.stolen + d0.cap
    && var n := Min(d0.stolen + d0.cap - d0.tail, Min(max, v0.tail - v0.blocked));
    && (r.Empty? <==> n == 0) && !r.Busy? && |jobs| == n
    && (n > 0 && v0.claims == [] && patient ==> r == Success(n))
  }

  /** Everything `TrySteal` promises about the way from `v0` to `v` and from `d0` to `d`. */
  ghost predicate Witnessed(t: nat, v0: D.State, d0: D.State, w: Witness, v: D.State, d: D.State,
                            max: nat, polls: nat, spurious: nat, r: Steal) {
    && D.Leads(v0, w.seen) && D.Leads(w.seen, v) && D.Leads(d0, w.room) && D.Leads(w.room, d)
    && D.EventsOf(w.seen.events, D.Thief(t)) == D.EventsOf(v0.events, D.Thief(t))
    && w.seen.blocked <= w.seen.tail && w.room.tail == d0.tail <= w.room.stolen + w.room.cap
    && (r.Empty? <==> w.room.tail == w.room.stolen + w.room.cap || w.seen.tail == w.seen.blocked)
    && (r.Busy? ==> (v.tail, v.blocked) != (w.seen.tail, w.seen.blocked))
    && |w.jobs| == (if r.Empty? || r.Busy? then 0
                    else Min(w.room.stolen + w.room.cap - w.room.tail, Min(max, w.seen.tail - w.seen.blocked)))
    && (r.Success? ==> r.moved == |w.jobs|)
    && (r.Waiting? ==>
          && |w.polled| == polls && D.Sightings(v0, w.polled, v)
          && forall k :: 0 <= k < polls - spurious ==> Behind(w.polled[k].claims, t))
  }

  /** If the log shows nobody else, what was seen is what was there. */
  lemma QuietSight(t: nat, v0: D.State, seen: D.State, v: D.State, r: Steal, jobs: seq<Job>)
    requires D.Leads(v0, seen) && D.Leads(seen, v) && Quiet(t, v0, v, r, jobs)
    requires D.EventsOf(seen.events, D.Thief(t)) == D.EventsOf(v0.events, D.Thief(t))
    ensures seen.tail == v0.tail && seen.blocked == v0.blocked
    ensures r.Busy? ==> v.tail == v0.tail && v.blocked == v0.blocked
  {
    D.LeadsGrows(v0, seen);
    D.LeadsGrows(seen, v);
    D.EventsAppend(v0.events, D.Stole(t, jobs), D.Thief(t));
    hide D.Leads, D.EventsOf;
    assert seen.events == v0.events || seen.events == v.events;
  }

  /** If the log shows nobody else and no claim was pending before, none was pending before this one. */
  lemma QuietTurn(t: nat, v0: D.State, p: D.State, v: D.State, r: Steal, jobs: seq<Job>)
    requires D.Leads(v0, p) && D.Leads(p, v) && Quiet(t, v0, v, r, jobs) && v0.claims == []
    ensures !Behind(p.claims, t)
  {
    D.LeadsGrows(v0, p);
    D.LeadsGrows(p, v);
  }

  lemma AloneIsSequential(t: nat, v0: D.State, d0: D.State, w: Witness, v: D.State, d: D.State,
                          max: nat, polls: nat, spurious: nat, r: Steal)
    requires max > 0 && v0.blocked <= v0.tail && d0.tail <= d0.stolen + d0.cap
    requires Witnessed(t, v0, d0, w, v, d, max, polls, spurious, r)
    ensures Quiet(t, v0, v, r, w.jobs) && d.stolen == d0.stolen ==>
      SequentialSteal(v0, d0, max, polls > spurious, r, w.jobs)
  {
    if Quiet(t, v0, v, r, w.jobs) && d.stolen == d0.stolen {
      QuietSight(t, v0, w.seen, v, r, w.jobs);
      D.LeadsGrows(d0, w.room);
      D.LeadsGrows(w.room, d);
      if r.Waiting? && v0.claims == [] && polls > spurious {
        QuietTurn(t, v0, w.polled[0], v, r, w.jobs);
      }
    }
  }

  /** After a successful exchange on `v`: copy the claim, publish `stolen` in turn, then the destination's tail. */
  method Transfer(t: nat, ghost v: D.State, victim: WorkerQueue, dst: WorkerQueue, start: u32, dstTail: u32,
                  amount: nat, polls: nat, spurious: nat)
      returns (r: Steal, ghost polled: seq<D.State>)
    requires victim != dst && victim.cells != dst.cells && !victim.secluded && victim.Valid() && dst.Valid()
    requires D.Next(v, D.ClaimPrefix(t, amount), victim.view) && start == Low(v.blocked)
    requires dst.view.owner.Filling? && dst.view.owner.staged == [] && 0 < amount <= dst.view.owner.room
    requires dstTail == Low(dst.view.tail)
    modifies victim, victim.cells, dst, dst.cells
    ensures victim.Valid() && dst.Valid() && v.blocked + amount <= |v.mem|
    ensures r == Success(amount) || r.Waiting?
    ensures Engaged(victim.view.claims, t) ==> r.Waiting?
    ensures victim.EventsOf(D.Thief(t)) ==
      D.EventsOf(v.events, D.Thief(t)) + [D.Stole(t, v.mem[v.blocked..v.blocked + amount])]
    ensures dst.EventsOf(D.TheOwner) == old(dst.EventsOf(D.TheOwner)) +
      (if r.Success? then [D.Pushed(v.mem[v.blocked..v.blocked + amount])] else [])
    ensures if r.Success? then dst.view.owner.Rest?
            else dst.view.owner.Filling? && dst.view.owner.staged == v.mem[v.blocked..v.blocked + amount]
    ensures D.Leads(v, victim.view) && D.Sightings(v, polled, victim.view)
    ensures forall s :: D.Leads(s, old(dst.view)) ==> D.Leads(s, dst.view)
    ensures r.Waiting? ==> |polled| == polls && forall k :: 0 <= k < polls - spurious ==> Behind(polled[k].claims, t)
  {
    hide D.Inv, Represents, D.EventsOf, D.Leads, D.Sightings, Engaged, Behind, Low, D.Alone;
    ghost var v1, c := victim.view, Claim(t, v.blocked, v.mem[v.blocked..v.blocked + amount], []);
    D.StepLeads(v, D.ClaimPrefix(t, amount), v1);
    D.EventsAppend(v.events, D.Stole(t, c.promise), D.Thief(t));
    assert v1.claims[|v.claims|] == c;
    hide D.Next;
    CopyAll(t, victim, dst, c, start, dstTail, amount);
    D.LeadsOn(v, v1, victim.view);
    ghost var v2 := victim.view;
    r, polled := Publish(t, victim, dst, c.(got := c.promise), start, amount, polls, spurious);
    D.LeadsOn(v, v2, victim.view);
    D.SightingsSince(v, v2, polled, victim.view);
  }

  /** The copy loop of a steal: claimed slots of `victim` into unpublished slots of `dst`, in order. */
  method CopyAll(t: nat, victim: WorkerQueue, dst: WorkerQueue, ghost c: Claim, start: u32, dstTail: u32, amount: nat)
    requires victim != dst && victim.cells != dst.cells && !victim.secluded && victim.Valid() && dst.Valid()
    requires c in victim.view.claims && c.taker == t && c.got == []
    requires start == Low(c.start) && dstTail == Low(dst.view.tail) && amount == |c.promise|
    requires dst.view.owner.Filling? && dst.view.owner.staged == [] && amount <= dst.view.owner.room
    modifies victim, victim.cells, dst, dst.cells
    ensures victim.Valid() && dst.Valid()
    ensures c.(got := c.promise) in victim.view.claims
    ensures dst.view.owner.Filling? && dst.view.owner.staged == c.promise
    ensures victim.EventsOf(D.Thief(t)) == old(victim.EventsOf(D.Thief(t)))
    ensures dst.EventsOf(D.TheOwner) == old(dst.EventsOf(D.TheOwner))
    ensures D.Leads(old(victim.view), victim.view)
    ensures forall s :: D.Leads(s, old(dst.view)) ==> D.Leads(s, dst.view)
  {
    hide D.Inv, Represents, D.EventsOf, D.Interference, D.Leads, D.Alone, Low;
    ghost var jobs, free, v0 := c.promise, dst.view.owner.room, victim.view;
    D.LeadsSelf(v0);
    assert c == c.(got := jobs[..0]);
    var k := 0;
    while k < amount
      invariant 0 <= k <= amount == |jobs| <= free
      invariant victim.Valid() && dst.Valid()
      invariant c.(got := jobs[..k]) in victim.view.claims
      invariant dst.view.owner == D.Filling(free, jobs[..k]) && dstTail == Low(dst.view.tail)
      invariant victim.EventsOf(D.Thief(t)) == old(victim.EventsOf(D.Thief(t)))
      invariant dst.EventsOf(D.TheOwner) == old(dst.EventsOf(D.TheOwner))
      invariant D.Leads(v0, victim.view)
      invariant forall s :: D.Leads(s, old(dst.view)) ==> D.Leads(s, dst.view)
    {
      var x := CopyOne(t, v0, victim, dst, c.(got := jobs[..k]), start, k);
      dst.WriteSlot(dstTail, k, x);
      assert jobs[..k + 1] == jobs[..k] + [x];
      k := k + 1;
    }
    assert jobs[..amount] == jobs;
  }

  /** One slot of the copy loop, read from `victim`; everybody else moves before and after the read. */
  method CopyOne(t: nat, ghost v0: D.State, victim: WorkerQueue, dst: WorkerQueue, ghost c: Claim, start: u32, k: nat)
      returns (x: Job)
    requires victim != dst && victim.cells != dst.cells && !victim.secluded && victim.Valid() && dst.Valid()
    requires c in victim.view.claims && c.taker == t && k == |c.got| < |c.promise| && start == Low(c.start)
    requires D.Leads(v0, victim.view)
    modifies victim, victim.cells, dst`anchor, dst`stolen, dst`view
    ensures victim.Valid() && dst.Valid() && x == c.promise[k] && c.(got := c.promise[..k + 1]) in victim.view.claims
    ensures victim.EventsOf(D.Thief(t)) == old(victim.EventsOf(D.Thief(t)))
    ensures D.OwnerSees(old(dst.view), dst.view) && D.Leads(v0, victim.view)
    ensures forall s :: D.Leads(s, old(dst.view)) ==> D.Leads(s, dst.view)
  {
    hide D.Inv, Represents, D.EventsOf, D.Interference, D.Leads, D.Next, D.Alone, Low;
    ghost var v1 := victim.view;
    dst.YieldAsOwner();
    victim.YieldAsThief(t);
    D.LeadsOn(v0, v1, victim.view);
    ghost var v2 := victim.view;
    x := victim.CopySlot(c, start, k);
    ghost var i :| D.Next(v2, D.Copy(t, i), victim.view);
    D.StepLeads(v2, D.Copy(t, i), victim.view);
    D.LeadsOn(v0, v2, victim.view);
    ghost var v3 := victim.view;
    dst.YieldAsOwner();
    victim.YieldAsThief(t);
    D.LeadsOn(v0, v3, victim.view);
  }

  /**
   The end of a steal: wait for the claim's turn, publish `stolen`, then the destination tail. At most the
   last `spurious` polls can have found the claim's turn in vain.
   */
  method Publish(t: nat, victim: WorkerQueue, dst: WorkerQueue, ghost c: Claim, start: u32, amount: nat,
                 polls: nat, spurious: nat)
      returns (r: Steal, ghost polled: seq<D.State>)
    requires victim != dst && victim.cells != dst.cells && !victim.secluded && victim.Valid() && dst.Valid()
    requires c in victim.view.claims && c.taker == t && c.got == c.promise
    requires start == Low(c.start) && amount == |c.promise| > 0
    requires dst.view.owner.Filling? && dst.view.owner.staged == c.promise
    modifies victim, victim.cells, dst, dst.cells
    ensures victim.Valid() && dst.Valid()
    ensures r == Success(amount) || r.Waiting?
    ensures Engaged(victim.view.claims, t) ==> r.Waiting?
    ensures if r.Success? then dst.view.owner.Rest? else dst.view.owner == old(dst.view.owner)
    ensures victim.EventsOf(D.Thief(t)) == old(victim.EventsOf(D.Thief(t)))
    ensures dst.EventsOf(D.TheOwner) ==
      old(dst.EventsOf(D.TheOwner)) + (if r.Success? then [D.Pushed(c.promise)] else [])
    ensures D.Leads(old(victim.view), victim.view) && D.Sightings(old(victim.view), polled, victim.view)
    ensures forall s :: D.Leads(s, old(dst.view)) ==> D.Leads(s, dst.view)
    ensures r.Waiting? ==> |polled| == polls && forall k :: 0 <= k < polls - spurious ==> Behind(polled[k].claims, t)
  {
    hide D.Inv, Represents, D.EventsOf, D.Interference, D.Leads, D.Sightings, Engaged, Behind, Low, D.Alone;
    ghost var v0 := victim.view;
    D.LeadsSelf(v0);
    polled := [];
    NoSightings(v0);
    var left, budget := polls, spurious;
    while left > 0
      invariant victim.Valid() && dst.Valid() && c in victim.view.claims
      invariant dst.view.owner == old(dst.view.owner)
      invariant victim.EventsOf(D.Thief(t)) == old(victim.EventsOf(D.Thief(t)))
      invariant dst.EventsOf(D.TheOwner) == old(dst.EventsOf(D.TheOwner))
      invariant D.Leads(v0, victim.view) && D.Sightings(v0, polled, victim.view)
      invariant forall s :: D.Leads(s, old(dst.view)) ==> D.Leads(s, dst.view)
      invariant |polled| + left == polls && 0 <= budget <= spurious
      invariant forall k :: 0 <= k < |polled| ==> victim.view.stolen == c.start || Behind(polled[k].claims, t)
      invariant forall k :: 0 <= k < |polled| - (spurious - budget) ==> Behind(polled[k].claims, t)
    {
      var glitch: bool := *;
      glitch := glitch && budget > 0;
      var ok;
      ok, polled := Poll(t, v0, victim, dst, c, start, amount, glitch, polled);
      if ok {
        PublishStaged(dst, amount);
        return Success(amount), polled;
      }
      if glitch {
        budget := budget - 1;
      }
      left := left - 1;
    }
    r := Waiting;
  }

  lemma NoSightings(v: D.State)
    ensures D.Sightings(v, [], v)
  {
  }

  /** One poll for the turn of claim `c`, added to those made since `v0`. */
  method Poll(t: nat, ghost v0: D.State, victim: WorkerQueue, dst: WorkerQueue, ghost c: Claim, start: u32, amount: nat,
              glitch: bool, ghost before: seq<D.State>)
      returns (ok: bool, ghost polled: seq<D.State>)
    requires victim != dst && victim.cells != dst.cells && !victim.secluded && victim.Valid() && dst.Valid()
    requires c in victim.view.claims && c.taker == t && c.got == c.promise
    requires start == Low(c.start) && amount == |c.promise|
    requires D.Leads(v0, victim.view) && D.Sightings(v0, before, victim.view)
    requires forall k :: 0 <= k < |before| ==> victim.view.stolen == c.start || Behind(before[k].claims, t)
    modifies victim, victim.cells, dst`anchor, dst`stolen, dst`view
    ensures victim.Valid() && dst.Valid() && D.OwnerSees(old(dst.view), dst.view)
    ensures forall s :: D.Leads(s, old(dst.view)) ==> D.Leads(s, dst.view)
    ensures |polled| == |before| + 1 && before <= polled
    ensures victim.EventsOf(D.Thief(t)) == old(victim.EventsOf(D.Thief(t)))
    ensures D.Leads(v0, victim.view) && D.Sightings(v0, polled, victim.view)
    ensures ok ==> !Engaged(victim.view.claims, t)
    ensures !ok ==>
      && c in victim.view.claims
      && (forall k :: 0 <= k < |polled| ==> victim.view.stolen == c.start || Behind(polled[k].claims, t))
      && (!glitch ==> victim.view.stolen != c.start)
  {
    hide D.Inv, Represents, D.EventsOf, D.Interference, D.Leads, D.Sightings, D.Next, Engaged, Behind, Low, D.Alone;
    ghost var v := victim.view;
    TurnOrBehind(v, c);
    dst.YieldAsOwner();
    victim.YieldAsThief(t);
    TurnOrBehind(victim.view, c);
    D.LeadsOn(v0, v, victim.view);
    D.SightingsOn(v0, before, v, victim.view);
    D.SightingsAdd(v0, before, victim.view);
    ghost var v1 := victim.view;
    polled := before + [v1];
    var now := victim.LoadStolen(c);
    if now != start {
      return false, polled;
    }
    // Nobody but the claimant moves `stolen` at its turn, so only a spurious failure can still come.
    dst.YieldAsOwner();
    victim.YieldAsThief(t);
    TurnOrBehind(victim.view, c);
    D.LeadsOn(v0, v1, victim.view);
    D.SightingsOn(v0, polled, v1, victim.view);
    ghost var v2 := victim.view;
    ok := victim.SwapStolen(c, start, amount, glitch);
    if ok {
      D.StepLeads(v2, D.Release(t, 0), victim.view);
      D.LeadsOn(v0, v2, victim.view);
      D.SightingsOn(v0, polled, v2, victim.view);
    }
  }

  lemma TurnOrBehind(v: D.State, c: Claim)
    requires D.Inv(v) && c in v.claims
    ensures v.stolen <= c.start && (v.stolen == c.start || Behind(v.claims, c.taker))
  {
    BehindOrTurn(v.claims, v.stolen, v.blocked, c);
  }

  /** The thief's own tail, published under interference. */
  method PublishStaged(dst: WorkerQueue, amount: nat)
    requires dst.Valid() && dst.view.owner.Filling? && |dst.view.owner.staged| == amount > 0
    modifies dst`anchor, dst`stolen, dst`view
    ensures dst.Valid() && dst.view.owner.Rest? && forall s :: D.Leads(s, old(dst.view)) ==> D.Leads(s, dst.view)
    ensures dst.EventsOf(D.TheOwner) == old(dst.EventsOf(D.TheOwner)) + [D.Pushed(old(dst.view.owner.staged))]
  {
    hide D.Inv, Represents, D.EventsOf, D.Interference, D.Leads, Low, D.Alone;
    dst.YieldAsOwner();
    D.EventsAppend(dst.view.events, D.Pushed(dst.view.owner.staged), D.TheOwner);
    dst.PublishTail(amount);
  }
}
