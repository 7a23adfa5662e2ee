/**
 The private helper of a caller that is registered nowhere: a worker whose one-slot deque no other
 thread can reach. It drains the shared queue and steals from the registered workers' deques with the
 operations of `WorkerQueues`. `RunTask` demands an empty deque, so every call of it below is a proof
 that no job is hidden in the deque while user code runs.
 */
module Helpers {
  import opened Jobs
  import opened Words
  import opened Claims
  import opened WorkerQueues
  import D = Deque

  /** What a search finds at one worker's inbox, as the other threads have left it at that moment. */
  datatype Inbox = Inbox(
    shows: bool,        // the cached length is nonzero
    free: bool,         // the lock can be taken without waiting
    jobs: seq<Job>)

  /** What one round of the draining loop finds outside the deques. */
  datatype Round = Round(sharedLen: nat, shared: seq<Job>, inboxes: seq<Inbox>, start: nat)

  predicate Offers(b: Inbox) {
    b.shows && b.free && b.jobs != []
  }

  function SharedOffer(r: Round): nat {
    Min(r.sharedLen, |r.shared|)
  }

  /** The victim visited at `offset` of a rotation. */
  function Turn(start: nat, offset: nat, count: nat): (i: nat)
    requires count > 0
    ensures i < count
  {
    (start + offset) % count
  }

  /** Starting anywhere, a full rotation meets every victim. */
  lemma RotationCovers(count: nat, start: nat, i: nat) returns (offset: nat)
    requires i < count
    ensures offset < count && Turn(start, offset, count) == i
  {
    var gap := i - start % count;
    offset := if gap >= 0 then gap else gap + count;
    var q := start / count + (if gap >= 0 then 0 else 1);
    assert start == count * (start / count) + start % count;
    assert count * (start / count + 1) == count * (start / count) + count;
    ModUnique(start + offset, q, count, i);
  }

  /** Within one rotation no victim is met twice. */
  lemma RotationIsInjective(count: nat, start: nat, j: nat, k: nat)
    requires j < k < count
    ensures Turn(start, j, count) != Turn(start, k, count)
  {
    SlotsDiffer(start + j, start + k, count);
  }

  lemma OthersDiffer(count: nat, start: nat, offset: nat)
    requires offset < count
    ensures forall k :: 0 <= k < count && k != offset ==> Turn(start, k, count) != Turn(start, offset, count)
  {
    forall k | 0 <= k < count && k != offset
      ensures Turn(start, k, count) != Turn(start, offset, count)
    {
      RotationIsInjective(count, start, if k < offset then k else offset, if k < offset then offset else k);
    }
  }

  /** A deque without thieves has as many free slots as its capacity leaves. */
  lemma RoomOf(v: D.State)
    requires D.Inv(v) && D.Alone(v)
    ensures v.stolen == v.blocked <= v.tail <= |v.mem| && |v.Items()| == v.tail - v.blocked <= v.cap
  {
  }

  /** What a pop of a deque without thieves returns is decided by what the deque held. */
  lemma PopDecides(v: D.State, r: Option<Job>, v': D.State)
    requires D.Inv(v) && D.Inv(v') && D.Alone(v) && D.Alone(v') && v.cap == 1
    requires D.EventsOf(v'.events, D.TheOwner) ==
      D.EventsOf(v.events, D.TheOwner) + [match r case None => D.FoundEmpty case Some(x) => D.Popped(x)]
    ensures v'.Items() == [] && v.Items() == if r.Some? then [r.value] else []
  {
    D.LogDecides(v, match r case None => D.FoundEmpty case Some(x) => D.Popped(x), v');
    RoomOf(v);
  }

  /** A deque without thieves holds what it held and what its owner has pushed. */
  lemma PushDecides(v: D.State, jobs: seq<Job>, v': D.State)
    requires D.Inv(v) && D.Inv(v') && D.Alone(v) && D.Alone(v')
    requires D.EventsOf(v'.events, D.TheOwner) ==
      D.EventsOf(v.events, D.TheOwner) + if jobs == [] then [] else [D.Pushed(jobs)]
    ensures v'.Items() == v.Items() + jobs
  {
    if jobs != [] {
      D.LogDecides(v, D.Pushed(jobs), v');
    } else {
      assert v'.events == v.events;
    }
  }

  /** Nothing to claim at the load, or the word has changed since. */
  ghost predicate Missed(seen: D.State, now: D.State) {
    seen.tail == seen.blocked || (now.tail, now.blocked) != (seen.tail, seen.blocked)
  }

  /** A deque that was looked at on the way from `before` to `now`, with nothing to be had. */
  ghost predicate Passed(before: D.State, look: D.State, now: D.State) {
    D.Leads(before, look) && D.Leads(look, now) && Missed(look, now)
  }

  /** Where a job that was run came from: nowhere, the shared queue, or the inbox or deque of victim `i`. */
  datatype Source = Nowhere | FromShared(j: Job) | FromInbox(i: nat, j: Job) | FromDeque(i: nat, j: Job)

  ghost function JobOf(src: Source): seq<Job> {
    if src.Nowhere? then [] else [src.j]
  }

  /** What the log of victim `i` says about it, for thief `id`. */
  ghost function Theft(src: Source, i: nat, id: nat): seq<D.Event> {
    if src.FromDeque? && src.i == i then [D.Stole(id, [src.j])] else []
  }

  ghost function JobsOf(sources: seq<Source>): seq<Job> {
    if sources == [] then [] else JobsOf(sources[..|sources| - 1]) + JobOf(sources[|sources| - 1])
  }

  ghost function Thefts(sources: seq<Source>, i: nat, id: nat): seq<D.Event> {
    if sources == [] then []
    else Thefts(sources[..|sources| - 1], i, id) + Theft(sources[|sources| - 1], i, id)
  }

  lemma LastSource(sources: seq<Source>, src: Source, i: nat, id: nat)
    ensures JobsOf(sources + [src]) == JobsOf(sources) + JobOf(src)
    ensures Thefts(sources + [src], i, id) == Thefts(sources, i, id) + Theft(src, i, id)
  {
    assert (sources + [src])[..|sources|] == sources;
  }

  /**
   What a round must have run: the shared queue's first job if it offers one; otherwise, if some inbox offers
   one, that of an inbox or a deque; and from an inbox only its first job.
   */
  ghost predicate Served(r: Round, src: Source) {
    && (SharedOffer(r) > 0 <==> src.FromShared?)
    && (src.FromShared? ==> src.j == r.shared[0])
    && (src.FromInbox? || src.FromDeque? ==> src.i < |r.inboxes| && (src.FromInbox? <==> Offers(r.inboxes[src.i])))
    && (src.FromInbox? ==> src.j == r.inboxes[src.i].jobs[0])
    && (src.Nowhere? ==> forall i :: 0 <= i < |r.inboxes| ==> !Offers(r.inboxes[i]))
  }

  class Helper {
    /** The one-slot deque. */
    const tasks: WorkerQueue
    /** Its identity as a thief. */
    const id: nat
    /** Jobs run so far, and jobs taken out of the pool so far. */
    var ran: seq<Job>
    ghost var took: seq<Job>

    ghost predicate Private()
      reads this, tasks, tasks.cells
    {
      tasks.Valid() && tasks.secluded && tasks.mask == 0
    }

    /** The jobs in the deque. */
    ghost function Held(): seq<Job>
      requires Private()
      reads this, tasks, tasks.cells
    {
      tasks.view.Items()
    }

    ghost predicate Valid()
      reads this, tasks, tasks.cells
    {
      Private() && tasks.view.owner.Rest? && took == ran + Held()
    }

    constructor (id: nat)
      ensures Valid() && Held() == [] && ran == [] && this.id == id && fresh(tasks) && fresh(tasks.cells)
    {
      assert IsCapacity(1) by {
        assert Pow2(0) == 1;
      }
      tasks := new WorkerQueue(1, true);
      this.id := id;
      ran, took := [], [];
    }

    /** User code runs here. */
    method RunTask(j: Job)
      requires Private() && tasks.view.owner.Rest? && Held() == [] && took == ran + [j]
      modifies this`ran
      ensures ran == took == old(ran) + [j]
    {
      ran := ran + [j];
    }

    /** `pop_and_run_a_task`: nobody publishes into a helper's inbox, so only the deque counts. */
    method PopAndRun(spurious: nat) returns (did: bool)
      requires Valid()
      modifies this`ran, tasks, tasks.cells
      ensures Valid() && Held() == [] && took == old(took)
      ensures did == (old(Held()) != []) && ran == old(ran) + old(Held())
    {
      ghost var v := tasks.view;
      var r, _ := tasks.Pop(spurious);
      PopDecides(v, r, tasks.view);
      hide D.Inv, D.Alone, Represents, D.EventsOf;
      did := r.Some?;
      if did {
        RunTask(r.value);
      }
    }

    /** The shared queue's first job into the empty slot, if it can be had. */
    method Drain(r: Round) returns (moved: nat)
      requires Valid() && Held() == []
      modifies this`took, tasks, tasks.cells
      ensures Valid() && moved == Min(1, SharedOffer(r)) && Held() == r.shared[..moved]
      ensures took == old(took) + Held()
    {
      hide D.Alone, Represents, D.EventsOf, D.Interference, Low, Tiles, AllKept, OneEach, D.Replay, D.OwnerInv;
      ghost var v := tasks.view;
      RoomOf(v);
      ghost var at;
      moved, at := tasks.PushBatch(1, r.sharedLen, r.shared);
      took := took + r.shared[..moved];
      PushDecides(v, r.shared[..moved], tasks.view);
    }

    /**
     The steal half of the search at one victim. A job that could be had is moved and run; otherwise the
     victim had no unclaimed item at the load (`seen`), or its anchor had moved by the exchange. The helper
     is stuck in the publication loop only behind older claims.
     */
    method StealFrom(victim: WorkerQueue, polls: nat, spurious: nat)
        returns (did: bool, stuck: bool, ghost w: Witness)
      requires Valid() && Held() == [] && Open(victim)
      modifies this, tasks, tasks.cells, victim, victim.cells
      ensures victim.Valid() && (!stuck ==> Open(victim) && Valid() && Held() == [])
      ensures stuck ==> !did && ran == old(ran) && StuckBehind(victim, old(victim.view), w.polled, polls, spurious)
      ensures did ==> |w.jobs| == 1 && ran == old(ran) + w.jobs && took == old(took) + w.jobs
      ensures victim.EventsOf(D.Thief(id)) ==
        old(victim.EventsOf(D.Thief(id))) + (if did || stuck then [D.Stole(id, w.jobs)] else [])
      ensures !did && !stuck ==>
        ran == old(ran) && took == old(took) && Passed(old(victim.view), w.seen, victim.view)
    {
      hide D.Inv, D.Alone, Represents, D.EventsOf, D.Interference, D.Leads, D.Sightings, Behind, Low, FilledSlots;
      hide Quiet, SequentialSteal, D.ThiefSees, Engaged;
      ghost var v, d := victim.view, tasks.view;
      RoomOf(d);
      victim.YieldAsThief(id);
      ghost var v1 := victim.view;
      var tail, blocked := victim.LoadAnchor();
      var len: nat := FilledSlots(tail, blocked);
      var batch: nat := if len < 2 then 1 else (len + 1) / 2;
      var r;
      r, w := TrySteal(id, batch, victim, tasks, polls, spurious);
      stuck := r.Waiting?;
      did := r.Success?;
      if did {
        PushDecides(d, w.jobs, tasks.view);
        took := took + w.jobs;
        did := PopAndRun(spurious);
      } else if stuck {
        D.SightingsSince(v, v1, w.polled, victim.view);
      } else {
        PushDecides(d, [], tasks.view);
        D.InterferenceLeads(D.Thief(id), v1, w.seen);
        D.LeadsOn(v, v1, w.seen);
      }
    }

    /** Victim `i` of the search: its inbox first, without waiting for the lock, then its deque. */
    method Visit(ghost i: nat, victim: WorkerQueue, inbox: Inbox, polls: nat, spurious: nat)
        returns (did: bool, stuck: bool, ghost src: Source, ghost w: Witness)
      requires Valid() && Held() == [] && Open(victim)
      modifies this, tasks, tasks.cells, victim, victim.cells
      ensures victim.Valid() && (!stuck ==> Open(victim) && Valid() && Held() == [])
      ensures stuck ==> !did && ran == old(ran) && StuckBehind(victim, old(victim.view), w.polled, polls, spurious)
      ensures did <==> !src.Nowhere?
      ensures did ==> (src.FromInbox? || src.FromDeque?) && src.i == i && (src.FromInbox? <==> Offers(inbox))
      ensures Offers(inbox) ==> src == FromInbox(i, inbox.jobs[0])
      ensures !stuck ==>
        && ran == old(ran) + JobOf(src)
        && victim.EventsOf(D.Thief(id)) == old(victim.EventsOf(D.Thief(id))) + Theft(src, i, id)
      ensures !did && !stuck ==> Passed(old(victim.view), w.seen, victim.view)
    {
      hide D.Inv, D.Alone, Represents, D.EventsOf, Passed, StuckBehind, Engaged;
      if Offers(inbox) {
        took := took + [inbox.jobs[0]];
        RunTask(inbox.jobs[0]);
        did, stuck, src := true, false, FromInbox(i, inbox.jobs[0]);
        w := Witness(tasks.view, victim.view, [], []);
      } else {
        did, stuck, w := StealFrom(victim, polls, spurious);
        src := if did then FromDeque(i, w.jobs[0]) else Nowhere;
        assert did ==> w.jobs == [w.jobs[0]];
      }
    }

    /** A registered worker's deque, which the helper may steal from. */
    ghost predicate Open(victim: WorkerQueue)
      reads victim, victim.cells
    {
      && victim.Valid() && !victim.secluded && !Engaged(victim.view.claims, id)
      && victim != tasks && victim.cells != tasks.cells
    }

    /** All polls but the last `spurious` found an older claim on the victim pending. */
    ghost predicate StuckBehind(victim: WorkerQueue, before: D.State, polled: seq<D.State>, polls: nat, spurious: nat)
      reads victim
    {
      && |polled| == polls && D.Sightings(before, polled, victim.view)
      && forall k :: 0 <= k < polls - spurious ==> Behind(polled[k].claims, id)
    }

    /** No two of these deques, nor one of them and the helper's own, share anything. */
    ghost predicate Apart(victims: seq<WorkerQueue>) {
      && (forall i :: 0 <= i < |victims| ==> victims[i] != tasks && victims[i].cells != tasks.cells)
      && (forall i, j :: 0 <= i < j < |victims| ==> victims[i] != victims[j] && victims[i].cells != victims[j].cells)
    }

    ghost predicate AllOpen(victims: seq<WorkerQueue>)
      reads victims, set v | v in victims :: v.cells
    {
      Apart(victims) && forall i :: 0 <= i < |victims| ==> Open(victims[i])
    }

    /** A visit of victim `i` leaves the other victims alone. */
    method VisitAmong(i: nat, r: Round, victims: seq<WorkerQueue>, polls: nat, spurious: nat)
        returns (did: bool, stuck: bool, ghost src: Source, ghost w: Witness)
      requires Valid() && Held() == [] && AllOpen(victims) && i < |victims| == |r.inboxes|
      modifies this, tasks, tasks.cells, victims, set v | v in victims :: v.cells
      ensures !stuck ==> Valid() && Held() == [] && AllOpen(victims)
      ensures forall h :: 0 <= h < |victims| && h != i ==> victims[h].view == old(victims[h].view)
      ensures stuck ==>
        !did && ran == old(ran) && StuckBehind(victims[i], old(victims[i].view), w.polled, polls, spurious)
      ensures did <==> !src.Nowhere?
      ensures did ==> (src.FromInbox? || src.FromDeque?) && src.i == i && (src.FromInbox? <==> Offers(r.inboxes[i]))
      ensures Offers(r.inboxes[i]) ==> src == FromInbox(i, r.inboxes[i].jobs[0])
      ensures !stuck ==>
        && ran == old(ran) + JobOf(src)
        && victims[i].EventsOf(D.Thief(id)) == old(victims[i].EventsOf(D.Thief(id))) + Theft(src, i, id)
      ensures !did && !stuck ==> Passed(old(victims[i].view), w.seen, victims[i].view)
    {
      hide D.Inv, D.Alone, Represents, D.EventsOf, StuckBehind, Passed, Offers, Engaged, JobOf, Theft;
      did, stuck, src, w := Visit(i, victims[i], r.inboxes[i], polls, spurious);
    }

    /**
     `steal_and_run_a_task`: first the shared queue, then every victim in rotated order. The shared queue's
     first job is run if it offers one. Otherwise the job run comes from the first victim of the rotation that
     has one: its inbox's first job, or one job stolen from its deque, as that deque's log says. Every victim
     before it, and all of them if nothing was run, had an inbox that offered nothing and a deque that was
     empty when it was looked at (`looks`) or changed under the look.
     */
    method StealAndRun(r: Round, victims: seq<WorkerQueue>, polls: nat, spurious: nat)
        returns (did: bool, stuck: bool, ghost src: Source, ghost looks: map<nat, D.State>, ghost hit: nat)
      requires Valid() && Held() == [] && AllOpen(victims) && |r.inboxes| == |victims|
      modifies this, tasks, tasks.cells, victims, set v | v in victims :: v.cells
      ensures !stuck ==> Valid() && Held() == [] && AllOpen(victims)
      ensures stuck ==> !did && ran == old(ran) && exists i, polled ::
        0 <= i < |victims| && StuckBehind(victims[i], old(victims[i].view), polled, polls, spurious)
      ensures (did <==> !src.Nowhere?) && (!stuck ==> Served(r, src))
      ensures !stuck ==> ran == old(ran) + JobOf(src) && forall i :: 0 <= i < |victims| ==>
        victims[i].EventsOf(D.Thief(id)) == old(victims[i].EventsOf(D.Thief(id))) + Theft(src, i, id)
      ensures src.FromInbox? || src.FromDeque? ==> hit < |victims| && src.i == Turn(r.start, hit, |victims|)
      ensures !stuck && !src.FromShared? ==> forall k :: 0 <= k < (if did then hit else |victims|) ==>
        var i := Turn(r.start, k, |victims|);
        && !Offers(r.inboxes[i]) && i in looks && Passed(old(victims[i].view), looks[i], victims[i].view)
    {
      hide D.Inv, D.Alone, Represents, D.EventsOf, StuckBehind, Passed, Offers, Engaged, Turn;
      var moved := Drain(r);
      if moved > 0 {
        did := PopAndRun(spurious);
        return did, false, FromShared(r.shared[0]), map[], 0;
      }
      did, stuck, src, looks, hit := Search(r, victims, polls, spurious);
      if !stuck && !did {
        forall i | 0 <= i < |victims|
          ensures !Offers(r.inboxes[i])
        {
          var k := RotationCovers(|victims|, r.start, i);
        }
      }
    }

    /** The search over all victims. */
    method Search(r: Round, victims: seq<WorkerQueue>, polls: nat, spurious: nat)
        returns (did: bool, stuck: bool, ghost src: Source, ghost looks: map<nat, D.State>, ghost hit: nat)
      requires Valid() && Held() == [] && AllOpen(victims) && |r.inboxes| == |victims|
      modifies this, tasks, tasks.cells, victims, set v | v in victims :: v.cells
      ensures !stuck ==> Valid() && Held() == [] && AllOpen(victims)
      ensures stuck ==> !did && ran == old(ran) && exists i, polled ::
        0 <= i < |victims| && StuckBehind(victims[i], old(victims[i].view), polled, polls, spurious)
      ensures did <==> !src.Nowhere?
      ensures did ==> hit < |victims| && (src.FromInbox? || src.FromDeque?) && src.i == Turn(r.start, hit, |victims|)
      ensures did ==> (src.FromInbox? <==> Offers(r.inboxes[src.i]))
      ensures src.FromInbox? ==> src.j == r.inboxes[src.i].jobs[0]
      ensures !stuck ==> ran == old(ran) + JobOf(src) && forall i :: 0 <= i < |victims| ==>
        victims[i].EventsOf(D.Thief(id)) == old(victims[i].EventsOf(D.Thief(id))) + Theft(src, i, id)
      ensures !stuck ==> forall k :: 0 <= k < (if did then hit else |victims|) ==>
        var i := Turn(r.start, k, |victims|);
        && !Offers(r.inboxes[i]) && i in looks && Passed(old(victims[i].view), looks[i], victims[i].view)
    {
      hide D.Inv, D.Alone, Represents, D.EventsOf, StuckBehind, Passed, Turn, Offers, AllOpen, Private;
      looks := map[];
      var count := |victims|;
      var offset := 0;
      while offset < count
        invariant 0 <= offset <= count
        invariant Valid() && Held() == [] && ran == old(ran) && AllOpen(victims)
        invariant forall i :: 0 <= i < count && i !in looks ==> victims[i].view == old(victims[i].view)
        invariant forall i :: 0 <= i < count ==>
          victims[i].EventsOf(D.Thief(id)) == old(victims[i].EventsOf(D.Thief(id)))
        invariant forall i :: 0 <= i < count && i in looks ==>
          !Offers(r.inboxes[i]) && Passed(old(victims[i].view), looks[i], victims[i].view)
        invariant forall k :: 0 <= k < count ==> (Turn(r.start, k, count) in looks <==> k < offset)
      {
        var i := Turn(r.start, offset, count);
        ghost var w;
        OthersDiffer(count, r.start, offset);
        did, stuck, src, w := VisitAmong(i, r, victims, polls, spurious);
        if did || stuck {
          hit := offset;
          return;
        }
        looks := looks[i := w.seen];
        offset := offset + 1;
      }
      did, stuck, src, hit := false, false, Nowhere, 0;
    }

    /**
     `run_until`: rounds until the scope is complete. Every round runs what it must (`Served`); together the
     rounds have run exactly what was taken from the shared queue, the inboxes and, as their logs say, the
     deques, in that order. When it returns the deque is empty.
     */
    method RunUntil(rounds: seq<Round>, victims: seq<WorkerQueue>, polls: nat, spurious: nat)
        returns (stuck: bool, ghost sources: seq<Source>)
      requires Valid() && Held() == [] && AllOpen(victims)
      requires forall k :: 0 <= k < |rounds| ==> |rounds[k].inboxes| == |victims|
      modifies this, tasks, tasks.cells, victims, set v | v in victims :: v.cells
      ensures |sources| <= |rounds| && ran == old(ran) + JobsOf(sources)
      ensures forall k :: 0 <= k < |sources| ==> Served(rounds[k], sources[k])
      ensures !stuck ==> |sources| == |rounds| && Valid() && Held() == [] && ran == took
      ensures !stuck ==> forall i :: 0 <= i < |victims| ==>
        victims[i].EventsOf(D.Thief(id)) == old(victims[i].EventsOf(D.Thief(id))) + Thefts(sources, i, id)
    {
      hide D.Inv, D.Alone, Represents, D.EventsOf, StuckBehind, Passed, Offers, Open, Private, Turn, Served, JobsOf, Thefts;
      stuck, sources := false, [];
      NoSources(id);
      var k := 0;
      while k < |rounds|
        invariant 0 <= k == |sources| <= |rounds|
        invariant Valid() && Held() == [] && AllOpen(victims) && ran == old(ran) + JobsOf(sources)
        invariant forall h :: 0 <= h < k ==> Served(rounds[h], sources[h])
        invariant forall i :: 0 <= i < |victims| ==>
          victims[i].EventsOf(D.Thief(id)) == old(victims[i].EventsOf(D.Thief(id))) + Thefts(sources, i, id)
      {
        // The deque is empty between rounds, so the round's job comes from the search.
        var did := PopAndRun(spurious);
        assert !did;
        ghost var src, looks, hit;
        did, stuck, src, looks, hit := StealAndRun(rounds[k], victims, polls, spurious);
        if stuck {
          return;
        }
        LastSource(sources, src, 0, id);
        assert old(ran) + JobsOf(sources) + JobOf(src) == old(ran) + (JobsOf(sources) + JobOf(src));
        forall i: nat
          ensures Thefts(sources + [src], i, id) == Thefts(sources, i, id) + Theft(src, i, id)
        {
          LastSource(sources, src, i, id);
        }
        sources := sources + [src];
        k := k + 1;
      }
    }
  }

  lemma NoSources(id: nat)
    ensures JobsOf([]) == [] && forall i: nat :: Thefts([], i, id) == []
  {
  }
}
