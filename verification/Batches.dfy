/**
 Batch publication as one caller performs it: all inboxes are locked in index order by a recursion
 that owns one guard per frame, the jobs are dealt round-robin, and every frame takes its share back
 if the iterator fails. Interleavings with other threads are in `SleepWake`.
 */
module Batches {
  import opened Jobs
  import opened Words

  /** Threads that receive work: the background workers, and the host only if it publishes. */
  function Participants(workers: nat, caller: nat): nat {
    workers + if caller == workers then 1 else 0
  }

  /** The inbox of a turn: the caller first, then the others in index order. */
  function TargetOf(turn: nat, caller: nat): nat {
    if turn == 0 then caller else if turn <= caller then turn - 1 else turn
  }

  /** The turn of an inbox. */
  function TurnOf(target: nat, caller: nat): nat {
    if target == caller then 0 else if target < caller then target + 1 else target
  }

  predicate Takes(target: nat, workers: nat, caller: nat) {
    target < workers || (target == workers == caller)
  }

  /** Turns and participants correspond one to one; an inactive host has no turn. */
  lemma TurnsAreABijection(workers: nat, caller: nat, turn: nat, target: nat)
    requires workers > 0 && caller <= workers
    ensures turn < Participants(workers, caller) ==>
      Takes(TargetOf(turn, caller), workers, caller) && TurnOf(TargetOf(turn, caller), caller) == turn
    ensures Takes(target, workers, caller) ==>
      TurnOf(target, caller) < Participants(workers, caller) && TargetOf(TurnOf(target, caller), caller) == target
    ensures caller < workers ==> !Takes(workers, workers, caller)
  {
  }

  /** The caller comes first, then the other participants in index order. */
  lemma TurnsAscend(workers: nat, caller: nat, a: nat, b: nat)
    requires workers > 0 && caller <= workers && a < b < Participants(workers, caller)
    ensures TargetOf(0, caller) == caller
    ensures a > 0 ==> TargetOf(a, caller) < TargetOf(b, caller)
    ensures TargetOf(b, caller) != caller
  {
  }

  /** The inbox of the `k`-th job of a batch. */
  function Target(k: nat, workers: nat, caller: nat): nat
    requires workers > 0
  {
    TargetOf(k % Participants(workers, caller), caller)
  }

  lemma TargetIsInbox(k: nat, workers: nat, caller: nat)
    requires workers > 0 && caller <= workers
    ensures Target(k, workers, caller) <= workers
  {
    TurnsAreABijection(workers, caller, k % Participants(workers, caller), 0);
  }

  /** The jobs of a batch that go to inbox `i`, in iterator order. */
  function Share(jobs: seq<Job>, i: nat, workers: nat, caller: nat): seq<Job>
    requires workers > 0
  {
    if jobs == [] then []
    else
      var k := |jobs| - 1;
      Share(jobs[..k], i, workers, caller) + if Target(k, workers, caller) == i then [jobs[k]] else []
  }

  /** Number of `k < n` with `k % p == turn`. */
  function ShareSize(n: nat, p: nat, turn: nat): nat
    requires turn < p
  {
    QuotientIsNat(n + p - 1 - turn, p);
    (n + p - 1 - turn) / p
  }

  lemma ShareSizeStep(n: nat, p: nat, turn: nat)
    requires turn < p
    ensures ShareSize(n + 1, p, turn) == ShareSize(n, p, turn) + if n % p == turn then 1 else 0
  {
    var q, r := n / p, n % p;
    assert n == p * q + r;
    assert p * (q + 1) == p * q + p;
    var below, above := r + p - 1 - turn, r + p - turn;
    if r < turn {
      ModUnique(n + p - 1 - turn, q, p, below);
      ModUnique(n + p - turn, q, p, above);
    } else if r == turn {
      ModUnique(n + p - 1 - turn, q, p, below);
      ModUnique(n + p - turn, q + 1, p, 0);
    } else {
      ModUnique(n + p - 1 - turn, q + 1, p, below - p);
      ModUnique(n + p - turn, q + 1, p, above - p);
    }
  }

  /** Every participant's share has the round-robin size; nobody else receives anything. */
  lemma {:induction false} ShareHasSize(jobs: seq<Job>, i: nat, workers: nat, caller: nat)
    requires workers > 0 && caller <= workers
    ensures Takes(i, workers, caller) ==> TurnOf(i, caller) < Participants(workers, caller)
    ensures |Share(jobs, i, workers, caller)| ==
      if Takes(i, workers, caller) then ShareSize(|jobs|, Participants(workers, caller), TurnOf(i, caller)) else 0
  {
    var p := Participants(workers, caller);
    TurnsAreABijection(workers, caller, 0, i);
    if jobs == [] {
      if Takes(i, workers, caller) {
        ModUnique(p - 1 - TurnOf(i, caller), 0, p, p - 1 - TurnOf(i, caller));
      }
    } else {
      var k := |jobs| - 1;
      ShareHasSize(jobs[..k], i, workers, caller);
      TurnsAreABijection(workers, caller, k % p, i);
      if Takes(i, workers, caller) {
        ShareSizeStep(k, p, TurnOf(i, caller));
      }
    }
  }

  /** Shares of participants differ by at most one and the caller's is the rounded-up average. */
  lemma SharesAreBalanced(jobs: seq<Job>, i: nat, h: nat, workers: nat, caller: nat)
    requires workers > 0 && caller <= workers
    requires Takes(i, workers, caller) && Takes(h, workers, caller)
    ensures |Share(jobs, i, workers, caller)| <= |Share(jobs, h, workers, caller)| + 1
    ensures |Share(jobs, i, workers, caller)| <= |Share(jobs, caller, workers, caller)|
    ensures |Share(jobs, caller, workers, caller)| ==
      (|jobs| + Participants(workers, caller) - 1) / Participants(workers, caller)
    ensures caller < workers ==> Share(jobs, workers, workers, caller) == []
  {
    var p, n := Participants(workers, caller), |jobs|;
    ShareHasSize(jobs, i, workers, caller);
    ShareHasSize(jobs, h, workers, caller);
    ShareHasSize(jobs, caller, workers, caller);
    ShareHasSize(jobs, workers, workers, caller);
    SizesDiffer(n, p, TurnOf(i, caller));
    SizesDiffer(n, p, TurnOf(h, caller));
    hide Share, ShareSize;
  }

  lemma SizesDiffer(n: nat, p: nat, turn: nat)
    requires turn < p
    ensures ShareSize(n, p, turn) <= ShareSize(n, p, 0) <= ShareSize(n, p, turn) + 1
  {
    var x: int, y: int := n + p - 1, n + p - 1 - turn;
    var qx: int, qy: int := x / p, y / p;
    assert p * qx == x - x % p;
    assert p * qy == y - y % p;
    assert p * (qx - qy) == p * qx - p * qy;
    SmallGap(p, qx - qy);
  }

  lemma SmallGap(p: int, d: int)
    requires p > 0 && -p < p * d < 2 * p
    ensures 0 <= d <= 1
  {
    MultipleGap(p, d);
    MultipleGap(p, d - 1);
    assert p * (d - 1) == p * d - p;
  }

  /** How often `j` was dealt to the inboxes `0 .. m - 1`. */
  ghost function DealtBelow(jobs: seq<Job>, m: nat, workers: nat, caller: nat, j: Job): nat
    requires workers > 0
  {
    if m == 0 then 0
    else DealtBelow(jobs, m - 1, workers, caller, j) + multiset(Share(jobs, m - 1, workers, caller))[j]
  }

  lemma {:induction false} DealtStep(jobs: seq<Job>, m: nat, workers: nat, caller: nat, j: Job)
    requires workers > 0 && jobs != []
    ensures DealtBelow(jobs, m, workers, caller, j) == DealtBelow(jobs[..|jobs| - 1], m, workers, caller, j) +
      (if jobs[|jobs| - 1] == j && Target(|jobs| - 1, workers, caller) < m then 1 else 0)
  {
    hide Target, Share;
    if m > 0 {
      DealtStep(jobs, m - 1, workers, caller, j);
      ShareLast(jobs, m - 1, workers, caller, j);
    }
  }

  lemma ShareLast(jobs: seq<Job>, i: nat, workers: nat, caller: nat, j: Job)
    requires workers > 0 && jobs != []
    ensures multiset(Share(jobs, i, workers, caller))[j] == multiset(Share(jobs[..|jobs| - 1], i, workers, caller))[j] +
      (if jobs[|jobs| - 1] == j && Target(|jobs| - 1, workers, caller) == i then 1 else 0)
  {
    hide Target;
  }

  lemma CountLast(jobs: seq<Job>, j: Job)
    requires jobs != []
    ensures multiset(jobs)[j] == multiset(jobs[..|jobs| - 1])[j] + if jobs[|jobs| - 1] == j then 1 else 0
  {
    assert jobs == jobs[..|jobs| - 1] + [jobs[|jobs| - 1]];
  }

  /** Together the shares are exactly the batch: no job is dropped or dealt twice. */
  lemma {:induction false} SharesCover(jobs: seq<Job>, workers: nat, caller: nat, j: Job)
    requires workers > 0 && caller <= workers
    ensures DealtBelow(jobs, workers + 1, workers, caller, j) == multiset(jobs)[j]
  {
    hide Share;
    if jobs == [] {
      NothingDealt(workers + 1, workers, caller, j);
    } else {
      var k := |jobs| - 1;
      SharesCover(jobs[..k], workers, caller, j);
      DealtStep(jobs, workers + 1, workers, caller, j);
      TargetIsInbox(k, workers, caller);
      CountLast(jobs, j);
      hide Target, DealtBelow;
    }
  }

  lemma {:induction false} NothingDealt(m: nat, workers: nat, caller: nat, j: Job)
    requires workers > 0
    ensures DealtBelow([], m, workers, caller, j) == 0
  {
    if m > 0 {
      NothingDealt(m - 1, workers, caller, j);
    }
  }

  lemma ShareGrows(jobs: seq<Job>, k: nat, i: nat, workers: nat, caller: nat)
    requires workers > 0 && k < |jobs|
    ensures Share(jobs[..k + 1], i, workers, caller) ==
      Share(jobs[..k], i, workers, caller) + if Target(k, workers, caller) == i then [jobs[k]] else []
  {
    assert jobs[..k + 1][..k] == jobs[..k];
  }

  /** What stays of an inbox's share: all of it, or nothing if the batch failed. */
  function Kept(jobs: seq<Job>, i: nat, workers: nat, caller: nat, ok: bool): seq<Job>
    requires workers > 0
  {
    if ok then Share(jobs, i, workers, caller) else []
  }

  // ---------------------------------------------------------------- what a publication does, in order

  /** Taking the guard of an inbox, dealing a job into one, giving a guard back; with the contents at that moment. */
  datatype Event =
    | Took(i: nat, jobs: seq<Job>)
    | Dealt(i: nat, j: Job)
    | Gave(i: nat, jobs: seq<Job>)

  function Deals(jobs: seq<Job>, workers: nat, caller: nat): seq<Event>
    requires workers > 0
  {
    if jobs == [] then []
    else
      var k := |jobs| - 1;
      Deals(jobs[..k], workers, caller) + [Dealt(Target(k, workers, caller), jobs[k])]
  }

  /** The frames of inboxes `index .. workers` around `deals`. */
  ghost function Script(index: nat, workers: nat, found: seq<seq<Job>>, left: seq<seq<Job>>, deals: seq<Event>): seq<Event>
    requires |found| == |left| == workers + 1
    decreases workers + 1 - index
  {
    if index > workers then deals
    else [Took(index, found[index])] + Script(index + 1, workers, found, left, deals) + [Gave(index, left[index])]
  }

  /** Frames further in do not look at the entries of frames further out. */
  lemma {:induction false} ScriptIgnores(index: nat, workers: nat, found: seq<seq<Job>>, left: seq<seq<Job>>,
                      found': seq<seq<Job>>, left': seq<seq<Job>>, deals: seq<Event>)
    requires |found| == |left| == |found'| == |left'| == workers + 1
    requires forall i :: index <= i <= workers ==> found'[i] == found[i] && left'[i] == left[i]
    ensures Script(index, workers, found', left', deals) == Script(index, workers, found, left, deals)
    decreases workers + 1 - index
  {
    if index <= workers {
      ScriptIgnores(index + 1, workers, found, left, found', left', deals);
    }
  }

  /**
   All guards are taken, in index order, before the first job is dealt, and none is given back before the
   last job is dealt.
   */
  lemma {:induction false} ScriptIsTwoPhase(index: nat, workers: nat, found: seq<seq<Job>>, left: seq<seq<Job>>,
                                            deals: seq<Event>, p: nat)
    requires |found| == |left| == workers + 1 && index <= workers + 1
    ensures var n := workers + 1 - index;
      && |Script(index, workers, found, left, deals)| == 2 * n + |deals|
      && var e := Script(index, workers, found, left, deals);
      && (p < n ==> e[p] == Took(index + p, found[index + p]))
      && (n <= p < n + |deals| ==> e[p] == deals[p - n])
      && (n + |deals| <= p < 2 * n + |deals| ==>
            var i := workers - (p - n - |deals|); index <= i <= workers && e[p] == Gave(i, left[i]))
    decreases workers + 1 - index
  {
    if index <= workers {
      ScriptIsTwoPhase(index + 1, workers, found, left, deals, if p > 0 then p - 1 else 0);
    }
  }

  lemma DealsLast(jobs: seq<Job>, k: nat, workers: nat, caller: nat)
    requires workers > 0 && k < |jobs|
    ensures Deals(jobs[..k + 1], workers, caller) ==
      Deals(jobs[..k], workers, caller) + [Dealt(Target(k, workers, caller), jobs[k])]
  {
    assert jobs[..k + 1][..k] == jobs[..k];
  }

  class Inboxes {
    const workers: nat
    var inbox: seq<seq<Job>>
    /** Guards currently held by the publishing call. */
    var held: seq<bool>
    /** What the publishing call has done so far. */
    ghost var log: seq<Event>

    ghost predicate Valid()
      reads this
    {
      workers > 0 && |inbox| == |held| == workers + 1
    }

    /** The guards of inboxes `0 .. k - 1` are held and no others. */
    ghost predicate Holds(k: nat)
      reads this
    {
      Valid() && forall i :: 0 <= i < |held| ==> (held[i] <==> i < k)
    }

    constructor (workers: nat)
      requires workers > 0
      ensures Valid() && Holds(0) && this.workers == workers && forall i :: 0 <= i <= workers ==> inbox[i] == []
    {
      this.workers := workers;
      inbox := seq(workers + 1, _ => []);
      held := seq(workers + 1, _ => false);
      log := [];
    }

    /** Between two actions of the publisher, other threads change the inboxes whose guard it does not hold. */
    method Others()
      requires Valid()
      modifies this`inbox
      ensures Valid() && forall i :: 0 <= i <= workers && held[i] ==> inbox[i] == old(inbox[i])
    {
    }

    /** Waits for the guard of inbox `index` while others go on, and takes it. */
    method Lock(index: nat) returns (originalLen: nat)
      requires index <= workers && Holds(index)
      modifies this`inbox, this`held, this`log
      ensures Holds(index + 1) && log == old(log) + [Took(index, inbox[index])] && originalLen == |inbox[index]|
      ensures forall i :: 0 <= i < index ==> inbox[i] == old(inbox[i])
    {
      Others();
      held := held[index := true];
      log := log + [Took(index, inbox[index])];
      originalLen := |inbox[index]|;
      Others();
    }

    /** Gives the guard of inbox `index` back; from then on others may change it. */
    method Unlock(index: nat)
      requires index <= workers && Holds(index + 1)
      modifies this`inbox, this`held, this`log
      ensures Holds(index) && log == old(log) + [Gave(index, old(inbox[index]))]
      ensures forall i :: 0 <= i < index ==> inbox[i] == old(inbox[i])
    {
      log := log + [Gave(index, inbox[index])];
      held := held[index := false];
      Others();
    }

    /**
     Deals the jobs; the iterator fails after `limit` of them if there are more. With all guards held,
     nobody else can look into any inbox during the whole loop.
     */
    method Assign(jobs: seq<Job>, limit: nat, caller: nat) returns (ok: bool)
      requires Holds(workers + 1) && caller <= workers
      modifies this`inbox, this`log
      ensures Holds(workers + 1) && ok == (|jobs| <= limit)
      ensures log == old(log) + Deals(jobs[..Min(|jobs|, limit)], workers, caller)
      ensures forall i :: 0 <= i <= workers ==>
        inbox[i] == old(inbox[i]) + Share(jobs[..Min(|jobs|, limit)], i, workers, caller)
    {
      var count := Min(|jobs|, limit);
      var k := 0;
      while k < count
        invariant 0 <= k <= count && Holds(workers + 1)
        invariant log == old(log) + Deals(jobs[..k], workers, caller)
        invariant forall i :: 0 <= i <= workers ==> inbox[i] == old(inbox[i]) + Share(jobs[..k], i, workers, caller)
      {
        var target := Target(k, workers, caller);
        TargetIsInbox(k, workers, caller);
        DealsLast(jobs, k, workers, caller);
        forall i | 0 <= i <= workers
          ensures Share(jobs[..k + 1], i, workers, caller) ==
            Share(jobs[..k], i, workers, caller) + if target == i then [jobs[k]] else []
        {
          ShareGrows(jobs, k, i, workers, caller);
        }
        hide Share, Target, Deals;
        inbox := inbox[target := inbox[target] + [jobs[k]]];
        log := log + [Dealt(target, jobs[k])];
        Others();
        k := k + 1;
      }
      ok := |jobs| <= limit;
    }

    /**
     One frame per inbox: lock, recurse, take this inbox's share back on failure, unlock. `found[i]` and
     `left[i]` are the contents of inbox `i` when its guard was taken and when it was given back.
     */
    method WithInboxes(index: nat, jobs: seq<Job>, limit: nat, caller: nat)
        returns (ok: bool, ghost found: seq<seq<Job>>, ghost left: seq<seq<Job>>)
      requires index <= workers + 1 && Holds(index) && caller <= workers
      modifies this`inbox, this`held, this`log
      ensures Holds(index) && ok == (|jobs| <= limit) && |found| == |left| == workers + 1
      ensures log == old(log) + Script(index, workers, found, left, Deals(jobs[..Min(|jobs|, limit)], workers, caller))
      ensures forall i :: index <= i <= workers ==> left[i] == found[i] + Kept(jobs, i, workers, caller, ok)
      ensures forall i :: 0 <= i < index ==>
        inbox[i] == old(inbox[i]) + Share(jobs[..Min(|jobs|, limit)], i, workers, caller)
      decreases workers + 1 - index
    {
      hide Share, Deals;
      ghost var deals := Deals(jobs[..Min(|jobs|, limit)], workers, caller);
      if index == workers + 1 {
        ok := Assign(jobs, limit, caller);
        found, left := inbox, inbox;
        return;
      }
      var originalLen := Lock(index);
      ghost var mine := inbox[index];
      ok, found, left := WithInboxes(index + 1, jobs, limit, caller);
      if !ok {
        inbox := inbox[index := inbox[index][..originalLen]];
      }
      ghost var found', left' := found[index := mine], left[index := inbox[index]];
      ScriptIgnores(index + 1, workers, found, left, found', left', deals);
      Unlock(index);
      assert ok ==> jobs[..Min(|jobs|, limit)] == jobs;
      found, left := found', left';
    }

    /**
     `publish_batch` is all or nothing, whatever other threads do: each inbox is given back as it was found,
     followed by its share in iterator order; or, if the iterator fails anywhere, exactly as it was found.
     The log says that all guards were held from before the first job to after the last.
     */
    method PublishBatch(jobs: seq<Job>, limit: nat, caller: nat)
        returns (ok: bool, ghost found: seq<seq<Job>>, ghost left: seq<seq<Job>>)
      requires Holds(0) && caller <= workers
      modifies this`inbox, this`held, this`log
      ensures Holds(0) && ok == (|jobs| <= limit) && |found| == |left| == workers + 1
      ensures log == old(log) + Script(0, workers, found, left, Deals(jobs[..Min(|jobs|, limit)], workers, caller))
      ensures ok ==> forall i :: 0 <= i <= workers ==> left[i] == found[i] + Share(jobs, i, workers, caller)
      ensures !ok ==> left == found
    {
      hide Share, Deals, Script;
      ok, found, left := WithInboxes(0, jobs, limit, caller);
      assert !ok ==> forall i :: 0 <= i < |left| ==> left[i] == found[i];
    }
  }
}
