/**
 A pool together with any number of scopes, concurrent or nested, whose jobs it carries. Every step is a
 step of `Pool`, a step of `Scopes` in one of the scopes, or the opening of a scope. What ties them is that
 a ticket is taken before its job is handed to the pool, that a job's closure runs only in the hands of the
 thread that took it out, and that a closure is dropped unrun only where the pool discards it or before it
 was handed over.
 */
module ScopedPools {
  import opened Jobs
  import P = Pool
  import S = Scopes

  datatype State = State(pool: P.State, scopes: map<nat, S.State>)
  {
    /** Job `j` has a ticket of scope `id`. */
    ghost predicate Has(id: nat, j: Job) {
      id in scopes && j in scopes[id].jobs
    }

    ghost function Life(id: nat, j: Job): S.Life
      requires Has(id, j)
    {
      scopes[id].jobs[j]
    }
  }

  datatype Action = OfPool(t: nat, a: P.Action) | OfScope(id: nat, b: S.Action) | Open(id: nat)

  /** The closure of `j` is in the hands of a running thread. */
  ghost predicate InHand(p: P.State, j: Job) {
    P.Running(p, j) > 0
  }

  /** `j` was discarded by the pool, or never handed to it. */
  ghost predicate Discarded(p: P.State, j: Job) {
    j in p.dropped || j !in p.submitted
  }

  ghost predicate PoolMay(s: State, t: nat, a: P.Action) {
    forall id: nat, j: Job :: s.Has(id, j) ==>
      && (P.Submits(a) == Some(j) ==> s.Life(id, j) == S.Queued)
      && (P.Finishes(s.pool, t, a) == Some(j) ==> s.Life(id, j).Released?)
  }

  ghost predicate ScopeMay(s: State, id: nat, b: S.Action) {
    match b
    case NewJob(j, _) => j !in s.pool.submitted && forall other: nat :: !s.Has(other, j)
    case DropUnrun(j) => Discarded(s.pool, j)
    case Release(j) => (s.Has(id, j) && s.Life(id, j) == S.Finishing(S.Dropped)) || InHand(s.pool, j)
    case Start(j) => InHand(s.pool, j)
    case Return(j) => InHand(s.pool, j)
    case Unwind(j) => InHand(s.pool, j)
    case TryRecord(j) => InHand(s.pool, j)
    case Write(j) => InHand(s.pool, j)
    case Unlock(j) => InHand(s.pool, j)
    case _ => true
  }

  ghost predicate Next(s: State, c: Action, s': State) {
    match c
    case OfPool(t, a) => PoolMay(s, t, a) && P.Next(s.pool, t, a, s'.pool) && s'.scopes == s.scopes
    case OfScope(id, b) =>
      && id in s.scopes && id in s'.scopes && ScopeMay(s, id, b)
      && S.Next(s.scopes[id], b, s'.scopes[id]) && s' == s.(scopes := s.scopes[id := s'.scopes[id]])
    case Open(id) => id !in s.scopes && s' == s.(scopes := s.scopes[id := S.Start0])
  }

  function Init(n: nat, cap: nat): State {
    State(P.Init(n, cap), map[])
  }

  /** Where a job of a scope is, given how far its life has come. */
  ghost predicate Placed(p: P.State, j: Job, l: S.Life) {
    match l
    case Queued => j !in p.done
    case Finishing(how) => if how == S.Dropped then Discarded(p, j) else InHand(p, j)
    case Released(how) => if how == S.Dropped then Discarded(p, j) else p.started[j] == 1
    case _ => InHand(p, j)
  }

  /** No job has tickets of two scopes. */
  ghost predicate OneScopeEach(s: State) {
    forall id: nat, other: nat, j: Job :: s.Has(id, j) && s.Has(other, j) ==> id == other
  }

  ghost predicate Inv(s: State) {
    && P.Inv(s.pool) && OneScopeEach(s)
    && (forall id :: id in s.scopes ==> S.Inv(s.scopes[id]))
    && (forall id: nat, j: Job :: s.Has(id, j) ==> Placed(s.pool, j, s.Life(id, j)))
  }

  /** What a step of the pool can do to a job. */
  lemma PoolMoves(p: P.State, t: nat, a: P.Action, p': P.State, j: Job)
    requires P.Inv(p) && P.Next(p, t, a, p')
    ensures InHand(p, j) && P.Finishes(p, t, a) != Some(j) ==> InHand(p', j)
    ensures Discarded(p, j) && P.Submits(a) != Some(j) ==> Discarded(p', j)
    ensures j !in p.done && P.Finishes(p, t, a) != Some(j) ==> j !in p'.done
    ensures p.started[j] <= p'.started[j]
  {
    assert P.DequesOk(p);
    P.SubmitStep(p, t, a, p', j);
    P.FinishStep(p, t, a, p', j);
    P.SettledGrows(p, t, a, p');
    P.StepPlaces(p, t, a, p', j);
    hide P.Next, P.Inv, P.DequesOk, P.Places, P.Running, P.Submits, P.Finishes;
  }

  /** A step of the pool moves no job of a scope against its life. */
  lemma PoolKeeps(s: State, t: nat, a: P.Action, s': State, id: nat, j: Job)
    requires Inv(s) && Next(s, OfPool(t, a), s') && s.Has(id, j) && P.Inv(s'.pool)
    ensures Placed(s'.pool, j, s.Life(id, j))
  {
    PoolMoves(s.pool, t, a, s'.pool, j);
    assert Placed(s.pool, j, s.Life(id, j)) && P.Accounted(s'.pool, j);
    Accounts(s'.pool, j);
    hide P.Next, P.Inv, S.Inv, P.Accounted, InHand, Discarded, P.Submits, P.Finishes, OneScopeEach;
  }

  /** A step of a scope moves a life on only where the job is. */
  lemma ScopeKeeps(s: State, id: nat, b: S.Action, s': State, j: Job)
    requires Inv(s) && Next(s, OfScope(id, b), s') && s'.Has(id, j)
    ensures Placed(s.pool, j, s'.Life(id, j))
  {
    assert P.Accounted(s.pool, j);
    Accounts(s.pool, j);
    if s.Has(id, j) {
      assert Placed(s.pool, j, s.Life(id, j));
    }
    hide Inv, P.Accounted, InHand, Discarded;
    if !(s.Has(id, j) && s'.Life(id, j) == s.Life(id, j)) {
      LifeMoves(s, id, b, s', j);
    }
  }

  lemma LifeMoves(s: State, id: nat, b: S.Action, s': State, j: Job)
    requires Next(s, OfScope(id, b), s') && s'.Has(id, j)
    requires s.Has(id, j) ==> Placed(s.pool, j, s.Life(id, j)) && s'.Life(id, j) != s.Life(id, j)
    requires InHand(s.pool, j) ==> s.pool.started[j] == 1
    requires j !in s.pool.submitted ==> j !in s.pool.done
    ensures Placed(s.pool, j, s'.Life(id, j))
  {
    hide InHand, Discarded;
  }

  /** A scope's step gives tickets only to jobs that have none. */
  lemma ScopeTickets(s: State, id: nat, b: S.Action, s': State)
    requires OneScopeEach(s) && Next(s, OfScope(id, b), s')
    ensures OneScopeEach(s')
  {
    forall x: nat, y: nat, j: Job | s'.Has(x, j) && s'.Has(y, j)
      ensures x == y
    {
      NewTicket(s, id, b, s', x, j);
      NewTicket(s, id, b, s', y, j);
      hide Next;
    }
  }

  lemma NewTicket(s: State, id: nat, b: S.Action, s': State, x: nat, j: Job)
    requires Next(s, OfScope(id, b), s') && s'.Has(x, j)
    ensures s.Has(x, j) || (x == id && forall other: nat :: !s.Has(other, j))
  {
    hide InHand, Discarded;
  }

  lemma Accounts(p: P.State, j: Job)
    requires P.Accounted(p, j)
    ensures InHand(p, j) ==> p.started[j] == 1
    ensures j !in p.submitted ==> j !in p.done
    ensures p.started[j] <= 1
  {
    hide P.Running, P.Total, P.InSeqs, P.InDeques, P.InCarried, P.Occ;
  }

  lemma StepInv(s: State, c: Action, s': State)
    requires Inv(s) && Next(s, c, s')
    ensures Inv(s')
  {
    match c
    case OfPool(t, a) => PoolStep(s, t, a, s');
    case OfScope(id, b) => ScopeStep(s, id, b, s');
    case Open(id) => OpenStep(s, id, s');
  }

  lemma PoolStep(s: State, t: nat, a: P.Action, s': State)
    requires Inv(s) && Next(s, OfPool(t, a), s')
    ensures Inv(s')
  {
    hide P.Inv, S.Inv, P.Next, Placed, PoolMay;
    P.StepInv(s.pool, t, a, s'.pool);
    assert forall id: nat, j: Job :: s'.Has(id, j) ==> s.Has(id, j);
    forall id: nat, j: Job | s'.Has(id, j)
      ensures Placed(s'.pool, j, s'.Life(id, j))
    {
      PoolKeeps(s, t, a, s', id, j);
    }
  }

  lemma ScopeStep(s: State, id: nat, b: S.Action, s': State)
    requires Inv(s) && Next(s, OfScope(id, b), s')
    ensures Inv(s')
  {
    hide P.Inv, S.Inv, S.Next, Placed, ScopeMay, OneScopeEach;
    S.StepInv(s.scopes[id], b, s'.scopes[id]);
    ScopeTickets(s, id, b, s');
    forall x: nat, j: Job | s'.Has(x, j)
      ensures Placed(s'.pool, j, s'.Life(x, j))
    {
      if x == id {
        ScopeKeeps(s, id, b, s', j);
      } else {
        assert s.Has(x, j);
      }
    }
  }

  lemma OpenStep(s: State, id: nat, s': State)
    requires Inv(s) && Next(s, Open(id), s')
    ensures Inv(s')
  {
    NewScope();
    assert forall x: nat, j: Job :: s'.Has(x, j) ==> s.Has(x, j) && s'.Life(x, j) == s.Life(x, j);
    hide P.Inv, S.Inv, Placed;
  }

  lemma NewScope()
    ensures S.Inv(S.Start0)
  {
    assert S.Live(S.Start0) == {};
  }

  ghost predicate Run(states: seq<State>, acts: seq<Action>) {
    && |states| == |acts| + 1
    && forall k :: 0 <= k < |acts| ==> Next(states[k], acts[k], states[k + 1])
  }

  lemma {:induction false} RunInv(states: seq<State>, acts: seq<Action>, n: nat, cap: nat, k: nat)
    requires Run(states, acts) && states[0] == Init(n, cap) && k < |states|
    ensures Inv(states[k])
  {
    if k == 0 {
      P.InitInv(n, cap);
      hide P.Inv;
    } else {
      hide Next, Inv;
      RunInv(states, acts, n, cap, k - 1);
      StepInv(states[k - 1], acts[k - 1], states[k]);
    }
  }

  /** The pool's share of a run is a run of `Pool`. */
  lemma {:induction false} PoolPart(states: seq<State>, acts: seq<Action>, n: nat, cap: nat, k: nat)
      returns (ps: seq<P.State>, threads: seq<nat>, did: seq<P.Action>)
    requires Run(states, acts) && states[0] == Init(n, cap) && k < |states|
    ensures P.Run(ps, threads, did) && ps[0] == P.Init(n, cap) && ps[|did|] == states[k].pool
  {
    hide P.Next, S.Next;
    if k == 0 {
      ps, threads, did := [states[0].pool], [], [];
    } else {
      ps, threads, did := PoolPart(states, acts, n, cap, k - 1);
      assert Next(states[k - 1], acts[k - 1], states[k]);
      if acts[k - 1].OfPool? {
        ps, threads, did := ps + [states[k].pool], threads + [acts[k - 1].t], did + [acts[k - 1].a];
      }
    }
  }

  /** Each scope's share of a run is a run of `Scopes`. */
  lemma {:induction false} ScopePart(states: seq<State>, acts: seq<Action>, n: nat, cap: nat, k: nat, id: nat)
      returns (ss: seq<S.State>, did: seq<S.Action>)
    requires Run(states, acts) && states[0] == Init(n, cap) && k < |states| && id in states[k].scopes
    ensures S.Run(ss, did) && ss[|did|] == states[k].scopes[id]
  {
    hide P.Next, S.Next, PoolMay, ScopeMay;
    assert k > 0;
    assert Next(states[k - 1], acts[k - 1], states[k]);
    if id in states[k - 1].scopes {
      ss, did := ScopePart(states, acts, n, cap, k - 1, id);
      if acts[k - 1].OfScope? && acts[k - 1].id == id {
        ss, did := ss + [states[k].scopes[id]], did + [acts[k - 1].b];
      }
    } else {
      ss, did := [S.Start0], [];
    }
  }

  /**
   When a scope has returned, none of its jobs is left in any queue, inbox, deque, claim or thief's hand,
   whatever other scopes do. Each was taken out and started exactly once, or was dropped and never started.
   */
  lemma ReturnedMeansGone(states: seq<State>, acts: seq<Action>, n: nat, cap: nat, k: nat, id: nat, j: Job)
    requires Run(states, acts) && states[0] == Init(n, cap) && k < |states| && states[k].Has(id, j)
    requires states[k].scopes[id].caller.Returned?
    ensures P.Underway(states[k].pool, j) == 0 && states[k].Life(id, j).Released?
    ensures states[k].pool.started[j] == if states[k].Life(id, j).how == S.Dropped then 0 else 1
  {
    RunInv(states, acts, n, cap, k);
    var ss, did := ScopePart(states, acts, n, cap, k, id);
    S.ScopeDrains(ss, did, |did|);
    hide Run, S.Run, Inv;
    GoneOnce(states[k], id, j);
  }

  /** In a scope that has returned and did not fail, a job that was taken out of the pool had its body run. */
  lemma StartedMeansRun(states: seq<State>, acts: seq<Action>, n: nat, cap: nat, k: nat, id: nat, j: Job)
    requires Run(states, acts) && states[0] == Init(n, cap) && k < |states| && states[k].Has(id, j)
    requires states[k].scopes[id].caller.Returned? && !states[k].scopes[id].failed
    ensures states[k].Life(id, j).Released?
    ensures states[k].pool.started[j] == 1 <==> states[k].Life(id, j).how in {S.Ran, S.Unwound}
    ensures states[k].pool.started[j] == 0 <==> states[k].Life(id, j).how == S.Dropped
  {
    ReturnedMeansGone(states, acts, n, cap, k, id, j);
    var ss, did := ScopePart(states, acts, n, cap, k, id);
    S.BodiesRun(ss, did, |did|, j);
    hide Run, S.Run, P.Underway;
  }

  lemma GoneOnce(s: State, id: nat, j: Job)
    requires Inv(s) && s.Has(id, j) && s.Life(id, j).Released?
    ensures P.Underway(s.pool, j) == 0
    ensures s.pool.started[j] == if s.Life(id, j).how == S.Dropped then 0 else 1
  {
    assert Placed(s.pool, j, s.Life(id, j)) && P.Accounted(s.pool, j);
    hide Inv, P.Total, P.InSeqs, P.InDeques, P.InCarried, P.Occ;
  }

  /** A job that is still in the pool's queues, deques or claims, or being carried, keeps its scope from returning. */
  lemma UnderwayKeepsOpen(states: seq<State>, acts: seq<Action>, n: nat, cap: nat, k: nat, id: nat, j: Job)
    requires Run(states, acts) && states[0] == Init(n, cap) && k < |states| && states[k].Has(id, j)
    requires P.Underway(states[k].pool, j) > 0
    ensures states[k].Life(id, j) == S.Queued && states[k].scopes[id].remaining > 1
  {
    RunInv(states, acts, n, cap, k);
    var s := states[k];
    assert Placed(s.pool, j, s.Life(id, j)) && P.Accounted(s.pool, j);
    assert s.scopes[id].remaining == 1 + |S.Live(s.scopes[id])|;
    hide Inv, Run, P.Total, P.InSeqs, P.InDeques, P.InCarried, P.Occ;
    assert j in S.Live(s.scopes[id]);
  }
}
