/**
 One `scope` call: its latch, its jobs, the cancellation flag and the panic cell, as an interleaving
 machine with one step per atomic operation. Jobs live anywhere in the pool; what matters here is
 the life of each job's ticket.
 */
module Scopes {
  import opened Jobs

  /** How a job ended: body returned, body unwound, skipped as cancelled, or dropped unrun. */
  datatype Outcome = Ran | Unwound | Skipped | Dropped

  datatype Life =
    | Queued                    // ticket issued, closure somewhere in the pool
    | Running
    | Panicked                  // body unwound; `record_panic` is next
    | Recording                 // holds the panic cell's lock, has not looked into it
    | Recorded                  // holds the lock, the cell is full
    | Finishing(how: Outcome)   // about to drop its ticket
    | Released(how: Outcome)

  datatype Result = Value | OwnPanic | JobPanic(j: Job)

  datatype Caller =
    | Callback
    | Cancelling
    | Draining
    | Drained                   // saw the latch complete
    | Returned(r: Result)

  datatype State = State(
    remaining: nat,
    canceled: bool,
    jobs: map<Job, Life>,
    lock: Option<Job>,          // holder of the panic cell's spin lock
    cell: Option<Job>,          // the recorded payload, named by its job
    caller: Caller,
    failed: bool)               // the callback unwound

  const Start0 := State(1, false, map[], None, None, Callback, false)

  datatype Action =
    | NewJob(j: Job, parent: Option<Job>)
    | Start(j: Job)             // loads the cancellation flag
    | DropUnrun(j: Job)
    | Return(j: Job)
    | Unwind(j: Job)
    | TryRecord(j: Job)
    | Write(j: Job)
    | Unlock(j: Job)
    | Release(j: Job)           // the ticket's decrement
    | EndCallback(ok: bool)
    | Cancel
    | SeeDone
    | Finish

  ghost predicate Is(s: State, j: Job, l: Life) {
    j in s.jobs && s.jobs[j] == l
  }

  function To(s: State, j: Job, l: Life): State {
    s.(jobs := s.jobs[j := l])
  }

  ghost predicate Next(s: State, a: Action, s': State) {
    match a
    case NewJob(j, parent) =>
      && j !in s.jobs
      && (s.caller == Callback || (parent.Some? && Is(s, parent.value, Running)))
      && s' == To(s, j, Queued).(remaining := s.remaining + 1)
    case Start(j) => Is(s, j, Queued) && s' == To(s, j, if s.canceled then Finishing(Skipped) else Running)
    case DropUnrun(j) => Is(s, j, Queued) && s' == To(s, j, Finishing(Dropped))
    case Return(j) => Is(s, j, Running) && s' == To(s, j, Finishing(Ran))
    case Unwind(j) => Is(s, j, Running) && s' == To(s, j, Panicked)
    case TryRecord(j) =>
      && Is(s, j, Panicked)
      && s' == if s.lock.None? then To(s, j, Recording).(lock := Some(j)) else To(s, j, Finishing(Unwound))
    case Write(j) =>
      Is(s, j, Recording) && s' == To(s, j, Recorded).(cell := if s.cell.None? then Some(j) else s.cell)
    case Unlock(j) => Is(s, j, Recorded) && s' == To(s, j, Finishing(Unwound)).(lock := None)
    case Release(j) =>
      && j in s.jobs && s.jobs[j].Finishing? && s.remaining > 0
      && s' == To(s, j, Released(s.jobs[j].how)).(remaining := s.remaining - 1)
    case EndCallback(ok) =>
      s.caller == Callback && s' == s.(caller := if ok then Draining else Cancelling, failed := !ok)
    case Cancel => s.caller == Cancelling && s' == s.(caller := Draining, canceled := true)
    case SeeDone => s.caller == Draining && s.remaining <= 1 && s' == s.(caller := Drained)
    case Finish =>
      && s.caller == Drained && s.lock.None?
      && s' == s.(caller := Returned(if s.failed then OwnPanic else if s.cell.Some? then JobPanic(s.cell.value) else Value),
                  cell := None)
  }

  ghost function Live(s: State): set<Job> {
    set j | j in s.jobs && !s.jobs[j].Released?
  }

  predicate HasUnwound(l: Life) {
    l in {Panicked, Recording, Recorded} || l == Finishing(Unwound) || l == Released(Unwound)
  }

  /** Past its attempt to record: it wrote, saw a full cell, or gave up. */
  predicate PastRecord(l: Life) {
    l == Recorded || l == Finishing(Unwound) || l == Released(Unwound)
  }

  ghost predicate LockInv(s: State) {
    forall j :: j in s.jobs ==> ((s.jobs[j] == Recording || s.jobs[j] == Recorded) <==> s.lock == Some(j))
  }

  ghost predicate CellInv(s: State) {
    && (s.lock.Some? ==> s.lock.value in s.jobs)
    && (s.cell.Some? ==> s.cell.value in s.jobs && PastRecord(s.jobs[s.cell.value]))
    && (!s.caller.Returned? ==> forall j :: j in s.jobs && PastRecord(s.jobs[j]) ==>
          s.cell.Some? || (s.jobs[j] != Recorded && s.lock.Some? && Is(s, s.lock.value, Recording)))
  }

  /** The job's body was not run although the job was started. */
  predicate WasSkipped(l: Life) {
    l == Finishing(Skipped) || l == Released(Skipped)
  }

  ghost predicate CallerInv(s: State) {
    && (s.caller == Drained || s.caller.Returned? ==> Live(s) == {})
    && (s.caller == Cancelling ==> s.failed)
    && (s.caller.Returned? ==>
          match s.caller.r
          case OwnPanic => s.failed
          case JobPanic(j) => !s.failed && Is(s, j, Released(Unwound))
          case Value => !s.failed && forall j :: j in s.jobs ==> s.jobs[j] != Released(Unwound))
  }

  /** Exactly the scopes whose callback unwound are cancelled, and only in them bodies are skipped. */
  ghost predicate CancelInv(s: State) {
    && (s.caller == Callback ==> !s.failed)
    && (s.canceled <==> s.failed && s.caller != Cancelling)
    && (forall j :: j in s.jobs && WasSkipped(s.jobs[j]) ==> s.canceled)
  }

  ghost predicate Inv(s: State) {
    && s.remaining == 1 + |Live(s)|
    && LockInv(s) && CellInv(s) && CallerInv(s) && CancelInv(s)
  }

  // ---------------------------------------------------------------- preservation

  lemma LiveStep(s: State, a: Action, s': State)
    requires Next(s, a, s')
    ensures match a
      case NewJob(j, _) => j !in Live(s) && Live(s') == Live(s) + {j}
      case Release(j) => j in Live(s) && Live(s') == Live(s) - {j}
      case _ => Live(s') == Live(s)
  {
  }

  lemma CountStep(s: State, a: Action, s': State)
    requires s.remaining == 1 + |Live(s)| && Next(s, a, s')
    ensures s'.remaining == 1 + |Live(s')|
  {
    LiveStep(s, a, s');
    hide Live;
  }

  lemma LockStep(s: State, a: Action, s': State)
    requires LockInv(s) && CellInv(s) && Next(s, a, s')
    ensures LockInv(s')
  {
  }

  /** Giving up on a contended cell is safe: the holder has written or is about to write. */
  lemma CellStep(s: State, a: Action, s': State)
    requires LockInv(s) && CellInv(s) && Next(s, a, s')
    ensures CellInv(s')
  {
  }

  lemma NobodyLive(s: State)
    requires Live(s) == {}
    ensures forall j :: j in s.jobs ==> s.jobs[j].Released?
  {
    forall j | j in s.jobs
      ensures s.jobs[j].Released?
    {
      assert j !in Live(s);
    }
  }

  lemma CallerStep(s: State, a: Action, s': State)
    requires Inv(s) && Next(s, a, s')
    ensures CallerInv(s')
  {
    LiveStep(s, a, s');
    if s.caller == Drained || s.caller.Returned? {
      NobodyLive(s);
    }
    if a == Finish {
      FinishResult(s);
    }
  }

  /** With every ticket released no job holds the cell, so a panic that happened is in it. */
  lemma FinishResult(s: State)
    requires Inv(s) && s.caller == Drained
    ensures s.cell.Some? ==> Is(s, s.cell.value, Released(Unwound))
    ensures s.cell.None? ==> forall j :: j in s.jobs ==> s.jobs[j] != Released(Unwound)
  {
    NobodyLive(s);
  }

  lemma CancelStep(s: State, a: Action, s': State)
    requires CancelInv(s) && CallerInv(s) && Next(s, a, s')
    ensures CancelInv(s')
  {
    hide Live;
  }

  lemma StepInv(s: State, a: Action, s': State)
    requires Inv(s) && Next(s, a, s')
    ensures Inv(s')
  {
    CountStep(s, a, s');
    LockStep(s, a, s');
    CellStep(s, a, s');
    CallerStep(s, a, s');
    CancelStep(s, a, s');
    hide Next, LockInv, CellInv, CallerInv, CancelInv, Live;
  }

  // ---------------------------------------------------------------- whole runs

  ghost predicate Run(states: seq<State>, acts: seq<Action>) {
    && |states| == |acts| + 1 && states[0] == Start0
    && forall k :: 0 <= k < |acts| ==> Next(states[k], acts[k], states[k + 1])
  }

  lemma {:induction false} RunInv(states: seq<State>, acts: seq<Action>, k: nat)
    requires Run(states, acts) && k < |states|
    ensures Inv(states[k])
  {
    if k > 0 {
      hide Next, Inv;
      RunInv(states, acts, k - 1);
      StepInv(states[k - 1], acts[k - 1], states[k]);
    }
  }

  /** The latch counts the caller's own share and the live tickets; the scope returns only with none left. */
  lemma ScopeDrains(states: seq<State>, acts: seq<Action>, k: nat)
    requires Run(states, acts) && k < |states|
    ensures states[k].remaining == 1 + |Live(states[k])|
    ensures states[k].caller.Returned? ==> forall j :: j in states[k].jobs ==> states[k].jobs[j].Released?
  {
    RunInv(states, acts, k);
    if states[k].caller.Returned? {
      NobodyLive(states[k]);
    }
  }

  /**
   Bodies are skipped only in a scope that was cancelled, which is one whose callback unwound. So when a
   scope has returned and its callback did not unwind, every job's body has run, or the job was dropped.
   */
  lemma BodiesRun(states: seq<State>, acts: seq<Action>, k: nat, j: Job)
    requires Run(states, acts) && k < |states| && j in states[k].jobs
    ensures WasSkipped(states[k].jobs[j]) ==> states[k].canceled && states[k].failed
    ensures states[k].caller.Returned? && !states[k].failed ==>
      states[k].jobs[j].Released? && states[k].jobs[j].how != Skipped
    ensures states[k].caller.Returned? ==> (states[k].canceled <==> states[k].failed)
    ensures states[k].caller.Returned? && !states[k].failed && states[k].jobs[j] != Released(Dropped) ==>
      Happened(acts, k, Return(j)) || Happened(acts, k, Unwind(j))
  {
    LivesAreHistory(states, acts, k, j);
    RunInv(states, acts, k);
    assert CancelInv(states[k]) && CallerInv(states[k]);
    if states[k].caller.Returned? {
      NobodyLive(states[k]);
    }
    hide Run, Inv, Live, Happened;
  }

  /** Once the callback has ended, completion is final: nobody is left who could issue a ticket. */
  lemma {:induction false} CompletionIsStable(states: seq<State>, acts: seq<Action>, k: nat, m: nat)
    requires Run(states, acts) && k <= m < |states|
    requires states[k].caller != Callback && states[k].remaining <= 1
    ensures states[m].caller != Callback && states[m].remaining <= 1 && states[m].jobs == states[k].jobs
    decreases m - k
  {
    if k < m {
      CompletionIsStable(states, acts, k, m - 1);
      RunInv(states, acts, m - 1);
      assert Live(states[m - 1]) == {};
      NobodyLive(states[m - 1]);
      hide Inv, Live;
    }
  }

  /** No body starts and nothing is recorded for a job after its ticket is released. */
  lemma {:induction false} ReleasedIsFinal(states: seq<State>, acts: seq<Action>, k: nat, m: nat, j: Job)
    requires Run(states, acts) && k <= m < |states|
    requires j in states[k].jobs && states[k].jobs[j].Released?
    ensures j in states[m].jobs && states[m].jobs[j] == states[k].jobs[j]
    decreases m - k
  {
    hide Next;
    if k < m {
      ReleasedIsFinal(states, acts, k, m - 1, j);
      OneForward(states[m - 1], acts[m - 1], states[m], j);
    }
  }

  function Rank(l: Life): nat {
    match l
    case Queued => 0
    case Running => 1
    case Panicked => 2
    case Recording => 3
    case Recorded => 4
    case Finishing(_) => 5
    case Released(_) => 6
  }

  /** A job's life only moves forward, so its body runs at most once and its ticket is released once. */
  lemma {:induction false} LifeMovesForward(states: seq<State>, acts: seq<Action>, k: nat, m: nat, j: Job)
    requires Run(states, acts) && k <= m < |states| && j in states[k].jobs
    ensures j in states[m].jobs && Rank(states[k].jobs[j]) <= Rank(states[m].jobs[j])
    ensures Rank(states[k].jobs[j]) == Rank(states[m].jobs[j]) ==> states[m].jobs[j] == states[k].jobs[j]
    decreases m - k
  {
    hide Next;
    if k < m {
      LifeMovesForward(states, acts, k, m - 1, j);
      OneForward(states[m - 1], acts[m - 1], states[m], j);
    }
  }

  lemma OneForward(s: State, a: Action, s': State, j: Job)
    requires Next(s, a, s') && j in s.jobs
    ensures j in s'.jobs && (s'.jobs[j] == s.jobs[j] || Rank(s.jobs[j]) < Rank(s'.jobs[j]))
  {
  }

  /** A job still queued when the scope is cancelled never runs its body. */
  lemma {:induction false} CancelledNeverRuns(states: seq<State>, acts: seq<Action>, k: nat, m: nat, j: Job)
    requires Run(states, acts) && k <= m < |states|
    requires states[k].canceled && Is(states[k], j, Queued)
    ensures states[m].canceled && j in states[m].jobs
    ensures states[m].jobs[j] in {Queued, Finishing(Skipped), Finishing(Dropped), Released(Skipped), Released(Dropped)}
    decreases m - k
  {
    hide Next;
    if k < m {
      CancelledNeverRuns(states, acts, k, m - 1, j);
      CancelledStep(states[m - 1], acts[m - 1], states[m], j);
    }
  }

  lemma CancelledStep(s: State, a: Action, s': State, j: Job)
    requires Next(s, a, s') && s.canceled && j in s.jobs
    ensures s'.canceled && j in s'.jobs
    ensures s'.jobs[j] == s.jobs[j] || s'.jobs[j] in {Finishing(Skipped), Finishing(Dropped)}
      || s.jobs[j] !in {Queued, Finishing(Skipped), Finishing(Dropped)}
      || (s.jobs[j].Finishing? && s'.jobs[j] == Released(s.jobs[j].how))
    ensures s.jobs[j].Released? ==> s'.jobs[j] == s.jobs[j]
  {
  }

  predicate HasRun(l: Life) {
    l == Finishing(Ran) || l == Released(Ran)
  }

  /** `a` has happened before state `k`. */
  ghost predicate Happened(acts: seq<Action>, k: nat, a: Action) {
    exists i :: 0 <= i < k && i < |acts| && acts[i] == a
  }

  lemma HappenedStep(acts: seq<Action>, k: nat, a: Action)
    requires 0 < k <= |acts|
    ensures Happened(acts, k, a) <==> Happened(acts, k - 1, a) || acts[k - 1] == a
  {
    if acts[k - 1] == a {
      assert Happened(acts, k, a);
    }
  }

  /** A job's life says whether its body returned or unwound, and the scope whether its callback did. */
  lemma {:induction false} LivesAreHistory(states: seq<State>, acts: seq<Action>, k: nat, j: Job)
    requires Run(states, acts) && k < |states|
    ensures Happened(acts, k, Unwind(j)) <==> j in states[k].jobs && HasUnwound(states[k].jobs[j])
    ensures Happened(acts, k, Return(j)) <==> j in states[k].jobs && HasRun(states[k].jobs[j])
    ensures Happened(acts, k, EndCallback(false)) <==> states[k].failed
  {
    if k > 0 {
      LivesAreHistory(states, acts, k - 1, j);
      RunInv(states, acts, k - 1);
      HappenedStep(acts, k, Unwind(j));
      HappenedStep(acts, k, Return(j));
      HappenedStep(acts, k, EndCallback(false));
      assert CancelInv(states[k - 1]) && CallerInv(states[k - 1]);
      hide Happened, Inv, Live;
      LifeHistory(states[k - 1], acts[k - 1], states[k], j);
    }
  }

  lemma LifeHistory(s: State, a: Action, s': State, j: Job)
    requires Next(s, a, s') && CancelInv(s)
    ensures (j in s'.jobs && HasUnwound(s'.jobs[j])) <==> (j in s.jobs && HasUnwound(s.jobs[j])) || a == Unwind(j)
    ensures (j in s'.jobs && HasRun(s'.jobs[j])) <==> (j in s.jobs && HasRun(s.jobs[j])) || a == Return(j)
    ensures s'.failed <==> s.failed || a == EndCallback(false)
  {
  }

  /**
   What the scope returns: its own panic exactly if the callback unwound; otherwise a payload of one
   of its jobs exactly if some job body unwound.
   */
  lemma ResultIsRight(states: seq<State>, acts: seq<Action>, k: nat)
    requires Run(states, acts) && k < |states| && states[k].caller.Returned?
    ensures states[k].caller.r == OwnPanic <==> Happened(acts, k, EndCallback(false))
    ensures states[k].caller.r != OwnPanic ==> (states[k].caller.r.JobPanic? <==> exists j :: Happened(acts, k, Unwind(j)))
    ensures states[k].caller.r.JobPanic? ==> Happened(acts, k, Unwind(states[k].caller.r.j))
  {
    RunInv(states, acts, k);
    NobodyLive(states[k]);
    LivesAreHistory(states, acts, k, 0);
    hide Happened;
    if states[k].caller.r.JobPanic? {
      LivesAreHistory(states, acts, k, states[k].caller.r.j);
    } else if j :| Happened(acts, k, Unwind(j)) {
      LivesAreHistory(states, acts, k, j);
    }
  }
}
