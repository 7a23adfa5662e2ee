/**
 Job conservation over the whole pool: a shared queue, any number of threads each owning one deque
 and one inbox, and thieves that carry jobs from one deque to another slot by slot. Every deque
 action is an action of `Deque`; the queue and inbox actions are the effects of their critical
 sections, element by element.
 */
module Pool {
  import opened Jobs
  import opened Claims
  import D = Deque

  datatype State = State(
    tasks: seq<Job>,
    inboxes: seq<seq<Job>>,
    deques: seq<D.State>,
    carried: seq<Option<Job>>, // per thread: read from a victim's slot, not yet written to its own
    stacks: seq<seq<Job>>,     // per thread: jobs being run, the innermost last
    done: multiset<Job>,
    dropped: multiset<Job>,    // discarded unrun: a rolled back batch, or a pool that goes away
    submitted: multiset<Job>,
    started: multiset<Job>)

  datatype Action =
    | SubmitShared(j: Job)
    | SubmitInbox(i: nat, j: Job)
    | SubmitLocal(j: Job)
    | Drain                      // one element of the shared queue into the thread's own deque
    | Local(a: D.Action)         // an owner action that moves no job in or out of the deque
    | RunLocal                   // the pop's slot read
    | RunInbox(i: nat)           // own inbox, or a victim's
    | Claim(victim: nat, n: nat)
    | Read(victim: nat, i: nat)
    | Put                        // the carried job into the thread's own deque
    | Release(victim: nat, i: nat)
    | Finish                     // the innermost job returned or unwound
    | DropShared                 // the pool goes away: one job of the shared queue
    | DropInbox(i: nat)          // a failed batch is rolled back, or the pool goes away: one job of an inbox
    | DropDeque(v: nat)          // a deque goes away, with exclusive access

  ghost predicate Shape(s: State) {
    |s.inboxes| == |s.deques| == |s.carried| == |s.stacks|
  }

  function Init(n: nat, cap: nat): State {
    State([], seq(n, _ => []), seq(n, _ => D.Init(cap)), seq(n, _ => None), seq(n, _ => []),
          multiset{}, multiset{}, multiset{}, multiset{})
  }

  /** Thread `t` performs `a`. */
  ghost predicate Next(s: State, t: nat, a: Action, s': State) {
    && Shape(s) && t < |s.deques|
    && match a
       case SubmitShared(j) =>
         && j !in s.submitted
         && s' == s.(tasks := s.tasks + [j], submitted := s.submitted + multiset{j})
       case SubmitInbox(i, j) =>
         && i < |s.inboxes| && j !in s.submitted
         && s' == s.(inboxes := s.inboxes[i := s.inboxes[i] + [j]], submitted := s.submitted + multiset{j})
       case SubmitLocal(j) =>
         && j !in s.submitted
         && Within(s, t, D.Write(j), s'.deques)
         && s' == s.(deques := s'.deques, submitted := s.submitted + multiset{j})
       case Drain =>
         && s.tasks != []
         && Within(s, t, D.Write(s.tasks[0]), s'.deques)
         && s' == s.(deques := s'.deques, tasks := s.tasks[1..])
       case Local(b) =>
         && b in {D.Measure, D.Publish, D.Look, D.GiveUp, D.PopSwap}
         && Within(s, t, b, s'.deques)
         && s' == s.(deques := s'.deques)
       case RunLocal =>
         && Within(s, t, D.PopRead, s'.deques)
         && s.deques[t].owner.Taking? && s.deques[t].owner.c < |s.deques[t].mem|
         && var j := s.deques[t].mem[s.deques[t].owner.c];
         && s' == s.(deques := s'.deques, stacks := s.stacks[t := s.stacks[t] + [j]],
                     started := s.started + multiset{j})
       case RunInbox(i) =>
         && i < |s.inboxes| && s.inboxes[i] != []
         && var j := s.inboxes[i][0];
         && s' == s.(inboxes := s.inboxes[i := s.inboxes[i][1..]], stacks := s.stacks[t := s.stacks[t] + [j]],
                     started := s.started + multiset{j})
       case Claim(v, n) =>
         && v < |s.deques| && v != t
         && Within(s, v, D.ClaimPrefix(t, n), s'.deques)
         && s' == s.(deques := s'.deques)
       case Read(v, i) =>
         && v < |s.deques| && v != t && s.carried[t].None?
         && Within(s, v, D.Copy(t, i), s'.deques)
         && i < |s.deques[v].claims|
         && var c := s.deques[v].claims[i];
         && c.start + |c.got| < |s.deques[v].mem|
         && s' == s.(deques := s'.deques, carried := s.carried[t := Some(s.deques[v].mem[c.start + |c.got|])])
       case Put =>
         && s.carried[t].Some?
         && Within(s, t, D.Write(s.carried[t].value), s'.deques)
         && s' == s.(deques := s'.deques, carried := s.carried[t := None])
       case Release(v, i) =>
         && v < |s.deques| && v != t
         && Within(s, v, D.Release(t, i), s'.deques)
         && s' == s.(deques := s'.deques)
       case Finish =>
         && s.stacks[t] != []
         && var k := |s.stacks[t]| - 1;
         && s' == s.(stacks := s.stacks[t := s.stacks[t][..k]], done := s.done + multiset{s.stacks[t][k]})
       case DropShared =>
         && s.tasks != []
         && s' == s.(tasks := s.tasks[1..], dropped := s.dropped + multiset{s.tasks[0]})
       case DropInbox(i) =>
         && i < |s.inboxes| && s.inboxes[i] != []
         && var k := |s.inboxes[i]| - 1;
         && s' == s.(inboxes := s.inboxes[i := s.inboxes[i][..k]], dropped := s.dropped + multiset{s.inboxes[i][k]})
       case DropDeque(v) =>
         && v < |s.deques| && Idle(s.deques[v])
         && s' == s.(deques := s.deques[v := D.Init(s.deques[v].cap)], dropped := s.dropped + multiset(s.deques[v].Items()))
  }

  /** Nobody is inside the deque: its owner rests and no claim is pending. */
  ghost predicate Idle(d: D.State) {
    d.owner.Rest? && d.claims == [] && d.blocked <= d.tail <= |d.mem|
  }

  /** Deque `v` performs `a`; the other deques stay. */
  ghost predicate Within(s: State, v: nat, a: D.Action, deques': seq<D.State>) {
    && v < |s.deques| == |deques'|
    && D.Next(s.deques[v], a, deques'[v])
    && deques' == s.deques[v := deques'[v]]
  }

  // ---------------------------------------------------------------- where a job is

  ghost function Total(ns: seq<nat>): nat {
    if ns == [] then 0 else ns[0] + Total(ns[1..])
  }

  lemma {:induction false} TotalUpdate(ns: seq<nat>, i: nat, n: nat)
    requires i < |ns|
    ensures Total(ns[i := n]) + ns[i] == Total(ns) + n
  {
    if i == 0 {
      assert ns[i := n][1..] == ns[1..];
    } else {
      TotalUpdate(ns[1..], i - 1, n);
      assert ns[i := n][1..] == ns[1..][i - 1 := n];
    }
  }

  lemma {:induction false} TotalAppend(ns: seq<nat>, n: nat)
    ensures Total(ns + [n]) == Total(ns) + n
  {
    if ns == [] {
      assert (ns + [n])[1..] == [];
    } else {
      TotalAppend(ns[1..], n);
      assert (ns + [n])[1..] == ns[1..] + [n];
    }
  }

  lemma {:induction false} TotalZero(ns: seq<nat>)
    requires forall i :: 0 <= i < |ns| ==> ns[i] == 0
    ensures Total(ns) == 0
  {
    if ns != [] {
      TotalZero(ns[1..]);
    }
  }

  /** How often `j` occurs in a sequence. */
  ghost function Occ(js: seq<Job>, j: Job): nat {
    multiset(js)[j]
  }

  lemma OccConcat(a: seq<Job>, b: seq<Job>, j: Job)
    ensures Occ(a + b, j) == Occ(a, j) + Occ(b, j)
  {
  }

  ghost function One(x: Job, j: Job): nat {
    if x == j then 1 else 0
  }

  lemma OccOne(x: Job, j: Job)
    ensures Occ([x], j) == One(x, j)
  {
  }

  ghost function InSeqs(xs: seq<seq<Job>>, j: Job): seq<nat> {
    seq(|xs|, i requires 0 <= i < |xs| => Occ(xs[i], j))
  }

  ghost function InCarried(xs: seq<Option<Job>>, j: Job): seq<nat> {
    seq(|xs|, i requires 0 <= i < |xs| => if xs[i].Some? then One(xs[i].value, j) else 0)
  }

  /** Occurrences in a claim's part that its thief has not read yet. */
  ghost function InClaim(c: Claims.Claim, j: Job): nat {
    if |c.got| <= |c.promise| then Occ(c.promise[|c.got|..], j) else 0
  }

  ghost function InClaims(cs: seq<Claims.Claim>, j: Job): seq<nat> {
    seq(|cs|, i requires 0 <= i < |cs| => InClaim(cs[i], j))
  }

  ghost function InOwner(o: D.Owner, j: Job): nat {
    match o
    case Filling(_, staged) => Occ(staged, j)
    case Taking(_, due) => One(due, j)
    case _ => 0
  }

  ghost function InItems(d: D.State, j: Job): nat {
    if d.blocked <= d.tail <= |d.mem| then Occ(d.Items(), j) else 0
  }

  /** Everything a deque holds: unclaimed, claimed but unread, staged, or popped but unread. */
  ghost function InDeque(d: D.State, j: Job): nat {
    InItems(d, j) + InOwner(d.owner, j) + Total(InClaims(d.claims, j))
  }

  ghost function InDeques(ds: seq<D.State>, j: Job): seq<nat> {
    seq(|ds|, i requires 0 <= i < |ds| => InDeque(ds[i], j))
  }

  ghost function Running(s: State, j: Job): nat {
    Total(InSeqs(s.stacks, j))
  }

  /** Occurrences of `j` over all places of the pool. */
  ghost function Places(s: State, j: Job): nat {
    Occ(s.tasks, j) + Total(InSeqs(s.inboxes, j)) + Total(InDeques(s.deques, j))
    + Total(InCarried(s.carried, j)) + Running(s, j) + s.done[j] + s.dropped[j]
  }

  // ---------------------------------------------------------------- one deque's balance

  ghost function Enters(a: D.Action, j: Job): nat {
    if a.Write? then One(a.v, j) else 0
  }

  ghost function Leaves(d: D.State, a: D.Action, j: Job): nat {
    match a
    case PopRead => if d.owner.Taking? && d.owner.c < |d.mem| then One(d.mem[d.owner.c], j) else 0
    case Copy(_, i) =>
      if i < |d.claims| && d.claims[i].start + |d.claims[i].got| < |d.mem|
      then One(d.mem[d.claims[i].start + |d.claims[i].got|], j) else 0
    case _ => 0
  }

  lemma OwnerBalance(d: D.State, a: D.Action, d': D.State, j: Job)
    requires D.Inv(d) && D.Next(d, a, d') && D.By(a) == D.TheOwner
    ensures InDeque(d', j) + Leaves(d, a, j) == InDeque(d, j) + Enters(a, j)
  {
    D.ItemsRefine(d, a, d');
    hide D.Inv, Total, InClaims;
    match a
    case Write(v) =>
      OccConcat(d.owner.staged, [v], j);
      OccOne(v, j);
    case Publish => OccConcat(d.Items(), d.owner.staged, j);
    case PopSwap =>
      OccConcat(d'.Items(), [d'.owner.due], j);
      OccOne(d'.owner.due, j);
    case PopRead => D.ReadsAreRight(d, a, d');
    case _ =>
  }

  lemma ClaimBalance(d: D.State, t: nat, n: nat, d': D.State, j: Job)
    requires D.Inv(d) && D.Next(d, D.ClaimPrefix(t, n), d')
    ensures InDeque(d', j) == InDeque(d, j)
  {
    D.ItemsRefine(d, D.ClaimPrefix(t, n), d');
    var c := d'.claims[|d.claims|];
    assert c.promise[0..] == c.promise;
    OccConcat(c.promise, d'.Items(), j);
    assert InClaims(d'.claims, j) == InClaims(d.claims, j) + [InClaim(c, j)];
    TotalAppend(InClaims(d.claims, j), InClaim(c, j));
  }

  lemma CopyBalance(d: D.State, t: nat, i: nat, d': D.State, j: Job)
    requires D.Inv(d) && D.Next(d, D.Copy(t, i), d')
    ensures InDeque(d', j) + Leaves(d, D.Copy(t, i), j) == InDeque(d, j)
  {
    var c, c' := d.claims[i], d'.claims[i];
    ReadShrinks(d, i, j);
    hide D.Inv, InClaim, Total;
    assert InClaims(d'.claims, j) == InClaims(d.claims, j)[i := InClaim(c', j)];
    TotalUpdate(InClaims(d.claims, j), i, InClaim(c', j));
  }

  /** Reading a slot takes exactly the next promised job out of the claim. */
  lemma ReadShrinks(d: D.State, i: nat, j: Job)
    requires D.Inv(d) && i < |d.claims| && |d.claims[i].got| < |d.claims[i].promise|
    requires d.claims[i].start + |d.claims[i].got| < |d.mem|
    ensures var c := d.claims[i]; var x := d.mem[c.start + |c.got|];
      InClaim(c, j) == One(x, j) + InClaim(c.(got := c.got + [x]), j)
  {
    var c := d.claims[i];
    var k := |c.got|;
    assert c in d.claims;
    assert Claims.Kept(c, d.mem);
    assert d.mem[c.start + k] == d.mem[c.start..c.End()][k];
    assert c.promise[k..] == [c.promise[k]] + c.promise[k + 1..];
    OccConcat([c.promise[k]], c.promise[k + 1..], j);
    OccOne(c.promise[k], j);
  }

  lemma ReleaseBalance(d: D.State, t: nat, i: nat, d': D.State, j: Job)
    requires D.Inv(d) && D.Next(d, D.Release(t, i), d')
    ensures InDeque(d', j) == InDeque(d, j)
  {
    D.ReleaseStep(d, t, i, d');
    D.ReleaseShape(d, t, i, d');
    hide D.Inv, D.Next;
    assert d.claims[0].promise[|d.claims[0].got|..] == [];
    assert InClaim(d.claims[0], j) == 0;
    assert InClaims(d'.claims, j) == InClaims(d.claims, j)[1..];
  }

  lemma Balance(d: D.State, a: D.Action, d': D.State, j: Job)
    requires D.Inv(d) && D.Next(d, a, d')
    ensures InDeque(d', j) + Leaves(d, a, j) == InDeque(d, j) + Enters(a, j)
  {
    match a
    case ClaimPrefix(t, n) => ClaimBalance(d, t, n, d', j);
    case Copy(t, i) => CopyBalance(d, t, i, d', j);
    case Release(t, i) => ReleaseBalance(d, t, i, d', j);
    case _ => OwnerBalance(d, a, d', j);
  }

  // ---------------------------------------------------------------- one step's balance

  lemma DequesStep(s: State, v: nat, a: D.Action, deques': seq<D.State>, j: Job)
    requires Within(s, v, a, deques') && D.Inv(s.deques[v])
    ensures Total(InDeques(deques', j)) + Leaves(s.deques[v], a, j) == Total(InDeques(s.deques, j)) + Enters(a, j)
  {
    Balance(s.deques[v], a, deques'[v], j);
    hide D.Next, D.Inv, InDeque, Leaves, Enters;
    assert InDeques(deques', j) == InDeques(s.deques, j)[v := InDeque(deques'[v], j)];
    TotalUpdate(InDeques(s.deques, j), v, InDeque(deques'[v], j));
  }

  lemma SeqsStep(xs: seq<seq<Job>>, i: nat, x: seq<Job>, j: Job)
    requires i < |xs|
    ensures Total(InSeqs(xs[i := x], j)) + Occ(xs[i], j) == Total(InSeqs(xs, j)) + Occ(x, j)
  {
    assert InSeqs(xs[i := x], j) == InSeqs(xs, j)[i := Occ(x, j)];
    TotalUpdate(InSeqs(xs, j), i, Occ(x, j));
  }

  lemma PushStep(xs: seq<seq<Job>>, i: nat, x: Job, j: Job)
    requires i < |xs|
    ensures Total(InSeqs(xs[i := xs[i] + [x]], j)) == Total(InSeqs(xs, j)) + One(x, j)
  {
    OccConcat(xs[i], [x], j);
    OccOne(x, j);
    SeqsStep(xs, i, xs[i] + [x], j);
  }

  lemma CarryStep(xs: seq<Option<Job>>, i: nat, x: Option<Job>, j: Job)
    requires i < |xs|
    ensures Total(InCarried(xs[i := x], j)) + (if xs[i].Some? then One(xs[i].value, j) else 0)
      == Total(InCarried(xs, j)) + (if x.Some? then One(x.value, j) else 0)
  {
    var n := if x.Some? then One(x.value, j) else 0;
    assert InCarried(xs[i := x], j) == InCarried(xs, j)[i := n];
    TotalUpdate(InCarried(xs, j), i, n);
  }

  lemma HeadStep(q: seq<Job>, j: Job)
    requires q != []
    ensures Occ(q, j) == One(q[0], j) + Occ(q[1..], j)
  {
    assert q == [q[0]] + q[1..];
    OccConcat([q[0]], q[1..], j);
    OccOne(q[0], j);
  }

  lemma LastStep(q: seq<Job>, j: Job)
    requires q != []
    ensures Occ(q, j) == Occ(q[..|q| - 1], j) + One(q[|q| - 1], j)
  {
    assert q == q[..|q| - 1] + [q[|q| - 1]];
    OccConcat(q[..|q| - 1], [q[|q| - 1]], j);
    OccOne(q[|q| - 1], j);
  }

  predicate OnQueues(a: Action) {
    a.SubmitShared? || a.SubmitInbox? || a.RunInbox? || a.Finish? || a.DropShared? || a.DropInbox?
  }

  /** A step moves jobs between places, or submits a new one; nothing else. */
  lemma StepPlaces(s: State, t: nat, a: Action, s': State, j: Job)
    requires Next(s, t, a, s') && DequesOk(s)
    ensures Places(s', j) + s.submitted[j] == Places(s, j) + s'.submitted[j]
    ensures s'.started[j] + Running(s, j) + s.done[j] == s.started[j] + Running(s', j) + s'.done[j]
  {
    if OnQueues(a) {
      QueuePlaces(s, t, a, s', j);
    } else if a.DropDeque? {
      DropPlaces(s, t, a.v, s', j);
    } else {
      DequePlaces(s, t, a, s', j);
    }
  }

  lemma QueuePlaces(s: State, t: nat, a: Action, s': State, j: Job)
    requires Next(s, t, a, s') && OnQueues(a)
    ensures Places(s', j) + s.submitted[j] == Places(s, j) + s'.submitted[j]
    ensures s'.started[j] + Running(s, j) + s.done[j] == s.started[j] + Running(s', j) + s'.done[j]
  {
    hide D.Inv, D.Next, Within, InDeques, Total, InSeqs, InCarried, Occ;
    match a
    case SubmitShared(x) =>
      OccConcat(s.tasks, [x], j);
      OccOne(x, j);
    case SubmitInbox(i, x) => PushStep(s.inboxes, i, x, j);
    case RunInbox(i) => RunPlaces(s, t, i, s', j);
    case Finish =>
      LastStep(s.stacks[t], j);
      SeqsStep(s.stacks, t, s'.stacks[t], j);
    case DropShared => HeadStep(s.tasks, j);
    case DropInbox(i) =>
      LastStep(s.inboxes[i], j);
      SeqsStep(s.inboxes, i, s'.inboxes[i], j);
  }

  lemma RunPlaces(s: State, t: nat, i: nat, s': State, j: Job)
    requires Next(s, t, RunInbox(i), s')
    ensures Places(s', j) + s.submitted[j] == Places(s, j) + s'.submitted[j]
    ensures s'.started[j] + Running(s, j) + s.done[j] == s.started[j] + Running(s', j) + s'.done[j]
  {
    hide InDeques, Total, InSeqs, InCarried, Occ;
    HeadStep(s.inboxes[i], j);
    SeqsStep(s.inboxes, i, s.inboxes[i][1..], j);
    PushStep(s.stacks, t, s.inboxes[i][0], j);
  }

  lemma DropPlaces(s: State, t: nat, v: nat, s': State, j: Job)
    requires Next(s, t, DropDeque(v), s')
    ensures Places(s', j) + s.submitted[j] == Places(s, j) + s'.submitted[j]
    ensures s'.started[j] + Running(s, j) + s.done[j] == s.started[j] + Running(s', j) + s'.done[j]
  {
    var d, d' := s.deques[v], D.Init(s.deques[v].cap);
    assert InDeque(d', j) == 0;
    assert InDeque(d, j) == Occ(d.Items(), j);
    hide D.Inv, D.Next, InDeque, InSeqs, InCarried;
    assert InDeques(s'.deques, j) == InDeques(s.deques, j)[v := InDeque(d', j)];
    TotalUpdate(InDeques(s.deques, j), v, InDeque(d', j));
    hide Total, InDeques;
  }

  lemma DequePlaces(s: State, t: nat, a: Action, s': State, j: Job)
    requires Next(s, t, a, s') && !OnQueues(a) && !a.DropDeque?
    requires DequesOk(s)
    ensures Places(s', j) + s.submitted[j] == Places(s, j) + s'.submitted[j]
    ensures s'.started[j] + Running(s, j) + s.done[j] == s.started[j] + Running(s', j) + s'.done[j]
  {
    hide D.Inv, D.Next, InDeques, Total, InSeqs, InCarried, Occ;
    match a
    case SubmitLocal(x) => DequesStep(s, t, D.Write(x), s'.deques, j);
    case Drain =>
      DequesStep(s, t, D.Write(s.tasks[0]), s'.deques, j);
      HeadStep(s.tasks, j);
    case Local(b) => DequesStep(s, t, b, s'.deques, j);
    case RunLocal =>
      DequesStep(s, t, D.PopRead, s'.deques, j);
      PushStep(s.stacks, t, s.deques[t].mem[s.deques[t].owner.c], j);
    case Claim(v, n) => DequesStep(s, v, D.ClaimPrefix(t, n), s'.deques, j);
    case Read(v, i) =>
      DequesStep(s, v, D.Copy(t, i), s'.deques, j);
      CarryStep(s.carried, t, s'.carried[t], j);
    case Put =>
      DequesStep(s, t, D.Write(s.carried[t].value), s'.deques, j);
      CarryStep(s.carried, t, None, j);
    case Release(v, i) => DequesStep(s, v, D.Release(t, i), s'.deques, j);
  }

  // ---------------------------------------------------------------- the invariant

  ghost predicate DequesOk(s: State) {
    forall d :: d in s.deques ==> D.Inv(d)
  }

  /** A submitted job is in exactly one place, and was started exactly if it is running or finished. */
  ghost predicate Accounted(s: State, j: Job) {
    Places(s, j) == s.submitted[j] <= 1 && s.started[j] == Running(s, j) + s.done[j]
  }

  ghost predicate Inv(s: State) {
    Shape(s) && DequesOk(s) && forall j :: Accounted(s, j)
  }

  lemma InitInv(n: nat, cap: nat)
    ensures Inv(Init(n, cap))
  {
    var s := Init(n, cap);
    forall j
      ensures Places(s, j) == 0 && Running(s, j) == 0
    {
      TotalZero(InSeqs(s.inboxes, j));
      TotalZero(InDeques(s.deques, j));
      TotalZero(InCarried(s.carried, j));
      TotalZero(InSeqs(s.stacks, j));
    }
  }

  lemma DequesInv(s: State, v: nat, a: D.Action, deques': seq<D.State>)
    requires Within(s, v, a, deques') && DequesOk(s)
    ensures forall d :: d in deques' ==> D.Inv(d)
  {
    D.StepInv(s.deques[v], a, deques'[v]);
    hide D.Inv, D.Next;
  }

  lemma StepDeques(s: State, t: nat, a: Action, s': State)
    requires Next(s, t, a, s') && DequesOk(s)
    ensures Shape(s') && DequesOk(s')
  {
    hide D.Inv, D.Next;
    match a
    case SubmitLocal(j) => DequesInv(s, t, D.Write(j), s'.deques);
    case Drain => DequesInv(s, t, D.Write(s.tasks[0]), s'.deques);
    case Local(b) => DequesInv(s, t, b, s'.deques);
    case RunLocal => DequesInv(s, t, D.PopRead, s'.deques);
    case Claim(v, n) => DequesInv(s, v, D.ClaimPrefix(t, n), s'.deques);
    case Read(v, i) => DequesInv(s, v, D.Copy(t, i), s'.deques);
    case Put => DequesInv(s, t, D.Write(s.carried[t].value), s'.deques);
    case Release(v, i) => DequesInv(s, v, D.Release(t, i), s'.deques);
    case DropDeque(v) => D.InitInv(s.deques[v].cap);
    case _ =>
  }

  lemma StepInv(s: State, t: nat, a: Action, s': State)
    requires Inv(s) && Next(s, t, a, s')
    ensures Inv(s')
  {
    hide Next, Shape, DequesOk, Accounted;
    StepDeques(s, t, a, s');
    forall j
      ensures Accounted(s', j)
    {
      assert Accounted(s, j);
      StepOne(s, t, a, s', j);
    }
  }

  lemma StepOne(s: State, t: nat, a: Action, s': State, j: Job)
    requires DequesOk(s) && Accounted(s, j) && Next(s, t, a, s')
    ensures Accounted(s', j)
  {
    hide Next, DequesOk, Places, Running;
    StepPlaces(s, t, a, s', j);
    SubmitStep(s, t, a, s', j);
  }

  /** The job an action hands to the pool. */
  function Submits(a: Action): Option<Job> {
    match a
    case SubmitShared(j) => Some(j)
    case SubmitInbox(_, j) => Some(j)
    case SubmitLocal(j) => Some(j)
    case _ => None
  }

  lemma SubmitStep(s: State, t: nat, a: Action, s': State, j: Job)
    requires Next(s, t, a, s')
    ensures s'.submitted[j] == s.submitted[j] + (if Submits(a) == Some(j) then 1 else 0)
    ensures Submits(a) == Some(j) ==> s.submitted[j] == 0
  {
    hide D.Next, Within;
  }

  /** The job that thread `t` finishes by `a`. */
  ghost function Finishes(s: State, t: nat, a: Action): Option<Job> {
    if a == Finish && t < |s.stacks| && s.stacks[t] != [] then Some(s.stacks[t][|s.stacks[t]| - 1]) else None
  }

  lemma FinishStep(s: State, t: nat, a: Action, s': State, j: Job)
    requires Next(s, t, a, s')
    ensures s'.done[j] == s.done[j] + (if Finishes(s, t, a) == Some(j) then 1 else 0)
  {
    hide D.Next, Within;
  }

  // ---------------------------------------------------------------- whole runs

  ghost predicate Run(states: seq<State>, threads: seq<nat>, acts: seq<Action>) {
    && |states| == |acts| + 1 && |threads| == |acts|
    && forall k :: 0 <= k < |acts| ==> Next(states[k], threads[k], acts[k], states[k + 1])
  }

  lemma {:induction false} RunInv(states: seq<State>, threads: seq<nat>, acts: seq<Action>, n: nat, cap: nat, k: nat)
    requires Run(states, threads, acts) && states[0] == Init(n, cap) && k < |states|
    ensures Inv(states[k])
  {
    hide Next, Inv;
    if k == 0 {
      InitInv(n, cap);
    } else {
      RunInv(states, threads, acts, n, cap, k - 1);
      StepInv(states[k - 1], threads[k - 1], acts[k - 1], states[k]);
    }
  }

  /** Occurrences of `j` outside the hands that run it: queues, inboxes, deques, claims, thieves' hands. */
  ghost function Underway(s: State, j: Job): nat {
    Occ(s.tasks, j) + Total(InSeqs(s.inboxes, j)) + Total(InDeques(s.deques, j)) + Total(InCarried(s.carried, j))
  }

  /**
   In every reachable state every submitted job is in exactly one place, so nothing is lost or
   doubled; a job was started exactly once if it is running or finished, and never otherwise.
   */
  lemma Conservation(states: seq<State>, threads: seq<nat>, acts: seq<Action>, n: nat, cap: nat, k: nat, j: Job)
    requires Run(states, threads, acts) && states[0] == Init(n, cap) && k < |states|
    ensures Places(states[k], j) == (if j in states[k].submitted then 1 else 0)
    ensures states[k].started[j] <= 1
    ensures states[k].started[j] == 1 <==> j in states[k].done || Running(states[k], j) == 1
    ensures j in states[k].submitted && states[k].started[j] == 0 ==> (Underway(states[k], j) == 1 <==> j !in states[k].dropped)
  {
    RunInv(states, threads, acts, n, cap, k);
    assert Accounted(states[k], j);
    hide Inv, Total, InSeqs, InDeques, InCarried, Occ;
  }

  /** A finished or dropped job stays so, is never handed out again, and was started exactly if it finished. */
  lemma {:induction false} SettledIsFinal(
      states: seq<State>, threads: seq<nat>, acts: seq<Action>, n: nat, cap: nat, k: nat, m: nat, j: Job)
    requires Run(states, threads, acts) && states[0] == Init(n, cap) && k <= m < |states|
    requires j in states[k].done || j in states[k].dropped
    ensures j in states[k].done <==> j in states[m].done
    ensures j in states[k].dropped <==> j in states[m].dropped
    ensures states[m].started[j] == if j in states[k].done then 1 else 0
    ensures Underway(states[m], j) == 0 == Running(states[m], j)
    decreases m - k
  {
    hide Next, Inv, Running, Underway;
    RunInv(states, threads, acts, n, cap, m);
    if k < m {
      SettledIsFinal(states, threads, acts, n, cap, k, m - 1, j);
      SettledGrows(states[m - 1], threads[m - 1], acts[m - 1], states[m]);
    }
    SettledIsOnlyPlace(states[m], j);
  }

  lemma SettledIsOnlyPlace(s: State, j: Job)
    requires Inv(s) && (j in s.done || j in s.dropped)
    ensures j in s.done <==> j !in s.dropped
    ensures Underway(s, j) == 0 == Running(s, j) && s.started[j] == if j in s.done then 1 else 0
  {
    assert Accounted(s, j);
    hide Inv, Total, InSeqs, InDeques, InCarried, Occ;
  }

  lemma SettledGrows(s: State, t: nat, a: Action, s': State)
    requires Next(s, t, a, s')
    ensures s.done <= s'.done && s.dropped <= s'.dropped && s.started <= s'.started
  {
    hide D.Next, Within;
  }

  // ---------------------------------------------------------------- a job's way through the pool

  ghost predicate Reaches(n: nat, cap: nat, s: State) {
    exists states, threads, acts :: Run(states, threads, acts) && states[0] == Init(n, cap) && states[|acts|] == s
  }

  lemma Go(n: nat, cap: nat, s: State, t: nat, a: Action, s': State)
    requires Reaches(n, cap, s) && Next(s, t, a, s')
    ensures Reaches(n, cap, s')
  {
    var states, threads, acts :| Run(states, threads, acts) && states[0] == Init(n, cap) && states[|acts|] == s;
    var longer, ts, all := states + [s'], threads + [t], acts + [a];
    forall k | 0 <= k < |all|
      ensures Next(longer[k], ts[k], all[k], longer[k + 1])
    {
      if k < |acts| {
        assert Next(states[k], threads[k], acts[k], states[k + 1]);
      }
      hide Next;
    }
    assert Run(longer, ts, all) && longer[0] == Init(n, cap) && longer[|all|] == s';
  }

  function With(s: State, v: nat, d: D.State): State
    requires v < |s.deques|
  {
    s.(deques := s.deques[v := d])
  }

  lemma GoLocal(n: nat, cap: nat, s: State, t: nat, b: D.Action, d: D.State) returns (s': State)
    requires Reaches(n, cap, s) && Shape(s) && t < |s.deques| && D.Next(s.deques[t], b, d)
    requires b in {D.Measure, D.Publish, D.Look, D.GiveUp, D.PopSwap}
    ensures s' == With(s, t, d) && Reaches(n, cap, s') && Shape(s')
  {
    s' := With(s, t, d);
    hide Reaches, D.Next;
    Go(n, cap, s, t, Local(b), s');
  }

  /** Thread 0 takes a job from the shared queue into its deque. */
  lemma DrainOne(n: nat, cap: nat, j: Job) returns (s: State)
    requires n > 1 && cap > 0
    ensures Reaches(n, cap, s) && Shape(s) && |s.deques| == n
    ensures s == With(Init(n, cap), 0, D.State(cap, 1, 0, 0, [j], [], D.Rest, [D.Pushed([j])])).(submitted := multiset{j})
  {
    var init := Init(n, cap);
    assert Run([init], [], []);
    assert Reaches(n, cap, init);
    hide Reaches;
    var s1 := init.(tasks := init.tasks + [j], submitted := init.submitted + multiset{j});
    Go(n, cap, init, 0, SubmitShared(j), s1);
    var d2 := D.Init(cap).(owner := D.Filling(cap, []));
    var s2 := GoLocal(n, cap, s1, 0, D.Measure, d2);
    var d3 := d2.(mem := [j], owner := D.Filling(cap, [] + [j]));
    assert D.Next(d2, D.Write(j), d3);
    var s3 := With(s2, 0, d3).(tasks := s2.tasks[1..]);
    assert s3.deques[0] == d3 && s3.deques == s2.deques[0 := d3];
    Go(n, cap, s2, 0, Drain, s3);
    var d4 := d3.(tail := 1, owner := D.Rest, events := d3.events + [D.Pushed(d3.owner.staged)]);
    s := GoLocal(n, cap, s3, 0, D.Publish, d4);
    assert d4 == D.State(cap, 1, 0, 0, [j], [], D.Rest, [D.Pushed([j])]);
    assert s.tasks == [] && s.deques == init.deques[0 := d4] && s.submitted == multiset{j};
  }

  /** Thread 1 steals it, slot by slot, into its own deque. */
  lemma StealOne(n: nat, cap: nat, j: Job) returns (s: State)
    requires n > 1 && cap > 0
    ensures Reaches(n, cap, s) && Shape(s) && |s.deques| == n && s.submitted == multiset{j} && s.done == multiset{}
    ensures s.deques[1] == D.State(cap, 1, 0, 0, [j], [], D.Rest, [D.Pushed([j])]) && s.stacks[1] == []
    ensures s.started == multiset{}
  {
    hide Reaches;
    var s0 := DrainOne(n, cap, j);
    var d := s0.deques[0];
    var c := Claims.Claim(1, 0, [j], []);
    var d1 := d.(blocked := 1, claims := d.claims + [c], events := d.events + [D.Stole(1, [j])]);
    assert d.mem[0..1] == [j];
    assert D.Next(d, D.ClaimPrefix(1, 1), d1);
    var s1 := With(s0, 0, d1);
    Go(n, cap, s0, 1, Action.Claim(0, 1), s1);
    var d2 := d1.(claims := d1.claims[0 := c.(got := c.got + [d1.mem[0]])]);
    assert D.Next(d1, D.Copy(1, 0), d2);
    var s2 := With(s1, 0, d2).(carried := s1.carried[1 := Some(j)]);
    assert s2.deques == s1.deques[0 := d2] && s1.deques[0] == d1 && s1.carried[1] == None;
    assert d1.claims[0] == c && d1.mem[0] == j;
    Go(n, cap, s1, 1, Read(0, 0), s2);
    assert c.got + [j] == [j] && d2.claims == [Claims.Claim(1, 0, [j], [j])];
    s := PutOne(n, cap, j, s2);
  }

  lemma PutOne(n: nat, cap: nat, j: Job, s: State) returns (s': State)
    requires Reaches(n, cap, s) && Shape(s) && |s.deques| == n > 1 && cap > 0
    requires s.deques[1] == D.Init(cap) && s.carried[1] == Some(j)
    requires var d := s.deques[0]; d.stolen == 0 && d.claims == [Claims.Claim(1, 0, [j], [j])]
    ensures Reaches(n, cap, s') && Shape(s') && |s'.deques| == n
    ensures s'.submitted == s.submitted && s'.done == s.done && s'.started == s.started && s'.stacks == s.stacks
    ensures s'.deques[1] == D.State(cap, 1, 0, 0, [j], [], D.Rest, [D.Pushed([j])])
  {
    hide Reaches;
    var e, d := D.Init(cap), s.deques[0];
    var e1 := e.(owner := D.Filling(cap, []));
    var e2 := e1.(mem := [j], owner := D.Filling(cap, [] + [j]));
    var e3 := e2.(tail := 1, owner := D.Rest, events := e2.events + [D.Pushed(e2.owner.staged)]);
    var d1 := d.(stolen := d.stolen + 1, claims := d.claims[..0] + d.claims[0 + 1..]);
    assert D.Next(e, D.Measure, e1) && D.Next(e1, D.Write(j), e2) && D.Next(e2, D.Publish, e3);
    assert D.Next(d, D.Release(1, 0), d1);
    hide D.Next;
    var s1 := GoLocal(n, cap, s, 1, D.Measure, e1);
    var s2 := With(s1, 1, e2).(carried := s1.carried[1 := None]);
    assert s2.deques == s1.deques[1 := e2];
    Go(n, cap, s1, 1, Put, s2);
    var s3 := With(s2, 0, d1);
    assert s2.deques[0] == d && s3.deques == s2.deques[0 := d1] && s3.deques[1] == e2;
    Go(n, cap, s2, 1, Release(0, 0), s3);
    s' := GoLocal(n, cap, s3, 1, D.Publish, e3);
  }

  /**
   A job's whole way is possible in every pool: submitted to the shared queue, drained by one thread, stolen
   by another slot by slot, popped, run once and finished.
   */
  lemma JobGoesThrough(n: nat, cap: nat, j: Job) returns (s: State)
    requires n > 1 && cap > 0
    ensures Reaches(n, cap, s) && s.submitted == multiset{j} == s.started == s.done
  {
    hide Reaches;
    var s0 := StealOne(n, cap, j);
    var e := s0.deques[1];
    var e1 := e.(owner := D.Popping(0, [j]));
    assert e.Items() == [j];
    var s1 := GoLocal(n, cap, s0, 1, D.Look, e1);
    var e2 := e1.(tail := 0, owner := D.Taking(0, j), events := e1.events + [D.Popped(j)]);
    var s2 := GoLocal(n, cap, s1, 1, D.PopSwap, e2);
    var e3 := e2.(owner := D.Rest);
    assert D.Next(e2, D.PopRead, e3);
    var s3 := With(s2, 1, e3).(stacks := s2.stacks[1 := s2.stacks[1] + [j]], started := s2.started + multiset{j});
    assert s3.deques == s2.deques[1 := e3] && s2.deques[1] == e2;
    Go(n, cap, s2, 1, RunLocal, s3);
    s := s3.(stacks := s3.stacks[1 := s3.stacks[1][..0]], done := s3.done + multiset{j});
    Go(n, cap, s3, 1, Finish, s);
  }
}
