/**
 The sleep/wake protocol of the pool, one step per atomic operation: sleep registration under one
 lock, park tokens, late unparks, spurious wakeups, the idle scan queue by queue, single pushes with
 `wake_one`, batch publication over all inbox locks with its sleeper sweep, and shutdown.
 Background workers are `0 .. W - 1`; queue `W` is the host's. Publishers and consumers are agents;
 any number of them act, including threads that are workers and are currently awake.
 */
module SleepWake {
  import opened Jobs

  /**
   A queue behind a spin lock. `cached` is the length readers see without the lock; the last `added`
   elements were pushed by the current lock holder, who has not released them yet.
   */
  datatype LockQueue = LockQueue(elems: seq<Job>, added: nat, cached: nat, lock: Option<nat>)

  datatype Where = Shared | Inbox(i: nat) | Local(i: nat)

  datatype Stage = Locked | Changed | Stored

  datatype Worker =
    | Awake
    | Scan(pos: nat)  // holds the registration lock; checks `0 .. pos - 1` found nothing
    | Listed          // registered, still holds the lock
    | ToPark          // registered, released the lock, about to park
    | Parked
    | Cleanup         // park returned; wants the lock to withdraw its registration
    | Purge           // holds the lock, about to withdraw
    | Leave           // holds the lock, about to release it and go on working
    | Gone            // left its loop after the stop flag

  datatype Agent =
    | Idle
    | Pushing(stage: Stage, j: Job)        // push onto the shared queue, lock held
    | Taking(q: Where, stage: Stage)       // pop or drain of a locked queue, lock held
    | WakeWant(j: Job)                     // the job is published; `wake_one` wants the lock
    | WakeHold(j: Job)
    | WakePopped(who: Option<nat>)         // a registration was consumed, lock still held
    | WakeUnpark(w: nat)                   // lock released, unpark still to come
    | Locking(k: nat)                      // batch: holds inboxes `0 .. k - 1`; with all of them it assigns
    | Unlocking(k: nat, stored: bool, ok: bool) // batch: holds inboxes `0 .. k - 1`, releasing the highest
    | SweepWant
    | Sweep(p: nat, found: bool)           // registrations `0 .. p - 1` were kept; `found`: the next one's inbox showed work

  datatype Holder = ByWorker(w: nat) | ByAgent(a: nat)

  datatype Watch = Watch(at: Where, passed: bool)

  datatype State = State(
    running: bool,
    shared: LockQueue,
    inbox: seq<LockQueue>,
    local: seq<seq<Job>>,      // unclaimed ranges of the worker deques
    sleepers: seq<nat>,
    slock: Option<Holder>,
    worker: seq<Worker>,
    token: seq<bool>,
    agents: map<nat, Agent>,
    watch: map<Job, Watch>,    // jobs published with a wake and still unclaimed
    told: set<nat>)            // workers that shutdown has unparked
  {
    function Agent(a: nat): Agent {
      if a in agents then agents[a] else Idle
    }

    function Become(a: nat, g: Agent): State {
      this.(agents := agents[a := g])
    }

    function Enter(w: nat, pc: Worker): State
      requires w < |worker|
    {
      this.(worker := worker[w := pc])
    }

    /** Position of the check that looks at a queue: stop flag, shared queue, then deque and inbox of each worker. */
    function Ready(): nat {
      2 + 2 * |inbox|
    }
  }

  const EmptyQueue := LockQueue([], 0, 0, None)

  function Init(workers: nat): State {
    State(true, EmptyQueue, seq(workers + 1, _ => EmptyQueue), seq(workers + 1, _ => []), [], None,
          seq(workers, _ => Awake), seq(workers, _ => false), map[], map[], {})
  }

  function Pos(q: Where): nat {
    match q
    case Shared => 1
    case Local(i) => 2 + 2 * i
    case Inbox(i) => 3 + 2 * i
  }

  /** The check at `pos` finds a reason not to sleep. */
  predicate Finds(s: State, pos: nat)
    requires pos < s.Ready() && |s.local| == |s.inbox|
  {
    if pos == 0 then !s.running
    else if pos == 1 then s.shared.cached != 0
    else if pos % 2 == 0 then s.local[(pos - 2) / 2] != []
    else s.inbox[(pos - 3) / 2].cached != 0
  }

  function Without(xs: seq<nat>, w: nat): seq<nat> {
    if xs == [] then [] else (if xs[0] == w then [] else [xs[0]]) + Without(xs[1..], w)
  }

  // ---------------------------------------------------------------- worker steps

  datatype WorkerStep =
    | StartScan | Check | Register | Unlist | Park | Wake | Spurious | CleanLock | Withdraw | LeaveLock | Exit

  ghost predicate WorkerNext(s: State, w: nat, a: WorkerStep, s': State) {
    && w < |s.worker| == |s.token|
    && |s.local| == |s.inbox|
    && var pc := s.worker[w];
    match a
    case StartScan => pc == Awake && s.slock == None && s' == s.Enter(w, Scan(0)).(slock := Some(ByWorker(w)))
    case Check => pc.Scan? && pc.pos < s.Ready() && s' == s.Enter(w, if Finds(s, pc.pos) then Leave else Scan(pc.pos + 1))
    case Register => pc.Scan? && pc.pos == s.Ready() && s' == s.Enter(w, Listed).(sleepers := s.sleepers + [w])
    case Unlist => pc == Listed && s' == s.Enter(w, ToPark).(slock := None)
    case Park =>
      && pc == ToPark
      && s' == if s.token[w] then s.Enter(w, Cleanup).(token := s.token[w := false]) else s.Enter(w, Parked)
    case Wake => pc == Parked && s.token[w] && s' == s.Enter(w, Cleanup).(token := s.token[w := false])
    case Spurious => pc == Parked && s' == s.Enter(w, Cleanup)
    case CleanLock => pc == Cleanup && s.slock == None && s' == s.Enter(w, Purge).(slock := Some(ByWorker(w)))
    case Withdraw => pc == Purge && s' == s.Enter(w, Leave).(sleepers := Without(s.sleepers, w))
    case LeaveLock => pc == Leave && s' == s.Enter(w, Awake).(slock := None)
    case Exit => pc == Awake && !s.running && s' == s.Enter(w, Gone)
  }

  // ---------------------------------------------------------------- agent steps

  datatype AgentStep =
    | PushLock(j: Job) | PushChange | PushStore | PushUnlock
    | PushLocal(i: nat, j: Job)
    | MoveLocal(i: nat, js: seq<Job>)      // a drain or a steal publishes jobs in a deque, without a wake
    | ClaimLocal(i: nat, lo: nat, hi: nat) // a pop or a claim leaves `local[i][lo..hi]`
    | TakeLock(q: Where) | TakeChange(k: nat) | TakeStore | TakeUnlock
    | WakeLock | WakePop | WakeUnlock | Unpark
    | BatchStart | BatchLock | BatchPush(i: nat, j: Job) | BatchEnd(ok: bool) | BatchStore | BatchUnlock
    | SweepLock | SweepLook | SweepUnpark | SweepEnd
    | Stop | Tell(w: nat) | Stray(w: nat)

  function Queue(s: State, q: Where): LockQueue
    requires q.Shared? || (q.Inbox? && q.i < |s.inbox|)
  {
    if q.Shared? then s.shared else s.inbox[q.i]
  }

  function SetQueue(s: State, q: Where, v: LockQueue): State
    requires q.Shared? || (q.Inbox? && q.i < |s.inbox|)
  {
    if q.Shared? then s.(shared := v) else s.(inbox := s.inbox[q.i := v])
  }

  predicate IsLockable(s: State, q: Where) {
    q.Shared? || (q.Inbox? && q.i < |s.inbox|)
  }

  function Forget(watch: map<Job, Watch>, js: seq<Job>): map<Job, Watch> {
    map j | j in watch && j !in js :: watch[j]
  }

  /** The shared queue's push: lock, change, store the length, unlock; then the wake begins. */
  ghost predicate PushNext(s: State, a: nat, b: AgentStep, s': State) {
    var g := s.Agent(a);
    match b
    case PushLock(j) =>
      && g == Idle && s.shared.lock == None && j !in s.watch
      && s' == s.Become(a, Pushing(Locked, j)).(shared := s.shared.(lock := Some(a)))
    case PushChange =>
      && g.Pushing? && g.stage == Locked
      && s' == s.Become(a, Pushing(Changed, g.j)).(shared := s.shared.(elems := s.shared.elems + [g.j], added := 1))
    case PushStore =>
      && g.Pushing? && g.stage == Changed
      && s' == s.Become(a, Pushing(Stored, g.j)).(shared := s.shared.(cached := |s.shared.elems|))
    case PushUnlock =>
      && g.Pushing? && g.stage == Stored && g.j !in s.watch
      && s' == s.Become(a, WakeWant(g.j)).(shared := s.shared.(added := 0, lock := None),
                                           watch := s.watch[g.j := Watch(Shared, false)])
    case _ => false
  }

  ghost predicate LocalNext(s: State, a: nat, b: AgentStep, s': State) {
    var g := s.Agent(a);
    match b
    case PushLocal(i, j) =>
      && g == Idle && i < |s.local| && j !in s.watch
      && s' == s.Become(a, WakeWant(j)).(local := s.local[i := s.local[i] + [j]],
                                         watch := s.watch[j := Watch(Local(i), false)])
    case MoveLocal(i, js) =>
      && i < |s.local|
      && s' == s.(local := s.local[i := s.local[i] + js])
    case ClaimLocal(i, lo, hi) =>
      && i < |s.local| && lo <= hi <= |s.local[i]|
      && s' == s.(local := s.local[i := s.local[i][lo..hi]],
                  watch := Forget(s.watch, s.local[i][..lo] + s.local[i][hi..]))
    case _ => false
  }

  ghost predicate TakeNext(s: State, a: nat, b: AgentStep, s': State) {
    var g := s.Agent(a);
    match b
    case TakeLock(q) =>
      && g == Idle && IsLockable(s, q) && Queue(s, q).lock == None
      && s' == SetQueue(s.Become(a, Taking(q, Locked)), q, Queue(s, q).(lock := Some(a)))
    case TakeChange(k) =>
      && g.Taking? && g.stage == Locked && IsLockable(s, g.q) && k <= |Queue(s, g.q).elems|
      && var v := Queue(s, g.q);
      && s' == SetQueue(s.Become(a, Taking(g.q, Changed)), g.q, v.(elems := v.elems[k..]))
               .(watch := Forget(s.watch, v.elems[..k]))
    case TakeStore =>
      && g.Taking? && g.stage == Changed && IsLockable(s, g.q)
      && var v := Queue(s, g.q);
      && s' == SetQueue(s.Become(a, Taking(g.q, Stored)), g.q, v.(cached := |v.elems|))
    case TakeUnlock =>
      && g.Taking? && g.stage == Stored && IsLockable(s, g.q)
      && s' == SetQueue(s.Become(a, Idle), g.q, Queue(s, g.q).(lock := None))
    case _ => false
  }

  ghost predicate WakeNext(s: State, a: nat, b: AgentStep, s': State) {
    var g := s.Agent(a);
    match b
    case WakeLock =>
      g.WakeWant? && s.slock == None && s' == s.Become(a, WakeHold(g.j)).(slock := Some(ByAgent(a)))
    case WakePop =>
      && g.WakeHold?
      && var watch' := if g.j in s.watch then s.watch[g.j := s.watch[g.j].(passed := true)] else s.watch;
      && s' == if s.sleepers == [] then s.Become(a, WakePopped(None)).(watch := watch')
               else s.Become(a, WakePopped(Some(s.sleepers[0]))).(watch := watch', sleepers := s.sleepers[1..])
    case WakeUnlock =>
      && g.WakePopped?
      && s' == s.Become(a, if g.who.None? then Idle else WakeUnpark(g.who.value)).(slock := None)
    case Unpark =>
      g.WakeUnpark? && g.w < |s.token| && s' == s.Become(a, Idle).(token := s.token[g.w := true])
    case _ => false
  }

  ghost predicate BatchNext(s: State, a: nat, b: AgentStep, s': State) {
    var g := s.Agent(a);
    match b
    case BatchStart => g == Idle && s.inbox != [] && s' == s.Become(a, Locking(0))
    case BatchLock =>
      && g.Locking? && g.k < |s.inbox| && s.inbox[g.k].lock == None
      && s' == s.Become(a, Locking(g.k + 1)).(inbox := s.inbox[g.k := s.inbox[g.k].(lock := Some(a))])
    case BatchPush(i, j) =>
      && g == Locking(|s.inbox|) && i < |s.inbox|
      && var v := s.inbox[i];
      && s' == s.(inbox := s.inbox[i := v.(elems := v.elems + [j], added := v.added + 1)])
    case BatchEnd(ok) =>
      && g == Locking(|s.inbox|)
      && s' == s.Become(a, Unlocking(|s.inbox|, false, ok))
    case BatchStore =>
      && g.Unlocking? && !g.stored && 0 < g.k <= |s.inbox| && s.inbox[g.k - 1].added <= |s.inbox[g.k - 1].elems|
      && var v := s.inbox[g.k - 1];
      && var v' := if g.ok then v else v.(elems := v.elems[..|v.elems| - v.added], added := 0);
      && s' == s.Become(a, Unlocking(g.k, true, g.ok)).(inbox := s.inbox[g.k - 1 := v'.(cached := |v'.elems|)])
    case BatchUnlock =>
      && g.Unlocking? && g.stored && 0 < g.k <= |s.inbox|
      && var next := if g.k > 1 then Unlocking(g.k - 1, false, g.ok) else if g.ok then SweepWant else Idle;
      && s' == s.Become(a, next).(inbox := s.inbox[g.k - 1 := s.inbox[g.k - 1].(added := 0, lock := None)])
    case _ => false
  }

  ghost predicate SweepNext(s: State, a: nat, b: AgentStep, s': State) {
    var g := s.Agent(a);
    match b
    case SweepLock => g == SweepWant && s.slock == None && s' == s.Become(a, Sweep(0, false)).(slock := Some(ByAgent(a)))
    case SweepLook =>
      && g.Sweep? && !g.found && g.p < |s.sleepers| && s.sleepers[g.p] < |s.inbox|
      && s' == s.Become(a, if s.inbox[s.sleepers[g.p]].cached == 0 then Sweep(g.p + 1, false) else Sweep(g.p, true))
    case SweepUnpark =>
      && g.Sweep? && g.found && g.p < |s.sleepers| && s.sleepers[g.p] < |s.token|
      && s' == s.Become(a, Sweep(g.p, false)).(sleepers := s.sleepers[..g.p] + s.sleepers[g.p + 1..],
                                               token := s.token[s.sleepers[g.p] := true])
    case SweepEnd => g.Sweep? && !g.found && g.p == |s.sleepers| && s' == s.Become(a, Idle).(slock := None)
    case _ => false
  }

  ghost predicate StopNext(s: State, b: AgentStep, s': State) {
    match b
    case Stop => s' == s.(running := false)
    case Tell(w) => !s.running && w < |s.token| && s' == s.(token := s.token[w := true], told := s.told + {w})
    case Stray(w) => w < |s.token| && s' == s.(token := s.token[w := true])
    case _ => false
  }

  datatype Action = OfWorker(w: nat, ws: WorkerStep) | OfAgent(a: nat, as_: AgentStep)

  ghost predicate Next(s: State, a: Action, s': State) {
    match a
    case OfWorker(w, b) => WorkerNext(s, w, b, s')
    case OfAgent(x, b) =>
      || PushNext(s, x, b, s') || LocalNext(s, x, b, s') || TakeNext(s, x, b, s') || WakeNext(s, x, b, s')
      || BatchNext(s, x, b, s') || SweepNext(s, x, b, s') || StopNext(s, b, s')
  }

  // ---------------------------------------------------------------- invariants

  ghost predicate Shape(s: State) {
    0 < |s.worker| == |s.token| && |s.inbox| == |s.local| == |s.worker| + 1
  }

  predicate HoldsRegistry(pc: Worker) {
    pc.Scan? || pc == Listed || pc == Purge || pc == Leave
  }

  predicate AgentHoldsRegistry(g: Agent) {
    g.WakeHold? || g.WakePopped? || g.Sweep?
  }

  /** The registration lock is exclusive. */
  ghost predicate RegistryLock(s: State) {
    && (forall w :: 0 <= w < |s.worker| ==> (HoldsRegistry(s.worker[w]) <==> s.slock == Some(ByWorker(w))))
    && (forall a: nat :: AgentHoldsRegistry(s.Agent(a)) <==> s.slock == Some(ByAgent(a)))
  }

  /** Registrations are unique and belong to workers between registering and withdrawing. */
  ghost predicate Registered(xs: seq<nat>, ws: seq<Worker>) {
    && Distinct(xs)
    && (forall w :: w in xs ==> w < |ws| && MayBeListed(ws[w]))
    && (forall w :: 0 <= w < |ws| && ws[w] == Listed ==> w in xs)
  }

  predicate MayBeListed(pc: Worker) {
    pc == Listed || pc == ToPark || pc == Parked || pc == Cleanup || pc == Purge
  }

  predicate OwesOnly(g: Agent, n: nat) {
    (g.WakeUnpark? ==> g.w < n) && (g.WakePopped? && g.who.Some? ==> g.who.value < n)
  }

  ghost predicate Sleepers(s: State) {
    Registered(s.sleepers, s.worker) && forall a: nat :: OwesOnly(s.Agent(a), |s.worker|)
  }

  /** An unpark of `w` is on its way. */
  predicate InFlight(g: Agent, w: nat) {
    g == WakePopped(Some(w)) || g == WakeUnpark(w)
  }

  /** A worker at or in park is registered, or has a token, or is about to get one. */
  ghost predicate Parking(s: State) {
    && |s.token| == |s.worker|
    && forall w :: 0 <= w < |s.worker| && (s.worker[w] == ToPark || s.worker[w] == Parked) ==>
      w in s.sleepers || s.token[w] || exists a: nat :: InFlight(s.Agent(a), w)
  }

  /** Readers of `cached` never miss an element that was released. */
  ghost predicate QueueOk(v: LockQueue) {
    && v.added <= |v.elems| <= v.cached + v.added
    && (v.lock == None ==> v.cached == |v.elems| && v.added == 0)
  }

  predicate HoldsShared(g: Agent) {
    g.Pushing? || (g.Taking? && g.q == Shared)
  }

  predicate HoldsInbox(g: Agent, i: nat) {
    || (g.Taking? && g.q == Inbox(i))
    || (g.Locking? && i < g.k)
    || (g.Unlocking? && i < g.k)
  }

  /** What a holder of the shared queue's lock knows about it. */
  ghost predicate SharedStage(g: Agent, v: LockQueue) {
    && (g.Pushing? && g.stage == Locked ==> v.added == 0)
    && (g.Pushing? && g.stage != Locked ==> v.added == 1 && v.elems != [] && v.elems[|v.elems| - 1] == g.j)
    && (g.Taking? && g.q == Shared ==> v.added == 0)
    && (HoldsShared(g) && g.stage == Stored ==> v.cached == |v.elems|)
  }

  ghost predicate InboxStage(g: Agent, i: nat, v: LockQueue) {
    && (g.Taking? && g.q == Inbox(i) ==> v.added == 0 && (g.stage == Stored ==> v.cached == |v.elems|))
    && (g.Locking? && i < g.k ==> v.cached + v.added == |v.elems|)
    && (g.Unlocking? && i < g.k ==>
          if i == g.k - 1 && g.stored then v.cached == |v.elems| else v.cached + v.added == |v.elems|)
  }

  /** Agent `a`, being at `g`, is consistent with the shared queue. */
  ghost predicate SharedView(g: Agent, a: nat, v: LockQueue) {
    (HoldsShared(g) <==> v.lock == Some(a)) && SharedStage(g, v)
  }

  ghost predicate InboxView(g: Agent, a: nat, i: nat, v: LockQueue) {
    (HoldsInbox(g, i) <==> v.lock == Some(a)) && InboxStage(g, i, v)
  }

  ghost predicate Queues(s: State) {
    && QueueOk(s.shared)
    && (forall i :: 0 <= i < |s.inbox| ==> QueueOk(s.inbox[i]))
    && (forall a: nat :: SharedView(s.Agent(a), a, s.shared) && AgentOk(s.Agent(a), |s.inbox|))
    && (forall a: nat, i: nat :: i < |s.inbox| ==> InboxView(s.Agent(a), a, i, s.inbox[i]))
  }

  ghost predicate AgentOk(g: Agent, n: nat) {
    && (g.Taking? ==> g.q.Shared? || (g.q.Inbox? && g.q.i < n))
    && (g.Locking? ==> g.k <= n)
    && (g.Unlocking? ==> 0 < g.k <= n)
  }

  /** A released, unclaimed element of the queue at `q`. */
  ghost predicate Present(s: State, j: Job, q: Where) {
    match q
    case Shared => s.shared.added <= |s.shared.elems| && j in s.shared.elems[..|s.shared.elems| - s.shared.added]
    case Local(i) => i < |s.local| && j in s.local[i]
    case Inbox(_) => false
  }

  /** A worker that cannot fall asleep while a job stays at `q`. */
  ghost predicate Alert(s: State, w: nat, q: Where) {
    w < |s.worker| && w !in s.sleepers && (s.worker[w].Scan? ==> s.worker[w].pos <= Pos(q))
  }

  predicate MidWake(g: Agent, j: Job) {
    g == WakeWant(j) || g == WakeHold(j)
  }

  /** The job is still where it was published; its wake is under way, or some worker stays alert. */
  ghost predicate WatchOk(s: State, j: Job, wt: Watch) {
    && Present(s, j, wt.at)
    && (if wt.passed then exists w: nat :: Alert(s, w, wt.at) else exists a: nat :: MidWake(s.Agent(a), j))
  }

  ghost predicate Watched(s: State) {
    forall j :: j in s.watch ==> WatchOk(s, j, s.watch[j])
  }

  /** The batch publisher `g` has released the inbox of `w` and has not swept registration `x` yet. */
  predicate Pending(g: Agent, w: nat, x: nat) {
    match g
    case Unlocking(k, stored, ok) => ok && (w >= k || (w == k - 1 && stored))
    case SweepWant => true
    case Sweep(p, _) => p <= x
    case _ => false
  }

  /** The scan of `w` has checked its own inbox, which by now shows a nonzero length. */
  predicate PastInbox(s: State, w: nat)
    requires w < |s.worker|
  {
    s.worker[w].Scan? && s.worker[w].pos > Pos(Inbox(w)) && w < |s.inbox| && s.inbox[w].cached != 0
  }

  ghost predicate Covered(s: State, w: nat, x: nat) {
    exists a: nat :: Pending(s.Agent(a), w, x)
  }

  /** A registered worker, or one whose scan has passed its own inbox, has an empty inbox or a pending sweep. */
  ghost predicate Inboxes(s: State) {
    && (forall x: nat :: x < |s.sleepers| && s.sleepers[x] < |s.inbox| && s.inbox[s.sleepers[x]].cached != 0 ==>
          Covered(s, s.sleepers[x], x))
    && (forall w: nat :: w < |s.worker| && PastInbox(s, w) ==> Covered(s, w, |s.sleepers|))
  }

  /** A worker told to stop cannot block: its token waits for every park it may still reach. */
  ghost predicate Told(s: State) {
    && |s.token| == |s.worker|
    && forall w :: w in s.told ==>
      && !s.running && w < |s.worker|
      && (s.worker[w] in {Listed, ToPark, Parked} || (s.worker[w].Scan? && s.worker[w].pos > 0) ==> s.token[w])
  }

  /** Workers leave only a stopped pool. */
  ghost predicate Departed(s: State) {
    forall w :: 0 <= w < |s.worker| && s.worker[w] == Gone ==> !s.running
  }

  ghost predicate Inv(s: State) {
    && Shape(s) && RegistryLock(s) && Sleepers(s) && Parking(s)
    && Queues(s) && Watched(s) && Inboxes(s) && Told(s) && Departed(s)
  }

  lemma InitInv(workers: nat)
    requires workers > 0
    ensures Inv(Init(workers))
  {
  }

  // ---------------------------------------------------------------- preservation

  /** Everything the registration protocol reads, except the agents. */
  ghost predicate SameSleep(s: State, s': State) {
    && s'.running == s.running && s'.sleepers == s.sleepers && s'.slock == s.slock
    && s'.worker == s.worker && s'.token == s.token && s'.told == s.told
  }

  ghost predicate SameQueues(s: State, s': State) {
    s'.shared == s.shared && s'.inbox == s.inbox && s'.local == s.local
  }

  ghost predicate OnlyAgent(s: State, a: nat, s': State) {
    forall b: nat :: b != a ==> s'.Agent(b) == s.Agent(b)
  }

  ghost predicate SameAgents(s: State, s': State) {
    forall c: nat :: s'.Agent(c) == s.Agent(c)
  }

  /** Neither holds the registration lock nor owes an unpark. */
  predicate Quiet(g: Agent) {
    !AgentHoldsRegistry(g) && !g.WakeUnpark?
  }

  predicate HoldsNothing(g: Agent) {
    !HoldsShared(g) && !g.Taking? && !g.Locking? && !g.Unlocking?
  }

  ghost predicate QueueNext(s: State, a: nat, b: AgentStep, s': State) {
    PushNext(s, a, b, s') || LocalNext(s, a, b, s') || TakeNext(s, a, b, s') || BatchNext(s, a, b, s')
  }

  /** What every step on queues leaves alone. */
  ghost predicate FarFromSleep(s: State, a: nat, s': State) {
    && SameSleep(s, s') && OnlyAgent(s, a, s')
    && (s'.Agent(a) != s.Agent(a) ==> Quiet(s.Agent(a)) && Quiet(s'.Agent(a)))
    && |s'.inbox| == |s.inbox| && |s'.local| == |s.local|
  }

  lemma PushFrame(s: State, a: nat, b: AgentStep, s': State)
    requires PushNext(s, a, b, s')
    ensures FarFromSleep(s, a, s')
  {
  }

  lemma LocalFrame(s: State, a: nat, b: AgentStep, s': State)
    requires LocalNext(s, a, b, s')
    ensures FarFromSleep(s, a, s')
  {
  }

  /** The part of a step on queue `q` that concerns the agent and that queue. */
  ghost predicate TakeRel(g: Agent, a: nat, q: Where, v: LockQueue, b: AgentStep, g': Agent, v': LockQueue) {
    match b
    case TakeLock(p) => p == q && g == Idle && v.lock == None && g' == Taking(q, Locked) && v' == v.(lock := Some(a))
    case TakeChange(k) =>
      g == Taking(q, Locked) && k <= |v.elems| && g' == Taking(q, Changed) && v' == v.(elems := v.elems[k..])
    case TakeStore => g == Taking(q, Changed) && g' == Taking(q, Stored) && v' == v.(cached := |v.elems|)
    case TakeUnlock => g == Taking(q, Stored) && g' == Idle && v' == v.(lock := None)
    case _ => false
  }

  /** A take changes its agent, one queue, and which jobs are watched. */
  lemma TakeShape(s: State, a: nat, b: AgentStep, s': State) returns (q: Where, v': LockQueue)
    requires TakeNext(s, a, b, s')
    ensures IsLockable(s, q) && TakeRel(s.Agent(a), a, q, Queue(s, q), b, s'.Agent(a), v')
    ensures s' == s.(agents := s'.agents, shared := if q.Shared? then v' else s.shared,
                     inbox := if q.Inbox? then s.inbox[q.i := v'] else s.inbox, watch := s'.watch)
    ensures OnlyAgent(s, a, s')
  {
    hide Forget;
    match b
    case TakeLock(p) =>
      q := p;
      v' := Queue(s, p).(lock := Some(a));
    case TakeChange(k) =>
      q := s.Agent(a).q;
      v' := Queue(s, q).(elems := Queue(s, q).elems[k..]);
    case TakeStore =>
      q := s.Agent(a).q;
      v' := Queue(s, q).(cached := |Queue(s, q).elems|);
    case TakeUnlock =>
      q := s.Agent(a).q;
      v' := Queue(s, q).(lock := None);
  }

  lemma TakeFrame(s: State, a: nat, b: AgentStep, s': State)
    requires TakeNext(s, a, b, s')
    ensures FarFromSleep(s, a, s')
  {
    var q, v' := TakeShape(s, a, b, s');
    hide TakeNext;
  }

  lemma BatchFrame(s: State, a: nat, b: AgentStep, s': State)
    requires BatchNext(s, a, b, s')
    ensures FarFromSleep(s, a, s')
  {
  }

  /** Steps on queues leave the registration protocol alone. */
  lemma QueueFrame(s: State, a: nat, b: AgentStep, s': State)
    requires QueueNext(s, a, b, s')
    ensures FarFromSleep(s, a, s')
  {
    hide PushNext, LocalNext, TakeNext, BatchNext, FarFromSleep;
    if PushNext(s, a, b, s') {
      PushFrame(s, a, b, s');
    } else if LocalNext(s, a, b, s') {
      LocalFrame(s, a, b, s');
    } else if TakeNext(s, a, b, s') {
      TakeFrame(s, a, b, s');
    } else {
      BatchFrame(s, a, b, s');
    }
  }

  ghost predicate SleepNext(s: State, a: nat, b: AgentStep, s': State) {
    WakeNext(s, a, b, s') || SweepNext(s, a, b, s') || StopNext(s, b, s')
  }

  /** What every step of the registration protocol leaves alone. */
  ghost predicate FarFromQueues(s: State, a: nat, s': State) {
    && SameQueues(s, s') && OnlyAgent(s, a, s') && s'.worker == s.worker && |s'.token| == |s.token|
    && (s'.Agent(a) != s.Agent(a) ==> HoldsNothing(s.Agent(a)) && HoldsNothing(s'.Agent(a)))
  }

  lemma WakeFrame(s: State, a: nat, b: AgentStep, s': State)
    requires WakeNext(s, a, b, s')
    ensures FarFromQueues(s, a, s')
  {
  }

  lemma SweepFrame(s: State, a: nat, b: AgentStep, s': State)
    requires SweepNext(s, a, b, s')
    ensures FarFromQueues(s, a, s')
  {
  }

  lemma StopFrame(s: State, a: nat, b: AgentStep, s': State)
    requires StopNext(s, b, s')
    ensures FarFromQueues(s, a, s')
  {
  }

  /** Steps of the registration protocol leave the queues alone. */
  lemma SleepFrame(s: State, a: nat, b: AgentStep, s': State)
    requires SleepNext(s, a, b, s')
    ensures FarFromQueues(s, a, s')
  {
    hide WakeNext, SweepNext, StopNext, FarFromQueues;
    if WakeNext(s, a, b, s') {
      WakeFrame(s, a, b, s');
    } else if SweepNext(s, a, b, s') {
      SweepFrame(s, a, b, s');
    } else {
      StopFrame(s, a, b, s');
    }
  }

  ghost predicate Distinct(xs: seq<nat>) {
    forall x, y :: 0 <= x < y < |xs| ==> xs[x] != xs[y]
  }

  lemma RemoveAt(xs: seq<nat>, i: nat)
    requires Distinct(xs) && i < |xs|
    ensures Distinct(xs[..i] + xs[i + 1..])
    ensures forall v :: v in xs[..i] + xs[i + 1..] <==> v in xs && v != xs[i]
  {
    var ys := xs[..i] + xs[i + 1..];
    assert forall k :: 0 <= k < |ys| ==> ys[k] == if k < i then xs[k] else xs[k + 1];
    forall v | v in xs && v != xs[i]
      ensures v in ys
    {
      var k :| 0 <= k < |xs| && xs[k] == v;
      assert ys[if k < i then k else k - 1] == v;
    }
  }

  lemma {:induction false} WithoutAbsent(xs: seq<nat>, w: nat)
    requires w !in xs
    ensures Without(xs, w) == xs
  {
    if xs != [] {
      assert xs[0] in xs && xs == [xs[0]] + xs[1..];
      WithoutAbsent(xs[1..], w);
    }
  }

  lemma {:induction false} WithoutAt(xs: seq<nat>, w: nat, i: nat)
    requires Distinct(xs) && i < |xs| && xs[i] == w
    ensures Without(xs, w) == xs[..i] + xs[i + 1..]
  {
    if i == 0 {
      WithoutAbsent(xs[1..], w);
      assert xs[..0] + xs[0 + 1..] == xs[1..];
    } else {
      WithoutAt(xs[1..], w, i - 1);
      SkipFirst(xs, i);
    }
  }

  lemma SkipFirst(xs: seq<nat>, i: nat)
    requires 0 < i < |xs|
    ensures [xs[0]] + (xs[1..][..i - 1] + xs[1..][i - 1 + 1..]) == xs[..i] + xs[i + 1..]
  {
  }

  /** Withdrawing removes exactly the worker's registration. */
  lemma WithoutSpec(xs: seq<nat>, w: nat)
    requires Distinct(xs)
    ensures Distinct(Without(xs, w))
    ensures forall v :: v in Without(xs, w) <==> v in xs && v != w
  {
    hide Without, Distinct;
    if w in xs {
      var i :| 0 <= i < |xs| && xs[i] == w;
      WithoutAt(xs, w, i);
      RemoveAt(xs, i);
    } else {
      WithoutAbsent(xs, w);
    }
  }

  // The registration lock

  lemma RegistryByWorker(s: State, w: nat, b: WorkerStep, s': State)
    requires Shape(s) && RegistryLock(s) && WorkerNext(s, w, b, s')
    ensures Shape(s') && RegistryLock(s') && SameQueues(s, s') && SameAgents(s, s') && s'.watch == s.watch
  {
    WorkerMoves(s, w, b, s');
    hide WorkerNext, HoldsRegistry, AgentHoldsRegistry;
  }

  /** How a worker's step moves the registration lock. */
  lemma WorkerMoves(s: State, w: nat, b: WorkerStep, s': State)
    requires WorkerNext(s, w, b, s') && (HoldsRegistry(s.worker[w]) <==> s.slock == Some(ByWorker(w)))
    ensures w < |s'.worker| && s'.worker == s.worker[w := s'.worker[w]] && |s'.token| == |s.token|
    ensures SameQueues(s, s') && s'.agents == s.agents && s'.watch == s.watch
    ensures
      || (s'.slock == s.slock && (HoldsRegistry(s'.worker[w]) <==> HoldsRegistry(s.worker[w])))
      || (s.slock == None && s'.slock == Some(ByWorker(w)) && HoldsRegistry(s'.worker[w]))
      || (s.slock == Some(ByWorker(w)) && s'.slock == None && !HoldsRegistry(s'.worker[w]))
  {
    hide Finds, Without;
  }

  lemma RegistryByAgent(s: State, a: nat, b: AgentStep, s': State)
    requires Shape(s) && RegistryLock(s) && (QueueNext(s, a, b, s') || SleepNext(s, a, b, s'))
    ensures Shape(s') && RegistryLock(s')
  {
    hide QueueNext, SleepNext, RegistryLock, Shape;
    if QueueNext(s, a, b, s') {
      RegistryByQueue(s, a, b, s');
    } else {
      RegistryBySleep(s, a, b, s');
    }
  }

  lemma RegistryByQueue(s: State, a: nat, b: AgentStep, s': State)
    requires Shape(s) && RegistryLock(s) && QueueNext(s, a, b, s')
    ensures Shape(s') && RegistryLock(s')
  {
    QueueFrame(s, a, b, s');
    hide QueueNext;
    assert forall c: nat :: AgentHoldsRegistry(s'.Agent(c)) <==> AgentHoldsRegistry(s.Agent(c));
  }

  lemma RegistryBySleep(s: State, a: nat, b: AgentStep, s': State)
    requires Shape(s) && RegistryLock(s) && SleepNext(s, a, b, s')
    ensures Shape(s') && RegistryLock(s')
  {
    SleepFrame(s, a, b, s');
    LockMoves(s, a, b, s');
    hide SleepNext, AgentHoldsRegistry, HoldsRegistry;
  }

  /** How a registration step of an agent moves the lock. */
  lemma LockMoves(s: State, a: nat, b: AgentStep, s': State)
    requires RegistryLock(s) && SleepNext(s, a, b, s')
    ensures
      || (s'.slock == s.slock && (AgentHoldsRegistry(s'.Agent(a)) <==> AgentHoldsRegistry(s.Agent(a))))
      || (s.slock == None && s'.slock == Some(ByAgent(a)) && AgentHoldsRegistry(s'.Agent(a)))
      || (s.slock == Some(ByAgent(a)) && s'.slock == None && !AgentHoldsRegistry(s'.Agent(a)))
  {
    assert AgentHoldsRegistry(s.Agent(a)) <==> s.slock == Some(ByAgent(a));
    hide RegistryLock;
  }

  // Registrations

  lemma SleepersByWorker(s: State, w: nat, b: WorkerStep, s': State)
    requires Shape(s) && RegistryLock(s) && Sleepers(s) && WorkerNext(s, w, b, s')
    ensures Sleepers(s')
  {
    RegistryByWorker(s, w, b, s');
    RegisteredByWorker(s, w, b, s');
    hide WorkerNext, Registered, RegistryLock;
    assert |s'.worker| == |s.worker|;
  }

  lemma RegisteredByWorker(s: State, w: nat, b: WorkerStep, s': State)
    requires Registered(s.sleepers, s.worker) && WorkerNext(s, w, b, s')
    ensures Registered(s'.sleepers, s'.worker) && |s'.worker| == |s.worker|
  {
    if b == Register {
      RegisteredAdd(s.sleepers, s.worker, w);
    } else if b == Withdraw {
      RegisteredWithdraw(s.sleepers, s.worker, w);
    } else {
      var pc := s'.worker[w];
      assert s'.sleepers == s.sleepers && s'.worker == s.worker[w := pc] && (MayBeListed(s.worker[w]) ==> MayBeListed(pc))
        && pc != Listed by {
        hide Finds, Without, Registered;
      }
      hide WorkerNext, Distinct, MayBeListed;
    }
  }

  lemma RegisteredAdd(xs: seq<nat>, ws: seq<Worker>, w: nat)
    requires Registered(xs, ws) && w < |ws| && ws[w].Scan?
    ensures Registered(xs + [w], ws[w := Listed])
  {
    assert w !in xs;
  }

  lemma RegisteredWithdraw(xs: seq<nat>, ws: seq<Worker>, w: nat)
    requires Registered(xs, ws) && w < |ws| && ws[w] == Purge
    ensures Registered(Without(xs, w), ws[w := Leave])
  {
    WithoutSpec(xs, w);
    hide Distinct, Without;
  }

  lemma SleepersByAgent(s: State, a: nat, b: AgentStep, s': State)
    requires Shape(s) && RegistryLock(s) && Sleepers(s) && (QueueNext(s, a, b, s') || SleepNext(s, a, b, s'))
    ensures Sleepers(s')
  {
    hide QueueNext, SleepNext, RegistryLock, Registered;
    if QueueNext(s, a, b, s') {
      QueueFrame(s, a, b, s');
    } else {
      SleepFrame(s, a, b, s');
      RegisteredBySleep(s, a, b, s');
      OwedBySleep(s, a, b, s');
      hide OwesOnly;
    }
  }

  lemma OwedBySleep(s: State, a: nat, b: AgentStep, s': State)
    requires Sleepers(s) && SleepNext(s, a, b, s') && OnlyAgent(s, a, s')
    ensures forall c: nat :: OwesOnly(s'.Agent(c), |s.worker|)
  {
    assert OwesOnly(s.Agent(a), |s.worker|);
    if s.sleepers != [] {
      assert s.sleepers[0] in s.sleepers;
    }
    assert OwesOnly(s'.Agent(a), |s.worker|) by {
      hide Distinct;
    }
    hide SleepNext, Registered;
    forall c: nat
      ensures OwesOnly(s'.Agent(c), |s.worker|)
    {
      assert OwesOnly(s.Agent(c), |s.worker|);
    }
  }

  /** A registration step removes at most one registration, and only under the lock. */
  lemma Consumed(s: State, a: nat, b: AgentStep, s': State) returns (i: nat)
    requires SleepNext(s, a, b, s')
    ensures i <= |s.sleepers|
    ensures i < |s.sleepers| ==>
      && AgentHoldsRegistry(s.Agent(a)) && s'.sleepers == s.sleepers[..i] + s.sleepers[i + 1..]
      && (s.Agent(a).WakeHold? || (s.Agent(a) == Sweep(i, true) && s'.Agent(a) == Sweep(i, false)))
    ensures i == |s.sleepers| ==> s'.sleepers == s.sleepers
  {
    i := |s.sleepers|;
    if b == WakePop && s.sleepers != [] {
      i := 0;
      assert s.sleepers[..0] + s.sleepers[0 + 1..] == s.sleepers[1..];
    } else if b == SweepUnpark && s'.sleepers != s.sleepers {
      i := s.Agent(a).p;
    }
  }

  /** Whoever consumes a registration holds the lock, so no worker is just registering. */
  lemma RegisteredBySleep(s: State, a: nat, b: AgentStep, s': State)
    requires RegistryLock(s) && Sleepers(s) && SleepNext(s, a, b, s') && s'.worker == s.worker
    ensures Registered(s'.sleepers, s'.worker)
  {
    var i := Consumed(s, a, b, s');
    hide SleepNext, Registered;
    if i < |s.sleepers| {
      NobodyListed(s, a);
      RegisteredRemove(s.sleepers, s.worker, i);
    }
  }

  lemma RegisteredRemove(xs: seq<nat>, ws: seq<Worker>, i: nat)
    requires Registered(xs, ws) && i < |xs|
    requires forall w :: 0 <= w < |ws| ==> ws[w] != Listed
    ensures Registered(xs[..i] + xs[i + 1..], ws)
  {
    RemoveAt(xs, i);
    hide Distinct, MayBeListed;
    var ys := xs[..i] + xs[i + 1..];
    forall w | w in ys
      ensures w < |ws| && MayBeListed(ws[w])
    {
      assert w in xs;
    }
  }

  lemma NobodyListed(s: State, a: nat)
    requires RegistryLock(s) && AgentHoldsRegistry(s.Agent(a))
    ensures forall w :: 0 <= w < |s.worker| ==> s.worker[w] != Listed && !s.worker[w].Scan?
  {
  }

  // Parked workers

  lemma ParkingByWorker(s: State, w: nat, b: WorkerStep, s': State)
    requires Shape(s) && RegistryLock(s) && Sleepers(s) && Parking(s) && WorkerNext(s, w, b, s')
    ensures Parking(s')
  {
    RegistryByWorker(s, w, b, s');
    forall v | 0 <= v < |s'.worker| && (s'.worker[v] == ToPark || s'.worker[v] == Parked)
      ensures v in s'.sleepers || s'.token[v] || exists c: nat :: InFlight(s'.Agent(c), v)
    {
      ParkingOneWorker(s, w, b, s', v);
      hide *;
    }
  }

  lemma ParkingOneWorker(s: State, w: nat, b: WorkerStep, s': State, v: nat)
    requires Shape(s) && Sleepers(s) && Parking(s) && WorkerNext(s, w, b, s') && Shape(s') && SameAgents(s, s')
    requires v < |s'.worker| && (s'.worker[v] == ToPark || s'.worker[v] == Parked)
    ensures v in s'.sleepers || s'.token[v] || exists c: nat :: InFlight(s'.Agent(c), v)
  {
    WithoutSpec(s.sleepers, w);
    hide Finds, Without, Distinct;
    if b == Unlist && v == w {
      assert v in s.sleepers;
    } else if v !in s.sleepers && !s.token[v] {
      var c: nat :| InFlight(s.Agent(c), v);
      assert InFlight(s'.Agent(c), v);
    }
  }

  lemma ParkingByQueue(s: State, a: nat, b: AgentStep, s': State)
    requires Shape(s) && Parking(s) && QueueNext(s, a, b, s')
    ensures Parking(s')
  {
    QueueFrame(s, a, b, s');
    hide QueueNext;
    forall v | 0 <= v < |s'.worker| && (s'.worker[v] == ToPark || s'.worker[v] == Parked)
      ensures v in s'.sleepers || s'.token[v] || exists c: nat :: InFlight(s'.Agent(c), v)
    {
      if v !in s.sleepers && !s.token[v] {
        var c: nat :| InFlight(s.Agent(c), v);
        assert InFlight(s'.Agent(c), v);
      }
    }
  }

  lemma ParkingBySleep(s: State, a: nat, b: AgentStep, s': State)
    requires Shape(s) && Sleepers(s) && Parking(s) && SleepNext(s, a, b, s')
    ensures Parking(s')
  {
    SleepFrame(s, a, b, s');
    forall v | 0 <= v < |s'.worker| && (s'.worker[v] == ToPark || s'.worker[v] == Parked)
      ensures v in s'.sleepers || s'.token[v] || exists c: nat :: InFlight(s'.Agent(c), v)
    {
      ParkingOneSleep(s, a, b, s', v);
      hide *;
    }
  }

  lemma ParkingOneSleep(s: State, a: nat, b: AgentStep, s': State, v: nat)
    requires Shape(s) && Sleepers(s) && Parking(s) && SleepNext(s, a, b, s') && s'.worker == s.worker
    requires OnlyAgent(s, a, s')
    requires v < |s.worker| && (s.worker[v] == ToPark || s.worker[v] == Parked) && |s'.token| == |s.token|
    ensures v in s'.sleepers || s'.token[v] || exists c: nat :: InFlight(s'.Agent(c), v)
  {
    Deliveries(s, a, b, s', v);
    hide SleepNext, Sleepers, Distinct, InFlight;
    if v !in s.sleepers && !s.token[v] {
      var c: nat :| InFlight(s.Agent(c), v);
      assert c == a || InFlight(s'.Agent(c), v);
    }
  }

  /** A consumed registration turns into an unpark on its way or a token; unparks turn into tokens, which stay. */
  lemma Deliveries(s: State, a: nat, b: AgentStep, s': State, v: nat)
    requires SleepNext(s, a, b, s') && v < |s.token| == |s'.token|
    ensures s.token[v] ==> s'.token[v]
    ensures InFlight(s.Agent(a), v) ==> InFlight(s'.Agent(a), v) || s'.token[v]
    ensures v in s.sleepers && v !in s'.sleepers ==> InFlight(s'.Agent(a), v) || s'.token[v]
  {
    hide WakeNext, SweepNext, StopNext;
    if WakeNext(s, a, b, s') {
      WakeDelivers(s, a, b, s', v);
    } else if SweepNext(s, a, b, s') {
      SweepDelivers(s, a, b, s', v);
    } else {
      StopDelivers(s, a, b, s', v);
    }
  }

  lemma WakeDelivers(s: State, a: nat, b: AgentStep, s': State, v: nat)
    requires WakeNext(s, a, b, s') && v < |s.token| == |s'.token|
    ensures s.token[v] ==> s'.token[v]
    ensures InFlight(s.Agent(a), v) ==> InFlight(s'.Agent(a), v) || s'.token[v]
    ensures v in s.sleepers && v !in s'.sleepers ==> InFlight(s'.Agent(a), v) || s'.token[v]
  {
    if b == WakePop && s.sleepers != [] {
      assert s.sleepers == [s.sleepers[0]] + s.sleepers[1..];
    }
  }

  lemma SweepDelivers(s: State, a: nat, b: AgentStep, s': State, v: nat)
    requires SweepNext(s, a, b, s') && v < |s.token| == |s'.token|
    ensures s.token[v] ==> s'.token[v]
    ensures !InFlight(s.Agent(a), v)
    ensures v in s.sleepers && v !in s'.sleepers ==> s'.token[v]
  {
    if b == SweepUnpark && s.Agent(a).Sweep? {
      var p := s.Agent(a).p;
      assert s.sleepers == s.sleepers[..p] + [s.sleepers[p]] + s.sleepers[p + 1..];
    }
  }

  lemma StopDelivers(s: State, a: nat, b: AgentStep, s': State, v: nat)
    requires StopNext(s, b, s') && v < |s.token| == |s'.token|
    ensures s.token[v] ==> s'.token[v]
    ensures s'.Agent(a) == s.Agent(a) && s'.sleepers == s.sleepers
  {
  }

  // Shutdown

  lemma ToldByWorker(s: State, w: nat, b: WorkerStep, s': State)
    requires Shape(s) && Told(s) && WorkerNext(s, w, b, s')
    ensures Told(s')
  {
    hide Without;
  }

  lemma ToldByAgent(s: State, a: nat, b: AgentStep, s': State)
    requires Shape(s) && Told(s) && (QueueNext(s, a, b, s') || SleepNext(s, a, b, s'))
    ensures Told(s')
  {
    if QueueNext(s, a, b, s') {
      QueueFrame(s, a, b, s');
      hide QueueNext, SleepNext;
    } else if WakeNext(s, a, b, s') {
      hide QueueNext, SweepNext, StopNext;
    } else if SweepNext(s, a, b, s') {
      hide QueueNext, WakeNext, StopNext;
    } else {
      hide QueueNext, WakeNext, SweepNext;
    }
  }

  lemma DepartedByWorker(s: State, w: nat, b: WorkerStep, s': State)
    requires Departed(s) && WorkerNext(s, w, b, s')
    ensures Departed(s')
  {
    hide Finds, Without;
  }

  lemma DepartedByAgent(s: State, a: nat, b: AgentStep, s': State)
    requires Departed(s) && (QueueNext(s, a, b, s') || SleepNext(s, a, b, s'))
    ensures Departed(s')
  {
    hide QueueNext, WakeNext, SweepNext, StopNext;
    if QueueNext(s, a, b, s') {
      QueueFrame(s, a, b, s');
    } else {
      SleepFrame(s, a, b, s');
      RunningFalls(s, a, b, s');
    }
  }

  lemma RunningFalls(s: State, a: nat, b: AgentStep, s': State)
    requires SleepNext(s, a, b, s')
    ensures s'.running ==> s.running
  {
  }

  // Queues and their locks

  /** A queue that only `a` may touch looks the same to everybody else. */
  lemma SharedToOthers(g: Agent, c: nat, a: nat, v: LockQueue, v': LockQueue)
    requires c != a && SharedView(g, c, v)
    requires v.lock in {None, Some(a)} && v'.lock in {None, Some(a)}
    ensures SharedView(g, c, v')
  {
  }

  lemma InboxToOthers(g: Agent, c: nat, a: nat, i: nat, v: LockQueue, v': LockQueue)
    requires c != a && InboxView(g, c, i, v)
    requires v.lock in {None, Some(a)} && v'.lock in {None, Some(a)}
    ensures InboxView(g, c, i, v')
  {
  }

  lemma QueuesFrame(s: State, s': State)
    requires Queues(s) && s'.shared == s.shared && s'.inbox == s.inbox
    requires forall c: nat :: s'.Agent(c) == s.Agent(c) || (HoldsNothing(s.Agent(c)) && HoldsNothing(s'.Agent(c)))
    ensures Queues(s')
  {
    forall c: nat
      ensures SharedView(s'.Agent(c), c, s'.shared) && AgentOk(s'.Agent(c), |s'.inbox|)
    {
      assert SharedView(s.Agent(c), c, s.shared) && AgentOk(s.Agent(c), |s.inbox|);
      hide QueueOk;
    }
    forall c: nat, i: nat | i < |s'.inbox|
      ensures InboxView(s'.Agent(c), c, i, s'.inbox[i])
    {
      assert InboxView(s.Agent(c), c, i, s.inbox[i]);
      hide QueueOk;
    }
    hide SharedView, AgentOk, InboxView;
  }

  /** The queue did not change, or only its actual or future holder `a` changed it. */
  predicate MineOnly(v: LockQueue, v': LockQueue, a: nat) {
    v' == v || (v.lock in {None, Some(a)} && v'.lock in {None, Some(a)})
  }

  /** What the invariant says about one agent. */
  ghost predicate Views(s: State, a: nat) {
    && QueueOk(s.shared) && SharedView(s.Agent(a), a, s.shared) && AgentOk(s.Agent(a), |s.inbox|)
    && (forall i: nat :: i < |s.inbox| ==> QueueOk(s.inbox[i]) && InboxView(s.Agent(a), a, i, s.inbox[i]))
  }

  ghost predicate OwnQueuesOnly(s: State, a: nat, s': State) {
    && MineOnly(s.shared, s'.shared, a) && |s'.inbox| == |s.inbox|
    && forall i :: 0 <= i < |s.inbox| ==> MineOnly(s.inbox[i], s'.inbox[i], a)
  }

  lemma ViewsOf(s: State, a: nat)
    requires Queues(s)
    ensures Views(s, a)
  {
    hide QueueOk, SharedView, InboxView, AgentOk;
  }

  /** The invariant follows from the acting agent's own view, if it touched only queues it holds. */
  lemma QueuesFromActor(s: State, a: nat, s': State)
    requires Queues(s) && OnlyAgent(s, a, s') && Views(s', a) && OwnQueuesOnly(s, a, s')
    ensures Queues(s')
  {
    hide SharedView, InboxView, AgentOk, QueueOk;
    forall c: nat
      ensures SharedView(s'.Agent(c), c, s'.shared) && AgentOk(s'.Agent(c), |s'.inbox|)
    {
      if c != a {
        assert SharedView(s.Agent(c), c, s.shared) && AgentOk(s.Agent(c), |s.inbox|);
        if s'.shared != s.shared {
          SharedToOthers(s.Agent(c), c, a, s.shared, s'.shared);
        }
      }
    }
    forall c: nat, i: nat | i < |s'.inbox|
      ensures InboxView(s'.Agent(c), c, i, s'.inbox[i])
    {
      if c != a {
        assert InboxView(s.Agent(c), c, i, s.inbox[i]);
        assert MineOnly(s.inbox[i], s'.inbox[i], a);
        if s'.inbox[i] != s.inbox[i] {
          InboxToOthers(s.Agent(c), c, a, i, s.inbox[i], s'.inbox[i]);
        }
      }
    }
  }

  lemma PushViews(s: State, a: nat, b: AgentStep, s': State)
    requires Views(s, a) && PushNext(s, a, b, s')
    ensures Views(s', a) && OwnQueuesOnly(s, a, s')
  {
  }

  lemma TakeViews(s: State, a: nat, b: AgentStep, s': State)
    requires Views(s, a) && TakeNext(s, a, b, s')
    ensures Views(s', a) && OwnQueuesOnly(s, a, s')
  {
    TakeFrame(s, a, b, s');
    TakeSharedView(s, a, b, s');
    forall i: nat | i < |s.inbox|
      ensures QueueOk(s'.inbox[i]) && InboxView(s'.Agent(a), a, i, s'.inbox[i])
      ensures MineOnly(s.inbox[i], s'.inbox[i], a)
    {
      TakeInboxView(s, a, b, s', i);
      hide *;
    }
    hide TakeNext, QueueOk, InboxView, SharedView, AgentOk, MineOnly;
  }

  lemma TakeSharedView(s: State, a: nat, b: AgentStep, s': State)
    requires QueueOk(s.shared) && SharedView(s.Agent(a), a, s.shared) && AgentOk(s.Agent(a), |s.inbox|)
    requires TakeNext(s, a, b, s')
    ensures QueueOk(s'.shared) && SharedView(s'.Agent(a), a, s'.shared) && AgentOk(s'.Agent(a), |s'.inbox|)
    ensures MineOnly(s.shared, s'.shared, a)
  {
    var q, v' := TakeShape(s, a, b, s');
    hide TakeNext;
  }

  lemma TakeInboxView(s: State, a: nat, b: AgentStep, s': State, i: nat)
    requires i < |s.inbox| == |s'.inbox| && QueueOk(s.inbox[i]) && InboxView(s.Agent(a), a, i, s.inbox[i])
    requires TakeNext(s, a, b, s')
    ensures QueueOk(s'.inbox[i]) && InboxView(s'.Agent(a), a, i, s'.inbox[i])
    ensures MineOnly(s.inbox[i], s'.inbox[i], a)
  {
    var q, v' := TakeShape(s, a, b, s');
    hide TakeNext;
  }

  lemma BatchViews(s: State, a: nat, b: AgentStep, s': State)
    requires s.inbox != [] && Views(s, a) && BatchNext(s, a, b, s')
    ensures Views(s', a) && OwnQueuesOnly(s, a, s')
  {
    forall i: nat | i < |s.inbox|
      ensures QueueOk(s'.inbox[i]) && InboxView(s'.Agent(a), a, i, s'.inbox[i])
      ensures MineOnly(s.inbox[i], s'.inbox[i], a)
    {
      assert QueueOk(s.inbox[i]) && InboxView(s.Agent(a), a, i, s.inbox[i]);
    }
  }

  lemma QueuesByQueue(s: State, a: nat, b: AgentStep, s': State)
    requires s.inbox != [] && Queues(s) && QueueNext(s, a, b, s')
    ensures Queues(s')
  {
    hide PushNext, TakeNext, BatchNext, LocalNext, Queues, Views, OwnQueuesOnly;
    QueueFrame(s, a, b, s');
    ViewsOf(s, a);
    if PushNext(s, a, b, s') {
      PushViews(s, a, b, s');
      QueuesFromActor(s, a, s');
    } else if TakeNext(s, a, b, s') {
      TakeViews(s, a, b, s');
      QueuesFromActor(s, a, s');
    } else if BatchNext(s, a, b, s') {
      BatchViews(s, a, b, s');
      QueuesFromActor(s, a, s');
    } else {
      QueuesByLocal(s, a, b, s');
    }
  }

  lemma QueuesByLocal(s: State, a: nat, b: AgentStep, s': State)
    requires Queues(s) && LocalNext(s, a, b, s')
    ensures Queues(s')
  {
    LocalFrame(s, a, b, s');
    hide Queues, Forget;
    assert s'.Agent(a) == s.Agent(a) || (HoldsNothing(s.Agent(a)) && HoldsNothing(s'.Agent(a)));
    QueuesFrame(s, s');
  }

  // Watched jobs

  /** A present job is visible to the check that looks at its queue. */
  lemma PresentIsFound(s: State, j: Job, q: Where)
    requires Shape(s) && QueueOk(s.shared) && Present(s, j, q)
    ensures 0 < Pos(q) < s.Ready() && Finds(s, Pos(q))
  {
  }

  lemma AlertByWorker(s: State, w: nat, b: WorkerStep, s': State, j: Job, q: Where, v: nat)
    requires Shape(s) && QueueOk(s.shared) && Distinct(s.sleepers) && WorkerNext(s, w, b, s')
    requires Present(s, j, q) && Alert(s, v, q)
    ensures Alert(s', v, q)
  {
    PresentIsFound(s, j, q);
    WithoutSpec(s.sleepers, w);
    hide Present, Finds, Without, QueueOk, Distinct;
  }

  lemma WatchedByWorker(s: State, w: nat, b: WorkerStep, s': State)
    requires Shape(s) && RegistryLock(s) && Sleepers(s) && Queues(s) && Watched(s) && WorkerNext(s, w, b, s')
    ensures Watched(s')
  {
    RegistryByWorker(s, w, b, s');
    forall j | j in s'.watch
      ensures WatchOk(s', j, s'.watch[j])
    {
      var wt := s.watch[j];
      assert WatchOk(s, j, wt);
      assert Present(s', j, wt.at);
      if wt.passed {
        var v: nat :| Alert(s, v, wt.at);
        AlertByWorker(s, w, b, s', j, wt.at, v);
      } else {
        var c: nat :| MidWake(s.Agent(c), j);
        assert MidWake(s'.Agent(c), j);
      }
      hide *;
    }
  }

  /** Carries a watched job over a queue step that keeps it in place. */
  lemma WatchKept(s: State, a: nat, s': State, j: Job, wt: Watch)
    requires WatchOk(s, j, wt) && Present(s', j, wt.at) && FarFromSleep(s, a, s') && !MidWake(s.Agent(a), j)
    ensures WatchOk(s', j, wt)
  {
    hide Present;
    if wt.passed {
      var v: nat :| Alert(s, v, wt.at);
      assert Alert(s', v, wt.at);
    } else {
      var c: nat :| MidWake(s.Agent(c), j);
      assert MidWake(s'.Agent(c), j);
    }
  }

  lemma PresentByPush(s: State, a: nat, b: AgentStep, s': State, j: Job, q: Where)
    requires SharedView(s.Agent(a), a, s.shared) && QueueOk(s.shared) && PushNext(s, a, b, s') && Present(s, j, q)
    ensures Present(s', j, q)
  {
    if b == PushChange {
      assert s'.shared.elems[..|s.shared.elems|] == s.shared.elems[..|s.shared.elems|];
    }
  }

  lemma WatchedByPush(s: State, a: nat, b: AgentStep, s': State)
    requires Queues(s) && Watched(s) && PushNext(s, a, b, s')
    ensures Watched(s')
  {
    PushFrame(s, a, b, s');
    ViewsOf(s, a);
    assert !s.Agent(a).WakeWant? && !s.Agent(a).WakeHold?;
    forall j | j in s'.watch
      ensures WatchOk(s', j, s'.watch[j])
    {
      if j in s.watch {
        assert WatchOk(s, j, s.watch[j]);
        PresentByPush(s, a, b, s', j, s.watch[j].at);
        WatchKept(s, a, s', j, s.watch[j]);
      } else {
        assert j == s.Agent(a).j && MidWake(s'.Agent(a), j);
        assert s.shared.elems[|s.shared.elems| - 1] == j;
      }
      hide FarFromSleep, Queues;
    }
  }

  lemma PresentByLocal(s: State, a: nat, b: AgentStep, s': State, j: Job, q: Where)
    requires LocalNext(s, a, b, s') && Present(s, j, q) && j in s.watch && j in s'.watch
    ensures Present(s', j, q)
  {
    if b.ClaimLocal? {
      var xs := s.local[b.i];
      assert xs == xs[..b.lo] + xs[b.lo..b.hi] + xs[b.hi..];
    }
  }

  lemma WatchedByLocal(s: State, a: nat, b: AgentStep, s': State)
    requires Watched(s) && LocalNext(s, a, b, s')
    ensures Watched(s')
  {
    LocalFrame(s, a, b, s');
    forall j | j in s'.watch
      ensures WatchOk(s', j, s'.watch[j])
    {
      if j in s.watch {
        assert WatchOk(s, j, s.watch[j]) && s'.watch[j] == s.watch[j];
        PresentByLocal(s, a, b, s', j, s.watch[j].at);
        LocalKept(s, a, b, s', j, s.watch[j]);
      } else {
        assert MidWake(s'.Agent(a), j);
      }
      hide FarFromSleep, Forget;
    }
  }

  lemma LocalKept(s: State, a: nat, b: AgentStep, s': State, j: Job, wt: Watch)
    requires WatchOk(s, j, wt) && Present(s', j, wt.at) && LocalNext(s, a, b, s')
    ensures WatchOk(s', j, wt)
  {
    LocalFrame(s, a, b, s');
    hide Present, Forget;
    if wt.passed {
      var v: nat :| Alert(s, v, wt.at);
      assert Alert(s', v, wt.at);
    } else {
      var c: nat :| MidWake(s.Agent(c), j);
      assert MidWake(s'.Agent(c), j);
    }
  }

  lemma PresentByTake(s: State, a: nat, b: AgentStep, s': State, j: Job, q: Where)
    requires SharedView(s.Agent(a), a, s.shared) && QueueOk(s.shared) && TakeNext(s, a, b, s') && Present(s, j, q)
    requires j in s.watch && j in s'.watch
    ensures Present(s', j, q)
  {
    if b.TakeChange? && s.Agent(a).q == Shared {
      var xs := s.shared.elems;
      assert xs[..|xs| - 0] == xs == xs[..b.k] + xs[b.k..];
      assert xs[b.k..][..|xs| - b.k - 0] == xs[b.k..];
    }
  }

  lemma WatchedByTake(s: State, a: nat, b: AgentStep, s': State)
    requires Queues(s) && Watched(s) && TakeNext(s, a, b, s')
    ensures Watched(s')
  {
    TakeFrame(s, a, b, s');
    ViewsOf(s, a);
    assert !s.Agent(a).WakeWant? && !s.Agent(a).WakeHold?;
    forall j | j in s'.watch
      ensures WatchOk(s', j, s'.watch[j])
    {
      assert j in s.watch && WatchOk(s, j, s.watch[j]) && s'.watch[j] == s.watch[j];
      PresentByTake(s, a, b, s', j, s.watch[j].at);
      WatchKept(s, a, s', j, s.watch[j]);
      hide *;
    }
  }

  lemma WatchedByBatch(s: State, a: nat, b: AgentStep, s': State)
    requires Watched(s) && BatchNext(s, a, b, s')
    ensures Watched(s')
  {
    BatchFrame(s, a, b, s');
    assert !s.Agent(a).WakeWant? && !s.Agent(a).WakeHold?;
    assert s'.watch == s.watch && s'.shared == s.shared && s'.local == s.local;
    forall j | j in s'.watch
      ensures WatchOk(s', j, s'.watch[j])
    {
      assert WatchOk(s, j, s.watch[j]) && Present(s', j, s.watch[j].at);
      WatchKept(s, a, s', j, s.watch[j]);
      hide *;
    }
  }

  /** Consuming a registration under the lock leaves its worker alert; with none left, every worker is. */
  lemma PopLeavesAlert(s: State, a: nat, s': State, q: Where)
    requires Shape(s) && RegistryLock(s) && Sleepers(s) && WakeNext(s, a, WakePop, s')
    ensures exists w: nat :: Alert(s', w, q)
  {
    NobodyListed(s, a);
    if s.sleepers == [] {
      assert Alert(s', 0, q);
    } else {
      var w := s.sleepers[0];
      assert w in s.sleepers;
      assert w !in s.sleepers[1..];
      assert Alert(s', w, q);
    }
  }

  lemma WatchedBySleep(s: State, a: nat, b: AgentStep, s': State)
    requires Shape(s) && RegistryLock(s) && Sleepers(s) && Watched(s) && SleepNext(s, a, b, s')
    ensures Watched(s')
  {
    SleepFrame(s, a, b, s');
    forall j | j in s'.watch
      ensures WatchOk(s', j, s'.watch[j])
    {
      WatchOneSleep(s, a, b, s', j);
      hide *;
    }
  }

  lemma WatchOneSleep(s: State, a: nat, b: AgentStep, s': State, j: Job)
    requires Shape(s) && RegistryLock(s) && Sleepers(s) && Watched(s) && SleepNext(s, a, b, s') && j in s'.watch
    requires SameQueues(s, s') && OnlyAgent(s, a, s') && s'.worker == s.worker
    ensures WatchOk(s', j, s'.watch[j])
  {
    WatchMoves(s, a, b, s', j);
    hide SleepNext, WakeNext, SweepNext, StopNext;
    var wt, wt' := s.watch[j], s'.watch[j];
    assert WatchOk(s, j, wt);
    assert Present(s', j, wt.at);
    if wt.passed {
      AlertStays(s, a, b, s', wt.at);
    } else if wt'.passed {
      PopLeavesAlert(s, a, s', wt.at);
    } else {
      hide RegistryLock, Sleepers, Present;
      var c: nat :| MidWake(s.Agent(c), j);
      assert c != a || MidWake(s'.Agent(a), j);
      assert MidWake(s'.Agent(c), j);
    }
  }

  lemma AlertStays(s: State, a: nat, b: AgentStep, s': State, q: Where)
    requires SleepNext(s, a, b, s') && s'.worker == s.worker && exists v: nat :: Alert(s, v, q)
    ensures exists v: nat :: Alert(s', v, q)
  {
    var v: nat :| Alert(s, v, q);
    var i := Consumed(s, a, b, s');
    hide SleepNext;
    assert v !in s'.sleepers;
    assert Alert(s', v, q);
  }

  /** A watched job's wake counts as passed from its registration pop on, and until then stays under way. */
  lemma WatchMoves(s: State, a: nat, b: AgentStep, s': State, j: Job)
    requires SleepNext(s, a, b, s') && j in s'.watch
    ensures j in s.watch && s'.watch[j].at == s.watch[j].at && (s.watch[j].passed ==> s'.watch[j].passed)
    ensures s'.watch[j].passed && !s.watch[j].passed ==> b == WakePop && WakeNext(s, a, WakePop, s')
    ensures MidWake(s.Agent(a), j) && !s'.watch[j].passed ==> MidWake(s'.Agent(a), j)
  {
    hide WakeNext, SweepNext, StopNext;
    if WakeNext(s, a, b, s') {
      WakeMoves(s, a, b, s', j);
    } else if SweepNext(s, a, b, s') {
      SweepMoves(s, a, b, s');
    } else {
      StopMoves(s, a, b, s');
    }
  }

  lemma WakeMoves(s: State, a: nat, b: AgentStep, s': State, j: Job)
    requires WakeNext(s, a, b, s') && j in s'.watch
    ensures j in s.watch && s'.watch[j].at == s.watch[j].at && (s.watch[j].passed ==> s'.watch[j].passed)
    ensures s'.watch[j].passed && !s.watch[j].passed ==> b == WakePop
    ensures MidWake(s.Agent(a), j) && !s'.watch[j].passed ==> MidWake(s'.Agent(a), j)
  {
  }

  lemma SweepMoves(s: State, a: nat, b: AgentStep, s': State)
    requires SweepNext(s, a, b, s')
    ensures s'.watch == s.watch && !s.Agent(a).WakeWant? && !s.Agent(a).WakeHold?
  {
  }

  lemma StopMoves(s: State, a: nat, b: AgentStep, s': State)
    requires StopNext(s, b, s')
    ensures s'.watch == s.watch && s'.Agent(a) == s.Agent(a)
  {
  }

  // Inboxes of registered workers

  /** Only the lock holder sweeps, so for every other agent the place of a registration is irrelevant. */
  lemma CoverMoves(s: State, s': State, w: nat, x: nat, y: nat)
    requires RegistryLock(s) && SameAgents(s, s') && Covered(s, w, x)
    requires forall a: nat :: s.slock != Some(ByAgent(a))
    ensures Covered(s', w, y)
  {
    var c: nat :| Pending(s.Agent(c), w, x);
    assert !AgentHoldsRegistry(s.Agent(c));
    assert Pending(s'.Agent(c), w, y);
  }

  lemma CoverStays(s: State, s': State, w: nat, x: nat)
    requires Covered(s, w, x) && SameAgents(s, s')
    ensures Covered(s', w, x)
  {
    var c: nat :| Pending(s.Agent(c), w, x);
    assert Pending(s'.Agent(c), w, x);
  }

  /** Registration `x` of `s'` was registration `y` of `s`. */
  lemma Origin(xs: seq<nat>, w: nat, x: nat) returns (y: nat)
    requires Distinct(xs) && x < |Without(xs, w)|
    ensures y < |xs| && xs[y] == Without(xs, w)[x]
  {
    WithoutSpec(xs, w);
    assert Without(xs, w)[x] in Without(xs, w);
    y :| y < |xs| && xs[y] == Without(xs, w)[x];
  }

  lemma InboxesByWorker(s: State, w: nat, b: WorkerStep, s': State)
    requires Shape(s) && RegistryLock(s) && Sleepers(s) && Inboxes(s) && WorkerNext(s, w, b, s')
    ensures Inboxes(s')
  {
    RegistryByWorker(s, w, b, s');
    forall x: nat | x < |s'.sleepers| && s'.sleepers[x] < |s'.inbox| && s'.inbox[s'.sleepers[x]].cached != 0
      ensures Covered(s', s'.sleepers[x], x)
    {
      RegisteredCovered(s, w, b, s', x);
      hide *;
    }
    forall v: nat | v < |s'.worker| && PastInbox(s', v)
      ensures Covered(s', v, |s'.sleepers|)
    {
      ScanCovered(s, w, b, s', v);
      hide *;
    }
    hide *;
  }

  lemma RegisteredCovered(s: State, w: nat, b: WorkerStep, s': State, x: nat)
    requires Shape(s) && RegistryLock(s) && Sleepers(s) && Inboxes(s) && WorkerNext(s, w, b, s')
    requires SameQueues(s, s') && SameAgents(s, s')
    requires x < |s'.sleepers| && s'.sleepers[x] < |s'.inbox| && s'.inbox[s'.sleepers[x]].cached != 0
    ensures Covered(s', s'.sleepers[x], x)
  {
    hide Finds, Without, Covered;
    if b == Withdraw {
      assert s.slock == Some(ByWorker(w));
      var y := Origin(s.sleepers, w, x);
      CoverMoves(s, s', s.sleepers[y], y, x);
    } else if b == Register && x == |s.sleepers| {
      assert PastInbox(s, w);
      CoverStays(s, s', w, x);
    } else {
      assert s'.sleepers[x] == s.sleepers[x];
      CoverStays(s, s', s.sleepers[x], x);
    }
  }

  lemma ScanCovered(s: State, w: nat, b: WorkerStep, s': State, v: nat)
    requires Shape(s) && RegistryLock(s) && RegistryLock(s') && Inboxes(s) && WorkerNext(s, w, b, s')
    requires SameQueues(s, s') && SameAgents(s, s')
    requires v < |s'.worker| && PastInbox(s', v)
    ensures Covered(s', v, |s'.sleepers|)
  {
    hide Covered, Without;
    assert s'.slock == Some(ByWorker(v));
    assert v == w ==> b == Check && PastInbox(s, v);
    assert v != w ==> s.worker[v] == s'.worker[v] && s.slock == Some(ByWorker(v)) && PastInbox(s, v);
    assert s'.sleepers == s.sleepers by {
      if b == Withdraw || b == Register {
        assert HoldsRegistry(s.worker[w]);
      }
    }
    CoverStays(s, s', v, |s.sleepers|);
  }

  /** Lengths shown by inboxes do not become nonzero, and nobody stops being a pending sweeper. */
  ghost predicate NoNewWork(s: State, a: nat, s': State) {
    && |s'.inbox| == |s.inbox|
    && (forall w: nat :: w < |s.inbox| && s'.inbox[w].cached != 0 ==>
          || s.inbox[w].cached != 0
          || forall x: nat :: Pending(s'.Agent(a), w, x))
    && (forall w: nat, x: nat :: Pending(s.Agent(a), w, x) ==> Pending(s'.Agent(a), w, x))
  }

  lemma InboxesFrame(s: State, a: nat, s': State)
    requires Shape(s) && Inboxes(s) && FarFromSleep(s, a, s') && NoNewWork(s, a, s')
    ensures Inboxes(s')
  {
    forall w: nat, x: nat | w < |s.inbox| && s'.inbox[w].cached != 0 && (s.inbox[w].cached != 0 ==> Covered(s, w, x))
      ensures Covered(s', w, x)
    {
      if s.inbox[w].cached != 0 {
        var c: nat :| Pending(s.Agent(c), w, x);
        assert Pending(s'.Agent(c), w, x);
      } else {
        assert Pending(s'.Agent(a), w, x);
      }
    }
    hide Covered, FarFromSleep, NoNewWork;
    assert s'.sleepers == s.sleepers && s'.worker == s.worker && |s'.inbox| == |s.inbox| by {
      assert FarFromSleep(s, a, s');
    }
  }

  lemma NoNewWorkByQueue(s: State, a: nat, b: AgentStep, s': State)
    requires Views(s, a) && QueueNext(s, a, b, s')
    ensures NoNewWork(s, a, s')
  {
    hide PushNext, LocalNext, TakeNext, BatchNext, NoNewWork;
    if PushNext(s, a, b, s') {
      NoNewWorkByPush(s, a, b, s');
    } else if LocalNext(s, a, b, s') {
      NoNewWorkByLocal(s, a, b, s');
    } else if TakeNext(s, a, b, s') {
      NoNewWorkByTake(s, a, b, s');
    } else {
      NoNewWorkByBatch(s, a, b, s');
    }
  }

  lemma NoNewWorkByPush(s: State, a: nat, b: AgentStep, s': State)
    requires PushNext(s, a, b, s')
    ensures NoNewWork(s, a, s')
  {
  }

  lemma NoNewWorkByLocal(s: State, a: nat, b: AgentStep, s': State)
    requires LocalNext(s, a, b, s')
    ensures NoNewWork(s, a, s')
  {
    hide Forget;
  }

  /** A consumer's length store never raises a length. */
  lemma NoNewWorkByTake(s: State, a: nat, b: AgentStep, s': State)
    requires Views(s, a) && TakeNext(s, a, b, s')
    ensures NoNewWork(s, a, s')
  {
    forall w: nat | w < |s.inbox|
      ensures s'.inbox[w].cached <= s.inbox[w].cached
    {
      assert QueueOk(s.inbox[w]) && InboxView(s.Agent(a), a, w, s.inbox[w]);
      hide Forget, SharedView, Pending;
    }
    hide Forget, Views;
  }

  /** A batch publisher that raises a length owes that inbox a sweep; a rolled back batch raises none. */
  lemma NoNewWorkByBatch(s: State, a: nat, b: AgentStep, s': State)
    requires Views(s, a) && BatchNext(s, a, b, s')
    ensures NoNewWork(s, a, s')
  {
    forall w: nat | w < |s.inbox|
      ensures s'.inbox[w].cached == s.inbox[w].cached || forall x: nat :: Pending(s'.Agent(a), w, x)
    {
      assert QueueOk(s.inbox[w]) && InboxView(s.Agent(a), a, w, s.inbox[w]);
      hide SharedView;
    }
    hide Views;
  }

  lemma InboxesByQueue(s: State, a: nat, b: AgentStep, s': State)
    requires Shape(s) && Queues(s) && Inboxes(s) && QueueNext(s, a, b, s')
    ensures Inboxes(s')
  {
    hide Queues, Inboxes, QueueNext;
    ViewsOf(s, a);
    QueueFrame(s, a, b, s');
    NoNewWorkByQueue(s, a, b, s');
    InboxesFrame(s, a, s');
  }

  lemma InboxesBySleep(s: State, a: nat, b: AgentStep, s': State)
    requires Shape(s) && RegistryLock(s) && Sleepers(s) && Inboxes(s) && SleepNext(s, a, b, s')
    ensures Inboxes(s')
  {
    SleepFrame(s, a, b, s');
    forall x: nat | x < |s'.sleepers| && s'.sleepers[x] < |s'.inbox| && s'.inbox[s'.sleepers[x]].cached != 0
      ensures Covered(s', s'.sleepers[x], x)
    {
      RegisteredCoveredSleep(s, a, b, s', x);
      hide *;
    }
    forall v: nat | v < |s'.worker| && PastInbox(s', v)
      ensures Covered(s', v, |s'.sleepers|)
    {
      ScanCoveredSleep(s, a, b, s', v);
      hide *;
    }
    hide *;
  }

  lemma RegisteredCoveredSleep(s: State, a: nat, b: AgentStep, s': State, x: nat)
    requires RegistryLock(s) && Inboxes(s) && SleepNext(s, a, b, s') && SameQueues(s, s') && OnlyAgent(s, a, s')
    requires x < |s'.sleepers| && s'.sleepers[x] < |s'.inbox| && s'.inbox[s'.sleepers[x]].cached != 0
    ensures Covered(s', s'.sleepers[x], x)
  {
    hide SleepNext, WakeNext, SweepNext, StopNext;
    var i := Consumed(s, a, b, s');
    var y := if i == |s.sleepers| || x < i then x else x + 1;
    var w := s'.sleepers[x];
    assert s.sleepers[y] == w;
    assert Covered(s, w, y);
    var c: nat :| Pending(s.Agent(c), w, y);
    if c == a {
      SweepAdvances(s, a, b, s', w, x, y);
    } else if i < |s.sleepers| {
      assert !AgentHoldsRegistry(s.Agent(c));
    }
    assert Pending(s'.Agent(c), w, x);
  }

  /** A sweeper passes a registration only when that inbox shows no work. */
  lemma SweepAdvances(s: State, a: nat, b: AgentStep, s': State, w: nat, x: nat, y: nat)
    requires SleepNext(s, a, b, s') && Pending(s.Agent(a), w, y)
    requires y < |s.sleepers| && s.sleepers[y] == w && w < |s.inbox| && s.inbox[w].cached != 0
    requires x == y || (x == y - 1 && s.Agent(a).Sweep? && s'.Agent(a) == Sweep(s.Agent(a).p, false) && s.Agent(a).p <= x)
    ensures Pending(s'.Agent(a), w, x)
  {
  }

  lemma ScanCoveredSleep(s: State, a: nat, b: AgentStep, s': State, v: nat)
    requires RegistryLock(s) && Inboxes(s) && SleepNext(s, a, b, s') && SameQueues(s, s') && OnlyAgent(s, a, s')
    requires s'.worker == s.worker && v < |s'.worker| && PastInbox(s', v)
    ensures Covered(s', v, |s'.sleepers|)
  {
    assert s.slock == Some(ByWorker(v));
    assert !AgentHoldsRegistry(s.Agent(a));
    var i := Consumed(s, a, b, s');
    assert PastInbox(s, v) && s'.sleepers == s.sleepers;
    var c: nat :| Pending(s.Agent(c), v, |s.sleepers|);
    assert Pending(s'.Agent(c), v, |s.sleepers|);
  }

  // ---------------------------------------------------------------- whole runs

  lemma StepInv(s: State, a: Action, s': State)
    requires Inv(s) && Next(s, a, s')
    ensures Inv(s')
  {
    hide RegistryLock, Sleepers, Parking, Queues, Watched, Inboxes, Told, Departed, WorkerNext,
      PushNext, LocalNext, TakeNext, BatchNext, WakeNext, SweepNext, StopNext;
    match a
    case OfWorker(w, b) =>
      RegistryByWorker(s, w, b, s');
      SleepersByWorker(s, w, b, s');
      ParkingByWorker(s, w, b, s');
      QueuesFrame(s, s');
      WatchedByWorker(s, w, b, s');
      InboxesByWorker(s, w, b, s');
      ToldByWorker(s, w, b, s');
      DepartedByWorker(s, w, b, s');
    case OfAgent(x, b) =>
      RegistryByAgent(s, x, b, s');
      SleepersByAgent(s, x, b, s');
      ToldByAgent(s, x, b, s');
      DepartedByAgent(s, x, b, s');
      if QueueNext(s, x, b, s') {
        ParkingByQueue(s, x, b, s');
        QueuesByQueue(s, x, b, s');
        InboxesByQueue(s, x, b, s');
        WatchedByQueue(s, x, b, s');
      } else {
        SleepFrame(s, x, b, s');
        ParkingBySleep(s, x, b, s');
        QueuesFrame(s, s');
        WatchedBySleep(s, x, b, s');
        InboxesBySleep(s, x, b, s');
      }
  }

  lemma WatchedByQueue(s: State, a: nat, b: AgentStep, s': State)
    requires Queues(s) && Watched(s) && QueueNext(s, a, b, s')
    ensures Watched(s')
  {
    hide Queues, Watched, PushNext, LocalNext, TakeNext, BatchNext;
    if PushNext(s, a, b, s') {
      WatchedByPush(s, a, b, s');
    } else if LocalNext(s, a, b, s') {
      WatchedByLocal(s, a, b, s');
    } else if TakeNext(s, a, b, s') {
      WatchedByTake(s, a, b, s');
    } else {
      WatchedByBatch(s, a, b, s');
    }
  }

  ghost predicate Run(states: seq<State>, acts: seq<Action>) {
    && |states| == |acts| + 1
    && forall k :: 0 <= k < |acts| ==> Next(states[k], acts[k], states[k + 1])
  }

  lemma {:induction false} RunInv(states: seq<State>, acts: seq<Action>, workers: nat, k: nat)
    requires Run(states, acts) && workers > 0 && states[0] == Init(workers) && k < |states|
    ensures Inv(states[k])
  {
    hide Next, Inv;
    if k == 0 {
      InitInv(workers);
    } else {
      RunInv(states, acts, workers, k - 1);
      StepInv(states[k - 1], acts[k - 1], states[k]);
    }
  }

  // ---------------------------------------------------------------- main results

  predicate Blocked(s: State, w: nat)
    requires w < |s.worker| == |s.token|
  {
    s.worker[w] == Parked && !s.token[w]
  }

  /** No thread is between publishing a job and the end of its `wake_one`. */
  ghost predicate NoPublisherMidWake(s: State) {
    forall a: nat ::
      !s.Agent(a).WakeWant? && !s.Agent(a).WakeHold? && !s.Agent(a).WakePopped? && !s.Agent(a).WakeUnpark?
  }

  /** This step publishes `j` at `q` with a wake to follow. */
  ghost predicate Publishes(s: State, c: Action, j: Job, q: Where) {
    && c.OfAgent?
    && ((c.as_ == PushUnlock && q == Shared && s.Agent(c.a).Pushing? && s.Agent(c.a).j == j)
        || (q.Local? && c.as_ == PushLocal(q.i, j)))
  }

  /** This step takes `j` out of a queue or deque. */
  ghost predicate TakesOut(s: State, c: Action, j: Job) {
    && c.OfAgent?
    && match c.as_
       case ClaimLocal(i, lo, hi) =>
         i < |s.local| && lo <= hi <= |s.local[i]| && j in s.local[i][..lo] + s.local[i][hi..]
       case TakeChange(k) =>
         && s.Agent(c.a).Taking? && IsLockable(s, s.Agent(c.a).q)
         && k <= |Queue(s, s.Agent(c.a).q).elems| && j in Queue(s, s.Agent(c.a).q).elems[..k]
       case _ => false
  }

  lemma PublishWatches(s: State, c: Action, s': State, j: Job, q: Where)
    requires Next(s, c, s') && Publishes(s, c, j, q)
    ensures j in s'.watch && s'.watch[j].at == q
  {
    hide Forget, TakeNext, BatchNext, WakeNext, SweepNext, StopNext, WorkerNext;
    if c.as_ == PushUnlock {
      NotLocal(s, c.a, c.as_, s');
    } else {
      NotPush(s, c.a, c.as_, s');
    }
    NotOthers(s, c.a, c.as_, s');
  }

  lemma NotLocal(s: State, a: nat, b: AgentStep, s': State)
    requires b == PushUnlock
    ensures !LocalNext(s, a, b, s')
  {
  }

  lemma NotPush(s: State, a: nat, b: AgentStep, s': State)
    requires b.PushLocal?
    ensures !PushNext(s, a, b, s')
  {
  }

  lemma NotOthers(s: State, a: nat, b: AgentStep, s': State)
    requires b == PushUnlock || b.PushLocal?
    ensures !TakeNext(s, a, b, s') && !BatchNext(s, a, b, s') && !WakeNext(s, a, b, s')
    ensures !SweepNext(s, a, b, s') && !StopNext(s, b, s')
  {
  }

  lemma WatchStep(s: State, c: Action, s': State, j: Job)
    requires Next(s, c, s') && j in s.watch && !TakesOut(s, c, j)
    ensures j in s'.watch && s'.watch[j].at == s.watch[j].at
  {
    hide PushNext, LocalNext, TakeNext, BatchNext, WakeNext, SweepNext, StopNext, TakesOut;
    if c.OfWorker? {
      hide Finds, Without;
    } else if PushNext(s, c.a, c.as_, s') || BatchNext(s, c.a, c.as_, s') {
      WatchStepPush(s, c.a, c.as_, s', j);
    } else if LocalNext(s, c.a, c.as_, s') || TakeNext(s, c.a, c.as_, s') {
      WatchStepTake(s, c, s', j);
    } else {
      WatchStepSleep(s, c.a, c.as_, s', j);
    }
  }

  lemma WatchStepPush(s: State, a: nat, b: AgentStep, s': State, j: Job)
    requires (PushNext(s, a, b, s') || BatchNext(s, a, b, s')) && j in s.watch
    ensures j in s'.watch && s'.watch[j].at == s.watch[j].at
  {
  }

  lemma WatchStepTake(s: State, c: Action, s': State, j: Job)
    requires c.OfAgent? && (LocalNext(s, c.a, c.as_, s') || TakeNext(s, c.a, c.as_, s'))
    requires j in s.watch && !TakesOut(s, c, j)
    ensures j in s'.watch && s'.watch[j].at == s.watch[j].at
  {
  }

  lemma WatchStepSleep(s: State, a: nat, b: AgentStep, s': State, j: Job)
    requires (WakeNext(s, a, b, s') || SweepNext(s, a, b, s') || StopNext(s, b, s')) && j in s.watch
    ensures j in s'.watch && s'.watch[j].at == s.watch[j].at
  {
  }

  lemma {:induction false} WatchStays(states: seq<State>, acts: seq<Action>, i: nat, k: nat, j: Job, q: Where)
    requires Run(states, acts) && i < k < |states| && Publishes(states[i], acts[i], j, q)
    requires forall m :: i < m < k ==> !TakesOut(states[m], acts[m], j)
    ensures j in states[k].watch && states[k].watch[j].at == q
    decreases k
  {
    hide Next, Publishes, TakesOut;
    if k == i + 1 {
      PublishWatches(states[i], acts[i], states[k], j, q);
    } else {
      WatchStays(states, acts, i, k - 1, j, q);
      WatchStep(states[k - 1], acts[k - 1], states[k], j);
    }
  }

  /**
   No lost wakeup: once a job is published with a wake, and as long as no step takes it out, whenever no
   publisher is mid-wake the job is in its queue and some background worker is not blocked in park without a
   token, is not registered as asleep, and cannot get past its scan while the job stays where it is; and
   while the pool runs that worker has not left its loop.
   */
  lemma NoLostWakeup(states: seq<State>, acts: seq<Action>, workers: nat, i: nat, k: nat, j: Job, q: Where)
    requires Run(states, acts) && workers > 0 && states[0] == Init(workers)
    requires i < k < |states| && Publishes(states[i], acts[i], j, q)
    requires forall m :: i < m < k ==> !TakesOut(states[m], acts[m], j)
    requires NoPublisherMidWake(states[k])
    ensures Shape(states[k]) && exists w: nat ::
      && Alert(states[k], w, q) && !Blocked(states[k], w)
      && (states[k].running ==> states[k].worker[w] != Gone)
    ensures Present(states[k], j, q)
  {
    WatchStays(states, acts, i, k, j, q);
    RunInv(states, acts, workers, k);
    SomeoneAwake(states[k], j);
  }

  lemma SomeoneAwake(s: State, j: Job)
    requires Inv(s) && j in s.watch && NoPublisherMidWake(s)
    ensures exists w: nat ::
      Alert(s, w, s.watch[j].at) && !Blocked(s, w) && (s.running ==> s.worker[w] != Gone)
    ensures Present(s, j, s.watch[j].at)
  {
    assert WatchOk(s, j, s.watch[j]);
    hide Queues, Inboxes, Told, RegistryLock, Sleepers, Present;
    assert forall a: nat :: !MidWake(s.Agent(a), j);
    var w: nat :| Alert(s, w, s.watch[j].at);
    assert forall a: nat :: !InFlight(s.Agent(a), w);
    assert !Blocked(s, w);
  }

  /** Nobody leaves its loop while the pool runs. */
  lemma NobodyLeavesEarly(states: seq<State>, acts: seq<Action>, workers: nat, k: nat, w: nat)
    requires Run(states, acts) && workers > 0 && states[0] == Init(workers) && k < |states|
    requires w < |states[k].worker| && states[k].running
    ensures states[k].worker[w] != Gone
  {
    RunInv(states, acts, workers, k);
  }

  /** A worker blocked in park is registered, or an unpark for it is on its way. */
  lemma BlockedIsRegistered(states: seq<State>, acts: seq<Action>, workers: nat, k: nat, w: nat)
    requires Run(states, acts) && workers > 0 && states[0] == Init(workers) && k < |states|
    requires w < |states[k].worker| == |states[k].token| && Blocked(states[k], w)
    ensures w in states[k].sleepers || exists a: nat :: InFlight(states[k].Agent(a), w)
  {
    RunInv(states, acts, workers, k);
  }

  /** A released job in the shared queue always shows in the length read without the lock. */
  lemma CachedLengthShows(states: seq<State>, acts: seq<Action>, workers: nat, k: nat, j: Job)
    requires Run(states, acts) && workers > 0 && states[0] == Init(workers) && k < |states|
    requires Present(states[k], j, Shared)
    ensures states[k].shared.cached > 0
  {
    RunInv(states, acts, workers, k);
  }

  /** A registered worker's inbox is empty, unless a batch publisher is still to sweep its registration. */
  lemma SleeperInboxEmpty(states: seq<State>, acts: seq<Action>, workers: nat, k: nat, x: nat)
    requires Run(states, acts) && workers > 0 && states[0] == Init(workers) && k < |states|
    requires x < |states[k].sleepers| && forall a: nat :: !Pending(states[k].Agent(a), states[k].sleepers[x], x)
    ensures states[k].sleepers[x] < |states[k].inbox|
    ensures var v := states[k].inbox[states[k].sleepers[x]]; v.cached == 0 && |v.elems| == v.added
  {
    RunInv(states, acts, workers, k);
    var s, w := states[k], states[k].sleepers[x];
    assert w in s.sleepers;
    assert QueueOk(s.inbox[w]);
    assert !Covered(s, w, x);
  }

  /** Once the stop flag is stored and a worker unparked by shutdown, it is never blocked without a token again. */
  lemma ShutdownReaches(states: seq<State>, acts: seq<Action>, workers: nat, i: nat, m: nat, a: nat, w: nat)
    requires Run(states, acts) && workers > 0 && states[0] == Init(workers)
    requires i < m < |states| && acts[i] == OfAgent(a, Tell(w))
    ensures w < |states[m].worker| == |states[m].token| && !Blocked(states[m], w) && !states[m].running
  {
    TellTells(states[i], a, w, states[i + 1]);
    ToldStays(states, acts, i + 1, m, w);
    RunInv(states, acts, workers, m);
  }

  /** The stop flag, once stored, stays. */
  lemma {:induction false} StopIsFinal(states: seq<State>, acts: seq<Action>, i: nat, m: nat, a: nat)
    requires Run(states, acts) && i < m < |states| && acts[i] == OfAgent(a, Stop)
    ensures !states[m].running
    decreases m
  {
    hide Next;
    if m == i + 1 {
      StopStops(states[i], a, states[m]);
    } else {
      StopIsFinal(states, acts, i, m - 1, a);
      NeverRestarts(states[m - 1], acts[m - 1], states[m]);
    }
  }

  lemma StopStops(s: State, a: nat, s': State)
    requires Next(s, OfAgent(a, Stop), s')
    ensures !s'.running
  {
  }

  lemma NeverRestarts(s: State, c: Action, s': State)
    requires Next(s, c, s')
    ensures s'.running ==> s.running
  {
    hide PushNext, LocalNext, TakeNext, BatchNext;
    match c
    case OfWorker(w, b) => hide Finds, Without;
    case OfAgent(x, b) =>
      hide WakeNext, SweepNext, StopNext;
      if QueueNext(s, x, b, s') {
        QueueFrame(s, x, b, s');
      } else {
        RunningFalls(s, x, b, s');
      }
  }

  lemma TellTells(s: State, a: nat, w: nat, s': State)
    requires Next(s, OfAgent(a, Tell(w)), s')
    ensures w in s'.told
  {
  }

  lemma {:induction false} ToldStays(states: seq<State>, acts: seq<Action>, k: nat, m: nat, w: nat)
    requires Run(states, acts) && k <= m < |states| && w in states[k].told
    ensures w in states[m].told
    decreases m - k
  {
    hide Next;
    if k < m {
      ToldStays(states, acts, k, m - 1, w);
      ToldGrows(states[m - 1], acts[m - 1], states[m]);
    }
  }

  lemma ToldGrows(s: State, a: Action, s': State)
    requires Next(s, a, s')
    ensures s.told <= s'.told
  {
    hide PushNext, LocalNext, TakeNext, BatchNext;
    match a
    case OfWorker(w, b) => hide Finds, Without;
    case OfAgent(x, b) =>
      if QueueNext(s, x, b, s') {
        QueueFrame(s, x, b, s');
        hide WakeNext, SweepNext, StopNext;
      }
  }

  // ---------------------------------------------------------------- idle workers do sleep

  /** Worker `w` has made its first `pos` checks, starting from `s`. */
  function Scanned(s: State, w: nat, pos: nat): State
    requires w < |s.worker|
  {
    s.Enter(w, Scan(pos)).(slock := Some(ByWorker(w)))
  }

  ghost predicate NothingToDo(s: State) {
    |s.local| == |s.inbox| && forall pos: nat :: pos < s.Ready() ==> !Finds(s, pos)
  }

  lemma RunOn(states: seq<State>, acts: seq<Action>, c: Action, s': State)
    requires Run(states, acts) && Next(states[|acts|], c, s')
    ensures Run(states + [s'], acts + [c])
  {
    var longer, all := states + [s'], acts + [c];
    forall k | 0 <= k < |all|
      ensures Next(longer[k], all[k], longer[k + 1])
    {
      if k < |acts| {
        assert Next(states[k], acts[k], states[k + 1]);
      }
      hide Next;
    }
  }

  lemma {:induction false} ScanTo(s: State, w: nat, pos: nat) returns (states: seq<State>, acts: seq<Action>)
    requires w < |s.worker| == |s.token| && s.worker[w] == Awake && s.slock == None && NothingToDo(s) && pos <= s.Ready()
    ensures Run(states, acts) && states[0] == s && states[|acts|] == Scanned(s, w, pos)
  {
    if pos == 0 {
      assert Run([s], []);
      assert Next(s, OfWorker(w, StartScan), Scanned(s, w, 0));
      RunOn([s], [], OfWorker(w, StartScan), Scanned(s, w, 0));
      states, acts := [s, Scanned(s, w, 0)], [OfWorker(w, StartScan)];
    } else {
      states, acts := ScanTo(s, w, pos - 1);
      CheckPasses(s, w, pos - 1);
      hide Next, Run;
      RunOn(states, acts, OfWorker(w, Check), Scanned(s, w, pos));
      states, acts := states + [Scanned(s, w, pos)], acts + [OfWorker(w, Check)];
    }
  }

  lemma CheckPasses(s: State, w: nat, pos: nat)
    requires w < |s.worker| == |s.token| && NothingToDo(s) && pos < s.Ready()
    ensures Next(Scanned(s, w, pos), OfWorker(w, Check), Scanned(s, w, pos + 1))
  {
    assert !Finds(s, pos);
    assert !Finds(Scanned(s, w, pos), pos);
    assert s.worker[w := Scan(pos)][w := Scan(pos + 1)] == s.worker[w := Scan(pos + 1)];
  }

  /** A worker that finds nothing anywhere registers and blocks, by steps of its own alone. */
  lemma IdleWorkerParks(s: State, w: nat) returns (states: seq<State>, acts: seq<Action>)
    requires w < |s.worker| == |s.token| && s.worker[w] == Awake && s.slock == None && NothingToDo(s) && !s.token[w]
    ensures Run(states, acts) && states[0] == s && w < |states[|acts|].worker| == |states[|acts|].token|
    ensures Blocked(states[|acts|], w) && states[|acts|].sleepers == s.sleepers + [w] && states[|acts|].slock == None
  {
    states, acts := ScanTo(s, w, s.Ready());
    var s0 := Scanned(s, w, s.Ready());
    var s1 := s0.Enter(w, Listed).(sleepers := s.sleepers + [w]);
    var s2 := s1.Enter(w, ToPark).(slock := None);
    var s3 := s2.Enter(w, Parked);
    assert Next(s0, OfWorker(w, Register), s1) && Next(s1, OfWorker(w, Unlist), s2) && Next(s2, OfWorker(w, Park), s3);
    hide Next, Run, NothingToDo;
    RunOn(states, acts, OfWorker(w, Register), s1);
    states, acts := states + [s1], acts + [OfWorker(w, Register)];
    RunOn(states, acts, OfWorker(w, Unlist), s2);
    states, acts := states + [s2], acts + [OfWorker(w, Unlist)];
    RunOn(states, acts, OfWorker(w, Park), s3);
    states, acts := states + [s3], acts + [OfWorker(w, Park)];
  }

  // ---------------------------------------------------------------- batch locking

  /** While a batch is being assigned, nobody else can look into any inbox. */
  lemma AssignmentIsExclusive(states: seq<State>, acts: seq<Action>, workers: nat, k: nat, a: nat)
    requires Run(states, acts) && workers > 0 && states[0] == Init(workers) && k < |states|
    requires states[k].Agent(a) == Locking(|states[k].inbox|)
    ensures forall c: nat, i: nat :: c != a && i < |states[k].inbox| ==> !HoldsInbox(states[k].Agent(c), i)
  {
    RunInv(states, acts, workers, k);
    var s := states[k];
    forall c: nat, i: nat | c != a && i < |s.inbox|
      ensures !HoldsInbox(s.Agent(c), i)
    {
      assert InboxView(s.Agent(a), a, i, s.inbox[i]) && InboxView(s.Agent(c), c, i, s.inbox[i]);
    }
  }

  /** Agent `a` itself moves on in taking from a queue or in publishing a batch. */
  ghost predicate Advances(s: State, a: nat, b: AgentStep, s': State) {
    (TakeNext(s, a, b, s') || BatchNext(s, a, b, s')) && s'.Agent(a) != s.Agent(a)
  }

  ghost predicate CanStep(s: State, a: nat) {
    exists b, s' :: Advances(s, a, b, s')
  }

  ghost predicate HoldsSome(s: State, a: nat) {
    exists i: nat :: i < |s.inbox| && HoldsInbox(s.Agent(a), i)
  }

  /** How many steps of its own are left until an agent has released every inbox it holds or will lock. */
  function StepsLeft(g: Agent, n: nat): nat {
    match g
    case Taking(_, stage) => (match stage case Locked => 3 case Changed => 2 case Stored => 1)
    case Locking(k) => if k <= n then n - k + 1 + 2 * n else 0
    case Unlocking(k, stored, _) => if k == 0 then 0 else if stored then 2 * k - 1 else 2 * k
    case _ => 0
  }

  /** Each step of a lock holder brings it one step nearer to holding nothing. */
  lemma AdvanceCounts(s: State, a: nat, b: AgentStep, s': State)
    requires Advances(s, a, b, s') && HoldsSome(s, a)
    ensures |s'.inbox| == |s.inbox| && StepsLeft(s'.Agent(a), |s.inbox|) + 1 == StepsLeft(s.Agent(a), |s.inbox|)
  {
    hide TakeNext, BatchNext;
    if TakeNext(s, a, b, s') {
      var q, v' := TakeShape(s, a, b, s');
    } else {
      BatchCounts(s, a, b, s');
    }
  }

  lemma BatchCounts(s: State, a: nat, b: AgentStep, s': State)
    requires BatchNext(s, a, b, s') && s'.Agent(a) != s.Agent(a) && HoldsSome(s, a)
    ensures |s'.inbox| == |s.inbox| && StepsLeft(s'.Agent(a), |s.inbox|) + 1 == StepsLeft(s.Agent(a), |s.inbox|)
  {
  }

  /** The batch of `a` holds some inboxes and waits for another one. */
  predicate Stalled(s: State, a: nat) {
    s.Agent(a).Locking? && s.Agent(a).k < |s.inbox| && s.inbox[s.Agent(a).k].lock.Some?
  }

  /** Who has to move for the lock holder `a` to get on. */
  function Mover(s: State, a: nat): nat {
    if Stalled(s, a) then s.inbox[s.Agent(a).k].lock.value else a
  }

  /**
   A batch that holds an inbox waits only for a consumer, who holds that one inbox and nothing else: another
   batch would hold inbox 0 too. So the wait ends after at most three steps of that consumer.
   */
  lemma WaitsForConsumer(s: State, a: nat)
    requires Queues(s) && HoldsSome(s, a) && Stalled(s, a)
    ensures var h := s.Agent(a).k;
      && var c := Mover(s, a);
      && c != a && s.Agent(c).Taking? && s.Agent(c).q == Inbox(h)
      && (forall i: nat :: HoldsInbox(s.Agent(c), i) <==> i == h)
      && CanStep(s, c) && StepsLeft(s.Agent(c), |s.inbox|) <= 3
  {
    var h, c := s.Agent(a).k, Mover(s, a);
    ViewsOf(s, a);
    ViewsOf(s, c);
    assert InboxView(s.Agent(c), c, h, s.inbox[h]) && InboxView(s.Agent(a), a, h, s.inbox[h]);
    assert InboxView(s.Agent(c), c, 0, s.inbox[0]) && InboxView(s.Agent(a), a, 0, s.inbox[0]);
    hide Queues, SharedView, InboxStage, CanStep;
    HolderSteps(s, c);
  }

  /** Whoever has to move can move, and holds an inbox. */
  lemma MoverSteps(s: State, a: nat)
    requires Queues(s) && s.inbox != [] && HoldsSome(s, a)
    ensures CanStep(s, Mover(s, a)) && HoldsSome(s, Mover(s, a))
  {
    if Stalled(s, a) {
      WaitsForConsumer(s, a);
      hide CanStep;
    } else {
      ViewsOf(s, a);
      hide Queues, SharedView, InboxView, CanStep;
      HolderSteps(s, a);
    }
  }

  /**
   Batches and consumers never deadlock over inboxes: if an inbox is locked, its holder, or the consumer
   its holder waits for, can move on, and every such step leaves one step less to be done.
   */
  lemma NoInboxDeadlock(states: seq<State>, acts: seq<Action>, workers: nat, k: nat, i: nat)
    requires Run(states, acts) && workers > 0 && states[0] == Init(workers) && k < |states|
    requires i < |states[k].inbox| && states[k].inbox[i].lock.Some?
    ensures var s := states[k];
      && var a := Mover(s, s.inbox[i].lock.value);
      && CanStep(s, a) && HoldsSome(s, a)
      && forall b, s' :: Advances(s, a, b, s') ==>
           |s'.inbox| == |s.inbox| && StepsLeft(s'.Agent(a), |s.inbox|) + 1 == StepsLeft(s.Agent(a), |s.inbox|)
  {
    RunInv(states, acts, workers, k);
    var s := states[k];
    HolderHolds(s, i);
    hide Inv, Queues, CanStep, Advances, HoldsSome;
    var a := Mover(s, s.inbox[i].lock.value);
    MoverSteps(s, s.inbox[i].lock.value);
    forall b, s' | Advances(s, a, b, s')
      ensures |s'.inbox| == |s.inbox| && StepsLeft(s'.Agent(a), |s.inbox|) + 1 == StepsLeft(s.Agent(a), |s.inbox|)
    {
      AdvanceCounts(s, a, b, s');
    }
  }

  lemma HolderHolds(s: State, i: nat)
    requires Inv(s) && i < |s.inbox| && s.inbox[i].lock.Some?
    ensures Queues(s) && s.inbox != [] && HoldsSome(s, s.inbox[i].lock.value)
    ensures HoldsInbox(s.Agent(s.inbox[i].lock.value), i)
  {
    var a := s.inbox[i].lock.value;
    ViewsOf(s, a);
    hide Queues, QueueOk, SharedView, InboxStage;
    assert InboxView(s.Agent(a), a, i, s.inbox[i]);
  }

  /** A run in which only holders of inboxes move, each of them forward. */
  ghost predicate HolderRun(states: seq<State>, acts: seq<Action>) {
    && Run(states, acts)
    && forall h :: 0 <= h < |acts| ==>
         acts[h].OfAgent? && HoldsSome(states[h], acts[h].a) && Advances(states[h], acts[h].a, acts[h].as_, states[h + 1])
  }

  lemma OneMove(s: State, x: nat) returns (b: AgentStep, s': State)
    requires Inv(s) && CanStep(s, x) && HoldsSome(s, x)
    ensures Advances(s, x, b, s') && Next(s, OfAgent(x, b), s') && Inv(s') && OnlyAgent(s, x, s')
    ensures |s'.inbox| == |s.inbox| && StepsLeft(s'.Agent(x), |s.inbox|) < StepsLeft(s.Agent(x), |s.inbox|)
    ensures OwnLocksOnly(s, x, s')
  {
    hide Inv, HoldsSome, TakeNext, BatchNext;
    b, s' :| Advances(s, x, b, s');
    AdvanceCounts(s, x, b, s');
    OwnLocks(s, x, b, s');
    StepInv(s, OfAgent(x, b), s');
    QueueFrame(s, x, b, s');
  }

  /** Locks of others stay as they are; own locks stay or are given back. */
  ghost predicate OwnLocksOnly(s: State, x: nat, s': State) {
    |s'.inbox| == |s.inbox| && forall i: nat :: i < |s.inbox| ==>
      && (s.inbox[i].lock == Some(x) ==> s'.inbox[i].lock in {Some(x), None})
      && (s.inbox[i].lock.Some? && s.inbox[i].lock != Some(x) ==> s'.inbox[i].lock == s.inbox[i].lock)
  }

  lemma OwnLocks(s: State, x: nat, b: AgentStep, s': State)
    requires Inv(s) && Advances(s, x, b, s')
    ensures OwnLocksOnly(s, x, s')
  {
    ViewsOf(s, x);
    hide Inv, TakeNext, BatchNext, Views, OwnLocksOnly;
    if TakeNext(s, x, b, s') {
      OwnLocksTake(s, x, b, s');
    } else {
      OwnLocksBatch(s, x, b, s');
    }
  }

  lemma OwnLocksTake(s: State, x: nat, b: AgentStep, s': State)
    requires Views(s, x) && TakeNext(s, x, b, s')
    ensures OwnLocksOnly(s, x, s')
  {
    var q, v' := TakeShape(s, x, b, s');
    if q.Inbox? {
      assert InboxView(s.Agent(x), x, q.i, s.inbox[q.i]);
    }
    hide TakeNext, Views;
  }

  lemma OwnLocksBatch(s: State, x: nat, b: AgentStep, s': State)
    requires Views(s, x) && BatchNext(s, x, b, s')
    ensures OwnLocksOnly(s, x, s')
  {
    hide QueueOk, SharedView, InboxStage;
  }

  /** From every reachable state, a locked inbox is freed by steps of inbox holders alone. */
  lemma InboxGetsFree(states: seq<State>, acts: seq<Action>, workers: nat, k: nat, i: nat)
      returns (more: seq<State>, did: seq<Action>)
    requires Run(states, acts) && workers > 0 && states[0] == Init(workers) && k < |states|
    requires i < |states[k].inbox| && states[k].inbox[i].lock.Some?
    ensures HolderRun(more, did) && more[0] == states[k]
    ensures i < |more[|did|].inbox| && more[|did|].inbox[i].lock == None
  {
    RunInv(states, acts, workers, k);
    more, did := FreeInbox(states[k], states[k].inbox[i].lock.value, i);
  }

  lemma {:induction false} FreeInbox(s: State, a: nat, i: nat) returns (states: seq<State>, acts: seq<Action>)
    requires Inv(s) && i < |s.inbox| && s.inbox[i].lock == Some(a)
    ensures HolderRun(states, acts) && states[0] == s
    ensures i < |states[|acts|].inbox| && states[|acts|].inbox[i].lock == None
    decreases StepsLeft(s.Agent(a), |s.inbox|), if Stalled(s, a) then StepsLeft(s.Agent(Mover(s, a)), |s.inbox|) else 0
  {
    hide Inv, CanStep, Advances, Next, HoldsSome, Queues, StepsLeft, HolderRun, HoldsInbox;
    HolderHolds(s, i);
    MoverSteps(s, a);
    var x := Mover(s, a);
    if x != a {
      WaitsForConsumer(s, a);
    }
    var b, s' := OneMove(s, x);
    if s'.inbox[i].lock.None? {
      states, acts := [s'], [];
      NoMove(s');
    } else {
      states, acts := FreeInbox(s', a, i);
    }
    HolderPrepend(s, x, b, states, acts);
    states, acts := [s] + states, [OfAgent(x, b)] + acts;
  }

  lemma NoMove(s: State)
    ensures HolderRun([s], [])
  {
  }

  lemma HolderPrepend(s: State, x: nat, b: AgentStep, states: seq<State>, acts: seq<Action>)
    requires HolderRun(states, acts)
    requires HoldsSome(s, x) && Advances(s, x, b, states[0]) && Next(s, OfAgent(x, b), states[0])
    ensures HolderRun([s] + states, [OfAgent(x, b)] + acts)
  {
    hide HoldsSome, Advances, Next;
    var more, did := [s] + states, [OfAgent(x, b)] + acts;
    forall h | 0 <= h < |did|
      ensures Next(more[h], did[h], more[h + 1]) && did[h].OfAgent?
      ensures HoldsSome(more[h], did[h].a) && Advances(more[h], did[h].a, did[h].as_, more[h + 1])
    {
      if h > 0 {
        assert Next(states[h - 1], acts[h - 1], states[h]);
      }
    }
  }

  lemma HolderSteps(s: State, a: nat)
    requires Views(s, a) && s.inbox != []
    requires var g := s.Agent(a);
      || (g.Taking? && g.q.Inbox?)
      || (g.Locking? && (g.k == |s.inbox| || (g.k < |s.inbox| && s.inbox[g.k].lock == None)))
      || g.Unlocking?
    ensures CanStep(s, a)
  {
    if s.Agent(a).Taking? {
      TakerSteps(s, a);
    } else {
      BatchSteps(s, a);
    }
  }

  lemma StepsBy(s: State, a: nat, b: AgentStep, s': State)
    requires (TakeNext(s, a, b, s') || BatchNext(s, a, b, s')) && s'.Agent(a) != s.Agent(a)
    ensures CanStep(s, a)
  {
    assert Advances(s, a, b, s');
  }

  lemma TakerSteps(s: State, a: nat)
    requires s.Agent(a).Taking? && s.Agent(a).q.Inbox? && s.Agent(a).q.i < |s.inbox|
    ensures CanStep(s, a)
  {
    hide CanStep;
    var g := s.Agent(a);
    var v := s.inbox[g.q.i];
    match g.stage
    case Locked =>
      var s' := SetQueue(s.Become(a, Taking(g.q, Changed)), g.q, v.(elems := v.elems[0..]))
                .(watch := Forget(s.watch, v.elems[..0]));
      StepsBy(s, a, TakeChange(0), s');
    case Changed =>
      StepsBy(s, a, TakeStore, SetQueue(s.Become(a, Taking(g.q, Stored)), g.q, v.(cached := |v.elems|)));
    case Stored =>
      StepsBy(s, a, TakeUnlock, SetQueue(s.Become(a, Idle), g.q, Queue(s, g.q).(lock := None)));
  }

  lemma BatchSteps(s: State, a: nat)
    requires s.inbox != [] && forall i: nat :: i < |s.inbox| ==> QueueOk(s.inbox[i])
    requires var g := s.Agent(a);
      || (g.Locking? && (g.k == |s.inbox| || (g.k < |s.inbox| && s.inbox[g.k].lock == None)))
      || (g.Unlocking? && 0 < g.k <= |s.inbox|)
    ensures CanStep(s, a)
  {
    hide CanStep;
    var g := s.Agent(a);
    match g
    case Locking(h) =>
      if h == |s.inbox| {
        StepsBy(s, a, BatchEnd(true), s.Become(a, Unlocking(|s.inbox|, false, true)));
      } else {
        var inbox' := s.inbox[g.k := s.inbox[g.k].(lock := Some(a))];
        StepsBy(s, a, BatchLock, s.Become(a, Locking(g.k + 1)).(inbox := inbox'));
      }
    case Unlocking(h, stored, ok) =>
      assert QueueOk(s.inbox[h - 1]);
      UnlockSteps(s, a, h, stored, ok);
    case _ =>
  }

  lemma UnlockSteps(s: State, a: nat, h: nat, stored: bool, ok: bool)
    requires s.Agent(a) == Unlocking(h, stored, ok) && 0 < h <= |s.inbox| && QueueOk(s.inbox[h - 1])
    ensures CanStep(s, a)
  {
    hide CanStep;
    var v := s.inbox[h - 1];
    if stored {
      var next := if h > 1 then Unlocking(h - 1, false, ok) else if ok then SweepWant else Idle;
      StepsBy(s, a, BatchUnlock, s.Become(a, next).(inbox := s.inbox[h - 1 := v.(added := 0, lock := None)]));
    } else {
      var v' := if ok then v else v.(elems := v.elems[..|v.elems| - v.added], added := 0);
      var inbox' := s.inbox[h - 1 := v'.(cached := |v'.elems|)];
      StepsBy(s, a, BatchStore, s.Become(a, Unlocking(h, true, ok)).(inbox := inbox'));
    }
  }
}
