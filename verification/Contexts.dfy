/**
 Host ownership: which thread may produce into which deque. A thread's context names the deque it
 produces into; `scope` saves the context, may take the host's lock and install the host context,
 and puts back what it found. Threads nest scopes over any number of pools.
 */
module Contexts {
  datatype Context = Nowhere | AsWorker(pool: nat, index: nat) | AsHost(pool: nat)

  predicate Belongs(c: Context, p: nat) {
    !c.Nowhere? && c.pool == p
  }

  datatype Kind = Insider | Owning | Helping

  datatype Stage = Taken | Inside | Left

  /** One active `scope` call of a thread. */
  datatype Frame = Frame(pool: nat, previous: Context, kind: Kind, stage: Stage)

  datatype State = State(
    ctx: map<nat, Context>,
    base: map<nat, Context>,      // the context a worker thread installs when it starts
    frames: map<nat, seq<Frame>>,
    owner: map<nat, nat>)         // pools whose host lock is held, and by whom
  {
    function Ctx(t: nat): Context {
      if t in ctx then ctx[t] else Nowhere
    }

    function Base(t: nat): Context {
      if t in base then base[t] else Nowhere
    }

    function Frames(t: nat): seq<Frame> {
      if t in frames then frames[t] else []
    }
  }

  const Start0 := State(map[], map[], map[], map[])

  datatype Action =
    | StartWorker(p: nat, i: nat)
    | Enter(p: nat)       // reads the context and tries the host lock
    | SetHost
    | Restore             // after draining, whether the callback returned or unwound
    | DropGuard
    | Exit

  ghost predicate OnTop(s: State, t: nat, kind: Kind, stage: Stage) {
    var fs := s.Frames(t);
    fs != [] && fs[|fs| - 1].kind == kind && fs[|fs| - 1].stage == stage
  }

  ghost function Top(s: State, t: nat): Frame
    requires s.Frames(t) != []
  {
    s.Frames(t)[|s.Frames(t)| - 1]
  }

  ghost function Push(s: State, t: nat, f: Frame): State {
    s.(frames := s.frames[t := s.Frames(t) + [f]])
  }

  ghost function Replace(s: State, t: nat, f: Frame): State
    requires s.Frames(t) != []
  {
    s.(frames := s.frames[t := s.Frames(t)[..|s.Frames(t)| - 1] + [f]])
  }

  ghost function Pop(s: State, t: nat): State
    requires s.Frames(t) != []
  {
    s.(frames := s.frames[t := s.Frames(t)[..|s.Frames(t)| - 1]])
  }

  ghost predicate Next(s: State, t: nat, a: Action, s': State) {
    match a
    case StartWorker(p, i) =>
      && s.Ctx(t) == s.Base(t) == Nowhere && s.Frames(t) == []
      && (forall u: nat :: s.Base(u) != AsWorker(p, i))
      && s' == s.(ctx := s.ctx[t := AsWorker(p, i)], base := s.base[t := AsWorker(p, i)])
    case Enter(p) =>
      var c := s.Ctx(t);
      s' == if Belongs(c, p) then Push(s, t, Frame(p, c, Insider, Inside))
            else if p !in s.owner then Push(s, t, Frame(p, c, Owning, Taken)).(owner := s.owner[p := t])
            else Push(s, t, Frame(p, c, Helping, Inside))
    case SetHost =>
      && OnTop(s, t, Owning, Taken)
      && s' == Replace(s, t, Top(s, t).(stage := Inside)).(ctx := s.ctx[t := AsHost(Top(s, t).pool)])
    case Restore =>
      && OnTop(s, t, Owning, Inside)
      && s' == Replace(s, t, Top(s, t).(stage := Left)).(ctx := s.ctx[t := Top(s, t).previous])
    case DropGuard =>
      OnTop(s, t, Owning, Left) && s' == Pop(s, t).(owner := s.owner - {Top(s, t).pool})
    case Exit =>
      && (OnTop(s, t, Insider, Inside) || OnTop(s, t, Helping, Inside))
      && s' == Pop(s, t)
  }

  // ---------------------------------------------------------------- invariant

  /** The context in force while `f` is the innermost frame. */
  function Within(f: Frame): Context {
    if f.kind == Owning && f.stage == Inside then AsHost(f.pool) else f.previous
  }

  /** Each frame found the context its outer frame had in force, down to the thread's base. */
  ghost predicate Chain(fs: seq<Frame>, base: Context, ctx: Context) {
    if fs == [] then ctx == base
    else
      var f := fs[|fs| - 1];
      && ctx == Within(f)
      && (f.kind == Insider ==> Belongs(f.previous, f.pool))
      && Chain(fs[..|fs| - 1], base, f.previous)
  }

  /** A context is the thread's base, or the host of a pool whose lock one of its frames holds. */
  ghost predicate Justified(fs: seq<Frame>, base: Context, c: Context) {
    c == base || exists k :: 0 <= k < |fs| && fs[k].kind == Owning && c == AsHost(fs[k].pool)
  }

  lemma {:induction false} ChainJustifies(fs: seq<Frame>, base: Context, ctx: Context)
    requires Chain(fs, base, ctx)
    ensures Justified(fs, base, ctx)
  {
    if fs != [] {
      var n := |fs| - 1;
      var f := fs[n];
      if !(f.kind == Owning && f.stage == Inside) {
        ChainJustifies(fs[..n], base, f.previous);
        if ctx != base {
          var k :| 0 <= k < n && fs[..n][k].kind == Owning && ctx == AsHost(fs[..n][k].pool);
          assert fs[k].kind == Owning && ctx == AsHost(fs[k].pool);
        }
      } else {
        assert fs[n].kind == Owning && ctx == AsHost(fs[n].pool);
      }
    }
  }

  /** The thread's frames hold distinct host locks, and really hold them. */
  ghost predicate Holds(fs: seq<Frame>, owner: map<nat, nat>, t: nat) {
    && (forall k :: 0 <= k < |fs| && fs[k].kind == Owning ==> fs[k].pool in owner && owner[fs[k].pool] == t)
    && (forall j, k :: 0 <= j < k < |fs| && fs[j].kind == Owning && fs[k].kind == Owning ==> fs[j].pool != fs[k].pool)
  }

  ghost predicate ThreadInv(s: State, t: nat) {
    Chain(s.Frames(t), s.Base(t), s.Ctx(t)) && Holds(s.Frames(t), s.owner, t)
  }

  ghost predicate Bases(s: State) {
    && (forall t: nat :: !s.Base(t).AsHost?)
    && (forall t: nat, u: nat :: t != u && s.Base(t) == s.Base(u) ==> s.Base(t) == Nowhere)
  }

  /** One of the frames owns the host of pool `p`. */
  ghost predicate Owns(fs: seq<Frame>, p: nat) {
    exists k :: 0 <= k < |fs| && fs[k].kind == Owning && fs[k].pool == p
  }

  /** Every held host lock belongs to a frame of the thread that holds it. */
  ghost predicate Owned(s: State) {
    forall p: nat :: p in s.owner ==> Owns(s.Frames(s.owner[p]), p)
  }

  ghost predicate Inv(s: State) {
    Bases(s) && Owned(s) && forall t: nat :: ThreadInv(s, t)
  }

  /** A step of one thread touches no other thread's frames or locks. */
  lemma OwnerMoves(s: State, t: nat, a: Action, s': State, p: nat)
    requires ThreadInv(s, t) && Next(s, t, a, s') && p in s'.owner && s'.owner[p] != t
    ensures p in s.owner && s.owner[p] == s'.owner[p] && s'.Frames(s.owner[p]) == s.Frames(s.owner[p])
  {
    hide Chain, Belongs, Within, Holds;
  }

  lemma OwnedStep(s: State, t: nat, a: Action, s': State)
    requires Owned(s) && ThreadInv(s, t) && Next(s, t, a, s')
    ensures Owned(s')
  {
    hide Next, ThreadInv, Owns;
    forall p: nat | p in s'.owner
      ensures Owns(s'.Frames(s'.owner[p]), p)
    {
      if s'.owner[p] != t {
        OwnerMoves(s, t, a, s', p);
      } else {
        OwnedByActor(s, t, a, s', p);
      }
    }
  }

  lemma OwnedByActor(s: State, t: nat, a: Action, s': State, p: nat)
    requires Owned(s) && ThreadInv(s, t) && Next(s, t, a, s')
    requires p in s'.owner && s'.owner[p] == t
    ensures Owns(s'.Frames(t), p)
  {
    hide Chain, Belongs, Within;
    var fs, fs' := s.Frames(t), s'.Frames(t);
    if p in s.owner && s.owner[p] == t {
      var k :| 0 <= k < |fs| && fs[k].kind == Owning && fs[k].pool == p;
      assert k < |fs'| && fs'[k].kind == Owning && fs'[k].pool == p;
    } else {
      assert fs'[|fs|].kind == Owning && fs'[|fs|].pool == p;
    }
  }

  /** The host locks a thread holds are those its frames own. */
  lemma LocksAreFrames(s: State, t: nat, p: nat)
    requires Inv(s)
    ensures (p in s.owner && s.owner[p] == t) <==> Owns(s.Frames(t), p)
  {
    assert ThreadInv(s, t);
    hide Chain;
  }

  lemma BasesStep(s: State, t: nat, a: Action, s': State)
    requires Bases(s) && Next(s, t, a, s')
    ensures Bases(s')
  {
    hide OnTop, Chain;
    assert forall u: nat :: u != t ==> s'.Base(u) == s.Base(u);
    assert !a.StartWorker? ==> s'.Base(t) == s.Base(t);
    assert s'.Base(t) == s.Base(t) || (s'.Base(t).AsWorker? && forall u: nat :: s.Base(u) != s'.Base(t));
    hide Next;
    forall u: nat, v: nat | u != v && s'.Base(u) == s'.Base(v)
      ensures s'.Base(u) == Nowhere
    {
      assert s.Base(u) == s.Base(v) ==> s.Base(u) == Nowhere;
    }
  }

  /** A step of one thread changes another thread's view at most by taking or giving back a host lock. */
  lemma OtherThreads(s: State, t: nat, a: Action, s': State, u: nat)
    requires Next(s, t, a, s') && u != t && ThreadInv(s, u) && ThreadInv(s, t)
    ensures ThreadInv(s', u)
  {
    assert s'.Frames(u) == s.Frames(u) && s'.Base(u) == s.Base(u) && s'.Ctx(u) == s.Ctx(u);
    hide Chain;
  }

  lemma OwnThread(s: State, t: nat, a: Action, s': State)
    requires Next(s, t, a, s') && ThreadInv(s, t)
    ensures ThreadInv(s', t)
  {
    match a
    case StartWorker(p, i) =>
    case Enter(p) => OwnEnter(s, t, p, s');
    case Exit => OwnPop(s, t, a, s');
    case DropGuard => OwnPop(s, t, a, s');
    case _ => OwnStage(s, t, a, s');
  }

  lemma OwnEnter(s: State, t: nat, p: nat, s': State)
    requires Next(s, t, Enter(p), s') && ThreadInv(s, t)
    ensures ThreadInv(s', t)
  {
    var c := s.Ctx(t);
    var f := Top(s', t);
    var fs := s.Frames(t);
    assert s'.Frames(t) == fs + [f] && s'.Base(t) == s.Base(t) && s'.Ctx(t) == c;
    assert f.previous == Within(f) == c && (f.kind == Insider ==> Belongs(c, f.pool));
    assert f.kind == Owning ==> f.pool !in s.owner;
    assert s'.owner == if f.kind == Owning then s.owner[f.pool := t] else s.owner;
    hide Next, Chain, Holds, Within, Belongs;
    ChainPush(fs, s.Base(t), c, f);
    HoldsPush(fs, s.owner, t, f);
  }

  lemma ChainPush(fs: seq<Frame>, base: Context, c: Context, f: Frame)
    requires Chain(fs, base, c) && f.previous == Within(f) == c && (f.kind == Insider ==> Belongs(c, f.pool))
    ensures Chain(fs + [f], base, c)
  {
    assert (fs + [f])[..|fs + [f]| - 1] == fs;
  }

  /** A host lock is taken only when it is free, so no other frame holds it. */
  lemma HoldsPush(fs: seq<Frame>, owner: map<nat, nat>, t: nat, f: Frame)
    requires Holds(fs, owner, t) && (f.kind == Owning ==> f.pool !in owner)
    ensures Holds(fs + [f], if f.kind == Owning then owner[f.pool := t] else owner, t)
  {
  }

  lemma OwnStage(s: State, t: nat, a: Action, s': State)
    requires (a == SetHost || a == Restore) && Next(s, t, a, s') && ThreadInv(s, t)
    ensures ThreadInv(s', t)
  {
    var fs, fs' := s.Frames(t), s'.Frames(t);
    var n := |fs| - 1;
    assert fs' == fs[..n] + [fs'[n]] && fs'[..n] == fs[..n];
    ChainTop(s, t);
    assert fs'[n].previous == fs[n].previous && fs'[n].kind == Owning && fs'[n].pool == fs[n].pool;
    assert s'.Ctx(t) == Within(fs'[n]);
    assert s'.owner == s.owner;
    assert forall k :: 0 <= k < n ==> fs'[k] == fs[k];
    hide Next, OnTop;
  }

  lemma OwnPop(s: State, t: nat, a: Action, s': State)
    requires (a == Exit || a == DropGuard) && Next(s, t, a, s') && ThreadInv(s, t)
    ensures ThreadInv(s', t)
  {
    ChainTop(s, t);
    var fs, fs' := s.Frames(t), s'.Frames(t);
    assert fs' == fs[..|fs| - 1];
    assert forall k :: 0 <= k < |fs'| ==> fs'[k] == fs[k];
    hide Chain;
  }

  lemma ChainTop(s: State, t: nat)
    requires ThreadInv(s, t) && s.Frames(t) != []
    ensures Chain(s.Frames(t)[..|s.Frames(t)| - 1], s.Base(t), Top(s, t).previous)
    ensures s.Ctx(t) == Within(Top(s, t))
  {
  }

  lemma StepInv(s: State, t: nat, a: Action, s': State)
    requires Inv(s) && Next(s, t, a, s')
    ensures Inv(s')
  {
    BasesStep(s, t, a, s');
    assert ThreadInv(s, t);
    OwnedStep(s, t, a, s');
    hide Owned;
    forall u: nat
      ensures ThreadInv(s', u)
    {
      assert ThreadInv(s, u) && ThreadInv(s, t);
      if u == t {
        OwnThread(s, t, a, s');
      } else {
        OtherThreads(s, t, a, s', u);
      }
    }
    hide ThreadInv, Bases;
  }

  // ---------------------------------------------------------------- whole runs

  ghost predicate Run(states: seq<State>, threads: seq<nat>, acts: seq<Action>) {
    && |states| == |acts| + 1 && |threads| == |acts| && states[0] == Start0
    && forall k :: 0 <= k < |acts| ==> Next(states[k], threads[k], acts[k], states[k + 1])
  }

  lemma {:induction false} RunInv(states: seq<State>, threads: seq<nat>, acts: seq<Action>, k: nat)
    requires Run(states, threads, acts) && k < |states|
    ensures Inv(states[k])
  {
    if k > 0 {
      hide Next, Inv;
      RunInv(states, threads, acts, k - 1);
      StepInv(states[k - 1], threads[k - 1], acts[k - 1], states[k]);
    }
  }

  /** Each deque has at most one producer: no two threads ever have the same pool and index. */
  lemma OneProducer(states: seq<State>, threads: seq<nat>, acts: seq<Action>, k: nat, t: nat, u: nat)
    requires Run(states, threads, acts) && k < |states|
    requires states[k].Ctx(t) == states[k].Ctx(u) != Nowhere
    ensures t == u
  {
    RunInv(states, threads, acts, k);
    var s := states[k];
    assert ThreadInv(s, t) && ThreadInv(s, u);
    ChainJustifies(s.Frames(t), s.Base(t), s.Ctx(t));
    ChainJustifies(s.Frames(u), s.Base(u), s.Ctx(u));
    hide Chain;
  }

  /** A host context is in force only under the host lock, held by that thread. */
  lemma HostNeedsLock(states: seq<State>, threads: seq<nat>, acts: seq<Action>, k: nat, t: nat, p: nat)
    requires Run(states, threads, acts) && k < |states| && states[k].Ctx(t) == AsHost(p)
    ensures p in states[k].owner && states[k].owner[p] == t
  {
    RunInv(states, threads, acts, k);
    var s := states[k];
    assert ThreadInv(s, t);
    ChainJustifies(s.Frames(t), s.Base(t), s.Ctx(t));
    hide Chain;
  }

  /** Leaving a scope, the thread's context is the one the scope found when it was entered. */
  lemma ExitRestores(states: seq<State>, threads: seq<nat>, acts: seq<Action>, k: nat)
    requires Run(states, threads, acts) && k < |acts| && acts[k] in {Exit, DropGuard}
    ensures states[k].Frames(threads[k]) != []
    ensures states[k + 1].Ctx(threads[k]) == Top(states[k], threads[k]).previous
    ensures states[k + 1].Frames(threads[k]) == states[k].Frames(threads[k])[..|states[k].Frames(threads[k])| - 1]
  {
    RunInv(states, threads, acts, k);
    var s, t := states[k], threads[k];
    assert Next(s, t, acts[k], states[k + 1]);
    assert ThreadInv(s, t);
    ChainTop(s, t);
  }

  /** While a scope is active, the frames below it and the context it saved do not change. */
  lemma {:induction false} FrameStays(
      states: seq<State>, threads: seq<nat>, acts: seq<Action>, i: nat, m: nat, t: nat, p: nat)
    requires Run(states, threads, acts) && i < m < |states|
    requires threads[i] == t && acts[i] == Enter(p)
    requires forall h :: i < h <= m ==> |states[h].Frames(t)| > |states[i].Frames(t)|
    ensures var d := |states[i].Frames(t)|;
      && states[m].Frames(t)[..d] == states[i].Frames(t)
      && states[m].Frames(t)[d].previous == states[i].Ctx(t)
  {
    var d := |states[i].Frames(t)|;
    assert Next(states[m - 1], threads[m - 1], acts[m - 1], states[m]);
    if m > i + 1 {
      FrameStays(states, threads, acts, i, m - 1, t, p);
      OneFrameStays(states[m - 1], threads[m - 1], acts[m - 1], states[m], t, d);
      hide Next;
    }
  }

  lemma OneFrameStays(s: State, u: nat, a: Action, s': State, t: nat, d: nat)
    requires Next(s, u, a, s') && |s.Frames(t)| > d && |s'.Frames(t)| > d
    ensures s'.Frames(t)[..d] == s.Frames(t)[..d] && s'.Frames(t)[d].previous == s.Frames(t)[d].previous
  {
    if u != t {
      assert s'.Frames(t) == s.Frames(t);
    }
  }

  /** However scopes nest in between, the thread leaves a scope with the context it entered it with. */
  lemma ScopeRestores(states: seq<State>, threads: seq<nat>, acts: seq<Action>, i: nat, k: nat, t: nat, p: nat)
    requires Run(states, threads, acts) && i < k < |acts|
    requires threads[i] == threads[k] == t && acts[i] == Enter(p) && acts[k] in {Exit, DropGuard}
    requires forall h :: i < h <= k ==> |states[h].Frames(t)| > |states[i].Frames(t)|
    requires |states[k + 1].Frames(t)| == |states[i].Frames(t)|
    ensures states[k + 1].Ctx(t) == states[i].Ctx(t) && states[k + 1].Frames(t) == states[i].Frames(t)
    ensures forall q: nat :: (q in states[k + 1].owner && states[k + 1].owner[q] == t) <==>
      (q in states[i].owner && states[i].owner[q] == t)
  {
    FrameStays(states, threads, acts, i, k, t, p);
    ExitRestores(states, threads, acts, k);
    RunInv(states, threads, acts, i);
    RunInv(states, threads, acts, k + 1);
    hide Inv, Run, Owns, Next;
    forall q: nat
      ensures (q in states[k + 1].owner && states[k + 1].owner[q] == t) <==>
        (q in states[i].owner && states[i].owner[q] == t)
    {
      LocksAreFrames(states[i], t, q);
      LocksAreFrames(states[k + 1], t, q);
    }
  }

  /** A thread that is in no scope holds no host lock. */
  lemma OutsideHoldsNothing(states: seq<State>, threads: seq<nat>, acts: seq<Action>, k: nat, t: nat, p: nat)
    requires Run(states, threads, acts) && k < |states| && states[k].Frames(t) == []
    ensures !(p in states[k].owner && states[k].owner[p] == t)
  {
    RunInv(states, threads, acts, k);
    LocksAreFrames(states[k], t, p);
  }

  /** An outsider becomes the host of a pool exactly if no thread is inside it as its host. */
  lemma OutsiderBecomesHost(states: seq<State>, threads: seq<nat>, acts: seq<Action>, k: nat, p: nat)
    requires Run(states, threads, acts) && k < |acts| && acts[k] == Enter(p)
    requires !Belongs(states[k].Ctx(threads[k]), p)
    ensures states[k + 1].Frames(threads[k]) != []
    ensures var f := Top(states[k + 1], threads[k]);
      && f.pool == p && f.kind in {Owning, Helping}
      && (f.kind == Owning <==> forall u: nat :: !Owns(states[k].Frames(u), p))
      && (f.kind == Owning <==> p in states[k + 1].owner && states[k + 1].owner[p] == threads[k] && p !in states[k].owner)
  {
    var s, t := states[k], threads[k];
    RunInv(states, threads, acts, k);
    assert Next(s, t, acts[k], states[k + 1]);
    if p in s.owner {
      assert Owns(s.Frames(s.owner[p]), p);
    } else {
      forall u: nat
        ensures !Owns(s.Frames(u), p)
      {
        LocksAreFrames(s, u, p);
      }
    }
    hide Inv, Run, Owns, Belongs;
  }

  /** Inside a scope without a private helper the thread has a worker of that pool to drain with. */
  lemma WorkerIsThere(states: seq<State>, threads: seq<nat>, acts: seq<Action>, k: nat, t: nat)
    requires Run(states, threads, acts) && k < |states| && states[k].Frames(t) != []
    requires Top(states[k], t).stage == Inside && Top(states[k], t).kind != Helping
    ensures Belongs(states[k].Ctx(t), Top(states[k], t).pool)
  {
    RunInv(states, threads, acts, k);
    assert ThreadInv(states[k], t);
  }
}
