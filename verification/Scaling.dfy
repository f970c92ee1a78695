/**
  The scale-set scaler beside the orchestrator. The scaler's own lock is held while the
  orchestrator's lock is taken and released, so the two counts it adds are read at different times.
 */
module Scaling {
  import opened Collections
  import opened Pool
  import opened Protocol
  import opened Runs
  import Accounting
  import Orchestrators

  /** How many workers to start for a wanted count. */
  function ScaleUp(count: int, maxRunners: int, current: int): nat {
    var target := if count < maxRunners then count else maxRunners;
    if target > current then target - current else 0
  }

  class Scaler {
    const orch: Orchestrators.Orchestrator
    const runnerName: string
    const maxRunners: int
    var pendingCount: int

    constructor (orch: Orchestrators.Orchestrator, runnerName: string, maxRunners: int)
      ensures this.orch == orch && this.runnerName == runnerName && this.maxRunners == maxRunners && pendingCount == 0
    {
      this.orch, this.runnerName, this.maxRunners := orch, runnerName, maxRunners;
      pendingCount := 0;
    }

    /** Raise active plus pending to the wanted count, capped by maxRunners; never lower it. */
    method HandleDesiredRunnerCount(count: int) returns (target: int, scaleUp: nat)
      requires orch.Valid()
      modifies this`pendingCount
      ensures target == if count < maxRunners then count else maxRunners
      ensures scaleUp == ScaleUp(count, maxRunners, Count(orch.activeWorkers, Of(runnerName)) + old(pendingCount))
      ensures pendingCount == old(pendingCount) + scaleUp
      ensures Count(orch.activeWorkers, Of(runnerName)) + pendingCount
              == Max(Count(orch.activeWorkers, Of(runnerName)) + old(pendingCount), target)
    {
      var pending := pendingCount;
      var active := orch.GetActiveCount(runnerName);
      var currentCount := active + pending;
      target := if count < maxRunners then count else maxRunners;
      scaleUp := 0;
      if target > currentCount {
        scaleUp := target - currentCount;
        pendingCount := pendingCount + scaleUp;
      }
    }

    /** The deferred decrement of startWorker. */
    method WorkerDone()
      modifies this`pendingCount
      ensures pendingCount == old(pendingCount) - 1
    {
      pendingCount := pendingCount - 1;
    }
  }

  // ----- the protocol

  /** The handler holds the scaler's lock in Locked and Counted. */
  datatype Handler = Idle | Locked(pending: int) | Counted(pending: int, active: int)

  datatype ScalerState = ScalerState(
    runner: string,
    maxRunners: int,
    pendingCount: int,
    minting: nat,       // startWorker goroutines that have not called AllocateWorker
    starters: set<Tid>, // startWorker goroutines that have, and have not run their deferred decrement
    handler: Handler)

  /** The orchestrator, the scaler, and what an earlier scaler of the same runner has left behind. */
  datatype World = World(
    sys: Sys,
    sc: ScalerState,
    inherited: nat,     // its startWorker goroutines that have not called AllocateWorker
    stale: set<Tid>)    // and those that have

  datatype Move =
    | Lock
    | ReadActive
    | Commit(count: int)
    | Mint(t: Tid, id: Id)
    | MintFails
    | Finish(t: Tid)
    | Inherit(t: Tid, id: Id)
    | InheritFails
    | Other(a: Action)

  /** A call of AllocateWorker for the runner that has not registered its container. */
  function Unregistered(r: string): Pc -> bool {
    (pc: Pc) => (IsWaiting(pc) || InLimbo(pc)) && pc.runner == r
  }

  predicate Enabled(w: World, m: Move) {
    var s, sc := w.sys, w.sc;
    match m
    case Lock => sc.handler.Idle?
    case ReadActive => sc.handler.Locked? && Unlocked(s)
    case Commit(_) => sc.handler.Counted?
    case Mint(t, id) => sc.minting > 0 && Protocol.Enabled(s, Begin(t, sc.runner, id))
    case MintFails => sc.minting > 0 && sc.handler.Idle?
    case Finish(t) =>
      t in sc.starters && sc.handler.Idle? && t in s.threads && (s.threads[t].Returned? || s.threads[t].Cancelled?)
    case Inherit(t, id) => w.inherited > 0 && Protocol.Enabled(s, Begin(t, sc.runner, id))
    case InheritFails => w.inherited > 0
    case Other(a) => Protocol.Enabled(s, a) && !(a.Begin? && a.runner == sc.runner)
  }

  ghost function Next(w: World, m: Move): World
    requires Enabled(w, m)
  {
    var s, sc := w.sys, w.sc;
    match m
    case Lock => w.(sc := sc.(handler := Locked(sc.pendingCount)))
    case ReadActive =>
      w.(sc := sc.(handler := Counted(sc.handler.pending, Get(s.pool.listeners, sc.runner))))
    case Commit(count) =>
      var up := ScaleUp(count, sc.maxRunners, sc.handler.active + sc.handler.pending);
      w.(sc := sc.(pendingCount := sc.pendingCount + up, minting := sc.minting + up, handler := Idle))
    case Mint(t, id) =>
      w.(sys := Apply(s, Begin(t, sc.runner, id)), sc := sc.(minting := sc.minting - 1, starters := sc.starters + {t}))
    case MintFails =>
      w.(sc := sc.(minting := sc.minting - 1, pendingCount := sc.pendingCount - 1))
    case Finish(t) =>
      w.(sc := sc.(starters := sc.starters - {t}, pendingCount := sc.pendingCount - 1))
    case Inherit(t, id) =>
      w.(sys := Apply(s, Begin(t, sc.runner, id)), inherited := w.inherited - 1, stale := w.stale + {t})
    case InheritFails =>
      w.(inherited := w.inherited - 1)
    case Other(a) =>
      w.(sys := Apply(s, a))
  }

  /** Workers the runner has. */
  ghost function Active(w: World): nat {
    Count(w.sys.pool.active, Of(w.sc.runner))
  }

  /** The calls of the runner that have not registered a container. */
  ghost function Calls(w: World): set<Tid> {
    Where(w.sys.threads, Unregistered(w.sc.runner))
  }

  /** Start goroutines, the scaler's own and inherited ones, that may still register a worker. */
  ghost function Coming(w: World): nat {
    w.sc.minting + w.inherited + |Calls(w)|
  }

  /** What the books depend on besides the scaler itself. */
  datatype Around = Around(active: nat, calls: set<Tid>, threads: set<Tid>, inherited: nat, stale: set<Tid>)

  ghost function AroundOf(w: World): Around {
    Around(Active(w), Calls(w), w.sys.threads.Keys, w.inherited, w.stale)
  }

  /** The scaler's books; at most k starts were inherited. */
  ghost predicate Balanced(sc: ScalerState, o: Around, k: nat, bound: int) {
    var total := o.active + sc.minting + o.inherited + |o.calls|;
    && sc.maxRunners + k <= bound
    && o.calls <= sc.starters + o.stale && sc.starters + o.stale <= o.threads && |o.stale| + o.inherited <= k
    && sc.pendingCount == sc.minting + |sc.starters|
    && total <= bound
    && (sc.handler.Locked? ==> sc.handler.pending == sc.pendingCount)
    && (sc.handler.Counted? ==> sc.handler.pending == sc.pendingCount
                                && total <= sc.handler.active + sc.handler.pending + k)
  }

  ghost predicate Sound(w: World, k: nat, bound: int) {
    Inv(w.sys) && Balanced(w.sc, AroundOf(w), k, bound)
  }

  lemma CommitRaises(sc: ScalerState, w: World, count: int)
    requires w.sc == sc && sc.handler.Counted? && sc.handler.pending == sc.pendingCount
    ensures var sc' := Next(w, Commit(count)).sc;
            && sc'.pendingCount >= sc.pendingCount && sc'.minting - sc.minting == sc'.pendingCount - sc.pendingCount
            && sc.handler.active + sc'.pendingCount
               == Max(sc.handler.active + sc.pendingCount, if count < sc.maxRunners then count else sc.maxRunners)
  {
  }

  /** A fresh scaler: nothing pending. Every call for its runner is an inherited one. */
  ghost predicate FreshScaler(w: World) {
    && w.sc.pendingCount == 0 && w.sc.minting == 0 && w.sc.starters == {} && w.sc.handler.Idle?
    && w.stale == Calls(w)
  }

  /** Only a begin makes a call of the runner unregistered. */
  lemma UnregisteredBefore(s: Sys, a: Action, r: string)
    requires Protocol.Enabled(s, a) && Actor(a).Some? && a.t in Apply(s, a).threads
    requires Unregistered(r)(Apply(s, a).threads[a.t]) && !(a.Begin? && a.runner == r)
    ensures a.t in s.threads && Unregistered(r)(s.threads[a.t])
  {
    if Claims(a) {
      ClaimerBefore(s, a, r);
    } else if Ends(a) {
      EndersDoNotCall(s, a);
    } else {
      CallGoesOn(s, a);
    }
  }

  lemma EndersDoNotCall(s: Sys, a: Action)
    requires Protocol.Enabled(s, a) && Ends(a) && a.t in Apply(s, a).threads
    ensures !Apply(s, a).threads[a.t].Waiting? && !InLimbo(Apply(s, a).threads[a.t])
  {
  }

  lemma CallGoesOn(s: Sys, a: Action)
    requires Protocol.Enabled(s, a) && Actor(a).Some? && !Claims(a) && !Ends(a) && a.t in Apply(s, a).threads
    requires Apply(s, a).threads[a.t].Waiting? || InLimbo(Apply(s, a).threads[a.t])
    ensures a.t in s.threads && InLimbo(s.threads[a.t]) && s.threads[a.t].runner == Apply(s, a).threads[a.t].runner
  {
  }

  lemma ClaimerBefore(s: Sys, a: Action, r: string)
    requires Protocol.Enabled(s, a) && Claims(a) && a.t in Apply(s, a).threads
    requires Apply(s, a).threads[a.t].Claimed? || Apply(s, a).threads[a.t].Waiting?
    requires Apply(s, a).threads[a.t].runner == r && !(a.Begin? && a.runner == r)
    ensures a.t in s.threads && Unregistered(r)(s.threads[a.t])
  {
  }

  /** A registration moves one call of the runner from coming to active. */
  lemma ActiveStep(s: Sys, a: Action, r: string)
    requires Protocol.Enabled(s, a) && (a.Admit? ==> s.threads[a.t].id !in s.pool.active)
    ensures Count(Apply(s, a).pool.active, Of(r))
            <= Count(s.pool.active, Of(r)) + (if a.Admit? && s.threads[a.t].runner == r then 1 else 0)
  {
    if a.Admit? {
      ActiveAdmit(s, a, r);
    } else {
      StepMoves(s, a);
      ActiveShrinks(s.pool, Apply(s, a).pool, MoveOf(s, a), r);
    }
  }

  lemma ActiveAdmit(s: Sys, a: Action, r: string)
    requires Protocol.Enabled(s, a) && a.Admit? && s.threads[a.t].id !in s.pool.active
    ensures Count(Apply(s, a).pool.active, Of(r))
            == Count(s.pool.active, Of(r)) + (if s.threads[a.t].runner == r then 1 else 0)
  {
    CountUpdate(s.pool.active, s.threads[a.t].id, ActiveWorker(s.threads[a.t].ip, s.threads[a.t].runner), Of(r));
  }

  lemma ActiveShrinks(p: Pool, p': Pool, m: Protocol.Move, r: string)
    requires PoolMoved(p, p', m) && !m.Join?
    ensures Count(p'.active, Of(r)) <= Count(p.active, Of(r))
  {
    forall id <- Where(p'.active, Of(r)) ensures id in Where(p.active, Of(r)) {}
    SubsetSize(Where(p'.active, Of(r)), Where(p.active, Of(r)));
  }

  /** Whatever else the orchestrator does, active plus coming does not grow. */
  lemma OtherShrinks(s: Sys, a: Action, r: string)
    requires Protocol.Enabled(s, a) && !(a.Begin? && a.runner == r)
    requires a.Admit? ==> s.threads[a.t].id !in s.pool.active
    ensures var s' := Apply(s, a);
            Count(s'.pool.active, Of(r)) + Count(s'.threads, Unregistered(r))
            <= Count(s.pool.active, Of(r)) + Count(s.threads, Unregistered(r))
  {
    ActiveStep(s, a, r);
    CountStep(s, a, Unregistered(r));
    if Actor(a).Some? && Unregistered(r)(Apply(s, a).threads[a.t]) {
      UnregisteredBefore(s, a, r);
    }
    if a.Admit? {
      assert Unregistered(r)(s.threads[a.t]) <==> s.threads[a.t].runner == r;
      assert !Unregistered(r)(Apply(s, a).threads[a.t]);
    }
  }

  lemma OtherKeepsCalls(s: Sys, a: Action, r: string)
    requires Protocol.Enabled(s, a) && !(a.Begin? && a.runner == r)
    ensures Where(Apply(s, a).threads, Unregistered(r)) <= Where(s.threads, Unregistered(r))
    ensures s.threads.Keys <= Apply(s, a).threads.Keys
  {
    MovesOne(s, a);
    if Actor(a).Some? && Unregistered(r)(Apply(s, a).threads[a.t]) {
      UnregisteredBefore(s, a, r);
    }
  }

  lemma BeginPc(s: Sys, t: Tid, r: string, id: Id)
    requires Protocol.Enabled(s, Begin(t, r, id))
    ensures var s' := Apply(s, Begin(t, r, id));
            && t in s'.threads && s'.threads == s.threads[t := s'.threads[t]] && Unregistered(r)(s'.threads[t])
            && s'.pool.active == s.pool.active
  {
  }

  /** A begin adds one call, and touches no active worker. */
  lemma BeginAdds(s: Sys, t: Tid, r: string, id: Id)
    requires Protocol.Enabled(s, Begin(t, r, id))
    ensures var s' := Apply(s, Begin(t, r, id));
            && Where(s'.threads, Unregistered(r)) == Where(s.threads, Unregistered(r)) + {t}
            && s'.threads.Keys == s.threads.Keys + {t}
            && s'.pool.active == s.pool.active
  {
    BeginPc(s, t, r, id);
    var threads' := Apply(s, Begin(t, r, id)).threads;
    WhereUpdate(s.threads, t, threads'[t], Unregistered(r));
  }

  lemma WhereUpdate<K, V>(m: map<K, V>, k: K, v: V, p: V -> bool)
    requires p(v)
    ensures Where(m[k := v], p) == Where(m, p) + {k}
  {
  }

  lemma BalancedMint(sc: ScalerState, o: Around, k: nat, bound: int, t: Tid)
    requires Balanced(sc, o, k, bound) && t !in o.threads && sc.minting > 0
    ensures Balanced(sc.(minting := sc.minting - 1, starters := sc.starters + {t}),
                     o.(calls := o.calls + {t}, threads := o.threads + {t}), k, bound)
  {
    assert |sc.starters + {t}| == |sc.starters| + 1;
    assert |o.calls + {t}| == |o.calls| + 1;
  }

  lemma BalancedInherit(sc: ScalerState, o: Around, k: nat, bound: int, t: Tid)
    requires Balanced(sc, o, k, bound) && t !in o.threads && o.inherited > 0
    ensures Balanced(sc, o.(calls := o.calls + {t}, threads := o.threads + {t}, inherited := o.inherited - 1,
                            stale := o.stale + {t}), k, bound)
  {
    assert |o.stale + {t}| == |o.stale| + 1;
    assert |o.calls + {t}| == |o.calls| + 1;
  }

  lemma SoundBegin(w: World, m: Move, k: nat, bound: int)
    requires Enabled(w, m) && Sound(w, k, bound) && (m.Mint? || m.Inherit?)
    ensures Sound(Next(w, m), k, bound)
  {
    InvStep(w.sys, Begin(m.t, w.sc.runner, m.id));
    BeginAdds(w.sys, m.t, w.sc.runner, m.id);
    if m.Mint? {
      BalancedMint(w.sc, AroundOf(w), k, bound, m.t);
    } else {
      BalancedInherit(w.sc, AroundOf(w), k, bound, m.t);
    }
  }

  lemma SoundOther(w: World, m: Move, k: nat, bound: int)
    requires Enabled(w, m) && Sound(w, k, bound) && m.Other?
    ensures Sound(Next(w, m), k, bound)
  {
    InvStep(w.sys, m.a);
    Fresh(w.sys, m.a);
    OtherShrinks(w.sys, m.a, w.sc.runner);
    OtherKeepsCalls(w.sys, m.a, w.sc.runner);
  }

  /** A move of the handler, of a goroutine that fails or finishes: the orchestrator does not move. */
  predicate IsInternal(m: Move) {
    !m.Mint? && !m.Inherit? && !m.Other?
  }

  /** At most as many calls as starts are counted or inherited. */
  lemma CallsCovered(sc: ScalerState, o: Around, k: nat, bound: int)
    requires Balanced(sc, o, k, bound)
    ensures |o.calls| <= |sc.starters| + |o.stale|
  {
    SubsetSize(o.calls, sc.starters + o.stale);
    assert sc.starters + o.stale == sc.starters + (o.stale - sc.starters);
    SubsetSize(o.stale - sc.starters, o.stale);
  }

  /** What such a move does to the books. */
  lemma BalancedInternal(w: World, m: Move, o: Around, k: nat, bound: int)
    requires Enabled(w, m) && IsInternal(m) && o.inherited == w.inherited
    requires Balanced(w.sc, o, k, bound)
    requires m.ReadActive? ==> Get(w.sys.pool.listeners, w.sc.runner) == o.active
    requires m.Finish? ==> m.t !in o.calls
    ensures Balanced(Next(w, m).sc, o.(inherited := Next(w, m).inherited), k, bound)
  {
    CallsCovered(w.sc, o, k, bound);
    if m.Finish? {
      assert |w.sc.starters - {m.t}| == |w.sc.starters| - 1;
    }
  }

  lemma SoundInternal(w: World, m: Move, k: nat, bound: int)
    requires Enabled(w, m) && Sound(w, k, bound) && IsInternal(m)
    ensures Sound(Next(w, m), k, bound)
  {
    assert Accounting.Indexed(w.sys);
    IndexReads(w.sys.pool, w.sc.runner);
    FinishedIsNoCall(w, m);
    BalancedInternal(w, m, AroundOf(w), k, bound);
    InternalKeepsSys(w, m);
  }

  lemma FinishedIsNoCall(w: World, m: Move)
    requires Enabled(w, m)
    ensures m.Finish? ==> m.t !in Calls(w)
  {
    if m.Finish? {
      assert !Unregistered(w.sc.runner)(w.sys.threads[m.t]);
    }
  }

  lemma InternalKeepsSys(w: World, m: Move)
    requires Enabled(w, m) && IsInternal(m)
    ensures Next(w, m).sys == w.sys && Next(w, m).sc.runner == w.sc.runner && Next(w, m).stale == w.stale
  {
  }

  ghost predicate Legal(w: World, run: seq<Move>)
    decreases |run|
  {
    run == [] || (Enabled(w, run[0]) && Legal(Next(w, run[0]), run[1..]))
  }

  ghost function Exec(w: World, run: seq<Move>): World
    requires Legal(w, run)
    decreases |run|
  {
    if run == [] then w else Exec(Next(w, run[0]), run[1..])
  }

  lemma {:induction false} SoundRun(w: World, run: seq<Move>, k: nat, bound: int)
    requires Legal(w, run) && Sound(w, k, bound)
    ensures Sound(Exec(w, run), k, bound)
    decreases |run|
  {
    if run != [] {
      if run[0].Mint? || run[0].Inherit? {
        SoundBegin(w, run[0], k, bound);
      } else if run[0].Other? {
        SoundOther(w, run[0], k, bound);
      } else {
        SoundInternal(w, run[0], k, bound);
      }
      SoundRun(Next(w, run[0]), run[1..], k, bound);
    }
  }

  lemma FreshIsSound(w: World, k: nat)
    requires Inv(w.sys) && FreshScaler(w) && k == w.inherited + |Calls(w)|
    ensures Sound(w, k, Max(w.sc.maxRunners, Active(w)) + k)
  {
    assert Where(w.sys.threads, Unregistered(w.sc.runner)) <= w.sys.threads.Keys;
  }

  /**
    The scaler never over-provisions. From any reachable state of the orchestrator, active workers and
    start goroutines that may still register one never exceed the larger of maxRunners and the initial
    count, plus what an earlier scaler of the runner has left behind; and pendingCount is the number of
    the scaler's own start goroutines.
   */
  lemma {:induction false} NeverOverProvisions(s0: Sys, before: seq<Action>, w0: World, run: seq<Move>, w: World)
    requires Reaches(s0, before, w0.sys) && FreshScaler(w0)
    requires Legal(w0, run) && w == Exec(w0, run)
    ensures Active(w) + Coming(w) <= Max(w0.sc.maxRunners, Active(w0)) + w0.inherited + |Calls(w0)|
    ensures w.sc.pendingCount == w.sc.minting + |w.sc.starters|
  {
    var k := w0.inherited + |Calls(w0)|;
    EveryRun(s0, before, w0.sys);
    FreshIsSound(w0, k);
    SoundRun(w0, run, k, Max(w0.sc.maxRunners, Active(w0)) + k);
  }

  lemma CountedIsCurrent(s0: Sys, before: seq<Action>, w0: World, run: seq<Move>, w: World)
    requires Reaches(s0, before, w0.sys) && FreshScaler(w0)
    requires Legal(w0, run) && w == Exec(w0, run) && w.sc.handler.Counted?
    ensures w.sc.handler.pending == w.sc.pendingCount
  {
    var k := w0.inherited + |Calls(w0)|;
    EveryRun(s0, before, w0.sys);
    FreshIsSound(w0, k);
    SoundRun(w0, run, k, Max(w0.sc.maxRunners, Active(w0)) + k);
  }

  /**
    And it provides what is asked for: a handler that has counted starts enough goroutines to raise active
    plus pending to the wanted count, capped by maxRunners, and never takes any back.
   */
  lemma {:induction false} CommitReaches(s0: Sys, before: seq<Action>, w0: World, run: seq<Move>, w: World, count: int)
    requires Reaches(s0, before, w0.sys) && FreshScaler(w0)
    requires Legal(w0, run) && w == Exec(w0, run) && w.sc.handler.Counted?
    ensures var sc' := Next(w, Commit(count)).sc;
            && sc'.pendingCount >= w.sc.pendingCount && sc'.minting - w.sc.minting == sc'.pendingCount - w.sc.pendingCount
            && w.sc.handler.active + sc'.pendingCount
               == Max(w.sc.handler.active + w.sc.pendingCount, if count < w.sc.maxRunners then count else w.sc.maxRunners)
  {
    CountedIsCurrent(s0, before, w0, run, w);
    CommitRaises(w.sc, w, count);
  }
}
