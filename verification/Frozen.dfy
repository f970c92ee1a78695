/** The converse of showing a stop: whether a runner that is shown as Paused has really been stopped. */
module Frozen {
  import opened Collections
  import opened Lifecycle
  import opened Standalone
  import opened Freeze

  /** The live listener of a Paused runner is stopped. */
  predicate PausedIsStopped(r: Runner) {
    r.proc.state == Paused && r.process.Alive? ==> r.process.stopped
  }

  ghost predicate AllPausedStopped(m: Manager) {
    forall n <- m.runners :: PausedIsStopped(m.runners[n])
  }

  /** A freeze that reaches the group of an earlier process writes Paused beside a new process that runs on. */
  predicate MissesNewProcess(r: Runner, busy: bool, ok: set<nat>) {
    && r.proc.state == Online && !busy && Reached(r.listener, ok)
    && r.process.Alive? && !r.process.stopped && r.process.pgid != r.listener.pgid
  }

  /**
    What pauses a runner without stopping it, or wakes a paused one: the last job ends under the global
    pause, a new process for a paused runner, a SIGCONT to its group, the late transition to Paused of a
    launch that was continued meanwhile, and a freeze that misses a new process.
   */
  ghost predicate PausesOnlyInName(m: Manager, a: Act) {
    if a.Lock? then exists n <- m.runners :: MissesNewProcess(m.runners[n], n in a.active, a.ok)
    else !a.Unlock? && a.n in m.runners && EnabledOne(m, m.runners[a.n], a) && OnlyInName(m, m.runners[a.n], a)
  }

  predicate OnlyInName(m: Manager, r: Runner, a: Act)
    requires EnabledOne(m, r, a)
  {
    match a
    case JobEnds(_) =>
      m.globalPaused && r.proc.state == Busy && r.proc.workers <= 1 && r.process.Alive? && !r.process.stopped
    case Spawn(_) => r.proc.state == Paused
    case Continue(_, pgid) => r.proc.state == Paused && r.process.Alive? && r.process.pgid == pgid
    case Announce(_) => r.owner.frozen && r.proc.state == Online && r.process.Alive? && !r.process.stopped
    case _ => false
  }

  lemma OnlyInNameExactly(m: Manager, r: Runner, a: Act)
    requires EnabledOne(m, r, a) && PausedIsStopped(r)
    ensures PausedIsStopped(NextOne(m, r, a)) <==> !OnlyInName(m, r, a)
  {
  }

  lemma LockExactly(r: Runner, busy: bool, ok: set<nat>)
    requires PausedIsStopped(r)
    ensures PausedIsStopped(FreezeRunner(r, busy, ok)) <==> !MissesNewProcess(r, busy, ok)
    ensures PausedIsStopped(ThawRunner(r, ok))
  {
  }

  lemma PausedStep(m: Manager, a: Act)
    requires Enabled(m, a) && AllPausedStopped(m)
    ensures AllPausedStopped(Next(m, a)) <==> !PausesOnlyInName(m, a)
  {
    var m' := Next(m, a);
    if a.Lock? || a.Unlock? {
      forall n <- m.runners
        ensures a.Lock? ==> (PausedIsStopped(m'.runners[n]) <==> !MissesNewProcess(m.runners[n], n in a.active, a.ok))
        ensures a.Unlock? ==> PausedIsStopped(m'.runners[n])
      {
        LockExactly(m.runners[n], a.Lock? && n in a.active, a.ok);
      }
    } else if a.n in m.runners {
      OnlyInNameExactly(m, m.runners[a.n], a);
      assert m'.runners[a.n] == NextOne(m, m.runners[a.n], a);
    }
  }

  /** A Paused runner's live listener is stopped throughout a run exactly when nothing pauses only in name. */
  lemma {:induction false} PausedIsStoppedExactly(run: seq<Act>)
    requires Legal(FIRST, run)
    ensures Always(FIRST, run, AllPausedStopped) <==> Never(FIRST, run, PausesOnlyInName)
  {
    forall m: Manager, a: Act | AllPausedStopped(m) && Enabled(m, a)
      ensures AllPausedStopped(Next(m, a)) <==> !PausesOnlyInName(m, a)
    {
      PausedStep(m, a);
    }
    ExactRun(FIRST, run, AllPausedStopped, AllPausedStopped, PausesOnlyInName);
  }
}
