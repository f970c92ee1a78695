/** Concrete runs of the standalone manager in which a stop is hidden or a cancel is lost. */
module FreezeRuns {
  import opened Collections
  import opened Lifecycle
  import opened Standalone
  import opened Freeze
  import opened Orphans

  lemma {:induction false} Extend(m0: Manager, run: seq<Act>, m: Manager, a: Act)
    requires Legal(m0, run) && m == Exec(m0, run) && Enabled(m, a)
    ensures Legal(m0, run + [a]) && Exec(m0, run + [a]) == Next(m, a)
    decreases |run|
  {
    if run == [] {
      assert [a][1..] == [];
      assert run + [a] == [a];
    } else {
      Extend(Next(m0, run[0]), run[1..], m, a);
      assert (run + [a])[1..] == run[1..] + [a];
    }
  }

  /** A reachable state with the single runner r. */
  ghost predicate Solo(run: seq<Act>, m: Manager, r: Runner) {
    Legal(FIRST, run) && m == Exec(FIRST, run) && m.runners == map["r" := r]
  }

  /** One more action on the single runner. */
  lemma Step(run: seq<Act>, m: Manager, r: Runner, a: Act) returns (run': seq<Act>, m': Manager, r': Runner)
    requires Solo(run, m, r) && !a.Lock? && !a.Unlock? && a.n == "r" && EnabledOne(m, r, a)
    ensures Solo(run', m', r') && r' == NextOne(m, r, a) && m'.globalPaused == m.globalPaused && run' == run + [a]
    ensures !a.Spawn? ==> m'.nextPgid == m.nextPgid
    ensures !a.Arm? ==> m'.nextChannel == m.nextChannel
    ensures a.Halt? && HaltDecision(r.listener).CloseCancel? ==> m'.closed == m.closed + {r.listener.retryCancel.value}
    ensures !(a.Halt? && HaltDecision(r.listener).CloseCancel?) ==> m'.closed == m.closed
  {
    Extend(FIRST, run, m, a);
    run', m', r' := run + [a], Next(m, a), NextOne(m, r, a);
  }

  /** A freeze of everybody, with every signal delivered. */
  lemma FreezeAllStep(run: seq<Act>, m: Manager, r: Runner) returns (run': seq<Act>, m': Manager, r': Runner)
    requires Solo(run, m, r)
    ensures Solo(run', m', r') && r' == FreezeRunner(r, false, {r.listener.pgid}) && m'.globalPaused
    ensures m'.nextPgid == m.nextPgid && m'.nextChannel == m.nextChannel && m'.closed == m.closed
  {
    var a := Lock({}, {r.listener.pgid});
    Extend(FIRST, run, m, a);
    run', m', r' := run + [a], Next(m, a), FreezeRunner(r, false, {r.listener.pgid});
    assert m'.runners == map["r" := r'];
  }

  /** The first process has been started; launchListener has not taken the lock yet. */
  lemma FirstSpawn() returns (run: seq<Act>, m: Manager, r: Runner)
    ensures Solo(run, m, r) && m == Manager(map["r" := r], false, 2, 0, {})
    ensures r == Runner(Proc(Registering, 0, 0), NO_LISTENER, Spawned(false, 1), Alive(1, false))
  {
    Extend(FIRST, [], FIRST, Start("r"));
    run, m, r := [] + [Start("r")], Next(FIRST, Start("r")), FRESH_RUNNER;
    assert m.runners == map["r" := r];
    run, m, r := Step(run, m, r, Prepare("r"));
    Extend(FIRST, run, m, Spawn("r"));
    run, m := run + [Spawn("r")], Next(m, Spawn("r"));
    r := m.runners["r"];
    assert m.runners == map["r" := r];
  }

  /** The first listener is up and online. */
  lemma FirstOnline() returns (run: seq<Act>, m: Manager, r: Runner)
    ensures Solo(run, m, r) && m == Manager(map["r" := r], false, 2, 0, {})
    ensures r == Runner(Proc(Online, 0, 0), Listener(Some(1), 1, None), Watching, Alive(1, false))
  {
    run, m, r := FirstSpawn();
    run, m, r := Step(run, m, r, Install("r", false));
    run, m, r := Step(run, m, r, Announce("r"));
  }

  /** The listener failed and will be tried again. */
  lemma FirstFailure() returns (run: seq<Act>, m: Manager, r: Runner)
    ensures Solo(run, m, r) && m == Manager(map["r" := r], false, 2, 0, {})
    ensures r == Runner(Proc(Online, 0, 0), Listener(Some(1), 1, None), Retrying, Gone)
  {
    run, m, r := FirstOnline();
    run, m, r := Step(run, m, r, Exit("r"));
    run, m, r := Step(run, m, r, Notice("r", true));
    run, m, r := Step(run, m, r, Decide("r", true));
  }

  /** The listener failed and waits for its retry; its runner is still shown as online. */
  lemma FirstBackoff() returns (run: seq<Act>, m: Manager, r: Runner)
    ensures Solo(run, m, r) && m.nextPgid == 2 && m.closed == {} && !m.globalPaused
    ensures r == Runner(Proc(Online, 0, 0), Listener(None, 1, Some(0)), Backoff(0), Gone)
  {
    run, m, r := FirstFailure();
    run, m, r := Step(run, m, r, Reregister("r"));
    run, m, r := Step(run, m, r, Arm("r"));
  }

  /** A first launch under the global pause: the listener is stopped and its runner stays Registering. */
  lemma LaunchUnderPauseIsHidden() returns (run: seq<Act>, m: Manager, r: Runner)
    ensures Solo(run, m, r) && r.owner.Watching?
    ensures r.process == Alive(1, true) && r.proc.state == Registering
    ensures ThawRunner(r, {1}).process == Alive(1, true)
  {
    run, m, r := FirstSpawn();
    run, m, r := FreezeAllStep(run, m, r);
    run, m, r := Step(run, m, r, Install("r", true));
    run, m, r := Step(run, m, r, Announce("r"));
  }

  /**
    A first launch under the global pause whose listener exits before the SIGSTOP: nothing is left to be
    stopped, but the runner stays Registering with a goroutine that still looks after it.
   */
  lemma DeadLaunchStaysRegistering() returns (run: seq<Act>, m: Manager, r: Runner)
    ensures Solo(run, m, r)
    ensures r.owner.Watching? && r.process.Gone? && r.proc.state == Registering
  {
    run, m, r := FirstSpawn();
    run, m, r := FreezeAllStep(run, m, r);
    run, m, r := Step(run, m, r, Exit("r"));
    run, m, r := Step(run, m, r, Install("r", true));
    run, m, r := Step(run, m, r, Announce("r"));
  }

  /** A job that ends under the global pause: the runner is shown as Paused, and its listener takes the next job. */
  lemma IdleUnderPauseRuns() returns (run: seq<Act>, m: Manager, r: Runner)
    ensures Solo(run, m, r) && m.globalPaused
    ensures r.process == Alive(1, false) && r.proc.state == Paused
  {
    run, m, r := FirstOnline();
    run, m, r := Step(run, m, r, JobBegins("r"));
    run, m, r := FreezeAllStep(run, m, r);
    run, m, r := Step(run, m, r, JobEnds("r"));
  }

  /** A job that begins on a frozen runner: the runner is Busy, the listener stays stopped, and no thaw wakes it. */
  lemma BusyOnPausedIsHidden() returns (run: seq<Act>, m: Manager, r: Runner)
    ensures Solo(run, m, r)
    ensures r.process == Alive(1, true) && r.proc.state == Busy
    ensures ThawRunner(r, {1}).process == Alive(1, true)
  {
    run, m, r := FirstOnline();
    run, m, r := FreezeAllStep(run, m, r);
    run, m, r := Step(run, m, r, JobBegins("r"));
  }

  /**
    A freeze that overtakes a relaunch. The table rejects Online to Registering, so a runner in retry
    is still Online and is frozen as soon as its new process is recorded; the late transition from
    Paused to Online is valid and hides the stop.
   */
  lemma RelaunchRaceIsHidden() returns (run: seq<Act>, m: Manager, r: Runner)
    ensures Solo(run, m, r) && r.owner.Watching?
    ensures r.process.Alive? && r.process.stopped && r.proc.state == Online
  {
    run, m, r := FirstBackoff();
    run, m, r := Step(run, m, r, Expire("r"));
    run, m, r := Step(run, m, r, Spawn("r"));
    run, m, r := Step(run, m, r, Install("r", false));
    run, m, r := FreezeAllStep(run, m, r);
    run, m, r := Step(run, m, r, Announce("r"));
  }

  /** A stop that meets the end of the backoff is lost. */
  lemma CancelIsLost() returns (run: seq<Act>, m: Manager, r: Runner)
    ensures Solo(run, m, r) && Halt("r") in run
    ensures r.owner.Watching? && r.process == Alive(2, false) && r.proc.state == Draining
  {
    run, m, r := FirstBackoff();
    run, m, r := Step(run, m, r, Expire("r"));
    run, m, r := Step(run, m, r, Stop("r"));
    run, m, r := Step(run, m, r, Halt("r"));
    ghost var halted := run;
    assert halted[|halted| - 1] == Halt("r");
    run, m, r := Step(run, m, r, Spawn("r"));
    run, m, r := InstallDraining(run, m, r);
    assert run[|halted| - 1] == Halt("r");
  }

  /** From the decision to retry to the end of the backoff. */
  lemma ToExpired(run: seq<Act>, m: Manager, r: Runner) returns (run': seq<Act>, m': Manager, r': Runner)
    requires Solo(run, m, r) && r.owner.Retrying? && r.proc.state == Draining && !m.globalPaused && m.closed == {}
    ensures Solo(run', m', r') && run < run' && m'.closed == {} && !m'.globalPaused && m'.nextPgid == m.nextPgid
    ensures r'.owner.Expired? && r'.proc.state == Draining
  {
    run', m', r' := Step(run, m, r, Reregister("r"));
    run', m', r' := Step(run', m', r', Arm("r"));
    run', m', r' := Step(run', m', r', Expire("r"));
  }

  /** A stop between the decision to retry and the new cancel channel signals a dead group, and is lost. */
  lemma HaltBeforeArmIsLost() returns (run: seq<Act>, m: Manager, r: Runner)
    ensures Solo(run, m, r) && Halt("r") in run
    ensures r.owner.Watching? && r.process == Alive(2, false) && r.proc.state == Draining
  {
    run, m, r := FirstFailure();
    run, m, r := Step(run, m, r, Stop("r"));
    assert HaltDecision(r.listener) == SignalGroup(1);
    run, m, r := Step(run, m, r, Halt("r"));
    ghost var halted := run;
    assert halted[|halted| - 1] == Halt("r");
    run, m, r := ToExpired(run, m, r);
    run, m, r := Step(run, m, r, Spawn("r"));
    run, m, r := InstallDraining(run, m, r);
    assert run[|halted| - 1] == Halt("r");
  }

  /** A recorded launch of a draining runner. */
  lemma InstallDraining(run: seq<Act>, m: Manager, r: Runner) returns (run': seq<Act>, m': Manager, r': Runner)
    requires Solo(run, m, r) && r.owner.Spawned? && r.process.Alive? && r.proc.state == Draining && !m.globalPaused
    requires r.listener.retryCancel.Some? ==> r.listener.retryCancel.value !in m.closed
    ensures Solo(run', m', r') && run < run'
    ensures r'.owner.Watching? && r'.process == r.process && r'.proc.state == Draining
  {
    run', m', r' := Step(run, m, r, Install("r", false));
    run', m', r' := Step(run', m', r', Announce("r"));
  }

  /** A stop before the first process is recorded finds nothing to do, and the listener runs on. */
  lemma HaltBeforeInstallIsLost() returns (run: seq<Act>, m: Manager, r: Runner)
    ensures Solo(run, m, r) && Halt("r") in run
    ensures r.owner.Watching? && r.process == Alive(1, false) && r.proc.state == Draining
  {
    run, m, r := FirstSpawn();
    run, m, r := Step(run, m, r, Stop("r"));
    assert HaltDecision(r.listener) == NothingToDo;
    run, m, r := Step(run, m, r, Halt("r"));
    ghost var halted := run;
    assert halted[|halted| - 1] == Halt("r");
    run, m, r := InstallDraining(run, m, r);
    assert run[|halted| - 1] == Halt("r");
  }

  /** The relaunch of a listener during a job shows its runner as Online, although it has a worker. */
  lemma RelaunchHidesWork() returns (run: seq<Act>, m: Manager, r: Runner)
    ensures Solo(run, m, r) && !m.globalPaused
    ensures r.proc == Proc(Online, 1, 0) && r.owner.Watching?
  {
    run, m, r := FirstBackoff();
    run, m, r := Step(run, m, r, JobBegins("r"));
    run, m, r := Step(run, m, r, Expire("r"));
    run, m, r := Step(run, m, r, Spawn("r"));
    run, m, r := Step(run, m, r, Install("r", false));
    run, m, r := Step(run, m, r, Announce("r"));
  }

  /** The listener exits cleanly while its runner is busy. */
  lemma BusyExit() returns (run: seq<Act>, m: Manager, r: Runner)
    ensures Solo(run, m, r)
    ensures r.proc.state == Busy && r.owner.Leaving? && r.process.Gone?
  {
    run, m, r := FirstOnline();
    run, m, r := Step(run, m, r, JobBegins("r"));
    run, m, r := Step(run, m, r, Exit("r"));
    run, m, r := Step(run, m, r, Notice("r", false));
    run, m, r := Step(run, m, r, Decide("r", false));
  }

  /** A listener that exits cleanly during a job leaves a busy runner, and a stop then orphans it. */
  lemma StopOrphansBusy() returns (run: seq<Act>, m: Manager, r: Runner)
    ensures Solo(run, m, r) && Orphaned(r)
  {
    run, m, r := BusyExit();
    run, m, r := Step(run, m, r, Leave("r"));
    run, m, r := Step(run, m, r, Stop("r"));
  }

  lemma FailDraining(run: seq<Act>, m: Manager, r: Runner) returns (run': seq<Act>, m': Manager, r': Runner)
    requires Solo(run, m, r) && r.owner.Expired? && r.process.Gone? && r.proc.state == Draining
    ensures Solo(run', m', r') && Orphaned(r')
  {
    run', m', r' := Step(run, m, r, SpawnFails("r"));
    run', m', r' := Step(run', m', r', Report("r"));
  }

  /** A stop during the backoff and a relaunch that cannot be spawned: the table rejects Draining to Failed. */
  lemma FailedRelaunchOrphans() returns (run: seq<Act>, m: Manager, r: Runner)
    ensures Solo(run, m, r) && Orphaned(r)
  {
    run, m, r := FirstBackoff();
    run, m, r := Step(run, m, r, Expire("r"));
    run, m, r := Step(run, m, r, Stop("r"));
    run, m, r := Step(run, m, r, Halt("r"));
    run, m, r := FailDraining(run, m, r);
  }

  /** A frozen listener that dies leaves a Paused runner, and a stop then orphans it. */
  lemma StopOrphansFrozen() returns (run: seq<Act>, m: Manager, r: Runner)
    ensures Solo(run, m, r) && Orphaned(r)
  {
    run, m, r := FirstOnline();
    run, m, r := FreezeAllStep(run, m, r);
    run, m, r := Step(run, m, r, Exit("r"));
    run, m, r := Step(run, m, r, Notice("r", true));
    run, m, r := Step(run, m, r, Decide("r", false));
    run, m, r := Step(run, m, r, Leave("r"));
    run, m, r := Step(run, m, r, Stop("r"));
  }
}
