/**
  One scale-set runner as a protocol: Start calls, the listeners they launch, the sections of each
  listener's exit goroutine, stops and halts, in any interleaving. All of them share the runner's process
  entry and its slot in the cancels map, whichever Start they belong to.
 */
module ScaleSetRuns {
  import opened Collections
  import opened Lifecycle

  /** The state that the exit goroutine asks for. */
  function ExitTarget(failed: bool, cancelled: bool, wasDraining: bool): RunnerState {
    if failed && !wasDraining && !cancelled then Failed else Offline
  }

  /**
    A listener comes up and runs until its exit goroutine has looked at the runner; then it owes a
    transition, then the slot.
   */
  datatype Phase = Coming | Running | Observed(to: RunnerState) | Recorded

  datatype Listener = Listener(phase: Phase, cancelled: bool)

  /** A Start call that has made its entry, that waits for its listener, or that owes the write of Failed. */
  datatype Starting = Entered | Polling | Failing

  /** Start number k makes the entry with serial k, launches listener k and stores its cancel function. */
  datatype Runner = Runner(
    proc: Proc,
    cancel: Option<nat>,
    listeners: map<nat, Listener>,
    starts: map<nat, Starting>,
    next: nat)

  datatype Act =
    | Start
    | Launch(k: nat)
    | Return(k: nat, timeout: bool)
    | GiveUp(k: nat, done: bool)
    | StartFails(k: nat)
    | Up(k: nat)
    | Observe(k: nat, failed: bool, byCancel: bool)
    | Record(k: nat)
    | Forget(k: nat)
    | Stop
    | Halt
    | JobBegins
    | JobEnds

  predicate At(r: Runner, k: nat, phase: Starting) {
    k in r.starts && r.starts[k] == phase
  }

  predicate Runs(r: Runner, k: nat) {
    k in r.listeners && (r.listeners[k].phase.Coming? || r.listeners[k].phase.Running?)
  }

  predicate Enabled(r: Runner, a: Act) {
    match a
    case Start => MayStart(r.proc.state)
    case Launch(k) => At(r, k, Entered)
    case Return(k, timeout) => At(r, k, Polling) && (timeout || r.proc.state == Online)
    case GiveUp(k, done) => At(r, k, Polling) && (done || r.proc.state == Failed)
    case StartFails(k) => At(r, k, Failing)
    case Up(k) => k in r.listeners && r.listeners[k].phase.Coming?
    case Observe(k, failed, byCancel) => Runs(r, k) && (byCancel ==> failed && r.listeners[k].cancelled)
    case Record(k) => k in r.listeners && r.listeners[k].phase.Observed?
    case Forget(k) => k in r.listeners && r.listeners[k].phase.Recorded?
    case _ => true
  }

  function Next(r: Runner, a: Act): Runner
    requires Enabled(r, a)
  {
    match a
    case Start =>
      r.(proc := Written(r.proc, StartEntry(r.next)), starts := r.starts[r.next := Entered], next := r.next + 1)
    case Launch(k) =>
      r.(cancel := Some(k), listeners := r.listeners[k := Listener(Coming, false)], starts := r.starts[k := Polling])
    case Return(k, _) => r.(starts := r.starts - {k})
    case GiveUp(k, _) => r.(starts := r.starts[k := Failing])
    case StartFails(k) =>
      r.(starts := r.starts - {k}, proc := if r.proc.serial == k then Written(r.proc, LaunchFailed) else r.proc)
    case Up(k) =>
      r.(proc := Written(r.proc, Transition(Online)),
         listeners := r.listeners[k := r.listeners[k].(phase := Running)])
    case Observe(k, failed, byCancel) =>
      var to := ExitTarget(failed, byCancel, r.proc.state == Draining);
      r.(listeners := r.listeners[k := r.listeners[k].(phase := Observed(to))])
    case Record(k) =>
      r.(proc := Written(r.proc, Transition(r.listeners[k].phase.to)),
         listeners := r.listeners[k := r.listeners[k].(phase := Recorded)])
    case Forget(k) => r.(cancel := None, listeners := r.listeners - {k})
    case Stop => r.(proc := Written(r.proc, StopEntry))
    case Halt =>
      if r.cancel.Some? && r.cancel.value in r.listeners
      then r.(listeners := r.listeners[r.cancel.value := r.listeners[r.cancel.value].(cancelled := true)])
      else r
    case JobBegins => r.(proc := Written(r.proc, MarkBusy))
    case JobEnds => r.(proc := Written(r.proc, MarkIdle(Online)))
  }

  /** The first Start has made its entry. */
  const FIRST := Runner(Proc(Registering, 0, 0), None, map[], map[0 := Entered], 1)

  // ----- runs

  ghost predicate Legal(r: Runner, run: seq<Act>)
    decreases |run|
  {
    run == [] || (Enabled(r, run[0]) && Legal(Next(r, run[0]), run[1..]))
  }

  ghost function Exec(r: Runner, run: seq<Act>): Runner
    requires Legal(r, run)
    decreases |run|
  {
    if run == [] then r else Exec(Next(r, run[0]), run[1..])
  }

  /** The property holds in every state of the run. */
  ghost predicate Always(r: Runner, run: seq<Act>, holds: Runner -> bool)
    requires Legal(r, run)
    decreases |run|
  {
    holds(r) && (run == [] || Always(Next(r, run[0]), run[1..], holds))
  }

  /** No action of a run is bad in the state in which it happens. */
  ghost predicate Never(r: Runner, run: seq<Act>, bad: (Runner, Act) -> bool)
    requires Legal(r, run)
    decreases |run|
  {
    run == [] || (!bad(r, run[0]) && Never(Next(r, run[0]), run[1..], bad))
  }

  /** Where the property holds, exactly the bad actions make it false. */
  ghost predicate Breaks(holds: Runner -> bool, bad: (Runner, Act) -> bool) {
    forall r: Runner, a: Act :: Sane(r) && holds(r) && Enabled(r, a) ==> (holds(Next(r, a)) <==> !bad(r, a))
  }

  lemma {:induction false} ExactRun(r: Runner, run: seq<Act>, holds: Runner -> bool, bad: (Runner, Act) -> bool)
    requires Sane(r) && holds(r) && Legal(r, run) && Breaks(holds, bad)
    ensures Always(r, run, holds) <==> Never(r, run, bad)
    decreases |run|
  {
    if run != [] {
      SaneStep(r, run[0]);
      if holds(Next(r, run[0])) {
        ExactRun(Next(r, run[0]), run[1..], holds, bad);
      }
    }
  }

  /** Numbers are used once, a start that has not launched has no listener, and only rest is ever asked for. */
  ghost predicate Sane(r: Runner) {
    && (forall k <- r.listeners :: k < r.next
                                   && (r.listeners[k].phase.Observed? ==> r.listeners[k].phase.to in {Offline, Failed}))
    && (forall k <- r.starts :: k < r.next && (r.starts[k].Entered? ==> k !in r.listeners))
  }

  lemma SaneStep(r: Runner, a: Act)
    requires Enabled(r, a) && Sane(r)
    ensures Sane(Next(r, a))
  {
  }

  lemma {:induction false} SaneRun(r: Runner, run: seq<Act>)
    requires Legal(r, run) && Sane(r)
    ensures Sane(Exec(r, run))
    decreases |run|
  {
    if run != [] {
      SaneStep(r, run[0]);
      SaneRun(Next(r, run[0]), run[1..]);
    }
  }

  // ----- the entry over a run

  /** A scale-set runner is never Paused, however many Starts there are. */
  lemma {:induction false} NeverPausedInRuns(r: Runner, run: seq<Act>)
    requires Legal(r, run) && Sane(r) && r.proc.state != Paused
    ensures Exec(r, run).proc.state != Paused
    decreases |run|
  {
    if run != [] {
      SaneStep(r, run[0]);
      NeverPausedStep(r, run[0]);
      NeverPausedInRuns(Next(r, run[0]), run[1..]);
    }
  }

  lemma NeverPausedStep(r: Runner, a: Act)
    requires Enabled(r, a) && Sane(r) && r.proc.state != Paused
    ensures Next(r, a).proc.state != Paused
  {
  }

  /** The marks of a run: busy as a job begins, idle as one ends. */
  function Jobs(run: seq<Act>): seq<bool> {
    if run == [] then []
    else
      var last := run[|run| - 1];
      Jobs(run[..|run| - 1]) + if last.JobBegins? then [true] else if last.JobEnds? then [false] else []
  }

  lemma {:induction false} ExecLast(r: Runner, run: seq<Act>)
    requires run != [] && Legal(r, run)
    ensures Legal(r, run[..|run| - 1]) && Enabled(Exec(r, run[..|run| - 1]), run[|run| - 1])
    ensures Exec(r, run) == Next(Exec(r, run[..|run| - 1]), run[|run| - 1])
    decreases |run|
  {
    if |run| == 1 {
      assert run[1..] == [];
    } else {
      ExecLast(Next(r, run[0]), run[1..]);
      assert run[..|run| - 1][1..] == run[1..][..|run| - 2];
    }
  }

  lemma WorkersAfter(r: Runner, a: Act)
    requires Enabled(r, a) && !a.Start?
    ensures Next(r, a).proc.workers
            == if a.JobBegins? then r.proc.workers + 1
               else if a.JobEnds? && r.proc.workers > 0 then r.proc.workers - 1 else r.proc.workers
  {
  }

  /** Until the next Start the worker count is what the jobs make of it, whatever listeners come and go. */
  lemma {:induction false} WorkersFollowJobs(r: Runner, run: seq<Act>)
    requires Legal(r, run) && Start !in run
    ensures Exec(r, run).proc.workers == Tally(r.proc.workers, Jobs(run))
    decreases |run|
  {
    if run != [] {
      var init, last := run[..|run| - 1], run[|run| - 1];
      ExecLast(r, run);
      WorkersFollowJobs(r, init);
      WorkersAfter(Exec(r, init), last);
      if last.JobBegins? || last.JobEnds? {
        assert Jobs(run)[..|Jobs(run)| - 1] == Jobs(init);
      } else {
        assert Jobs(run) == Jobs(init);
      }
    }
  }

  // ----- can a running listener be cancelled

  /** A listener that runs and that nobody has cancelled. */
  predicate IsLive(r: Runner, k: nat) {
    Runs(r, k) && !r.listeners[k].cancelled
  }

  /** Every live listener is the one that a halt would cancel. */
  ghost predicate Controlled(r: Runner) {
    forall k <- r.listeners :: IsLive(r, k) ==> r.cancel == Some(k)
  }

  /** The slot of a live listener is cleared by an older goroutine, or taken by a newer launch. */
  ghost predicate LosesControl(r: Runner, a: Act) {
    (a.Forget? || a.Launch?) && exists k <- r.listeners :: IsLive(r, k)
  }

  lemma ControlStep(r: Runner, a: Act)
    requires Enabled(r, a) && Sane(r) && Controlled(r)
    ensures Controlled(Next(r, a)) <==> !LosesControl(r, a)
  {
    var r' := Next(r, a);
    if LosesControl(r, a) {
      var k :| k in r.listeners && IsLive(r, k);
      assert k in r'.listeners && IsLive(r', k);
    }
  }

  /**
    Every live listener can be cancelled throughout a run exactly when no older exit goroutine clears the
    slot, and no launch takes it, while a listener is live.
   */
  lemma {:induction false} ControlledExactly(run: seq<Act>)
    requires Legal(FIRST, run)
    ensures Always(FIRST, run, Controlled) <==> Never(FIRST, run, LosesControl)
  {
    forall r: Runner, a: Act | Sane(r) && Controlled(r) && Enabled(r, a)
      ensures Controlled(Next(r, a)) <==> !LosesControl(r, a)
    {
      ControlStep(r, a);
    }
    ExactRun(FIRST, run, Controlled, LosesControl);
  }

  // ----- is a running listener shown

  ghost predicate AnyRuns(r: Runner) {
    exists k <- r.listeners :: Runs(r, k)
  }

  /** A runner with a running listener is neither Offline nor Failed. */
  ghost predicate Shown(r: Runner) {
    AnyRuns(r) ==> r.proc.state !in {Offline, Failed}
  }

  /**
    Start gives up its own entry while a listener runs, an older listener's exit is written to the runner of
    a newer one, or a launch comes after such a write.
   */
  ghost predicate Buries(r: Runner, a: Act) {
    match a
    case StartFails(k) => r.proc.serial == k && AnyRuns(r)
    case Record(k) =>
      AnyRuns(r) && k in r.listeners && r.listeners[k].phase.Observed?
      && Written(r.proc, Transition(r.listeners[k].phase.to)).state in {Offline, Failed}
    case Launch(_) => r.proc.state in {Offline, Failed}
    case _ => false
  }

  lemma RunsStep(r: Runner, a: Act, k: nat)
    requires Enabled(r, a) && !a.Observe?
    ensures Runs(Next(r, a), k) <==> Runs(r, k) || a == Launch(k)
  {
  }

  lemma AnyRunsStep(r: Runner, a: Act)
    requires Enabled(r, a)
    ensures AnyRuns(Next(r, a)) ==> AnyRuns(r) || a.Launch?
    ensures !a.Observe? && (AnyRuns(r) || a.Launch?) ==> AnyRuns(Next(r, a))
  {
    var r' := Next(r, a);
    if k :| k in r'.listeners && Runs(r', k) {
      assert Runs(r, k) || a == Launch(k);
    }
    if a.Launch? {
      assert Runs(r', a.k);
    } else if !a.Observe? && AnyRuns(r) {
      var k :| k in r.listeners && Runs(r, k);
      RunsStep(r, a, k);
    }
  }

  lemma ShownStep(r: Runner, a: Act)
    requires Enabled(r, a) && Shown(r)
    ensures Shown(Next(r, a)) <==> !Buries(r, a)
  {
    AnyRunsStep(r, a);
  }

  /** A running listener's runner is shown as up throughout a run exactly when nothing buries it. */
  lemma {:induction false} ShownExactly(run: seq<Act>)
    requires Legal(FIRST, run)
    ensures Always(FIRST, run, Shown) <==> Never(FIRST, run, Buries)
  {
    forall r: Runner, a: Act | Sane(r) && Shown(r) && Enabled(r, a)
      ensures Shown(Next(r, a)) <==> !Buries(r, a)
    {
      ShownStep(r, a);
    }
    ExactRun(FIRST, run, Shown, Buries);
  }

  // ----- does a drained runner come to rest

  /** A listener whose goroutine still owes its transition. */
  predicate Owes(r: Runner, k: nat) {
    k in r.listeners && !r.listeners[k].phase.Recorded?
  }

  /** Draining, but no listener and no Start will write another state. */
  ghost predicate Stranded(r: Runner) {
    r.proc.state == Draining && r.starts == map[] && forall k <- r.listeners :: !Owes(r, k)
  }

  ghost predicate NotStranded(r: Runner) {
    !Stranded(r)
  }

  /** Nobody but the listener or the Start number k will write to the runner. */
  ghost predicate OnlyListener(r: Runner, k: nat) {
    r.starts == map[] && forall j <- r.listeners :: Owes(r, j) ==> j == k
  }

  ghost predicate OnlyStart(r: Runner, k: nat) {
    r.starts.Keys == {k} && forall j <- r.listeners :: !Owes(r, j)
  }

  /**
    The last goroutine asks for Failed although the runner drains by now, the last Start returns or writes
    to an entry that has been replaced, or a runner that nobody looks after is stopped.
   */
  ghost predicate Strands(r: Runner, a: Act) {
    match a
    case Record(k) =>
      && k in r.listeners && r.listeners[k].phase == Observed(Failed)
      && r.proc.state == Draining && OnlyListener(r, k)
    case Return(k, _) => r.proc.state == Draining && OnlyStart(r, k)
    case StartFails(k) => r.proc.state == Draining && r.proc.serial != k && OnlyStart(r, k)
    case Stop =>
      && r.proc.state !in {Offline, Failed, Draining}
      && r.starts == map[] && forall j <- r.listeners :: !Owes(r, j)
    case _ => false
  }

  lemma StrandStep(r: Runner, a: Act)
    requires Enabled(r, a) && Sane(r) && NotStranded(r)
    ensures NotStranded(Next(r, a)) <==> !Strands(r, a)
  {
    if a.Record? || a.Forget? || a.Observe? || a.Up? || a.Halt? {
      StrandListener(r, a);
    } else if a.Return? || a.StartFails? {
      StrandStart(r, a);
    } else if a.Start? || a.Launch? || a.GiveUp? {
      StartGoesOn(r, a);
    } else {
      StrandWrite(r, a);
    }
  }

  lemma StartGoesOn(r: Runner, a: Act)
    requires Enabled(r, a) && (a.Start? || a.Launch? || a.GiveUp?)
    ensures NotStranded(Next(r, a)) && !Strands(r, a)
  {
    assert (if a.Start? then r.next else a.k) in Next(r, a).starts;
  }

  lemma StrandWrite(r: Runner, a: Act)
    requires (a.Stop? || a.JobBegins? || a.JobEnds?) && NotStranded(r)
    ensures NotStranded(Next(r, a)) <==> !Strands(r, a)
  {
    assert Next(r, a).listeners == r.listeners && Next(r, a).starts == r.starts;
    assert forall j :: Owes(Next(r, a), j) <==> Owes(r, j);
  }

  lemma OwesStep(r: Runner, a: Act, j: nat)
    requires Enabled(r, a) && (a.Record? || a.Forget? || a.Observe? || a.Up? || a.Halt?)
    ensures Owes(Next(r, a), j) <==> Owes(r, j) && a != Record(j)
  {
  }

  lemma StrandListener(r: Runner, a: Act)
    requires Enabled(r, a) && Sane(r) && NotStranded(r)
    requires a.Record? || a.Forget? || a.Observe? || a.Up? || a.Halt?
    ensures NotStranded(Next(r, a)) <==> !Strands(r, a)
  {
    var r' := Next(r, a);
    forall j ensures Owes(r', j) <==> Owes(r, j) && a != Record(j) {
      OwesStep(r, a, j);
    }
    if r'.starts == map[] && r'.proc.state == Draining {
      if j :| j in r'.listeners && Owes(r', j) {
        assert j in r.listeners && Owes(r, j) && a != Record(j);
      } else {
        assert forall j <- r.listeners :: Owes(r, j) ==> a == Record(j);
      }
    }
  }

  lemma LastStart(starts: map<nat, Starting>, k: nat)
    requires k in starts
    ensures starts - {k} == map[] <==> starts.Keys == {k}
  {
    assert (starts - {k}).Keys == starts.Keys - {k};
    if starts.Keys == {k} {
      assert (starts - {k}).Keys == {};
      assert starts - {k} == map[];
    } else {
      var j :| j in starts && j != k;
      assert j in starts - {k};
    }
  }

  lemma StrandStart(r: Runner, a: Act)
    requires Enabled(r, a) && (a.Return? || a.StartFails?)
    ensures NotStranded(Next(r, a)) <==> !Strands(r, a)
  {
    LastStart(r.starts, a.k);
    assert forall j :: Owes(Next(r, a), j) <==> Owes(r, j);
  }

  /**
    A drained runner has somebody who will still write to it throughout a run exactly when nothing strands
    it.
   */
  lemma {:induction false} StrandedExactly(run: seq<Act>)
    requires Legal(FIRST, run)
    ensures Always(FIRST, run, NotStranded) <==> Never(FIRST, run, Strands)
  {
    forall r: Runner, a: Act | Sane(r) && NotStranded(r) && Enabled(r, a)
      ensures NotStranded(Next(r, a)) <==> !Strands(r, a)
    {
      StrandStep(r, a);
    }
    ExactRun(FIRST, run, NotStranded, Strands);
  }

  /** A stranded runner can be neither stopped nor started again. */
  lemma {:induction false} StrandedForGood(r: Runner, run: seq<Act>)
    requires Legal(r, run) && Stranded(r)
    ensures Stranded(Exec(r, run))
    decreases |run|
  {
    if run != [] {
      StrandedNext(r, run[0]);
      StrandedForGood(Next(r, run[0]), run[1..]);
    }
  }

  lemma StrandedNext(r: Runner, a: Act)
    requires Enabled(r, a) && Stranded(r)
    ensures Stranded(Next(r, a))
  {
    assert forall j <- Next(r, a).listeners :: j in r.listeners;
  }

  // ----- what an exit asks for

  /**
    A failed exit that nobody cancelled asks for Failed, unless the runner is draining by then; every other
    exit asks for Offline. Nothing else changes.
   */
  lemma ExitAsksFor(r: Runner, k: nat, failed: bool, byCancel: bool)
    requires Enabled(r, Observe(k, failed, byCancel))
    ensures var r' := Next(r, Observe(k, failed, byCancel));
            && r'.proc == r.proc && r'.listeners.Keys == r.listeners.Keys
            && (r'.listeners[k].phase == Observed(Failed) <==> failed && !byCancel && r.proc.state != Draining)
            && (r'.listeners[k].phase == Observed(Offline) <==> !failed || byCancel || r.proc.state == Draining)
  {
  }

  /** The exit of a draining runner's listener ends Offline, if no other write comes between its two sections. */
  lemma DrainedExitEndsOffline(r: Runner, k: nat, failed: bool, byCancel: bool)
    requires Enabled(r, Observe(k, failed, byCancel)) && r.proc.state == Draining
    ensures var r' := Next(r, Observe(k, failed, byCancel));
            Enabled(r', Record(k)) && Next(r', Record(k)).proc.state == Offline
  {
  }

  lemma {:induction false} DrainNeedsStop(r: Runner, run: seq<Act>)
    requires Legal(r, run) && Sane(r) && r.proc.state != Draining && Exec(r, run).proc.state == Draining
    ensures Stop in run
    decreases |run|
  {
    if run[0] != Stop {
      OnlyStopDrains(r, run[0]);
      SaneStep(r, run[0]);
      DrainNeedsStop(Next(r, run[0]), run[1..]);
    }
  }

  lemma OnlyStopDrains(r: Runner, a: Act)
    requires Enabled(r, a) && Sane(r) && a != Stop && r.proc.state != Draining
    ensures Next(r, a).proc.state != Draining
  {
  }

  predicate AsksFailed(r: Runner, k: nat) {
    k in r.listeners && r.listeners[k].phase == Observed(Failed)
  }

  lemma BeginsToAsk(r: Runner, a: Act, k: nat)
    requires Enabled(r, a) && !AsksFailed(r, k) && AsksFailed(Next(r, a), k)
    ensures a == Observe(k, true, false) && Next(r, a).proc.state != Draining
  {
  }

  lemma {:induction false} AskedBefore(r: Runner, run: seq<Act>, k: nat) returns (i: nat)
    requires Legal(r, run) && Sane(r) && !AsksFailed(r, k)
    requires AsksFailed(Exec(r, run), k) && Exec(r, run).proc.state == Draining
    ensures i < |run| && run[i] == Observe(k, true, false) && Stop in run[i + 1..]
    decreases |run|
  {
    var r' := Next(r, run[0]);
    SaneStep(r, run[0]);
    if AsksFailed(r', k) {
      BeginsToAsk(r, run[0], k);
      DrainNeedsStop(r', run[1..]);
      i := 0;
    } else {
      var j := AskedBefore(r', run[1..], k);
      i := j + 1;
      assert run[1..][j + 1..] == run[i + 1..];
    }
  }

  /** An exit that leaves its runner draining for good has overlooked a stop that came after its look at the runner. */
  lemma {:induction false} StrandingNeedsStop(before: seq<Act>, r: Runner, k: nat) returns (i: nat)
    requires Legal(FIRST, before) && r == Exec(FIRST, before) && Strands(r, Record(k))
    ensures i < |before| && before[i] == Observe(k, true, false) && Stop in before[i + 1..]
  {
    i := AskedBefore(FIRST, before, k);
  }

  // ----- does a halt reach the listener

  ghost predicate AnyLive(r: Runner) {
    exists k <- r.listeners :: IsLive(r, k)
  }

  /** In no continuation without another Start is there a live listener. */
  ghost predicate NeverLive(r: Runner) {
    forall run :: Legal(r, run) && Start !in run ==> !AnyLive(Exec(r, run))
  }

  /** No Start is about to launch, and the slot holds every live listener. */
  ghost predicate HaltCatches(r: Runner) {
    Controlled(r) && forall k <- r.starts :: !r.starts[k].Entered?
  }

  ghost predicate Caught(r: Runner) {
    !AnyLive(r) && forall k <- r.starts :: !r.starts[k].Entered?
  }

  lemma CaughtStep(r: Runner, a: Act)
    requires Enabled(r, a) && Caught(r) && !a.Start?
    ensures Caught(Next(r, a))
  {
    var r' := Next(r, a);
    if k :| k in r'.listeners && IsLive(r', k) {
      assert k in r.listeners && IsLive(r, k);
    }
  }

  lemma {:induction false} CaughtRun(r: Runner, run: seq<Act>)
    requires Legal(r, run) && Caught(r) && Start !in run
    ensures Caught(Exec(r, run))
    decreases |run|
  {
    if run != [] {
      CaughtStep(r, run[0]);
      CaughtRun(Next(r, run[0]), run[1..]);
    }
  }

  lemma HaltCatchesNow(r: Runner)
    requires HaltCatches(r)
    ensures Caught(Next(r, Halt))
  {
    var r' := Next(r, Halt);
    if k :| k in r'.listeners && IsLive(r', k) {
      assert k in r.listeners && IsLive(r, k);
    }
  }

  /** What a halt leaves out: a listener outside the slot is live still, and a Start that has not launched will. */
  lemma HaltMisses(r: Runner) returns (run: seq<Act>)
    requires Sane(r) && !HaltCatches(r)
    ensures Legal(Next(r, Halt), run) && Start !in run && AnyLive(Exec(Next(r, Halt), run))
  {
    var r' := Next(r, Halt);
    if k :| k in r.starts && r.starts[k].Entered? {
      run := [Launch(k)];
      assert run[1..] == [];
      assert Exec(r', run) == Next(r', Launch(k));
      assert k in Next(r', Launch(k)).listeners && IsLive(Next(r', Launch(k)), k);
    } else {
      var k :| k in r.listeners && IsLive(r, k) && r.cancel != Some(k);
      run := [];
      assert k in r'.listeners && IsLive(r', k);
    }
  }

  /**
    After a halt no continuation without another Start has a live listener exactly when the halt meets no
    Start that has not launched yet, and the slot holds every live listener.
   */
  lemma {:induction false} HaltReachesExactly(before: seq<Act>, r: Runner)
    requires Legal(FIRST, before) && r == Exec(FIRST, before)
    ensures NeverLive(Next(r, Halt)) <==> HaltCatches(r)
  {
    SaneRun(FIRST, before);
    var r' := Next(r, Halt);
    if HaltCatches(r) {
      HaltCatchesNow(r);
      forall run | Legal(r', run) && Start !in run ensures !AnyLive(Exec(r', run)) {
        CaughtRun(r', run);
      }
    } else {
      var run := HaltMisses(r);
      assert Legal(r', run) && Start !in run && AnyLive(Exec(r', run));
    }
  }

  // ----- concrete runs

  lemma {:induction false} Extend(r0: Runner, run: seq<Act>, r: Runner, a: Act)
    requires Legal(r0, run) && r == Exec(r0, run) && Enabled(r, a)
    ensures Legal(r0, run + [a]) && Exec(r0, run + [a]) == Next(r, a)
    decreases |run|
  {
    if run == [] {
      assert [a][1..] == [];
      assert run + [a] == [a];
    } else {
      Extend(Next(r0, run[0]), run[1..], r, a);
      assert (run + [a])[1..] == run[1..] + [a];
    }
  }

  lemma Step(run: seq<Act>, r: Runner, a: Act) returns (run': seq<Act>, r': Runner)
    requires Legal(FIRST, run) && r == Exec(FIRST, run) && Enabled(r, a)
    ensures Legal(FIRST, run') && r' == Exec(FIRST, run') && r' == Next(r, a)
  {
    Extend(FIRST, run, r, a);
    run', r' := run + [a], Next(r, a);
  }

  /** The first listener is up and its Start has returned. */
  lemma FirstUp() returns (run: seq<Act>, r: Runner)
    ensures Legal(FIRST, run) && r == Exec(FIRST, run)
    ensures r == Runner(Proc(Online, 0, 0), Some(0), map[0 := Listener(Running, false)], map[], 1)
  {
    run, r := [], FIRST;
    run, r := Step(run, r, Launch(0));
    run, r := Step(run, r, Up(0));
    run, r := Step(run, r, Return(0, false));
    assert r.starts == map[];
  }

  lemma Restarted() returns (run: seq<Act>, r: Runner)
    ensures Legal(FIRST, run) && r == Exec(FIRST, run)
    ensures r == Runner(Proc(Online, 0, 1), Some(1), map[0 := Listener(Recorded, false), 1 := Listener(Running, false)],
                        map[], 2)
  {
    run, r := FirstUp();
    run, r := Step(run, r, Observe(0, false, false));
    run, r := Step(run, r, Record(0));
    run, r := Step(run, r, Start);
    run, r := Step(run, r, Launch(1));
    run, r := Step(run, r, Up(1));
    run, r := Step(run, r, Return(1, false));
    assert r.starts == map[];
  }

  /** A restart before the old goroutine is done: it clears the new slot, and a stop no longer reaches the listener. */
  lemma OldGoroutineClearsSlot() returns (run: seq<Act>, r: Runner)
    ensures Legal(FIRST, run) && r == Exec(FIRST, run)
    ensures r.proc.state == Draining && r.cancel.None? && r.starts == map[] && IsLive(r, 1)
  {
    run, r := Restarted();
    run, r := Step(run, r, Forget(0));
    run, r := Step(run, r, Stop);
    run, r := Step(run, r, Halt);
  }

  /** A Start whose context ends gives up, and its listener runs on under a Failed runner. */
  lemma GivenUpListenerRuns() returns (run: seq<Act>, r: Runner)
    ensures Legal(FIRST, run) && r == Exec(FIRST, run)
    ensures r.proc.state == Failed && r.starts == map[] && IsLive(r, 0) && Enabled(r, Start)
  {
    run, r := [], FIRST;
    run, r := Step(run, r, Launch(0));
    run, r := Step(run, r, GiveUp(0, true));
    run, r := Step(run, r, StartFails(0));
    assert r.starts == map[];
  }
}
