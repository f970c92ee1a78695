/** When a stopped standalone runner can be launched again although nobody starts it, whatever Starts overlap. */
module Relaunches {
  import opened Collections
  import opened Lifecycle
  import opened Standalone
  import opened StandaloneRuns

  /** The timer of a retry whose channel has been closed fires before the close is seen. */
  predicate TimerWins(r: Runner, a: Act) {
    a.Expire? && a.k in r.threads && r.threads[a.k].stage.Backoff? && r.threads[a.k].stage.channel in r.closed
  }

  /** A continuation without another Start and without a timer that wins over a close. */
  ghost predicate Quiet(r: Runner, run: seq<Act>)
    requires Legal(r, run)
    decreases |run|
  {
    run == [] || (!run[0].Start? && !TimerWins(r, run[0]) && Quiet(Next(r, run[0]), run[1..]))
  }

  predicate Launches(run: seq<Act>) {
    exists a <- run :: a.Install?
  }

  /** No continuation records a new process. */
  ghost predicate NeverLaunches(r: Runner) {
    forall run :: Legal(r, run) && Quiet(r, run) ==> !Launches(run)
  }

  /** On the way to a launch: nothing in the state of the runner can turn this goroutine back. */
  predicate OnItsWay(t: Thread, closed: set<nat>) {
    || t.stage.Starting? || t.stage.Prepared? || t.stage.Spawned? || t.stage.Expired?
    || t.stage == Reading(true) || t.stage.Retrying? || t.stage.Arming?
    || (t.stage.Backoff? && t.stage.channel !in closed)
  }

  /** It will decide about a retry, or may. */
  predicate MayRetry(t: Thread) {
    t.stage.Installed? || t.stage.Watching? || t.stage == Exited(true)
  }

  /** Goroutine k can write Offline or Failed to a draining runner. */
  predicate EndsDrain(r: Runner, k: nat) {
    && k in r.threads
    && var t := r.threads[k];
       || t.stage.Installed? || t.stage.Watching? || t.stage.Exited? || t.stage.Reading? || t.stage.Leaving?
       || t.stage.Backoff?
       || (((t.stage.Failing? && t.first) || t.stage.Refused?) && r.proc.serial == k)
  }

  /** Nobody is on the way to a launch, and who may retry will find the runner draining. */
  ghost predicate Settled(r: Runner, closed: set<nat>) {
    && (forall k <- r.threads :: !OnItsWay(r.threads[k], closed))
    && (forall k <- r.threads :: MayRetry(r.threads[k]) ==>
          r.proc.state == Draining && forall j <- r.threads :: j != k ==> !EndsDrain(r, j))
  }

  // ----- settled runners are never launched

  /** What a goroutine that is not on its way to a launch can become. */
  lemma StaysOff(r: Runner, t: Thread, a: Act)
    requires MayMove(r, t, a) && !a.Start? && !OnItsWay(t, r.closed) && (MayRetry(t) ==> r.proc.state == Draining)
    requires !(a.Expire? && t.stage.channel in r.closed)
    ensures !a.Install? && !OnItsWay(Moved(r, t, a), r.closed) && (MayRetry(Moved(r, t, a)) ==> MayRetry(t))
  {
  }

  lemma SettledThread(r: Runner, a: Act)
    requires Enabled(r, a) && ByThread(a) && Settled(r, r.closed) && !TimerWins(r, a)
    ensures !a.Install?
    ensures a.k in Next(r, a).threads ==>
              !OnItsWay(Next(r, a).threads[a.k], r.closed)
              && (MayRetry(Next(r, a).threads[a.k]) ==> MayRetry(r.threads[a.k]))
  {
    StaysOff(r, r.threads[a.k], a);
    if a.Clear? || a.StartFails? { OneThread(r, a); } else { ThreadAfter(r, a); }
  }

  lemma MoverEnds(r: Runner, a: Act)
    requires Enabled(r, a) && ByThread(a) && !OnItsWay(r.threads[a.k], r.closed) && EndsDrain(Next(r, a), a.k)
    ensures EndsDrain(r, a.k)
  {
  }

  /** Who cannot end the drain never can. */
  lemma EndersStay(r: Runner, a: Act, j: nat)
    requires Enabled(r, a) && j in r.threads && !OnItsWay(r.threads[j], r.closed)
    requires Next(r, a).proc.serial == r.proc.serial && EndsDrain(Next(r, a), j)
    ensures EndsDrain(r, j)
  {
    if ByThread(a) && a.k == j {
      MoverEnds(r, a);
    } else if ByThread(a) {
      OneThread(r, a);
    } else {
      OtherThreads(r, a);
    }
  }

  /** A runner drains on as long as nobody ends it. */
  lemma DrainsOn(r: Runner, a: Act)
    requires Enabled(r, a) && r.proc.state == Draining
    requires a.Leave? || a.StartFails? ==> !EndsDrain(r, a.k)
    ensures Next(r, a).proc.state == Draining && Next(r, a).proc.serial == r.proc.serial
  {
  }

  lemma ClosedGrows(r: Runner, a: Act)
    requires Enabled(r, a)
    ensures r.closed <= Next(r, a).closed && (ByThread(a) ==> Next(r, a).closed == r.closed)
  {
    if a.Halt? {
      HaltCloses(r);
    } else if a.Prepare? || a.Install? || a.Clear? || a.Arm? {
      HeapWritten(r, a);
    } else {
      HeapKept(r, a);
    }
  }

  lemma NobodyTurnsBack(r: Runner, a: Act)
    requires Enabled(r, a) && Settled(r, r.closed) && !a.Start? && !TimerWins(r, a)
    ensures forall k <- Next(r, a).threads ::
              k in r.threads && !OnItsWay(Next(r, a).threads[k], Next(r, a).closed)
              && (MayRetry(Next(r, a).threads[k]) ==> MayRetry(r.threads[k]))
  {
    ClosedGrows(r, a);
    if ByThread(a) {
      OneThread(r, a);
      SettledThread(r, a);
    } else {
      OtherThreads(r, a);
    }
  }

  /** While one goroutine may retry, no other can end the drain, now or later. */
  lemma DrainsForOne(r: Runner, a: Act, k: nat, j: nat)
    requires Enabled(r, a) && Settled(r, r.closed) && k in r.threads && MayRetry(r.threads[k])
    ensures Next(r, a).proc.state == Draining
    ensures j != k && j in r.threads ==> !EndsDrain(Next(r, a), j)
  {
    assert forall i <- r.threads :: i != k ==> !EndsDrain(r, i);
    DrainsOn(r, a);
    if j != k && j in r.threads && EndsDrain(Next(r, a), j) { EndersStay(r, a, j); }
  }

  lemma SettledStep(r: Runner, a: Act)
    requires Enabled(r, a) && Settled(r, r.closed) && !a.Start? && !TimerWins(r, a)
    ensures Settled(Next(r, a), Next(r, a).closed) && !a.Install?
  {
    if ByThread(a) { SettledThread(r, a); }
    NobodyTurnsBack(r, a);
    forall k <- Next(r, a).threads | MayRetry(Next(r, a).threads[k])
      ensures Next(r, a).proc.state == Draining
      ensures forall j <- Next(r, a).threads :: j != k ==> !EndsDrain(Next(r, a), j)
    {
      forall j ensures Next(r, a).proc.state == Draining && (j != k && j in r.threads ==> !EndsDrain(Next(r, a), j)) {
        DrainsForOne(r, a, k, j);
      }
    }
  }

  lemma {:induction false} SettledRun(r: Runner, run: seq<Act>)
    requires Legal(r, run) && Quiet(r, run) && Settled(r, r.closed)
    ensures !Launches(run)
    decreases |run|
  {
    if run != [] {
      SettledStep(r, run[0]);
      SettledRun(Next(r, run[0]), run[1..]);
      assert forall a <- run :: a == run[0] || a in run[1..];
    }
  }

  // ----- and others can be

  /** The next action on the way to a launch, and how many are left. */
  function Onward(k: nat, t: Thread): Act {
    match t.stage
    case Starting => Prepare(k)
    case Spawned(_) => Install(k, false)
    case Reading(_) => Read(k)
    case Retrying => Reregister(k)
    case Arming => Arm(k)
    case Backoff(_) => Expire(k)
    case _ => Spawn(k)
  }

  function Distance(t: Thread): nat {
    match t.stage
    case Reading(_) => 6
    case Retrying => 5
    case Arming => 4
    case Starting => 3
    case Backoff(_) => 3
    case Spawned(_) => 1
    case _ => 2
  }

  lemma OnwardStep(r: Runner, k: nat)
    requires Sane(r) && k in r.threads && OnItsWay(r.threads[k], r.closed)
    ensures var a := Onward(k, r.threads[k]);
            && Enabled(r, a) && !a.Start? && !TimerWins(r, a)
            && (!a.Install? ==> k in Next(r, a).threads && OnItsWay(Next(r, a).threads[k], Next(r, a).closed)
                                && Distance(Next(r, a).threads[k]) < Distance(r.threads[k]))
  {
    var a := Onward(k, r.threads[k]);
    if !a.Install? { ThreadAfter(r, a); }
  }

  /** Where one quiet action records a process, or leads to where one can be recorded. */
  lemma Before(r: Runner, a: Act)
    requires Enabled(r, a) && !a.Start? && !TimerWins(r, a) && (a.Install? || !NeverLaunches(Next(r, a)))
    ensures !NeverLaunches(r)
  {
    var rest := [];
    if !a.Install? {
      rest :| Legal(Next(r, a), rest) && Quiet(Next(r, a), rest) && Launches(rest);
    }
    var run := [a] + rest;
    assert run[1..] == rest && run[0] == a;
    if !a.Install? {
      var b :| b in rest && b.Install?;
      assert b in run;
    }
    assert Legal(r, run) && Quiet(r, run) && Launches(run);
  }

  lemma {:induction false} LaunchComes(r: Runner, k: nat)
    requires Sane(r) && k in r.threads && OnItsWay(r.threads[k], r.closed)
    ensures !NeverLaunches(r)
    decreases Distance(r.threads[k])
  {
    var a := Onward(k, r.threads[k]);
    OnwardStep(r, k);
    if !a.Install? {
      SaneStep(r, a);
      LaunchComes(Next(r, a), k);
    }
    Before(r, a);
  }

  /** The next action on the way to the decision about a retry, and how many are left. */
  function Ending(k: nat, t: Thread, failed: bool): Act {
    if t.stage.Installed? then Announce(k)
    else if t.stage.Watching? && t.process.Some? then Exit(k)
    else if t.stage.Watching? then Notice(k, failed)
    else Decide(k, failed)
  }

  function Steps(t: Thread): nat {
    if t.stage.Installed? then 3 else if t.stage.Watching? && t.process.Some? then 2 else if t.stage.Watching? then 1 else 0
  }

  lemma EndingStep(r: Runner, k: nat)
    requires k in r.threads && MayRetry(r.threads[k]) && r.proc.state != Draining
    ensures var a := Ending(k, r.threads[k], true);
            && Enabled(r, a) && !a.Start? && !TimerWins(r, a) && k in Next(r, a).threads
            && (if a.Decide? then OnItsWay(Next(r, a).threads[k], Next(r, a).closed)
                else MayRetry(Next(r, a).threads[k]) && Next(r, a).proc.state != Draining
                     && Steps(Next(r, a).threads[k]) < Steps(r.threads[k]))
  {
  }

  /** A goroutine that does not find the runner draining may retry. */
  lemma {:induction false} RetryComes(r: Runner, k: nat)
    requires Sane(r) && k in r.threads && MayRetry(r.threads[k]) && r.proc.state != Draining
    ensures !NeverLaunches(r)
    decreases Steps(r.threads[k])
  {
    var a := Ending(k, r.threads[k], true);
    EndingStep(r, k);
    SaneStep(r, a);
    if a.Decide? {
      LaunchComes(Next(r, a), k);
    } else {
      RetryComes(Next(r, a), k);
    }
    Before(r, a);
  }

  /** The next action on the way to a state of rest, and how many are left. */
  function Resting(k: nat, t: Thread): Act {
    match t.stage
    case Reading(_) => Read(k)
    case Leaving(_) => Leave(k)
    case Backoff(_) => SeeCancel(k)
    case Failing => Report(k)
    case Refused => StartFails(k)
    case _ => Ending(k, t, false)
  }

  function Left(t: Thread): nat {
    match t.stage
    case Leaving(_) => 0
    case Reading(_) => 1
    case Backoff(_) => 1
    case Refused => 0
    case Failing => 1
    case _ => 2 + Steps(t)
  }

  lemma RestingStep(r: Runner, j: nat)
    requires EndsDrain(r, j) && !OnItsWay(r.threads[j], r.closed) && r.proc.state == Draining
    requires !r.threads[j].stage.Installed? && !r.threads[j].stage.Watching? && !r.threads[j].stage.Exited?
    ensures var a := Resting(j, r.threads[j]);
            && Enabled(r, a) && ByThread(a) && a.k == j && !TimerWins(r, a)
            && (Next(r, a).proc.state == Draining ==>
                  EndsDrain(Next(r, a), j) && !OnItsWay(Next(r, a).threads[j], Next(r, a).closed)
                  && Left(Next(r, a).threads[j]) < Left(r.threads[j]))
  {
  }

  lemma DecidingStep(r: Runner, j: nat)
    requires j in r.threads && r.proc.state == Draining
    requires r.threads[j].stage.Installed? || r.threads[j].stage.Watching? || r.threads[j].stage.Exited?
    ensures var a := Resting(j, r.threads[j]);
            && Enabled(r, a) && ByThread(a) && a.k == j && !TimerWins(r, a)
            && EndsDrain(Next(r, a), j) && !OnItsWay(Next(r, a).threads[j], Next(r, a).closed)
            && Left(Next(r, a).threads[j]) < Left(r.threads[j])
  {
  }

  /** One goroutine ends the drain, and the other, which knows nothing of it, may retry. */
  lemma {:induction false} OtherRetries(r: Runner, j: nat, k: nat)
    requires Sane(r) && k in r.threads && MayRetry(r.threads[k]) && r.proc.state == Draining
    requires j != k && EndsDrain(r, j) && !OnItsWay(r.threads[j], r.closed)
    ensures !NeverLaunches(r)
    decreases Left(r.threads[j])
  {
    var a := Resting(j, r.threads[j]);
    if a.Announce? || a.Exit? || a.Notice? || a.Decide? { DecidingStep(r, j); } else { RestingStep(r, j); }
    OneThread(r, a);
    SaneStep(r, a);
    if Next(r, a).proc.state == Draining {
      OtherRetries(Next(r, a), j, k);
    } else {
      RetryComes(Next(r, a), k);
    }
    Before(r, a);
  }

  /**
    In any reachable state, however many Starts overlap: no continuation without another Start, and without a
    timer that wins over a close, records a process exactly when nobody is on the way to a launch, and whoever
    may retry finds the runner draining, with no other goroutine left to end the drain.
   */
  lemma {:induction false} LaunchesExactly(before: seq<Act>, r: Runner)
    requires Legal(FIRST, before) && r == Exec(FIRST, before)
    ensures NeverLaunches(r) <==> Settled(r, r.closed)
  {
    SaneRun(FIRST, before);
    if Settled(r, r.closed) {
      forall run | Legal(r, run) && Quiet(r, run) ensures !Launches(run) {
        SettledRun(r, run);
      }
    } else {
      UnsettledLaunches(r);
    }
  }

  lemma UnsettledLaunches(r: Runner)
    requires Sane(r) && !Settled(r, r.closed)
    ensures !NeverLaunches(r)
  {
    if k :| k in r.threads && OnItsWay(r.threads[k], r.closed) {
      LaunchComes(r, k);
    } else {
      var k :| k in r.threads && MayRetry(r.threads[k])
               && !(r.proc.state == Draining && forall j <- r.threads :: j != k ==> !EndsDrain(r, j));
      if r.proc.state != Draining {
        RetryComes(r, k);
      } else {
        var j :| j in r.threads && j != k && EndsDrain(r, j);
        OtherRetries(r, j, k);
      }
    }
  }

  /** The channel that a halt now would close. */
  function ClosedBy(r: Runner): set<nat> {
    var l := Data(r, r.current);
    if HaltDecision(l).CloseCancel? then {l.retryCancel.value} else {}
  }

  /**
    After a halt, no continuation without another Start records a process exactly when the halt finds nobody
    on the way to a launch, closes the channel of every retry that still sleeps on an open one, and whoever
    may retry will find the runner draining.
   */
  lemma {:induction false} HaltHoldsExactly(before: seq<Act>, r: Runner)
    requires Legal(FIRST, before) && r == Exec(FIRST, before)
    ensures NeverLaunches(Next(r, Halt)) <==> Settled(r, r.closed + ClosedBy(r))
  {
    var r' := Next(r, Halt);
    Extend(FIRST, before, r, Halt);
    LaunchesExactly(before + [Halt], r');
    HaltCloses(r);
    assert r'.closed == r.closed + ClosedBy(r);
    SameSettled(r, r', r'.closed);
  }

  lemma SameSettled(r: Runner, r': Runner, closed: set<nat>)
    requires r'.threads == r.threads && r'.proc == r.proc
    ensures Settled(r', closed) <==> Settled(r, closed)
  {
    assert forall j <- r.threads :: EndsDrain(r', j) <==> EndsDrain(r, j);
  }

  lemma StoppedBeside() returns (run: seq<Act>, r: Runner)
    ensures Legal(FIRST, run) && r == Exec(FIRST, run)
    ensures |run| >= 2 && run[|run| - 2..] == [Stop, Halt] && r.proc.state == Draining
    ensures r.threads == map[0 := Thread(false, Watching, Some(1), Some(0)), 1 := Thread(false, Watching, Some(2), Some(1))]
  {
    run, r := SecondStartTakesOver();
    WriteOnly(r, Stop);
    run, r := Step(run, r, Stop);
    assert r.proc.state == Draining;
    HaltCloses(r);
    run, r := Step(run, r, Halt);
  }

  /**
    The stop of a runner with two listeners: the first goroutine to leave writes Offline, and the other does
    not find the runner draining any more and launches it again.
   */
  lemma StopMissesSecond() returns (run: seq<Act>, r: Runner)
    ensures Legal(FIRST, run) && r == Exec(FIRST, run)
    ensures |run| >= 2 && run[|run| - 2..] == [Stop, Halt] && r.proc.state == Draining && !NeverLaunches(r)
  {
    run, r := StoppedBeside();
    assert 0 in r.threads && 1 in r.threads && MayRetry(r.threads[0]) && EndsDrain(r, 1);
    LaunchesExactly(run, r);
  }
}
