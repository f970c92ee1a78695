/** When a stop really stops: which halts are lost, and what becomes of a retry and of a failed start. */
module Halts {
  import opened Collections
  import opened Lifecycle
  import opened Standalone
  import opened Freeze
  import opened Orphans

  // ----- the state that Stop leaves behind

  /** Stop has written its state and nobody has started the runner again. */
  predicate StopSeen(r: Runner) {
    r.proc.state == Draining || (r.owner.Nobody? && r.proc.state in {Offline, Failed})
  }

  predicate IsStart(a: Act, n: string) {
    a.Start? && a.n == n
  }

  lemma StopSeenOne(m: Manager, r: Runner, a: Act)
    requires EnabledOne(m, r, a) && StopSeen(r) && !a.Start?
    ensures StopSeen(NextOne(m, r, a))
  {
  }

  lemma StopSeenStep(m: Manager, a: Act, n: string)
    requires Enabled(m, a) && n in m.runners && StopSeen(m.runners[n]) && !IsStart(a, n)
    ensures n in Next(m, a).runners && StopSeen(Next(m, a).runners[n])
  {
    if !a.Lock? && !a.Unlock? && a.n == n {
      StopSeenOne(m, m.runners[n], a);
    }
  }

  /** Between Stop and Halt anything but a new Start may happen. */
  lemma {:induction false} StopIsSeen(m: Manager, run: seq<Act>, n: string)
    requires Legal(m, run) && n in m.runners && StopSeen(m.runners[n])
    requires forall a <- run :: !IsStart(a, n)
    ensures n in Exec(m, run).runners && StopSeen(Exec(m, run).runners[n])
    decreases |run|
  {
    if run != [] {
      StopSeenStep(m, run[0], n);
      StopIsSeen(Next(m, run[0]), run[1..], n);
    }
  }

  // ----- which halts hold

  /** The timer of a retry whose channel has been closed fires before the close is seen. */
  predicate TimerWins(m: Manager, a: Act, n: string) {
    && a.Expire? && a.n == n && n in m.runners
    && m.runners[n].owner.Backoff? && m.runners[n].owner.channel in m.closed
  }

  /** A continuation without another Start, and, unless timer, without a timer that wins over a close. */
  ghost predicate Quiet(m: Manager, run: seq<Act>, n: string, timer: bool)
    requires Legal(m, run)
    decreases |run|
  {
    run == [] || (!IsStart(run[0], n) && (timer || !TimerWins(m, run[0], n))
                  && Quiet(Next(m, run[0]), run[1..], n, timer))
  }

  /** The run records a new process for the runner. */
  ghost predicate Installs(m: Manager, run: seq<Act>, n: string)
    requires Legal(m, run)
    decreases |run|
  {
    run != [] &&
    var m' := Next(m, run[0]);
    (run[0].Install? && run[0].n == n && n in m'.runners && m'.runners[n].owner.Installed?) || Installs(m', run[1..], n)
  }

  /** No continuation records a new process. */
  ghost predicate NeverLaunches(m: Manager, n: string, timer: bool) {
    forall run :: Legal(m, run) && Quiet(m, run, n, timer) ==> !Installs(m, run, n)
  }

  /** The goroutine is on its way to a launch, or back to one. */
  predicate Launching(o: Owner, timer: bool) {
    || o.Starting? || o.Prepared? || o.Spawned? || o.Retrying? || o.Arming? || o.Expired?
    || (timer && o.Backoff?)
  }

  /** The stop holds: no way leads to a launch any more. */
  predicate Settled(m: Manager, n: string, timer: bool) {
    && n in m.runners && StopSeen(m.runners[n]) && !Launching(m.runners[n].owner, timer)
    && (m.runners[n].owner.Backoff? ==> m.runners[n].owner.channel in m.closed)
  }

  lemma SettledStep(m: Manager, a: Act, n: string, timer: bool)
    requires Enabled(m, a) && Settled(m, n, timer) && !IsStart(a, n) && (timer || !TimerWins(m, a, n))
    ensures Settled(Next(m, a), n, timer) && !(a.Install? && a.n == n)
  {
    StopSeenStep(m, a, n);
    if a.Lock? || a.Unlock? {
      OwnersStay(m, a, n);
    } else if a.n != n {
      Untouched(m, a, n);
    } else {
      SettledNext(m, m.runners[n], a, timer);
    }
  }

  lemma OwnersStay(m: Manager, a: Act, n: string)
    requires (a.Lock? || a.Unlock?) && n in m.runners
    ensures n in Next(m, a).runners && Next(m, a).runners[n].owner == m.runners[n].owner
  {
  }

  lemma SettledNext(m: Manager, r: Runner, a: Act, timer: bool)
    requires EnabledOne(m, r, a) && StopSeen(r) && !Launching(r.owner, timer) && !a.Start?
    requires r.owner.Backoff? ==> r.owner.channel in m.closed && !timer && !a.Expire?
    ensures !a.Install? && !Launching(NextOne(m, r, a).owner, timer)
    ensures NextOne(m, r, a).owner.Backoff? ==> NextOne(m, r, a).owner == r.owner
  {
  }

  lemma {:induction false} SettledRun(m: Manager, run: seq<Act>, n: string, timer: bool)
    requires Legal(m, run) && Quiet(m, run, n, timer) && Settled(m, n, timer)
    ensures !Installs(m, run, n)
    decreases |run|
  {
    if run != [] {
      SettledStep(m, run[0], n, timer);
      SettledRun(Next(m, run[0]), run[1..], n, timer);
    }
  }

  /** A launch can still come: the goroutine is on its way, or sleeps on an open channel. */
  predicate MayLaunch(m: Manager, n: string, timer: bool) {
    n in m.runners && (Launching(m.runners[n].owner, timer)
                       || (m.runners[n].owner.Backoff? && m.runners[n].owner.channel !in m.closed))
  }

  /** The next action on the way to a launch, and how many are left. */
  function Onward(o: Owner, n: string): Act {
    match o
    case Starting => Prepare(n)
    case Retrying => Reregister(n)
    case Arming => Arm(n)
    case Backoff(_) => Expire(n)
    case Spawned(_, _) => Install(n, false)
    case _ => Spawn(n)
  }

  function Distance(o: Owner): nat {
    match o
    case Retrying => 5
    case Arming => 4
    case Starting => 3
    case Backoff(_) => 3
    case Spawned(_, _) => 1
    case _ => 2
  }

  lemma OnwardStep(m: Manager, n: string, timer: bool)
    requires ChannelsOpen(m) && MayLaunch(m, n, timer)
    ensures var a := Onward(m.runners[n].owner, n);
            && Enabled(m, a) && !IsStart(a, n) && (timer || !TimerWins(m, a, n))
            && n in Next(m, a).runners
            && (a.Install? ==> Next(m, a).runners[n].owner.Installed?)
            && (!a.Install? ==> MayLaunch(Next(m, a), n, timer)
                                && Distance(Next(m, a).runners[n].owner) < Distance(m.runners[n].owner))
  {
  }

  /** And if a launch can come, some continuation brings it. */
  lemma {:induction false} LaunchComes(m: Manager, n: string, timer: bool) returns (run: seq<Act>)
    requires ChannelsOpen(m) && MayLaunch(m, n, timer)
    ensures Legal(m, run) && Quiet(m, run, n, timer) && Installs(m, run, n)
    decreases Distance(m.runners[n].owner)
  {
    var a := Onward(m.runners[n].owner, n);
    OnwardStep(m, n, timer);
    var rest := [];
    if !a.Install? {
      ChannelsStep(m, a);
      rest := LaunchComes(Next(m, a), n, timer);
    }
    run := [a] + rest;
    assert run[1..] == rest;
  }

  /** A retry sleeps on its own channel, until a halt closes it. */
  predicate ArmedOne(r: Runner, closed: set<nat>) {
    r.owner.Backoff? ==>
      r.owner.channel in closed || (r.listener.cmd.None? && r.listener.retryCancel == Some(r.owner.channel))
  }

  ghost predicate Armed(m: Manager) {
    forall n <- m.runners :: ArmedOne(m.runners[n], m.closed)
  }

  lemma ArmedNext(m: Manager, r: Runner, a: Act)
    requires EnabledOne(m, r, a) && ArmedOne(r, m.closed)
    ensures ArmedOne(NextOne(m, r, a),
                     if a.Halt? && HaltDecision(r.listener).CloseCancel?
                     then m.closed + {r.listener.retryCancel.value} else m.closed)
  {
  }

  lemma ArmedStep(m: Manager, a: Act)
    requires Enabled(m, a) && Armed(m)
    ensures Armed(Next(m, a))
  {
    var m' := Next(m, a);
    assert m.closed <= m'.closed;
    if !a.Lock? && !a.Unlock? && a.n in m.runners {
      ArmedNext(m, m.runners[a.n], a);
    }
  }

  lemma {:induction false} ArmedRun(m: Manager, run: seq<Act>)
    requires Legal(m, run) && Armed(m)
    ensures Armed(Exec(m, run))
    decreases |run|
  {
    if run != [] {
      ArmedStep(m, run[0]);
      ArmedRun(Next(m, run[0]), run[1..]);
    }
  }

  /** A halt changes no goroutine, and closes the channel on which a retry sleeps. */
  lemma HaltCloses(m: Manager, n: string)
    requires Armed(m) && n in m.runners
    ensures n in Next(m, Halt(n)).runners && Next(m, Halt(n)).runners[n].owner == m.runners[n].owner
    ensures Next(m, Halt(n)).runners[n].proc == m.runners[n].proc
    ensures Next(m, Halt(n)).runners[n].process == m.runners[n].process
    ensures m.runners[n].owner.Backoff? ==> m.runners[n].owner.channel in Next(m, Halt(n)).closed
  {
    assert ArmedOne(m.runners[n], m.closed);
  }

  /**
    After Stop and Halt no continuation without another Start records a process, exactly when the halt
    does not meet the goroutine before a launch (Starting, Prepared, Spawned, Expired), on the way back to
    one (Retrying, Arming), or, as far as the timer may win over the close, in its backoff.
   */
  lemma {:induction false} HaltHoldsExactly(before: seq<Act>, m: Manager, n: string, timer: bool)
    requires Legal(FIRST, before) && m == Exec(FIRST, before) && n in m.runners && StopSeen(m.runners[n])
    ensures NeverLaunches(Next(m, Halt(n)), n, timer) <==> !Launching(m.runners[n].owner, timer)
  {
    var m' := Next(m, Halt(n));
    ArmedRun(FIRST, before);
    ChannelsRun(FIRST, before);
    HaltCloses(m, n);
    if Launching(m.runners[n].owner, timer) {
      ChannelsStep(m, Halt(n));
      var run := LaunchComes(m', n, timer);
      assert Legal(m', run) && Quiet(m', run, n, timer) && Installs(m', run, n);
    } else {
      forall run | Legal(m', run) && Quiet(m', run, n, timer) ensures !Installs(m', run, n) {
        SettledRun(m', run, n, timer);
      }
    }
  }

  // ----- a stop during the backoff

  /** The retry is over or about to be: no process, and Offline once the goroutine is gone. */
  predicate EndingOne(r: Runner, closed: set<nat>) {
    && r.process.Gone?
    && (|| (r.owner.Backoff? && r.owner.channel in closed && r.proc.state == Draining)
        || (r.owner.Leaving? && r.proc.state == Draining)
        || (r.owner.Nobody? && r.proc.state == Offline))
  }

  predicate Ending(m: Manager, n: string) {
    n in m.runners && EndingOne(m.runners[n], m.closed)
  }

  lemma EndingNext(m: Manager, r: Runner, a: Act)
    requires EnabledOne(m, r, a) && EndingOne(r, m.closed) && !a.Start?
    requires !(a.Expire? && r.owner.Backoff? && r.owner.channel in m.closed)
    ensures EndingOne(NextOne(m, r, a), m.closed)
  {
  }

  lemma EndingBystander(m: Manager, a: Act, n: string)
    requires Enabled(m, a) && Ending(m, n) && (a.Lock? || a.Unlock? || a.n != n)
    ensures Ending(Next(m, a), n)
  {
  }

  lemma EndingStep(m: Manager, a: Act, n: string)
    requires Enabled(m, a) && Ending(m, n) && !IsStart(a, n) && !TimerWins(m, a, n)
    ensures Ending(Next(m, a), n)
  {
    if a.Lock? || a.Unlock? || a.n != n {
      EndingBystander(m, a, n);
    } else {
      EndingNext(m, m.runners[n], a);
    }
  }

  lemma {:induction false} EndingRun(m: Manager, run: seq<Act>, n: string)
    requires Legal(m, run) && Quiet(m, run, n, false) && Ending(m, n)
    ensures Ending(Exec(m, run), n)
    decreases |run|
  {
    if run != [] {
      EndingStep(m, run[0], n);
      EndingRun(Next(m, run[0]), run[1..], n);
    }
  }

  /**
    A stop that finds the retry asleep ends it in every continuation in which the timer does not win and
    nobody starts the runner again: no process ever, and Offline as soon as the goroutine is gone.
   */
  lemma {:induction false} StopEndsBackoff(before: seq<Act>, m: Manager, n: string, run: seq<Act>)
    requires Legal(FIRST, before) && m == Exec(FIRST, before) && n in m.runners
    requires m.runners[n].owner.Backoff? && m.runners[n].proc.state == Draining
    requires Legal(Next(m, Halt(n)), run) && Quiet(Next(m, Halt(n)), run, n, false)
    ensures Ending(Exec(Next(m, Halt(n)), run), n)
  {
    ArmedRun(FIRST, before);
    OwnedRun(FIRST, before);
    HaltCloses(m, n);
    EndingRun(Next(m, Halt(n)), run, n);
  }

  // ----- a start that fails early

  lemma {:induction false} RefusedStays(m: Manager, run: seq<Act>, n: string)
    requires Legal(m, run) && n in m.runners && m.runners[n].owner.Refused?
    requires forall a <- run :: !(a.StartFails? && a.n == n)
    ensures n in Exec(m, run).runners && Exec(m, run).runners[n].owner.Refused?
    decreases |run|
  {
    if run != [] {
      RefusedStays(Next(m, run[0]), run[1..], n);
    }
  }

  /**
    A start whose environment cannot be set up ends Failed and may be tried again, whatever happens
    between the failure and the last write of Start.
   */
  lemma {:induction false} FailedPrepareShows(m: Manager, n: string, run: seq<Act>, m': Manager)
    requires n in m.runners && m.runners[n].owner.Starting?
    requires Legal(Next(m, PrepareFails(n)), run) && m' == Exec(Next(m, PrepareFails(n)), run)
    requires forall a <- run :: !(a.StartFails? && a.n == n)
    ensures Enabled(m', StartFails(n))
    ensures var r := Next(m', StartFails(n)).runners[n]; r.proc.state == Failed && r.owner.Nobody?
    ensures Enabled(Next(m', StartFails(n)), Start(n))
  {
    RefusedStays(Next(m, PrepareFails(n)), run, n);
  }
}
