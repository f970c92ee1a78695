/**
  Freezing and thawing listeners as a protocol: the goroutine that owns each runner's listener
  process, the locked sections of the standalone manager, and the signals. A run may interleave
  launches, exits, retries, stops, job marks, freezes and thaws in any way.
 */
module Freeze {
  import opened Collections
  import opened Lifecycle
  import opened Standalone

  datatype Process = Gone | Alive(pgid: nat, stopped: bool)

  /** Where the goroutine that is responsible for a runner's listener stands. */
  datatype Owner =
    | Nobody
    | Starting                              // Start made the entry; the environment is set up
    | Prepared                              // ListenerData is fresh; about to launch
    | Spawned(retry: bool, pgid: nat)       // the process runs, launchListener has not taken the lock
    | Installed(retry: bool, frozen: bool)  // recorded; the transition to Online or Paused is owed
    | Watching                              // waiting for the process to exit
    | Exited(failed: bool)                  // it exited; IsDraining not read yet
    | Leaving                               // the transition to Offline is owed
    | Retrying                              // the transition to Registering is owed
    | Arming                                // the cancel channel is owed
    | Backoff(channel: nat)                 // asleep between two attempts
    | Expired                               // the backoff is over; about to launch again
    | Failing(retry: bool)                  // the launch failed; the transition to Failed is owed
    | Refused                               // Start owes its own write of Failed

  datatype Runner = Runner(proc: Proc, listener: Listener, owner: Owner, process: Process)

  datatype Manager = Manager(runners: map<string, Runner>, globalPaused: bool,
                             nextPgid: nat, nextChannel: nat, closed: set<nat>)

  datatype Act =
    | Start(n: string)
    | PrepareFails(n: string)
    | Prepare(n: string)
    | Spawn(n: string)
    | SpawnFails(n: string)
    | Install(n: string, stopped: bool)
    | Announce(n: string)
    | Exit(n: string)
    | Notice(n: string, failed: bool)
    | Decide(n: string, again: bool)
    | Leave(n: string)
    | Reregister(n: string)
    | Arm(n: string)
    | Expire(n: string)
    | SeeCancel(n: string)
    | Report(n: string)
    | StartFails(n: string)
    | Stop(n: string)
    | Halt(n: string)
    | Continue(n: string, pgid: nat)
    | JobBegins(n: string)
    | JobEnds(n: string)
    | Clear(n: string)
    | Lock(active: set<string>, ok: set<nat>)
    | Unlock(ok: set<nat>)

  function Put(m: Manager, n: string, r: Runner): Manager {
    m.(runners := m.runners[n := r])
  }

  function Write(r: Runner, w: Lifecycle.Write, owner: Owner): Runner {
    r.(proc := Written(r.proc, w), owner := owner)
  }

  /** A signal to the recorded process group reaches the live listener if the group is its own. */
  predicate Signalled(r: Runner, ok: set<nat>) {
    Reached(r.listener, ok) && r.process.Alive? && r.process.pgid == r.listener.pgid
  }

  function FreezeRunner(r: Runner, busy: bool, ok: set<nat>): Runner {
    r.(proc := FreezeOne(r.proc, busy, Reached(r.listener, ok)),
       process := if r.proc.state == Online && !busy && Signalled(r, ok)
                  then r.process.(stopped := true) else r.process)
  }

  function ThawRunner(r: Runner, ok: set<nat>): Runner {
    r.(proc := ThawOne(r.proc, Reached(r.listener, ok)),
       process := if r.proc.state == Paused && Signalled(r, ok) then r.process.(stopped := false) else r.process)
  }

  /** One action on the runner it names. */
  predicate EnabledOne(m: Manager, r: Runner, a: Act) {
    match a
    case Start(_) => r.owner.Nobody? && MayStart(r.proc.state)
    case PrepareFails(_) => r.owner.Starting?
    case Prepare(_) => r.owner.Starting?
    case Spawn(_) => r.owner.Prepared? || r.owner.Expired?
    case SpawnFails(_) => r.owner.Prepared? || r.owner.Expired?
    case Install(_, _) => r.owner.Spawned?
    case Announce(_) => r.owner.Installed?
    case Exit(_) => r.process.Alive?
    case Notice(_, _) => r.owner.Watching? && r.process.Gone?
    case Decide(_, _) => r.owner.Exited?
    case Leave(_) => r.owner.Leaving?
    case Reregister(_) => r.owner.Retrying?
    case Arm(_) => r.owner.Arming?
    case Expire(_) => r.owner.Backoff?
    case SeeCancel(_) => r.owner.Backoff? && r.owner.channel in m.closed
    case Report(_) => r.owner.Failing?
    case StartFails(_) => r.owner.Refused?
    case Clear(_) => r.owner.Nobody? || r.owner.Starting?
    case Stop(_) => true
    case Halt(_) => true
    case Continue(_, _) => true
    case JobBegins(_) => true
    case JobEnds(_) => true
    case _ => false
  }

  function NextOne(m: Manager, r: Runner, a: Act): Runner
    requires EnabledOne(m, r, a)
  {
    match a
    case Start(_) => Write(r, StartEntry(r.proc.serial + 1), Starting)
    case PrepareFails(_) => r.(owner := Refused)
    case Prepare(_) => r.(listener := NO_LISTENER, owner := Prepared)
    case Spawn(_) => r.(process := Alive(m.nextPgid, false), owner := Spawned(r.owner.Expired?, m.nextPgid))
    case SpawnFails(_) => r.(owner := Failing(r.owner.Expired?))
    case Install(_, stopped) =>
      var Spawned(retry, pgid) := r.owner;
      var outcome := LaunchOutcome(r.listener, m.closed, m.globalPaused, stopped);
      r.(listener := Recorded(r.listener, outcome, pgid),
         process := if outcome == Cancelled then Gone
                    else if outcome == Frozen && r.process.Alive? then r.process.(stopped := true)
                    else r.process,
         owner := if outcome == Cancelled then Failing(retry) else Installed(retry, outcome == Frozen))
    case Announce(_) => Write(r, Transition(if r.owner.frozen then Paused else Online), Watching)
    case Exit(_) => r.(process := Gone)
    case Notice(_, failed) => r.(owner := Exited(failed))
    case Decide(_, again) =>
      r.(owner := if r.proc.state == Draining || !r.owner.failed || !again then Leaving else Retrying)
    case Leave(_) => Write(r, Transition(Offline), Nobody)
    case Reregister(_) => Write(r, Transition(Registering), Arming)
    case Arm(_) =>
      r.(listener := r.listener.(cmd := None, retryCancel := Some(m.nextChannel)), owner := Backoff(m.nextChannel))
    case Expire(_) => r.(owner := Expired)
    case SeeCancel(_) => r.(owner := Leaving)
    case Report(_) => Write(r, Transition(Failed), if r.owner.retry then Nobody else Refused)
    case StartFails(_) => Write(r, LaunchFailed, Nobody)
    case Stop(_) => Write(r, StopEntry, r.owner)
    case Halt(_) => r.(listener := Halted(r.listener))
    case Continue(_, pgid) =>
      if r.process.Alive? && r.process.pgid == pgid then r.(process := r.process.(stopped := false)) else r
    case JobBegins(_) => Write(r, MarkBusy, r.owner)
    case JobEnds(_) => Write(r, MarkIdle(if m.globalPaused then Paused else Online), r.owner)
    case Clear(_) => r.(listener := r.listener.(cmd := None, retryCancel := None))
  }

  const FRESH_RUNNER := Runner(Proc(Registering, 0, 0), NO_LISTENER, Starting, Gone)

  predicate Enabled(m: Manager, a: Act) {
    a.Lock? || a.Unlock? || (a.Start? && a.n !in m.runners) || (a.n in m.runners && EnabledOne(m, m.runners[a.n], a))
  }

  function Next(m: Manager, a: Act): Manager
    requires Enabled(m, a)
  {
    if a.Lock? then
      m.(globalPaused := true, runners := map n | n in m.runners :: FreezeRunner(m.runners[n], n in a.active, a.ok))
    else if a.Unlock? then
      m.(globalPaused := false, runners := map n | n in m.runners :: ThawRunner(m.runners[n], a.ok))
    else if a.n !in m.runners then Put(m, a.n, FRESH_RUNNER)
    else
      var r := m.runners[a.n];
      Put(m, a.n, NextOne(m, r, a)).(
        nextPgid := if a.Spawn? then m.nextPgid + 1 else m.nextPgid,
        nextChannel := if a.Arm? then m.nextChannel + 1 else m.nextChannel,
        closed := if a.Halt? && HaltDecision(r.listener).CloseCancel?
                  then m.closed + {r.listener.retryCancel.value} else m.closed)
  }

  // ----- when the states tell the truth

  /** A stopped listener's runner says so, or is on its way out. */
  predicate StopShown(r: Runner) {
    r.process.Alive? && r.process.stopped ==> r.proc.state in {Paused, Draining}
  }

  /**
    The three actions that hide a stop: a launch frozen by the global pause on a runner that is not
    Paused or Draining, a job that begins on a frozen runner, and the late transition to Online of a
    launch that a freeze has overtaken.
   */
  predicate Hides(m: Manager, r: Runner, a: Act)
    requires EnabledOne(m, r, a)
  {
    || (a.Install? && m.globalPaused && a.stopped
        && !(r.listener.retryCancel.Some? && r.listener.retryCancel.value in m.closed)
        && r.process.Alive? && r.proc.state !in {Paused, Draining})
    || (a.JobBegins? && r.process.Alive? && r.process.stopped && r.proc.state == Paused)
    || (a.Announce? && r.process.Alive? && r.process.stopped && r.proc.state == Paused && !r.owner.frozen)
  }

  predicate HidesStop(m: Manager, a: Act) {
    !a.Lock? && !a.Unlock? && a.n in m.runners && EnabledOne(m, m.runners[a.n], a) && Hides(m, m.runners[a.n], a)
  }

  predicate InStart(o: Owner) {
    || o.Starting? || o.Prepared? || o.Refused?
    || (o.Spawned? && !o.retry) || (o.Installed? && !o.retry) || (o.Failing? && !o.retry)
  }

  /** The process belongs to the owner, and what the manager recorded is about this process. */
  predicate Attached(r: Runner, nextPgid: nat) {
    && (r.process.Alive? ==> r.owner.Spawned? || r.owner.Installed? || r.owner.Watching?)
    && (r.owner.Spawned? ==> r.owner.pgid != r.listener.pgid && 0 < r.owner.pgid < nextPgid
                             && (r.process.Alive? ==> r.process.pgid == r.owner.pgid && !r.process.stopped))
    && (r.process.Alive? && !r.owner.Spawned? ==> r.process.pgid == r.listener.pgid && r.listener.pgid != 0)
    && r.listener.pgid < nextPgid
  }

  /** Which states a runner can be in while somebody owns its listener. */
  predicate OwnedStates(r: Runner) {
    && (InStart(r.owner) ==> r.proc.state in {Registering, Draining} || (r.owner.Refused? && r.proc.state == Failed))
    && (r.owner.Installed? && !r.owner.retry && r.owner.frozen && r.process.Alive? ==> r.proc.state == Draining)
    && (!InStart(r.owner) && !r.owner.Nobody? ==> r.proc.state in {Registering, Online, Busy, Paused, Draining})
  }

  predicate RunnerOk(r: Runner, nextPgid: nat) {
    Attached(r, nextPgid) && OwnedStates(r) && StopShown(r)
  }

  ghost predicate ManagerOk(m: Manager) {
    m.nextPgid > 0 && forall n <- m.runners :: RunnerOk(m.runners[n], m.nextPgid)
  }

  ghost predicate AllShown(m: Manager) {
    forall n <- m.runners :: StopShown(m.runners[n])
  }

  /** On the runner it names, an action keeps the truth exactly when it is none of the three. */
  lemma NextOneExact(m: Manager, r: Runner, a: Act)
    requires EnabledOne(m, r, a) && RunnerOk(r, m.nextPgid) && m.nextPgid > 0
    ensures StopShown(NextOne(m, r, a)) <==> !Hides(m, r, a)
    ensures !Hides(m, r, a) ==> RunnerOk(NextOne(m, r, a), if a.Spawn? then m.nextPgid + 1 else m.nextPgid)
  {
  }

  lemma FreezeOk(r: Runner, busy: bool, ok: set<nat>, nextPgid: nat)
    requires RunnerOk(r, nextPgid)
    ensures RunnerOk(FreezeRunner(r, busy, ok), nextPgid)
  {
  }

  lemma ThawOk(r: Runner, ok: set<nat>, nextPgid: nat)
    requires RunnerOk(r, nextPgid)
    ensures RunnerOk(ThawRunner(r, ok), nextPgid)
  {
  }

  lemma NextOk(m: Manager, a: Act)
    requires Enabled(m, a) && !HidesStop(m, a) && ManagerOk(m)
    ensures ManagerOk(Next(m, a))
  {
    var m' := Next(m, a);
    forall n <- m'.runners ensures RunnerOk(m'.runners[n], m'.nextPgid) {
      if n in m.runners {
        if a.Lock? {
          FreezeOk(m.runners[n], n in a.active, a.ok, m.nextPgid);
        } else if a.Unlock? {
          ThawOk(m.runners[n], a.ok, m.nextPgid);
        } else if a.n == n {
          NextOneExact(m, m.runners[n], a);
        }
      }
    }
  }

  lemma NextExact(m: Manager, a: Act)
    requires Enabled(m, a) && ManagerOk(m)
    ensures AllShown(Next(m, a)) <==> !HidesStop(m, a)
    ensures AllShown(Next(m, a)) ==> ManagerOk(Next(m, a))
  {
    if HidesStop(m, a) {
      NextOneExact(m, m.runners[a.n], a);
      assert !StopShown(Next(m, a).runners[a.n]);
    } else {
      NextOk(m, a);
    }
  }

  // ----- runs

  ghost predicate Legal(m: Manager, run: seq<Act>)
    decreases |run|
  {
    run == [] || (Enabled(m, run[0]) && Legal(Next(m, run[0]), run[1..]))
  }

  ghost function Exec(m: Manager, run: seq<Act>): Manager
    requires Legal(m, run)
    decreases |run|
  {
    if run == [] then m else Exec(Next(m, run[0]), run[1..])
  }

  /** The property holds in every state of the run. */
  ghost predicate Always(m: Manager, run: seq<Act>, holds: Manager -> bool)
    requires Legal(m, run)
    decreases |run|
  {
    holds(m) && (run == [] || Always(Next(m, run[0]), run[1..], holds))
  }

  /** No action of a run is bad in the state in which it happens. */
  ghost predicate Never(m: Manager, run: seq<Act>, bad: (Manager, Act) -> bool)
    requires Legal(m, run)
    decreases |run|
  {
    run == [] || (!bad(m, run[0]) && Never(Next(m, run[0]), run[1..], bad))
  }

  /** Where inv and holds are true, exactly the bad actions make holds false; all others keep both. */
  ghost predicate Breaks(inv: Manager -> bool, holds: Manager -> bool, bad: (Manager, Act) -> bool) {
    forall m: Manager, a: Act :: inv(m) && holds(m) && Enabled(m, a) ==>
      (holds(Next(m, a)) <==> !bad(m, a)) && (holds(Next(m, a)) ==> inv(Next(m, a)))
  }

  lemma {:induction false} ExactRun(m: Manager, run: seq<Act>, inv: Manager -> bool, holds: Manager -> bool,
                                    bad: (Manager, Act) -> bool)
    requires inv(m) && holds(m) && Legal(m, run) && Breaks(inv, holds, bad)
    ensures Always(m, run, holds) <==> Never(m, run, bad)
    ensures Never(m, run, bad) ==> inv(Exec(m, run)) && holds(Exec(m, run))
    decreases |run|
  {
    if run != [] {
      var m' := Next(m, run[0]);
      if holds(m') {
        ExactRun(m', run[1..], inv, holds, bad);
      }
    }
  }

  const FIRST := Manager(map[], false, 1, 0, {})

  lemma {:induction false} ShownRun(run: seq<Act>)
    requires Legal(FIRST, run)
    ensures Always(FIRST, run, AllShown) <==> Never(FIRST, run, HidesStop)
    ensures Never(FIRST, run, HidesStop) ==> ManagerOk(Exec(FIRST, run))
  {
    forall m: Manager, a: Act | ManagerOk(m) && AllShown(m) && Enabled(m, a)
      ensures AllShown(Next(m, a)) <==> !HidesStop(m, a)
      ensures AllShown(Next(m, a)) ==> ManagerOk(Next(m, a))
    {
      NextExact(m, a);
    }
    ExactRun(FIRST, run, ManagerOk, AllShown, HidesStop);
  }

  /** A stopped listener's runner is Paused or Draining throughout a run exactly when no step hides a stop. */
  lemma {:induction false} StoppedIsShownExactly(run: seq<Act>)
    requires Legal(FIRST, run)
    ensures Always(FIRST, run, AllShown) <==> Never(FIRST, run, HidesStop)
  {
    ShownRun(run);
  }

  /** After an UnlockOthers whose signals reach every live listener, none outside Draining is stopped. */
  lemma {:induction false} ThawReleasesAll(run: seq<Act>, m: Manager, ok: set<nat>, n: string)
    requires Legal(FIRST, run) && Never(FIRST, run, HidesStop) && m == Exec(FIRST, run)
    requires forall k <- m.runners :: m.runners[k].process.Alive? ==> m.runners[k].process.pgid in ok
    requires n in m.runners
    ensures var r := Next(m, Unlock(ok)).runners[n];
            r.process.Alive? && r.process.stopped ==> r.proc.state == Draining
  {
    ShownRun(run);
    assert RunnerOk(m.runners[n], m.nextPgid);
  }

  // ----- who stops a listener

  predicate IsStopped(m: Manager, n: string) {
    n in m.runners && m.runners[n].process.Alive? && m.runners[n].process.stopped
  }

  /**
    A listener is stopped by a freeze that reaches its Online runner outside the list of the busy, or as its
    launch is recorded under the global pause; by nothing else.
   */
  predicate Stops(m: Manager, a: Act, n: string)
    requires n in m.runners
  {
    var r := m.runners[n];
    match a
    case Lock(active, ok) => r.proc.state == Online && n !in active && r.process.Alive? && Signalled(r, ok)
    case Install(k, stopped) =>
      k == n && m.globalPaused && stopped && r.process.Alive?
      && !(r.listener.retryCancel.Some? && r.listener.retryCancel.value in m.closed)
    case _ => false
  }

  lemma StopsExactly(m: Manager, a: Act, n: string)
    requires Enabled(m, a) && n in m.runners && !IsStopped(m, n)
    ensures IsStopped(Next(m, a), n) <==> Stops(m, a, n)
  {
    if !a.Lock? && !a.Unlock? {
      if a.n == n { StopsNamed(m, a); } else { Untouched(m, a, n); }
    }
  }

  lemma StopsNamed(m: Manager, a: Act)
    requires Enabled(m, a) && !a.Lock? && !a.Unlock? && a.n in m.runners && !IsStopped(m, a.n)
    ensures IsStopped(Next(m, a), a.n) <==> Stops(m, a, a.n)
  {
  }

  /** A stopped listener is continued by a thaw that reaches its Paused runner, or by the SIGCONT of a halt. */
  lemma ContinuesExactly(m: Manager, a: Act, n: string)
    requires Enabled(m, a) && IsStopped(m, n) && RunnerOk(m.runners[n], m.nextPgid)
    ensures var r, r' := m.runners[n], Next(m, a).runners[n];
            r'.process.Alive? && !r'.process.stopped
            <==> (a.Unlock? && r.proc.state == Paused && Signalled(r, a.ok)) || a == Continue(n, r.process.pgid)
  {
    if !a.Lock? && !a.Unlock? {
      if a.n == n { ContinuesNamed(m, a); } else { Untouched(m, a, n); }
    }
  }

  lemma ContinuesNamed(m: Manager, a: Act)
    requires Enabled(m, a) && !a.Lock? && !a.Unlock? && IsStopped(m, a.n) && Attached(m.runners[a.n], m.nextPgid)
    ensures var r, r' := m.runners[a.n], Next(m, a).runners[a.n];
            r'.process.Alive? && !r'.process.stopped <==> a == Continue(a.n, r.process.pgid)
  {
  }

  /** Without a freeze nobody is ever stopped or shown as Paused: an ordinary launch runs. */
  ghost predicate Unfrozen(m: Manager) {
    !m.globalPaused && forall n <- m.runners ::
      !IsStopped(m, n) && m.runners[n].proc.state != Paused
      && (m.runners[n].owner.Installed? ==> !m.runners[n].owner.frozen)
  }

  lemma UnfrozenStep(m: Manager, a: Act)
    requires Enabled(m, a) && Unfrozen(m) && !a.Lock?
    ensures Unfrozen(Next(m, a))
  {
    if !a.Unlock? && a.n in m.runners {
      UnfrozenOne(m, a);
    }
  }

  lemma UnfrozenOne(m: Manager, a: Act)
    requires Enabled(m, a) && Unfrozen(m) && !a.Lock? && !a.Unlock? && a.n in m.runners
    ensures var r := NextOne(m, m.runners[a.n], a);
            && !(r.process.Alive? && r.process.stopped) && r.proc.state != Paused
            && (r.owner.Installed? ==> !r.owner.frozen)
  {
    var r := m.runners[a.n];
    assert !IsStopped(m, a.n) && r.proc.state != Paused && (r.owner.Installed? ==> !r.owner.frozen);
  }

  lemma {:induction false} NoFreezeNoStop(m: Manager, run: seq<Act>)
    requires Legal(m, run) && Unfrozen(m) && forall a <- run :: !a.Lock?
    ensures Unfrozen(Exec(m, run))
    decreases |run|
  {
    if run != [] {
      UnfrozenStep(m, run[0]);
      NoFreezeNoStop(Next(m, run[0]), run[1..]);
    }
  }

  /** A freeze with no thaw after it. */
  predicate FreezeLast(run: seq<Act>) {
    exists i :: 0 <= i < |run| && run[i].Lock? && forall j :: i < j < |run| ==> !run[j].Unlock?
  }

  lemma FreezeLastCons(run: seq<Act>)
    requires run != []
    ensures FreezeLast(run) <==> FreezeLast(run[1..]) || (run[0].Lock? && forall a <- run[1..] :: !a.Unlock?)
  {
    if FreezeLast(run) {
      var i :| 0 <= i < |run| && run[i].Lock? && forall j :: i < j < |run| ==> !run[j].Unlock?;
      if i > 0 { assert run[1..][i - 1].Lock?; }
    }
    if FreezeLast(run[1..]) {
      var i :| 0 <= i < |run[1..]| && run[1..][i].Lock? && forall j :: i < j < |run[1..]| ==> !run[1..][j].Unlock?;
      assert run[i + 1].Lock? && forall j :: i + 1 < j < |run| ==> run[j] == run[1..][j - 1];
    }
    assert forall j :: 0 < j < |run| ==> run[j] == run[1..][j - 1];
  }

  /** The global pause holds from a freeze to the next thaw, and at no other time. */
  lemma {:induction false} PausedSinceFreeze(m: Manager, run: seq<Act>)
    requires Legal(m, run)
    ensures Exec(m, run).globalPaused <==> FreezeLast(run) || (m.globalPaused && forall a <- run :: !a.Unlock?)
    decreases |run|
  {
    if run != [] {
      FreezeLastCons(run);
      PausedSinceFreeze(Next(m, run[0]), run[1..]);
      assert forall a <- run :: a == run[0] || a in run[1..];
    }
  }

  // ----- the lifecycle, seen from here

  /** The write that an action makes to the entry of n. */
  function WriteOf(m: Manager, a: Act, n: string): Lifecycle.Write
    requires Enabled(m, a) && n in m.runners
  {
    var r := m.runners[n];
    var none := NoWrite(r.proc);
    if a.Lock? then
      if n !in a.active && Reached(r.listener, a.ok) then Lifecycle.Write.Freeze else none
    else if a.Unlock? then
      if Reached(r.listener, a.ok) then Thaw else none
    else if a.n != n then none
    else
      match a
      case Start(_) => StartEntry(r.proc.serial + 1)
      case Announce(_) => Transition(if r.owner.frozen then Paused else Online)
      case Leave(_) => Transition(Offline)
      case Reregister(_) => Transition(Registering)
      case Report(_) => Transition(Failed)
      case StartFails(_) => LaunchFailed
      case Stop(_) => StopEntry
      case JobBegins(_) => MarkBusy
      case JobEnds(_) => MarkIdle(if m.globalPaused then Paused else Online)
      case _ => none
  }

  lemma ActIsWrite(m: Manager, a: Act, n: string)
    requires Enabled(m, a) && n in m.runners
    ensures Used(WriteOf(m, a, n)) && n in Next(m, a).runners
    ensures Next(m, a).runners[n].proc == Written(m.runners[n].proc, WriteOf(m, a, n))
  {
    if a.Lock? || a.Unlock? {
      AllWritten(m, a, n);
    } else if a.n != n {
      Untouched(m, a, n);
    } else {
      NamedWritten(m, a);
    }
  }

  /** An action on one runner leaves the others alone. */
  lemma Untouched(m: Manager, a: Act, n: string)
    requires Enabled(m, a) && n in m.runners && !a.Lock? && !a.Unlock? && a.n != n
    ensures n in Next(m, a).runners && Next(m, a).runners[n] == m.runners[n]
  {
  }

  lemma NamedWritten(m: Manager, a: Act)
    requires Enabled(m, a) && !a.Lock? && !a.Unlock? && a.n in m.runners
    ensures Used(WriteOf(m, a, a.n)) && a.n in Next(m, a).runners
    ensures Next(m, a).runners[a.n].proc == Written(m.runners[a.n].proc, WriteOf(m, a, a.n))
  {
    OneWritten(m, a);
    assert Next(m, a).runners[a.n] == NextOne(m, m.runners[a.n], a);
  }

  lemma OneWritten(m: Manager, a: Act)
    requires Enabled(m, a) && !a.Lock? && !a.Unlock? && a.n in m.runners
    ensures Used(WriteOf(m, a, a.n))
    ensures NextOne(m, m.runners[a.n], a).proc == Written(m.runners[a.n].proc, WriteOf(m, a, a.n))
  {
  }

  lemma AllWritten(m: Manager, a: Act, n: string)
    requires Enabled(m, a) && n in m.runners && (a.Lock? || a.Unlock?)
    ensures Used(WriteOf(m, a, n)) && n in Next(m, a).runners
    ensures Next(m, a).runners[n].proc == Written(m.runners[n].proc, WriteOf(m, a, n))
  {
  }

  lemma {:induction false} PrefixLegal(m: Manager, run: seq<Act>, k: nat)
    requires Legal(m, run) && k <= |run|
    ensures Legal(m, run[..k])
    decreases |run|
  {
    if k > 0 {
      assert run[..k][1..] == run[1..][..k - 1];
      PrefixLegal(Next(m, run[0]), run[1..], k - 1);
    }
  }

  /** The entry of n after the first k actions is what the first k writes make of it. */
  ghost predicate Follows(m: Manager, run: seq<Act>, n: string, writes: seq<Lifecycle.Write>, k: nat)
    requires k <= |run| && k <= |writes| && n in m.runners
  {
    && Legal(m, run[..k]) && n in Exec(m, run[..k]).runners
    && Exec(m, run[..k]).runners[n].proc == After(m.runners[n].proc, writes[..k])
  }

  lemma FollowsCons(m: Manager, run: seq<Act>, n: string, writes: seq<Lifecycle.Write>, k: nat)
    requires 0 < k <= |run| && k <= |writes| && n in m.runners && Enabled(m, run[0])
    requires writes[0] == WriteOf(m, run[0], n) && n in Next(m, run[0]).runners
    requires Follows(Next(m, run[0]), run[1..], n, writes[1..], k - 1)
    ensures Follows(m, run, n, writes, k)
  {
    ActIsWrite(m, run[0], n);
    assert run[..k][1..] == run[1..][..k - 1];
    assert writes[..k][1..] == writes[1..][..k - 1];
  }

  /** A run writes an entry once per action, and every state of the run shows what has been written so far. */
  lemma {:induction false} RunIsWrites(m: Manager, run: seq<Act>, n: string) returns (writes: seq<Lifecycle.Write>)
    requires Legal(m, run) && n in m.runners
    ensures AllUsed(writes) && |writes| == |run|
    ensures forall k :: 0 <= k <= |run| ==> Follows(m, run, n, writes, k)
    decreases |run|
  {
    if run == [] {
      writes := [];
    } else {
      ActIsWrite(m, run[0], n);
      var rest := RunIsWrites(Next(m, run[0]), run[1..], n);
      writes := [WriteOf(m, run[0], n)] + rest;
      assert writes[1..] == rest;
      forall k | 0 < k <= |run| ensures Follows(m, run, n, writes, k) {
        FollowsCons(m, run, n, writes, k);
      }
    }
  }

  lemma WholeRun(m: Manager, run: seq<Act>, n: string, writes: seq<Lifecycle.Write>)
    requires Legal(m, run) && n in m.runners && |writes| == |run| && Follows(m, run, n, writes, |run|)
    ensures n in Exec(m, run).runners && Exec(m, run).runners[n].proc == After(m.runners[n].proc, writes)
  {
    assert run[..|run|] == run && writes[..|run|] == writes;
  }

  /** The state of a runner after the first k actions of a run. */
  ghost function StateAt(m: Manager, run: seq<Act>, n: string, k: nat): RunnerState
    requires k <= |run| && Legal(m, run[..k]) && n in Exec(m, run[..k]).runners
  {
    Exec(m, run[..k]).runners[n].proc.state
  }

  /**
    In every run of the standalone manager, a runner that comes back to life from Draining was first
    Offline or Failed, and Registering after that.
   */
  lemma {:induction false} DrainingIsNotUndoneInRuns(m: Manager, run: seq<Act>, n: string) returns (k: nat, j: nat)
    requires Legal(m, run) && n in m.runners && m.runners[n].proc.state == Draining
    requires n in Exec(m, run).runners && IsLive(Exec(m, run).runners[n].proc.state)
    ensures k < j <= |run|
    ensures Legal(m, run[..k]) && n in Exec(m, run[..k]).runners && StateAt(m, run, n, k) in {Offline, Failed}
    ensures Legal(m, run[..j]) && n in Exec(m, run[..j]).runners && StateAt(m, run, n, j) == Registering
  {
    var writes := RunIsWrites(m, run, n);
    WholeRun(m, run, n, writes);
    k, j := DrainingIsNotUndone(m.runners[n].proc, writes);
    assert Follows(m, run, n, writes, k) && Follows(m, run, n, writes, j);
  }

  /** A busy runner has a worker, in every run of the standalone manager. */
  lemma {:induction false} BusyHasWorkersInRuns(m: Manager, run: seq<Act>, n: string)
    requires Legal(m, run) && n in m.runners && BusyHasWorkers(m.runners[n].proc)
    ensures n in Exec(m, run).runners && BusyHasWorkers(Exec(m, run).runners[n].proc)
  {
    var writes := RunIsWrites(m, run, n);
    WholeRun(m, run, n, writes);
    BusyImpliesWorkers(m.runners[n].proc, writes);
  }

  // ----- the cancel channel

  /** No recorded cancel channel is closed, and no two runners share one. */
  ghost predicate ChannelsOpen(m: Manager) {
    && (forall c <- m.closed :: c < m.nextChannel)
    && (forall n <- m.runners :: m.runners[n].listener.retryCancel.Some? ==>
          m.runners[n].listener.retryCancel.value < m.nextChannel
          && m.runners[n].listener.retryCancel.value !in m.closed)
    && (forall n <- m.runners, k <- m.runners :: n != k && m.runners[n].listener.retryCancel.Some? ==>
          m.runners[n].listener.retryCancel != m.runners[k].listener.retryCancel)
  }

  /** What an action does to the cancel channel of its runner. */
  lemma ChannelOne(m: Manager, r: Runner, a: Act)
    requires EnabledOne(m, r, a)
    ensures var c' := NextOne(m, r, a).listener.retryCancel;
            c' == r.listener.retryCancel || c'.None? || (a.Arm? && c' == Some(m.nextChannel))
    ensures a.Halt? && HaltDecision(r.listener).CloseCancel? ==> NextOne(m, r, a).listener.retryCancel.None?
  {
  }

  lemma ChannelsPut(m: Manager, n: string, r: Runner, m': Manager)
    requires ChannelsOpen(m) && m'.runners == m.runners[n := r] && m.nextChannel <= m'.nextChannel
    requires m'.closed == m.closed
    requires r.listener.retryCancel.Some? ==>
               (n in m.runners && r.listener.retryCancel == m.runners[n].listener.retryCancel)
               || (r.listener.retryCancel == Some(m.nextChannel) && m.nextChannel < m'.nextChannel)
    ensures ChannelsOpen(m')
  {
  }

  /** Closing a channel and forgetting it go together. */
  lemma ChannelsClose(m: Manager, n: string, r: Runner, m': Manager)
    requires ChannelsOpen(m) && n in m.runners && m.runners[n].listener.retryCancel.Some?
    requires m'.runners == m.runners[n := r] && r.listener.retryCancel.None? && m'.nextChannel == m.nextChannel
    requires m'.closed == m.closed + {m.runners[n].listener.retryCancel.value}
    ensures ChannelsOpen(m')
  {
  }

  lemma ChannelsStep(m: Manager, a: Act)
    requires Enabled(m, a) && ChannelsOpen(m)
    ensures ChannelsOpen(Next(m, a))
  {
    if !a.Lock? && !a.Unlock? {
      if a.n !in m.runners {
        ChannelsPut(m, a.n, FRESH_RUNNER, Next(m, a));
      } else {
        var r := m.runners[a.n];
        ChannelOne(m, r, a);
        if a.Halt? && HaltDecision(r.listener).CloseCancel? {
          ChannelsClose(m, a.n, NextOne(m, r, a), Next(m, a));
        } else {
          ChannelsPut(m, a.n, NextOne(m, r, a), Next(m, a));
        }
      }
    }
  }

  lemma {:induction false} ChannelsRun(m: Manager, run: seq<Act>)
    requires Legal(m, run) && ChannelsOpen(m)
    ensures ChannelsOpen(Exec(m, run))
    decreases |run|
  {
    if run != [] {
      ChannelsStep(m, run[0]);
      ChannelsRun(Next(m, run[0]), run[1..]);
    }
  }

  /** Halt forgets the channel it closes, so the cancel check of launchListener never fires, in any run. */
  lemma {:induction false} CancelCheckNeverFires(run: seq<Act>, m: Manager, n: string, stopped: bool)
    requires Legal(FIRST, run) && m == Exec(FIRST, run) && n in m.runners
    ensures LaunchOutcome(m.runners[n].listener, m.closed, m.globalPaused, stopped) != Cancelled
  {
    ChannelsRun(FIRST, run);
  }
}
