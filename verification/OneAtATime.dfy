/**
  As long as no Start comes while an earlier one or its goroutine is at work, the runner of StandaloneRuns is a
  runner of Freeze: whatever is proved of every run there holds for it.
 */
module OneAtATime {
  import opened Collections
  import opened Lifecycle
  import opened Standalone
  import S = StandaloneRuns
  import F = Freeze

  const NAME := "r"

  /** The goroutine as Freeze sees it; reading the ListenerData is no step there, and clearing is nobody's. */
  function OwnerFor(t: S.Thread): F.Owner {
    match t.stage
    case Starting => F.Starting
    case Prepared => F.Prepared
    case Spawned(pgid) => F.Spawned(!t.first, pgid)
    case Installed(frozen) => F.Installed(!t.first, frozen)
    case Watching => F.Watching
    case Exited(failed) => F.Exited(failed)
    case Reading(again) => if again then F.Retrying else F.Leaving
    case Leaving(_) => F.Leaving
    case Clearing(_) => F.Nobody
    case Retrying => F.Retrying
    case Arming => F.Arming
    case Backoff(channel) => F.Backoff(channel)
    case Expired => F.Expired
    case Failing => F.Failing(!t.first)
    case Refused => F.Refused
  }

  function ActFor(a: S.Act): Option<F.Act> {
    match a
    case Start => Some(F.Start(NAME))
    case PrepareFails(_) => Some(F.PrepareFails(NAME))
    case Prepare(_) => Some(F.Prepare(NAME))
    case Spawn(_) => Some(F.Spawn(NAME))
    case SpawnFails(_) => Some(F.SpawnFails(NAME))
    case Install(_, stopped) => Some(F.Install(NAME, stopped))
    case Announce(_) => Some(F.Announce(NAME))
    case Exit(_) => Some(F.Exit(NAME))
    case Notice(_, failed) => Some(F.Notice(NAME, failed))
    case Decide(_, again) => Some(F.Decide(NAME, again))
    case Read(_) => None
    case Leave(_) => Some(F.Leave(NAME))
    case Clear(_) => Some(F.Clear(NAME))
    case Reregister(_) => Some(F.Reregister(NAME))
    case Arm(_) => Some(F.Arm(NAME))
    case Expire(_) => Some(F.Expire(NAME))
    case SeeCancel(_) => Some(F.SeeCancel(NAME))
    case Report(_) => Some(F.Report(NAME))
    case StartFails(_) => Some(F.StartFails(NAME))
    case Stop => Some(F.Stop(NAME))
    case Halt => Some(F.Halt(NAME))
    case Lock(active, ok) => Some(F.Lock(if active then {NAME} else {}, ok))
    case Unlock(ok) => Some(F.Unlock(ok))
    case JobBegins => Some(F.JobBegins(NAME))
    case JobEnds => Some(F.JobEnds(NAME))
  }

  /** Same live process; Freeze also knows whether it is stopped. */
  predicate SameProcess(p: Option<nat>, q: F.Process) {
    match q
    case Gone => p.None?
    case Alive(pgid, _) => p == Some(pgid)
  }

  predicate Plays(f: F.Runner, t: S.Thread) {
    f.owner == OwnerFor(t) && SameProcess(t.process, f.process)
  }

  /** The runner of Freeze shows what the lone runner is. */
  ghost predicate Shows(f: F.Runner, r: S.Runner) {
    && f.proc == r.proc && f.listener == S.Data(r, r.current)
    && (r.threads == map[] ==> f.owner.Nobody? && f.process.Gone?)
    && (forall k <- r.threads :: Plays(f, r.threads[k]))
  }

  ghost predicate Matches(m: F.Manager, r: S.Runner) {
    && m.runners.Keys == {NAME} && Shows(m.runners[NAME], r)
    && m.globalPaused == r.paused && m.nextPgid == r.nextPgid && m.nextChannel == r.nextChannel && m.closed == r.closed
  }

  /** After an armed retry nothing is recorded, until the next launch is. */
  predicate Unrecorded(t: S.Thread) {
    || t.stage.Backoff? || t.stage.Expired? || t.stage == S.Leaving(false) || t.stage == S.Clearing(false)
    || (!t.first && (t.stage.Spawned? || t.stage.Failing?))
  }

  /** Which stages belong to the first launch. */
  predicate Phased(t: S.Thread) {
    && (t.stage.Starting? || t.stage.Prepared? ==> t.first)
    && (t.first ==> || t.stage.Starting? || t.stage.Prepared? || t.stage.Spawned? || t.stage.Installed?
                    || t.stage.Failing? || t.stage.Refused?)
  }

  predicate LoneThread(r: S.Runner, t: S.Thread) {
    && Phased(t) && (Unrecorded(t) ==> S.Data(r, r.current).cmd.None?)
    && (S.HasData(t) ==> r.current.Some? && r.current.value in r.heap)
    && (t.process.Some? ==> t.stage.Spawned? || t.stage.Installed? || t.stage.Watching?)
  }

  /** What a lone goroutine keeps. */
  ghost predicate Lone(r: S.Runner) {
    && S.Alone(r) && r.next == r.proc.serial + 1
    && (forall k <- r.threads :: k == r.proc.serial && LoneThread(r, r.threads[k]))
  }

  // ----- what an action does to the entry, the goroutine and the ListenerData

  /** The actions that only move the goroutine, as far as the goroutine is concerned. */
  predicate Moves(a: S.Act) {
    S.ByThread(a) && !a.Install? && !a.Clear? && !a.StartFails?
  }

  lemma OwnerStep(m: F.Manager, f: F.Runner, r: S.Runner, t: S.Thread, a: S.Act)
    requires Moves(a) && !a.Read? && S.MayMove(r, t, a) && Plays(f, t) && f.proc == r.proc && Phased(t)
    requires m.nextPgid == r.nextPgid && m.nextChannel == r.nextChannel && m.closed == r.closed
    ensures F.EnabledOne(m, f, ActFor(a).value)
    ensures Plays(F.NextOne(m, f, ActFor(a).value), S.Moved(r, t, a))
  {
    if Starts(a) { StartingStep(m, f, r, t, a); } else { WaitingStep(m, f, r, t, a); }
  }

  predicate Starts(a: S.Act) {
    a.PrepareFails? || a.Prepare? || a.Spawn? || a.SpawnFails? || a.Announce? || a.Report?
  }

  lemma StartingStep(m: F.Manager, f: F.Runner, r: S.Runner, t: S.Thread, a: S.Act)
    requires Moves(a) && Starts(a) && S.MayMove(r, t, a) && Plays(f, t) && Phased(t) && m.nextPgid == r.nextPgid
    ensures F.EnabledOne(m, f, ActFor(a).value)
    ensures Plays(F.NextOne(m, f, ActFor(a).value), S.Moved(r, t, a))
  {
  }

  lemma WaitingStep(m: F.Manager, f: F.Runner, r: S.Runner, t: S.Thread, a: S.Act)
    requires Moves(a) && !Starts(a) && !a.Read? && S.MayMove(r, t, a) && Plays(f, t) && f.proc == r.proc
    requires m.nextChannel == r.nextChannel && m.closed == r.closed
    ensures F.EnabledOne(m, f, ActFor(a).value)
    ensures Plays(F.NextOne(m, f, ActFor(a).value), S.Moved(r, t, a))
  {
    if a.Exit? || a.Notice? || a.Decide? || a.Leave? { ExitStep(m, f, r, t, a); } else { RetryStep(m, f, r, t, a); }
  }

  lemma ExitStep(m: F.Manager, f: F.Runner, r: S.Runner, t: S.Thread, a: S.Act)
    requires a.Exit? || a.Notice? || a.Decide? || a.Leave?
    requires S.MayMove(r, t, a) && Plays(f, t) && f.proc == r.proc
    ensures F.EnabledOne(m, f, ActFor(a).value)
    ensures Plays(F.NextOne(m, f, ActFor(a).value), S.Moved(r, t, a))
  {
  }

  lemma RetryStep(m: F.Manager, f: F.Runner, r: S.Runner, t: S.Thread, a: S.Act)
    requires a.Reregister? || a.Arm? || a.Expire? || a.SeeCancel?
    requires S.MayMove(r, t, a) && Plays(f, t) && m.nextChannel == r.nextChannel && m.closed == r.closed
    ensures F.EnabledOne(m, f, ActFor(a).value)
    ensures Plays(F.NextOne(m, f, ActFor(a).value), S.Moved(r, t, a))
  {
  }

  /** Reading the ListenerData is no step of Freeze. */
  lemma ReadStep(f: F.Runner, r: S.Runner, t: S.Thread, a: S.Act)
    requires a.Read? && S.MayMove(r, t, a) && Plays(f, t)
    ensures Plays(f, S.Moved(r, t, a))
  {
  }

  lemma ProcStep(m: F.Manager, f: F.Runner, r: S.Runner, a: S.Act)
    requires S.Enabled(r, a) && S.ByThread(a) && !a.Read? && F.EnabledOne(m, f, ActFor(a).value)
    requires f.proc == r.proc && Plays(f, r.threads[a.k]) && a.k == r.proc.serial && m.globalPaused == r.paused
    ensures F.NextOne(m, f, ActFor(a).value).proc == S.Next(r, a).proc
  {
  }

  lemma DataStep(m: F.Manager, f: F.Runner, r: S.Runner, a: S.Act)
    requires S.Enabled(r, a) && Lone(r) && S.ByThread(a) && !a.Read? && F.EnabledOne(m, f, ActFor(a).value)
    requires f.listener == S.Data(r, r.current) && Plays(f, r.threads[a.k])
    requires m.nextChannel == r.nextChannel && m.closed == r.closed && m.globalPaused == r.paused
    ensures F.NextOne(m, f, ActFor(a).value).listener == S.Data(S.Next(r, a), S.Next(r, a).current)
  {
    if Records(a) { RecordStep(m, f, r, a); } else { S.HeapKept(r, a); ListenerKept(m, f, ActFor(a).value); }
  }

  predicate Records(a: S.Act) {
    a.Prepare? || a.Install? || a.Clear? || a.Arm?
  }

  lemma ListenerKept(m: F.Manager, f: F.Runner, b: F.Act)
    requires F.EnabledOne(m, f, b) && !b.Prepare? && !b.Install? && !b.Clear? && !b.Arm? && !b.Halt?
    ensures F.NextOne(m, f, b).listener == f.listener
  {
  }

  lemma RecordStep(m: F.Manager, f: F.Runner, r: S.Runner, a: S.Act)
    requires S.Enabled(r, a) && Records(a) && F.EnabledOne(m, f, ActFor(a).value)
    requires !a.Prepare? ==> r.current == r.threads[a.k].data && r.current.Some? && r.current.value in r.heap
    requires Unrecorded(r.threads[a.k]) ==> S.Data(r, r.current).cmd.None?
    requires f.listener == S.Data(r, r.current) && Plays(f, r.threads[a.k])
    requires m.nextChannel == r.nextChannel && m.closed == r.closed && m.globalPaused == r.paused
    ensures F.NextOne(m, f, ActFor(a).value).listener == S.Data(S.Next(r, a), S.Next(r, a).current)
  {
  }

  lemma InstallStep(m: F.Manager, f: F.Runner, r: S.Runner, a: S.Act)
    requires S.Enabled(r, a) && a.Install? && Plays(f, r.threads[a.k]) && f.listener == S.Data(r, r.current)
    requires m.closed == r.closed && m.globalPaused == r.paused
    ensures F.EnabledOne(m, f, ActFor(a).value)
    ensures a.k in S.Next(r, a).threads && Plays(F.NextOne(m, f, ActFor(a).value), S.Next(r, a).threads[a.k])
  {
  }

  // ----- one step

  lemma SerialKept(r: S.Runner, a: S.Act)
    requires S.Enabled(r, a)
    ensures S.Next(r, a).proc.serial == if a.Start? then r.next else r.proc.serial
  {
    S.WriteIsUsed(r, a);
    assert S.WriteOf(r, a).StartEntry? <==> a.Start?;
  }

  lemma NextKept(r: S.Runner, a: S.Act)
    requires S.Enabled(r, a)
    ensures S.Next(r, a).next == if a.Start? then r.next + 1 else r.next
  {
  }

  lemma PhasedStep(r: S.Runner, t: S.Thread, a: S.Act)
    requires Moves(a) && S.MayMove(r, t, a) && Phased(t)
    ensures Phased(S.Moved(r, t, a))
    ensures Unrecorded(S.Moved(r, t, a)) ==> Unrecorded(t) || a.Arm?
  {
  }

  lemma InstalledPhase(r: S.Runner, a: S.Act)
    requires S.Enabled(r, a) && a.Install? && Phased(r.threads[a.k])
    requires Unrecorded(r.threads[a.k]) ==> S.Data(r, r.current).cmd.None?
    ensures a.k in S.Next(r, a).threads && Phased(S.Next(r, a).threads[a.k])
    ensures Unrecorded(S.Next(r, a).threads[a.k]) ==> S.Data(S.Next(r, a), S.Next(r, a).current).cmd.None?
  {
  }

  lemma MovedPhase(r: S.Runner, a: S.Act)
    requires S.Enabled(r, a) && S.Sane(r) && Lone(r) && Moves(a)
    ensures a.k in S.Next(r, a).threads && Phased(S.Next(r, a).threads[a.k])
    ensures Unrecorded(S.Next(r, a).threads[a.k]) ==> S.Data(S.Next(r, a), S.Next(r, a).current).cmd.None?
  {
    S.ThreadAfter(r, a);
    PhasedStep(r, r.threads[a.k], a);
    if a.Arm? {
      assert LoneThread(r, r.threads[a.k]) && S.HasData(r.threads[a.k]);
      ArmedData(r, a);
    } else if !a.Prepare? {
      S.HeapKept(r, a);
    }
  }

  lemma ArmedData(r: S.Runner, a: S.Act)
    requires S.Enabled(r, a) && a.Arm? && LoneThread(r, r.threads[a.k]) && r.threads[a.k].data == r.current
    ensures S.Data(S.Next(r, a), S.Next(r, a).current).cmd.None?
  {
  }

  /** What happens around the goroutine leaves it alone. */
  lemma AroundStep(r: S.Runner, a: S.Act)
    requires S.Enabled(r, a) && !S.ByThread(a) && !a.Start?
    ensures S.Next(r, a).threads == r.threads
    ensures S.Data(S.Next(r, a), S.Next(r, a).current).cmd == S.Data(r, r.current).cmd
  {
    S.OtherThreads(r, a);
    if a.Halt? { S.HaltCloses(r); } else { S.HeapKept(r, a); }
  }

  lemma LoneStep(r: S.Runner, a: S.Act)
    requires S.Enabled(r, a) && S.Sane(r) && Lone(r) && !S.StartsBeside(r, a)
    ensures S.Sane(S.Next(r, a)) && Lone(S.Next(r, a))
  {
    var r' := S.Next(r, a);
    S.SaneStep(r, a);
    S.AloneStep(r, a);
    SerialKept(r, a);
    NextKept(r, a);
    if a.Start? {
      S.OtherThreads(r, a);
      assert r'.threads.Keys == {r.next};
    } else if S.ByThread(a) {
      S.OneThread(r, a);
      if Moves(a) { MovedPhase(r, a); } else if a.Install? { InstalledPhase(r, a); }
    } else {
      AroundStep(r, a);
    }
  }

  /** An action of the goroutine, seen from its runner. */
  lemma ShowsStep(m: F.Manager, f: F.Runner, r: S.Runner, a: S.Act)
    requires S.Enabled(r, a) && Lone(r) && S.ByThread(a) && !a.Read? && Shows(f, r)
    requires m.globalPaused == r.paused && m.nextPgid == r.nextPgid && m.nextChannel == r.nextChannel && m.closed == r.closed
    ensures F.EnabledOne(m, f, ActFor(a).value)
    ensures Shows(F.NextOne(m, f, ActFor(a).value), S.Next(r, a))
  {
    var t := r.threads[a.k];
    assert Plays(f, t) && LoneThread(r, t);
    S.OneThread(r, a);
    if Moves(a) {
      S.ThreadAfter(r, a);
      OwnerStep(m, f, r, t, a);
    } else if a.Install? {
      InstallStep(m, f, r, a);
    } else {
      LastStep(m, f, r, a);
    }
    ProcStep(m, f, r, a);
    DataStep(m, f, r, a);
  }

  /** The goroutine is gone. */
  lemma LastStep(m: F.Manager, f: F.Runner, r: S.Runner, a: S.Act)
    requires S.Enabled(r, a) && S.Alone(r) && (a.Clear? || a.StartFails?) && Plays(f, r.threads[a.k])
    requires r.threads[a.k].process.None?
    ensures F.EnabledOne(m, f, ActFor(a).value)
    ensures F.NextOne(m, f, ActFor(a).value).owner.Nobody? && F.NextOne(m, f, ActFor(a).value).process.Gone?
    ensures S.Next(r, a).threads == map[]
  {
    assert r.threads.Keys == {a.k};
    S.OneThread(r, a);
    assert S.Next(r, a).threads == r.threads - {a.k};
  }

  /** What the goroutine hands out and what it closes. */
  lemma CountersStep(r: S.Runner, a: S.Act)
    requires S.Enabled(r, a)
    ensures var r' := S.Next(r, a);
            && r'.nextPgid == (if a.Spawn? then r.nextPgid + 1 else r.nextPgid)
            && r'.nextChannel == (if a.Arm? then r.nextChannel + 1 else r.nextChannel)
            && r'.paused == (a.Lock? || (!a.Unlock? && r.paused))
            && (!a.Halt? ==> r'.closed == r.closed)
  {
  }

  lemma NextNamed(m: F.Manager, b: F.Act)
    requires NAME in m.runners && !b.Lock? && !b.Unlock? && b.n == NAME && F.EnabledOne(m, m.runners[NAME], b)
    ensures F.Enabled(m, b)
    ensures var m' := F.Next(m, b);
            && m'.runners == m.runners[NAME := F.NextOne(m, m.runners[NAME], b)] && m'.globalPaused == m.globalPaused
            && m'.nextPgid == (if b.Spawn? then m.nextPgid + 1 else m.nextPgid)
            && m'.nextChannel == (if b.Arm? then m.nextChannel + 1 else m.nextChannel)
            && m'.closed == if b.Halt? && HaltDecision(m.runners[NAME].listener).CloseCancel?
                            then m.closed + {m.runners[NAME].listener.retryCancel.value} else m.closed
  {
  }

  /** The step of Freeze that goes with an action, if there is one, ends where the action does. */
  ghost predicate Follows(m: F.Manager, b: Option<F.Act>, r: S.Runner) {
    if b.None? then Matches(m, r) else F.Enabled(m, b.value) && Matches(F.Next(m, b.value), r)
  }

  /** An action of the goroutine is one on the runner, and hands out the same. */
  lemma NamedFor(a: S.Act)
    requires S.ByThread(a) && !a.Read?
    ensures var b := ActFor(a);
            && b.Some? && !b.value.Lock? && !b.value.Unlock? && !b.value.Halt? && b.value.n == NAME
            && (b.value.Spawn? <==> a.Spawn?) && (b.value.Arm? <==> a.Arm?)
  {
  }

  lemma MatchByThread(m: F.Manager, r: S.Runner, a: S.Act)
    requires S.Enabled(r, a) && Lone(r) && Matches(m, r) && S.ByThread(a) && !a.Read?
    ensures Follows(m, ActFor(a), S.Next(r, a))
  {
    var f, b := m.runners[NAME], ActFor(a).value;
    ShowsStep(m, f, r, a);
    CountersMatch(m, r, a);
    Assembled(F.Next(m, b), F.NextOne(m, f, b), S.Next(r, a));
  }

  lemma CountersMatch(m: F.Manager, r: S.Runner, a: S.Act)
    requires S.Enabled(r, a) && S.ByThread(a) && !a.Read? && NAME in m.runners
    requires F.EnabledOne(m, m.runners[NAME], ActFor(a).value)
    requires m.globalPaused == r.paused && m.nextPgid == r.nextPgid && m.nextChannel == r.nextChannel && m.closed == r.closed
    ensures F.Enabled(m, ActFor(a).value)
    ensures var m', r' := F.Next(m, ActFor(a).value), S.Next(r, a);
            && m'.runners == m.runners[NAME := F.NextOne(m, m.runners[NAME], ActFor(a).value)]
            && m'.globalPaused == r'.paused && m'.nextPgid == r'.nextPgid && m'.nextChannel == r'.nextChannel
            && m'.closed == r'.closed
  {
    CountersStep(r, a);
    NamedFor(a);
    NextNamed(m, ActFor(a).value);
  }

  lemma Assembled(m: F.Manager, f: F.Runner, r: S.Runner)
    requires m.runners.Keys == {NAME} && m.runners[NAME] == f && Shows(f, r)
    requires m.globalPaused == r.paused && m.nextPgid == r.nextPgid && m.nextChannel == r.nextChannel && m.closed == r.closed
    ensures Matches(m, r)
  {
  }

  lemma MatchRead(m: F.Manager, r: S.Runner, a: S.Act)
    requires S.Enabled(r, a) && Lone(r) && Matches(m, r) && a.Read?
    ensures Follows(m, ActFor(a), S.Next(r, a))
  {
    S.ThreadAfter(r, a);
    S.HeapKept(r, a);
    CountersStep(r, a);
    ReadStep(m.runners[NAME], r, r.threads[a.k], a);
  }

  lemma MatchStart(m: F.Manager, r: S.Runner, a: S.Act)
    requires S.Enabled(r, a) && Lone(r) && Matches(m, r) && !S.StartsBeside(r, a) && a.Start?
    ensures Follows(m, ActFor(a), S.Next(r, a))
  {
    var f := m.runners[NAME];
    S.OtherThreads(r, a);
    CountersStep(r, a);
    S.HeapKept(r, a);
    assert r.next in S.Next(r, a).threads;
    NextNamed(m, F.Start(NAME));
  }

  /** Stops and jobs write the entry and do nothing else. */
  lemma FreezeWrites(m: F.Manager, f: F.Runner, b: F.Act)
    requires b.Stop? || b.JobBegins? || b.JobEnds?
    ensures F.EnabledOne(m, f, b)
    ensures F.NextOne(m, f, b)
            == f.(proc := Written(f.proc, if b.Stop? then StopEntry else if b.JobBegins? then Write.MarkBusy
                                          else Write.MarkIdle(if m.globalPaused then Paused else Online)))
  {
  }

  lemma MatchWrite(m: F.Manager, r: S.Runner, a: S.Act)
    requires Matches(m, r) && (a.Stop? || a.JobBegins? || a.JobEnds?)
    ensures Follows(m, ActFor(a), S.Next(r, a))
  {
    var b := ActFor(a).value;
    S.WriteOnly(r, a);
    FreezeWrites(m, m.runners[NAME], b);
    NextNamed(m, b);
  }

  lemma MatchHalt(m: F.Manager, r: S.Runner)
    requires Matches(m, r)
    ensures Follows(m, Some(F.Halt(NAME)), S.Next(r, S.Halt))
  {
    S.HaltCloses(r);
    NextNamed(m, F.Halt(NAME));
  }

  lemma ShowsSignal(f: F.Runner, r: S.Runner, a: S.Act)
    requires S.Enabled(r, a) && Shows(f, r) && (a.Lock? || a.Unlock?)
    ensures Shows(if a.Lock? then F.FreezeRunner(f, a.active, a.ok) else F.ThawRunner(f, a.ok), S.Next(r, a))
  {
    S.OtherThreads(r, a);
    S.HeapKept(r, a);
  }

  lemma MatchSignal(m: F.Manager, r: S.Runner, a: S.Act)
    requires S.Enabled(r, a) && Matches(m, r) && (a.Lock? || a.Unlock?)
    ensures Follows(m, ActFor(a), S.Next(r, a))
  {
    CountersStep(r, a);
    ShowsSignal(m.runners[NAME], r, a);
  }

  lemma MatchStep(m: F.Manager, r: S.Runner, a: S.Act)
    requires S.Enabled(r, a) && Lone(r) && Matches(m, r) && !S.StartsBeside(r, a)
    ensures Follows(m, ActFor(a), S.Next(r, a))
  {
    if a.Read? {
      MatchRead(m, r, a);
    } else if S.ByThread(a) {
      MatchByThread(m, r, a);
    } else if a.Lock? || a.Unlock? {
      MatchSignal(m, r, a);
    } else if a.Start? {
      MatchStart(m, r, a);
    } else if a.Halt? {
      MatchHalt(m, r);
    } else {
      MatchWrite(m, r, a);
    }
  }

  // ----- whole runs

  lemma {:induction false} MatchRun(m: F.Manager, r: S.Runner, run: seq<S.Act>) returns (abs: seq<F.Act>)
    requires S.Legal(r, run) && S.Sane(r) && Lone(r) && Matches(m, r) && S.Never(r, run, S.StartsBeside)
    ensures F.Legal(m, abs) && Matches(F.Exec(m, abs), S.Exec(r, run))
    decreases |run|
  {
    if run == [] {
      abs := [];
    } else {
      LoneStep(r, run[0]);
      MatchStep(m, r, run[0]);
      if ActFor(run[0]).None? {
        abs := MatchRun(m, S.Next(r, run[0]), run[1..]);
      } else {
        var b := ActFor(run[0]).value;
        var rest := MatchRun(F.Next(m, b), S.Next(r, run[0]), run[1..]);
        abs := [b] + rest;
        Prepend(m, b, rest);
      }
    }
  }

  lemma Prepend(m: F.Manager, b: F.Act, rest: seq<F.Act>)
    requires F.Enabled(m, b) && F.Legal(F.Next(m, b), rest)
    ensures F.Legal(m, [b] + rest) && F.Exec(m, [b] + rest) == F.Exec(F.Next(m, b), rest)
  {
    assert ([b] + rest)[1..] == rest;
  }

  lemma MatchFrom(m: F.Manager, b: F.Act, r: S.Runner, run: seq<S.Act>) returns (abs: seq<F.Act>)
    requires F.Enabled(m, b) && Matches(F.Next(m, b), r) && S.Sane(r) && Lone(r)
    requires S.Legal(r, run) && S.Never(r, run, S.StartsBeside)
    ensures F.Legal(m, abs) && Matches(F.Exec(m, abs), S.Exec(r, run))
  {
    var rest := MatchRun(F.Next(m, b), r, run);
    abs := [b] + rest;
    Prepend(m, b, rest);
  }

  lemma FirstMatches()
    ensures F.Enabled(F.FIRST, F.Start(NAME))
    ensures Matches(F.Next(F.FIRST, F.Start(NAME)), S.FIRST) && S.Sane(S.FIRST) && Lone(S.FIRST)
  {
    assert F.Next(F.FIRST, F.Start(NAME)).runners == map[NAME := F.FRESH_RUNNER];
    assert 0 in S.FIRST.threads && S.FIRST.threads[0] == S.Thread(true, S.Starting, None, None);
  }

  /**
    Every run in which the Starts do not overlap is a run of Freeze with this one runner: at its end the entry,
    the ListenerData, the goroutine and the live process are the same.
   */
  lemma {:induction false} AloneIsFreeze(run: seq<S.Act>) returns (abs: seq<F.Act>)
    requires S.Legal(S.FIRST, run) && S.Never(S.FIRST, run, S.StartsBeside)
    ensures F.Legal(F.FIRST, abs) && Matches(F.Exec(F.FIRST, abs), S.Exec(S.FIRST, run))
  {
    FirstMatches();
    abs := MatchFrom(F.FIRST, F.Start(NAME), S.FIRST, run);
  }
}
