/**
  Runs that show why the guards in the theorems are there. Each lemma builds a start and a run of the
  orchestrator, for any runner name, address and container names of the right form.
 */
module Counterexamples {
  import opened Collections
  import opened Pool
  import opened Names
  import opened Protocol
  import opened Accounting
  import opened Wakeups
  import opened Pausing
  import opened Runs
  import opened Exactly
  import opened Exclusive
  import opened Footprint
  import opened Marking
  import L = Lifecycle

  lemma OneAction(s: Sys, a: Action)
    requires Enabled(s, a)
    ensures Legal(s, [a]) && Exec(s, [a]) == Apply(s, a)
  {
    assert [a][1..] == [];
  }

  /** A run may be continued by any enabled action. */
  lemma {:induction false} Extend(s0: Sys, run: seq<Action>, s: Sys, a: Action)
    requires Legal(s0, run) && s == Exec(s0, run) && Enabled(s, a)
    ensures Legal(s0, run + [a]) && Exec(s0, run + [a]) == Apply(s, a)
    decreases |run|
  {
    if run == [] {
      OneAction(s, a);
      assert run + [a] == [a];
    } else {
      Extend(Apply(s0, run[0]), run[1..], s, a);
      OneBefore(s0, run + [a], run[1..] + [a]);
    }
  }

  lemma OneBefore(s: Sys, run: seq<Action>, rest: seq<Action>)
    requires run != [] && run[1..] == rest && Enabled(s, run[0]) && Legal(Apply(s, run[0]), rest)
    ensures Legal(s, run) && Exec(s, run) == Exec(Apply(s, run[0]), rest)
  {
  }

  /** s is reached from s0, whatever s0 is. */
  ghost predicate Leads(s0: Sys, run: seq<Action>, s: Sys) {
    Legal(s0, run) && s == Exec(s0, run)
  }

  lemma Continue(s0: Sys, run: seq<Action>, s: Sys, a: Action) returns (run': seq<Action>, s': Sys)
    requires Leads(s0, run, s) && Enabled(s, a)
    ensures Leads(s0, run', s') && s' == Apply(s, a)
  {
    Extend(s0, run, s, a);
    run', s' := run + [a], Apply(s, a);
  }

  const SEVEN: Id := 7

  /** The strings of an example. */
  datatype Strings = Strings(runner: string, ip: string, warmName: string, activeName: string, short: string)

  predicate Fit(x: Strings) {
    && x.runner != "" && IsShortId(x.short)
    && IsWarmName(x.warmName)
    && IsActiveName(x.activeName) && ParseRunner(x.activeName) == x.runner
  }

  lemma FitExists()
    ensures exists x :: Fit(x)
  {
    var x := Strings("r", "10.0.0.1", WarmName("0000000a"), ActiveName("r", "0000000a"), "0000000b");
    ParseUndoesFormat("r", "0000000a");
    assert Fit(x);
  }

  /** One running container, warm or active, and the given limits. */
  function Start(warm: map<Id, string>, active: map<Id, ActiveWorker>, listeners: map<string, int>,
                 c: Container, maxWorkers: int, warmConfig: int): Sys
  {
    var p := Pool(0, warm, active, listeners, maxWorkers, warmConfig, 0, 0, false);
    Sys(p, false, Ready, map[0 := EventIdle], map[SEVEN := c], {},
        History(p, maxWorkers, Max(0, warmConfig), 0, 0, {}, [], [], [], {}, {}, {}))
  }

  function WarmStart(x: Strings, maxWorkers: int, warmConfig: int): Sys {
    Start(map[SEVEN := x.ip], map[], map[], Container(x.warmName, x.ip, true), maxWorkers, warmConfig)
  }

  lemma WarmStartInit(x: Strings, maxWorkers: int, warmConfig: int)
    requires Fit(x)
    ensures Init(WarmStart(x, maxWorkers, warmConfig))
  {
    var s := WarmStart(x, maxWorkers, warmConfig);
    assert Running(s) == {SEVEN};
    assert s.pool.warm.Keys == {SEVEN} && s.pool.active.Keys == {};
  }

  /** The first call claims the only warm container. */
  lemma ClaimSeven(x: Strings, maxWorkers: int, warmConfig: int) returns (run: seq<Action>, s: Sys)
    ensures Leads(WarmStart(x, maxWorkers, warmConfig), run, s)
    ensures s.threads == map[0 := EventIdle, 1 := Claimed(x.runner, SEVEN, x.ip)]
    ensures s.pool == Pool(1, map[], map[], map[], maxWorkers, warmConfig, 0, 0, false)
    ensures s.docker == map[SEVEN := Container(x.warmName, x.ip, true)]
    ensures s.maintainer.Ready? && s.undelivered == {} && s.hist.marks == []
  {
    var s0 := WarmStart(x, maxWorkers, warmConfig);
    run, s := Continue(s0, [], s0, Begin(1, x.runner, SEVEN));
    assert s.pool.warm == map[];
  }

  /** What a call does to its own claim: nothing else in the pool or the world moves. */
  predicate SameAround(s: Sys, s': Sys, pc: Pc) {
    && s'.pool == s.pool && s'.maintainer == s.maintainer && s'.threads == s.threads[1 := pc]
    && s'.hist.marks == s.hist.marks
    && s'.docker.Keys == s.docker.Keys && s'.undelivered == s.undelivered
    && (forall id <- s.docker :: s'.docker[id].running == s.docker[id].running)
  }

  /** The claim is renamed and checked. */
  lemma CheckClaimed(x: Strings, s0: Sys, run: seq<Action>, s: Sys, ok: bool) returns (run': seq<Action>, s': Sys)
    requires Fit(x) && Leads(s0, run, s) && 1 in s.threads && s.threads[1] == Claimed(x.runner, SEVEN, x.ip)
    requires SEVEN in s.docker && s.docker[SEVEN].running
    ensures Leads(s0, run', s')
    ensures SameAround(s, s', if ok then Checked(x.runner, SEVEN, x.ip) else Condemned(x.runner, SEVEN))
  {
    run', s' := Continue(s0, run, s, Rename(1, x.short, true));
    run', s' := Continue(s0, run', s', Check(1, ok));
  }

  lemma FallAsleep(s0: Sys, run: seq<Action>, s: Sys) returns (run': seq<Action>, s': Sys)
    requires Leads(s0, run, s) && s.maintainer.Ready? && !MayBoot(s.pool)
    ensures Leads(s0, run', s') && s' == s.(maintainer := Asleep(s.pool.gen))
  {
    run', s' := Continue(s0, run, s, PoolAcquire);
    run', s' := Continue(s0, run', s', PoolSleep);
  }

  lemma BootBesideClaim(x: Strings, s0: Sys, run: seq<Action>, s: Sys) returns (run': seq<Action>, s': Sys)
    requires Leads(s0, run, s) && s.threads == map[0 := EventIdle, 1 := Claimed(x.runner, SEVEN, x.ip)]
    requires s.maintainer.Ready? && MayBoot(s.pool)
    ensures Leads(s0, run', s') && s'.threads == s.threads[2 := Booting]
    ensures s'.pool == s.pool.(booting := s.pool.booting + 1)
  {
    run', s' := Continue(s0, run, s, PoolAcquire);
    run', s' := Continue(s0, run', s', PoolSpawn(2));
  }

  /** Claims in limbo are not counted by maintainPool: two containers under a limit of one. */
  lemma ClaimOvershootsLimit(x: Strings) returns (s0: Sys, run: seq<Action>, s: Sys)
    requires Fit(x)
    ensures Reaches(s0, run, s)
    ensures |s0.pool.warm| + |s0.pool.active| <= s0.pool.maxWorkers == s.pool.maxWorkers
    ensures Occupied(s) > s.pool.maxWorkers
  {
    s0 := WarmStart(x, 1, 1);
    WarmStartInit(x, 1, 1);
    run, s := ClaimAndBoot(x);
  }

  lemma ClaimAndBoot(x: Strings) returns (run: seq<Action>, s: Sys)
    ensures Leads(WarmStart(x, 1, 1), run, s) && s.pool.maxWorkers == 1 && Occupied(s) > 1
  {
    run, s := ClaimSeven(x, 1, 1);
    run, s := BootBesideClaim(x, WarmStart(x, 1, 1), run, s);
    assert 1 in Where(s.threads, InLimbo);
  }

  /** The condemned container is removed. */
  lemma RemoveSeven(x: Strings, s0: Sys, run: seq<Action>, s: Sys) returns (run': seq<Action>, s': Sys)
    requires Leads(s0, run, s) && 1 in s.threads && s.threads[1] == Condemned(x.runner, SEVEN)
    ensures Leads(s0, run', s')
    ensures s' == s.(docker := s'.docker, undelivered := s'.undelivered, threads := s.threads[1 := Removed(x.runner, SEVEN)])
  {
    run', s' := Continue(s0, run, s, Remove(1, true));
  }

  /** The call tries again, with an empty warm pool. */
  lemma RetrySeven(x: Strings, s0: Sys, run: seq<Action>, s: Sys) returns (run': seq<Action>, s': Sys)
    requires Leads(s0, run, s) && Unlocked(s) && 1 in s.threads && s.threads[1] == Removed(x.runner, SEVEN)
    requires s.pool.warm == map[]
    ensures Leads(s0, run', s') && s'.threads == s.threads[1 := Waiting(x.runner, s.pool.gen)]
    ensures s'.pool == s.pool.(pending := s.pool.pending + 1) && s'.maintainer == s.maintainer
  {
    run', s' := Continue(s0, run, s, Retry(1, SEVEN));
  }

  lemma CondemnWhileAsleep(x: Strings, s0: Sys, run: seq<Action>, s: Sys) returns (run': seq<Action>, s': Sys)
    requires Fit(x) && Leads(s0, run, s) && s.maintainer.Ready? && !MayBoot(s.pool)
    requires 1 in s.threads && s.threads[1] == Claimed(x.runner, SEVEN, x.ip)
    requires SEVEN in s.docker && s.docker[SEVEN].running
    ensures Leads(s0, run', s') && s'.threads == s.threads[1 := Condemned(x.runner, SEVEN)]
    ensures s'.pool == s.pool && s'.maintainer == Asleep(s.pool.gen)
  {
    run', s' := FallAsleep(s0, run, s);
    run', s' := CheckClaimed(x, s0, run', s', false);
  }

  lemma RetryWhileAsleep(x: Strings, s0: Sys, run: seq<Action>, s: Sys) returns (run': seq<Action>, s': Sys)
    requires Fit(x) && Leads(s0, run, s)
    requires s.threads == map[0 := EventIdle, 1 := Claimed(x.runner, SEVEN, x.ip)]
    requires s.pool == Pool(1, map[], map[], map[], 1, 0, 0, 0, false) && s.maintainer.Ready?
    requires SEVEN in s.docker && s.docker[SEVEN].running
    ensures Leads(s0, run', s') && s'.threads == map[0 := EventIdle, 1 := Waiting(x.runner, 1)]
    ensures s'.pool == s.pool.(pending := 1) && s'.maintainer == Asleep(1)
  {
    run', s' := CondemnWhileAsleep(x, s0, run, s);
    run', s' := RemoveSeven(x, s0, run', s');
    run', s' := RetrySeven(x, s0, run', s');
  }

  /** The dead-candidate retry raises the demand without a broadcast: caller and maintainPool sleep for good. */
  lemma RetryLosesWakeup(x: Strings) returns (s0: Sys, run: seq<Action>, s: Sys)
    requires Fit(x)
    ensures Reaches(s0, run, s)
    ensures Sleeps(s, 1) && PoolSleeps(s) && MayBoot(s.pool)
    ensures s.threads.Keys == {0, 1} && s.threads[0].EventIdle?
  {
    s0 := WarmStart(x, 1, 0);
    WarmStartInit(x, 1, 0);
    run, s := ClaimSeven(x, 1, 0);
    run, s := RetryWhileAsleep(x, s0, run, s);
  }

  lemma DieSeven(s0: Sys, run: seq<Action>, s: Sys) returns (run': seq<Action>, s': Sys)
    requires Leads(s0, run, s) && SEVEN in s.docker && s.docker[SEVEN].running
    ensures Leads(s0, run', s')
    ensures s' == s.(docker := s.docker[SEVEN := s.docker[SEVEN].(running := false)],
                     undelivered := s.undelivered + {SEVEN})
  {
    run', s' := Continue(s0, run, s, Die(SEVEN));
  }

  lemma AdmitSeven(x: Strings, s0: Sys, run: seq<Action>, s: Sys) returns (run': seq<Action>, s': Sys)
    requires Leads(s0, run, s) && Unlocked(s) && 1 in s.threads && s.threads[1] == Checked(x.runner, SEVEN, x.ip)
    ensures Leads(s0, run', s')
    ensures s' == s.(pool := Register(s.pool, SEVEN, x.ip, x.runner), threads := s.threads[1 := OwesBusy(x.runner, SEVEN)],
                     hist := s.hist.(registered := s.hist.registered + [Job(SEVEN, x.runner)]))
    ensures s'.pool.active == s.pool.active[SEVEN := ActiveWorker(x.ip, x.runner)]
  {
    run', s' := Continue(s0, run, s, Admit(1));
  }

  /** SEVEN dies and its only event is delivered while nobody holds it. */
  lemma MissDeath(s0: Sys, run: seq<Action>, s: Sys) returns (run': seq<Action>, s': Sys)
    requires Leads(s0, run, s) && Unlocked(s) && SEVEN in s.docker && s.docker[SEVEN].running && s.undelivered == {}
    requires SEVEN !in s.pool.warm && SEVEN !in s.pool.active && 0 in s.threads && s.threads[0].EventIdle?
    ensures Leads(s0, run', s') && s'.pool == s.pool && s'.threads == s.threads && s'.maintainer == s.maintainer
    ensures SEVEN in s'.docker && !s'.docker[SEVEN].running && s'.undelivered == {}
  {
    run', s' := DieSeven(s0, run, s);
    run', s' := Continue(s0, run', s', Deliver(0, SEVEN));
  }

  lemma DieInGap(x: Strings, s0: Sys, run: seq<Action>, s: Sys) returns (run': seq<Action>, s': Sys)
    requires Leads(s0, run, s) && Unlocked(s)
    requires s.threads == map[0 := EventIdle, 1 := Checked(x.runner, SEVEN, x.ip)]
    requires SEVEN !in s.pool.warm && SEVEN !in s.pool.active
    requires SEVEN in s.docker && s.docker[SEVEN].running && s.undelivered == {}
    ensures Leads(s0, run', s') && s'.threads == map[0 := EventIdle, 1 := OwesBusy(x.runner, SEVEN)]
    ensures SEVEN in s'.pool.active && SEVEN in s'.docker && !s'.docker[SEVEN].running && s'.undelivered == {}
  {
    run', s' := MissDeath(s0, run, s);
    run', s' := AdmitSeven(x, s0, run', s');
  }

  /** A death delivered between the alive check and the registration is lost: the dead worker stays active. */
  lemma GapDeathIsLost(x: Strings) returns (s0: Sys, run: seq<Action>, s: Sys)
    requires Fit(x)
    ensures Reaches(s0, run, s)
    ensures SEVEN in s.pool.active && SEVEN in s.docker && !s.docker[SEVEN].running && s.undelivered == {}
    ensures forall t <- s.threads :: !s.threads[t].PostInsert? && !s.threads[t].Reaping?
  {
    s0 := WarmStart(x, 1, 0);
    WarmStartInit(x, 1, 0);
    run, s := ClaimSeven(x, 1, 0);
    run, s := CheckClaimed(x, s0, run, s, true);
    run, s := DieInGap(x, s0, run, s);
  }

  /** One active worker. */
  function BusyStart(x: Strings, maxWorkers: int, warmConfig: int): Sys {
    Start(map[], map[SEVEN := ActiveWorker(x.ip, x.runner)], map[x.runner := 1],
          Container(x.activeName, x.ip, true), maxWorkers, warmConfig)
  }

  lemma OneIsIndexed(active: map<Id, ActiveWorker>, listeners: map<string, int>, id: Id)
    requires active.Keys == {id} && listeners.Keys == {active[id].runner} && listeners[active[id].runner] == 1
    ensures IndexAgrees(active, listeners)
  {
    forall r <- listeners ensures listeners[r] == Count(active, Of(r)) {
      assert Where(active, Of(r)) == {id};
    }
  }

  lemma BusyStartInit(x: Strings, maxWorkers: int, warmConfig: int)
    requires Fit(x)
    ensures Init(BusyStart(x, maxWorkers, warmConfig))
  {
    var s := BusyStart(x, maxWorkers, warmConfig);
    OneIsIndexed(s.pool.active, s.pool.listeners, SEVEN);
    assert Running(s) == {SEVEN};
    assert s.pool.warm.Keys == {};
  }

  /** An abort frees capacity without a broadcast: maintainPool sleeps on although it may boot. */
  lemma AbortLosesWakeup(x: Strings) returns (s0: Sys, run: seq<Action>, s: Sys)
    requires Fit(x)
    ensures Reaches(s0, run, s)
    ensures PoolSleeps(s) && MayBoot(s.pool)
    ensures forall t <- s.threads :: !WillSignal(s.threads[t]) && !IsBooting(s.threads[t])
  {
    s0 := BusyStart(x, 1, 1);
    BusyStartInit(x, 1, 1);
    run, s := SleepThenAbort(s0);
  }

  lemma SleepThenAbort(s0: Sys) returns (run: seq<Action>, s: Sys)
    requires s0.maintainer.Ready? && s0.threads == map[0 := EventIdle] && s0.pool.active.Keys == {SEVEN}
    requires s0.pool.warm == map[] && s0.pool.booting == 0 && s0.pool.pending == 0
    requires s0.pool.warmConfig == 1 && s0.pool.maxWorkers == 1
    ensures Leads(s0, run, s) && PoolSleeps(s) && MayBoot(s.pool)
    ensures s.threads == map[0 := EventIdle, 1 := Owes(ThenKill(SEVEN))]
  {
    assert |s0.pool.active.Keys| == 1;
    run, s := FallAsleep(s0, [], s0);
    run, s := Continue(s0, run, s, AbortWorker(1, SEVEN));
    assert s.pool.active == map[];
  }

  /** A run that avoids the bad actions may be continued by any other. */
  lemma {:induction false} NeverExtend(s0: Sys, run: seq<Action>, s: Sys, a: Action, bad: (Sys, Action) -> bool)
    requires Legal(s0, run) && s == Exec(s0, run) && Enabled(s, a) && Never(s0, run, bad) && !bad(s, a)
    ensures Legal(s0, run + [a]) && Exec(s0, run + [a]) == Apply(s, a) && Never(s0, run + [a], bad)
    decreases |run|
  {
    Extend(s0, run, s, a);
    if run == [] {
      assert [a][1..] == [];
      assert run + [a] == [a];
    } else {
      NeverExtend(Apply(s0, run[0]), run[1..], s, a, bad);
      assert (run + [a])[1..] == run[1..] + [a];
    }
  }

  /** s is reached from s0 with room for every boot, claims in limbo counted. */
  ghost predicate LeadsWithRoom(s0: Sys, run: seq<Action>, s: Sys) {
    Leads(s0, run, s) && Never(s0, run, Overshoots)
  }

  lemma ContinueWithRoom(s0: Sys, run: seq<Action>, s: Sys, a: Action) returns (run': seq<Action>, s': Sys)
    requires LeadsWithRoom(s0, run, s) && Enabled(s, a) && !Overshoots(s, a)
    ensures LeadsWithRoom(s0, run', s') && s' == Apply(s, a)
  {
    NeverExtend(s0, run, s, a, Overshoots);
    run', s' := run + [a], Apply(s, a);
  }

  const EIGHT: Id := 8

  /** The abort has taken SEVEN out of the map; it runs on. */
  lemma AbortWithRoom(x: Strings) returns (run: seq<Action>, s: Sys)
    ensures LeadsWithRoom(BusyStart(x, 1, 1), run, s)
    ensures s.threads == map[0 := EventIdle, 1 := Owes(ThenKill(SEVEN))] && s.maintainer.Ready?
    ensures s.pool.warm == map[] && s.pool.active == map[] && s.pool.booting == 0 && s.pool.pending == 0
    ensures s.pool.maxWorkers == 1 && s.pool.warmConfig == 1
    ensures s.docker == map[SEVEN := Container(x.activeName, x.ip, true)]
  {
    var s0 := BusyStart(x, 1, 1);
    run, s := ContinueWithRoom(s0, [], s0, AbortWorker(1, SEVEN));
    assert s.pool.active == map[];
  }

  lemma BootWithRoom(x: Strings, s0: Sys, run: seq<Action>, s: Sys) returns (run': seq<Action>, s': Sys)
    requires LeadsWithRoom(s0, run, s) && s.maintainer.Ready? && MayBoot(s.pool) && Limbo(s) == 0
    requires 2 !in s.threads
    ensures LeadsWithRoom(s0, run', s') && s'.threads == s.threads[2 := Booting] && s'.docker == s.docker
    ensures s'.pool == s.pool.(booting := s.pool.booting + 1)
  {
    run', s' := ContinueWithRoom(s0, run, s, PoolAcquire);
    assert Limbo(s') == Limbo(s);
    run', s' := ContinueWithRoom(s0, run', s', PoolSpawn(2));
  }

  lemma BootAndCreate(x: Strings, s0: Sys, run: seq<Action>, s: Sys) returns (run': seq<Action>, s': Sys)
    requires Fit(x) && LeadsWithRoom(s0, run, s) && s.maintainer.Ready? && MayBoot(s.pool)
    requires s.threads == map[0 := EventIdle, 1 := Owes(ThenKill(SEVEN))]
    requires s.docker.Keys == {SEVEN} && s.docker[SEVEN].running
    ensures LeadsWithRoom(s0, run', s') && s'.pool.maxWorkers == s.pool.maxWorkers && Running(s') == {SEVEN, EIGHT}
  {
    assert Where(s.threads, InLimbo) == {};
    run', s' := BootWithRoom(x, s0, run, s);
    run', s' := ContinueWithRoom(s0, run', s', Create(2, EIGHT, x.ip, x.short));
  }

  /**
    A worker that was aborted and not killed yet is in no count: two containers run under a limit of one,
    although every boot had room for everything the orchestrator holds.
   */
  lemma AbortOvershootsLimit(x: Strings) returns (s0: Sys, run: seq<Action>, s: Sys)
    requires Fit(x)
    ensures Reaches(s0, run, s) && Never(s0, run, Overshoots)
    ensures |Running(s0)| <= s0.pool.maxWorkers == s.pool.maxWorkers == 1
    ensures Running(s) == {SEVEN, EIGHT}
  {
    s0 := BusyStart(x, 1, 1);
    BusyStartInit(x, 1, 1);
    run, s := AbortWithRoom(x);
    run, s := BootAndCreate(x, s0, run, s);
    assert Running(s0) == {SEVEN};
  }

  /** UpdateSettings does not evaluate the capacity: full, nothing owed, and not paused. */
  lemma LoweredLimitIsNotEnforced(x: Strings) returns (s0: Sys, run: seq<Action>, s: Sys)
    requires Fit(x)
    ensures Reaches(s0, run, s)
    ensures |s0.pool.active| < s0.pool.maxWorkers
    ensures |s.pool.active| >= s.pool.maxWorkers && !s.pool.paused && !Any(s, OwesEvaluation)
  {
    s0 := BusyStart(x, 2, 0);
    BusyStartInit(x, 2, 0);
    assert |s0.pool.active.Keys| == 1;
    run, s := Continue(s0, [], s0, UpdateSettings(1, 0));
    assert s.threads == s0.threads && s.pool.active == s0.pool.active;
  }

  /** Nor does recovery: a restart with a full house leaves the listeners running. */
  lemma RecoveredFullIsNotPaused(x: Strings) returns (s0: Sys)
    requires Fit(x)
    ensures Reaches(s0, [], s0)
    ensures |s0.pool.active| >= s0.pool.maxWorkers && !s0.pool.paused && !Any(s0, OwesEvaluation)
  {
    s0 := BusyStart(x, 1, 0);
    BusyStartInit(x, 1, 0);
  }

  // ----- marks

  /** The event loop takes a dead worker out of the active map. */
  lemma DeliverActive(x: Strings, s0: Sys, run: seq<Action>, s: Sys) returns (run': seq<Action>, s': Sys)
    requires Leads(s0, run, s) && Unlocked(s) && 0 in s.threads && s.threads[0].EventIdle?
    requires s.pool.active == map[SEVEN := ActiveWorker(x.ip, x.runner)]
    requires SEVEN in s.docker && !s.docker[SEVEN].running
    ensures Leads(s0, run', s') && s'.pool.active == map[] && Unlocked(s')
    ensures s'.threads == s.threads[0 := Owes(ThenListen)]
    ensures s'.hist.marks == s.hist.marks + [Mark(SEVEN, x.runner, false)]
  {
    run', s' := Continue(s0, run, s, Deliver(0, SEVEN));
    assert s'.pool.active == map[];
  }

  /** The evaluation that the event loop owes. */
  lemma EvaluateAfterDeath(s0: Sys, run: seq<Action>, s: Sys) returns (run': seq<Action>, s': Sys)
    requires Leads(s0, run, s) && Unlocked(s) && 0 in s.threads && s.threads[0] == Owes(ThenListen)
    ensures Leads(s0, run', s')
    ensures s' == s.(pool := Evaluate(s.pool), globalPaused := s'.globalPaused, threads := s.threads[0 := EventIdle])
  {
    run', s' := Continue(s0, run, s, EvaluateCapacity(0));
  }

  /** Two marks of one runner, and the count they leave. */
  lemma TwoMarks(a: Mark, b: Mark)
    requires a.runner == b.runner
    ensures MarksOf([a, b], a.runner) == [a.busy, b.busy]
    ensures a.busy && !b.busy ==> L.Tally(0, [a.busy, b.busy]) == 0
  {
    MarksAppend([], a, a.runner);
    MarksAppend([a], b, a.runner);
    assert [] + [a] == [a] && [a] + [b] == [a, b];
    assert [a.busy, b.busy][..1] == [a.busy] && [a.busy][..0] == [];
    assert L.Tally(0, [a.busy]) == if a.busy then 1 else 0;
  }

  /** A worker dies before its call has marked the runner busy. */
  lemma DiesUnmarked(x: Strings, s0: Sys, run: seq<Action>, s: Sys) returns (run': seq<Action>, s': Sys)
    requires Leads(s0, run, s) && Unlocked(s) && s.threads == map[0 := EventIdle, 1 := OwesBusy(x.runner, SEVEN)]
    requires s.pool.active == map[SEVEN := ActiveWorker(x.ip, x.runner)] && s.hist.marks == []
    requires SEVEN in s.docker && s.docker[SEVEN].running
    ensures Leads(s0, run', s') && s'.pool.active == map[] && Unlocked(s')
    ensures s'.threads == map[0 := EventIdle, 1 := OwesBusy(x.runner, SEVEN)]
    ensures s'.hist.marks == [Mark(SEVEN, x.runner, false)]
  {
    run', s' := DieSeven(s0, run, s);
    assert !s'.docker[SEVEN].running && s'.hist == s.hist;
    run', s' := DeliverActive(x, s0, run', s');
    run', s' := EvaluateAfterDeath(s0, run', s');
  }

  lemma MarkOne(x: Strings, s0: Sys, run: seq<Action>, s: Sys) returns (run': seq<Action>, s': Sys)
    requires Leads(s0, run, s) && Unlocked(s) && 1 in s.threads && s.threads[1] == OwesBusy(x.runner, SEVEN)
    ensures Leads(s0, run', s')
    ensures s' == s.(pool := Evaluate(s.pool), globalPaused := s'.globalPaused, threads := s.threads[1 := Returned(SEVEN)],
                     hist := s.hist.(marks := s.hist.marks + [Mark(SEVEN, x.runner, true)]))
  {
    run', s' := Continue(s0, run, s, MarkBusy(1));
    run', s' := Continue(s0, run', s', EvaluateCapacity(1));
  }

  lemma DieThenMark(x: Strings, s0: Sys, run: seq<Action>, s: Sys) returns (run': seq<Action>, s': Sys)
    requires Leads(s0, run, s) && Unlocked(s) && s.threads == map[0 := EventIdle, 1 := OwesBusy(x.runner, SEVEN)]
    requires s.pool.active == map[SEVEN := ActiveWorker(x.ip, x.runner)] && s.hist.marks == []
    requires SEVEN in s.docker && s.docker[SEVEN].running
    ensures Leads(s0, run', s') && s'.pool.active == map[]
    ensures s'.threads == map[0 := EventIdle, 1 := Returned(SEVEN)]
    ensures s'.hist.marks == [Mark(SEVEN, x.runner, false), Mark(SEVEN, x.runner, true)]
  {
    run', s' := DiesUnmarked(x, s0, run, s);
    run', s' := MarkOne(x, s0, run', s');
  }

  /**
    A run in which an idle mark overtakes its busy mark: nothing is active and nobody owes anything, but
    the marks, written in this order, leave an Online runner Busy with one worker.
   */
  lemma OvertakenIdleRun(x: Strings) returns (s0: Sys, run: seq<Action>, s: Sys)
    requires Fit(x)
    ensures Reaches(s0, run, s)
    ensures s.pool.active == map[] && s.threads == map[0 := EventIdle, 1 := Returned(SEVEN)]
    ensures MarksOf(s.hist.marks, x.runner) == L.Marks([L.MarkIdle(L.Online), L.MarkBusy]) == [false, true]
    ensures L.After(L.Proc(L.Online, 0, 0), [L.MarkIdle(L.Online), L.MarkBusy]) == L.Proc(L.Busy, 1, 0)
  {
    s0 := WarmStart(x, 1, 0);
    WarmStartInit(x, 1, 0);
    run, s := ClaimSeven(x, 1, 0);
    run, s := AdmitClaimed(x, s0, run, s);
    run, s := DieThenMark(x, s0, run, s);
    TwoMarks(Mark(SEVEN, x.runner, false), Mark(SEVEN, x.runner, true));
    var _, _ := L.OvertakenIdleSticks();
  }

  /** SEVEN is warm, and EIGHT was recovered as a worker of the runner. */
  function MixedStart(x: Strings): Sys {
    var p := Pool(0, map[SEVEN := x.ip], map[EIGHT := ActiveWorker(x.ip, x.runner)], map[x.runner := 1],
                  3, 0, 0, 0, false);
    Sys(p, false, Ready, map[0 := EventIdle],
        map[SEVEN := Container(x.warmName, x.ip, true), EIGHT := Container(x.activeName, x.ip, true)], {},
        History(p, 3, 0, 0, 0, {}, [], [], [], {}, {}, {}))
  }

  lemma MixedStartInit(x: Strings)
    requires Fit(x)
    ensures Init(MixedStart(x))
  {
    var s := MixedStart(x);
    OneIsIndexed(s.pool.active, s.pool.listeners, EIGHT);
    assert Running(s) == {SEVEN, EIGHT};
    assert s.pool.warm.Keys == {SEVEN} && s.pool.active.Keys == {EIGHT};
  }

  /** From the claim to the registration. */
  lemma AdmitClaimed(x: Strings, s0: Sys, run: seq<Action>, s: Sys) returns (run': seq<Action>, s': Sys)
    requires Fit(x) && Leads(s0, run, s) && Unlocked(s)
    requires s.threads == map[0 := EventIdle, 1 := Claimed(x.runner, SEVEN, x.ip)]
    requires SEVEN in s.docker && s.docker[SEVEN].running
    ensures Leads(s0, run', s') && Unlocked(s') && s'.hist.marks == s.hist.marks
    ensures s'.threads == map[0 := EventIdle, 1 := OwesBusy(x.runner, SEVEN)]
    ensures s'.pool.active == s.pool.active[SEVEN := ActiveWorker(x.ip, x.runner)]
    ensures s'.docker.Keys == s.docker.Keys && forall id <- s.docker :: s'.docker[id].running == s.docker[id].running
  {
    run', s' := CheckClaimed(x, s0, run, s, true);
    run', s' := AdmitSeven(x, s0, run', s');
  }

  lemma RegisterBesideRecovered(x: Strings) returns (run: seq<Action>, s: Sys)
    requires Fit(x)
    ensures Leads(MixedStart(x), run, s) && Unlocked(s) && s.hist.marks == []
    ensures s.threads == map[0 := EventIdle, 1 := OwesBusy(x.runner, SEVEN)]
    ensures s.pool.active == map[EIGHT := ActiveWorker(x.ip, x.runner), SEVEN := ActiveWorker(x.ip, x.runner)]
    ensures EIGHT in s.docker && s.docker[EIGHT].running
  {
    var s0 := MixedStart(x);
    run, s := Continue(s0, [], s0, Begin(1, x.runner, SEVEN));
    run, s := AdmitClaimed(x, s0, run, s);
  }

  /** The recovered worker dies. */
  lemma EightDies(x: Strings, s0: Sys, run: seq<Action>, s: Sys) returns (run': seq<Action>, s': Sys)
    requires Leads(s0, run, s) && Unlocked(s) && 0 in s.threads && s.threads[0].EventIdle?
    requires EIGHT in s.pool.active && s.pool.active[EIGHT].runner == x.runner
    requires EIGHT in s.docker && s.docker[EIGHT].running
    ensures Leads(s0, run', s') && s'.pool.active == s.pool.active - {EIGHT} && Unlocked(s')
    ensures s'.threads == s.threads[0 := Owes(ThenListen)]
    ensures s'.hist.marks == s.hist.marks + [Mark(EIGHT, x.runner, false)]
  {
    run', s' := Continue(s0, run, s, Die(EIGHT));
    run', s' := Continue(s0, run', s', Deliver(0, EIGHT));
  }

  lemma EightGone(x: Strings, s0: Sys, run: seq<Action>, s: Sys) returns (run': seq<Action>, s': Sys)
    requires Leads(s0, run, s) && Unlocked(s) && s.threads == map[0 := EventIdle, 1 := Returned(SEVEN)]
    requires EIGHT in s.pool.active && s.pool.active[EIGHT].runner == x.runner
    requires EIGHT in s.docker && s.docker[EIGHT].running
    ensures Leads(s0, run', s') && s'.pool.active == s.pool.active - {EIGHT}
    ensures s'.threads == map[0 := EventIdle, 1 := Returned(SEVEN)]
    ensures s'.hist.marks == s.hist.marks + [Mark(EIGHT, x.runner, false)]
  {
    run', s' := EightDies(x, s0, run, s);
    run', s' := EvaluateAfterDeath(s0, run', s');
  }

  lemma MarkThenDie(x: Strings, s0: Sys, run: seq<Action>, s: Sys) returns (run': seq<Action>, s': Sys)
    requires Leads(s0, run, s) && Unlocked(s) && s.threads == map[0 := EventIdle, 1 := OwesBusy(x.runner, SEVEN)]
    requires EIGHT in s.pool.active && s.pool.active[EIGHT].runner == x.runner && s.hist.marks == []
    requires EIGHT in s.docker && s.docker[EIGHT].running
    ensures Leads(s0, run', s') && s'.pool.active == s.pool.active - {EIGHT}
    ensures s'.threads == map[0 := EventIdle, 1 := Returned(SEVEN)]
    ensures s'.hist.marks == [Mark(SEVEN, x.runner, true), Mark(EIGHT, x.runner, false)]
  {
    run', s' := MarkOne(x, s0, run, s);
    run', s' := EightGone(x, s0, run', s');
  }

  /**
    The death of a recovered worker marks idle a runner that has never been marked busy for it: its count
    falls to zero while another worker of it is active.
   */
  lemma RecoveredDeathMarksIdle(x: Strings) returns (s0: Sys, run: seq<Action>, s: Sys)
    requires Fit(x)
    ensures Reaches(s0, run, s)
    ensures s.pool.active.Keys == {SEVEN} && s.pool.active[SEVEN].runner == x.runner
    ensures s.threads == map[0 := EventIdle, 1 := Returned(SEVEN)]
    ensures L.Tally(0, MarksOf(s.hist.marks, x.runner)) == 0
  {
    s0 := MixedStart(x);
    MixedStartInit(x);
    run, s := RegisterBesideRecovered(x);
    run, s := MarkThenDie(x, s0, run, s);
    TwoMarks(Mark(SEVEN, x.runner, true), Mark(EIGHT, x.runner, false));
  }
}
