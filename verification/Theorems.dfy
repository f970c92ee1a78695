/** What holds of every run of the orchestrator, from any recovered start and under any interleaving. */
module Theorems {
  import opened Collections
  import opened Pool
  import opened Protocol
  import opened Accounting
  import opened Exclusive
  import opened Wakeups
  import opened Deaths
  import opened Pausing
  import opened Tracking
  import opened Marking
  import opened Footprint
  import L = Lifecycle
  import opened Runs
  import opened Exactly

  // ----- guards a run may or may not keep

  predicate KeepsSettings(s: Sys, a: Action) {
    !a.UpdateSettings?
  }

  predicate NeverLowers(s: Sys, a: Action) {
    a.UpdateSettings? ==> a.maxWorkers >= s.pool.maxWorkers
  }

  ghost predicate BootsOutsideClaims(s: Sys, a: Action) {
    a.PoolSpawn? ==> Limbo(s) == 0
  }

  ghost predicate KeepsStrict(s: Sys, a: Action) {
    NeverLowers(s, a) && BootsOutsideClaims(s, a)
  }

  /** No dead-candidate retry, and no abort of an active worker. */
  predicate Signals(s: Sys, a: Action) {
    !a.Retry? && !(a.AbortWorker? && a.id in s.pool.active)
  }

  ghost predicate NoGap(s: Sys, a: Action) {
    !GapDelivery(s, a)
  }

  lemma {:induction false} StrictHistory(s: Sys, run: seq<Action>)
    requires Legal(s, run) && Throughout(s, run, KeepsStrict) && StrictSoFar(s)
    ensures StrictSoFar(Exec(s, run)) && s.pool.maxWorkers <= Exec(s, run).pool.maxWorkers
    decreases |run|
  {
    if run != [] {
      StrictStep(s, run[0]);
      StrictHistory(Apply(s, run[0]), run[1..]);
    }
  }

  ghost predicate StrictSoFar(s: Sys) {
    s.hist.peakLimbo == 0 && s.hist.peakMax == s.pool.maxWorkers
  }

  lemma StrictStep(s: Sys, a: Action)
    requires Enabled(s, a) && KeepsStrict(s, a) && StrictSoFar(s)
    ensures StrictSoFar(Apply(s, a)) && s.pool.maxWorkers <= Apply(s, a).pool.maxWorkers
  {
  }

  lemma {:induction false} SettingsHistory(s: Sys, run: seq<Action>)
    requires Legal(s, run) && Throughout(s, run, KeepsSettings)
    ensures SameSettings(s, Exec(s, run))
    decreases |run|
  {
    if run != [] {
      SettingsStep(s, run[0]);
      SettingsHistory(Apply(s, run[0]), run[1..]);
    }
  }

  predicate SameSettings(s: Sys, s': Sys) {
    && s'.pool.maxWorkers == s.pool.maxWorkers && s'.pool.warmConfig == s.pool.warmConfig
    && s'.hist.peakWarm == s.hist.peakWarm
  }

  lemma SettingsStep(s: Sys, a: Action)
    requires Enabled(s, a) && KeepsSettings(s, a)
    ensures SameSettings(s, Apply(s, a))
  {
  }

  lemma {:induction false} GapHistory(s: Sys, run: seq<Action>)
    requires Legal(s, run) && Throughout(s, run, NoGap)
    ensures Exec(s, run).hist.missed == s.hist.missed
    decreases |run|
  {
    if run != [] {
      MissedKept(s, run[0]);
      GapHistory(Apply(s, run[0]), run[1..]);
    }
  }

  // ----- capacity

  /** Warm, active, booting and claimed containers together stay within the real capacity bound. */
  lemma {:induction false} CapacityBound(s0: Sys, run: seq<Action>, s: Sys)
    requires Reaches(s0, run, s)
    ensures Occupied(s) <= Max(|s0.pool.warm| + |s0.pool.active|, s.hist.peakMax + s.hist.peakLimbo)
  {
    EveryRun(s0, run, s);
    HeldWithin(s);
  }

  lemma HeldWithin(s: Sys)
    requires Inv(s)
    ensures Occupied(s) <= Max(|s.hist.start.warm| + |s.hist.start.active|, s.hist.peakMax + s.hist.peakLimbo)
  {
    assert OccupiedBounded(s);
  }

  /** maxWorkers is strict when it is never lowered and no boot starts while a claim is in limbo. */
  lemma {:induction false} CapacityStrict(s0: Sys, run: seq<Action>, s: Sys)
    requires Reaches(s0, run, s) && Throughout(s0, run, KeepsStrict)
    requires |s0.pool.warm| + |s0.pool.active| <= s0.pool.maxWorkers
    ensures Occupied(s) <= s.pool.maxWorkers
  {
    CapacityBound(s0, run, s);
    StrictHistory(s0, run);
  }

  /** What runs or will run is what the orchestrator counts, plus kills that are due, plus what it gave up alive. */
  lemma {:induction false} RunningBound(s0: Sys, run: seq<Action>, s: Sys)
    requires Reaches(s0, run, s)
    ensures |Running(s)| <= Present(s) <= Occupied(s) + Count(s.threads, KillDue) + |Leaked(s)|
  {
    EveryRun(s0, run, s);
    PresentBound(s);
  }

  /** Spares never exceed the largest wish so far, what was asked for, recovered, or left behind by cancelled calls. */
  lemma {:induction false} SpareBound(s0: Sys, run: seq<Action>, s: Sys)
    requires Reaches(s0, run, s)
    ensures |s.pool.warm| + s.pool.booting <= s.hist.peakWarm + s.pool.pending + s.hist.cancelled + |s0.pool.warm|
    ensures Throughout(s0, run, KeepsSettings) ==> s.hist.peakWarm == Max(0, s.pool.warmConfig)
  {
    EveryRun(s0, run, s);
    if Throughout(s0, run, KeepsSettings) {
      SettingsHistory(s0, run);
    }
  }

  /** The two counters are exact, and the per-runner index sums to the number of active workers. */
  lemma {:induction false} CountersExact(s0: Sys, run: seq<Action>, s: Sys)
    requires Reaches(s0, run, s)
    ensures s.pool.pending == Count(s.threads, IsWaiting)
    ensures s.pool.booting == Count(s.threads, IsBooting)
    ensures forall r :: Get(s.pool.listeners, r) == Count(s.pool.active, Of(r))
    ensures Sum(s.pool.listeners) == |s.pool.active|
  {
    EveryRun(s0, run, s);
    forall r ensures Get(s.pool.listeners, r) == Count(s.pool.active, Of(r)) {
      IndexReads(s.pool, r);
    }
    IndexSum(s.pool.active, s.pool.listeners);
  }

  // ----- single use

  /** Warm pool, claims in limbo and active workers are pairwise disjoint. */
  lemma {:induction false} PlacesDisjoint(s0: Sys, run: seq<Action>, s: Sys)
    requires Reaches(s0, run, s)
    ensures s.pool.warm.Keys !! s.pool.active.Keys
    ensures forall t <- s.threads :: InLimbo(s.threads[t]) ==>
              s.threads[t].id !in s.pool.warm && s.threads[t].id !in s.pool.active
  {
    EveryRun(s0, run, s);
    forall t <- s.threads | InLimbo(s.threads[t])
      ensures s.threads[t].id !in s.pool.warm && s.threads[t].id !in s.pool.active
    {
      assert HeldBy(s.threads[t]) == Some(s.threads[t].id);
    }
  }

  /** Two calls never hold, and so never return, the same container. */
  lemma {:induction false} ReturnedToOneCall(s0: Sys, run: seq<Action>, s: Sys, t: Tid, u: Tid, id: Id)
    requires Reaches(s0, run, s)
    requires t in s.threads && u in s.threads
    requires HeldBy(s.threads[t]) == Some(id) == HeldBy(s.threads[u])
    ensures t == u && id !in s.pool.warm
  {
    EveryRun(s0, run, s);
    assert HeldOnce(s);
  }

  /** A container that left the warm pool never comes back to it. */
  lemma {:induction false} NeverWarmAgain(s0: Sys, run1: seq<Action>, s1: Sys, run2: seq<Action>, s2: Sys,
                                          run3: seq<Action>, id: Id)
    requires Reaches(s0, run1, s1)
    requires Legal(s1, run2) && s2 == Exec(s1, run2)
    requires Legal(s2, run3)
    requires id in s1.pool.warm && id !in s2.pool.warm
    ensures id !in Exec(s2, run3).pool.warm
  {
    EveryRun(s0, run1, s1);
    InvRun(s1, run2);
    InvRun(s2, run3);
    LeftIsLogged(s1, run2, id);
    StartKept(s2, run3);
    assert Disjoint(Exec(s2, run3));
  }

  lemma {:induction false} LeftIsLogged(s: Sys, run: seq<Action>, id: Id)
    requires Legal(s, run) && id in s.pool.warm && id !in Exec(s, run).pool.warm
    ensures id in Exec(s, run).hist.left
    decreases |run|
  {
    if run != [] {
      var s' := Apply(s, run[0]);
      StepMoves(s, run[0]);
      if id in s'.pool.warm {
        LeftIsLogged(s', run[1..], id);
      } else {
        StartKept(s', run[1..]);
      }
    }
  }

  /** Per runner, recovered and registered workers are active, completed or aborted. */
  lemma {:induction false} JobsConserved(s0: Sys, run: seq<Action>, s: Sys, r: string)
    requires Reaches(s0, run, s)
    ensures Count(s0.pool.active, Of(r)) + Registrations(s.hist.registered, r)
            == Count(s.pool.active, Of(r))
               + Endings(s.hist.finished, r, Completed) + Endings(s.hist.finished, r, Aborted)
  {
    EveryRun(s0, run, s);
    assert Conserved(s, r);
  }

  /** A container is counted as completed at most once, and not at all once it was aborted. */
  lemma {:induction false} JobsEndOnce(s0: Sys, run: seq<Action>, s: Sys)
    requires Reaches(s0, run, s)
    ensures forall i, j :: 0 <= i < j < |s.hist.finished| ==> s.hist.finished[i].id != s.hist.finished[j].id
    ensures forall f <- s.hist.finished :: f.id !in s.pool.active && f.id !in s.pool.warm
  {
    EveryRun(s0, run, s);
    forall f <- s.hist.finished ensures f.id !in s.pool.active && f.id !in s.pool.warm {
      assert f.id in Spent(s);
    }
  }

  // ----- wake-ups

  /** A caller that sleeps beside a warm container will be woken by the goroutine that inserted it. */
  lemma {:induction false} CallerNotLost(s0: Sys, run: seq<Action>, s: Sys, t: Tid)
    requires Reaches(s0, run, s)
    requires Sleeps(s, t) && s.pool.warm != map[]
    ensures Any(s, OwesInsertBroadcast)
  {
    EveryRun(s0, run, s);
  }

  /** maintainPool never sleeps through an opportunity in a run without retries and aborts. */
  lemma {:induction false} MaintainerNotLost(s0: Sys, run: seq<Action>, s: Sys)
    requires Reaches(s0, run, s) && Throughout(s0, run, Signals)
    ensures PoolWoken(s)
  {
    NeverFrom(s0, run, Signals, Muffles);
    MaintainerWokenExactly(s0, run);
    AlwaysLast(s0, run, PoolWoken);
  }

  /** When everybody sleeps and a call is still waiting, the machine is full of active workers. */
  lemma {:induction false} StarvationMeansFull(s0: Sys, run: seq<Action>, s: Sys, t: Tid)
    requires Reaches(s0, run, s) && Never(s0, run, Muffles)
    requires Sleeps(s, t) && PoolSleeps(s) && s.pool.warmConfig >= 0
    requires !Any(s, WillSignal) && !Any(s, OwesInsertBroadcast) && !Any(s, IsBooting)
    ensures s.pool.warm == map[] && |s.pool.active| >= s.pool.maxWorkers
  {
    EveryRun(s0, run, s);
    MaintainerWokenExactly(s0, run);
    AlwaysLast(s0, run, PoolWoken);
    StarvedMeansFull(s, t);
  }

  // ----- settings

  /** What the settings are after a run: those of its last UpdateSettings, or those of the start. */
  function LastSettings(run: seq<Action>, maxWorkers: int, warmConfig: int): (int, int)
    decreases |run|
  {
    if run == [] then (maxWorkers, warmConfig)
    else
      match run[|run| - 1]
      case UpdateSettings(m, w) => (m, w)
      case _ => LastSettings(run[..|run| - 1], maxWorkers, warmConfig)
  }

  /** No other action touches the settings. */
  lemma SettingsAfter(s: Sys, a: Action)
    requires Enabled(s, a)
    ensures a.UpdateSettings? ==> Apply(s, a).pool.maxWorkers == a.maxWorkers && Apply(s, a).pool.warmConfig == a.warmConfig
    ensures !a.UpdateSettings? ==>
              Apply(s, a).pool.maxWorkers == s.pool.maxWorkers && Apply(s, a).pool.warmConfig == s.pool.warmConfig
  {
    StepMoves(s, a);
  }

  lemma {:induction false} LastSettingsRest(run: seq<Action>, m: int, w: int, m': int, w': int)
    requires run != []
    requires (m', w') == LastSettings(run[..1], m, w)
    ensures LastSettings(run, m, w) == LastSettings(run[1..], m', w')
    decreases |run|
  {
    if |run| == 1 {
      assert run[..1] == run && run[1..] == [];
    } else {
      assert run[..|run| - 1][..1] == run[..1] && run[..|run| - 1][1..] == run[1..][..|run| - 2];
      LastSettingsRest(run[..|run| - 1], m, w, m', w');
    }
  }

  /** In every run both settings are those of the last UpdateSettings. */
  lemma {:induction false} SettingsTakeEffect(s: Sys, run: seq<Action>)
    requires Legal(s, run)
    ensures (Exec(s, run).pool.maxWorkers, Exec(s, run).pool.warmConfig)
            == LastSettings(run, s.pool.maxWorkers, s.pool.warmConfig)
    decreases |run|
  {
    if run != [] {
      var s' := Apply(s, run[0]);
      SettingsAfter(s, run[0]);
      assert run[..1][|run[..1]| - 1] == run[0] && run[..1][..0] == [];
      LastSettingsRest(run, s.pool.maxWorkers, s.pool.warmConfig, s'.pool.maxWorkers, s'.pool.warmConfig);
      SettingsTakeEffect(s', run[1..]);
    }
  }

  /**
    When maintainPool sleeps and nothing is in flight, in a run without a retry or abort at a bad moment, the
    last settings are met: as many warm containers as the warm setting and the waiting calls ask for, or warm
    and active ones together fill the last limit.
   */
  lemma {:induction false} DemandIsMet(s0: Sys, run: seq<Action>, s: Sys)
    requires Reaches(s0, run, s) && Never(s0, run, Muffles)
    requires PoolSleeps(s) && !Any(s, WillSignal) && !Any(s, IsBooting)
    ensures var (maxWorkers, warmConfig) := LastSettings(run, s0.pool.maxWorkers, s0.pool.warmConfig);
            |s.pool.warm| >= warmConfig + Count(s.threads, IsWaiting) || |s.pool.warm| + |s.pool.active| >= maxWorkers
  {
    EveryRun(s0, run, s);
    MaintainerWokenExactly(s0, run);
    AlwaysLast(s0, run, PoolWoken);
    SettingsTakeEffect(s0, run);
    assert Where(s.threads, IsBooting) == {};
  }

  // ----- deaths

  /** A dead container in the warm pool is about to be noticed. */
  lemma {:induction false} DeadWarmIsNoticed(s0: Sys, run: seq<Action>, s: Sys, id: Id)
    requires Reaches(s0, run, s)
    requires id in s.pool.warm && id !in Running(s)
    ensures id in s.undelivered || BootWatches(s, id)
  {
    EveryRun(s0, run, s);
  }

  /** A dead active worker has an event on its way, if no event came between alive check and registration. */
  lemma {:induction false} DeadActiveIsNoticed(s0: Sys, run: seq<Action>, s: Sys, id: Id)
    requires Reaches(s0, run, s) && Throughout(s0, run, NoGap)
    requires id in s.pool.active && id !in Running(s)
    ensures id in s.undelivered
  {
    EveryRun(s0, run, s);
    GapHistory(s0, run);
  }

  // ----- pausing

  /** At every release of the lock the orchestrator and the standalone manager agree about the freeze. */
  lemma {:induction false} PauseAgreement(s0: Sys, run: seq<Action>, s: Sys)
    requires Reaches(s0, run, s)
    ensures s.pool.paused == s.globalPaused
  {
    EveryRun(s0, run, s);
  }

  /** With fixed settings and a start below the limit, listeners are frozen exactly at full capacity. */
  lemma {:induction false} PausedExactlyWhenFull(s0: Sys, run: seq<Action>, s: Sys)
    requires Reaches(s0, run, s) && Throughout(s0, run, KeepsSettings)
    requires |s0.pool.active| < s0.pool.maxWorkers
    requires !Any(s, OwesEvaluation)
    ensures s.pool.paused <==> |s.pool.active| >= s.pool.maxWorkers
  {
    NeverFrom(s0, run, KeepsSettings, Unsettles);
    PausedExactly(s0, run);
    AlwaysLast(s0, run, Evaluated);
  }

  // ----- marks

  /**
    The worker count of an entry that was made in state x, at the start or by a later restart of its runner,
    whatever else is written to it: it agrees with the orchestrator's count exactly when as many idle marks
    were swallowed since as workers were marked before or are still owed their busy marks.
   */
  lemma {:induction false} WorkersAgreeExactly(s0: Sys, before: seq<Action>, x: Sys, after: seq<Action>, s: Sys,
                                               r: string, p: L.Proc, writes: seq<L.Write>)
    requires Reaches(s0, before, x) && Legal(x, after) && s == Exec(x, after)
    requires p.workers == 0 && L.NoRestart(writes) && L.Marks(writes) == MarksSince(x, s, r)
    ensures L.After(p, writes).workers == Get(s.pool.listeners, r)
            <==> L.Swallowed(0, MarksSince(x, s, r)) + Owed(x, r) == Count(x.pool.active, Of(r)) + Owed(s, r)
  {
    EveryRun(s0, before, x);
    InvRun(x, after);
    LaterRun(x, x, after, r);
    BothAccounted(x, s, r);
    MarksBalance(x, s, r);
    IndexReads(s.pool, r);
    L.WorkersFollowMarks(p, writes);
    L.TallyBalance(0, L.Marks(writes));
  }

  /**
    When the workers that were active in x and the busy marks owed now together number the marks that were
    owed in x (none of the three, for a start without workers of the runner), that count agrees with the
    orchestrator's exactly when none of the runner's workers ended since x while the entry counted none.
   */
  lemma {:induction false} CountsAgreeExactly(s0: Sys, before: seq<Action>, x: Sys, after: seq<Action>, s: Sys,
                                              r: string, p: L.Proc, writes: seq<L.Write>)
    requires Reaches(s0, before, x) && Legal(x, after) && s == Exec(x, after)
    requires Count(x.pool.active, Of(r)) + Owed(s, r) == Owed(x, r)
    requires p.workers == 0 && L.NoRestart(writes) && L.Marks(writes) == MarksSince(x, s, r)
    ensures L.After(p, writes).workers == Get(s.pool.listeners, r)
            <==> Never(x, after, (y: Sys, a: Action) => Swallows(x, y, a, r))
  {
    var holds := (y: Sys) => NoneSwallowed(x, y, r);
    WorkersAgreeExactly(s0, before, x, after, s, r, p, writes);
    NoneSwallowedExactly(s0, before, x, after, r);
    LaterRun(x, x, after, r);
    if NoneSwallowed(x, s, r) {
      NoneSwallowedBefore(x, x, after, r);
    } else if Always(x, after, holds) {
      AlwaysLast(x, after, holds);
    }
  }

  lemma {:induction false} LaterRun(x: Sys, s: Sys, run: seq<Action>, r: string)
    requires Later(x, s) && Legal(s, run)
    ensures Later(x, Exec(s, run))
    decreases |run|
  {
    if run != [] {
      SinceStep(x, s, run[0], r);
      LaterRun(x, Apply(s, run[0]), run[1..], r);
    }
  }
}
