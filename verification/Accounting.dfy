/** The counters of the orchestrator count what they are meant to count, in every run. */
module Accounting {
  import opened Collections
  import opened Pool
  import opened Protocol

  /** pendingAllocations counts sleeping callers, bootingCount the boots that are not inserted yet. */
  ghost predicate Counters(s: Sys) {
    && s.pool.pending == Count(s.threads, IsWaiting)
    && s.pool.booting == Count(s.threads, IsBooting)
  }

  lemma CountersStep(s: Sys, a: Action)
    requires Enabled(s, a) && Counters(s)
    ensures Counters(Apply(s, a))
  {
    if Claims(a) {
      CountersClaim(s, a);
    } else if Ends(a) {
      CountersEnd(s, a);
    } else {
      CountersOther(s, a);
    }
  }

  lemma CountersOther(s: Sys, a: Action)
    requires Enabled(s, a) && !Claims(a) && !Ends(a) && Counters(s)
    ensures Counters(Apply(s, a))
  {
    WaitingOther(s, a);
    BootingOther(s, a);
  }

  lemma WaitingOther(s: Sys, a: Action)
    requires Enabled(s, a) && !Claims(a) && !Ends(a)
    ensures Apply(s, a).pool.pending - Count(Apply(s, a).threads, IsWaiting)
            == s.pool.pending - Count(s.threads, IsWaiting)
  {
    CountStep(s, a, IsWaiting);
  }

  lemma BootingOther(s: Sys, a: Action)
    requires Enabled(s, a) && !Claims(a) && !Ends(a)
    ensures Apply(s, a).pool.booting - Count(Apply(s, a).threads, IsBooting)
            == s.pool.booting - Count(s.threads, IsBooting)
  {
    CountStep(s, a, IsBooting);
  }

  lemma CountersClaim(s: Sys, a: Action)
    requires Enabled(s, a) && Claims(a) && Counters(s)
    ensures Counters(Apply(s, a))
  {
    WaitingClaim(s, a);
    BootingClaim(s, a);
  }

  /** The head of the allocation loop ends with a claim or asleep. */
  lemma ClaimPc(s: Sys, a: Action)
    requires Enabled(s, a) && Claims(a)
    ensures a.t in Apply(s, a).threads && (Apply(s, a).threads[a.t].Claimed? || Apply(s, a).threads[a.t].Waiting?)
    ensures a.t in s.threads ==> s.threads[a.t].Waiting? || s.threads[a.t].Removed?
    ensures Apply(s, a).pool.booting == s.pool.booting
  {
  }

  lemma BootingClaim(s: Sys, a: Action)
    requires Enabled(s, a) && Claims(a)
    ensures Apply(s, a).pool.booting == s.pool.booting
    ensures Count(Apply(s, a).threads, IsBooting) == Count(s.threads, IsBooting)
  {
    ClaimPc(s, a);
    CountStep(s, a, IsBooting);
  }

  lemma WaitingClaim(s: Sys, a: Action)
    requires Enabled(s, a) && Claims(a)
    ensures Apply(s, a).pool.pending - s.pool.pending
            == Count(Apply(s, a).threads, IsWaiting) - Count(s.threads, IsWaiting)
  {
    CountStep(s, a, IsWaiting);
  }

  lemma CountersEnd(s: Sys, a: Action)
    requires Enabled(s, a) && Ends(a) && Counters(s)
    ensures Counters(Apply(s, a))
  {
    CountStep(s, a, IsWaiting);
    CountStep(s, a, IsBooting);
  }

  ghost predicate Indexed(s: Sys) {
    IndexAgrees(s.pool.active, s.pool.listeners)
  }

  lemma IndexedStep(s: Sys, a: Action)
    requires Enabled(s, a) && Indexed(s)
    requires a.Admit? ==> s.threads[a.t].id !in s.pool.active
    ensures Indexed(Apply(s, a))
  {
    match a
    case Admit(t) =>
      IndexRegister(s.pool, s.threads[t].id, s.threads[t].ip, s.threads[t].runner);
    case Deliver(t, id) => if id in s.pool.active { IndexUnregister(s.pool, id); }
    case Reap(t) => if s.threads[t].id in s.pool.active { IndexUnregister(s.pool, s.threads[t].id); }
    case AbortWorker(t, id) => if id in s.pool.active { IndexUnregister(s.pool, id); }
    case _ =>
  }

  // ----- capacity

  /** Every container the orchestrator holds or is about to hold. */
  ghost function Occupied(s: Sys): int {
    |s.pool.warm| + |s.pool.active| + s.pool.booting + Limbo(s)
  }

  ghost predicate OccupiedBounded(s: Sys) {
    var h := s.hist;
    && s.pool.maxWorkers <= h.peakMax
    && Occupied(s) <= Max(|h.start.warm| + |h.start.active|, h.peakMax + h.peakLimbo)
  }

  /** maxWorkers bounds everything, claims in limbo included. */
  ghost predicate WithinLimit(s: Sys) {
    Occupied(s) <= s.pool.maxWorkers
  }

  /** A boot without room once claims in limbo are counted, or a limit below what is there. */
  ghost predicate Overshoots(s: Sys, a: Action) {
    || (a.PoolSpawn? && Occupied(s) >= s.pool.maxWorkers)
    || (a.UpdateSettings? && Occupied(s) > a.maxWorkers)
  }

  ghost predicate SpareBounded(s: Sys) {
    var h := s.hist;
    && s.pool.warmConfig <= h.peakWarm
    && |s.pool.warm| + s.pool.booting <= h.peakWarm + s.pool.pending + h.cancelled + |h.start.warm|
  }

  ghost predicate Bounded(s: Sys) {
    OccupiedBounded(s) && SpareBounded(s)
  }

  lemma BoundedStep(s: Sys, a: Action)
    requires Enabled(s, a) && Bounded(s)
    requires a.Insert? ==> s.threads[a.t].id !in s.pool.warm
    requires a.Admit? ==> s.threads[a.t].id !in s.pool.active
    ensures Bounded(Apply(s, a))
  {
    SpareStep(s, a);
    PeaksStep(s, a);
    if Claims(a) {
      OccupiedClaim(s, a);
    } else if Ends(a) {
      OccupiedEnd(s, a);
    } else {
      OccupiedOther(s, a);
      if a.PoolSpawn? { BootBelowPeaks(s, a); }
    }
  }

  /** A claim moves a container from the warm pool into limbo. */
  lemma OccupiedClaim(s: Sys, a: Action)
    requires Enabled(s, a) && Claims(a)
    ensures Occupied(Apply(s, a)) <= Occupied(s)
  {
    CountStep(s, a, InLimbo);
    StepSizes(s, a);
  }

  lemma OccupiedEnd(s: Sys, a: Action)
    requires Enabled(s, a) && Ends(a)
    ensures Occupied(Apply(s, a)) <= Occupied(s)
  {
    CountStep(s, a, InLimbo);
    StepSizes(s, a);
  }

  /** Only a boot adds a container. */
  lemma OccupiedOther(s: Sys, a: Action)
    requires Enabled(s, a) && !Claims(a) && !Ends(a)
    ensures Occupied(Apply(s, a)) <= Occupied(s) + if a.PoolSpawn? then 1 else 0
  {
    CountStep(s, a, InLimbo);
    StepSizes(s, a);
  }

  /** The recorded peaks never fall. */
  lemma PeaksStep(s: Sys, a: Action)
    requires Enabled(s, a) && s.pool.maxWorkers <= s.hist.peakMax
    ensures var h, h' := s.hist, Apply(s, a).hist;
            && h.peakMax <= h'.peakMax && h.peakLimbo <= h'.peakLimbo && h'.start == h.start
            && Apply(s, a).pool.maxWorkers <= h'.peakMax
  {
    if a.UpdateSettings? || a.PoolSpawn? {
    } else {
      assert Apply(s, a).pool.maxWorkers == s.pool.maxWorkers;
    }
  }

  /** A boot starts below the peaks. */
  lemma BootBelowPeaks(s: Sys, a: Action)
    requires Enabled(s, a) && s.pool.maxWorkers <= s.hist.peakMax && a.PoolSpawn?
    ensures Occupied(s) + 1 <= Apply(s, a).hist.peakMax + Apply(s, a).hist.peakLimbo
  {
  }

  lemma BootAddsOne(s: Sys, a: Action)
    requires Enabled(s, a) && a.PoolSpawn?
    ensures Occupied(Apply(s, a)) == Occupied(s) + 1
  {
    CountStep(s, a, InLimbo);
  }

  lemma WithinLimitStep(s: Sys, a: Action)
    requires Enabled(s, a) && WithinLimit(s)
    requires a.Insert? ==> s.threads[a.t].id !in s.pool.warm
    requires a.Admit? ==> s.threads[a.t].id !in s.pool.active
    ensures WithinLimit(Apply(s, a)) <==> !Overshoots(s, a)
  {
    if Claims(a) {
      OccupiedClaim(s, a);
    } else if Ends(a) {
      OccupiedEnd(s, a);
    } else if a.PoolSpawn? {
      BootAddsOne(s, a);
    } else {
      OccupiedOther(s, a);
    }
  }

  lemma SpareStep(s: Sys, a: Action)
    requires Enabled(s, a) && SpareBounded(s)
    requires a.Insert? ==> s.threads[a.t].id !in s.pool.warm
    ensures SpareBounded(Apply(s, a))
  {
    StepSizes(s, a);
  }

  // ----- jobs

  /** Registrations of one runner. */
  function Registrations(log: seq<Job>, r: string): nat {
    if log == [] then 0
    else Registrations(log[..|log| - 1], r) + if log[|log| - 1].runner == r then 1 else 0
  }

  /** Completions (each one increments the runner's job counter) or aborts of one runner. */
  function Endings(log: seq<Finish>, r: string, how: Ending): nat {
    if log == [] then 0
    else
      var last := log[|log| - 1];
      Endings(log[..|log| - 1], r, how) + if last.runner == r && last.how == how then 1 else 0
  }

  ghost predicate Conserved(s: Sys, r: string) {
    Count(s.hist.start.active, Of(r)) + Registrations(s.hist.registered, r)
    == Count(s.pool.active, Of(r)) + Endings(s.hist.finished, r, Completed) + Endings(s.hist.finished, r, Aborted)
  }

  lemma ConservedStep(s: Sys, a: Action, r: string)
    requires Enabled(s, a) && Conserved(s, r)
    requires a.Admit? ==> s.threads[a.t].id !in s.pool.active
    ensures Conserved(Apply(s, a), r)
  {
    if a.Admit? {
      ConservedAdmit(s, a, r);
    } else {
      StepMoves(s, a);
      ConservedMove(s, Apply(s, a), MoveOf(s, a), EndingOf(a), r);
    }
  }

  lemma ConservedAdmit(s: Sys, a: Action, r: string)
    requires Enabled(s, a) && a.Admit? && Conserved(s, r)
    requires s.threads[a.t].id !in s.pool.active
    ensures Conserved(Apply(s, a), r)
  {
    var Checked(runner, id, ip) := s.threads[a.t];
    var log := s.hist.registered + [Job(id, runner)];
    assert log[..|log| - 1] == s.hist.registered;
    CountUpdate(s.pool.active, id, ActiveWorker(ip, runner), Of(r));
  }

  lemma ConservedMove(s: Sys, s': Sys, m: Move, how: Ending, r: string)
    requires !m.Join? && PoolMoved(s.pool, s'.pool, m) && LogMoved(s, s', m, how)
    requires Conserved(s, r) && s'.hist.registered == s.hist.registered
    ensures Conserved(s', r)
  {
    if m.Part? {
      var log := s'.hist.finished;
      assert log[..|log| - 1] == s.hist.finished;
      CountRemove(s.pool.active, m.id, Of(r));
      assert s'.pool.active == s.pool.active - {m.id};
    } else {
      assert s'.pool.active == s.pool.active;
    }
  }
}
