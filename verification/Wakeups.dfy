/** No goroutine sleeps through the broadcast that it is waiting for. */
module Wakeups {
  import opened Collections
  import opened Pool
  import opened Protocol
  import opened Accounting

  ghost predicate Any(s: Sys, p: Pc -> bool) {
    exists t :: t in s.threads && p(s.threads[t])
  }

  /** Nobody holds a channel that has not been made yet. */
  ghost predicate Generations(s: Sys) {
    && (forall t <- s.threads :: s.threads[t].Waiting? ==> s.threads[t].since <= s.pool.gen)
    && (s.maintainer.Asleep? ==> s.maintainer.since <= s.pool.gen)
  }

  /** A caller asleep on the current channel. */
  predicate Sleeps(s: Sys, t: Tid) {
    t in s.threads && s.threads[t].Waiting? && s.threads[t].since == s.pool.gen
  }

  /** maintainPool asleep on the current channel. */
  predicate PoolSleeps(s: Sys) {
    s.maintainer.Asleep? && s.maintainer.since == s.pool.gen
  }

  /** A caller asleep beside a warm container will be woken by the goroutine that inserted it. */
  ghost predicate CallersWoken(s: Sys) {
    (exists t :: Sleeps(s, t)) && s.pool.warm != map[] ==> Any(s, OwesInsertBroadcast)
  }

  predicate WillSignal(pc: Pc) {
    InLimbo(pc) || pc.PostFail?
  }

  /** maintainPool asleep although it may boot will be woken by a claim in limbo or a failed boot. */
  ghost predicate PoolWoken(s: Sys) {
    PoolSleeps(s) && MayBoot(s.pool) ==> Any(s, WillSignal)
  }

  ghost predicate NoLostWakeup(s: Sys) {
    Generations(s) && CallersWoken(s)
  }

  ghost predicate AnyBut(s: Sys, t: Tid, p: Pc -> bool) {
    exists u :: u in s.threads && u != t && p(s.threads[u])
  }

  /**
    The two silent actions, at a bad moment: a retry that finds no warm container raises the demand, an
    abort makes room, maintainPool is asleep, both guards now hold, and nobody else will broadcast.
   */
  ghost predicate Muffles(s: Sys, a: Action) {
    PoolSleeps(s) &&
    match a
    case Retry(t, _) =>
      s.pool.warm == map[] && MayBoot(s.pool.(pending := s.pool.pending + 1)) && !AnyBut(s, t, WillSignal)
    case AbortWorker(_, id) =>
      id in s.pool.active && MayBoot(s.pool.(active := s.pool.active - {id})) && !Any(s, WillSignal)
    case _ => false
  }

  lemma GenerationsStep(s: Sys, a: Action)
    requires Enabled(s, a) && Generations(s)
    ensures Generations(Apply(s, a)) && s.pool.gen <= Apply(s, a).pool.gen
  {
    MovesOne(s, a);
    GenerationGrows(s, a);
    if Actor(a).Some? { WaiterIsCurrent(s, a); }
  }

  lemma GenerationGrows(s: Sys, a: Action)
    requires Enabled(s, a)
    ensures s.pool.gen <= Apply(s, a).pool.gen
    ensures Apply(s, a).maintainer.Asleep? ==>
              Apply(s, a).maintainer == s.maintainer || Apply(s, a).maintainer.since == Apply(s, a).pool.gen
  {
  }

  /** Whoever falls asleep does so on the current channel. */
  lemma WaiterIsCurrent(s: Sys, a: Action)
    requires Enabled(s, a) && Actor(a).Some?
    ensures a.t in Apply(s, a).threads
    ensures Apply(s, a).threads[a.t].Waiting? ==> Apply(s, a).threads[a.t].since == Apply(s, a).pool.gen
  {
    if Claims(a) {
      ClaimerIsCurrent(s, a);
    } else {
      OthersDoNotWait(s, a);
    }
  }

  lemma ClaimerIsCurrent(s: Sys, a: Action)
    requires Enabled(s, a) && Claims(a)
    ensures a.t in Apply(s, a).threads
    ensures Apply(s, a).threads[a.t].Waiting? ==> Apply(s, a).threads[a.t].since == Apply(s, a).pool.gen
  {
  }

  lemma OthersDoNotWait(s: Sys, a: Action)
    requires Enabled(s, a) && !Claims(a) && Actor(a).Some?
    ensures a.t in Apply(s, a).threads && !Apply(s, a).threads[a.t].Waiting?
  {
  }

  lemma CallersWokenStep(s: Sys, a: Action)
    requires Enabled(s, a) && NoLostWakeup(s)
    ensures CallersWoken(Apply(s, a))
  {
    var s' := Apply(s, a);
    GenerationsStep(s, a);
    MovesOne(s, a);
    if t :| Sleeps(s', t) && s'.pool.warm != map[] {
      if a.Insert? {
        assert OwesInsertBroadcast(s'.threads[a.t]);
      } else {
        WarmBefore(s, a);
        SleptBefore(s, a, t);
        var u :| u in s.threads && OwesInsertBroadcast(s.threads[u]);
        BroadcastStillOwed(s, a, u);
        assert OwesInsertBroadcast(s'.threads[u]);
      }
    }
  }

  /** Only an insertion fills an empty warm pool. */
  lemma WarmBefore(s: Sys, a: Action)
    requires Enabled(s, a) && !a.Insert? && Apply(s, a).pool.warm != map[]
    ensures s.pool.warm != map[]
  {
    StepMoves(s, a);
    var id :| id in Apply(s, a).pool.warm;
    assert id in s.pool.warm;
  }

  /** A caller only falls asleep when the warm pool is empty. */
  lemma SleptBefore(s: Sys, a: Action, t: Tid)
    requires Enabled(s, a) && Generations(s)
    requires Sleeps(Apply(s, a), t) && Apply(s, a).pool.warm != map[]
    ensures Sleeps(s, t) && s.pool.gen == Apply(s, a).pool.gen
  {
    GenerationsStep(s, a);
    MovesOne(s, a);
  }

  lemma BroadcastStillOwed(s: Sys, a: Action, u: Tid)
    requires Enabled(s, a) && u in s.threads && OwesInsertBroadcast(s.threads[u])
    requires s.pool.gen == Apply(s, a).pool.gen
    ensures u in Apply(s, a).threads && OwesInsertBroadcast(Apply(s, a).threads[u])
  {
    MovesOne(s, a);
  }

  predicate IsSilent(s: Sys, a: Action) {
    (a.Retry? && s.pool.warm == map[]) || (a.AbortWorker? && a.id in s.pool.active)
  }

  lemma PoolWokenStep(s: Sys, a: Action)
    requires Enabled(s, a) && Generations(s) && PoolWoken(s)
    requires a.Insert? ==> s.threads[a.t].id !in s.pool.warm
    ensures PoolWoken(Apply(s, a)) <==> !Muffles(s, a)
  {
    if a.Retry? && s.pool.warm == map[] {
      SilentRetry(s, a);
    } else if a.AbortWorker? && a.id in s.pool.active {
      SilentAbort(s, a);
    } else {
      AudibleStep(s, a);
    }
  }

  lemma SilentRetry(s: Sys, a: Action)
    requires Enabled(s, a) && a.Retry? && s.pool.warm == map[]
    ensures PoolWoken(Apply(s, a)) <==> !Muffles(s, a)
  {
    var s' := Apply(s, a);
    assert s'.threads == s.threads[a.t := Waiting(s.threads[a.t].runner, s.pool.gen)];
    assert Any(s', WillSignal) <==> AnyBut(s, a.t, WillSignal) by {
      if u :| u in s.threads && u != a.t && WillSignal(s.threads[u]) {
        assert u in s'.threads && WillSignal(s'.threads[u]);
      }
    }
  }

  lemma SilentAbort(s: Sys, a: Action)
    requires Enabled(s, a) && a.AbortWorker? && a.id in s.pool.active
    ensures PoolWoken(Apply(s, a)) <==> !Muffles(s, a)
  {
    AbortLeaves(s, a);
    SignalsAfterAbort(s, Apply(s, a), a.t, Owes(ThenKill(a.id)));
  }

  lemma AbortLeaves(s: Sys, a: Action)
    requires Enabled(s, a) && a.AbortWorker? && a.id in s.pool.active
    ensures var s' := Apply(s, a);
            && s'.threads == s.threads[a.t := Owes(ThenKill(a.id))] && s'.maintainer == s.maintainer
            && s'.pool.gen == s.pool.gen
            && (MayBoot(s'.pool) <==> MayBoot(s.pool.(active := s.pool.active - {a.id})))
  {
  }

  lemma SignalsAfterAbort(s: Sys, s': Sys, t: Tid, pc: Pc)
    requires s'.threads == s.threads[t := pc] && t !in s.threads && !WillSignal(pc)
    ensures Any(s', WillSignal) <==> Any(s, WillSignal)
  {
    if u :| u in s.threads && WillSignal(s.threads[u]) {
      assert u in s'.threads && WillSignal(s'.threads[u]);
    }
  }

  lemma AudibleStep(s: Sys, a: Action)
    requires Enabled(s, a) && Generations(s) && PoolWoken(s) && !IsSilent(s, a)
    requires a.Insert? ==> s.threads[a.t].id !in s.pool.warm
    ensures PoolWoken(Apply(s, a))
  {
    var s' := Apply(s, a);
    GenerationsStep(s, a);
    MovesOne(s, a);
    if PoolSleeps(s') && MayBoot(s'.pool) {
      if Actor(a).Some? && WillSignal(s'.threads[a.t]) {
      } else {
        SleepKept(s, a);
        StillBarred(s, a);
        var u :| u in s.threads && WillSignal(s.threads[u]);
        SignalStillOwed(s, a, u);
        assert u in s'.threads && WillSignal(s'.threads[u]);
      }
    }
  }

  /** maintainPool goes to sleep only when it may not boot. */
  lemma SleepKept(s: Sys, a: Action)
    requires Enabled(s, a) && Generations(s)
    requires PoolSleeps(Apply(s, a)) && MayBoot(Apply(s, a).pool)
    ensures PoolSleeps(s) && s.pool.gen == Apply(s, a).pool.gen
  {
  }

  /** Without a broadcast, only a claim, a failed boot or a silent action can lift the bar on booting. */
  lemma StillBarred(s: Sys, a: Action)
    requires Enabled(s, a) && s.pool.gen == Apply(s, a).pool.gen && !IsSilent(s, a)
    requires MayBoot(Apply(s, a).pool) && PoolSleeps(s)
    requires Actor(a).Some? && a.t in Apply(s, a).threads ==> !WillSignal(Apply(s, a).threads[a.t])
    requires a.Insert? ==> s.threads[a.t].id !in s.pool.warm
    ensures MayBoot(s.pool)
  {
    StepSizes(s, a);
  }

  lemma SignalStillOwed(s: Sys, a: Action, u: Tid)
    requires Enabled(s, a) && u in s.threads && WillSignal(s.threads[u]) && !IsSilent(s, a)
    requires s.pool.gen == Apply(s, a).pool.gen
    ensures u in Apply(s, a).threads && WillSignal(Apply(s, a).threads[u])
  {
    MovesOne(s, a);
  }

  /**
    A starved caller means a full machine: when a caller and maintainPool both sleep on the current
    channel and nothing is in flight, there is no warm container and the active workers alone reach
    maxWorkers.
   */
  lemma StarvedMeansFull(s: Sys, t: Tid)
    requires CallersWoken(s) && PoolWoken(s) && Counters(s)
    requires Sleeps(s, t) && PoolSleeps(s)
    requires s.pool.warmConfig >= 0
    requires !Any(s, WillSignal) && !Any(s, OwesInsertBroadcast) && !Any(s, IsBooting)
    ensures s.pool.warm == map[] && |s.pool.active| >= s.pool.maxWorkers
  {
    assert t in Where(s.threads, IsWaiting);
    assert Where(s.threads, IsBooting) == {};
  }
}
