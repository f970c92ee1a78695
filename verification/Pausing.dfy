/** The pause flag follows the capacity. */
module Pausing {
  import opened Collections
  import opened Pool
  import opened Protocol
  import opened Accounting
  import opened Wakeups

  /** The orchestrator and the standalone manager agree about the freeze. */
  ghost predicate PauseAgrees(s: Sys) {
    s.pool.paused == s.globalPaused
  }

  /** The listeners are frozen exactly when the active workers fill the capacity. */
  ghost predicate PausedWhenFull(s: Sys) {
    s.pool.paused <==> |s.pool.active| >= s.pool.maxWorkers
  }

  /** Once nobody owes an evaluation, the flag is right. */
  ghost predicate Evaluated(s: Sys) {
    !Any(s, OwesEvaluation) ==> PausedWhenFull(s)
  }

  /** A settings change that turns full into not full or back, while nobody owes an evaluation. */
  ghost predicate Unsettles(s: Sys, a: Action) {
    a.UpdateSettings? && !Any(s, OwesEvaluation)
    && (|s.pool.active| >= s.pool.maxWorkers) != (|s.pool.active| >= a.maxWorkers)
  }

  lemma PauseAgreesStep(s: Sys, a: Action)
    requires Enabled(s, a) && PauseAgrees(s)
    ensures PauseAgrees(Apply(s, a))
  {
  }

  lemma EvaluatedStep(s: Sys, a: Action)
    requires Enabled(s, a) && Evaluated(s) && Indexed(s)
    requires a.Admit? ==> s.threads[a.t].id !in s.pool.active
    ensures Evaluated(Apply(s, a)) <==> !Unsettles(s, a)
  {
    var s' := Apply(s, a);
    if a.EvaluateCapacity? {
      EvaluateDecides(s.pool);
    } else if a.UpdateSettings? {
      assert Any(s', OwesEvaluation) <==> Any(s, OwesEvaluation);
    } else if !Any(s', OwesEvaluation) {
      MovesOne(s, a);
      StepSizes(s, a);
      NewDebt(s, a);
      if t :| t in s.threads && OwesEvaluation(s.threads[t]) {
        DebtKept(s, a, t);
        assert false;
      }
    }
  }

  /** Whoever changes the number of active workers owes an evaluation. */
  lemma NewDebt(s: Sys, a: Action)
    requires Enabled(s, a) && !a.EvaluateCapacity? && !Any(Apply(s, a), OwesEvaluation)
    ensures !MoveOf(s, a).Join? && !MoveOf(s, a).Part?
    ensures !a.UpdateSettings? ==> s.pool.maxWorkers == Apply(s, a).pool.maxWorkers
    ensures s.pool.paused == Apply(s, a).pool.paused
  {
    MovesOne(s, a);
    var s' := Apply(s, a);
    assert Actor(a).Some? ==> !OwesEvaluation(s'.threads[a.t]);
  }

  lemma DebtKept(s: Sys, a: Action, t: Tid)
    requires Enabled(s, a) && !a.EvaluateCapacity?
    requires t in s.threads && OwesEvaluation(s.threads[t])
    ensures Any(Apply(s, a), OwesEvaluation)
  {
    MovesOne(s, a);
    assert OwesEvaluation(Apply(s, a).threads[t]);
  }
}
