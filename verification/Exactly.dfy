/**
  Promises that the orchestrator does not keep in every run, each with the exact list of actions
  that break it: the promise holds in every state of a run if and only if the run contains none of them.
 */
module Exactly {
  import opened Collections
  import opened Pool
  import opened Protocol
  import opened Accounting
  import opened Exclusive
  import opened Wakeups
  import opened Deaths
  import opened Pausing
  import opened Marking
  import opened Footprint
  import opened Runs

  /** The property holds in every state of the run. */
  ghost predicate Always(s: Sys, run: seq<Action>, holds: Sys -> bool)
    requires Legal(s, run)
    decreases |run|
  {
    holds(s) && (run == [] || Always(Apply(s, run[0]), run[1..], holds))
  }

  /** Every action of a run is acceptable in the state in which it happens. */
  ghost predicate Throughout(s: Sys, run: seq<Action>, ok: (Sys, Action) -> bool)
    requires Legal(s, run)
    decreases |run|
  {
    run == [] || (ok(s, run[0]) && Throughout(Apply(s, run[0]), run[1..], ok))
  }

  /** No action of a run is bad in the state in which it happens. */
  ghost predicate Never(s: Sys, run: seq<Action>, bad: (Sys, Action) -> bool)
    requires Legal(s, run)
    decreases |run|
  {
    run == [] || (!bad(s, run[0]) && Never(Apply(s, run[0]), run[1..], bad))
  }

  /** From a state that has the property, exactly the bad actions lead out of it. */
  ghost predicate Breaks(holds: Sys -> bool, bad: (Sys, Action) -> bool) {
    forall s: Sys, a: Action :: Inv(s) && holds(s) && Enabled(s, a) ==> (holds(Apply(s, a)) <==> !bad(s, a))
  }

  lemma {:induction false} ExactRun(s: Sys, run: seq<Action>, holds: Sys -> bool, bad: (Sys, Action) -> bool)
    requires Inv(s) && holds(s) && Legal(s, run) && Breaks(holds, bad)
    ensures Always(s, run, holds) <==> Never(s, run, bad)
    decreases |run|
  {
    if run != [] {
      var s' := Apply(s, run[0]);
      InvStep(s, run[0]);
      if holds(s') {
        ExactRun(s', run[1..], holds, bad);
      }
    }
  }

  lemma {:induction false} AlwaysLast(s: Sys, run: seq<Action>, holds: Sys -> bool)
    requires Legal(s, run) && Always(s, run, holds)
    ensures holds(Exec(s, run))
    decreases |run|
  {
    if run != [] {
      AlwaysLast(Apply(s, run[0]), run[1..], holds);
    }
  }

  lemma {:induction false} NeverFrom(s: Sys, run: seq<Action>, ok: (Sys, Action) -> bool,
                                     bad: (Sys, Action) -> bool)
    requires Legal(s, run) && Throughout(s, run, ok) && forall x: Sys, a: Action :: ok(x, a) ==> !bad(x, a)
    ensures Never(s, run, bad)
    decreases |run|
  {
    if run != [] {
      NeverFrom(Apply(s, run[0]), run[1..], ok, bad);
    }
  }

  /**
    maxWorkers bounds what the orchestrator holds (warm, active, booting and claimed containers) throughout
    a run exactly when the run starts within it, every boot starts with room for the claims in limbo too,
    and the limit is never set below what is held.
   */
  lemma {:induction false} CapacityExactly(s0: Sys, run: seq<Action>)
    requires Init(s0) && Legal(s0, run)
    ensures Always(s0, run, WithinLimit)
            <==> |s0.pool.warm| + |s0.pool.active| <= s0.pool.maxWorkers && Never(s0, run, Overshoots)
  {
    InitInv(s0);
    assert Where(s0.threads, InLimbo) == {};
    if WithinLimit(s0) {
      forall s: Sys, a: Action | Inv(s) && WithinLimit(s) && Enabled(s, a)
        ensures WithinLimit(Apply(s, a)) <==> !Overshoots(s, a)
      {
        Fresh(s, a);
        WithinLimitStep(s, a);
      }
      ExactRun(s0, run, WithinLimit, Overshoots);
    }
  }

  /** maintainPool never sleeps through an opportunity exactly when no retry and no abort muffles it. */
  lemma {:induction false} MaintainerWokenExactly(s0: Sys, run: seq<Action>)
    requires Init(s0) && Legal(s0, run)
    ensures Always(s0, run, PoolWoken) <==> Never(s0, run, Muffles)
  {
    InitInv(s0);
    forall s: Sys, a: Action | Inv(s) && PoolWoken(s) && Enabled(s, a)
      ensures PoolWoken(Apply(s, a)) <==> !Muffles(s, a)
    {
      Fresh(s, a);
      PoolWokenStep(s, a);
    }
    ExactRun(s0, run, PoolWoken, Muffles);
  }

  lemma AdmittedIsKnown(s: Sys, a: Action)
    requires Inv(s) && Enabled(s, a)
    ensures s.pool.active.Keys <= s.docker.Keys
    ensures a.Admit? ==> s.threads[a.t].id in s.docker
  {
    CheckedKnown(s);
  }

  /** Every dead active worker has an event on its way exactly when no call registers a death it missed. */
  lemma {:induction false} DeadActiveNoticedExactly(s0: Sys, run: seq<Action>)
    requires Init(s0) && Legal(s0, run)
    ensures Always(s0, run, ActiveNoticed) <==> Never(s0, run, AdmitsMissed)
  {
    InitInv(s0);
    forall s: Sys, a: Action | Inv(s) && ActiveNoticed(s) && Enabled(s, a)
      ensures ActiveNoticed(Apply(s, a)) <==> !AdmitsMissed(s, a)
    {
      AdmittedIsKnown(s, a);
      ActiveNoticedStep(s, a);
    }
    ExactRun(s0, run, ActiveNoticed, AdmitsMissed);
  }

  /**
    Whenever nobody owes an evaluation the listeners are frozen exactly at full capacity: this holds
    throughout a run exactly when it starts below the limit and no settings change unsettles it.
   */
  lemma {:induction false} PausedExactly(s0: Sys, run: seq<Action>)
    requires Init(s0) && Legal(s0, run)
    ensures Always(s0, run, Evaluated) <==> |s0.pool.active| < s0.pool.maxWorkers && Never(s0, run, Unsettles)
  {
    InitInv(s0);
    assert !Any(s0, OwesEvaluation);
    if Evaluated(s0) {
      forall s: Sys, a: Action | Inv(s) && Evaluated(s) && Enabled(s, a)
        ensures Evaluated(Apply(s, a)) <==> !Unsettles(s, a)
      {
        Fresh(s, a);
        EvaluatedStep(s, a);
      }
      ExactRun(s0, run, Evaluated, Unsettles);
    }
  }

  /**
    maxWorkers bounds the containers that run or are about to be created throughout a run exactly when the
    run starts within it, no boot starts while they fill it, and the limit is never set below them.
    Aborted workers that have not been killed and containers that were given up alive are among them.
   */
  lemma {:induction false} RunningExactly(s0: Sys, run: seq<Action>)
    requires Init(s0) && Legal(s0, run)
    ensures Always(s0, run, PresentWithin) <==> |Running(s0)| <= s0.pool.maxWorkers && Never(s0, run, Overruns)
  {
    InitInv(s0);
    InitNone(s0, Unborn);
    if PresentWithin(s0) {
      forall s: Sys, a: Action | Inv(s) && PresentWithin(s) && Enabled(s, a)
        ensures PresentWithin(Apply(s, a)) <==> !Overruns(s, a)
      {
        PresentWithinStep(s, a);
      }
      ExactRun(s0, run, PresentWithin, Overruns);
    }
  }

  /**
    No idle mark comes before the busy mark of its container throughout a run exactly when no worker ends
    while the call that registered it still owes the mark. Recovered workers have no busy mark.
   */
  lemma {:induction false} OrderlyExactly(s0: Sys, run: seq<Action>)
    requires Init(s0) && Legal(s0, run)
    ensures Always(s0, run, Orderly) <==> Never(s0, run, Overtakes)
  {
    InitInv(s0);
    forall s: Sys, a: Action | Inv(s) && Orderly(s) && Enabled(s, a)
      ensures Orderly(Apply(s, a)) <==> !Overtakes(s, a)
    {
      OrderlyStep(s, a);
    }
    ExactRun(s0, run, Orderly, Overtakes);
  }

  lemma BothAccounted(x: Sys, s: Sys, r: string)
    requires Inv(x) && Inv(s)
    ensures Marked(x, r) && Conserved(x, r) && Marked(s, r) && Conserved(s, r)
  {
  }

  /** A swallowed mark stays swallowed. */
  lemma {:induction false} NoneSwallowedBefore(x: Sys, s: Sys, run: seq<Action>, r: string)
    requires Legal(s, run) && Later(x, s) && NoneSwallowed(x, Exec(s, run), r)
    ensures Always(s, run, (y: Sys) => NoneSwallowed(x, y, r))
    decreases |run|
  {
    if run != [] {
      SinceStep(x, s, run[0], r);
      NoneSwallowedBefore(x, Apply(s, run[0]), run[1..], r);
      SwallowedGrows(x, s, run[0], r);
    }
  }

  /**
    For an entry of the runner that was made in state x, at the start or by a later restart: none of its
    idle marks is swallowed throughout the rest of the run exactly when no worker of the runner ends while
    all its active workers are from before and marked, or still owed their busy marks.
   */
  lemma {:induction false} NoneSwallowedExactly(s0: Sys, before: seq<Action>, x: Sys, run: seq<Action>, r: string)
    requires Reaches(s0, before, x) && Legal(x, run)
    ensures Always(x, run, (s: Sys) => NoneSwallowed(x, s, r))
            <==> Never(x, run, (s: Sys, a: Action) => Swallows(x, s, a, r))
  {
    EveryRun(s0, before, x);
    var holds, bad := (s: Sys) => NoneSwallowed(x, s, r), (s: Sys, a: Action) => Swallows(x, s, a, r);
    forall s: Sys, a: Action | Inv(s) && holds(s) && Enabled(s, a)
      ensures holds(Apply(s, a)) <==> !bad(s, a)
    {
      BothAccounted(x, s, r);
      SwallowedStep(x, s, a, r);
    }
    assert x.hist.marks[|x.hist.marks|..] == [];
    ExactRun(x, run, holds, bad);
  }
}
