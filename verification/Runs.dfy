/** The invariants together, and what they say about every run of the orchestrator. */
module Runs {
  import opened Collections
  import opened Pool
  import opened Protocol
  import opened Accounting
  import opened Exclusive
  import opened Wakeups
  import opened Deaths
  import opened Pausing
  import opened Tracking
  import opened Marking

  ghost predicate AllConserved(s: Sys) {
    forall r :: Conserved(s, r)
  }

  ghost predicate AllMarked(s: Sys) {
    forall r :: Marked(s, r)
  }

  ghost predicate Inv(s: Sys) {
    && Counters(s) && Indexed(s) && Bounded(s) && AllConserved(s)
    && SingleUse(s)
    && NoLostWakeup(s)
    && Reaped(s)
    && PauseAgrees(s)
    && Tracked(s) && Named(s) && Labelled(s)
    && AllMarked(s) && MarkState(s)
  }

  /** At the start only the event loop exists, and no class of program counters that matters has it. */
  lemma InitNone(s: Sys, p: Pc -> bool)
    requires Init(s) && !p(EventIdle)
    ensures Count(s.threads, p) == 0
  {
    assert Where(s.threads, p) == {};
  }

  lemma InitCounts(s: Sys)
    requires Init(s)
    ensures Counters(s)
  {
    InitNone(s, IsWaiting);
    InitNone(s, IsBooting);
  }

  lemma InitBounded(s: Sys)
    requires Init(s)
    ensures Bounded(s)
  {
    InitNone(s, InLimbo);
  }

  lemma InitMarked(s: Sys)
    requires Init(s)
    ensures AllMarked(s) && MarkState(s)
  {
    forall r ensures Marked(s, r) {
      InitNone(s, OwesMark(r));
    }
    assert forall t <- s.threads :: s.threads[t] == EventIdle;
  }

  lemma InitSingleUse(s: Sys)
    requires Init(s)
    ensures SingleUse(s)
  {
    InitDisjoint(s);
    InitIdle(s);
  }

  lemma InitDisjoint(s: Sys)
    requires Init(s)
    ensures Disjoint(s) && FinishedOnce(s)
  {
    assert Spent(s) == {};
  }

  /** At the start only the event loop exists. */
  lemma InitIdle(s: Sys)
    requires Init(s)
    ensures HeldOnce(s) && CreatedFresh(s) && CheckedReaped(s) && forall t <- s.threads :: NamedAt(s, s.threads[t])
  {
    assert forall t <- s.threads :: s.threads[t] == EventIdle;
  }

  lemma InitReaped(s: Sys)
    requires Init(s)
    ensures Reaped(s)
  {
    forall id | id in s.pool.warm || id in s.pool.active ensures id in Running(s) || id in s.undelivered {
      assert id in s.pool.warm.Keys + s.pool.active.Keys;
    }
  }

  lemma InitTracked(s: Sys)
    requires Init(s)
    ensures Tracked(s) && Labelled(s)
  {
    assert forall id <- Running(s) :: id in s.pool.warm.Keys + s.pool.active.Keys + s.hist.leaked;
  }

  lemma InitNamed(s: Sys)
    requires Init(s)
    ensures Named(s)
  {
    InitIdle(s);
    forall id | id in s.pool.warm || id in s.pool.active ensures id in s.docker {
      assert id in s.pool.warm.Keys + s.pool.active.Keys;
    }
  }

  lemma InitInv(s: Sys)
    requires Init(s)
    ensures Inv(s)
  {
    InitCounts(s);
    InitBounded(s);
    InitMarked(s);
    InitSingleUse(s);
    InitReaped(s);
    InitTracked(s);
    InitNamed(s);
    InitRest(s);
  }

  lemma InitRest(s: Sys)
    requires Init(s)
    ensures Indexed(s) && AllConserved(s) && NoLostWakeup(s) && PauseAgrees(s)
  {
  }

  /** A container that is inserted or registered was in no map before. */
  lemma Fresh(s: Sys, a: Action)
    requires Enabled(s, a) && SingleUse(s)
    ensures a.Insert? ==> s.threads[a.t].id !in s.pool.warm
    ensures a.Admit? ==> s.threads[a.t].id !in s.pool.active
  {
  }

  lemma SingleUseStep(s: Sys, a: Action)
    requires Enabled(s, a) && SingleUse(s)
    ensures SingleUse(Apply(s, a))
  {
    DisjointStep(s, a);
    HeldOnceStep(s, a);
    CreatedFreshStep(s, a);
    FinishedOnceStep(s, a);
  }

  lemma AllConservedStep(s: Sys, a: Action)
    requires Enabled(s, a) && AllConserved(s)
    requires a.Admit? ==> s.threads[a.t].id !in s.pool.active
    ensures AllConserved(Apply(s, a))
  {
    forall r ensures Conserved(Apply(s, a), r) {
      ConservedStep(s, a, r);
    }
  }

  lemma AllMarkedStep(s: Sys, a: Action)
    requires Enabled(s, a) && AllMarked(s)
    ensures AllMarked(Apply(s, a))
  {
    forall r ensures Marked(Apply(s, a), r) {
      MarkedStep(s, a, r);
    }
  }

  lemma CheckedKnown(s: Sys)
    requires SingleUse(s)
    ensures forall t <- s.threads :: s.threads[t].Checked? ==> s.threads[t].id in s.docker
  {
    forall t <- s.threads | s.threads[t].Checked? ensures s.threads[t].id in s.docker {
      assert HeldBy(s.threads[t]) == Some(s.threads[t].id);
    }
  }

  lemma ReapedStep(s: Sys, a: Action)
    requires Enabled(s, a) && Reaped(s) && SingleUse(s)
    ensures Reaped(Apply(s, a))
  {
    CheckedKnown(s);
    WarmReapedStep(s, a);
    ActiveReapedStep(s, a);
    CheckedReapedStep(s, a);
    MissedGoneStep(s, a);
  }

  lemma InvStep(s: Sys, a: Action)
    requires Enabled(s, a) && Inv(s)
    ensures Inv(Apply(s, a))
  {
    Fresh(s, a);
    CountersStep(s, a);
    IndexedStep(s, a);
    BoundedStep(s, a);
    AllConservedStep(s, a);
    SingleUseStep(s, a);
    GenerationsStep(s, a);
    CallersWokenStep(s, a);
    ReapedStep(s, a);
    PauseAgreesStep(s, a);
    TrackedStep(s, a);
    NamedStep(s, a);
    LabelledStep(s, a);
    AllMarkedStep(s, a);
    MarksKnownStep(s, a);
    ActiveMarkedStep(s, a);
  }

  lemma {:induction false} InvRun(s: Sys, run: seq<Action>)
    requires Inv(s) && Legal(s, run)
    ensures Inv(Exec(s, run))
    decreases |run|
  {
    if run != [] {
      InvStep(s, run[0]);
      InvRun(Apply(s, run[0]), run[1..]);
    }
  }

  lemma {:induction false} StartKept(s: Sys, run: seq<Action>)
    requires Legal(s, run)
    ensures Exec(s, run).hist.start == s.hist.start && s.hist.left <= Exec(s, run).hist.left
    decreases |run|
  {
    if run != [] {
      StepMoves(s, run[0]);
      StartKept(Apply(s, run[0]), run[1..]);
    }
  }

  /** s is the state at the end of a run from a recovered start. */
  ghost predicate Reaches(s0: Sys, run: seq<Action>, s: Sys) {
    Init(s0) && Legal(s0, run) && s == Exec(s0, run)
  }

  /** Every state of every run from a recovered start satisfies every invariant. */
  lemma {:induction false} EveryRun(s0: Sys, run: seq<Action>, s: Sys)
    requires Reaches(s0, run, s)
    ensures Inv(s) && s.hist.start == s0.pool
  {
    InitInv(s0);
    InvRun(s0, run);
    StartKept(s0, run);
  }
}
