/** Runners that nobody looks after any more, and exactly how they come about. */
module Orphans {
  import opened Collections
  import opened Lifecycle
  import opened Standalone
  import opened Freeze

  /** A live process has a goroutine that will wait for it. */
  predicate HasOwner(r: Runner) {
    r.process.Alive? ==> r.owner.Spawned? || r.owner.Installed? || r.owner.Watching?
  }

  ghost predicate AllOwned(m: Manager) {
    forall n <- m.runners :: HasOwner(m.runners[n])
  }

  /** Shown as doing something, but without goroutine and process. */
  predicate Abandoned(r: Runner) {
    r.owner.Nobody? && r.process.Gone? && r.proc.state !in {Offline, Failed}
  }

  /** Abandoned in Draining: it can be neither stopped nor started again. */
  predicate Orphaned(r: Runner) {
    r.proc.state == Draining && r.owner.Nobody? && r.process.Gone?
  }

  ghost predicate NoneAbandoned(m: Manager) {
    forall n <- m.runners :: !Abandoned(m.runners[n])
  }

  ghost predicate NoneOrphaned(m: Manager) {
    forall n <- m.runners :: !Orphaned(m.runners[n])
  }

  /** The goroutine's last transition is rejected by the table: it leaves, and the state stays. */
  predicate Abandons(m: Manager, a: Act) {
    && !a.Lock? && !a.Unlock? && a.n in m.runners && EnabledOne(m, m.runners[a.n], a)
    && var r := m.runners[a.n];
       || (a.Leave? && r.proc.state in {Busy, Paused})
       || (a.Report? && r.owner.retry && r.proc.state in {Draining, Paused})
  }

  /** A stop of a runner that was abandoned before, or a relaunch that fails after a stop. */
  predicate Orphans(m: Manager, a: Act) {
    && !a.Lock? && !a.Unlock? && a.n in m.runners && EnabledOne(m, m.runners[a.n], a)
    && var r := m.runners[a.n];
       || (a.Stop? && r.owner.Nobody? && r.proc.state !in {Offline, Failed, Draining})
       || (a.Report? && r.owner.retry && r.proc.state == Draining)
  }

  lemma OwnedOne(m: Manager, r: Runner, a: Act)
    requires EnabledOne(m, r, a) && HasOwner(r)
    ensures HasOwner(NextOne(m, r, a))
  {
  }

  lemma OwnedStep(m: Manager, a: Act)
    requires Enabled(m, a) && AllOwned(m)
    ensures AllOwned(Next(m, a))
  {
    if a.Lock? || a.Unlock? {
      AllStayOwned(m, a);
    } else if a.n in m.runners {
      OwnedOne(m, m.runners[a.n], a);
      Replaced(m, a);
    }
  }

  lemma AllStayOwned(m: Manager, a: Act)
    requires (a.Lock? || a.Unlock?) && AllOwned(m)
    ensures AllOwned(Next(m, a))
  {
  }

  /** A freeze or a thaw abandons nobody. */
  lemma AllStayLookedAfter(m: Manager, a: Act)
    requires a.Lock? || a.Unlock?
    ensures NoneAbandoned(m) ==> NoneAbandoned(Next(m, a))
    ensures NoneOrphaned(m) ==> NoneOrphaned(Next(m, a))
  {
  }

  /** An action on a runner replaces it and no other. */
  lemma Replaced(m: Manager, a: Act)
    requires Enabled(m, a) && !a.Lock? && !a.Unlock?
    ensures Next(m, a).runners
            == m.runners[a.n := if a.n in m.runners then NextOne(m, m.runners[a.n], a) else FRESH_RUNNER]
  {
  }

  lemma {:induction false} OwnedRun(m: Manager, run: seq<Act>)
    requires Legal(m, run) && AllOwned(m)
    ensures AllOwned(Exec(m, run))
    decreases |run|
  {
    if run != [] {
      OwnedStep(m, run[0]);
      OwnedRun(Next(m, run[0]), run[1..]);
    }
  }

  /** On the runner it names, an action changes whether it is looked after exactly as the two predicates say. */
  lemma OneExact(m: Manager, a: Act)
    requires Enabled(m, a) && !a.Lock? && !a.Unlock? && a.n in m.runners && HasOwner(m.runners[a.n])
    ensures !Abandoned(m.runners[a.n]) ==> (Abandoned(NextOne(m, m.runners[a.n], a)) <==> Abandons(m, a))
    ensures !Orphaned(m.runners[a.n]) ==> (Orphaned(NextOne(m, m.runners[a.n], a)) <==> Orphans(m, a))
  {
  }

  lemma AbandonStep(m: Manager, a: Act)
    requires Enabled(m, a) && AllOwned(m) && NoneAbandoned(m)
    ensures NoneAbandoned(Next(m, a)) <==> !Abandons(m, a)
  {
    if a.Lock? || a.Unlock? {
      AllStayLookedAfter(m, a);
    } else {
      Replaced(m, a);
      if a.n in m.runners {
        OneExact(m, a);
        assert Next(m, a).runners[a.n] == NextOne(m, m.runners[a.n], a);
      }
    }
  }

  lemma OrphanStep(m: Manager, a: Act)
    requires Enabled(m, a) && AllOwned(m) && NoneOrphaned(m)
    ensures NoneOrphaned(Next(m, a)) <==> !Orphans(m, a)
  {
    if a.Lock? || a.Unlock? {
      AllStayLookedAfter(m, a);
    } else {
      Replaced(m, a);
      if a.n in m.runners {
        OneExact(m, a);
        assert Next(m, a).runners[a.n] == NextOne(m, m.runners[a.n], a);
      }
    }
  }

  /**
    No runner is abandoned throughout a run exactly when no goroutine leaves a Busy or Paused runner, and
    no relaunch fails on a Draining or Paused one.
   */
  lemma {:induction false} AbandonedExactly(run: seq<Act>)
    requires Legal(FIRST, run)
    ensures Always(FIRST, run, NoneAbandoned) <==> Never(FIRST, run, Abandons)
  {
    forall m: Manager, a: Act | AllOwned(m) && NoneAbandoned(m) && Enabled(m, a)
      ensures NoneAbandoned(Next(m, a)) <==> !Abandons(m, a)
      ensures AllOwned(Next(m, a))
    {
      AbandonStep(m, a);
      OwnedStep(m, a);
    }
    ExactRun(FIRST, run, AllOwned, NoneAbandoned, Abandons);
  }

  /**
    No runner is orphaned throughout a run exactly when no abandoned runner is stopped, and no relaunch
    fails on a Draining one.
   */
  lemma {:induction false} OrphanedExactly(run: seq<Act>)
    requires Legal(FIRST, run)
    ensures Always(FIRST, run, NoneOrphaned) <==> Never(FIRST, run, Orphans)
  {
    forall m: Manager, a: Act | AllOwned(m) && NoneOrphaned(m) && Enabled(m, a)
      ensures NoneOrphaned(Next(m, a)) <==> !Orphans(m, a)
      ensures AllOwned(Next(m, a))
    {
      OrphanStep(m, a);
      OwnedStep(m, a);
    }
    ExactRun(FIRST, run, AllOwned, NoneOrphaned, Orphans);
  }

  lemma OrphanedOne(m: Manager, r: Runner, a: Act)
    requires EnabledOne(m, r, a) && Orphaned(r)
    ensures Orphaned(NextOne(m, r, a))
  {
  }

  /** An orphaned runner stays orphaned in every continuation: it can be neither stopped nor started again. */
  lemma {:induction false} OrphanedForGood(m: Manager, run: seq<Act>, n: string)
    requires Legal(m, run) && n in m.runners && Orphaned(m.runners[n])
    ensures n in Exec(m, run).runners && Orphaned(Exec(m, run).runners[n])
    decreases |run|
  {
    if run != [] {
      if !run[0].Lock? && !run[0].Unlock? && run[0].n == n {
        OrphanedOne(m, m.runners[n], run[0]);
      }
      OrphanedForGood(Next(m, run[0]), run[1..], n);
    }
  }

  // ----- somebody still looks after a runner that may be started

  /** Outside a Start, a runner that Start accepts has no goroutine and no process. */
  predicate MeetsNobody(r: Runner) {
    MayStart(r.proc.state) && !InStart(r.owner) ==> r.owner.Nobody? && r.process.Gone?
  }

  ghost predicate AllMeetNobody(m: Manager) {
    forall n <- m.runners :: MeetsNobody(m.runners[n])
  }

  /**
    The table has no way from Registering to Paused: a first launch under the global pause whose SIGSTOP was
    delivered leaves a Registering runner to its goroutine, whether the listener is stopped or has exited.
   */
  predicate StaysRegistering(m: Manager, a: Act) {
    a.Announce? && a.n in m.runners && Unheard(m.runners[a.n])
  }

  predicate Unheard(r: Runner) {
    r.owner == Installed(false, true) && r.proc.state == Registering
  }

  /** A Start in progress keeps its runner Registering, unless it is stopped or has failed. */
  predicate StartStates(r: Runner) {
    HasOwner(r)
    && (InStart(r.owner) ==> r.proc.state in {Registering, Draining} || (r.owner.Refused? && r.proc.state == Failed))
  }

  ghost predicate AllStartStates(m: Manager) {
    forall n <- m.runners :: StartStates(m.runners[n])
  }

  lemma MeetsNobodyOne(m: Manager, r: Runner, a: Act)
    requires EnabledOne(m, r, a) && StartStates(r)
    ensures StartStates(NextOne(m, r, a))
    ensures MeetsNobody(r) ==> (MeetsNobody(NextOne(m, r, a)) <==> !(a.Announce? && Unheard(r)))
  {
  }

  lemma MeetsNobodySignalled(r: Runner, busy: bool, ok: set<nat>)
    requires StartStates(r)
    ensures StartStates(FreezeRunner(r, busy, ok)) && StartStates(ThawRunner(r, ok))
    ensures MeetsNobody(r) ==> MeetsNobody(FreezeRunner(r, busy, ok)) && MeetsNobody(ThawRunner(r, ok))
  {
  }

  lemma MeetsNobodyStep(m: Manager, a: Act)
    requires Enabled(m, a) && AllStartStates(m) && AllMeetNobody(m)
    ensures AllMeetNobody(Next(m, a)) <==> !StaysRegistering(m, a)
    ensures AllStartStates(Next(m, a))
  {
    var m' := Next(m, a);
    if a.Lock? || a.Unlock? {
      forall n <- m.runners ensures StartStates(m'.runners[n]) && MeetsNobody(m'.runners[n]) {
        MeetsNobodySignalled(m.runners[n], a.Lock? && n in a.active, a.ok);
      }
    } else {
      Replaced(m, a);
      if a.n in m.runners {
        MeetsNobodyOne(m, m.runners[a.n], a);
        assert m'.runners[a.n] == NextOne(m, m.runners[a.n], a);
      }
    }
  }

  /**
    A runner outside a Start that Start accepts has no goroutine and no process throughout a run exactly when
    no frozen first launch leaves its runner Registering.
   */
  lemma {:induction false} StartMeetsNobodyExactly(run: seq<Act>)
    requires Legal(FIRST, run)
    ensures Always(FIRST, run, AllMeetNobody) <==> Never(FIRST, run, StaysRegistering)
  {
    forall m: Manager, a: Act | AllStartStates(m) && AllMeetNobody(m) && Enabled(m, a)
      ensures AllMeetNobody(Next(m, a)) <==> !StaysRegistering(m, a)
      ensures AllStartStates(Next(m, a))
    {
      MeetsNobodyStep(m, a);
    }
    ExactRun(FIRST, run, AllStartStates, AllMeetNobody, StaysRegistering);
  }
}
