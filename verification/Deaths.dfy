/** Dead containers do not linger, as long as every death is delivered at least once. */
module Deaths {
  import opened Collections
  import opened Pool
  import opened Protocol

  /** The boot goroutine of a container still has to look at it, or is about to remove it. */
  ghost predicate BootWatches(s: Sys, id: Id) {
    exists t :: t in s.threads && (s.threads[t] == PostInsert(id) || s.threads[t] == Reaping(id))
  }

  /** A dead container in the warm pool has an event on its way, or its boot goroutine watches. */
  ghost predicate WarmReaped(s: Sys) {
    forall id <- s.pool.warm :: id in Running(s) || id in s.undelivered || BootWatches(s, id)
  }

  /** A dead active worker has an event on its way, unless the event came before it was registered. */
  ghost predicate ActiveReaped(s: Sys) {
    forall id <- s.pool.active :: id in Running(s) || id in s.undelivered || id in s.hist.missed
  }

  ghost predicate CheckedReaped(s: Sys) {
    forall t <- s.threads :: s.threads[t].Checked? ==>
      s.threads[t].id in Running(s) || s.threads[t].id in s.undelivered || s.threads[t].id in s.hist.missed
  }

  /** What died between check and registration is dead, and its event is spent. */
  ghost predicate MissedGone(s: Sys) {
    forall id <- s.hist.missed :: id in s.docker && id !in Running(s) && id !in s.undelivered
  }

  ghost predicate Reaped(s: Sys) {
    WarmReaped(s) && ActiveReaped(s) && CheckedReaped(s) && MissedGone(s)
  }

  /** Every dead active worker has an event on its way. */
  ghost predicate ActiveNoticed(s: Sys) {
    forall id <- s.pool.active :: id in Running(s) || id in s.undelivered
  }

  /** A call registers a container whose death was delivered after its alive check. */
  ghost predicate AdmitsMissed(s: Sys, a: Action) {
    a.Admit? && a.t in s.threads && s.threads[a.t].Checked? && s.threads[a.t].id in s.hist.missed
  }

  /** The death of a container that some call has checked but not registered is delivered now. */
  ghost predicate GapDelivery(s: Sys, a: Action) {
    a.Deliver? && IsChecked(s, a.id)
  }

  /** A container stops being accounted for only when its death is delivered. */
  lemma DoomKept(s: Sys, a: Action, id: Id)
    requires Enabled(s, a) && id in Running(s) + s.undelivered
    requires !(a.Deliver? && a.id == id) && !(a.Create? && a.id == id)
    ensures id in Running(Apply(s, a)) + Apply(s, a).undelivered
  {
  }

  lemma MissedKept(s: Sys, a: Action)
    requires Enabled(s, a)
    ensures s.hist.missed <= Apply(s, a).hist.missed
    ensures GapDelivery(s, a) ==> a.id in Apply(s, a).hist.missed
    ensures !GapDelivery(s, a) ==> s.hist.missed == Apply(s, a).hist.missed
  {
  }

  lemma WarmReapedOne(s: Sys, a: Action, id: Id)
    requires Enabled(s, a) && Reaped(s) && id in Apply(s, a).pool.warm
    requires s.pool.warm.Keys <= s.docker.Keys && s.pool.warm.Keys !! s.pool.active.Keys
    requires !(a.Insert? && s.threads[a.t].id == id)
    ensures var s' := Apply(s, a); id in Running(s') || id in s'.undelivered || BootWatches(s', id)
  {
    WarmKept(s, a, id);
    if id in Running(s) + s.undelivered {
      DoomKept(s, a, id);
    } else {
      var t :| t in s.threads && (s.threads[t] == PostInsert(id) || s.threads[t] == Reaping(id));
      WatchKept(s, a, t, id);
    }
  }

  lemma WarmReapedStep(s: Sys, a: Action)
    requires Enabled(s, a) && Reaped(s)
    requires s.pool.warm.Keys <= s.docker.Keys && s.pool.warm.Keys !! s.pool.active.Keys
    ensures WarmReaped(Apply(s, a))
  {
    var s' := Apply(s, a);
    forall id <- s'.pool.warm
      ensures id in Running(s') || id in s'.undelivered || BootWatches(s', id)
    {
      if a.Insert? && s.threads[a.t].id == id {
        assert s'.threads[a.t] == PostInsert(id);
      } else {
        WarmReapedOne(s, a, id);
      }
    }
  }

  /** A warm container that stays was not the one whose death is handled now. */
  lemma WarmKept(s: Sys, a: Action, id: Id)
    requires Enabled(s, a) && s.pool.warm.Keys !! s.pool.active.Keys
    requires id in Apply(s, a).pool.warm && !(a.Insert? && s.threads[a.t].id == id)
    ensures id in s.pool.warm && !(a.Deliver? && a.id == id) && !(a.Reap? && s.threads[a.t].id == id)
  {
    StepMoves(s, a);
    WarmNotMoved(s, a, id);
    assert MoveOf(s, a) != Enter(id) && MoveOf(s, a) != Leave(id);
  }

  lemma WarmNotMoved(s: Sys, a: Action, id: Id)
    requires Enabled(s, a)
    ensures MoveOf(s, a) == Enter(id) ==> a.Insert? && s.threads[a.t].id == id
    ensures (a.Deliver? && a.id == id) || (a.Reap? && s.threads[a.t].id == id) ==> MoveOf(s, a) == DeathMove(s, id)
  {
  }

  lemma WatchKept(s: Sys, a: Action, t: Tid, id: Id)
    requires Enabled(s, a) && id !in Running(s) && !(a.Reap? && s.threads[a.t].id == id)
    requires t in s.threads && (s.threads[t] == PostInsert(id) || s.threads[t] == Reaping(id))
    ensures BootWatches(Apply(s, a), id)
  {
    MovesOne(s, a);
    var pc' := Apply(s, a).threads[t];
    assert pc' == PostInsert(id) || pc' == Reaping(id);
  }

  lemma ActiveReapedStep(s: Sys, a: Action)
    requires Enabled(s, a) && Reaped(s)
    requires s.pool.active.Keys <= s.docker.Keys
    ensures ActiveReaped(Apply(s, a))
  {
    var s' := Apply(s, a);
    MissedKept(s, a);
    forall id <- s'.pool.active
      ensures id in Running(s') || id in s'.undelivered || id in s'.hist.missed
    {
      ActiveKept(s, a, id);
      if id in Running(s) + s.undelivered {
        DoomKept(s, a, id);
      }
    }
  }

  lemma MissedGoneStep(s: Sys, a: Action)
    requires Enabled(s, a) && MissedGone(s)
    ensures MissedGone(Apply(s, a))
  {
  }

  lemma MissedIsAdmitted(s: Sys, a: Action)
    requires Enabled(s, a) && Reaped(s) && AdmitsMissed(s, a)
    ensures !ActiveNoticed(Apply(s, a))
  {
    var s', id := Apply(s, a), s.threads[a.t].id;
    assert id in s'.pool.active && id !in Running(s') && id !in s'.undelivered;
  }

  /** Registering is the only way to miss a death. */
  lemma ActiveNoticedStep(s: Sys, a: Action)
    requires Enabled(s, a) && Reaped(s) && ActiveNoticed(s)
    requires s.pool.active.Keys <= s.docker.Keys
    requires a.Admit? ==> s.threads[a.t].id in s.docker
    ensures ActiveNoticed(Apply(s, a)) <==> !AdmitsMissed(s, a)
  {
    var s' := Apply(s, a);
    if AdmitsMissed(s, a) {
      MissedIsAdmitted(s, a);
    } else {
      forall id <- s'.pool.active ensures id in Running(s') || id in s'.undelivered {
        ActiveKept(s, a, id);
        DoomKept(s, a, id);
      }
    }
  }

  lemma ActiveKept(s: Sys, a: Action, id: Id)
    requires Enabled(s, a) && id in Apply(s, a).pool.active
    ensures id in s.pool.active || (a.Admit? && s.threads[a.t].id == id)
    ensures !(a.Deliver? && a.id == id)
  {
    StepMoves(s, a);
  }

  lemma CheckedReapedStep(s: Sys, a: Action)
    requires Enabled(s, a) && Reaped(s)
    requires forall t <- s.threads :: s.threads[t].Checked? ==> s.threads[t].id in s.docker
    ensures CheckedReaped(Apply(s, a))
  {
    var s' := Apply(s, a);
    MissedKept(s, a);
    forall t <- s'.threads | s'.threads[t].Checked?
      ensures var id := s'.threads[t].id; id in Running(s') || id in s'.undelivered || id in s'.hist.missed
    {
      CheckedBefore(s, a, t);
      var id := s'.threads[t].id;
      if id in Running(s) + s.undelivered && !GapDelivery(s, a) {
        DoomKept(s, a, id);
      }
    }
  }

  /** A caller holds a checked container only after a positive alive check. */
  lemma CheckedBefore(s: Sys, a: Action, t: Tid)
    requires Enabled(s, a) && t in Apply(s, a).threads && Apply(s, a).threads[t].Checked?
    ensures var id := Apply(s, a).threads[t].id;
            || (t in s.threads && s.threads[t].Checked? && s.threads[t].id == id
                && (a.Deliver? && a.id == id ==> GapDelivery(s, a)))
            || (a.Check? && id in Running(s))
  {
    MovesOne(s, a);
  }
}
