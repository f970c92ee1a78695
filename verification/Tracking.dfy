/** Docker's view and the orchestrator's view of the containers, in every run. */
module Tracking {
  import opened Collections
  import opened Names
  import opened Pool
  import opened Protocol
  import opened Exclusive

  /** Goroutines in the middle of giving a container a place, or of taking it away. */
  function Handles(pc: Pc): Option<Id> {
    match pc
    case Claimed(_, id, _) => Some(id)
    case Renamed(_, id, _) => Some(id)
    case Checked(_, id, _) => Some(id)
    case Condemned(_, id) => Some(id)
    case Removed(_, id) => Some(id)
    case Created(id) => Some(id)
    case Owes(ThenKill(id)) => Some(id)
    case Killing(id) => Some(id)
    case _ => None
  }

  predicate InFlight(pc: Pc) {
    Handles(pc).Some?
  }

  ghost predicate Handled(s: Sys, id: Id) {
    exists t :: t in s.threads && Handles(s.threads[t]) == Some(id)
  }

  ghost predicate Known(s: Sys, id: Id) {
    id in s.pool.warm || id in s.pool.active || id in s.hist.leaked || Handled(s, id)
  }

  /** A running container is in a map, in somebody's hands, or was given up without confirmation. */
  ghost predicate Tracked(s: Sys) {
    forall id <- Running(s) :: Known(s, id)
  }

  /** Every running container carries one of the two prefixes. */
  ghost predicate Labelled(s: Sys) {
    forall id <- Running(s) :: HasPrefix(s.docker[id].name)
  }

  lemma LabelledStep(s: Sys, a: Action)
    requires Enabled(s, a) && Labelled(s)
    ensures Labelled(Apply(s, a))
  {
    var s' := Apply(s, a);
    forall id <- Running(s') ensures HasPrefix(s'.docker[id].name) {
      if !(a.Create? && a.id == id) {
        RanBefore(s, a, id);
        if Renames(s, a) == Some(id) {
          ParseUndoesFormat(s.threads[a.t].runner, a.short);
        } else {
          NameKept(s, a, id);
        }
      }
    }
  }

  predicate Described(s: Sys, id: Id, ip: string) {
    id in s.docker && s.docker[id].ip == ip
  }

  /** The container's name carries its runner, unless its rename failed or the runner has no name. */
  predicate NamedUnlessMisnamed(s: Sys, id: Id, runner: string, ip: string) {
    Described(s, id, ip) && (NamedFor(s.docker[id], runner, ip) <==> id !in s.hist.misnamed)
  }

  /** Warm containers are named warm, active ones for their runner, exactly as far as their renames went through. */
  ghost predicate Named(s: Sys) {
    && s.hist.misnamed <= s.hist.left
    && (forall id <- s.pool.warm :: Described(s, id, s.pool.warm[id]) && IsWarmName(s.docker[id].name))
    && (forall id <- s.pool.active :: NamedUnlessMisnamed(s, id, s.pool.active[id].runner, s.pool.active[id].ip))
    && (forall t <- s.threads :: NamedAt(s, s.threads[t]))
  }

  predicate NamedAt(s: Sys, pc: Pc) {
    match pc
    case Created(id) => id in s.docker && IsWarmName(s.docker[id].name)
    case Claimed(_, id, ip) => Described(s, id, ip) && IsWarmName(s.docker[id].name) && id !in s.hist.misnamed
    case Renamed(runner, id, ip) => NamedUnlessMisnamed(s, id, runner, ip)
    case Checked(runner, id, ip) => NamedUnlessMisnamed(s, id, runner, ip)
    case _ => true
  }

  lemma TrackedStep(s: Sys, a: Action)
    requires Enabled(s, a) && Tracked(s)
    ensures Tracked(Apply(s, a))
  {
    var s' := Apply(s, a);
    MovesOne(s, a);
    forall id <- Running(s') ensures Known(s', id) {
      if a.Create? && a.id == id {
        assert Handles(s'.threads[a.t]) == Some(id);
      } else {
        RanBefore(s, a, id);
        if t :| t in s.threads && Handles(s.threads[t]) == Some(id) {
          HandleKept(s, a, t, id);
        } else {
          PlaceKept(s, a, id);
        }
      }
    }
  }

  lemma RanBefore(s: Sys, a: Action, id: Id)
    requires Enabled(s, a) && id in Running(Apply(s, a)) && !(a.Create? && a.id == id)
    ensures id in Running(s)
  {
  }

  /** Whoever lets go of a container puts it in a map or gives it up. */
  lemma HandleKept(s: Sys, a: Action, t: Tid, id: Id)
    requires Enabled(s, a) && id in Running(Apply(s, a))
    requires t in s.threads && Handles(s.threads[t]) == Some(id)
    ensures Known(Apply(s, a), id)
  {
    MovesOne(s, a);
    var s' := Apply(s, a);
    if Actor(a) == Some(t) {
      assert Handles(s'.threads[t]) == Some(id) || id in s'.pool.warm || id in s'.pool.active || id in s'.hist.leaked;
    } else {
      assert s'.threads[t] == s.threads[t];
    }
  }

  /** A running container leaves the maps only into somebody's hands, or is given up. */
  lemma PlaceKept(s: Sys, a: Action, id: Id)
    requires Enabled(s, a) && id in Running(Apply(s, a))
    requires id in s.pool.warm || id in s.pool.active || id in s.hist.leaked
    ensures Known(Apply(s, a), id)
  {
    StepMoves(s, a);
    LeakedGrows(s, a);
    if MoveOf(s, a) == Leave(id) || MoveOf(s, a) == Part(id) {
      LeaverKnown(s, a, id);
    }
  }

  lemma LeakedGrows(s: Sys, a: Action)
    requires Enabled(s, a)
    ensures s.hist.leaked <= Apply(s, a).hist.leaked
    ensures a.Reap? ==> s.threads[a.t].id in Apply(s, a).hist.leaked
  {
  }

  lemma LeaverKnown(s: Sys, a: Action, id: Id)
    requires Enabled(s, a) && id in Running(Apply(s, a))
    requires MoveOf(s, a) == Leave(id) || MoveOf(s, a) == Part(id)
    ensures Handled(Apply(s, a), id) || id in Apply(s, a).hist.leaked
  {
    var s' := Apply(s, a);
    LeakedGrows(s, a);
    if Claims(a) || a.AbortWorker? {
      assert Handles(s'.threads[a.t]) == Some(id);
    } else {
      assert a.Reap?;
    }
  }

  /** The container an action renames, if any. */
  function Renames(s: Sys, a: Action): Option<Id>
    requires Enabled(s, a)
  {
    if a.Rename? then Some(s.threads[a.t].id) else None
  }

  lemma NameKept(s: Sys, a: Action, id: Id)
    requires Enabled(s, a) && id in s.docker && Renames(s, a) != Some(id)
    ensures id in Apply(s, a).docker
    ensures Apply(s, a).docker[id].name == s.docker[id].name && Apply(s, a).docker[id].ip == s.docker[id].ip
    ensures id in s.hist.misnamed <==> id in Apply(s, a).hist.misnamed
  {
  }

  /** Only the call that holds a container renames it. */
  lemma RenamesOwn(s: Sys, a: Action, id: Id)
    requires Enabled(s, a) && SingleUse(s) && Renames(s, a) == Some(id)
    ensures id !in s.pool.warm && id !in s.pool.active
    ensures forall u <- s.threads :: u != a.t ==> HeldBy(s.threads[u]) != Some(id) && s.threads[u] != Created(id)
  {
    assert HeldBy(s.threads[a.t]) == Some(id);
    forall u <- s.threads | u != a.t
      ensures HeldBy(s.threads[u]) != Some(id) && s.threads[u] != Created(id)
    {
    }
  }

  lemma NamedInserted(s: Sys, a: Action)
    requires Enabled(s, a) && a.Insert? && NamedAt(s, s.threads[a.t])
    ensures var s', id := Apply(s, a), s.threads[a.t].id;
            id in s'.pool.warm && Described(s', id, s'.pool.warm[id]) && IsWarmName(s'.docker[id].name)
  {
  }

  lemma NamedWarmOne(s: Sys, a: Action, id: Id)
    requires Enabled(s, a) && SingleUse(s) && Named(s) && id in Apply(s, a).pool.warm
    ensures var s' := Apply(s, a); Described(s', id, s'.pool.warm[id]) && IsWarmName(s'.docker[id].name)
  {
    if a.Insert? && s.threads[a.t].id == id {
      NamedInserted(s, a);
    } else {
      WarmValueKept(s, a, id);
      if Renames(s, a) == Some(id) { RenamesOwn(s, a, id); }
      NameKept(s, a, id);
    }
  }

  lemma NamedWarmStep(s: Sys, a: Action)
    requires Enabled(s, a) && SingleUse(s) && Named(s)
    ensures var s' := Apply(s, a);
            forall id <- s'.pool.warm :: Described(s', id, s'.pool.warm[id]) && IsWarmName(s'.docker[id].name)
  {
    var s' := Apply(s, a);
    forall id <- s'.pool.warm ensures Described(s', id, s'.pool.warm[id]) && IsWarmName(s'.docker[id].name) {
      NamedWarmOne(s, a, id);
    }
  }

  /** Only an insertion fills the warm pool, and only a registration the active map. */
  lemma PlacingActions(s: Sys, a: Action)
    requires Enabled(s, a)
    ensures MoveOf(s, a).Enter? ==> a.Insert? && s.threads[a.t].id == MoveOf(s, a).id
    ensures MoveOf(s, a).Join? ==> a.Admit? && s.threads[a.t].id == MoveOf(s, a).id
  {
  }

  lemma WarmValueKept(s: Sys, a: Action, id: Id)
    requires Enabled(s, a) && id in Apply(s, a).pool.warm && !(a.Insert? && s.threads[a.t].id == id)
    ensures id in s.pool.warm && Apply(s, a).pool.warm[id] == s.pool.warm[id]
  {
    StepMoves(s, a);
    PlacingActions(s, a);
  }

  lemma NamedActiveStep(s: Sys, a: Action)
    requires Enabled(s, a) && SingleUse(s) && Named(s)
    ensures var s' := Apply(s, a); forall id <- s'.pool.active ::
              NamedUnlessMisnamed(s', id, s'.pool.active[id].runner, s'.pool.active[id].ip)
  {
    var s' := Apply(s, a);
    forall id <- s'.pool.active
      ensures NamedUnlessMisnamed(s', id, s'.pool.active[id].runner, s'.pool.active[id].ip)
    {
      NamedActiveOne(s, a, id);
    }
  }

  lemma NamedActiveOne(s: Sys, a: Action, id: Id)
    requires Enabled(s, a) && SingleUse(s) && Named(s) && id in Apply(s, a).pool.active
    ensures var s' := Apply(s, a); NamedUnlessMisnamed(s', id, s'.pool.active[id].runner, s'.pool.active[id].ip)
  {
    if a.Admit? && s.threads[a.t].id == id {
      NamedAdmit(s, a);
    } else {
      ActiveValueKept(s, a, id);
      if Renames(s, a) == Some(id) { RenamesOwn(s, a, id); }
      NameKept(s, a, id);
    }
  }

  lemma NamedAdmit(s: Sys, a: Action)
    requires Enabled(s, a) && Named(s) && a.Admit?
    ensures var s', id := Apply(s, a), s.threads[a.t].id;
            id in s'.pool.active && NamedUnlessMisnamed(s', id, s'.pool.active[id].runner, s'.pool.active[id].ip)
  {
    assert NamedAt(s, s.threads[a.t]);
  }

  lemma ActiveValueKept(s: Sys, a: Action, id: Id)
    requires Enabled(s, a) && id in Apply(s, a).pool.active && !(a.Admit? && s.threads[a.t].id == id)
    ensures id in s.pool.active && Apply(s, a).pool.active[id] == s.pool.active[id]
  {
    StepMoves(s, a);
    PlacingActions(s, a);
  }

  lemma NamedThreadsStep(s: Sys, a: Action)
    requires Enabled(s, a) && SingleUse(s) && Named(s)
    ensures var s' := Apply(s, a); forall t <- s'.threads :: NamedAt(s', s'.threads[t])
  {
    var s' := Apply(s, a);
    MovesOne(s, a);
    forall t <- s'.threads ensures NamedAt(s', s'.threads[t]) {
      if Actor(a) == Some(t) {
        NamedActor(s, a);
      } else {
        NamedBystander(s, a, t);
      }
    }
  }

  lemma NamedBystander(s: Sys, a: Action, t: Tid)
    requires Enabled(s, a) && SingleUse(s) && t in s.threads && NamedAt(s, s.threads[t]) && Actor(a) != Some(t)
    ensures NamedAt(Apply(s, a), s.threads[t])
  {
    var pc := s.threads[t];
    if pc.Created? || pc.Claimed? || pc.Renamed? || pc.Checked? {
      OtherRenamed(s, a, t);
      NameKept(s, a, pc.id);
    }
  }

  /** Nobody renames a container that another call or boot holds. */
  lemma OtherRenamed(s: Sys, a: Action, t: Tid)
    requires Enabled(s, a) && SingleUse(s) && t in s.threads && Actor(a) != Some(t)
    requires HeldBy(s.threads[t]).Some? || s.threads[t].Created?
    ensures var id := if s.threads[t].Created? then s.threads[t].id else HeldBy(s.threads[t]).value;
            Renames(s, a) != Some(id)
  {
    var id := if s.threads[t].Created? then s.threads[t].id else HeldBy(s.threads[t]).value;
    if Renames(s, a) == Some(id) {
      RenamesOwn(s, a, id);
    }
  }

  lemma NamedActor(s: Sys, a: Action)
    requires Enabled(s, a) && SingleUse(s) && Named(s) && Actor(a).Some?
    ensures a.t in Apply(s, a).threads && NamedAt(Apply(s, a), Apply(s, a).threads[a.t])
  {
    if a.Rename? {
      NamedRename(s, a);
    } else if Claims(a) {
      NamedClaim(s, a);
    } else {
      NamedCarried(s, a);
    }
  }

  /** Between the rename and the registration a call carries its container's name unchanged. */
  lemma NamedCarried(s: Sys, a: Action)
    requires Enabled(s, a) && Named(s) && Actor(a).Some? && !a.Rename? && !Claims(a)
    ensures a.t in Apply(s, a).threads && NamedAt(Apply(s, a), Apply(s, a).threads[a.t])
  {
    if a.Check? {
      assert NamedAt(s, s.threads[a.t]);
    }
  }

  /** What is claimed is named warm and has not been renamed before. */
  lemma NamedClaim(s: Sys, a: Action)
    requires Enabled(s, a) && Disjoint(s) && Named(s) && Claims(a)
    ensures a.t in Apply(s, a).threads && NamedAt(Apply(s, a), Apply(s, a).threads[a.t])
  {
  }

  lemma MisnamedLeft(s: Sys, a: Action)
    requires Enabled(s, a) && HeldOnce(s) && Named(s)
    ensures Apply(s, a).hist.misnamed <= Apply(s, a).hist.left
  {
    StepMoves(s, a);
    MisnamedGrows(s, a);
    if a.Rename? {
      assert HeldBy(s.threads[a.t]) == Some(s.threads[a.t].id);
    }
  }

  /** Only a rename can misname, and only the container it renames. */
  lemma MisnamedGrows(s: Sys, a: Action)
    requires Enabled(s, a)
    ensures Apply(s, a).hist.misnamed <= s.hist.misnamed + if a.Rename? then {s.threads[a.t].id} else {}
  {
  }

  lemma NamedRename(s: Sys, a: Action)
    requires Enabled(s, a) && Named(s) && a.Rename?
    ensures a.t in Apply(s, a).threads && NamedAt(Apply(s, a), Apply(s, a).threads[a.t])
  {
    assert NamedAt(s, s.threads[a.t]);
    ParseUndoesFormat(s.threads[a.t].runner, a.short);
    PrefixesExclusive(s.docker[s.threads[a.t].id].name);
  }

  lemma NamedStep(s: Sys, a: Action)
    requires Enabled(s, a) && SingleUse(s) && Named(s)
    ensures Named(Apply(s, a))
  {
    MisnamedLeft(s, a);
    NamedWarmStep(s, a);
    NamedActiveStep(s, a);
    NamedThreadsStep(s, a);
  }
}
