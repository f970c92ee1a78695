/** Each container serves at most one call, once. */
module Exclusive {
  import opened Collections
  import opened Pool
  import opened Protocol

  /** The container an AllocateWorker call has claimed, from the claim until long after it returned. */
  function HeldBy(pc: Pc): Option<Id> {
    match pc
    case Claimed(_, id, _) => Some(id)
    case Renamed(_, id, _) => Some(id)
    case Checked(_, id, _) => Some(id)
    case Condemned(_, id) => Some(id)
    case Removed(_, id) => Some(id)
    case OwesBusy(_, id) => Some(id)
    case Owes(ThenReturn(id)) => Some(id)
    case Returned(id) => Some(id)
    case _ => None
  }

  /** Containers whose job completed or was aborted. */
  function Spent(s: Sys): set<Id> {
    set f | f in s.hist.finished :: f.id
  }

  ghost predicate Disjoint(s: Sys) {
    && s.pool.warm.Keys !! s.pool.active.Keys
    && s.hist.left !! s.pool.warm.Keys
    && Spent(s) !! s.pool.warm.Keys
    && Spent(s) !! s.pool.active.Keys
    && s.pool.warm.Keys + s.pool.active.Keys + s.hist.left + Spent(s) <= s.docker.Keys
  }

  /** A call's container has left the warm pool for good; before registration it is in no map. */
  ghost predicate HeldOnce(s: Sys) {
    && (forall t <- s.threads :: HeldBy(s.threads[t]).Some? ==> HeldBy(s.threads[t]).value in s.hist.left)
    && (forall t <- s.threads :: InLimbo(s.threads[t]) ==>
          s.threads[t].id !in s.pool.active && s.threads[t].id !in Spent(s))
    && (forall t <- s.threads, u <- s.threads :: t != u && HeldBy(s.threads[t]).Some? ==>
          HeldBy(s.threads[t]) != HeldBy(s.threads[u]))
  }

  /** A freshly created container is known to nobody but its boot goroutine. */
  ghost predicate CreatedFresh(s: Sys) {
    && (forall t <- s.threads :: s.threads[t].Created? ==>
          var id := s.threads[t].id;
          && id in s.docker && id !in s.pool.warm && id !in s.pool.active && id !in s.hist.left && id !in Spent(s))
    && (forall t <- s.threads, u <- s.threads ::
          t != u && s.threads[t].Created? && s.threads[u].Created? ==> s.threads[t].id != s.threads[u].id)
  }

  ghost predicate FinishedOnce(s: Sys) {
    forall i, j :: 0 <= i < j < |s.hist.finished| ==> s.hist.finished[i].id != s.hist.finished[j].id
  }

  ghost predicate SingleUse(s: Sys) {
    Disjoint(s) && HeldOnce(s) && CreatedFresh(s) && FinishedOnce(s)
  }

  lemma SpentStep(s: Sys, a: Action)
    requires Enabled(s, a)
    ensures Spent(Apply(s, a)) == match MoveOf(s, a) case Part(id) => Spent(s) + {id} case _ => Spent(s)
  {
    StepMoves(s, a);
  }

  /** The mover held the container that moves into or out of a map. */
  lemma MoverHolds(s: Sys, a: Action)
    requires Enabled(s, a)
    ensures match MoveOf(s, a)
            case Enter(id) => At(s, a.t) && s.threads[a.t] == Created(id)
            case Join(id) => At(s, a.t) && InLimbo(s.threads[a.t]) && s.threads[a.t].id == id
            case Make(id) => id !in s.docker
            case _ => true
  {
  }

  lemma DisjointStep(s: Sys, a: Action)
    requires Enabled(s, a) && SingleUse(s)
    ensures Disjoint(Apply(s, a))
  {
    StepMoves(s, a);
    SpentStep(s, a);
    MoverHolds(s, a);
    MoverIsFresh(s, a);
    DisjointMove(s, Apply(s, a), MoveOf(s, a), EndingOf(a));
  }

  /** A container enters a map from nowhere else. */
  lemma MoverIsFresh(s: Sys, a: Action)
    requires Enabled(s, a) && HeldOnce(s) && CreatedFresh(s)
    ensures match MoveOf(s, a)
            case Enter(id) => id in s.docker && id !in s.pool.active && id !in s.hist.left && id !in Spent(s)
            case Join(id) => id in s.hist.left && id !in Spent(s)
            case _ => true
  {
    MoverHolds(s, a);
  }

  lemma DisjointMove(s: Sys, s': Sys, m: Move, how: Ending)
    requires Disjoint(s) && PoolMoved(s.pool, s'.pool, m) && LogMoved(s, s', m, how)
    requires Spent(s') == match m case Part(id) => Spent(s) + {id} case _ => Spent(s)
    requires match m
             case Enter(id) => id in s.docker && id !in s.pool.active && id !in s.hist.left && id !in Spent(s)
             case Join(id) => id in s.hist.left && id !in Spent(s)
             case _ => true
    ensures Disjoint(s')
  {
  }

  /** A call starts to hold a container only by claiming it from the warm pool. */
  predicate KeepsHold(s: Sys, t: Tid, m: Move, pc': Pc) {
    HeldBy(pc').Some? ==> (t in s.threads && HeldBy(pc') == HeldBy(s.threads[t])) || m == Leave(HeldBy(pc').value)
  }

  /** A claim is in limbo from there until its container is registered. */
  predicate KeepsLimbo(s: Sys, t: Tid, m: Move, pc': Pc) {
    InLimbo(pc') ==>
      !m.Join? && ((t in s.threads && InLimbo(s.threads[t]) && s.threads[t].id == pc'.id) || m == Leave(pc'.id))
  }

  lemma ClaimHolds(s: Sys, a: Action)
    requires Enabled(s, a) && Claims(a)
    ensures a.t in Apply(s, a).threads
    ensures KeepsHold(s, a.t, MoveOf(s, a), Apply(s, a).threads[a.t])
    ensures KeepsLimbo(s, a.t, MoveOf(s, a), Apply(s, a).threads[a.t])
  {
  }

  lemma EndHolds(s: Sys, a: Action)
    requires Enabled(s, a) && Ends(a)
    ensures a.t in Apply(s, a).threads
    ensures HeldBy(Apply(s, a).threads[a.t]).None? && !InLimbo(Apply(s, a).threads[a.t])
  {
  }

  lemma HoldStays(s: Sys, a: Action)
    requires Enabled(s, a) && Actor(a).Some? && !Claims(a) && !Ends(a)
    ensures a.t in Apply(s, a).threads
    ensures HeldBy(Apply(s, a).threads[a.t]).Some? ==>
              a.t in s.threads && HeldBy(Apply(s, a).threads[a.t]) == HeldBy(s.threads[a.t])
  {
  }

  lemma LimboStays(s: Sys, a: Action)
    requires Enabled(s, a) && Actor(a).Some? && !Claims(a) && !Ends(a)
    ensures a.t in Apply(s, a).threads
    ensures InLimbo(Apply(s, a).threads[a.t]) ==>
              !a.Admit? && a.t in s.threads && InLimbo(s.threads[a.t])
              && s.threads[a.t].id == Apply(s, a).threads[a.t].id
  {
  }

  lemma HeldChange(s: Sys, a: Action)
    requires Enabled(s, a) && Actor(a).Some?
    ensures a.t in Apply(s, a).threads
    ensures KeepsHold(s, a.t, MoveOf(s, a), Apply(s, a).threads[a.t])
    ensures KeepsLimbo(s, a.t, MoveOf(s, a), Apply(s, a).threads[a.t])
  {
    if Claims(a) {
      ClaimHolds(s, a);
    } else if Ends(a) {
      EndHolds(s, a);
    } else {
      HoldStays(s, a);
      LimboStays(s, a);
    }
  }

  lemma HeldOnceStep(s: Sys, a: Action)
    requires Enabled(s, a) && SingleUse(s)
    ensures HeldOnce(Apply(s, a))
  {
    StepMoves(s, a);
    SpentStep(s, a);
    MoverHolds(s, a);
    MovesOne(s, a);
    if Actor(a).Some? {
      HeldChange(s, a);
      HeldOnceMove(s, Apply(s, a), a.t, MoveOf(s, a), EndingOf(a));
    } else {
      HeldIdle(s, a);
    }
  }

  lemma HeldIdle(s: Sys, a: Action)
    requires Enabled(s, a) && HeldOnce(s) && Actor(a).None?
    ensures HeldOnce(Apply(s, a))
  {
  }

  lemma HeldOnceMove(s: Sys, s': Sys, t: Tid, m: Move, how: Ending)
    requires SingleUse(s) && PoolMoved(s.pool, s'.pool, m) && LogMoved(s, s', m, how)
    requires Spent(s') == match m case Part(id) => Spent(s) + {id} case _ => Spent(s)
    requires t in s'.threads && s'.threads == s.threads[t := s'.threads[t]]
    requires m.Join? ==> t in s.threads && InLimbo(s.threads[t]) && s.threads[t].id == m.id
    requires KeepsHold(s, t, m, s'.threads[t]) && KeepsLimbo(s, t, m, s'.threads[t])
    ensures HeldOnce(s')
  {
    forall u <- s'.threads | InLimbo(s'.threads[u])
      ensures s'.threads[u].id !in s'.pool.active && s'.threads[u].id !in Spent(s')
    {
      LimboMove(s, s', t, m, how, u);
    }
  }

  /** A claim in limbo stays out of the maps. */
  lemma LimboMove(s: Sys, s': Sys, t: Tid, m: Move, how: Ending, u: Tid)
    requires SingleUse(s) && PoolMoved(s.pool, s'.pool, m) && LogMoved(s, s', m, how)
    requires Spent(s') == match m case Part(id) => Spent(s) + {id} case _ => Spent(s)
    requires t in s'.threads && s'.threads == s.threads[t := s'.threads[t]]
    requires m.Join? ==> t in s.threads && InLimbo(s.threads[t]) && s.threads[t].id == m.id
    requires KeepsLimbo(s, t, m, s'.threads[t])
    requires u in s'.threads && InLimbo(s'.threads[u])
    ensures s'.threads[u].id !in s'.pool.active && s'.threads[u].id !in Spent(s')
  {
    if u != t {
      assert HeldBy(s.threads[u]) == Some(s.threads[u].id);
      if m.Join? {
        assert HeldBy(s.threads[t]) == Some(m.id);
      }
    }
  }

  lemma CreatedFreshStep(s: Sys, a: Action)
    requires Enabled(s, a) && SingleUse(s)
    ensures CreatedFresh(Apply(s, a))
  {
    StepMoves(s, a);
    SpentStep(s, a);
    MoverHolds(s, a);
    MovesOne(s, a);
    CreatedChange(s, a);
    CreatedFreshMove(s, Apply(s, a), MoveOf(s, a), EndingOf(a), a);
  }

  /** Only Docker's answer to a boot goroutine makes a fresh container. */
  lemma CreatedChange(s: Sys, a: Action)
    requires Enabled(s, a)
    ensures Actor(a).Some? ==> a.t in Apply(s, a).threads
                               && (Apply(s, a).threads[a.t].Created? ==>
                                     MoveOf(s, a) == Make(Apply(s, a).threads[a.t].id))
    ensures Actor(a).None? ==> MoveOf(s, a).Stay?
  {
  }

  lemma CreatedFreshMove(s: Sys, s': Sys, m: Move, how: Ending, a: Action)
    requires SingleUse(s) && PoolMoved(s.pool, s'.pool, m) && LogMoved(s, s', m, how)
    requires Spent(s') == match m case Part(id) => Spent(s) + {id} case _ => Spent(s)
    requires Actor(a).None? ==> s'.threads == s.threads && m.Stay?
    requires Actor(a).Some? ==> a.t in s'.threads && s'.threads == s.threads[a.t := s'.threads[a.t]]
    requires Actor(a).Some? && s'.threads[a.t].Created? ==> m == Make(s'.threads[a.t].id)
    requires m.Enter? ==> Actor(a).Some? && a.t in s.threads && s.threads[a.t] == Created(m.id)
    requires m.Join? ==> m.id in s.hist.left
    requires m.Make? ==> m.id !in s.docker
    ensures CreatedFresh(s')
  {
  }

  lemma FinishedOnceStep(s: Sys, a: Action)
    requires Enabled(s, a) && SingleUse(s)
    ensures FinishedOnce(Apply(s, a))
  {
    StepMoves(s, a);
    forall f | f in s.hist.finished ensures f.id in Spent(s) {}
  }
}
