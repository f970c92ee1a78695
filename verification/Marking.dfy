/**
  Busy and idle marks. MarkBusy runs outside `o.mutex`, MarkIdle inside, so an idle mark can overtake its
  busy mark; and recovered workers were never marked busy at all.
 */
module Marking {
  import opened Collections
  import opened Pool
  import opened Protocol
  import opened Accounting
  import opened Exclusive
  import opened Lifecycle

  /** The marks that one runner has received. */
  function MarksOf(log: seq<Mark>, r: string): seq<bool> {
    if log == [] then []
    else
      var last := log[|log| - 1];
      MarksOf(log[..|log| - 1], r) + if last.runner == r then [last.busy] else []
  }

  function OwesMark(r: string): Pc -> bool {
    (pc: Pc) => pc.OwesBusy? && pc.runner == r
  }

  /** Calls of the runner that have registered a container and not marked it busy yet. */
  ghost function Owed(s: Sys, r: string): nat {
    Count(s.threads, OwesMark(r))
  }

  /** Every registration is marked busy or owed; every ending is marked idle. */
  ghost predicate Marked(s: Sys, r: string) {
    var marks := MarksOf(s.hist.marks, r);
    && Busies(marks) + Owed(s, r) == Registrations(s.hist.registered, r)
    && Idles(marks) == Endings(s.hist.finished, r, Completed) + Endings(s.hist.finished, r, Aborted)
  }

  function NewMarks(s: Sys, a: Action): seq<Mark>
    requires Enabled(s, a)
  {
    match a
    case MarkBusy(t) => [Mark(s.threads[t].id, s.threads[t].runner, true)]
    case _ =>
      match MoveOf(s, a)
      case Part(id) => if id in s.pool.active then [Mark(id, s.pool.active[id].runner, false)] else []
      case _ => []
  }

  lemma EndMarks(s: Sys, a: Action)
    requires Enabled(s, a) && Ends(a)
    ensures Apply(s, a).hist.marks == s.hist.marks + NewMarks(s, a)
  {
  }

  lemma OtherMarks(s: Sys, a: Action)
    requires Enabled(s, a) && !Ends(a)
    ensures Apply(s, a).hist.marks == if a.MarkBusy? then s.hist.marks + NewMarks(s, a) else s.hist.marks
  {
  }

  lemma NoMarks(s: Sys, a: Action)
    requires Enabled(s, a) && !Ends(a) && !a.MarkBusy?
    ensures NewMarks(s, a) == []
  {
  }

  lemma MarksStep(s: Sys, a: Action)
    requires Enabled(s, a)
    ensures Apply(s, a).hist.marks == s.hist.marks + NewMarks(s, a)
  {
    if Ends(a) {
      EndMarks(s, a);
    } else {
      OtherMarks(s, a);
      if !a.MarkBusy? { NoMarks(s, a); }
    }
  }

  lemma MarksAppend(log: seq<Mark>, m: Mark, r: string)
    ensures MarksOf(log + [m], r) == MarksOf(log, r) + if m.runner == r then [m.busy] else []
    ensures Busies(MarksOf(log + [m], r)) == Busies(MarksOf(log, r)) + if m.runner == r && m.busy then 1 else 0
    ensures Idles(MarksOf(log + [m], r)) == Idles(MarksOf(log, r)) + if m.runner == r && !m.busy then 1 else 0
  {
    assert (log + [m])[..|log|] == log;
    var before, after := MarksOf(log, r), MarksOf(log + [m], r);
    if m.runner == r {
      assert after[..|after| - 1] == before;
    } else {
      assert after == before;
    }
  }

  /** Only a registration owes a mark, and only the mark pays for it. */
  lemma OwedChange(s: Sys, a: Action, r: string)
    requires Enabled(s, a)
    ensures a.Admit? ==> Owed(Apply(s, a), r) == Owed(s, r) + if s.threads[a.t].runner == r then 1 else 0
    ensures a.MarkBusy? ==> Owed(Apply(s, a), r) == Owed(s, r) - if s.threads[a.t].runner == r then 1 else 0
    ensures !a.Admit? && !a.MarkBusy? ==> Owed(Apply(s, a), r) == Owed(s, r)
  {
    CountStep(s, a, OwesMark(r));
    if Actor(a).Some? { OwersMove(s, a); }
  }

  lemma OwersMove(s: Sys, a: Action)
    requires Enabled(s, a) && Actor(a).Some?
    ensures a.t in Apply(s, a).threads
    ensures a.t in s.threads && s.threads[a.t].OwesBusy? <==> a.MarkBusy?
    ensures Apply(s, a).threads[a.t].OwesBusy? <==> a.Admit?
    ensures a.Admit? ==> Apply(s, a).threads[a.t] == OwesBusy(s.threads[a.t].runner, s.threads[a.t].id)
  {
  }

  lemma RegistrationsAppend(log: seq<Job>, job: Job, r: string)
    ensures Registrations(log + [job], r) == Registrations(log, r) + if job.runner == r then 1 else 0
  {
    assert (log + [job])[..|log|] == log;
  }

  lemma EndingsAppend(log: seq<Finish>, f: Finish, r: string, how: Ending)
    ensures Endings(log + [f], r, how) == Endings(log, r, how) + if f.runner == r && f.how == how then 1 else 0
  {
    assert (log + [f])[..|log|] == log;
  }

  lemma RegisteredStep(s: Sys, a: Action)
    requires Enabled(s, a)
    ensures a.Admit? ==>
              Apply(s, a).hist.registered == s.hist.registered + [Job(s.threads[a.t].id, s.threads[a.t].runner)]
    ensures !a.Admit? ==> Apply(s, a).hist.registered == s.hist.registered
    ensures a.MarkBusy? || a.Admit? ==> !MoveOf(s, a).Part?
  {
  }

  /** The busy marks of a runner after a step. */
  lemma BusyMarkedStep(s: Sys, a: Action, r: string)
    requires Enabled(s, a)
    ensures var s' := Apply(s, a);
            Busies(MarksOf(s'.hist.marks, r)) + Owed(s', r) - Registrations(s'.hist.registered, r)
            == Busies(MarksOf(s.hist.marks, r)) + Owed(s, r) - Registrations(s.hist.registered, r)
  {
    OwedChange(s, a, r);
    MarksStep(s, a);
    RegisteredStep(s, a);
    var added := NewMarks(s, a);
    if added == [] {
      assert s.hist.marks + added == s.hist.marks;
    } else {
      assert added == [added[0]];
      MarksAppend(s.hist.marks, added[0], r);
    }
    if a.Admit? {
      RegistrationsAppend(s.hist.registered, Job(s.threads[a.t].id, s.threads[a.t].runner), r);
    }
  }

  /** The idle marks of a runner after a step. */
  lemma IdleMarkedStep(s: Sys, a: Action, r: string)
    requires Enabled(s, a)
    ensures var s' := Apply(s, a);
            Idles(MarksOf(s'.hist.marks, r))
              - Endings(s'.hist.finished, r, Completed) - Endings(s'.hist.finished, r, Aborted)
            == Idles(MarksOf(s.hist.marks, r))
               - Endings(s.hist.finished, r, Completed) - Endings(s.hist.finished, r, Aborted)
  {
    MarksStep(s, a);
    StepMoves(s, a);
    var added := NewMarks(s, a);
    if added == [] {
      assert s.hist.marks + added == s.hist.marks;
    } else {
      assert added == [added[0]];
      MarksAppend(s.hist.marks, added[0], r);
    }
    if MoveOf(s, a).Part? {
      var id := MoveOf(s, a).id;
      var f := Finish(id, s.pool.active[id].runner, EndingOf(a));
      EndingsAppend(s.hist.finished, f, r, Completed);
      EndingsAppend(s.hist.finished, f, r, Aborted);
    }
  }

  lemma MarkedStep(s: Sys, a: Action, r: string)
    requires Enabled(s, a) && Marked(s, r)
    ensures Marked(Apply(s, a), r)
  {
    BusyMarkedStep(s, a, r);
    IdleMarkedStep(s, a, r);
  }

  // ----- container by container

  /** The container's runner has been marked busy for it. */
  ghost predicate Busied(log: seq<Mark>, id: Id) {
    exists m <- log :: m.busy && m.id == id
  }

  ghost predicate OwedFor(s: Sys, id: Id) {
    exists t :: t in s.threads && s.threads[t].OwesBusy? && s.threads[t].id == id
  }

  /** Containers that were registered or recovered, whatever became of them. */
  ghost function Placed(s: Sys): set<Id> {
    s.pool.active.Keys + Spent(s)
  }

  /** Marks are about placed containers; an owed mark is the container's first, and not a recovered one's. */
  ghost predicate MarksKnown(s: Sys) {
    && s.hist.start.active.Keys <= Placed(s)
    && (forall m <- s.hist.marks :: m.id in Placed(s))
    && (forall t <- s.threads :: s.threads[t].OwesBusy? ==> FirstMark(s, s.threads[t].id))
  }

  /** An active worker was recovered, has been marked busy, or is owed its mark. */
  ghost predicate ActiveMarked(s: Sys) {
    forall id <- s.pool.active :: id in s.hist.start.active || Busied(s.hist.marks, id) || OwedFor(s, id)
  }

  ghost predicate MarkState(s: Sys) {
    MarksKnown(s) && ActiveMarked(s)
  }

  lemma PlacedStep(s: Sys, a: Action)
    requires Enabled(s, a)
    ensures Placed(Apply(s, a)) == match MoveOf(s, a) case Join(id) => Placed(s) + {id} case _ => Placed(s)
  {
    StepMoves(s, a);
    SpentStep(s, a);
    PlacedMove(s, Apply(s, a), MoveOf(s, a));
  }

  lemma PlacedMove(s: Sys, s': Sys, m: Move)
    requires PoolMoved(s.pool, s'.pool, m)
    requires Spent(s') == match m case Part(id) => Spent(s) + {id} case _ => Spent(s)
    ensures Placed(s') == match m case Join(id) => Placed(s) + {id} case _ => Placed(s)
  {
  }

  /** A registered container is new to both maps. */
  lemma AdmitsNew(s: Sys, a: Action)
    requires Enabled(s, a) && SingleUse(s) && MarksKnown(s) && a.Admit?
    ensures var id := s.threads[a.t].id;
            id !in Placed(s) && id !in s.hist.start.active && !Busied(s.hist.marks, id)
  {
  }

  /** Two calls never owe a mark for the same container. */
  lemma OwersDiffer(s: Sys, t: Tid, u: Tid)
    requires SingleUse(s) && t in s.threads && u in s.threads && t != u
    requires s.threads[t].OwesBusy? && s.threads[u].OwesBusy?
    ensures s.threads[t].id != s.threads[u].id
  {
    assert HeldBy(s.threads[t]) == Some(s.threads[t].id);
    assert HeldBy(s.threads[u]) == Some(s.threads[u].id);
  }

  lemma BusiedAppend(log: seq<Mark>, added: seq<Mark>, id: Id)
    ensures Busied(log + added, id) <==> Busied(log, id) || Busied(added, id)
  {
  }

  lemma NewMarksPlaced(s: Sys, a: Action)
    requires Enabled(s, a) && MarksKnown(s)
    ensures forall m <- NewMarks(s, a) :: m.id in Placed(s)
    ensures forall id :: Busied(NewMarks(s, a), id) <==> a.MarkBusy? && s.threads[a.t].id == id
  {
    StepMoves(s, a);
    if a.MarkBusy? {
      assert NewMarks(s, a)[0].busy && NewMarks(s, a)[0] in NewMarks(s, a);
    }
  }

  /** A container that has been placed in this run and has no busy mark yet. */
  ghost predicate FirstMark(s: Sys, id: Id) {
    id in Placed(s) && id !in s.hist.start.active && !Busied(s.hist.marks, id)
  }

  lemma FirstMarkKept(s: Sys, a: Action, id: Id)
    requires Enabled(s, a) && MarksKnown(s) && FirstMark(s, id) && !(a.MarkBusy? && s.threads[a.t].id == id)
    ensures FirstMark(Apply(s, a), id)
  {
    StepMoves(s, a);
    MarksStep(s, a);
    PlacedStep(s, a);
    NewMarksPlaced(s, a);
    BusiedAppend(s.hist.marks, NewMarks(s, a), id);
  }

  lemma AdmittedFirstMark(s: Sys, a: Action)
    requires Enabled(s, a) && SingleUse(s) && MarksKnown(s) && a.Admit?
    ensures FirstMark(Apply(s, a), s.threads[a.t].id)
  {
    AdmitsNew(s, a);
    StepMoves(s, a);
    PlacedStep(s, a);
  }

  /** A call owes its mark because it registers now, or owed it before. */
  lemma OwerBefore(s: Sys, a: Action, t: Tid)
    requires Enabled(s, a) && t in Apply(s, a).threads && Apply(s, a).threads[t].OwesBusy?
    ensures if a.Admit? && a.t == t then Apply(s, a).threads[t].id == s.threads[t].id
            else t in s.threads && s.threads[t] == Apply(s, a).threads[t] && !(a.MarkBusy? && a.t == t)
  {
    MovesOne(s, a);
    if Actor(a).Some? { OwersMove(s, a); }
  }

  lemma OwedStays(s: Sys, a: Action, t: Tid)
    requires Enabled(s, a) && SingleUse(s) && MarksKnown(s)
    requires t in Apply(s, a).threads && Apply(s, a).threads[t].OwesBusy?
    ensures FirstMark(Apply(s, a), Apply(s, a).threads[t].id)
  {
    OwerBefore(s, a, t);
    if a.Admit? && a.t == t {
      AdmittedFirstMark(s, a);
    } else {
      if a.MarkBusy? { OwersDiffer(s, a.t, t); }
      FirstMarkKept(s, a, s.threads[t].id);
    }
  }

  lemma MarksKnownStep(s: Sys, a: Action)
    requires Enabled(s, a) && SingleUse(s) && MarksKnown(s)
    ensures MarksKnown(Apply(s, a))
  {
    var s' := Apply(s, a);
    StepMoves(s, a);
    MarksStep(s, a);
    PlacedStep(s, a);
    NewMarksPlaced(s, a);
    forall t <- s'.threads | s'.threads[t].OwesBusy? ensures FirstMark(s', s'.threads[t].id) {
      OwedStays(s, a, t);
    }
  }

  lemma JoinOwes(s: Sys, a: Action, id: Id)
    requires Enabled(s, a) && MoveOf(s, a) == Join(id)
    ensures OwedFor(Apply(s, a), id)
  {
    assert a.Admit?;
    OwersMove(s, a);
  }

  lemma StillMarked(s: Sys, a: Action, id: Id)
    requires Enabled(s, a) && MarksKnown(s)
    requires id in s.hist.start.active || Busied(s.hist.marks, id) || OwedFor(s, id)
    ensures var s' := Apply(s, a); id in s'.hist.start.active || Busied(s'.hist.marks, id) || OwedFor(s', id)
  {
    StepMoves(s, a);
    MarksStep(s, a);
    NewMarksPlaced(s, a);
    BusiedAppend(s.hist.marks, NewMarks(s, a), id);
    if t :| t in s.threads && s.threads[t].OwesBusy? && s.threads[t].id == id && !(a.MarkBusy? && a.t == t) {
      OwerAfter(s, a, t);
    }
  }

  /** A call owes its mark until it pays. */
  lemma OwerAfter(s: Sys, a: Action, t: Tid)
    requires Enabled(s, a) && t in s.threads && s.threads[t].OwesBusy? && !(a.MarkBusy? && a.t == t)
    ensures t in Apply(s, a).threads && Apply(s, a).threads[t] == s.threads[t]
  {
    MovesOne(s, a);
    if Actor(a).Some? { OwersMove(s, a); }
  }

  lemma ActiveMarkedStep(s: Sys, a: Action)
    requires Enabled(s, a) && ActiveMarked(s) && MarksKnown(s)
    ensures ActiveMarked(Apply(s, a))
  {
    var s' := Apply(s, a);
    StepMoves(s, a);
    forall id <- s'.pool.active ensures id in s'.hist.start.active || Busied(s'.hist.marks, id) || OwedFor(s', id) {
      if MoveOf(s, a) == Join(id) {
        JoinOwes(s, a, id);
      } else {
        StillMarked(s, a, id);
      }
    }
  }

  // ----- when an idle mark overtakes

  /** No idle mark comes before the busy mark of its container; recovered containers have no busy mark. */
  ghost predicate Orderly(s: Sys) {
    forall i :: 0 <= i < |s.hist.marks| && !s.hist.marks[i].busy && s.hist.marks[i].id !in s.hist.start.active ==>
      Busied(s.hist.marks[..i], s.hist.marks[i].id)
  }

  /** The container that a death, a reaping or an abort takes out of the active workers. */
  function EndsOf(s: Sys, a: Action): Option<Id> {
    match a
    case Deliver(_, id) => if id in s.pool.active then Some(id) else None
    case AbortWorker(_, id) => if id in s.pool.active then Some(id) else None
    case Reap(t) =>
      if t in s.threads && s.threads[t].Reaping? && s.threads[t].id in s.pool.active then Some(s.threads[t].id)
      else None
    case _ => None
  }

  /** A worker ends while the call that registered it still owes its busy mark. */
  ghost predicate Overtakes(s: Sys, a: Action) {
    EndsOf(s, a).Some? && OwedFor(s, EndsOf(s, a).value)
  }

  lemma EndsMove(s: Sys, a: Action)
    requires Enabled(s, a)
    ensures EndsOf(s, a).Some? <==> MoveOf(s, a).Part?
    ensures EndsOf(s, a).Some? ==> MoveOf(s, a).id == EndsOf(s, a).value && EndsOf(s, a).value in s.pool.active
  {
  }

  lemma OrderlyAppend(log: seq<Mark>, m: Mark, recovered: set<Id>)
    requires forall i :: 0 <= i < |log| && !log[i].busy && log[i].id !in recovered ==> Busied(log[..i], log[i].id)
    ensures (forall i :: 0 <= i < |log + [m]| && !(log + [m])[i].busy && (log + [m])[i].id !in recovered ==>
                           Busied((log + [m])[..i], (log + [m])[i].id))
            <==> m.busy || m.id in recovered || Busied(log, m.id)
  {
    var log' := log + [m];
    assert forall i :: 0 <= i <= |log| ==> log'[..i] == log[..i];
    assert log'[..|log|] == log && log'[|log|] == m;
  }

  lemma OrderlyStep(s: Sys, a: Action)
    requires Enabled(s, a) && MarkState(s) && Orderly(s)
    ensures Orderly(Apply(s, a)) <==> !Overtakes(s, a)
  {
    StepMoves(s, a);
    MarksStep(s, a);
    EndsMove(s, a);
    var added := NewMarks(s, a);
    if added == [] {
      assert s.hist.marks + added == s.hist.marks;
    } else {
      OrderlyAppend(s.hist.marks, added[0], s.hist.start.active.Keys);
    }
  }

  // ----- the runner's count since its entry was made

  /** s comes after x in a run: the same workers were recovered, and the marks go on. */
  ghost predicate Later(x: Sys, s: Sys) {
    s.hist.start == x.hist.start && x.hist.marks <= s.hist.marks
  }

  /** The marks that a runner has received since the state x. */
  function MarksSince(x: Sys, s: Sys, r: string): seq<bool> {
    if |x.hist.marks| <= |s.hist.marks| then MarksOf(s.hist.marks[|x.hist.marks|..], r) else []
  }

  /**
    A worker of the runner ends while the entry made in state x counts none, so its idle mark is swallowed:
    the active workers are no more than those from before that are marked, and those that are owed a mark.
   */
  ghost predicate Swallows(x: Sys, s: Sys, a: Action, r: string) {
    && EndsOf(s, a).Some? && s.pool.active[EndsOf(s, a).value].runner == r
    && Count(s.pool.active, Of(r)) + Owed(x, r) <= Count(x.pool.active, Of(r)) + Owed(s, r)
  }

  ghost predicate NoneSwallowed(x: Sys, s: Sys, r: string) {
    Later(x, s) && Swallowed(0, MarksSince(x, s, r)) == 0
  }

  lemma {:induction false} MarksConcat(a: seq<Mark>, b: seq<Mark>, r: string)
    ensures MarksOf(a + b, r) == MarksOf(a, r) + MarksOf(b, r)
    decreases |b|
  {
    if b == [] {
      assert a + b == a;
    } else {
      MarksConcat(a, b[..|b| - 1], r);
      assert (a + b)[..|a + b| - 1] == a + b[..|b| - 1];
    }
  }

  lemma {:induction false} BusiesConcat(a: seq<bool>, b: seq<bool>)
    ensures Busies(a + b) == Busies(a) + Busies(b) && Idles(a + b) == Idles(a) + Idles(b)
    decreases |b|
  {
    if b == [] {
      assert a + b == a;
    } else {
      BusiesConcat(a, b[..|b| - 1]);
      assert (a + b)[..|a + b| - 1] == a + b[..|b| - 1];
    }
  }

  /** Marks received and marks owed account for the change in the active workers. */
  lemma MarksBalance(x: Sys, s: Sys, r: string)
    requires Later(x, s) && Marked(x, r) && Conserved(x, r) && Marked(s, r) && Conserved(s, r)
    ensures var marks := MarksSince(x, s, r);
            Count(s.pool.active, Of(r)) + Owed(x, r)
            == Count(x.pool.active, Of(r)) + Owed(s, r) + Busies(marks) - Idles(marks)
  {
    var n := |x.hist.marks|;
    assert s.hist.marks == x.hist.marks + s.hist.marks[n..];
    MarksConcat(x.hist.marks, s.hist.marks[n..], r);
    BusiesConcat(MarksOf(x.hist.marks, r), MarksSince(x, s, r));
  }

  lemma SinceStep(x: Sys, s: Sys, a: Action, r: string)
    requires Enabled(s, a) && Later(x, s)
    ensures Later(x, Apply(s, a))
    ensures MarksSince(x, Apply(s, a), r) == MarksSince(x, s, r) + MarksOf(NewMarks(s, a), r)
  {
    MarksStep(s, a);
    StepMoves(s, a);
    var n := |x.hist.marks|;
    assert (s.hist.marks + NewMarks(s, a))[n..] == s.hist.marks[n..] + NewMarks(s, a);
    MarksConcat(s.hist.marks[n..], NewMarks(s, a), r);
  }

  lemma SwallowedAppend(marks: seq<bool>, busy: bool)
    ensures Swallowed(0, marks + [busy]) == Swallowed(0, marks) + if !busy && Tally(0, marks) == 0 then 1 else 0
  {
    assert (marks + [busy])[..|marks|] == marks;
  }

  lemma NewMarkOf(s: Sys, a: Action, r: string)
    requires Enabled(s, a)
    ensures MarksOf(NewMarks(s, a), r) == if NewMarks(s, a) != [] && NewMarks(s, a)[0].runner == r
                                          then [NewMarks(s, a)[0].busy] else []
    ensures EndsOf(s, a).Some? <==> NewMarks(s, a) != [] && !NewMarks(s, a)[0].busy
    ensures EndsOf(s, a).Some? ==> NewMarks(s, a)[0].runner == s.pool.active[EndsOf(s, a).value].runner
  {
    EndsMove(s, a);
    var added := NewMarks(s, a);
    if added != [] {
      assert added == [added[0]] && added[..0] == [];
    }
  }

  lemma SwallowedGrows(x: Sys, s: Sys, a: Action, r: string)
    requires Enabled(s, a) && Later(x, s) && NoneSwallowed(x, Apply(s, a), r)
    ensures NoneSwallowed(x, s, r)
  {
    SinceStep(x, s, a, r);
    NewMarkOf(s, a, r);
    if MarksOf(NewMarks(s, a), r) != [] {
      SwallowedAppend(MarksSince(x, s, r), NewMarks(s, a)[0].busy);
    } else {
      assert MarksSince(x, Apply(s, a), r) == MarksSince(x, s, r);
    }
  }

  lemma SwallowedStep(x: Sys, s: Sys, a: Action, r: string)
    requires Enabled(s, a) && NoneSwallowed(x, s, r)
    requires Marked(x, r) && Conserved(x, r) && Marked(s, r) && Conserved(s, r)
    ensures NoneSwallowed(x, Apply(s, a), r) <==> !Swallows(x, s, a, r)
  {
    SinceStep(x, s, a, r);
    NewMarkOf(s, a, r);
    MarksBalance(x, s, r);
    TallyBalance(0, MarksSince(x, s, r));
    if MarksOf(NewMarks(s, a), r) != [] {
      SwallowedAppend(MarksSince(x, s, r), NewMarks(s, a)[0].busy);
    } else {
      assert MarksSince(x, Apply(s, a), r) == MarksSince(x, s, r);
    }
  }
}
