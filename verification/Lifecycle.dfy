/** The seven runner states, the transition table, and every write that any manager makes to them. */
module Lifecycle {

  datatype RunnerState = Registering | Online | Busy | Paused | Draining | Offline | Failed

  /** validTransitions. */
  function AllowedFrom(from: RunnerState): set<RunnerState> {
    match from
    case Registering => {Online, Failed, Offline}
    case Online => {Busy, Paused, Draining, Failed, Offline}
    case Busy => {Online, Draining, Failed}
    case Paused => {Online, Draining}
    case Draining => {Offline}
    case Offline => {Registering}
    case Failed => {Registering, Offline}
  }

  predicate ValidTransition(from: RunnerState, to: RunnerState) {
    to in AllowedFrom(from)
  }

  /** A process entry; the serial number tells one entry of a name from the next. */
  datatype Proc = Proc(state: RunnerState, workers: nat, serial: nat)

  /** The writes to a process entry. Only Transition consults the table. */
  datatype Write =
    | Transition(to: RunnerState)
    | StartEntry(serial: nat)
    | LaunchFailed
    | StopEntry
    | MarkBusy
    | MarkIdle(idle: RunnerState)
    | Freeze
    | Thaw

  predicate MayStart(s: RunnerState) {
    s == Offline || s == Failed || s == Registering
  }

  function Written(p: Proc, w: Write): Proc {
    match w
    case Transition(to) => if ValidTransition(p.state, to) then p.(state := to) else p
    case StartEntry(serial) => if MayStart(p.state) then Proc(Registering, 0, serial) else p
    case LaunchFailed => p.(state := Failed)
    case StopEntry => if p.state == Offline || p.state == Failed then p else p.(state := Draining)
    case MarkBusy =>
      p.(workers := p.workers + 1, state := if p.state == Online || p.state == Paused then Busy else p.state)
    case MarkIdle(idle) =>
      var left := if p.workers > 0 then p.workers - 1 else 0;
      p.(workers := left, state := if left == 0 && p.state == Busy then idle else p.state)
    case Freeze => if p.state == Online then p.(state := Paused) else p
    case Thaw => if p.state == Paused then p.(state := Online) else p
  }

  /** The arguments that the managers really pass. */
  predicate Used(w: Write) {
    && (w.Transition? ==> w.to in {Online, Paused, Registering, Failed, Offline})
    && (w.MarkIdle? ==> w.idle in {Online, Paused})
  }

  /** A write that leaves the entry alone. */
  function NoWrite(p: Proc): Write {
    if p.state == Online then Thaw else Write.Freeze
  }

  // ----- closure

  /** State changes outside the table. */
  predicate DirectEdge(from: RunnerState, to: RunnerState) {
    || (from == Registering && to == Draining)
    || (from == Paused && to == Busy)
    || (from == Busy && to == Paused)
    || (to == Failed && from in {Paused, Draining, Offline})
  }

  predicate Edge(from: RunnerState, to: RunnerState) {
    ValidTransition(from, to) || DirectEdge(from, to)
  }

  lemma WriteIsEdge(p: Proc, w: Write)
    requires Used(w)
    ensures Written(p, w).state == p.state || Edge(p.state, Written(p, w).state)
  {
  }

  /** A write that makes a given change of state. */
  function WriteFor(from: RunnerState, to: RunnerState): Write
    requires from != to && Edge(from, to)
  {
    if to == Draining then StopEntry
    else if to == Busy then MarkBusy
    else if from == Busy && (to == Online || to == Paused) then MarkIdle(to)
    else if to == Failed then LaunchFailed
    else Transition(to)
  }

  /** The table and the direct edges together are exactly the changes that happen: none is missing, none is idle. */
  lemma EdgesAreExact(from: RunnerState, to: RunnerState)
    requires from != to
    ensures (exists p: Proc, w: Write :: p.state == from && Used(w) && Written(p, w).state == to) <==> Edge(from, to)
  {
    forall p: Proc, w: Write | p.state == from && Used(w) && Written(p, w).state == to ensures Edge(from, to) {
      WriteIsEdge(p, w);
    }
    if Edge(from, to) {
      var p, w := Proc(from, 0, 0), WriteFor(from, to);
      assert p.state == from && Used(w) && Written(p, w).state == to;
    }
  }

  /** The table read backwards: from where each transition is made; from elsewhere it changes nothing. */
  lemma TransitionTakesEffect(p: Proc, to: RunnerState)
    ensures var q := Written(p, Transition(to));
            && q.workers == p.workers && q.serial == p.serial && q.state in {p.state, to}
            && (q.state == to <==>
                  p.state == to || match to
                                   case Registering => p.state in {Offline, Failed}
                                   case Online => p.state in {Registering, Busy, Paused}
                                   case Busy => p.state == Online
                                   case Paused => p.state == Online
                                   case Draining => p.state in {Online, Busy, Paused}
                                   case Offline => p.state in {Registering, Online, Draining, Failed}
                                   case Failed => p.state in {Registering, Online, Busy})
  {
  }

  // ----- runs of writes, by any writers in any order

  function After(p: Proc, writes: seq<Write>): Proc
    decreases |writes|
  {
    if writes == [] then p else After(Written(p, writes[0]), writes[1..])
  }

  predicate AllUsed(writes: seq<Write>) {
    forall w <- writes :: Used(w)
  }

  predicate IsLive(s: RunnerState) {
    s == Online || s == Busy || s == Paused
  }

  /** The run passes through Registering after m writes, and through Offline or Failed before that, after k writes. */
  predicate RestartsAt(p: Proc, writes: seq<Write>, k: nat, m: nat) {
    && k < m <= |writes|
    && After(p, writes[..k]).state in {Offline, Failed}
    && After(p, writes[..m]).state == Registering
  }

  lemma AfterCons(p: Proc, writes: seq<Write>, k: nat)
    requires 0 < k <= |writes|
    ensures After(p, writes[..k]) == After(Written(p, writes[0]), writes[1..][..k - 1])
  {
    assert writes[..k][1..] == writes[1..][..k - 1];
  }

  /** Out of Offline or Failed there is no way but through Registering. */
  lemma {:induction false} RegistersFirst(p: Proc, writes: seq<Write>) returns (m: nat)
    requires AllUsed(writes) && p.state in {Offline, Failed} && IsLive(After(p, writes).state)
    ensures 0 < m <= |writes| && After(p, writes[..m]).state == Registering
    decreases |writes|
  {
    var q := Written(p, writes[0]);
    WriteIsEdge(p, writes[0]);
    if q.state == Registering {
      m := 1;
      assert writes[..1][1..] == [];
    } else {
      var m' := RegistersFirst(q, writes[1..]);
      m := m' + 1;
      AfterCons(p, writes, m);
    }
  }

  /** Draining is never undone: back to life means through Offline or Failed, then through Registering. */
  lemma {:induction false} DrainingIsNotUndone(p: Proc, writes: seq<Write>) returns (k: nat, m: nat)
    requires AllUsed(writes) && p.state == Draining && IsLive(After(p, writes).state)
    ensures RestartsAt(p, writes, k, m)
    decreases |writes|
  {
    var q := Written(p, writes[0]);
    WriteIsEdge(p, writes[0]);
    if q.state == Draining {
      var k', m' := DrainingIsNotUndone(q, writes[1..]);
      k, m := k' + 1, m' + 1;
      AfterCons(p, writes, k);
      AfterCons(p, writes, m);
    } else {
      var m' := RegistersFirst(q, writes[1..]);
      k, m := 1, m' + 1;
      assert writes[..1][1..] == [];
      AfterCons(p, writes, m);
    }
  }

  // ----- busy accounting

  predicate BusyHasWorkers(p: Proc) {
    p.state == Busy ==> p.workers > 0
  }

  /** In every run, a busy runner has a worker. */
  lemma {:induction false} BusyImpliesWorkers(p: Proc, writes: seq<Write>)
    requires AllUsed(writes) && BusyHasWorkers(p)
    ensures BusyHasWorkers(After(p, writes))
    decreases |writes|
  {
    if writes != [] {
      assert Used(writes[0]);
      BusyImpliesWorkers(Written(p, writes[0]), writes[1..]);
    }
  }

  /** A mark idle changes the state only when the last worker goes. */
  lemma MarkIdleKeepsBusy(p: Proc, idle: RunnerState)
    ensures var q := Written(p, MarkIdle(idle));
            && q.serial == p.serial && q.workers == (if p.workers > 0 then p.workers - 1 else 0)
            && (q.workers > 0 || p.state != Busy ==> q.state == p.state)
            && (q.workers == 0 && p.state == Busy ==> q.state == idle)
  {
  }

  /** An Online or Paused runner has no worker. */
  predicate IdleHasNone(p: Proc) {
    p.state in {Online, Paused} ==> p.workers == 0
  }

  /** A launch that shows itself as Online on an entry that counts a worker. */
  predicate HidesWork(p: Proc, w: Write) {
    w == Transition(Online) && p.state in {Registering, Busy} && p.workers > 0
  }

  predicate AlwaysIdleHasNone(p: Proc, writes: seq<Write>)
    decreases |writes|
  {
    IdleHasNone(p) && (writes == [] || AlwaysIdleHasNone(Written(p, writes[0]), writes[1..]))
  }

  predicate NeverHidesWork(p: Proc, writes: seq<Write>)
    decreases |writes|
  {
    writes == [] || (!HidesWork(p, writes[0]) && NeverHidesWork(Written(p, writes[0]), writes[1..]))
  }

  lemma IdleHasNoneStep(p: Proc, w: Write)
    requires Used(w) && IdleHasNone(p) && BusyHasWorkers(p)
    ensures IdleHasNone(Written(p, w)) <==> !HidesWork(p, w)
    ensures BusyHasWorkers(Written(p, w))
  {
  }

  /**
    Throughout any writes an Online or Paused runner has no worker exactly when no launch shows itself as
    Online on an entry that counts one. Together with BusyImpliesWorkers: a live runner is Busy if and only
    if it has a worker.
   */
  lemma {:induction false} IdleHasNoneExactly(p: Proc, writes: seq<Write>)
    requires AllUsed(writes) && IdleHasNone(p) && BusyHasWorkers(p)
    ensures AlwaysIdleHasNone(p, writes) <==> NeverHidesWork(p, writes)
    decreases |writes|
  {
    if writes != [] {
      assert Used(writes[0]);
      IdleHasNoneStep(p, writes[0]);
      if IdleHasNone(Written(p, writes[0])) {
        IdleHasNoneExactly(Written(p, writes[0]), writes[1..]);
      }
    }
  }

  /** Marks, freezes and thaws. */
  predicate MarksOrFreezes(w: Write) {
    Used(w) && (w.MarkBusy? || w.MarkIdle? || w.Freeze? || w.Thaw?)
  }

  /** Under marks, freezes and thaws alone a live runner stays live, and is Busy exactly while it has a worker. */
  lemma {:induction false} BusyExactly(p: Proc, writes: seq<Write>)
    requires IsLive(p.state) && (p.state == Busy <==> p.workers > 0) && forall w <- writes :: MarksOrFreezes(w)
    ensures var q := After(p, writes); IsLive(q.state) && (q.state == Busy <==> q.workers > 0)
    decreases |writes|
  {
    if writes != [] {
      assert MarksOrFreezes(writes[0]);
      BusyExactly(Written(p, writes[0]), writes[1..]);
    }
  }

  /** The busy (true) and idle (false) marks among the writes. */
  function Marks(writes: seq<Write>): seq<bool> {
    if writes == [] then []
    else
      var last := writes[|writes| - 1];
      Marks(writes[..|writes| - 1]) + if last.MarkBusy? then [true] else if last.MarkIdle? then [false] else []
  }

  function Busies(marks: seq<bool>): nat {
    if marks == [] then 0 else Busies(marks[..|marks| - 1]) + if marks[|marks| - 1] then 1 else 0
  }

  function Idles(marks: seq<bool>): nat {
    if marks == [] then 0 else Idles(marks[..|marks| - 1]) + if marks[|marks| - 1] then 0 else 1
  }

  predicate NoRestart(writes: seq<Write>) {
    forall w <- writes :: !w.StartEntry?
  }

  /** No idle mark overtakes the busy mark it belongs to. */
  predicate InOrder(workers: nat, marks: seq<bool>) {
    forall k :: 0 <= k <= |marks| ==> Idles(marks[..k]) <= workers + Busies(marks[..k])
  }

  /** The worker count that the marks leave behind. */
  function Tally(workers: nat, marks: seq<bool>): nat {
    if marks == [] then workers
    else
      var before := Tally(workers, marks[..|marks| - 1]);
      if marks[|marks| - 1] then before + 1 else if before > 0 then before - 1 else 0
  }

  /** Idle marks that find no worker and are swallowed. */
  function Swallowed(workers: nat, marks: seq<bool>): nat {
    if marks == [] then 0
    else
      var init := marks[..|marks| - 1];
      Swallowed(workers, init) + if !marks[|marks| - 1] && Tally(workers, init) == 0 then 1 else 0
  }

  lemma {:induction false} AfterLast(p: Proc, writes: seq<Write>)
    requires writes != []
    ensures After(p, writes) == Written(After(p, writes[..|writes| - 1]), writes[|writes| - 1])
    decreases |writes|
  {
    if |writes| == 1 {
      assert writes[1..] == [];
    } else {
      AfterLast(Written(p, writes[0]), writes[1..]);
      assert writes[..|writes| - 1][1..] == writes[1..][..|writes| - 2];
    }
  }

  /** Without a restart, only the marks decide the worker count. */
  lemma {:induction false} WorkersFollowMarks(p: Proc, writes: seq<Write>)
    requires NoRestart(writes)
    ensures After(p, writes).workers == Tally(p.workers, Marks(writes))
    decreases |writes|
  {
    if writes != [] {
      var init, last := writes[..|writes| - 1], writes[|writes| - 1];
      AfterLast(p, writes);
      assert forall w <- init :: w in writes;
      WorkersFollowMarks(p, init);
      assert last in writes;
      if last.MarkBusy? || last.MarkIdle? {
        assert Marks(writes)[..|Marks(writes)| - 1] == Marks(init);
      } else {
        assert Marks(writes) == Marks(init);
      }
    }
  }

  lemma {:induction false} TallyBalance(workers: nat, marks: seq<bool>)
    ensures Tally(workers, marks) == workers + Busies(marks) - Idles(marks) + Swallowed(workers, marks)
    decreases |marks|
  {
    if marks != [] {
      TallyBalance(workers, marks[..|marks| - 1]);
    }
  }

  lemma InOrderInit(workers: nat, marks: seq<bool>)
    requires marks != [] && InOrder(workers, marks)
    ensures InOrder(workers, marks[..|marks| - 1]) && Idles(marks) <= workers + Busies(marks)
  {
    var init := marks[..|marks| - 1];
    forall k | 0 <= k <= |init| ensures Idles(init[..k]) <= workers + Busies(init[..k]) {
      assert marks[..k] == init[..k];
    }
    assert marks[..|marks|] == marks;
  }

  lemma InOrderLast(workers: nat, marks: seq<bool>)
    requires marks != [] && InOrder(workers, marks[..|marks| - 1]) && Idles(marks) <= workers + Busies(marks)
    ensures InOrder(workers, marks)
  {
    var init := marks[..|marks| - 1];
    forall k | 0 <= k <= |marks| ensures Idles(marks[..k]) <= workers + Busies(marks[..k]) {
      assert if k == |marks| then marks[..k] == marks else marks[..k] == init[..k];
    }
  }

  lemma {:induction false} SwallowedOnlyOutOfOrder(workers: nat, marks: seq<bool>)
    ensures Swallowed(workers, marks) == 0 <==> InOrder(workers, marks)
    decreases |marks|
  {
    if marks != [] {
      SwallowedOnlyOutOfOrder(workers, marks[..|marks| - 1]);
      TallyBalance(workers, marks[..|marks| - 1]);
      if InOrder(workers, marks) {
        InOrderInit(workers, marks);
      } else if InOrder(workers, marks[..|marks| - 1]) && Idles(marks) <= workers + Busies(marks) {
        InOrderLast(workers, marks);
      }
    }
  }

  /** ActiveWorkers is marks busy minus marks idle exactly when no idle mark overtakes its busy mark. */
  lemma WorkersExactlyWhenInOrder(p: Proc, writes: seq<Write>)
    requires NoRestart(writes)
    ensures After(p, writes).workers == p.workers + Busies(Marks(writes)) - Idles(Marks(writes))
            <==> InOrder(p.workers, Marks(writes))
  {
    WorkersFollowMarks(p, writes);
    TallyBalance(p.workers, Marks(writes));
    SwallowedOnlyOutOfOrder(p.workers, Marks(writes));
  }

  /** An idle mark that comes before its busy mark leaves the runner busy for good. */
  lemma OvertakenIdleSticks() returns (p: Proc, writes: seq<Write>)
    ensures p == Proc(Online, 0, 0) && writes == [MarkIdle(Online), MarkBusy]
    ensures Marks(writes) == [false, true] && After(p, writes) == Proc(Busy, 1, 0)
  {
    p, writes := Proc(Online, 0, 0), [MarkIdle(Online), MarkBusy];
    assert writes[1..] == [MarkBusy] && writes[1..][1..] == [];
    assert writes[..1] == [MarkIdle(Online)] && writes[..1][..0] == [];
  }
}
