/**
  The orchestrator as a concurrent protocol: the state under `o.mutex`, the Docker daemon, and one
  program counter for every AllocateWorker call, boot goroutine, abort and the event loop. Each
  action is one critical section or one Docker call; Docker's answers are arguments of the action.
 */
module Protocol {
  import opened Collections
  import opened Pool
  import opened Names

  type Tid = nat

  datatype Container = Container(name: string, ip: string, running: bool)

  datatype Pc =
    // AllocateWorker
    | Waiting(runner: string, since: nat)
    | Claimed(runner: string, id: Id, ip: string)
    | Renamed(runner: string, id: Id, ip: string)
    | Checked(runner: string, id: Id, ip: string)
    | Condemned(runner: string, id: Id)
    | Removed(runner: string, id: Id)
    | OwesBusy(runner: string, id: Id)
    | Returned(id: Id)
    | Cancelled
    // boot goroutine
    | Booting
    | Created(id: Id)
    | PostFail
    | PostInsert(id: Id)
    | Reaping(id: Id)
    | BroadcastDue
    // AbortWorker
    | Killing(id: Id)
    // event loop
    | EventIdle
    // any goroutine that must run evaluateCapacity before it goes on
    | Owes(next: Resume)
    | Done

  /** Where a goroutine goes on after evaluateCapacity. */
  datatype Resume = ThenReturn(id: Id) | ThenBroadcast | ThenListen | ThenKill(id: Id)

  datatype Maintainer = Ready | Holding | Asleep(since: nat)

  datatype Job = Job(id: Id, runner: string)

  datatype Ending = Completed | Aborted

  datatype Finish = Finish(id: Id, runner: string, how: Ending)

  /** A busy or idle mark that the status reporter received for a container's runner. */
  datatype Mark = Mark(id: Id, runner: string, busy: bool)

  /** What the theorems need to remember about the run so far. */
  datatype History = History(
    start: Pool,            // the state recoverState left behind
    peakMax: int,           // largest maxWorkers so far
    peakWarm: nat,          // largest warmWorkersConfig so far, at least zero
    peakLimbo: nat,         // most claims in limbo at any boot start
    cancelled: nat,         // AllocateWorker calls that gave up
    left: set<Id>,          // containers that left the warm pool
    registered: seq<Job>,
    finished: seq<Finish>,
    marks: seq<Mark>,
    missed: set<Id>,        // deaths delivered between alive check and registration
    misnamed: set<Id>,      // containers whose rename failed or carries no runner name
    leaked: set<Id>)        // containers given up: unlisted at the start, alive check negative, or removal failed

  datatype Sys = Sys(
    pool: Pool,
    globalPaused: bool,
    maintainer: Maintainer,
    threads: map<Tid, Pc>,
    docker: map<Id, Container>,
    undelivered: set<Id>,
    hist: History)

  datatype Action =
    | Begin(t: Tid, runner: string, id: Id)
    | Wake(t: Tid, id: Id)
    | Cancel(t: Tid)
    | Rename(t: Tid, short: string, ok: bool)
    | Check(t: Tid, ok: bool)
    | Remove(t: Tid, ok: bool)
    | Retry(t: Tid, id: Id)
    | Admit(t: Tid)
    | MarkBusy(t: Tid)
    | EvaluateCapacity(t: Tid)
    | PoolAcquire
    | PoolSpawn(t: Tid)
    | PoolSleep
    | Create(t: Tid, id: Id, ip: string, short: string)
    | BootFail(t: Tid, ok: bool)
    | Insert(t: Tid)
    | BootCheck(t: Tid, ok: bool)
    | Reap(t: Tid)
    | Announce(t: Tid)
    | Die(id: Id)
    | Deliver(t: Tid, id: Id)
    | AbortWorker(t: Tid, id: Id)
    | Kill(t: Tid, ok: bool)
    | UpdateSettings(maxWorkers: int, warmConfig: int)

  // ----- program-counter classes

  /** A claimed container that is in neither map. */
  predicate InLimbo(pc: Pc) {
    pc.Claimed? || pc.Renamed? || pc.Checked? || pc.Condemned? || pc.Removed?
  }

  predicate IsWaiting(pc: Pc) {
    pc.Waiting?
  }

  predicate IsBooting(pc: Pc) {
    pc.Booting? || pc.Created?
  }

  /** An inserted container's boot goroutine that has not broadcast yet. */
  predicate OwesInsertBroadcast(pc: Pc) {
    pc.PostInsert? || pc.Reaping? || pc.BroadcastDue? || pc == Owes(ThenBroadcast)
  }

  predicate OwesEvaluation(pc: Pc) {
    pc.OwesBusy? || pc.Owes?
  }

  // ----- pieces of the actions

  ghost function Limbo(s: Sys): nat {
    Count(s.threads, InLimbo)
  }

  function Go(s: Sys, t: Tid, pc: Pc): Sys {
    s.(threads := s.threads[t := pc])
  }

  predicate At(s: Sys, t: Tid) {
    t in s.threads
  }

  function Running(s: Sys): set<Id> {
    set id | id in s.docker && s.docker[id].running
  }

  function KillContainer(s: Sys, id: Id): Sys {
    if id in Running(s)
    then s.(docker := s.docker[id := s.docker[id].(running := false)], undelivered := s.undelivered + {id})
    else s
  }

  /** Give up a container, whether or not Docker really removed it. */
  function Forget(s: Sys, id: Id): Sys {
    s.(hist := s.hist.(leaked := s.hist.leaked + {id}))
  }

  /** A boot that fails removes the container it has created, if any, and ignores the answer. */
  function CleanUp(s: Sys, pc: Pc, ok: bool): Sys {
    if !pc.Created? then s else if ok then KillContainer(s, pc.id) else Forget(s, pc.id)
  }

  /** The head of the allocation loop: claim any warm container, or sleep on the channel. */
  function TryClaim(s: Sys, t: Tid, runner: string, id: Id): Sys
    requires s.pool.warm != map[] ==> id in s.pool.warm
  {
    if s.pool.warm == map[] then Go(s, t, Waiting(runner, s.pool.gen))
    else Go(s.(pool := Claim(s.pool, id), hist := s.hist.(left := s.hist.left + {id})),
            t, Claimed(runner, id, s.pool.warm[id]))
  }

  /** handleContainerDeath up to the release of the lock. */
  function Mourn(s: Sys, id: Id): Sys {
    var p, h := s.pool, s.hist;
    s.(pool := HandleDeath(p, id),
       hist := h.(finished := if id in p.active then h.finished + [Finish(id, p.active[id].runner, Completed)]
                              else h.finished,
                  marks := if id in p.active then h.marks + [Mark(id, p.active[id].runner, false)] else h.marks,
                  left := if id !in p.active && id in p.warm then h.left + {id} else h.left))
  }

  /** A death of an active worker is followed by a capacity evaluation. */
  function AfterDeath(s: Sys, id: Id, next: Resume): Pc {
    if id in s.pool.active then Owes(next) else Resumed(next)
  }

  function Resumed(next: Resume): Pc {
    match next
    case ThenReturn(id) => Returned(id)
    case ThenBroadcast => BroadcastDue
    case ThenListen => EventIdle
    case ThenKill(id) => Killing(id)
  }

  // ----- the transition relation

  predicate Unlocked(s: Sys) {
    !s.maintainer.Holding?
  }

  predicate Claimable(s: Sys, id: Id) {
    s.pool.warm != map[] ==> id in s.pool.warm
  }

  predicate Enabled(s: Sys, a: Action) {
    match a
    case Begin(t, _, id) => Unlocked(s) && t !in s.threads && Claimable(s, id)
    case Wake(t, id) =>
      Unlocked(s) && At(s, t) && s.threads[t].Waiting? && s.threads[t].since < s.pool.gen && Claimable(s, id)
    case Cancel(t) => Unlocked(s) && At(s, t) && s.threads[t].Waiting?
    case Rename(t, short, _) =>
      At(s, t) && s.threads[t].Claimed? && s.threads[t].id in s.docker && IsShortId(short)
    case Check(t, ok) => At(s, t) && s.threads[t].Renamed? && (ok ==> s.threads[t].id in Running(s))
    case Remove(t, _) => At(s, t) && s.threads[t].Condemned?
    case Retry(t, id) => Unlocked(s) && At(s, t) && s.threads[t].Removed? && Claimable(s, id)
    case Admit(t) => Unlocked(s) && At(s, t) && s.threads[t].Checked?
    case MarkBusy(t) => At(s, t) && s.threads[t].OwesBusy?
    case EvaluateCapacity(t) => Unlocked(s) && At(s, t) && s.threads[t].Owes?
    case PoolAcquire => s.maintainer.Ready? || (s.maintainer.Asleep? && s.maintainer.since < s.pool.gen)
    case PoolSpawn(t) => s.maintainer.Holding? && t !in s.threads && MayBoot(s.pool)
    case PoolSleep => s.maintainer.Holding? && !MayBoot(s.pool)
    case Create(t, id, _, short) =>
      At(s, t) && s.threads[t].Booting? && id !in s.docker && IsShortId(short)
    case BootFail(t, _) => Unlocked(s) && At(s, t) && IsBooting(s.threads[t])
    case Insert(t) => Unlocked(s) && At(s, t) && s.threads[t].Created? && s.threads[t].id in s.docker
    case BootCheck(t, ok) => At(s, t) && s.threads[t].PostInsert? && (ok ==> s.threads[t].id in Running(s))
    case Reap(t) => Unlocked(s) && At(s, t) && s.threads[t].Reaping?
    case Announce(t) => Unlocked(s) && At(s, t) && (s.threads[t].BroadcastDue? || s.threads[t].PostFail?)
    case Die(id) => id in Running(s)
    case Deliver(t, id) =>
      Unlocked(s) && At(s, t) && s.threads[t].EventIdle? && id in s.docker && !s.docker[id].running
    case AbortWorker(t, _) => Unlocked(s) && t !in s.threads
    case Kill(t, _) => At(s, t) && s.threads[t].Killing?
    case UpdateSettings(_, _) => Unlocked(s)
  }

  ghost function Apply(s: Sys, a: Action): Sys
    requires Enabled(s, a)
  {
    var p, h := s.pool, s.hist;
    match a
    case Begin(t, runner, id) =>
      TryClaim(s.(pool := Broadcast(p.(pending := p.pending + 1))), t, runner, id)
    case Wake(t, id) =>
      TryClaim(s, t, s.threads[t].runner, id)
    case Cancel(t) =>
      Go(s.(pool := p.(pending := p.pending - 1), hist := h.(cancelled := h.cancelled + 1)), t, Cancelled)
    case Rename(t, short, ok) =>
      var Claimed(runner, id, ip) := s.threads[t];
      var named := if ok then s.docker[id].(name := ActiveName(runner, short)) else s.docker[id];
      Go(s.(docker := s.docker[id := named],
            hist := h.(misnamed := if ok && runner != "" then h.misnamed else h.misnamed + {id})),
         t, Renamed(runner, id, ip))
    case Check(t, ok) =>
      var Renamed(runner, id, ip) := s.threads[t];
      Go(s, t, if ok then Checked(runner, id, ip) else Condemned(runner, id))
    case Remove(t, ok) =>
      var Condemned(runner, id) := s.threads[t];
      Go(if ok then KillContainer(s, id) else s, t, Removed(runner, id))
    case Retry(t, id) =>
      var pc := s.threads[t];
      TryClaim(Forget(s, pc.id).(pool := p.(pending := p.pending + 1)), t, pc.runner, id)
    case Admit(t) =>
      var Checked(runner, id, ip) := s.threads[t];
      Go(s.(pool := Register(p, id, ip, runner),
            hist := h.(registered := h.registered + [Job(id, runner)])),
         t, OwesBusy(runner, id))
    case MarkBusy(t) =>
      var OwesBusy(runner, id) := s.threads[t];
      Go(s.(hist := h.(marks := h.marks + [Mark(id, runner, true)])), t, Owes(ThenReturn(id)))
    case EvaluateCapacity(t) =>
      var q := Evaluate(p);
      Go(s.(pool := q, globalPaused := if q.paused != p.paused then q.paused else s.globalPaused),
         t, Resumed(s.threads[t].next))
    case PoolAcquire =>
      s.(maintainer := Holding)
    case PoolSpawn(t) =>
      Go(s.(pool := p.(booting := p.booting + 1), hist := h.(peakLimbo := Max(h.peakLimbo, Limbo(s)))), t, Booting)
    case PoolSleep =>
      s.(maintainer := Asleep(p.gen))
    case Create(t, id, ip, short) =>
      Go(s.(docker := s.docker[id := Container(WarmName(short), ip, true)]), t, Created(id))
    case BootFail(t, ok) =>
      Go(CleanUp(s, s.threads[t], ok).(pool := p.(booting := p.booting - 1)), t, PostFail)
    case Insert(t) =>
      var id := s.threads[t].id;
      Go(s.(pool := p.(booting := p.booting - 1, warm := p.warm[id := s.docker[id].ip])), t, PostInsert(id))
    case BootCheck(t, ok) =>
      Go(s, t, if ok then BroadcastDue else Reaping(s.threads[t].id))
    case Reap(t) =>
      var id := s.threads[t].id;
      Go(Mourn(Forget(s, id), id), t, AfterDeath(s, id, ThenBroadcast))
    case Announce(t) =>
      Go(s.(pool := Broadcast(p)), t, Done)
    case Die(id) =>
      KillContainer(s, id)
    case Deliver(t, id) =>
      var s' := s.(undelivered := s.undelivered - {id},
                   hist := h.(missed := if IsChecked(s, id) then h.missed + {id} else h.missed));
      Go(Mourn(s', id), t, AfterDeath(s, id, ThenListen))
    case AbortWorker(t, id) =>
      Go(s.(pool := Abort(p, id),
            hist := h.(finished := if id in p.active then h.finished + [Finish(id, p.active[id].runner, Aborted)]
                                   else h.finished,
                       marks := if id in p.active then h.marks + [Mark(id, p.active[id].runner, false)]
                                else h.marks)),
         t, Owes(ThenKill(id)))
    case Kill(t, ok) =>
      var id := s.threads[t].id;
      Go(if ok then KillContainer(s, id) else Forget(s, id), t, Done)
    case UpdateSettings(maxWorkers, warmConfig) =>
      s.(pool := Settings(p, maxWorkers, warmConfig),
         hist := h.(peakMax := Max(h.peakMax, maxWorkers), peakWarm := Max(h.peakWarm, warmConfig)))
  }

  /** Some call has seen the container alive and has not registered it yet. */
  ghost predicate IsChecked(s: Sys, id: Id) {
    exists t :: t in s.threads && s.threads[t].Checked? && s.threads[t].id == id
  }

  // ----- runs

  /** Every container is named as a warm or as an active one. */
  predicate HasPrefix(name: string) {
    IsWarmName(name) || IsActiveName(name)
  }

  /**
    What NewOrchestrator hands over: recovered containers, an event loop and an idle maintainer. If the
    containers could not be listed, those that run are lost from the start.
   */
  ghost predicate Init(s: Sys) {
    && s.pool.booting == 0 && s.pool.pending == 0 && !s.pool.paused && !s.globalPaused
    && s.maintainer == Ready
    && s.threads == map[0 := EventIdle]
    && s.pool.warm.Keys !! s.pool.active.Keys
    && s.pool.warm.Keys + s.pool.active.Keys <= s.docker.Keys
    && IndexAgrees(s.pool.active, s.pool.listeners)
    && s.pool.warm.Keys + s.pool.active.Keys <= Running(s) + s.undelivered
    && Running(s) <= s.pool.warm.Keys + s.pool.active.Keys + s.hist.leaked
    && (forall id <- s.hist.leaked :: id in s.docker && HasPrefix(s.docker[id].name))
    && (forall id <- s.pool.warm :: IsWarmName(s.docker[id].name) && s.docker[id].ip == s.pool.warm[id])
    && (forall id <- s.pool.active :: NamedFor(s.docker[id], s.pool.active[id].runner, s.pool.active[id].ip))
    && s.hist == History(s.pool, s.pool.maxWorkers, Max(0, s.pool.warmConfig), 0, 0, {}, [], [], [], {}, {},
                         s.hist.leaked)
  }

  predicate NamedFor(c: Container, runner: string, ip: string) {
    IsActiveName(c.name) && ParseRunner(c.name) == runner && c.ip == ip
  }

  ghost predicate Legal(s: Sys, run: seq<Action>)
    decreases |run|
  {
    run == [] || (Enabled(s, run[0]) && Legal(Apply(s, run[0]), run[1..]))
  }

  ghost function Exec(s: Sys, run: seq<Action>): Sys
    requires Legal(s, run)
    decreases |run|
  {
    if run == [] then s else Exec(Apply(s, run[0]), run[1..])
  }

  // ----- what a step does to the containers and to the program counters

  /** The thread an action moves, if any. */
  function Actor(a: Action): Option<Tid> {
    if a.PoolAcquire? || a.PoolSleep? || a.Die? || a.UpdateSettings? then None else Some(a.t)
  }

  lemma ClaimMovesOne(s: Sys, a: Action)
    requires Enabled(s, a) && Claims(a)
    ensures a.t in Apply(s, a).threads && Apply(s, a).threads == s.threads[a.t := Apply(s, a).threads[a.t]]
  {
  }

  lemma EndMovesOne(s: Sys, a: Action)
    requires Enabled(s, a) && Ends(a)
    ensures a.t in Apply(s, a).threads && Apply(s, a).threads == s.threads[a.t := Apply(s, a).threads[a.t]]
  {
  }

  lemma OtherMovesOne(s: Sys, a: Action)
    requires Enabled(s, a) && !Claims(a) && !Ends(a) && Actor(a).Some?
    ensures a.t in Apply(s, a).threads && Apply(s, a).threads == s.threads[a.t := Apply(s, a).threads[a.t]]
  {
  }

  lemma MovesNone(s: Sys, a: Action)
    requires Enabled(s, a) && Actor(a).None?
    ensures Apply(s, a).threads == s.threads
  {
  }

  /** An action moves at most its own program counter. */
  lemma MovesOne(s: Sys, a: Action)
    requires Enabled(s, a)
    ensures Actor(a).None? ==> Apply(s, a).threads == s.threads
    ensures Actor(a).Some? ==> a.t in Apply(s, a).threads
                               && Apply(s, a).threads == s.threads[a.t := Apply(s, a).threads[a.t]]
  {
    if Actor(a).None? {
      MovesNone(s, a);
    } else if Claims(a) {
      ClaimMovesOne(s, a);
    } else if Ends(a) {
      EndMovesOne(s, a);
    } else {
      OtherMovesOne(s, a);
    }
  }

  /** How a step changes the number of program counters in a class. */
  lemma CountStep(s: Sys, a: Action, p: Pc -> bool)
    requires Enabled(s, a)
    ensures Actor(a).None? ==> Count(Apply(s, a).threads, p) == Count(s.threads, p)
    ensures Actor(a).Some? ==>
              a.t in Apply(s, a).threads
              && Count(Apply(s, a).threads, p) == Count(s.threads, p)
                   - (if a.t in s.threads && p(s.threads[a.t]) then 1 else 0)
                   + (if p(Apply(s, a).threads[a.t]) then 1 else 0)
  {
    MovesOne(s, a);
    if Actor(a).Some? {
      CountUpdate(s.threads, a.t, Apply(s, a).threads[a.t], p);
    }
  }

  /** How an action moves a container between the places that can hold one. */
  datatype Move =
    | Leave(id: Id)   // claimed, or found dead in the warm pool
    | Enter(id: Id)   // inserted into the warm pool
    | Join(id: Id)    // registered as active
    | Part(id: Id)    // active no more: completed or aborted
    | Make(id: Id)    // created by Docker
    | Stay

  function MoveOf(s: Sys, a: Action): Move
    requires Enabled(s, a)
  {
    match a
    case Begin(_, _, id) => if s.pool.warm != map[] then Leave(id) else Stay
    case Wake(_, id) => if s.pool.warm != map[] then Leave(id) else Stay
    case Retry(_, id) => if s.pool.warm != map[] then Leave(id) else Stay
    case Admit(t) => Join(s.threads[t].id)
    case Create(_, id, _, _) => Make(id)
    case Insert(t) => Enter(s.threads[t].id)
    case Reap(t) => DeathMove(s, s.threads[t].id)
    case Deliver(_, id) => DeathMove(s, id)
    case AbortWorker(_, id) => if id in s.pool.active then Part(id) else Stay
    case _ => Stay
  }

  function DeathMove(s: Sys, id: Id): Move {
    if id in s.pool.active then Part(id) else if id in s.pool.warm then Leave(id) else Stay
  }

  function EndingOf(a: Action): Ending {
    if a.AbortWorker? then Aborted else Completed
  }

  function WarmAfter(warm: set<Id>, m: Move): set<Id> {
    match m case Leave(id) => warm - {id} case Enter(id) => warm + {id} case _ => warm
  }

  function ActiveAfter(active: set<Id>, m: Move): set<Id> {
    match m case Join(id) => active + {id} case Part(id) => active - {id} case _ => active
  }

  /** The two maps after a step, by the container that moved. */
  ghost predicate PoolMoved(p: Pool, p': Pool, m: Move) {
    && p'.warm.Keys == WarmAfter(p.warm.Keys, m)
    && p'.active.Keys == ActiveAfter(p.active.Keys, m)
    && (forall id <- p'.warm :: m != Enter(id) ==> id in p.warm && p'.warm[id] == p.warm[id])
    && (forall id <- p'.active :: m != Join(id) ==> id in p.active && p'.active[id] == p.active[id])
    && (m.Leave? ==> m.id in p.warm)
    && (m.Part? ==> m.id in p.active)
  }

  /** The logs and the known containers after a step. */
  ghost predicate LogMoved(s: Sys, s': Sys, m: Move, how: Ending) {
    var h, h' := s.hist, s'.hist;
    && h'.left == (if m.Leave? then h.left + {m.id} else h.left)
    && s'.docker.Keys == (if m.Make? then s.docker.Keys + {m.id} else s.docker.Keys)
    && h'.finished == (if m.Part? && m.id in s.pool.active
                       then h.finished + [Finish(m.id, s.pool.active[m.id].runner, how)] else h.finished)
    && h'.start == h.start
  }

  /** The three actions that run the head of the allocation loop. */
  predicate Claims(a: Action) {
    a.Begin? || a.Wake? || a.Retry?
  }

  /** The three actions that take a container out because it is dead or not wanted. */
  predicate Ends(a: Action) {
    a.Deliver? || a.Reap? || a.AbortWorker?
  }

  /** The maps after the head of the allocation loop. */
  lemma ClaimMaps(s: Sys, a: Action)
    requires Enabled(s, a) && Claims(a)
    ensures var p, p' := s.pool, Apply(s, a).pool;
            p'.active == p.active && p'.warm == if p.warm == map[] then p.warm else p.warm - {a.id}
  {
    if s.pool.warm == map[] {
      NothingToClaim(s, a);
    }
  }

  lemma NothingToClaim(s: Sys, a: Action)
    requires Enabled(s, a) && Claims(a) && s.pool.warm == map[]
    ensures Apply(s, a).pool.active == s.pool.active && Apply(s, a).pool.warm == s.pool.warm
  {
  }

  lemma ClaimMove(s: Sys, a: Action)
    requires Enabled(s, a) && Claims(a)
    ensures MoveOf(s, a) == if s.pool.warm == map[] then Stay else Leave(a.id)
    ensures s.pool.warm != map[] ==> a.id in s.pool.warm
  {
  }

  lemma ClaimPoolMoves(s: Sys, a: Action)
    requires Enabled(s, a) && Claims(a)
    ensures PoolMoved(s.pool, Apply(s, a).pool, MoveOf(s, a))
  {
    ClaimMaps(s, a);
    ClaimMove(s, a);
  }

  lemma ClaimLogMoves(s: Sys, a: Action)
    requires Enabled(s, a) && Claims(a)
    ensures LogMoved(s, Apply(s, a), MoveOf(s, a), EndingOf(a))
  {
  }

  lemma EndPoolMoves(s: Sys, a: Action)
    requires Enabled(s, a) && Ends(a)
    ensures PoolMoved(s.pool, Apply(s, a).pool, MoveOf(s, a))
  {
  }

  lemma EndLogMoves(s: Sys, a: Action)
    requires Enabled(s, a) && Ends(a)
    ensures LogMoved(s, Apply(s, a), MoveOf(s, a), EndingOf(a))
  {
  }

  lemma MapsKept(s: Sys, a: Action)
    requires Enabled(s, a) && !Claims(a) && !Ends(a) && !a.Admit? && !a.Insert?
    ensures Apply(s, a).pool.warm == s.pool.warm && Apply(s, a).pool.active == s.pool.active
    ensures MoveOf(s, a).Stay? || MoveOf(s, a).Make?
  {
  }

  lemma PlacePoolMoves(s: Sys, a: Action)
    requires Enabled(s, a) && (a.Admit? || a.Insert?)
    ensures PoolMoved(s.pool, Apply(s, a).pool, MoveOf(s, a))
  {
  }

  lemma OtherPoolMoves(s: Sys, a: Action)
    requires Enabled(s, a) && !Claims(a) && !Ends(a)
    ensures PoolMoved(s.pool, Apply(s, a).pool, MoveOf(s, a))
  {
    if a.Admit? || a.Insert? {
      PlacePoolMoves(s, a);
    } else {
      MapsKept(s, a);
    }
  }

  lemma OtherLogMoves(s: Sys, a: Action)
    requires Enabled(s, a) && !Claims(a) && !Ends(a)
    ensures LogMoved(s, Apply(s, a), MoveOf(s, a), EndingOf(a))
  {
  }

  lemma StepMoves(s: Sys, a: Action)
    requires Enabled(s, a)
    ensures PoolMoved(s.pool, Apply(s, a).pool, MoveOf(s, a))
    ensures LogMoved(s, Apply(s, a), MoveOf(s, a), EndingOf(a))
  {
    if Claims(a) {
      ClaimPoolMoves(s, a);
      ClaimLogMoves(s, a);
    } else if Ends(a) {
      EndPoolMoves(s, a);
      EndLogMoves(s, a);
    } else {
      OtherPoolMoves(s, a);
      OtherLogMoves(s, a);
    }
  }

  /** The sizes of the two maps after a step. */
  lemma StepSizes(s: Sys, a: Action)
    requires Enabled(s, a)
    ensures var p, p', m := s.pool, Apply(s, a).pool, MoveOf(s, a);
            && |p'.warm| == |p.warm| + (if m.Leave? then -1 else if m.Enter? && m.id !in p.warm then 1 else 0)
            && |p'.active| == |p.active| + (if m.Part? then -1 else if m.Join? && m.id !in p.active then 1 else 0)
  {
    StepMoves(s, a);
    MoveSizes(s.pool, Apply(s, a).pool, MoveOf(s, a));
  }

  lemma MoveSizes(p: Pool, p': Pool, m: Move)
    requires PoolMoved(p, p', m)
    ensures |p'.warm| == |p.warm| + (if m.Leave? then -1 else if m.Enter? && m.id !in p.warm then 1 else 0)
    ensures |p'.active| == |p.active| + (if m.Part? then -1 else if m.Join? && m.id !in p.active then 1 else 0)
  {
    assert |p.warm| == |p.warm.Keys| && |p'.warm| == |p'.warm.Keys|;
    assert |p.active| == |p.active.Keys| && |p'.active| == |p'.active.Keys|;
    if !m.Stay? {
      SizeWith(p.warm.Keys, m.id);
      SizeWith(p.active.Keys, m.id);
    }
  }

  lemma SizeWith(ids: set<Id>, id: Id)
    ensures |ids + {id}| == |ids| + if id in ids then 0 else 1
    ensures |ids - {id}| == |ids| - if id in ids then 1 else 0
  {
    assert id in ids ==> ids + {id} == ids;
    assert id !in ids ==> ids - {id} == ids;
  }
}
