/**
  One standalone runner as a protocol with any number of Starts: BaseManager.Start accepts a Registering
  runner, whose earlier Start or goroutine may still be at work. All of them share the runner's process entry
  and its entry in listenerData, whichever of them made it.
 */
module StandaloneRuns {
  import opened Collections
  import opened Lifecycle
  import opened Standalone

  /** Where a Start, or the goroutine it leaves behind, stands. */
  datatype Stage =
    | Starting                // the entry is made; the environment is set up
    | Prepared                // its ListenerData is stored; about to launch
    | Spawned(pgid: nat)      // the process runs, launchListener has not taken the lock
    | Installed(frozen: bool) // recorded; the transition to Online or Paused is owed
    | Watching                // waiting for the process to exit
    | Exited(failed: bool)    // it exited; IsDraining not read yet
    | Reading(again: bool)    // decided; the ListenerData is not read yet
    | Leaving(all: bool)      // the transition to Offline is owed
    | Clearing(all: bool)     // the last section is owed: it clears the cancel channel or both fields
    | Retrying                // the transition to Registering is owed
    | Arming                  // the cancel channel is owed
    | Backoff(channel: nat)   // asleep between two attempts
    | Expired                 // the backoff is over; about to launch again
    | Failing                 // the launch failed; the transition to Failed is owed
    | Refused                 // Start owes its own write of Failed

  /** process is the group of the live listener, data the ListenerData that the goroutine has read last. */
  datatype Thread = Thread(first: bool, stage: Stage, process: Option<nat>, data: Option<nat>)

  /** Start number k makes the entry with serial k and the ListenerData number k. */
  datatype Runner = Runner(
    proc: Proc,
    threads: map<nat, Thread>,
    heap: map<nat, Listener>,
    current: Option<nat>,
    next: nat,
    paused: bool,
    closed: set<nat>,
    nextPgid: nat,
    nextChannel: nat)

  datatype Act =
    | Start
    | PrepareFails(k: nat)
    | Prepare(k: nat)
    | Spawn(k: nat)
    | SpawnFails(k: nat)
    | Install(k: nat, stopped: bool)
    | Announce(k: nat)
    | Exit(k: nat)
    | Notice(k: nat, failed: bool)
    | Decide(k: nat, again: bool)
    | Read(k: nat)
    | Leave(k: nat)
    | Clear(k: nat)
    | Reregister(k: nat)
    | Arm(k: nat)
    | Expire(k: nat)
    | SeeCancel(k: nat)
    | Report(k: nat)
    | StartFails(k: nat)
    | Stop
    | Halt
    | Lock(active: bool, ok: set<nat>)
    | Unlock(ok: set<nat>)
    | JobBegins
    | JobEnds

  /** What the map holds for the runner; a missing entry reads as an empty one. */
  function Data(r: Runner, d: Option<nat>): Listener {
    if d.Some? && d.value in r.heap then r.heap[d.value] else NO_LISTENER
  }

  function Store(r: Runner, d: Option<nat>, l: Listener): Runner {
    if d.Some? && d.value in r.heap then r.(heap := r.heap[d.value := l]) else r
  }

  function Move(r: Runner, k: nat, t: Thread): Runner {
    r.(threads := r.threads[k := t])
  }

  predicate ByThread(a: Act) {
    !a.Start? && !a.Stop? && !a.Halt? && !a.Lock? && !a.Unlock? && !a.JobBegins? && !a.JobEnds?
  }

  predicate Enabled(r: Runner, a: Act) {
    if a.Start? then MayStart(r.proc.state)
    else ByThread(a) ==> a.k in r.threads && MayMove(r, r.threads[a.k], a)
  }

  predicate MayMove(r: Runner, t: Thread, a: Act) {
    match a
    case PrepareFails(_) => t.stage.Starting?
    case Prepare(_) => t.stage.Starting?
    case Spawn(_) => t.stage.Prepared? || t.stage.Expired?
    case SpawnFails(_) => t.stage.Prepared? || t.stage.Expired?
    case Install(_, _) => t.stage.Spawned?
    case Announce(_) => t.stage.Installed?
    case Exit(_) => t.process.Some?
    case Notice(_, _) => t.stage.Watching? && t.process.None?
    case Decide(_, _) => t.stage.Exited?
    case Read(_) => t.stage.Reading?
    case Leave(_) => t.stage.Leaving?
    case Clear(_) => t.stage.Clearing?
    case Reregister(_) => t.stage.Retrying?
    case Arm(_) => t.stage.Arming?
    case Expire(_) => t.stage.Backoff?
    case SeeCancel(_) => t.stage.Backoff? && t.stage.channel in r.closed
    case Report(_) => t.stage.Failing?
    case StartFails(_) => t.stage.Refused?
    case _ => false
  }

  /** The locked section of launchListener: it records into what the map holds now. */
  function Installing(r: Runner, k: nat, stopped: bool): Runner
    requires k in r.threads && r.threads[k].stage.Spawned?
  {
    var t := r.threads[k];
    var l := Data(r, r.current);
    var outcome := LaunchOutcome(l, r.closed, r.paused, stopped);
    Move(Store(r, r.current, Recorded(l, outcome, t.stage.pgid)), k,
         if outcome == Cancelled then t.(stage := Failing, process := None)
         else t.(stage := Installed(outcome == Frozen)))
  }

  /** What the goroutine does to its own stage. */
  function Moved(r: Runner, t: Thread, a: Act): Thread
    requires MayMove(r, t, a)
  {
    match a
    case PrepareFails(_) => t.(stage := Refused)
    case Prepare(k) => t.(stage := Prepared, data := Some(k))
    case Spawn(_) => t.(stage := Spawned(r.nextPgid), process := Some(r.nextPgid))
    case SpawnFails(_) => t.(stage := Failing)
    case Announce(_) => t.(stage := Watching, first := false)
    case Exit(_) => t.(process := None)
    case Notice(_, failed) => t.(stage := Exited(failed))
    case Decide(_, again) => t.(stage := Reading(r.proc.state != Draining && t.stage.failed && again))
    case Read(_) => t.(stage := if t.stage.again then Retrying else Leaving(true), data := r.current)
    case Leave(_) => t.(stage := Clearing(t.stage.all))
    case Reregister(_) => t.(stage := Arming)
    case Arm(_) => t.(stage := Backoff(r.nextChannel))
    case Expire(_) => t.(stage := Expired)
    case SeeCancel(_) => t.(stage := Leaving(false))
    case Report(_) => t.(stage := if t.first then Refused else Clearing(false))
    case _ => t
  }

  /** The write that an action makes to the process entry. */
  function WriteOf(r: Runner, a: Act): Lifecycle.Write
    requires Enabled(r, a)
  {
    var none := NoWrite(r.proc);
    match a
    case Start => StartEntry(r.next)
    case Announce(k) => Transition(if r.threads[k].stage.frozen then Paused else Online)
    case Leave(_) => Transition(Offline)
    case Reregister(_) => Transition(Registering)
    case Report(_) => Transition(Failed)
    case StartFails(k) => if r.proc.serial == k then LaunchFailed else none
    case Stop => StopEntry
    case Lock(active, ok) => if !active && Reached(Data(r, r.current), ok) then Lifecycle.Write.Freeze else none
    case Unlock(ok) => if Reached(Data(r, r.current), ok) then Thaw else none
    case JobBegins => MarkBusy
    case JobEnds => MarkIdle(if r.paused then Paused else Online)
    case _ => none
  }

  /** What an action does beside its write. */
  function Rest(r: Runner, a: Act): Runner
    requires Enabled(r, a)
  {
    match a
    case Start =>
      r.(threads := r.threads[r.next := Thread(true, Starting, None, None)], next := r.next + 1)
    case Prepare(k) =>
      Move(r, k, Moved(r, r.threads[k], a)).(heap := r.heap[k := NO_LISTENER], current := Some(k))
    case Spawn(k) => Move(r, k, Moved(r, r.threads[k], a)).(nextPgid := r.nextPgid + 1)
    case Install(k, stopped) => Installing(r, k, stopped)
    case Clear(k) =>
      var d, all := r.threads[k].data, r.threads[k].stage.all;
      var l := Data(r, d);
      Store(r, d, l.(retryCancel := None, cmd := if all then None else l.cmd)).(threads := r.threads - {k})
    case Arm(k) =>
      var d := r.threads[k].data;
      Move(Store(r, d, Data(r, d).(cmd := None, retryCancel := Some(r.nextChannel))), k, Moved(r, r.threads[k], a)).(
        nextChannel := r.nextChannel + 1)
    case StartFails(k) => r.(threads := r.threads - {k})
    case Halt =>
      var l := Data(r, r.current);
      Store(r, r.current, Halted(l)).(
        closed := if HaltDecision(l).CloseCancel? then r.closed + {l.retryCancel.value} else r.closed)
    case Lock(_, _) => r.(paused := true)
    case Unlock(_) => r.(paused := false)
    case Stop => r
    case JobBegins => r
    case JobEnds => r
    case _ => Move(r, a.k, Moved(r, r.threads[a.k], a))
  }

  function Next(r: Runner, a: Act): Runner
    requires Enabled(r, a)
  {
    Rest(r, a).(proc := Written(r.proc, WriteOf(r, a)))
  }

  /** The first Start has made its entry. */
  const FIRST := Runner(Proc(Registering, 0, 0), map[0 := Thread(true, Starting, None, None)], map[], None, 1, false, {},
                        1, 0)

  // ----- runs

  ghost predicate Legal(r: Runner, run: seq<Act>)
    decreases |run|
  {
    run == [] || (Enabled(r, run[0]) && Legal(Next(r, run[0]), run[1..]))
  }

  ghost function Exec(r: Runner, run: seq<Act>): Runner
    requires Legal(r, run)
    decreases |run|
  {
    if run == [] then r else Exec(Next(r, run[0]), run[1..])
  }

  /** The property holds in every state of the run. */
  ghost predicate Always(r: Runner, run: seq<Act>, holds: Runner -> bool)
    requires Legal(r, run)
    decreases |run|
  {
    holds(r) && (run == [] || Always(Next(r, run[0]), run[1..], holds))
  }

  /** No action of a run is bad in the state in which it happens. */
  ghost predicate Never(r: Runner, run: seq<Act>, bad: (Runner, Act) -> bool)
    requires Legal(r, run)
    decreases |run|
  {
    run == [] || (!bad(r, run[0]) && Never(Next(r, run[0]), run[1..], bad))
  }

  // ----- what every run keeps

  /** The process group that a Start or its goroutine is about to record, or has recorded. */
  function Group(t: Thread): Option<nat> {
    if t.stage.Spawned? then Some(t.stage.pgid) else t.process
  }

  /** Once a Start has stored its ListenerData, it and the map hold one. */
  predicate HasData(t: Thread) {
    !t.stage.Starting? && !t.stage.Refused?
  }

  predicate ThreadOk(t: Thread, heap: map<nat, Listener>, nextPgid: nat, nextChannel: nat) {
    && (HasData(t) ==> t.data.Some? && t.data.value in heap)
    && (t.process.Some? ==> t.stage.Spawned? || t.stage.Installed? || t.stage.Watching?)
    && (t.stage.Spawned? ==> t.process.None? || t.process == Some(t.stage.pgid))
    && (Group(t).Some? ==> Group(t).value < nextPgid)
    && (t.stage.Backoff? ==> t.stage.channel < nextChannel)
  }

  ghost predicate ThreadsOk(r: Runner) {
    && (forall k <- r.threads :: k < r.next && ThreadOk(r.threads[k], r.heap, r.nextPgid, r.nextChannel)
                                 && (HasData(r.threads[k]) ==> r.current.Some?))
    && (r.current.Some? ==> r.current.value in r.heap)
  }

  /** No two of them have the same process group. */
  ghost predicate GroupsDiffer(r: Runner) {
    forall j <- r.threads, k <- r.threads :: j != k && Group(r.threads[j]).Some? ==>
      Group(r.threads[j]) != Group(r.threads[k])
  }

  /** No recorded cancel channel is closed, and no two ListenerData hold the same one. */
  ghost predicate ChannelsOpen(r: Runner) {
    && (forall c <- r.closed :: c < r.nextChannel)
    && (forall d <- r.heap :: r.heap[d].retryCancel.Some? ==>
          r.heap[d].retryCancel.value < r.nextChannel && r.heap[d].retryCancel.value !in r.closed)
    && (forall d <- r.heap, e <- r.heap :: d != e && r.heap[d].retryCancel.Some? ==>
          r.heap[d].retryCancel != r.heap[e].retryCancel)
  }

  ghost predicate Sane(r: Runner) {
    ThreadsOk(r) && GroupsDiffer(r) && ChannelsOpen(r)
  }

  /** An action of a goroutine changes or removes its own thread, and gives it no group but a new one. */
  lemma OneThread(r: Runner, a: Act)
    requires Enabled(r, a) && ByThread(a)
    ensures var threads' := Next(r, a).threads;
            && threads' == (if a.k in threads' then r.threads[a.k := threads'[a.k]] else r.threads - {a.k})
            && (a.k in threads' ==>
                  || Group(threads'[a.k]).None? || Group(threads'[a.k]) == r.threads[a.k].process
                  || Group(threads'[a.k]) == Group(r.threads[a.k])
                  || (Group(threads'[a.k]) == Some(r.nextPgid) && r.nextPgid < Next(r, a).nextPgid))
  {
  }

  /** Most actions of a goroutine do no more to the threads than move it. */
  lemma ThreadAfter(r: Runner, a: Act)
    requires Enabled(r, a) && ByThread(a) && !a.Install? && !a.Clear? && !a.StartFails?
    ensures Next(r, a).threads == r.threads[a.k := Moved(r, r.threads[a.k], a)] && Next(r, a).closed == r.closed
  {
  }

  lemma OtherThreads(r: Runner, a: Act)
    requires Enabled(r, a) && !ByThread(a)
    ensures Next(r, a).threads == if a.Start? then r.threads[r.next := Thread(true, Starting, None, None)] else r.threads
  {
  }

  /** Nothing that has been handed out is handed out again. */
  lemma Grows(r: Runner, a: Act)
    requires Enabled(r, a)
    ensures r.heap.Keys <= Next(r, a).heap.Keys && r.next <= Next(r, a).next
    ensures r.nextPgid <= Next(r, a).nextPgid && r.nextChannel <= Next(r, a).nextChannel
    ensures a.Start? ==> r.next < Next(r, a).next
    ensures a.Spawn? ==> r.nextPgid < Next(r, a).nextPgid
    ensures a.Arm? ==> r.nextChannel < Next(r, a).nextChannel
    ensures Next(r, a).current == if a.Prepare? then Some(a.k) else r.current
    ensures a.Prepare? ==> a.k in Next(r, a).heap
  {
    if a.Halt? {
      HaltCloses(r);
    } else if a.Prepare? || a.Install? || a.Clear? || a.Arm? {
      HeapWritten(r, a);
    } else {
      HeapKept(r, a);
    }
  }

  lemma ThreadStep(r: Runner, a: Act)
    requires Enabled(r, a) && ByThread(a) && a.k in Next(r, a).threads
    requires ThreadOk(r.threads[a.k], r.heap, r.nextPgid, r.nextChannel)
    requires HasData(r.threads[a.k]) ==> r.current.Some? && r.current.value in r.heap
    ensures var r' := Next(r, a);
            ThreadOk(r'.threads[a.k], r'.heap, r'.nextPgid, r'.nextChannel)
            && (HasData(r'.threads[a.k]) ==> r'.current.Some?)
  {
    Grows(r, a);
    if !a.Install? && !a.Clear? && !a.StartFails? {
      ThreadAfter(r, a);
      MovedOk(r, r.threads[a.k], a, Next(r, a));
    }
  }

  /** A goroutine that moves finds what it has read, and uses what it is given. */
  lemma MovedOk(r: Runner, t: Thread, a: Act, r': Runner)
    requires MayMove(r, t, a) && ThreadOk(t, r.heap, r.nextPgid, r.nextChannel)
    requires HasData(t) ==> r.current.Some? && r.current.value in r.heap
    requires r.heap.Keys <= r'.heap.Keys && (a.Prepare? ==> a.k in r'.heap)
    requires r.nextPgid + (if a.Spawn? then 1 else 0) <= r'.nextPgid
    requires r.nextChannel + (if a.Arm? then 1 else 0) <= r'.nextChannel
    ensures ThreadOk(Moved(r, t, a), r'.heap, r'.nextPgid, r'.nextChannel)
    ensures !a.Prepare? && HasData(Moved(r, t, a)) ==> HasData(t)
  {
    if a.Prepare? || a.Spawn? || a.Arm? { SuppliedOk(r, t, a, r'); }
  }

  lemma SuppliedOk(r: Runner, t: Thread, a: Act, r': Runner)
    requires MayMove(r, t, a) && ThreadOk(t, r.heap, r.nextPgid, r.nextChannel) && r.heap.Keys <= r'.heap.Keys
    requires r.nextPgid <= r'.nextPgid && r.nextChannel <= r'.nextChannel
    requires (a.Prepare? && a.k in r'.heap) || (a.Spawn? && r.nextPgid < r'.nextPgid)
             || (a.Arm? && r.nextChannel < r'.nextChannel)
    ensures ThreadOk(Moved(r, t, a), r'.heap, r'.nextPgid, r'.nextChannel)
    ensures !a.Prepare? && HasData(Moved(r, t, a)) ==> HasData(t)
  {
  }

  lemma ThreadsStep(r: Runner, a: Act)
    requires Enabled(r, a) && ThreadsOk(r)
    ensures ThreadsOk(Next(r, a))
  {
    var r' := Next(r, a);
    Grows(r, a);
    if ByThread(a) { OneThread(r, a); } else { OtherThreads(r, a); }
    forall k <- r'.threads
      ensures k < r'.next && ThreadOk(r'.threads[k], r'.heap, r'.nextPgid, r'.nextChannel)
      ensures HasData(r'.threads[k]) ==> r'.current.Some?
    {
      if ByThread(a) && k == a.k { ThreadStep(r, a); }
    }
  }

  lemma GroupsStep(r: Runner, a: Act)
    requires Enabled(r, a) && ThreadsOk(r) && GroupsDiffer(r)
    ensures GroupsDiffer(Next(r, a))
  {
    if ByThread(a) { OneThread(r, a); } else { OtherThreads(r, a); }
  }

  /** The ListenerData that an action writes. */
  function DataOf(r: Runner, a: Act): Option<nat>
    requires Enabled(r, a)
  {
    match a
    case Prepare(k) => Some(k)
    case Install(_, _) => r.current
    case Halt => r.current
    case Clear(k) => r.threads[k].data
    case Arm(k) => r.threads[k].data
    case _ => None
  }

  lemma HeapKept(r: Runner, a: Act)
    requires Enabled(r, a) && !a.Halt? && !a.Prepare? && !a.Install? && !a.Clear? && !a.Arm?
    ensures var r' := Next(r, a);
            r'.heap == r.heap && r'.current == r.current && r'.closed == r.closed && r'.nextChannel == r.nextChannel
  {
  }

  lemma HeapWritten(r: Runner, a: Act)
    requires Enabled(r, a) && (a.Prepare? || a.Install? || a.Clear? || a.Arm?)
    ensures var r', w := Next(r, a), DataOf(r, a);
            && r'.closed == r.closed && r'.nextChannel == (if a.Arm? then r.nextChannel + 1 else r.nextChannel)
            && r'.heap == if w.Some? && w.value in r'.heap then r.heap[w.value := r'.heap[w.value]] else r.heap
    ensures !a.Prepare? ==> Next(r, a).current == r.current
  {
  }

  /** Only a retry records a new channel. */
  lemma ChannelWritten(r: Runner, a: Act)
    requires Enabled(r, a) && (a.Prepare? || a.Install? || a.Clear? || a.Arm?)
    ensures var r', w := Next(r, a), DataOf(r, a);
            w.Some? && w.value in r'.heap ==>
              var c := r'.heap[w.value].retryCancel;
              c.None? || (a.Arm? && c == Some(r.nextChannel)) || (w.value in r.heap && c == r.heap[w.value].retryCancel)
  {
  }

  /** What a halt closes, it forgets. */
  /** Stops and jobs write the entry and do nothing else. */
  lemma WriteOnly(r: Runner, a: Act)
    requires a.Stop? || a.JobBegins? || a.JobEnds?
    ensures Next(r, a) == r.(proc := Written(r.proc, WriteOf(r, a)))
  {
  }

  lemma HaltCloses(r: Runner)
    ensures var r', l := Next(r, Halt), Data(r, r.current);
            && r' == r.(heap := r'.heap, closed := r'.closed)
            && r'.heap == Store(r, r.current, Halted(l)).heap
            && r'.closed == if HaltDecision(l).CloseCancel? then r.closed + {l.retryCancel.value} else r.closed
  {
  }

  lemma HaltKeepsChannels(r: Runner)
    requires ChannelsOpen(r)
    ensures ChannelsOpen(Next(r, Halt))
  {
    HaltCloses(r);
  }

  lemma WritingKeepsChannels(r: Runner, a: Act)
    requires Enabled(r, a) && (a.Prepare? || a.Install? || a.Clear? || a.Arm?) && ChannelsOpen(r)
    ensures ChannelsOpen(Next(r, a))
  {
    HeapWritten(r, a);
    ChannelWritten(r, a);
  }

  lemma ChannelsStep(r: Runner, a: Act)
    requires Enabled(r, a) && ChannelsOpen(r)
    ensures ChannelsOpen(Next(r, a))
  {
    if a.Halt? {
      HaltKeepsChannels(r);
    } else if a.Prepare? || a.Install? || a.Clear? || a.Arm? {
      WritingKeepsChannels(r, a);
    } else {
      HeapKept(r, a);
    }
  }

  lemma SaneStep(r: Runner, a: Act)
    requires Enabled(r, a) && Sane(r)
    ensures Sane(Next(r, a))
  {
    ThreadsStep(r, a);
    GroupsStep(r, a);
    ChannelsStep(r, a);
  }

  lemma {:induction false} SaneRun(r: Runner, run: seq<Act>)
    requires Legal(r, run) && Sane(r)
    ensures Sane(Exec(r, run))
    decreases |run|
  {
    if run != [] {
      SaneStep(r, run[0]);
      SaneRun(Next(r, run[0]), run[1..]);
    }
  }

  /** Where the property holds, exactly the bad actions make it false. */
  ghost predicate Breaks(holds: Runner -> bool, bad: (Runner, Act) -> bool) {
    forall r: Runner, a: Act :: Sane(r) && holds(r) && Enabled(r, a) ==> (holds(Next(r, a)) <==> !bad(r, a))
  }

  lemma {:induction false} ExactRun(r: Runner, run: seq<Act>, holds: Runner -> bool, bad: (Runner, Act) -> bool)
    requires Sane(r) && holds(r) && Legal(r, run) && Breaks(holds, bad)
    ensures Always(r, run, holds) <==> Never(r, run, bad)
    decreases |run|
  {
    if run != [] {
      SaneStep(r, run[0]);
      if holds(Next(r, run[0])) {
        ExactRun(Next(r, run[0]), run[1..], holds, bad);
      }
    }
  }

  /** The cancel check of launchListener never fires, however many Starts there are. */
  lemma {:induction false} CancelCheckNeverFires(run: seq<Act>, r: Runner, stopped: bool)
    requires Legal(FIRST, run) && r == Exec(FIRST, run)
    ensures LaunchOutcome(Data(r, r.current), r.closed, r.paused, stopped) != Cancelled
  {
    SaneRun(FIRST, run);
  }

  // ----- does a halt reach what runs and what sleeps

  /** What a halt has to reach: a recorded live listener, or a retry that sleeps on an open channel. */
  predicate Held(r: Runner, t: Thread) {
    (t.process.Some? && !t.stage.Spawned?) || (t.stage.Backoff? && t.stage.channel !in r.closed)
  }

  /** A halt now would signal this listener, or close this channel. */
  predicate Within(r: Runner, t: Thread) {
    HaltDecision(Data(r, r.current)) == if t.stage.Backoff? then CloseCancel(t.stage.channel)
                                        else SignalGroup(if t.process.Some? then t.process.value else 0)
  }

  ghost predicate AnyHeld(r: Runner) {
    exists k <- r.threads :: Held(r, r.threads[k])
  }

  /** A halt now would reach every recorded listener and every sleeping retry. */
  ghost predicate Controlled(r: Runner) {
    forall k <- r.threads :: Held(r, r.threads[k]) ==> Within(r, r.threads[k])
  }

  /**
    A Start stores a new ListenerData, a launch is recorded, or a goroutine clears the ListenerData that the
    map still holds, beside a listener or a retry of another goroutine; or a retry arms a ListenerData that
    the map does not hold any more, or one that another goroutine needs.
   */
  ghost predicate LosesControl(r: Runner, a: Act) {
    match a
    case Prepare(_) => AnyHeld(r)
    case Install(_, _) => AnyHeld(r)
    case Clear(k) =>
      AnyHeld(r) && k in r.threads && r.threads[k].stage.Clearing? && r.threads[k].data == r.current
      && (r.threads[k].stage.all || Data(r, r.current).cmd.None?)
    case Arm(k) => k in r.threads && (AnyHeld(r) || r.threads[k].data != r.current)
    case _ => false
  }

  lemma ControlStep(r: Runner, a: Act)
    requires Enabled(r, a) && Sane(r) && Controlled(r)
    ensures Controlled(Next(r, a)) <==> !LosesControl(r, a)
  {
    if a.Prepare? || a.Install? || (a.Clear? && r.threads[a.k].data == r.current) {
      OthersKept(r, a);
    } else if a.Arm? {
      ArmControls(r, a.k);
    } else if a.Halt? {
      HaltControls(r);
    } else {
      SameReach(r, a);
    }
  }

  /** An action that does not write the ListenerData of the map puts nothing beyond its reach. */
  lemma SameReach(r: Runner, a: Act)
    requires Enabled(r, a) && Sane(r) && Controlled(r) && !a.Prepare? && !a.Install? && !a.Arm? && !a.Halt?
    requires a.Clear? ==> r.threads[a.k].data != r.current
    ensures Controlled(Next(r, a))
  {
    var r' := Next(r, a);
    SameData(r, a);
    forall j <- r'.threads | Held(r', r'.threads[j]) ensures Within(r', r'.threads[j]) {
      HeldBefore(r, a, j);
    }
  }

  lemma HeldBefore(r: Runner, a: Act, j: nat)
    requires Enabled(r, a) && ThreadsOk(r) && !a.Prepare? && !a.Install? && !a.Arm?
    requires j in Next(r, a).threads && Held(r, Next(r, a).threads[j])
    ensures j in r.threads && Held(r, r.threads[j])
            && (Within(r, r.threads[j]) <==> Within(r, Next(r, a).threads[j]))
  {
    if !ByThread(a) {
      OtherThreads(r, a);
    } else if a.Clear? || a.StartFails? {
      OneThread(r, a);
    } else {
      ThreadAfter(r, a);
      HeldMoved(r, r.threads[a.k], a);
    }
  }

  /** A goroutine that moves without writing holds nothing that it did not hold before. */
  lemma HeldMoved(r: Runner, t: Thread, a: Act)
    requires MayMove(r, t, a) && ThreadOk(t, r.heap, r.nextPgid, r.nextChannel) && !a.Prepare? && !a.Install? && !a.Arm?
    ensures Held(r, Moved(r, t, a)) ==> Held(r, t) && (Within(r, t) <==> Within(r, Moved(r, t, a)))
  {
  }

  lemma SameData(r: Runner, a: Act)
    requires Enabled(r, a) && !a.Prepare? && !a.Install? && !a.Arm? && !a.Halt?
    requires a.Clear? ==> r.threads[a.k].data != r.current
    ensures Data(Next(r, a), Next(r, a).current) == Data(r, r.current) && Next(r, a).closed == r.closed
  {
    if a.Clear? { HeapWritten(r, a); } else { HeapKept(r, a); }
  }

  /** What a halt does not reach was not within reach before. */
  lemma HaltControls(r: Runner)
    requires Sane(r) && Controlled(r)
    ensures Controlled(Next(r, Halt))
  {
    HaltCloses(r);
  }

  lemma OthersKept(r: Runner, a: Act)
    requires Enabled(r, a) && Sane(r) && Controlled(r)
    requires a.Prepare? || a.Install? || (a.Clear? && r.threads[a.k].data == r.current)
    ensures Controlled(Next(r, a)) <==> !LosesControl(r, a)
  {
    var r' := Next(r, a);
    OneThread(r, a);
    ActorAfter(r, a);
    if AnyHeld(r) {
      var j :| j in r.threads && Held(r, r.threads[j]);
      OtherAfter(r, a, j);
      assert j in r'.threads && r'.threads[j] == r.threads[j];
    }
    forall j <- r'.threads | Held(r', r'.threads[j]) && !LosesControl(r, a) ensures Within(r', r'.threads[j]) {
      if j != a.k { OtherAfter(r, a, j); }
    }
  }

  /** The goroutine that writes the ListenerData has nothing to lose by it. */
  lemma ActorAfter(r: Runner, a: Act)
    requires Enabled(r, a) && Sane(r)
    requires a.Prepare? || a.Install? || (a.Clear? && r.threads[a.k].data == r.current)
    ensures !Held(r, r.threads[a.k])
    ensures a.k in Next(r, a).threads && Held(Next(r, a), Next(r, a).threads[a.k]) ==>
              Within(Next(r, a), Next(r, a).threads[a.k])
    ensures Next(r, a).closed == r.closed
  {
  }

  /** And the others, if there are any, lose what was within reach. */
  lemma OtherAfter(r: Runner, a: Act, j: nat)
    requires Enabled(r, a) && Sane(r) && Controlled(r)
    requires a.Prepare? || a.Install? || (a.Clear? && r.threads[a.k].data == r.current)
    requires j in r.threads && Held(r, r.threads[j]) && j != a.k
    ensures Held(Next(r, a), r.threads[j]) && (Within(Next(r, a), r.threads[j]) <==> !LosesControl(r, a))
  {
    assert AnyHeld(r);
  }

  /** The retry that goes to sleep is within reach exactly if the map holds its ListenerData. */
  lemma ArmControls(r: Runner, k: nat)
    requires Enabled(r, Arm(k)) && Sane(r) && Controlled(r)
    ensures Controlled(Next(r, Arm(k))) <==> !LosesControl(r, Arm(k))
  {
    var r' := Next(r, Arm(k));
    assert Held(r', r'.threads[k]);
    if j :| j in r.threads && Held(r, r.threads[j]) {
      assert j != k;
      assert j in r'.threads && r'.threads[j] == r.threads[j] && Held(r', r'.threads[j]);
    }
  }

  /** Every listener and every retry can be stopped by a halt throughout a run exactly when no action loses control. */
  lemma {:induction false} ControlledExactly(run: seq<Act>)
    requires Legal(FIRST, run)
    ensures Always(FIRST, run, Controlled) <==> Never(FIRST, run, LosesControl)
  {
    forall r: Runner, a: Act | Sane(r) && Controlled(r) && Enabled(r, a)
      ensures Controlled(Next(r, a)) <==> !LosesControl(r, a)
    {
      ControlStep(r, a);
    }
    ExactRun(FIRST, run, Controlled, LosesControl);
  }

  // ----- what a goroutine leaves behind

  /**
    A goroutine whose listener has exited clears the ListenerData that the map holds when it looks, even if
    another Start has stored it, and no other.
   */
  lemma ExitClearsTheMap(r: Runner, k: nat)
    requires Enabled(r, Read(k)) && r.threads[k].stage == Reading(false) && r.current.Some? && r.current.value in r.heap
    ensures var r1 := Next(r, Read(k));
            Enabled(r1, Leave(k)) && Enabled(Next(r1, Leave(k)), Clear(k))
            && var r' := Next(Next(r1, Leave(k)), Clear(k));
               && r'.threads == r.threads - {k} && r'.current == r.current
               && r'.heap == r.heap[r.current.value := r.heap[r.current.value].(cmd := None, retryCancel := None)]
  {
    ReadThenLeave(r, k);
    ClearOnly(Next(Next(r, Read(k)), Leave(k)), k);
  }

  lemma ReadThenLeave(r: Runner, k: nat)
    requires k in r.threads && r.threads[k].stage == Reading(false)
    ensures Enabled(Next(r, Read(k)), Leave(k))
    ensures var r' := Next(Next(r, Read(k)), Leave(k));
            && r'.threads == r.threads[k := r.threads[k].(stage := Clearing(true), data := r.current)]
            && r'.heap == r.heap && r'.current == r.current
  {
    ThreadAfter(r, Read(k));
    HeapKept(r, Read(k));
    LeaveOnly(Next(r, Read(k)), k);
  }

  lemma LeaveOnly(r: Runner, k: nat)
    requires k in r.threads && r.threads[k].stage.Leaving?
    ensures var r' := Next(r, Leave(k));
            r'.heap == r.heap && r'.current == r.current
            && r'.threads == r.threads[k := r.threads[k].(stage := Clearing(r.threads[k].stage.all))]
  {
    ThreadAfter(r, Leave(k));
    HeapKept(r, Leave(k));
  }

  lemma ClearOnly(r: Runner, k: nat)
    requires k in r.threads && r.threads[k].stage.Clearing?
    ensures var r', d := Next(r, Clear(k)), r.threads[k].data;
            && r'.threads == r.threads - {k} && r'.current == r.current
            && r'.heap == if d.Some? && d.value in r.heap
                          then r.heap[d.value := r.heap[d.value].(retryCancel := None,
                                 cmd := if r.threads[k].stage.all then None else r.heap[d.value].cmd)]
                          else r.heap
  {
  }

  /** A retry that sees its cancel leaves every recorded process where it is. */
  lemma CancelledRetryKeepsProcesses(r: Runner, k: nat)
    requires Enabled(r, SeeCancel(k))
    ensures var r1 := Next(r, SeeCancel(k));
            Enabled(r1, Leave(k)) && Enabled(Next(r1, Leave(k)), Clear(k))
            && var r' := Next(Next(r1, Leave(k)), Clear(k));
               r'.heap.Keys == r.heap.Keys && forall d <- r.heap :: r'.heap[d].cmd == r.heap[d].cmd
  {
    ThreadAfter(r, SeeCancel(k));
    HeapKept(r, SeeCancel(k));
    LeaveOnly(Next(r, SeeCancel(k)), k);
    ClearOnly(Next(Next(r, SeeCancel(k)), Leave(k)), k);
  }

  /** And so does a relaunch that fails. */
  lemma FailedRelaunchKeepsProcesses(r: Runner, k: nat)
    requires Enabled(r, Report(k)) && !r.threads[k].first
    ensures var r1 := Next(r, Report(k));
            Enabled(r1, Clear(k))
            && var r' := Next(r1, Clear(k));
               r'.heap.Keys == r.heap.Keys && forall d <- r.heap :: r'.heap[d].cmd == r.heap[d].cmd
  {
    ThreadAfter(r, Report(k));
    HeapKept(r, Report(k));
    ClearOnly(Next(r, Report(k)), k);
  }

  // ----- one Start at a time

  /** A Start or its goroutine is at work when another Start comes. */
  predicate StartsBeside(r: Runner, a: Act) {
    a.Start? && r.threads != map[]
  }

  /** The only goroutine made the ListenerData that the map holds, and read it last. */
  ghost predicate Alone(r: Runner) {
    && (forall j <- r.threads, k <- r.threads :: j == k)
    && (forall k <- r.threads :: HasData(r.threads[k]) ==> r.current == Some(k) == r.threads[k].data)
  }

  lemma AloneStep(r: Runner, a: Act)
    requires Enabled(r, a) && Alone(r) && !StartsBeside(r, a)
    ensures Alone(Next(r, a))
  {
    if ByThread(a) { OneThread(r, a); } else { OtherThreads(r, a); }
  }

  lemma AloneControls(r: Runner, a: Act)
    requires Enabled(r, a) && Sane(r) && Alone(r)
    ensures !LosesControl(r, a)
  {
  }

  /** Without overlapping Starts no action loses control: what one Start leaves behind, a halt can stop. */
  lemma {:induction false} AloneIsControlled(r: Runner, run: seq<Act>)
    requires Legal(r, run) && Sane(r) && Alone(r) && Never(r, run, StartsBeside)
    ensures Never(r, run, LosesControl)
    decreases |run|
  {
    if run != [] {
      AloneControls(r, run[0]);
      AloneStep(r, run[0]);
      SaneStep(r, run[0]);
      AloneIsControlled(Next(r, run[0]), run[1..]);
    }
  }

  /** Two goroutines record into, and look at, whatever ListenerData the map holds. */
  ghost predicate NotShared(r: Runner) {
    forall j <- r.threads, k <- r.threads :: HasData(r.threads[j]) && HasData(r.threads[k]) ==> j == k
  }

  ghost predicate Shares(r: Runner, a: Act) {
    a.Prepare? && exists j <- r.threads :: HasData(r.threads[j])
  }

  lemma ShareStep(r: Runner, a: Act)
    requires Enabled(r, a) && Sane(r) && NotShared(r)
    ensures NotShared(Next(r, a)) <==> !Shares(r, a)
  {
    if ByThread(a) {
      OneThread(r, a);
      if Shares(r, a) {
        var j :| j in r.threads && HasData(r.threads[j]);
        assert j in Next(r, a).threads && HasData(Next(r, a).threads[j]) && HasData(Next(r, a).threads[a.k]);
      }
    } else {
      OtherThreads(r, a);
    }
  }

  /** No two goroutines share the runner's entry throughout a run exactly when no Start stores its own beside one. */
  lemma {:induction false} SharedExactly(run: seq<Act>)
    requires Legal(FIRST, run)
    ensures Always(FIRST, run, NotShared) <==> Never(FIRST, run, Shares)
  {
    forall r: Runner, a: Act | Sane(r) && NotShared(r) && Enabled(r, a)
      ensures NotShared(Next(r, a)) <==> !Shares(r, a)
    {
      ShareStep(r, a);
    }
    ExactRun(FIRST, run, NotShared, Shares);
  }

  // ----- the lifecycle, seen from here

  /** The writes of a run, one for each action. */
  ghost function WritesOf(r: Runner, run: seq<Act>): (writes: seq<Lifecycle.Write>)
    requires Legal(r, run)
    ensures |writes| == |run|
    decreases |run|
  {
    if run == [] then [] else [WriteOf(r, run[0])] + WritesOf(Next(r, run[0]), run[1..])
  }

  lemma WriteIsUsed(r: Runner, a: Act)
    requires Enabled(r, a)
    ensures Used(WriteOf(r, a)) && Next(r, a).proc == Written(r.proc, WriteOf(r, a))
  {
  }

  lemma {:induction false} RunIsWrites(r: Runner, run: seq<Act>)
    requires Legal(r, run)
    ensures AllUsed(WritesOf(r, run)) && Exec(r, run).proc == After(r.proc, WritesOf(r, run))
    decreases |run|
  {
    if run != [] {
      WriteIsUsed(r, run[0]);
      RunIsWrites(Next(r, run[0]), run[1..]);
      assert WritesOf(r, run)[1..] == WritesOf(Next(r, run[0]), run[1..]);
    }
  }

  lemma {:induction false} PrefixWrites(r: Runner, run: seq<Act>, k: nat)
    requires Legal(r, run) && k <= |run|
    ensures Legal(r, run[..k]) && WritesOf(r, run[..k]) == WritesOf(r, run)[..k]
    decreases |run|
  {
    if k > 0 {
      PrefixWrites(Next(r, run[0]), run[1..], k - 1);
      assert run[..k][1..] == run[1..][..k - 1];
    }
  }

  /** However many Starts there are, a runner comes back from Draining only through rest and Registering. */
  lemma {:induction false} DrainingIsNotUndoneInRuns(r: Runner, run: seq<Act>) returns (k: nat, j: nat)
    requires Legal(r, run) && r.proc.state == Draining && IsLive(Exec(r, run).proc.state)
    ensures k < j <= |run| && Legal(r, run[..k]) && Legal(r, run[..j])
    ensures Exec(r, run[..k]).proc.state in {Offline, Failed} && Exec(r, run[..j]).proc.state == Registering
  {
    RunIsWrites(r, run);
    k, j := DrainingIsNotUndone(r.proc, WritesOf(r, run));
    PrefixWrites(r, run, k);
    PrefixWrites(r, run, j);
    RunIsWrites(r, run[..k]);
    RunIsWrites(r, run[..j]);
  }

  lemma {:induction false} BusyHasWorkersInRuns(r: Runner, run: seq<Act>)
    requires Legal(r, run) && BusyHasWorkers(r.proc)
    ensures BusyHasWorkers(Exec(r, run).proc)
  {
    RunIsWrites(r, run);
    BusyImpliesWorkers(r.proc, WritesOf(r, run));
  }

  // ----- concrete runs

  lemma {:induction false} Extend(r0: Runner, run: seq<Act>, r: Runner, a: Act)
    requires Legal(r0, run) && r == Exec(r0, run) && Enabled(r, a)
    ensures Legal(r0, run + [a]) && Exec(r0, run + [a]) == Next(r, a)
    decreases |run|
  {
    if run == [] {
      assert [a][1..] == [];
      assert run + [a] == [a];
    } else {
      Extend(Next(r0, run[0]), run[1..], r, a);
      assert (run + [a])[1..] == run[1..] + [a];
    }
  }

  lemma Step(run: seq<Act>, r: Runner, a: Act) returns (run': seq<Act>, r': Runner)
    requires Legal(FIRST, run) && r == Exec(FIRST, run) && Enabled(r, a)
    ensures Legal(FIRST, run') && r' == Exec(FIRST, run') && r' == Next(r, a) && run' == run + [a]
  {
    Extend(FIRST, run, r, a);
    run', r' := run + [a], Next(r, a);
  }

  lemma SpawnOnly(r: Runner, k: nat)
    requires k in r.threads && r.threads[k].stage.Prepared?
    ensures Next(r, Spawn(k))
            == r.(threads := r.threads[k := r.threads[k].(stage := Spawned(r.nextPgid), process := Some(r.nextPgid))],
                  nextPgid := r.nextPgid + 1)
  {
  }

  lemma InstallOnly(r: Runner, k: nat, pgid: nat, d: nat)
    requires k in r.threads && r.threads[k].stage == Spawned(pgid) && !r.paused
    requires r.current == Some(d) && d in r.heap && r.heap[d] == NO_LISTENER
    ensures Next(r, Install(k, false)) == r.(threads := r.threads[k := r.threads[k].(stage := Installed(false))],
                                             heap := r.heap[d := Listener(Some(pgid), pgid, None)])
  {
  }

  /** A first launch without a pause, from the process to its record. */
  lemma LaunchUp(run: seq<Act>, r: Runner, k: nat) returns (run': seq<Act>, r': Runner)
    requires Legal(FIRST, run) && r == Exec(FIRST, run) && k in r.threads && r.threads[k].stage.Prepared? && !r.paused
    requires r.current == Some(k) && k in r.heap && r.heap[k] == NO_LISTENER
    ensures Legal(FIRST, run') && r' == Exec(FIRST, run')
    ensures r' == r.(threads := r.threads[k := r.threads[k].(stage := Installed(false), process := Some(r.nextPgid))],
                     heap := r.heap[k := Listener(Some(r.nextPgid), r.nextPgid, None)], nextPgid := r.nextPgid + 1)
  {
    SpawnOnly(r, k);
    run', r' := Step(run, r, Spawn(k));
    InstallOnly(r', k, r.nextPgid, k);
    run', r' := Step(run', r', Install(k, false));
  }

  /** The first listener is recorded; its Start still owes the transition to Online. */
  lemma FirstInstalled() returns (run: seq<Act>, r: Runner)
    ensures Legal(FIRST, run) && r == Exec(FIRST, run)
    ensures r == Runner(Proc(Registering, 0, 0), map[0 := Thread(true, Installed(false), Some(1), Some(0))],
                        map[0 := Listener(Some(1), 1, None)], Some(0), 1, false, {}, 2, 0)
  {
    run, r := [], FIRST;
    run, r := Step(run, r, Prepare(0));
    assert r.threads == map[0 := Thread(true, Prepared, None, Some(0))] && r.heap == map[0 := NO_LISTENER];
    run, r := LaunchUp(run, r, 0);
  }

  /** A second Start comes before the first has shown its listener. */
  lemma SecondStarted() returns (run: seq<Act>, r: Runner)
    ensures Legal(FIRST, run) && r == Exec(FIRST, run)
    ensures r == Runner(Proc(Online, 0, 1),
                        map[0 := Thread(false, Watching, Some(1), Some(0)), 1 := Thread(true, Starting, None, None)],
                        map[0 := Listener(Some(1), 1, None)], Some(0), 2, false, {}, 2, 0)
  {
    run, r := FirstInstalled();
    run, r := Step(run, r, Start);
    run, r := Step(run, r, Announce(0));
  }

  /** It makes its own ListenerData. */
  lemma SecondPrepared() returns (run: seq<Act>, r: Runner)
    ensures Legal(FIRST, run) && r == Exec(FIRST, run)
    ensures r == Runner(Proc(Online, 0, 1),
                        map[0 := Thread(false, Watching, Some(1), Some(0)), 1 := Thread(true, Prepared, None, Some(1))],
                        map[0 := Listener(Some(1), 1, None), 1 := NO_LISTENER], Some(1), 2, false, {}, 2, 0)
  {
    run, r := SecondStarted();
    run, r := Step(run, r, Prepare(1));
  }

  lemma SecondInstalled() returns (run: seq<Act>, r: Runner)
    ensures Legal(FIRST, run) && r == Exec(FIRST, run)
    ensures r.proc == Proc(Online, 0, 1) && r.closed == {} && Data(r, r.current) == Listener(Some(2), 2, None)
    ensures r.threads
            == map[0 := Thread(false, Watching, Some(1), Some(0)), 1 := Thread(true, Installed(false), Some(2), Some(1))]
  {
    run, r := SecondPrepared();
    run, r := LaunchUp(run, r, 1);
  }

  /** Two Starts that overlap leave two listeners, and a halt reaches only the second. */
  lemma SecondStartTakesOver() returns (run: seq<Act>, r: Runner)
    ensures Legal(FIRST, run) && r == Exec(FIRST, run)
    ensures r.proc.state == Online && r.closed == {}
    ensures r.threads == map[0 := Thread(false, Watching, Some(1), Some(0)), 1 := Thread(false, Watching, Some(2), Some(1))]
    ensures Within(r, r.threads[1]) && !Within(r, r.threads[0])
  {
    run, r := SecondInstalled();
    run, r := Step(run, r, Announce(1));
  }
}
