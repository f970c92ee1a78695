# GitHub Actions Runners Mux: a verified model

The multiplexer keeps a pool of warm Docker containers and hands one to every job that arrives on any
of its GitHub listeners. This project models, in Dafny, the parts of it that several goroutines share,
and proves what every run of them keeps, under every interleaving:

- **The orchestrator** (`orchestrator/`): callers of `AllocateWorker`, the `maintainPool` loop, boot
  goroutines, Docker death events, aborts, capacity evaluation and settings changes, around one mutex
  and one broadcast channel that is replaced and then closed. The mutex is dropped around every Docker
  call, so each function is several critical sections with a gap between them, and a claimed container
  spends time in neither map ("limbo").
- **The scale-set scaler** (`pkg/scaleset/scaler.go`): a second lock, which adds two counts that are read
  under different locks.
- **The runner lifecycle and the freeze** (`pkg/mux`, `pkg/standalone`, `pkg/scaleset/manager.go`): seven
  states, a transition table that several writers bypass, retries, and SIGSTOP/SIGCONT.
- **Two codecs**: container names, which double as the crash-recovery log, and the framed header between
  `worker-shim` and `worker-launcher`.

## How it is built

The orchestrator appears in three layers. `Pool` gives the state under `o.mutex` as a value, with one
function for every critical section. `Orchestrators.Orchestrator` is the class: its methods are the
stretches of code that hold the lock, they update its maps and counters in place, and each one is proved to
do what the function says. `Protocol` is the transition relation over program counters: 24 actions, each
one critical section (using the same functions) or one Docker call, whose answer is an argument of the
action. The broadcast channel is a generation number: who captured generation g sleeps while the
generation is g.

| file | what it holds |
|---|---|
| `Collections`, `Pool`, `Names`, `Protocol` | vocabulary, critical sections, name codec, transition relation |
| `Accounting`, `Exclusive`, `Wakeups`, `Deaths`, `Pausing`, `Tracking`, `Marking` | one invariant each, with its step lemmas |
| `UniqueNames` | container names in runs: none is given twice |
| `Footprint` | the containers that really run, and how many the orchestrator does not count |
| `Runs` | all invariants together, over every run |
| `Exactly` | promises that fail in some runs, with the exact list of actions that break each |
| `Theorems` | what a user of the orchestrator can rely on |
| `Counterexamples`, `FreezeRuns` | concrete runs that show why each guard is there |
| `Recovery`, `Replay` | crash recovery and repeated death events |
| `Orchestrators`, `BaseManagers`, `Standalone`, `ScaleSet` | the classes |
| `Lifecycle`, `Freeze` | all writers of runner states; listeners, stops and retries as a protocol |
| `Orphans`, `Halts`, `Frozen` | runners that nobody looks after, stops that are lost, pauses in name only, each with the exact cause |
| `ScaleSetRuns` | a scale-set runner as a protocol: starts, exit goroutines, stops and the slot for the cancel function |
| `StandaloneRuns`, `Relaunches` | one standalone runner with any number of overlapping starts: who shares its listener data, what a halt reaches, and when a stopped runner comes back |
| `OneAtATime` | without overlapping starts, the runs of `StandaloneRuns` are runs of `Freeze` |
| `Scaling` | the scaler, composed with the orchestrator's protocol |
| `Framing` | the framed header over any segmentation of the stream |

A start (`Protocol.Init`) is what `NewOrchestrator` hands over after recovery, or after a container listing that
failed, in which case whatever runs is lost from the start. `Recovery.RestartIsStart` shows that a crash in any
reachable state leads to such a start again, with or without a listing, so the theorems hold across restarts.

## Where the code and its documentation differ

The model follows the code. Each line names the lemma that shows the difference.

- The repository's `README.md:13` promises strict global limits, and `README.md:35` calls the limit the number of
  concurrent worker containers. `maintainPool` does not count claims in limbo (`orchestrator/pool.go:28`), so what
  the orchestrator holds can exceed the limit: `ClaimOvershootsLimit`; exactly when: `CapacityExactly`; the bound
  that always holds: `CapacityBound`. Nor does it count aborted workers that have not been killed
  (`orchestrator/orchestrator.go:143-161`) or containers given up alive, such as the one of a failed boot whose
  removal fails (`orchestrator/pool.go:130-141`), so what runs can exceed the limit even when
  what is held does not: `AbortOvershootsLimit`; exactly when: `RunningExactly`; by how much: `RunningBound`.
- The dead-candidate retry (`orchestrator/allocate.go:47-49`) and `AbortWorker` change the boot guards
  without a broadcast, and `maintainPool` sleeps on: `RetryLosesWakeup`, `AbortLosesWakeup`. Exactly when:
  `MaintainerWokenExactly`.
- Registration does not look again whether the container is alive (`orchestrator/allocate.go:43-54`). A death
  delivered in between is lost and its worker stays active: `GapDeathIsLost`. Exactly when:
  `DeadActiveNoticedExactly`.
- `UpdateSettings` and `recoverState` do not evaluate the capacity: `LoweredLimitIsNotEnforced`,
  `RecoveredFullIsNotPaused`. Exactly when: `PausedExactly`.
- The repository's `README.md:10` promises no orphaned workers after a restart. An active container whose rename failed or
  whose runner name is empty is recovered as warm or under another runner: `RecoveredExactly`.
- `pkg/mux/state.go:20-21` says that any transition outside the table is rejected. `Stop`, `MarkBusy`,
  `MarkIdle` and a failed `Start` write states directly: `EdgesAreExact` lists the extra edges.
- `pkg/mux/base_manager.go:172` says that `MarkBusy` moves to Busy if Online; it also moves a Paused runner, whose
  listener stays stopped: `BusyOnPausedIsHidden`.
- A first launch under the global pause is stopped but stays Registering (`pkg/standalone/listener.go:76-80`),
  and no thaw reaches it: `LaunchUnderPauseIsHidden`. If its listener has exited by then, there is nothing to thaw, but
  the runner is Registering all the same (`DeadLaunchStaysRegistering`), and Start accepts it beside its goroutine.
  Exactly when Start accepts a runner that somebody still looks after: `StartMeetsNobodyExactly`.
- Nothing in `pkg/mux/base_manager.go:80-93` keeps two Starts of one runner apart: a Registering runner may be started
  again. Both goroutines record into whatever ListenerData the map holds; exactly when they share it: `SharedExactly`.
  The second Start can put the first listener beyond the reach of every halt: `SecondStartTakesOver`; exactly when:
  `StandaloneRuns.ControlledExactly`, and never without such an overlap: `AloneIsControlled`. The goroutine that leaves
  first ends the drain for the others, so a stopped runner can come back to life: `StopMissesSecond`; exactly when:
  `LaunchesExactly`, and after which halts: `Relaunches.HaltHoldsExactly`.
- The table rejects Online to Registering, so a runner in retry stays Online and a freeze can overtake its
  relaunch; the late transition to Online then hides the stop: `RelaunchRaceIsHidden`. Exactly when a stop is
  hidden: `StoppedIsShownExactly`.
- `pkg/standalone/listener.go:55-68` checks whether `Halt` closed the cancel channel, but `Halt` forgets the
  channel as it closes it: `StandaloneRuns.CancelCheckNeverFires`. A stop that meets the goroutine before a launch or on its way
  back to one is therefore lost: at the end of the backoff (`CancelIsLost`), before the cancel channel is made
  (`HaltBeforeArmIsLost`), before the first process is recorded (`HaltBeforeInstallIsLost`), and in the backoff if
  the timer wins over the close. `Halts.HaltHoldsExactly` says that these are all; `StopEndsBackoff` says what happens
  when the close wins.
- A stopped runner need not reach Offline. The table has no way from Busy or Paused to Offline, and none from
  Draining or Paused to Failed, so a listener that exits during a job or while frozen, or a relaunch that fails,
  can leave a runner without goroutine and process in a state that says otherwise: exactly when, by
  `AbandonedExactly`. It is stuck in Draining for good (`OrphanedForGood`) exactly when such a runner is stopped,
  or when a relaunch fails on a Draining runner: `OrphanedExactly`, with the runs `StopOrphansBusy`,
  `StopOrphansFrozen` and `FailedRelaunchOrphans`.
- A relaunch during a job writes Online over Busy, which the table allows (`pkg/standalone/listener.go:86-89`), so an
  Online runner may have a worker: `RelaunchHidesWork`. Exactly when: `IdleHasNoneExactly`; a Busy runner always has
  one: `BusyImpliesWorkers`.
- The repository's `README.md:13` promises that listeners are frozen at full capacity. A job that ends under the
  global pause writes Paused without a signal (`pkg/standalone/manager.go:168-182`), so its listener takes the next
  job: `IdleUnderPauseRuns`. Exactly when a Paused runner's listener is not stopped: `PausedIsStoppedExactly`.
- A scale-set listener that fails asks for Failed after looking whether its runner is draining. A stop in between
  leaves the runner Draining (`pkg/scaleset/manager.go:58-61`): `StopOvertakesFailure`; exactly when an exit is
  not shown: `ExitIsShownExactly`; exactly when a draining runner is left to itself: `StrandedExactly`,
  and an exit does it only by overlooking a stop that came after its look at the runner: `StrandingNeedsStop`.
- All listeners of a scale-set runner share one slot for the cancel function. A goroutine that has written Offline
  clears the slot last (`pkg/scaleset/manager.go:65-72`), and by then it may be a newer listener's; a stop then
  reaches nobody: `OldGoroutineClearsSlot`. Exactly when a live listener cannot be cancelled:
  `ScaleSetRuns.ControlledExactly`;
  exactly which halts reach: `HaltReachesExactly`.
- `Launch` gives up when its context ends (`pkg/scaleset/manager.go:95-96`), and Start writes Failed over a listener
  that runs on: `GivenUpListenerRuns`. Exactly when a running listener's runner is shown as Offline or Failed:
  `ScaleSetRuns.ShownExactly`.
- `MarkBusy` runs outside `o.mutex` (`orchestrator/allocate.go:64-68`), so a `MarkIdle` can overtake it:
  `OvertakenIdleRun`. Exactly when, container by container: `OrderlyExactly`; and exactly when an idle mark is
  swallowed because the runner's entry counts no worker: `NoneSwallowedExactly`.
- Recovered workers are never marked busy (`orchestrator/events.go:44-49`), yet their deaths mark idle:
  `RecoveredDeathMarksIdle`. And a restart of the runner sets its count to zero (`pkg/mux/base_manager.go:88-92`), while
  `activeListeners` goes on. Exactly when the two agree, whether the entry was made at the start or by a restart:
  `WorkersAgreeExactly`; read off the run: `CountsAgreeExactly`.

## Model

| member | source | states |
|---|---|---|
| `Theorems.CapacityBound` | orchestrator/pool.go:28-44 | in every run, warm, active, booting and limbo containers together stay within the larger of the recovered count and (largest maxWorkers so far + most claims in limbo at any boot start) |
| `Theorems.CapacityStrict` | orchestrator/pool.go:28-37 | maxWorkers is strict, limbo included, when the start is within it, it is never lowered and no boot starts while a claim is in limbo |
| `Exactly.CapacityExactly` | orchestrator/pool.go:28-37 | maxWorkers bounds the containers that the orchestrator holds (warm, active, booting, limbo) throughout a run if and only if the run starts within it, every boot starts with room for the limbo claims too and no settings change drops the limit below what is held |
| `Exactly.RunningExactly` | orchestrator/pool.go:28-37 | maxWorkers bounds the containers that run or are about to be created throughout a run if and only if the run starts within it, no boot starts while they fill it and no settings change drops the limit below them; aborted workers not yet killed and containers given up alive are among them |
| `Theorems.RunningBound` | orchestrator/orchestrator.go:141-162 | in every run the containers that run or are about to be created are at most those held plus aborts whose kill is due plus containers given up that still run |
| `Footprint.BootsComplete` | orchestrator/pool.go:38-39 | from any state the boots under way can all create their containers without any further boot, so the bounded number is really reached |
| `Counterexamples.AbortOvershootsLimit` | orchestrator/orchestrator.go:141-162 | a run in which every boot has room for everything held, and an aborted worker and a new container run together under a limit of one |
| `Counterexamples.ClaimOvershootsLimit` | orchestrator/pool.go:28-37 | a run in which a boot beside a claim in limbo makes two containers under a limit of one |
| `Theorems.SpareBound` | orchestrator/pool.go:19-37 | warm + booting never exceeds the largest warm setting so far + pending + cancelled calls + recovered warm containers; with fixed settings the largest setting is the setting |
| `Theorems.CountersExact` | orchestrator/allocate.go:21-59 | in every run pendingAllocations counts the sleeping calls, bootingCount the unfinished boots, every activeListeners entry its runner's active workers, and the entries sum to the number of active workers |
| `Theorems.PlacesDisjoint` | orchestrator/allocate.go:26-59 | warm pool, limbo claims and active workers are pairwise disjoint in every run |
| `Theorems.ReturnedToOneCall` | orchestrator/allocate.go:24-72 | no two AllocateWorker calls ever hold or return the same container, and a held container is not warm |
| `Theorems.NeverWarmAgain` | orchestrator/allocate.go:26-30 | a container that has left the warm pool never comes back to it in any continuation |
| `Theorems.JobsConserved` | orchestrator/events.go:102-113 | per runner, recovered + registered workers = active + completed (one increment each) + aborted |
| `Theorems.JobsEndOnce` | orchestrator/orchestrator.go:141-162 | no container is completed or aborted twice, and none that ended is in a map |
| `Theorems.CallerNotLost` | orchestrator/allocate.go:75-86 | a caller asleep on the current channel beside a non-empty warm pool: some boot goroutine has inserted and not broadcast yet |
| `Theorems.MaintainerNotLost` | orchestrator/pool.go:18-35 | in runs without dead-candidate retry and without abort of an active worker, maintainPool asleep on the current channel with both boot guards true implies a limbo claim or a failed boot that will broadcast |
| `Exactly.MaintainerWokenExactly` | orchestrator/orchestrator.go:103-107 | that promise holds throughout a run if and only if no retry or abort happens at a moment when maintainPool sleeps, both guards become true and nobody else will broadcast |
| `Theorems.StarvationMeansFull` | orchestrator/pool.go:18-67 | in a run without a retry or abort at a bad moment and with a warm setting that is not negative, when a caller and maintainPool both sleep and nothing is in flight, the warm pool is empty and active workers alone reach maxWorkers |
| `Theorems.SettingsTakeEffect` | orchestrator/orchestrator.go:117-123 | in every run maxWorkers and the warm setting are those of the last UpdateSettings action, or those of the start if there is none |
| `Theorems.DemandIsMet` | orchestrator/pool.go:18-44 | when maintainPool sleeps and nothing is in flight, in a run without a retry or abort at a bad moment, the last settings are met: warm containers cover the last warm setting plus the waiting calls, or warm and active ones fill the last maxWorkers |
| `Counterexamples.RetryLosesWakeup` | orchestrator/allocate.go:43-50 | a run that ends with a caller and maintainPool asleep for good although a boot is allowed |
| `Counterexamples.AbortLosesWakeup` | orchestrator/orchestrator.go:141-162 | a run that ends with maintainPool asleep although an abort has made room and nobody will broadcast |
| `Theorems.DeadWarmIsNoticed` | orchestrator/pool.go:41-66 | a dead container in the warm pool has an undelivered event, or its boot goroutine is about to check or remove it |
| `Theorems.DeadActiveIsNoticed` | orchestrator/events.go:97-127 | a dead active worker has an undelivered event, in runs with no delivery between alive check and registration |
| `Exactly.DeadActiveNoticedExactly` | orchestrator/allocate.go:43-62 | every dead active worker has an event on its way throughout a run if and only if no call registers a container whose death came after its alive check |
| `Counterexamples.GapDeathIsLost` | orchestrator/allocate.go:43-62 | a run that ends with a dead container registered as active and no event left |
| `Theorems.PauseAgreement` | orchestrator/events.go:149-165 | whenever the lock is free isPaused equals the standalone manager's globalPaused |
| `Theorems.PausedExactlyWhenFull` | orchestrator/events.go:133-166 | with fixed settings and a start below the limit, whenever nobody owes an evaluation isPaused holds exactly when the active workers reach maxWorkers |
| `Exactly.PausedExactly` | orchestrator/orchestrator.go:116-123 | that holds throughout a run if and only if it starts below the limit and no settings change flips full and not full while nobody owes an evaluation |
| `Counterexamples.LoweredLimitIsNotEnforced` | orchestrator/orchestrator.go:116-123 | after a settings change the machine is full, nobody owes an evaluation, and listeners are not paused |
| `Counterexamples.RecoveredFullIsNotPaused` | orchestrator/events.go:66-68 | a restart with a full house leaves the listeners running |
| `Runs.EveryRun` | orchestrator/orchestrator.go:45-62 | every state of every run from a recovered start satisfies all invariants |
| `Recovery.CrashRecoveryIsIdentity` | orchestrator/events.go:27-64 | from any reachable state with nothing in flight, truthful boot checks, working renames and removals, named runners and a start that left nothing running unlisted, recovery rebuilds both maps restricted to running containers and the same count for every runner |
| `Recovery.RecoveredExactly` | orchestrator/events.go:27-64 | whatever Docker answered, recovery rebuilds both maps if and only if no container that is active and alive had its rename fail or lack a runner name, and nothing that was given up or is in flight runs outside the maps |
| `Recovery.RecoverClassifies` | orchestrator/events.go:27-64 | the loop places every running container by its name alone, whatever the order of the listing, and places nothing else |
| `Recovery.RecoverIndexes` | orchestrator/events.go:44-49 | the loop establishes the per-runner index and touches nothing but the three maps |
| `Recovery.RestartIsStart` | orchestrator/orchestrator.go:64-94 | a crash in any reachable state, whatever was in flight, leaked or misnamed, leads to a legal start again, even when the containers cannot be listed |
| `Names.ParseUndoesFormat` | orchestrator/utils.go:11-22 | parsing the active name gives the runner name back if and only if it is not empty, since the id is eight hexadecimal digits (section 4 of RFC 9562) |
| `Names.PrefixesExclusive` | orchestrator/events.go:39-52 | no name carries both prefixes |
| `Names.ActiveNamesDiffer` | orchestrator/allocate.go:36-39 | the active name tells both its runner and its id: equal names have equal runners and equal ids |
| `Names.WarmNamesDiffer` | orchestrator/pool.go:93 | the warm name tells its id |
| `UniqueNames.NamesStayDistinct` | orchestrator/allocate.go:36-39 | in every run in which no id is drawn twice, from a start with distinct names that carry none of the ids to come, no two containers ever share a name |
| `Names.LastDash` | orchestrator/utils.go:17-20 | the index of the last dash: there is a dash there and none after it, or minus one and no dash at all |
| `Replay.ReplayConfluence` | orchestrator/events.go:71-166 | two lists of death events with the same containers, in any order and with any repetition, leave the same state and issue the same job increments |
| `Replay.ProcessSettles` | orchestrator/events.go:97-136 | any list of death events leaves exactly the state determined by the set of its ids |
| `Replay.IssuedCounts` | orchestrator/events.go:102-111 | the increments issued for a runner are its distinct active workers among the dead |
| `Pool.IndexSum` | orchestrator/events.go:142-145 | the sum that evaluateCapacity accumulates over the index is the number of active workers |
| `Pool.EvaluateDecides` | orchestrator/events.go:149-165 | after an evaluation the pause flag says whether the active workers fill the capacity |
| `Pool.IndexRegister` | orchestrator/allocate.go:54-59 | registration keeps every index entry equal to its runner's active workers |
| `Pool.IndexUnregister` | orchestrator/events.go:112-113 | a death or an abort keeps the index |
| `Accounting.WithinLimitStep` | orchestrator/pool.go:28-37 | from a state within the limit, exactly a boot without room for limbo or a lowered limit leads beyond it |
| `Wakeups.PoolWokenStep` | orchestrator/pool.go:18-35 | from a state in which maintainPool will be woken, exactly a muffled retry or abort leads out |
| `Pausing.EvaluatedStep` | orchestrator/events.go:138-166 | from a state with the right pause flag, exactly an unsettling settings change leads out |
| `Tracking.TrackedStep` | orchestrator/allocate.go:32-62 | every running container stays in a map, in some goroutine's hands, or in the list of those given up without confirmation |
| `Tracking.NamedStep` | orchestrator/allocate.go:36-39 | warm containers keep a warm name, and an active container's name carries its runner if and only if its rename went through with a runner name |
| `Exactly.OrderlyExactly` | orchestrator/allocate.go:53-68 | no idle mark comes before the busy mark of a container registered in the run throughout it if and only if no worker ends while the call that registered it still owes the mark |
| `Exactly.NoneSwallowedExactly` | orchestrator/allocate.go:53-68 | for an entry made at any point of a run, no later idle mark of its runner finds a count of zero throughout the rest of the run if and only if none of its workers ends while all its active workers are from before and marked (or recovered), or still owed their busy marks |
| `Theorems.WorkersAgreeExactly` | pkg/mux/base_manager.go:173-201 | for an entry made at any point of a run, at the start or by a restart, and whatever else is written to it: its ActiveWorkers equals the runner's activeListeners entry if and only if the idle marks swallowed since, plus the busy marks owed then, number the workers active then plus the busy marks owed now |
| `Theorems.CountsAgreeExactly` | orchestrator/allocate.go:53-68 | when the workers active at the making of the entry and the marks owed now number the marks owed then (a fresh start without recovered workers, and nothing owed now), ActiveWorkers equals the activeListeners entry if and only if since then none of the runner's workers ended while the entry counted none |
| `Counterexamples.OvertakenIdleRun` | orchestrator/allocate.go:64-68 | a run that ends with nothing active and nothing owed, whose marks in this order leave an Online runner Busy with one worker |
| `Counterexamples.RecoveredDeathMarksIdle` | orchestrator/events.go:102-118 | a run in which a recovered worker's death takes the runner's count to zero while another worker of it is active |
| `Orchestrators.Orchestrator.constructor` | orchestrator/orchestrator.go:70-82 | empty maps, zero counters, the given limits, not paused |
| `Orchestrators.Orchestrator.RecoverState` | orchestrator/events.go:15-69 | without a listing it reports the error and leaves the maps empty; with one, the loop computes the recovered state in place and keeps the object valid |
| `Orchestrators.Orchestrator.UpdateSettings` | orchestrator/orchestrator.go:116-123 | maxWorkers and the warm setting become the given ones and the channel is broadcast; nothing else changes, in particular not the pause; the state is the one that the protocol's step leaves |
| `Orchestrators.Orchestrator.GetActiveCount` | orchestrator/allocate.go:11-15 | the index entry read is the number of the runner's active workers |
| `Orchestrators.Orchestrator.ClaimAny` | orchestrator/allocate.go:25-33 | takes one container out of the warm pool with its address, or finds it empty; pendingAllocations drops only with a claim; the state is the one that the protocol's step leaves |
| `Orchestrators.Orchestrator.BeginAllocation` | orchestrator/allocate.go:19-34 | demand is raised and broadcast before the claim; without a claim the caller captures the current channel; the state is the one that the protocol's step leaves |
| `Orchestrators.Orchestrator.RetryAllocation` | orchestrator/allocate.go:47-49 | demand is raised again before the next claim, and the channel is not broadcast; the state is the one that the protocol's step leaves |
| `Orchestrators.Orchestrator.CancelAllocation` | orchestrator/allocate.go:79-83 | a cancelled call takes its demand back and broadcasts nothing; the state is the one that the protocol's step leaves |
| `Orchestrators.Orchestrator.RegisterWorker` | orchestrator/allocate.go:53-62 | the worker is active, its runner's count goes up, the channel is broadcast, as in the protocol's step; the index still agrees if and only if the container was not active before |
| `Orchestrators.Orchestrator.StartBoots` | orchestrator/pool.go:18-37 | one stretch between wake-up and sleep starts exactly the shortfall and stops with a guard false |
| `Orchestrators.StretchIsSteps` | orchestrator/pool.go:18-68 | that stretch is that many boot steps of the protocol and then a sleep |
| `Orchestrators.Orchestrator.FinishBoot` | orchestrator/pool.go:41-47 | bootingCount drops; the container becomes warm only if the boot succeeded; the state is the one that the protocol's step leaves |
| `Orchestrators.Orchestrator.HandleContainerDeath` | orchestrator/events.go:97-131 | an active worker leaves with its count, one completion and both idle marks; a warm one just leaves; an unknown one changes nothing; a broadcast exactly if something left; the state is the one that the protocol's step leaves |
| `Orchestrators.Orchestrator.AbortSection` | orchestrator/orchestrator.go:142-155 | an active worker leaves with its count and both idle marks, without completion and without broadcast; the state is the one that the protocol's step leaves |
| `Orchestrators.Orchestrator.MarkBusy` | pkg/mux/multiplexer.go:122-129 | both managers record the busy mark on their own entry of the runner |
| `Orchestrators.Orchestrator.MarkIdle` | pkg/mux/multiplexer.go:132-139 | both managers record the idle mark, the standalone one returning to Paused under a freeze |
| `Orchestrators.Orchestrator.TotalAssigned` | orchestrator/events.go:142-145 | the loop's total is the number of active workers |
| `Orchestrators.Orchestrator.BusyRunners` | orchestrator/events.go:153-158 | the loop collects exactly the runners with an active worker |
| `Orchestrators.Orchestrator.EvaluateCapacity` | orchestrator/events.go:138-166 | paused exactly when active workers reach maxWorkers; on the change to paused exactly the reachable online runners without active workers are frozen, on the change back exactly the reachable paused ones are thawed, otherwise no runner changes; the state is the one that the protocol's step leaves |
| `Standalone.StandaloneManager.LockOthers` | pkg/standalone/pauser.go:10-34 | globalPaused is set and every entry is as the freeze function says |
| `Standalone.StandaloneManager.UnlockOthers` | pkg/standalone/pauser.go:36-55 | globalPaused is cleared and every entry is as the thaw function says |
| `Standalone.FreezeSparesTheBusy` | pkg/standalone/pauser.go:16-33 | a freeze touches no runner on the active list, pauses every other online runner whose signal succeeds, and changes no other state and no worker count |
| `Standalone.ThawUndoesFreeze` | pkg/standalone/pauser.go:36-55 | with nobody paused before, a freeze followed by a thaw that reaches the same groups restores every entry |
| `Standalone.ThawTouchesThePaused` | pkg/standalone/pauser.go:36-55 | a thaw makes every reachable Paused runner Online and changes nothing else |
| `Standalone.StandaloneManager.RecordLaunch` | pkg/standalone/listener.go:53-79 | the locked section of a launch: dropped if and only if its cancel channel is closed, else recorded, and frozen if and only if the global pause holds and the signal succeeds |
| `Standalone.StandaloneManager.HaltSection` | pkg/standalone/manager.go:52-77 | the locked section of Halt: not found, close and forget the cancel channel, nothing to do, or signal the group |
| `Standalone.StandaloneManager.MarkIdle` | pkg/standalone/manager.go:164-183 | the idle mark returns the runner to Paused while frozen and to Online otherwise |
| `BaseManagers.BaseManager.Transition` | pkg/mux/base_manager.go:49-68 | changes the state exactly if the table allows it, else reports not-found or invalid and changes nothing |
| `BaseManagers.BaseManager.StartEntry` | pkg/mux/base_manager.go:80-93 | a fresh Registering entry without workers, or already-running and no change |
| `BaseManagers.BaseManager.LaunchFailed` | pkg/mux/base_manager.go:95-101 | a failed launch writes Failed to the entry that this Start made, and to no later entry |
| `BaseManagers.BaseManager.StopEntry` | pkg/mux/base_manager.go:106-121 | Draining from any state but Offline and Failed; tells whether the halt hook runs |
| `BaseManagers.BaseManager.MarkBusy` | pkg/mux/base_manager.go:173-184 | one more worker, Busy from Online or Paused, nothing else; an unknown name changes nothing |
| `BaseManagers.BaseManager.MarkIdle` | pkg/mux/base_manager.go:188-201 | one worker less but never negative, the idle state from Busy when no worker is left and no change of state otherwise; an unknown name changes nothing |
| `BaseManagers.WriteEntryExactly` | pkg/mux/base_manager.go:173-201 | a mark for a name that the manager does not know changes nothing, and a mark for one it knows touches no other entry |
| `Lifecycle.EdgesAreExact` | pkg/mux/base_manager.go:95-121 | a change of state is made by some write if and only if it is in the table or a listed direct edge |
| `Lifecycle.TransitionTakesEffect` | pkg/mux/state.go:22-30 | for each target, the states from which a transition reaches it; from all others it changes nothing |
| `Lifecycle.MarkIdleKeepsBusy` | pkg/mux/base_manager.go:188-201 | a mark idle that leaves a worker changes no state |
| `Lifecycle.BusyExactly` | pkg/mux/base_manager.go:173-201 | under any marks, freezes and thaws a live runner stays live, and is Busy if and only if it has a worker |
| `Lifecycle.IdleHasNoneExactly` | pkg/mux/base_manager.go:173-201 | throughout any writes an Online or Paused runner has no worker if and only if no launch is shown as Online on an entry that counts one |
| `Lifecycle.DrainingIsNotUndone` | pkg/mux/state.go:27-29 | any sequence of writes from Draining to Online, Busy or Paused passes through Offline or Failed and after that through Registering |
| `Lifecycle.BusyImpliesWorkers` | pkg/mux/base_manager.go:173-201 | Busy implies a worker after any sequence of writes |
| `Lifecycle.WorkersFollowMarks` | pkg/mux/base_manager.go:173-201 | without a restart the worker count depends on the busy and idle marks alone, whatever else is written between them |
| `Lifecycle.WorkersExactlyWhenInOrder` | pkg/mux/base_manager.go:173-201 | without a restart, ActiveWorkers equals marks busy minus marks idle if and only if no idle mark overtakes its busy mark |
| `Freeze.StoppedIsShownExactly` | pkg/standalone/listener.go:53-89 | every stopped live listener's runner is Paused or Draining throughout a run if and only if the run has no launch under pause that stops a live listener of a Registering, Online or Busy runner, no job beginning on a frozen runner and no overtaken late transition |
| `Freeze.ThawReleasesAll` | pkg/standalone/pauser.go:36-55 | after such a run, an UnlockOthers whose signals reach all live listeners leaves none stopped outside Draining |
| `Freeze.StopsExactly` | pkg/standalone/listener.go:75-89 | a listener is stopped by a step if and only if a freeze reaches its Online runner outside the list of the busy, or its launch is recorded under the global pause with its SIGSTOP delivered |
| `Freeze.ContinuesExactly` | pkg/standalone/pauser.go:36-55 | a stopped listener is continued by a step if and only if a thaw reaches its Paused runner, or a halt sends it SIGCONT |
| `Freeze.NoFreezeNoStop` | pkg/standalone/listener.go:75-89 | in runs without a freeze, from a state that is not paused, no listener is ever stopped and no runner is ever Paused |
| `Freeze.PausedSinceFreeze` | pkg/standalone/pauser.go:10-40 | the global pause holds exactly from a freeze to the next thaw |
| `Frozen.PausedIsStoppedExactly` | pkg/standalone/manager.go:163-183 | the live listener of a Paused runner is stopped throughout a run if and only if no last job ends under the global pause on a running listener, no process is launched for a Paused runner, no SIGCONT reaches its group, no late transition to Paused follows one, and no freeze reaches an older group instead of the new process |
| `FreezeRuns.IdleUnderPauseRuns` | pkg/standalone/manager.go:168-182 | a run in which a job ends under the global pause and the runner is Paused with a running listener |
| `Orphans.StartMeetsNobodyExactly` | pkg/mux/base_manager.go:80-93 | outside a Start in progress a runner that Start accepts has no goroutine and no live listener throughout a run if and only if no first launch whose SIGSTOP was delivered leaves its runner Registering |
| `Freeze.RunIsWrites` | pkg/standalone/listener.go:101-207 | every run of the standalone manager writes a runner's entry once per action, and after each of its actions the entry is what the writes so far make of it |
| `Freeze.DrainingIsNotUndoneInRuns` | pkg/mux/state.go:27-29 | in every run of the standalone manager from Draining to Online, Busy or Paused, the runner is Offline or Failed in some state of the run and Registering in a later one |
| `Freeze.BusyHasWorkersInRuns` | pkg/standalone/manager.go:164-183 | Busy implies a worker in every run of the standalone manager |
| `Halts.HaltHoldsExactly` | pkg/standalone/manager.go:52-77 | after a stop and its halt, no continuation without another Start records a new process if and only if the halt does not meet the goroutine before a launch, on its way back to one, or, where the timer may win over the close, in its backoff |
| `Halts.StopIsSeen` | pkg/mux/base_manager.go:106-121 | what Stop has written stays visible to Halt through anything but another Start |
| `Halts.StopEndsBackoff` | pkg/standalone/listener.go:161-173 | a stop that meets the backoff: in every continuation in which the timer does not win and nobody starts the runner again there is no process, and the runner is Offline as soon as the goroutine is gone |
| `Halts.FailedPrepareShows` | pkg/mux/base_manager.go:95-101 | a start whose environment cannot be set up ends Failed and may be tried again, whatever happens between the failure and the last write of Start |
| `Orphans.AbandonedExactly` | pkg/standalone/listener.go:125-186 | no runner is left without goroutine and process in a state other than Offline and Failed throughout a run if and only if no goroutine leaves a Busy or Paused runner and no relaunch fails on a Draining or Paused one |
| `Orphans.OrphanedExactly` | pkg/mux/base_manager.go:106-121 | no runner is left Draining without goroutine and process throughout a run if and only if no abandoned runner is stopped and no relaunch fails on a Draining one |
| `Orphans.OrphanedForGood` | pkg/mux/base_manager.go:80-121 | a runner left Draining without goroutine and process stays so in every continuation |
| `Freeze.CancelCheckNeverFires` | pkg/standalone/manager.go:63-68 | the cancel check of launchListener never sees a closed channel, in any run |
| `StandaloneRuns.ControlledExactly` | pkg/standalone/manager.go:42-77 | with any number of overlapping Starts, a halt would signal every recorded live listener and close every sleeping retry's channel throughout a run if and only if no new ListenerData, no record of a launch and no clearing comes beside what another goroutine holds, and no retry arms a ListenerData that the map has lost |
| `StandaloneRuns.AloneIsControlled` | pkg/standalone/manager.go:42-77 | in runs in which no Start comes while an earlier one or its goroutine is at work, no action takes anything out of the reach of a halt |
| `OneAtATime.AloneIsFreeze` | pkg/standalone/listener.go:101-207 | every run of one runner without overlapping Starts is a run of `Freeze`: some run there ends with the same entry, ListenerData, goroutine and live process, the same pause and the same closed channels |
| `StandaloneRuns.SharedExactly` | pkg/standalone/manager.go:44-46 | no two goroutines share the runner's entry in listenerData throughout a run if and only if no Start stores a new one beside a goroutine that has its own |
| `StandaloneRuns.CancelCheckNeverFires` | pkg/standalone/listener.go:53-68 | the cancel check of launchListener never sees a closed channel, however many Starts overlap |
| `StandaloneRuns.ExitClearsTheMap` | pkg/standalone/listener.go:118-136 | a goroutine that leaves after an exit clears command and cancel channel of the ListenerData that the map held when it looked, whoever stored it, and of no other |
| `StandaloneRuns.CancelledRetryKeepsProcesses` | pkg/standalone/listener.go:163-173 | a retry that sees its cancel leaves every recorded command as it is |
| `StandaloneRuns.FailedRelaunchKeepsProcesses` | pkg/standalone/listener.go:176-187 | a relaunch that fails leaves every recorded command as it is |
| `StandaloneRuns.DrainingIsNotUndoneInRuns` | pkg/mux/state.go:27-29 | however many Starts overlap, a runner that was Draining and is Online, Busy or Paused was Offline or Failed in between and Registering after that |
| `StandaloneRuns.RunIsWrites` | pkg/standalone/listener.go:101-207 | every run with any number of Starts writes the runner's entry once per action, with arguments that the managers really pass, and the entry ends as the writes leave it |
| `StandaloneRuns.BusyHasWorkersInRuns` | pkg/mux/base_manager.go:173-201 | Busy implies a worker in every run, however many Starts overlap |
| `StandaloneRuns.SecondStartTakesOver` | pkg/mux/base_manager.go:80-93 | a run in which two Starts overlap and leave two live listeners, the first beyond the reach of a halt |
| `Relaunches.LaunchesExactly` | pkg/standalone/listener.go:111-205 | in any reachable state, with any number of goroutines, no continuation without another Start (and without a timer that wins over a close) records a process if and only if nobody is on the way to a launch and whoever may retry finds the runner Draining, with no other goroutine that can end the drain |
| `Relaunches.HaltHoldsExactly` | pkg/standalone/manager.go:52-77 | after a halt the same holds if and only if the halt finds nobody on the way to a launch, closes every open channel on which a retry sleeps, and finds the runner Draining with at most one goroutine that may retry and no other that can end the drain |
| `Relaunches.StopMissesSecond` | pkg/standalone/listener.go:120-140 | a run that ends with a stop and its halt on a runner with two listeners, after which the runner can be launched again without a Start |
| `FreezeRuns.LaunchUnderPauseIsHidden` | pkg/standalone/listener.go:75-80 | a run in which a launch under pause is stopped, stays Registering and is not thawed |
| `FreezeRuns.DeadLaunchStaysRegistering` | pkg/standalone/listener.go:75-80 | a run in which a launch under pause finds its listener gone and leaves a Registering runner with its goroutine |
| `FreezeRuns.BusyOnPausedIsHidden` | pkg/mux/base_manager.go:180-183 | a run in which a frozen runner becomes Busy and is not thawed |
| `FreezeRuns.RelaunchHidesWork` | pkg/standalone/listener.go:86-89 | a run in which a relaunch shows a runner with a worker as Online |
| `FreezeRuns.RelaunchRaceIsHidden` | pkg/standalone/listener.go:145-189 | a run in which a freeze overtakes a relaunch and the stopped runner ends Online |
| `FreezeRuns.CancelIsLost` | pkg/standalone/listener.go:161-189 | a run in which a halt meets the end of the backoff and the listener is launched all the same |
| `FreezeRuns.HaltBeforeArmIsLost` | pkg/standalone/listener.go:145-155 | a run in which a halt between the decision to retry and the new cancel channel signals a dead group and the listener is launched all the same |
| `FreezeRuns.HaltBeforeInstallIsLost` | pkg/standalone/listener.go:44-73 | a run in which a halt before the first process is recorded finds nothing to do and the listener runs on |
| `FreezeRuns.StopOrphansBusy` | pkg/standalone/listener.go:125-142 | a run in which a listener exits during a job and a later stop leaves its runner Draining for good |
| `FreezeRuns.StopOrphansFrozen` | pkg/standalone/listener.go:192-202 | a run in which a frozen listener dies and a later stop leaves its runner Draining for good |
| `FreezeRuns.FailedRelaunchOrphans` | pkg/standalone/listener.go:176-187 | a run without any job in which a stop during the backoff and a failing relaunch leave the runner Draining for good |
| `ScaleSet.ScaleSetManager.RecordExit` | pkg/scaleset/manager.go:61-65 | the state asked for is written if the table allows it from the state the runner has by then, as the protocol's step does |
| `ScaleSetRuns.ControlledExactly` | pkg/scaleset/manager.go:51-72 | every live listener is the one a halt would cancel throughout a run if and only if no older exit goroutine clears the slot and no launch takes it while a listener is live |
| `ScaleSetRuns.HaltReachesExactly` | pkg/scaleset/manager.go:105-114 | after a halt no continuation without another Start has a live listener if and only if no Start is about to launch and the slot holds every live listener |
| `ScaleSetRuns.ShownExactly` | pkg/mux/base_manager.go:95-101 | a runner with a running listener is neither Offline nor Failed throughout a run if and only if no Start gives its entry up while a listener runs, no older listener's exit is written to it, and no launch comes while it is at rest |
| `ScaleSetRuns.StrandedExactly` | pkg/scaleset/manager.go:58-68 | a Draining runner always has a listener or a Start that will still write to it if and only if no last goroutine asks for Failed while it drains, no last Start returns or writes to a replaced entry then, and no runner is stopped that nobody looks after |
| `ScaleSetRuns.StrandedForGood` | pkg/mux/base_manager.go:80-121 | a Draining runner that nobody will write to stays so in every continuation |
| `ScaleSetRuns.ExitAsksFor` | pkg/scaleset/manager.go:58-62 | an exit asks for Failed if and only if it failed, was not cancelled and finds the runner not draining, and for Offline in all other cases |
| `ScaleSetRuns.DrainedExitEndsOffline` | pkg/scaleset/manager.go:58-68 | an exit that finds the runner draining ends Offline, failed or not, if no other write comes between its sections |
| `ScaleSetRuns.StrandingNeedsStop` | pkg/scaleset/manager.go:58-68 | in every run an exit that strands its runner in Draining was preceded by its look at the runner and, after that look, a Stop |
| `ScaleSetRuns.OldGoroutineClearsSlot` | pkg/scaleset/manager.go:65-72 | a run in which an old goroutine clears a new listener's slot, and after a stop and its halt the listener is live in a Draining runner |
| `ScaleSetRuns.GivenUpListenerRuns` | pkg/scaleset/manager.go:95-96 | a run in which Start gives up and its live listener runs on under a Failed runner |
| `ScaleSet.ScaleSetManager.MarkIdle` | pkg/scaleset/manager.go:172-174 | the idle mark always returns to Online |
| `ScaleSet.NeverPaused` | pkg/scaleset/manager.go:171-174 | a scale-set runner is never Paused after any sequence of its manager's writes |
| `ScaleSetRuns.NeverPausedInRuns` | pkg/scaleset/manager.go:46-114 | no run of a scale-set runner makes it Paused, however many Starts there are |
| `ScaleSetRuns.WorkersFollowJobs` | pkg/mux/base_manager.go:173-201 | until the next Start the worker count is what the begun and ended jobs make of it, whatever listeners come and go |
| `ScaleSet.ExitIsShownExactly` | pkg/scaleset/manager.go:58-68 | with any writes between the two sections, an exit shows as Offline or Failed if and only if the runner is not Busy when Offline is asked for and not Draining when Failed is |
| `ScaleSet.StopOvertakesFailure` | pkg/scaleset/manager.go:58-61 | a stop between the two sections of a failing listener leaves its runner Draining |
| `Scaling.Scaler.HandleDesiredRunnerCount` | pkg/scaleset/scaler.go:29-50 | active plus pending becomes the larger of itself and the capped target; the target is returned |
| `Scaling.Scaler.WorkerDone` | pkg/scaleset/scaler.go:56-60 | the deferred decrement |
| `Scaling.NeverOverProvisions` | pkg/scaleset/scaler.go:29-60 | active workers plus start goroutines that may still register never exceed the larger of maxRunners and the initial active count, plus the starts left over from an earlier scaler of the runner, with any allocations, deaths and aborts between the two reads; pendingCount is the number of the scaler's own unfinished start goroutines |
| `Scaling.CommitReaches` | pkg/scaleset/scaler.go:29-60 | in every run a handler that has counted raises active plus pending to the wanted count, capped by maxRunners, and takes nothing back |
| `Framing.FrameRoundTrip` | cmd/worker-shim/main.go:186-202 | a frame is read back whole with all later bytes unread if and only if the payload is shorter than 2^32 bytes |
| `Framing.PrefixOrdered` | cmd/worker-shim/main.go:192-193 | the length prefix is most significant byte first: encodings compare byte by byte as the numbers do |
| `Framing.HeaderRoundTrip` | cmd/worker-launcher/standalone.go:28-46 | for any codec with a left inverse, reading after writing yields the same header and leaves later bytes unread |
| `Framing.Connection.ReadFull` | cmd/worker-launcher/standalone.go:31-40 | fills the buffer from any segmentation of the stream, or reports that the stream was too short |
| `Framing.Connection.ReadFramedHeader` | cmd/worker-launcher/standalone.go:28-46 | reads exactly what the stream says, with a separate error for a short length, a short payload and a bad payload |
| `Framing.Connection.WriteFramedHeader` | cmd/worker-shim/main.go:186-202 | what is sent is the prefix of the frame that the two writes accept, and success means the whole frame |
| `Framing.TruncationDetected` | cmd/worker-launcher/standalone.go:31-40 | a frame that was cut short is never mistaken for a header |
| `Framing.Transfer` | cmd/worker-shim/main.go:186-202 | one end writes, the other reads over any segmentation: if both writes go through the header arrives and later bytes stay unread, if one is cut short the reader reports an error |

## Left out

- Docker, GitHub and the scaleset SDK are oracles: container alive or dead, rename, removal, boot and signal succeed or fail, and new containers get ids that were never used.
- Death events are delivered at least once; the gap while the event stream reconnects (`orchestrator/events.go:92`) is not modelled, nor is real time: backoffs, timeouts and the 30-minute drain are free choices.
- Removal of exited containers during recovery, the two `GetStatus`, which only read.
- The reporter and the job-count queries are taken to be set; a completion is the increment being issued, not its success in the database.
- `Orchestrators.Orchestrator.RecoverState`: requires empty maps and distinct ids in the listing, as `NewOrchestrator` and Docker provide them.
- `Scaling.NeverOverProvisions`: assumes that only this scaler and what earlier ones left over allocate for its runner, as one listener does.
- `ScaleSetRuns.HaltReachesExactly`: a listener that has been cancelled is not shown to exit; that it does is up to the scaleset SDK.
- `Freeze.StoppedIsShownExactly`: like every statement about the runs of `Freeze`, lets Start begin only when the runner's earlier goroutine is gone. Runs with overlapping Starts are those of `StandaloneRuns`, for one runner and without the signals of freeze and thaw: whether a stopped listener is shown there is not stated.
- `Halts.StopEndsBackoff`: the same restriction on Start; under overlapping Starts `Relaunches.HaltHoldsExactly` says which halts hold.
- `Orphans.OrphanedExactly`: the same restriction on Start.
- `Freeze.CancelCheckNeverFires`: the same restriction on Start; without it `StandaloneRuns.CancelCheckNeverFires`.
- `Freeze.BusyHasWorkersInRuns`: the same restriction on Start; without it `StandaloneRuns.BusyHasWorkersInRuns`.
- `Freeze.DrainingIsNotUndoneInRuns`: the same restriction on Start; without it `StandaloneRuns.DrainingIsNotUndoneInRuns`.
- `Freeze.RunIsWrites`: the same restriction on Start; without it `StandaloneRuns.RunIsWrites`.
- `Recovery.CrashRecoveryIsIdentity`: assumes that boot checks are truthful and that renames and removals work; without that assumption `Recovery.RecoveredExactly` gives the exact condition.
- JSON and base64 are a codec with a left inverse; IP addresses are opaque; log lines and error texts are dropped.
- The polling loop of `Halt` and its signals are single steps that may come at any time; `Deregister`, `Cleanup` and `SyncStaleRunners` are not modelled.
- Dashboard, OAuth, cookies, SQL, migrations, settings parsing and `web/`: plumbing or user interface.
- The launcher's start-once and `/wait` handling and the shim's byte pumping: few states, mostly operating-system behaviour.
