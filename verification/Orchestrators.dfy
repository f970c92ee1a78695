/** The orchestrator object: one method for every stretch of code that holds `o.mutex`. */
module Orchestrators {
  import opened Collections
  import opened Names
  import opened Pool
  import P = Protocol
  import opened Recovery
  import Lifecycle
  import opened BaseManagers
  import opened Standalone

  /** Runners with at least one active worker. */
  function ActiveRunners(active: map<Id, ActiveWorker>): set<string> {
    set id | id in active :: active[id].runner
  }

  /** The positive entries of the index are the runners with an active worker. */
  lemma PositiveAreActive(active: map<Id, ActiveWorker>, listeners: map<string, int>)
    requires IndexAgrees(active, listeners)
    ensures (set r | r in listeners && listeners[r] > 0) == ActiveRunners(active)
  {
    forall r | r in listeners && listeners[r] > 0 ensures r in ActiveRunners(active) {
      var id :| id in Where(active, Of(r));
      assert Of(r)(active[id]);
    }
    forall r <- ActiveRunners(active) ensures r in listeners && listeners[r] > 0 {
      var id :| id in active && active[id].runner == r;
      assert id in Where(active, Of(r));
    }
  }

  /** How many boots one stretch of maintainPool starts. */
  function Shortfall(p: Pool): nat {
    var byDemand := p.warmConfig + p.pending - |p.warm| - p.booting;
    var byRoom := p.maxWorkers - |p.warm| - |p.active| - p.booting;
    Max(0, if byDemand < byRoom then byDemand else byRoom)
  }

  /** One stretch of maintainPool is Shortfall many boots and then a sleep. */
  lemma {:induction false} StretchIsSteps(s: P.Sys, next: P.Tid) returns (run: seq<P.Action>)
    requires s.maintainer.Holding? && forall t <- s.threads :: t < next
    ensures P.Legal(s, run) && |run| == Shortfall(s.pool) + 1
    ensures var s' := P.Exec(s, run);
            && s'.pool == s.pool.(booting := s.pool.booting + Shortfall(s.pool))
            && s'.maintainer == P.Asleep(s.pool.gen) && !MayBoot(s'.pool)
    decreases Shortfall(s.pool)
  {
    if MayBoot(s.pool) {
      var a := P.PoolSpawn(next);
      var rest := StretchIsSteps(P.Apply(s, a), next + 1);
      run := [a] + rest;
      assert run[1..] == rest;
    } else {
      run := [P.PoolSleep];
      assert run[1..] == [];
    }
  }

  // ----- the class and the protocol

  /** Wherever the protocol takes the action with the pool p, it leaves the pool q. */
  ghost predicate Steps(p: Pool, a: P.Action, q: Pool) {
    forall s: P.Sys :: s.pool == p && P.Enabled(s, a) ==> P.Apply(s, a).pool == q
  }

  /** Registration steps for a call that holds the container id, and nothing else. */
  ghost predicate AdmitSteps(p: Pool, id: Id, ip: string, runner: string, q: Pool) {
    forall s: P.Sys, t: P.Tid ::
      s.pool == p && P.Enabled(s, P.Admit(t)) && s.threads[t] == P.Checked(runner, id, ip) ==>
        P.Apply(s, P.Admit(t)).pool == q
  }

  /** The insertion of a created container whose address is ip. */
  ghost predicate InsertSteps(p: Pool, id: Id, ip: string, q: Pool) {
    forall s: P.Sys, t: P.Tid ::
      s.pool == p && P.Enabled(s, P.Insert(t)) && s.threads[t] == P.Created(id) && s.docker[id].ip == ip ==>
        P.Apply(s, P.Insert(t)).pool == q
  }

  /** A boot goroutine that reaps its container handles a death. */
  ghost predicate ReapSteps(p: Pool, id: Id, q: Pool) {
    forall s: P.Sys, t: P.Tid ::
      s.pool == p && P.Enabled(s, P.Reap(t)) && s.threads[t] == P.Reaping(id) ==> P.Apply(s, P.Reap(t)).pool == q
  }

  /** The pool after a claim of id, if there is anything to claim. */
  function Claiming(p: Pool, id: Id): Pool {
    if p.warm == map[] then p else Claim(p, id)
  }

  lemma StepsClaim(p: Pool, t: P.Tid, runner: string, id: Id)
    ensures Steps(p, P.Begin(t, runner, id), Claiming(Broadcast(p.(pending := p.pending + 1)), id))
    ensures Steps(p, P.Wake(t, id), Claiming(p, id))
    ensures Steps(p, P.Retry(t, id), Claiming(p.(pending := p.pending + 1), id))
  {
  }

  lemma StepsDeliver(p: Pool, t: P.Tid, id: Id)
    ensures Steps(p, P.Deliver(t, id), HandleDeath(p, id))
  {
  }

  lemma StepsAbort(p: Pool, t: P.Tid, id: Id)
    ensures Steps(p, P.AbortWorker(t, id), Abort(p, id))
  {
  }

  lemma StepsReap(p: Pool, id: Id)
    ensures ReapSteps(p, id, HandleDeath(p, id))
  {
  }

  lemma StepsBootFail(p: Pool, t: P.Tid, ok: bool)
    ensures Steps(p, P.BootFail(t, ok), p.(booting := p.booting - 1))
  {
  }

  lemma StepsInsert(p: Pool, id: Id, ip: string)
    ensures InsertSteps(p, id, ip, p.(booting := p.booting - 1, warm := p.warm[id := ip]))
  {
  }

  lemma StepsSettings(p: Pool, maxWorkers: int, warmConfig: int)
    ensures Steps(p, P.UpdateSettings(maxWorkers, warmConfig), Settings(p, maxWorkers, warmConfig))
  {
  }

  lemma StepsSignal(p: Pool, t: P.Tid)
    ensures Steps(p, P.Cancel(t), p.(pending := p.pending - 1))
    ensures Steps(p, P.Announce(t), Broadcast(p))
  {
  }

  lemma StepsEvaluate(p: Pool, t: P.Tid)
    ensures Steps(p, P.EvaluateCapacity(t), Evaluate(p))
  {
  }

  lemma StepsAdmit(p: Pool, id: Id, ip: string, runner: string)
    ensures AdmitSteps(p, id, ip, runner, Register(p, id, ip, runner))
  {
  }

  class Orchestrator {
    const standalone: StandaloneManager  // the pauser, and one half of the status reporter
    const scaleset: BaseManager          // the other half
    var broadcastCh: nat
    var warmPool: map<Id, string>
    var activeWorkers: map<Id, ActiveWorker>
    var activeListeners: map<string, int>
    var maxWorkers: int
    var warmWorkersConfig: int
    var bootingCount: int
    var pendingAllocations: int
    var isPaused: bool

    function View(): Pool
      reads this
    {
      Pool(broadcastCh, warmPool, activeWorkers, activeListeners, maxWorkers, warmWorkersConfig,
           bootingCount, pendingAllocations, isPaused)
    }

    /** What holds whenever the lock is free. */
    ghost predicate Valid()
      reads this, standalone
    {
      && standalone.base != scaleset
      && IndexAgrees(activeWorkers, activeListeners)
      && isPaused == standalone.globalPaused
    }

    constructor (standalone: StandaloneManager, scaleset: BaseManager, maxWorkers: int, warmWorkers: int)
      requires standalone.base != scaleset && !standalone.globalPaused
      ensures Valid() && this.standalone == standalone && this.scaleset == scaleset
      ensures View() == Pool(0, map[], map[], map[], maxWorkers, warmWorkers, 0, 0, false)
    {
      this.standalone, this.scaleset := standalone, scaleset;
      this.maxWorkers, warmWorkersConfig := maxWorkers, warmWorkers;
      warmPool, activeWorkers, activeListeners := map[], map[], map[];
      broadcastCh, bootingCount, pendingAllocations, isPaused := 0, 0, 0, false;
    }

    /** recoverState: fill the maps from the container listing; without a listing report it and start afresh. */
    method RecoverState(listed: Option<seq<Listed>>) returns (ok: bool)
      requires Valid() && IsEmpty(View()) && (listed.Some? ==> DistinctIds(listed.value))
      modifies this`warmPool, this`activeWorkers, this`activeListeners
      ensures Valid() && ok == listed.Some?
      ensures View() == if ok then Recover(old(View()), listed.value) else old(View())
    {
      ghost var p := View();
      if listed.None? {
        return false;
      }
      var listing := listed.value;
      for i := 0 to |listing|
        invariant View() == Recover(p, listing[..i])
        invariant isPaused == standalone.globalPaused
      {
        assert listing[..i + 1][..i] == listing[..i];
        var c := listing[i];
        if c.state != "running" {
          continue;
        }
        var name := "";
        if |c.names| > 0 {
          name := TrimPrefix(c.names[0], "/");
        }
        if IsActiveName(name) {
          var runnerName := ParseRunner(name);
          activeWorkers := activeWorkers[c.id := ActiveWorker(c.ip, runnerName)];
          activeListeners := activeListeners[runnerName := Get(activeListeners, runnerName) + 1];
        } else if IsWarmName(name) {
          warmPool := warmPool[c.id := c.ip];
        }
      }
      assert listing[..|listing|] == listing;
      RecoverIndexes(p, listing);
      return true;
    }

    method BroadcastAll()
      modifies this`broadcastCh
      ensures View() == Broadcast(old(View())) && broadcastCh == old(broadcastCh) + 1
      ensures forall t :: Steps(old(View()), P.Announce(t), View())
    {
      forall t { StepsSignal(View(), t); }
      broadcastCh := broadcastCh + 1;
    }

    method UpdateSettings(maxWorkers: int, warmWorkers: int)
      requires Valid()
      modifies this`maxWorkers, this`warmWorkersConfig, this`broadcastCh
      ensures Valid() && View() == Settings(old(View()), maxWorkers, warmWorkers)
      ensures this.maxWorkers == maxWorkers && warmWorkersConfig == warmWorkers && broadcastCh == old(broadcastCh) + 1
      ensures Steps(old(View()), P.UpdateSettings(maxWorkers, warmWorkers), View())
    {
      StepsSettings(View(), maxWorkers, warmWorkers);
      this.maxWorkers := maxWorkers;
      warmWorkersConfig := warmWorkers;
      BroadcastAll();
    }

    /** The active workers of one runner. */
    method GetActiveCount(runnerName: string) returns (count: int)
      requires Valid()
      ensures count == Count(activeWorkers, Of(runnerName))
    {
      IndexReads(View(), runnerName);
      count := Get(activeListeners, runnerName);
    }

    // ----- AllocateWorker

    /** Take any warm container; none only if there is none. */
    method ClaimAny() returns (candidate: Option<(Id, string)>)
      modifies this`warmPool, this`pendingAllocations
      ensures candidate.None? ==> old(warmPool) == map[] && View() == old(View())
      ensures candidate.Some? ==>
                && candidate.value.0 in old(warmPool) && old(warmPool)[candidate.value.0] == candidate.value.1
                && View() == Claim(old(View()), candidate.value.0)
                && warmPool == old(warmPool) - {candidate.value.0} && pendingAllocations == old(pendingAllocations) - 1
      ensures forall t, id :: candidate.None? || id == candidate.value.0 ==> Steps(old(View()), P.Wake(t, id), View())
    {
      forall t, id { StepsClaim(View(), t, "", id); }
      candidate := None;
      if warmPool != map[] {
        var id :| id in warmPool;
        candidate := Some((id, warmPool[id]));
        warmPool := warmPool - {id};
      }
      if candidate.Some? {
        pendingAllocations := pendingAllocations - 1;
      }
    }

    /** The first stretch: announce the demand, then claim or sleep on the returned channel. */
    method BeginAllocation() returns (candidate: Option<(Id, string)>, ch: nat)
      requires Valid()
      modifies this`warmPool, this`pendingAllocations, this`broadcastCh
      ensures Valid() && ch == broadcastCh
      ensures var p := Broadcast(old(View()).(pending := old(pendingAllocations) + 1));
              && (candidate.None? ==> p.warm == map[] && View() == p)
              && (candidate.Some? ==> candidate.value.0 in p.warm && p.warm[candidate.value.0] == candidate.value.1
                                      && View() == Claim(p, candidate.value.0))
      ensures forall t, r, id :: candidate.None? || id == candidate.value.0 ==>
                Steps(old(View()), P.Begin(t, r, id), View())
    {
      forall t, r, id { StepsClaim(View(), t, r, id); }
      pendingAllocations := pendingAllocations + 1;
      BroadcastAll();
      candidate := ClaimAny();
      ch := broadcastCh;
    }

    /** After a dead candidate: the demand rises again, but nobody is told. */
    method RetryAllocation() returns (candidate: Option<(Id, string)>, ch: nat)
      requires Valid()
      modifies this`warmPool, this`pendingAllocations
      ensures Valid() && ch == broadcastCh == old(broadcastCh)
      ensures var p := old(View()).(pending := old(pendingAllocations) + 1);
              && (candidate.None? ==> p.warm == map[] && View() == p)
              && (candidate.Some? ==> candidate.value.0 in p.warm && p.warm[candidate.value.0] == candidate.value.1
                                      && View() == Claim(p, candidate.value.0))
      ensures forall t, id :: candidate.None? || id == candidate.value.0 ==> Steps(old(View()), P.Retry(t, id), View())
    {
      forall t, id { StepsClaim(View(), t, "", id); }
      pendingAllocations := pendingAllocations + 1;
      candidate := ClaimAny();
      ch := broadcastCh;
    }

    method CancelAllocation()
      requires Valid()
      modifies this`pendingAllocations
      ensures Valid() && View() == old(View()).(pending := old(pendingAllocations) - 1)
      ensures forall t :: Steps(old(View()), P.Cancel(t), View())
    {
      forall t { StepsSignal(View(), t); }
      pendingAllocations := pendingAllocations - 1;
    }

    /** Registration overwrites an entry of the same container, and then counts it twice. */
    method RegisterWorker(id: Id, ip: string, runnerName: string)
      requires Valid()
      modifies this`activeWorkers, this`activeListeners, this`broadcastCh
      ensures View() == Register(old(View()), id, ip, runnerName)
      ensures activeWorkers == old(activeWorkers)[id := ActiveWorker(ip, runnerName)]
      ensures broadcastCh == old(broadcastCh) + 1
      ensures activeListeners == old(activeListeners)[runnerName := Get(old(activeListeners), runnerName) + 1]
      ensures Valid() <==> id !in old(activeWorkers)
      ensures AdmitSteps(old(View()), id, ip, runnerName, View())
    {
      IndexRegisterExactly(View(), id, ip, runnerName);
      StepsAdmit(View(), id, ip, runnerName);
      activeWorkers := activeWorkers[id := ActiveWorker(ip, runnerName)];
      activeListeners := activeListeners[runnerName := Get(activeListeners, runnerName) + 1];
      BroadcastAll();
    }

    // ----- maintainPool and its boot goroutines

    /** From one wake-up to the next sleep: start boots until a guard fails. */
    method StartBoots() returns (started: nat, ch: nat)
      requires Valid()
      modifies this`bootingCount
      ensures Valid() && ch == broadcastCh
      ensures started == Shortfall(old(View())) && !MayBoot(View())
      ensures View() == old(View()).(booting := old(bootingCount) + started)
    {
      started := 0;
      var target := warmWorkersConfig + pendingAllocations;
      while |warmPool| + bootingCount < target && |warmPool| + |activeWorkers| + bootingCount < maxWorkers
        invariant View() == old(View()).(booting := old(bootingCount) + started)
        invariant started <= Shortfall(old(View()))
        decreases target - bootingCount
      {
        bootingCount := bootingCount + 1;
        started := started + 1;
      }
      ch := broadcastCh;
    }

    method FinishBoot(booted: Option<(Id, string)>)
      requires Valid()
      modifies this`bootingCount, this`warmPool
      ensures Valid()
      ensures View() == match booted
                        case None => old(View()).(booting := old(bootingCount) - 1)
                        case Some((id, ip)) =>
                          old(View()).(booting := old(bootingCount) - 1, warm := old(warmPool)[id := ip])
      ensures booted.None? ==> forall t, ok :: Steps(old(View()), P.BootFail(t, ok), View())
      ensures booted.Some? ==> InsertSteps(old(View()), booted.value.0, booted.value.1, View())
    {
      forall t, ok { StepsBootFail(View(), t, ok); }
      if booted.Some? { StepsInsert(View(), booted.value.0, booted.value.1); }
      bootingCount := bootingCount - 1;
      if booted.Some? {
        warmPool := warmPool[booted.value.0 := booted.value.1];
      }
    }

    // ----- deaths and aborts

    /** Both managers have marked the runner idle; the standalone one stays frozen under a pause. */
    ghost predicate MarkedIdle(standaloneBefore: map<string, Lifecycle.Proc>,
                               scalesetBefore: map<string, Lifecycle.Proc>,
                               runnerName: string)
      reads this, standalone, standalone.base, scaleset
    {
      && standalone.base.processes
         == WriteEntry(standaloneBefore, runnerName,
                       Lifecycle.Write.MarkIdle(if standalone.globalPaused then Lifecycle.Paused else Lifecycle.Online))
      && scaleset.processes == WriteEntry(scalesetBefore, runnerName, Lifecycle.Write.MarkIdle(Lifecycle.Online))
    }

    /** The status reporter's MarkIdle, which reaches both managers. */
    method MarkIdle(runnerName: string)
      requires standalone.base != scaleset
      modifies standalone.base`processes, scaleset`processes
      ensures MarkedIdle(old(standalone.base.processes), old(scaleset.processes), runnerName)
    {
      standalone.MarkIdle(runnerName);
      scaleset.MarkIdle(runnerName, Lifecycle.Online);
    }

    /** The status reporter's MarkBusy; it runs outside the lock. */
    method MarkBusy(runnerName: string)
      requires standalone.base != scaleset
      modifies standalone.base`processes, scaleset`processes
      ensures standalone.base.processes
              == WriteEntry(old(standalone.base.processes), runnerName, Lifecycle.Write.MarkBusy)
      ensures scaleset.processes == WriteEntry(old(scaleset.processes), runnerName, Lifecycle.Write.MarkBusy)
    {
      standalone.base.MarkBusy(runnerName);
      scaleset.MarkBusy(runnerName);
    }

    /** The worker leaves the map and its runner's count. */
    method DropActive(id: Id) returns (runner: string)
      requires Valid() && id in activeWorkers
      modifies this`activeWorkers, this`activeListeners
      ensures Valid() && View() == Unregister(old(View()), id) && runner == old(activeWorkers)[id].runner
    {
      IndexUnregister(View(), id);
      runner := activeWorkers[id].runner;
      activeWorkers := activeWorkers - {id};
      activeListeners := activeListeners[runner := Get(activeListeners, runner) - 1];
    }

    /** What a completion and an abort have in common. */
    method RemoveActive(id: Id) returns (runner: string)
      requires Valid() && id in activeWorkers
      modifies this`activeWorkers, this`activeListeners, standalone.base`processes, scaleset`processes
      ensures Valid() && View() == Unregister(old(View()), id) && runner == old(activeWorkers)[id].runner
      ensures MarkedIdle(old(standalone.base.processes), old(scaleset.processes), runner)
    {
      runner := DropActive(id);
      MarkIdle(runner);
    }

    /** handleContainerDeath under the lock; completed names the runner whose job counter goes up. */
    method HandleContainerDeath(id: Id) returns (completed: Option<string>)
      requires Valid()
      modifies this`activeWorkers, this`activeListeners, this`warmPool, this`broadcastCh
      modifies standalone.base`processes, scaleset`processes
      ensures Valid() && View() == HandleDeath(old(View()), id)
      ensures activeWorkers == old(activeWorkers) - {id}
      ensures warmPool == if id in old(activeWorkers) then old(warmPool) else old(warmPool) - {id}
      ensures broadcastCh > old(broadcastCh) <==> id in old(activeWorkers) || id in old(warmPool)
      ensures forall t :: Steps(old(View()), P.Deliver(t, id), View())
      ensures ReapSteps(old(View()), id, View())
      ensures completed == if id in old(activeWorkers) then Some(old(activeWorkers)[id].runner) else None
      ensures completed.None? ==> standalone.base.processes == old(standalone.base.processes)
                                  && scaleset.processes == old(scaleset.processes)
      ensures completed.Some? ==> MarkedIdle(old(standalone.base.processes), old(scaleset.processes), completed.value)
    {
      forall t { StepsDeliver(View(), t, id); }
      StepsReap(View(), id);
      completed := None;
      if id in activeWorkers {
        var runner := RemoveActive(id);
        completed := Some(runner);
      } else if id in warmPool {
        warmPool := warmPool - {id};
      } else {
        return;
      }
      BroadcastAll();
    }

    /** AbortWorker under the lock: no broadcast, no job counted. */
    method AbortSection(id: Id)
      requires Valid()
      modifies this`activeWorkers, this`activeListeners, standalone.base`processes, scaleset`processes
      ensures Valid() && View() == Abort(old(View()), id)
      ensures activeWorkers == old(activeWorkers) - {id}
      ensures forall t :: Steps(old(View()), P.AbortWorker(t, id), View())
      ensures id !in old(activeWorkers) ==> standalone.base.processes == old(standalone.base.processes)
                                            && scaleset.processes == old(scaleset.processes)
      ensures id in old(activeWorkers) ==>
                MarkedIdle(old(standalone.base.processes), old(scaleset.processes), old(activeWorkers)[id].runner)
    {
      forall t { StepsAbort(View(), t, id); }
      if id in activeWorkers {
        var _ := RemoveActive(id);
      }
    }

    // ----- evaluateCapacity

    method TotalAssigned() returns (total: int)
      requires Valid()
      ensures total == Sum(activeListeners) == |activeWorkers|
    {
      total := 0;
      var rest := activeListeners;
      while rest != map[]
        invariant total + Sum(rest) == Sum(activeListeners)
        decreases |rest|
      {
        var r :| r in rest;
        SumRemove(rest, r);
        total := total + rest[r];
        assert (rest - {r}).Keys == rest.Keys - {r};
        rest := rest - {r};
      }
      IndexSum(activeWorkers, activeListeners);
    }

    method BusyRunners() returns (active: seq<string>)
      requires IndexAgrees(activeWorkers, activeListeners)
      ensures (set n | n in active) == ActiveRunners(activeWorkers)
    {
      active := [];
      var rest := activeListeners.Keys;
      while rest != {}
        invariant rest <= activeListeners.Keys
        invariant forall r :: r in active <==> r in activeListeners && r !in rest && activeListeners[r] > 0
        decreases |rest|
      {
        var r :| r in rest;
        if activeListeners[r] > 0 {
          active := active + [r];
        }
        rest := rest - {r};
      }
      PositiveAreActive(activeWorkers, activeListeners);
    }

    /**
      Freeze or thaw. ok is the set of process groups that signals reach. A freeze stops no runner
      that has an active worker.
     */
    method EvaluateCapacity(ok: set<nat>)
      requires Valid()
      modifies this`isPaused, standalone`globalPaused, standalone.base`processes
      ensures Valid() && View() == Evaluate(old(View()))
      ensures forall t :: Steps(old(View()), P.EvaluateCapacity(t), View())
      ensures isPaused <==> |activeWorkers| >= maxWorkers
      ensures standalone.base.processes
              == if isPaused && !old(isPaused) then
                   FreezeAll(old(standalone.base.processes), standalone.listenerData, ActiveRunners(activeWorkers), ok)
                 else if !isPaused && old(isPaused) then
                   ThawAll(old(standalone.base.processes), standalone.listenerData, ok)
                 else old(standalone.base.processes)
    {
      forall t { StepsEvaluate(View(), t); }
      EvaluateDecides(View());
      var totalAssigned := TotalAssigned();
      if totalAssigned >= maxWorkers && !isPaused {
        isPaused := true;
        var active := BusyRunners();
        standalone.LockOthers(active, ok);
      } else if totalAssigned < maxWorkers && isPaused {
        isPaused := false;
        standalone.UnlockOthers(ok);
      }
    }
  }
}
