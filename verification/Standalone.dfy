/** The standalone manager: listener processes, the global pause, and the sections of launch and halt. */
module Standalone {
  import opened Collections
  import opened Lifecycle
  import opened BaseManagers

  /**
    ListenerData: the process that was started last, its process group (zero when there was none),
    and the channel that cancels a retry.
   */
  datatype Listener = Listener(cmd: Option<nat>, pgid: nat, retryCancel: Option<nat>)

  const NO_LISTENER := Listener(None, 0, None)

  /** A signal goes out only to a listener that has a process group; ok are the groups it reaches. */
  predicate Reached(l: Listener, ok: set<nat>) {
    l.pgid != 0 && l.pgid in ok
  }

  predicate Reaches(listeners: map<string, Listener>, name: string, ok: set<nat>) {
    name in listeners && Reached(listeners[name], ok)
  }

  /** LockOthers on one entry. */
  function FreezeOne(p: Proc, busy: bool, reached: bool): Proc {
    if !busy && reached then Written(p, Freeze) else p
  }

  function FreezeAll(procs: map<string, Proc>, listeners: map<string, Listener>, active: set<string>, ok: set<nat>)
    : map<string, Proc>
  {
    map n | n in procs :: FreezeOne(procs[n], n in active, Reaches(listeners, n, ok))
  }

  /** UnlockOthers on one entry. */
  function ThawOne(p: Proc, reached: bool): Proc {
    if reached then Written(p, Thaw) else p
  }

  function ThawAll(procs: map<string, Proc>, listeners: map<string, Listener>, ok: set<nat>): map<string, Proc> {
    map n | n in procs :: ThawOne(procs[n], Reaches(listeners, n, ok))
  }

  /** What the locked section of launchListener decides. */
  datatype Launch = Cancelled | Frozen | Up

  /** launchListener under the lock: a launch that was cancelled is dropped, else the process is recorded. */
  function LaunchOutcome(l: Listener, closed: set<nat>, paused: bool, stopped: bool): Launch {
    if l.retryCancel.Some? && l.retryCancel.value in closed then Cancelled
    else if paused && stopped then Frozen
    else Up
  }

  function Recorded(l: Listener, outcome: Launch, pgid: nat): Listener {
    if outcome == Cancelled then l else Listener(Some(pgid), pgid, None)
  }

  /** What the locked section of Halt decides. */
  datatype HaltStep = NotFound | CloseCancel(channel: nat) | NothingToDo | SignalGroup(pgid: nat)

  function HaltDecision(l: Listener): HaltStep {
    if l.cmd.None? && l.retryCancel.Some? then CloseCancel(l.retryCancel.value)
    else if l.cmd.None? then NothingToDo
    else SignalGroup(l.pgid)
  }

  function Halted(l: Listener): Listener {
    if HaltDecision(l).CloseCancel? then l.(retryCancel := None) else l
  }

  /** Whom a freeze touches: no busy runner is stopped, every reachable online one is, nothing else changes. */
  lemma FreezeSparesTheBusy(procs: map<string, Proc>, listeners: map<string, Listener>, active: set<string>,
                            ok: set<nat>, n: string)
    requires n in procs
    ensures var q := FreezeAll(procs, listeners, active, ok);
            && q.Keys == procs.Keys
            && q[n].workers == procs[n].workers && q[n].serial == procs[n].serial
            && (n in active ==> q[n] == procs[n])
            && (procs[n].state != Online ==> q[n] == procs[n])
            && (procs[n].state == Online && n !in active && Reaches(listeners, n, ok) ==> q[n].state == Paused)
            && (procs[n].state == Online && !Reaches(listeners, n, ok) ==> q[n].state == Online)
  {
  }

  /** Whom a thaw touches: every reachable paused runner is continued, nothing else changes. */
  lemma ThawTouchesThePaused(procs: map<string, Proc>, listeners: map<string, Listener>, ok: set<nat>, n: string)
    requires n in procs
    ensures var q := ThawAll(procs, listeners, ok);
            && q.Keys == procs.Keys
            && q[n] == if procs[n].state == Paused && Reaches(listeners, n, ok) then procs[n].(state := Online)
                       else procs[n]
  {
  }

  /** A thaw undoes a freeze: reached again with nothing in between, every entry is as before. */
  lemma ThawUndoesFreeze(procs: map<string, Proc>, listeners: map<string, Listener>, active: set<string>, ok: set<nat>)
    requires forall n <- procs :: procs[n].state != Paused
    ensures ThawAll(FreezeAll(procs, listeners, active, ok), listeners, ok) == procs
  {
    var q := ThawAll(FreezeAll(procs, listeners, active, ok), listeners, ok);
    assert q.Keys == procs.Keys;
    forall n <- procs ensures q[n] == procs[n] {}
  }

  class StandaloneManager {
    const base: BaseManager
    var listenerData: map<string, Listener>
    var globalPaused: bool
    var closed: set<nat>  // the cancel channels that have been closed

    constructor ()
      ensures fresh(base) && base.processes == map[] && listenerData == map[] && !globalPaused && closed == {}
    {
      base := new BaseManager();
      listenerData, globalPaused, closed := map[], false, {};
    }

    /** The locked section of launchListener; stopped tells whether SIGSTOP would succeed. */
    method RecordLaunch(name: string, pgid: nat, stopped: bool) returns (outcome: Launch)
      modifies this`listenerData
      ensures outcome == LaunchOutcome(if name in old(listenerData) then old(listenerData)[name] else NO_LISTENER,
                                       closed, globalPaused, stopped)
      ensures listenerData == if name in old(listenerData)
                              then old(listenerData)[name := Recorded(old(listenerData)[name], outcome, pgid)]
                              else old(listenerData)
      ensures outcome == Cancelled <==> name in old(listenerData) && old(listenerData)[name].retryCancel.Some?
                                        && old(listenerData)[name].retryCancel.value in closed
      ensures outcome != Cancelled ==> (outcome == Frozen <==> globalPaused && stopped)
      ensures listenerData == if outcome != Cancelled && name in old(listenerData)
                              then old(listenerData)[name := Listener(Some(pgid), pgid, None)] else old(listenerData)
    {
      if name in listenerData {
        var ld := listenerData[name];
        if ld.retryCancel.Some? {
          if ld.retryCancel.value in closed {
            return Cancelled;
          }
        }
        listenerData := listenerData[name := Listener(Some(pgid), pgid, None)];
      }
      if globalPaused {
        if stopped {
          return Frozen;
        }
      }
      return Up;
    }

    /** The locked section of Halt: it forgets the cancel channel in the moment it closes it. */
    method HaltSection(name: string) returns (step: HaltStep)
      modifies this`listenerData, this`closed
      ensures name !in old(listenerData) ==>
                step == NotFound && listenerData == old(listenerData) && closed == old(closed)
      ensures name in old(listenerData) ==>
                && step == HaltDecision(old(listenerData)[name])
                && listenerData == old(listenerData)[name := Halted(old(listenerData)[name])]
                && closed == old(closed) + (if step.CloseCancel? then {step.channel} else {})
      ensures name in old(listenerData) ==>
                var l := old(listenerData)[name];
                && (step.SignalGroup? <==> l.cmd.Some?) && (step.SignalGroup? ==> step.pgid == l.pgid)
                && (step.CloseCancel? <==> l.cmd.None? && l.retryCancel.Some?)
                && (step.CloseCancel? ==> l.retryCancel == Some(step.channel))
                && listenerData[name] == if step.CloseCancel? then l.(retryCancel := None) else l
    {
      if name !in listenerData {
        return NotFound;
      }
      var ld := listenerData[name];
      if ld.cmd.None? && ld.retryCancel.Some? {
        closed := closed + {ld.retryCancel.value};
        step := CloseCancel(ld.retryCancel.value);
        ld := ld.(retryCancel := None);
      } else if ld.cmd.None? {
        step := NothingToDo;
      } else {
        step := SignalGroup(ld.pgid);
      }
      listenerData := listenerData[name := ld];
    }

    /** Stop every online listener outside the list that the signal reaches. */
    method LockOthers(activeRunners: seq<string>, ok: set<nat>)
      modifies this`globalPaused, base`processes
      ensures globalPaused
      ensures base.processes == FreezeAll(old(base.processes), listenerData, (set n | n in activeRunners), ok)
    {
      globalPaused := true;
      var activeMap: set<string> := {};
      for i := 0 to |activeRunners|
        invariant activeMap == set n | n in activeRunners[..i]
      {
        activeMap := activeMap + {activeRunners[i]};
      }
      assert activeRunners[..|activeRunners|] == activeRunners;
      ghost var before := base.processes;
      ghost var after := FreezeAll(before, listenerData, activeMap, ok);
      var names := base.processes.Keys;
      while names != {}
        invariant globalPaused && names <= before.Keys && base.processes.Keys == before.Keys
        invariant forall n <- before :: base.processes[n] == if n in names then before[n] else after[n]
        decreases |names|
      {
        var name :| name in names;
        var proc := base.processes[name];
        if proc.state == Online && name !in activeMap {
          if name in listenerData && listenerData[name].pgid != 0 {
            if listenerData[name].pgid in ok {
              base.processes := base.processes[name := proc.(state := Paused)];
            }
          }
        }
        names := names - {name};
      }
      assert base.processes == after;
    }

    /** Continue every paused listener that the signal reaches. */
    method UnlockOthers(ok: set<nat>)
      modifies this`globalPaused, base`processes
      ensures !globalPaused
      ensures base.processes == ThawAll(old(base.processes), listenerData, ok)
    {
      globalPaused := false;
      ghost var before := base.processes;
      ghost var after := ThawAll(before, listenerData, ok);
      var names := base.processes.Keys;
      while names != {}
        invariant !globalPaused && names <= before.Keys && base.processes.Keys == before.Keys
        invariant forall n <- before :: base.processes[n] == if n in names then before[n] else after[n]
        decreases |names|
      {
        var name :| name in names;
        var proc := base.processes[name];
        if proc.state == Paused {
          if name in listenerData && listenerData[name].pgid != 0 {
            if listenerData[name].pgid in ok {
              base.processes := base.processes[name := proc.(state := Online)];
            }
          }
        }
        names := names - {name};
      }
      assert base.processes == after;
    }

    /** Back to Online, or to Paused while the system is frozen. */
    method MarkIdle(name: string)
      modifies base`processes
      ensures base.processes
              == WriteEntry(old(base.processes), name, Write.MarkIdle(if globalPaused then Paused else Online))
    {
      var idleState := Online;
      if globalPaused {
        idleState := Paused;
      }
      base.MarkIdle(name, idleState);
    }
  }
}
