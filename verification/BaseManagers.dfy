/** The shared manager: every method reads or writes one process entry through Lifecycle.Written. */
module BaseManagers {
  import opened Collections
  import opened Lifecycle

  datatype Error = RunnerNotFound | AlreadyRunning | InvalidTransition

  /** All entries, with one of them written. */
  function WriteEntry(procs: map<string, Proc>, name: string, w: Write): map<string, Proc> {
    if name in procs then procs[name := Written(procs[name], w)] else procs
  }

  /** A write to an unknown name does nothing, and a write to a known one touches no other entry. */
  lemma WriteEntryExactly(procs: map<string, Proc>, name: string, w: Write)
    ensures name !in procs ==> WriteEntry(procs, name, w) == procs
    ensures WriteEntry(procs, name, w).Keys == procs.Keys
    ensures forall n <- procs :: WriteEntry(procs, name, w)[n] == if n == name then Written(procs[n], w) else procs[n]
  {
  }

  class BaseManager {
    var processes: map<string, Proc>
    var nextSerial: nat

    constructor ()
      ensures processes == map[] && nextSerial == 0
    {
      processes, nextSerial := map[], 0;
    }

    /** Reports an error and changes nothing unless the table allows the transition. */
    method Transition(name: string, to: RunnerState) returns (r: Result<(), Error>)
      modifies this`processes
      ensures processes == WriteEntry(old(processes), name, Write.Transition(to))
      ensures r == if name !in old(processes) then Err(RunnerNotFound)
                   else if !ValidTransition(old(processes)[name].state, to) then Err(InvalidTransition)
                   else Ok(())
      ensures processes == if r.Ok? then old(processes)[name := old(processes)[name].(state := to)] else old(processes)
    {
      if name !in processes {
        return Err(RunnerNotFound);
      }
      var proc := processes[name];
      if !ValidTransition(proc.state, to) {
        return Err(InvalidTransition);
      }
      processes := processes[name := proc.(state := to)];
      return Ok(());
    }

    /** The part of Start before the launch: a fresh entry, unless the runner is up. */
    method StartEntry(name: string) returns (r: Result<nat, Error>)
      modifies this
      ensures name in old(processes) && !MayStart(old(processes)[name].state) ==>
                r == Err(AlreadyRunning) && processes == old(processes) && nextSerial == old(nextSerial)
      ensures name !in old(processes) || MayStart(old(processes)[name].state) ==>
                && r == Ok(old(nextSerial)) && nextSerial == old(nextSerial) + 1
                && processes == old(processes)[name := Proc(Registering, 0, old(nextSerial))]
      ensures name in old(processes) ==>
                processes == WriteEntry(old(processes), name, Write.StartEntry(old(nextSerial)))
    {
      if name in processes {
        var proc := processes[name];
        if proc.state != Offline && proc.state != Failed && proc.state != Registering {
          return Err(AlreadyRunning);
        }
      }
      processes := processes[name := Proc(Registering, 0, nextSerial)];
      r := Ok(nextSerial);
      nextSerial := nextSerial + 1;
    }

    /** The part of Start after a failed launch: it writes the entry it made, even over Draining. */
    method LaunchFailed(name: string, serial: nat)
      modifies this`processes
      ensures processes == if name in old(processes) && old(processes)[name].serial == serial
                           then WriteEntry(old(processes), name, Write.LaunchFailed) else old(processes)
      ensures forall n <- old(processes) ::
                n in processes && processes[n] == if n == name && old(processes)[n].serial == serial
                                                  then old(processes)[n].(state := Failed) else old(processes)[n]
      ensures processes.Keys == old(processes).Keys
    {
      if name in processes && processes[name].serial == serial {
        processes := processes[name := processes[name].(state := Failed)];
      }
    }

    /** The part of Stop before the halt; halt says whether the hook runs. */
    method StopEntry(name: string) returns (halt: Result<bool, Error>)
      modifies this`processes
      ensures processes == WriteEntry(old(processes), name, Write.StopEntry)
      ensures halt == if name !in old(processes) then Err(RunnerNotFound)
                      else Ok(old(processes)[name].state != Offline && old(processes)[name].state != Failed)
      ensures processes == if halt == Ok(true) then old(processes)[name := old(processes)[name].(state := Draining)]
                           else old(processes)
    {
      if name !in processes {
        return Err(RunnerNotFound);
      }
      var proc := processes[name];
      if proc.state == Offline || proc.state == Failed {
        return Ok(false);
      }
      processes := processes[name := proc.(state := Draining)];
      return Ok(true);
    }

    method MarkBusy(name: string)
      modifies this`processes
      ensures processes == WriteEntry(old(processes), name, Write.MarkBusy)
      ensures name !in old(processes) ==> processes == old(processes)
      ensures name in old(processes) ==>
                var p := old(processes)[name];
                processes == old(processes)[name := Proc(if p.state in {Online, Paused} then Busy else p.state,
                                                         p.workers + 1, p.serial)]
    {
      if name in processes {
        var proc := processes[name];
        proc := proc.(workers := proc.workers + 1);
        if proc.state == Online || proc.state == Paused {
          proc := proc.(state := Busy);
        }
        processes := processes[name := proc];
      }
    }

    method MarkIdle(name: string, idle: RunnerState)
      modifies this`processes
      ensures processes == WriteEntry(old(processes), name, Write.MarkIdle(idle))
      ensures name !in old(processes) ==> processes == old(processes)
      ensures name in old(processes) ==>
                var p := old(processes)[name];
                processes == old(processes)[name := if p.workers > 1 then p.(workers := p.workers - 1) else
                                                    p.(workers := 0, state := if p.state == Busy then idle else p.state)]
    {
      if name in processes {
        var proc := processes[name];
        if proc.workers > 0 {
          proc := proc.(workers := proc.workers - 1);
        }
        if proc.workers == 0 && proc.state == Busy {
          proc := proc.(state := idle);
        }
        processes := processes[name := proc];
      }
    }

    method IsDraining(name: string) returns (draining: bool)
      ensures draining <==> name in processes && processes[name].state == Draining
    {
      draining := name in processes && processes[name].state == Draining;
    }
  }
}
