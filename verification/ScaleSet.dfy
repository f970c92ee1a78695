/** The scale-set manager: how a listener's exit is written to its runner. */
module ScaleSet {
  import opened Collections
  import opened Lifecycle
  import opened BaseManagers
  import R = ScaleSetRuns

  /** What one look of Launch's polling loop concludes. */
  datatype Poll = Succeeded | LaunchError | KeepWaiting

  class ScaleSetManager {
    const base: BaseManager
    var cancels: map<string, nat>  // the cancel function of each running listener

    constructor ()
      ensures fresh(base) && base.processes == map[] && cancels == map[]
    {
      base := new BaseManager();
      cancels := map[];
    }

    /** The entry and the slot of one runner are those of the protocol's state. */
    ghost predicate Shows(r: R.Runner, name: string)
      reads this, base
    {
      && name in base.processes && base.processes[name] == r.proc
      && r.cancel == if name in cancels then Some(cancels[name]) else None
    }

    /** Launch stores the cancel function of its listener. */
    method RecordCancel(name: string, cancel: nat)
      modifies this`cancels
      ensures cancels == old(cancels)[name := cancel]
      ensures forall r :: old(Shows(r, name)) && R.Enabled(r, R.Launch(cancel)) ==>
                Shows(R.Next(r, R.Launch(cancel)), name)
    {
      cancels := cancels[name := cancel];
    }

    /** First section of the exit goroutine: look whether the runner is draining, and choose the state to ask for. */
    method ObserveExit(name: string, failed: bool, cancelled: bool) returns (to: RunnerState)
      ensures to in {Failed, Offline}
      ensures to == Failed <==> failed && !cancelled && !(name in base.processes && base.processes[name].state == Draining)
      ensures forall r, k :: Shows(r, name) && R.Enabled(r, R.Observe(k, failed, cancelled)) ==>
                R.Next(r, R.Observe(k, failed, cancelled)).listeners[k].phase == R.Observed(to)
    {
      var wasDraining := base.IsDraining(name);
      to := if failed && !wasDraining && !cancelled then Failed else Offline;
    }

    /** Second section: ask for that state, whatever the runner's state is by now. */
    method RecordExit(name: string, to: RunnerState)
      modifies base`processes
      ensures base.processes == WriteEntry(old(base.processes), name, Write.Transition(to))
      ensures forall r, k ::
                old(Shows(r, name)) && R.Enabled(r, R.Record(k)) && r.listeners[k].phase == R.Observed(to) ==>
                Shows(R.Next(r, R.Record(k)), name)
    {
      var _ := base.Transition(name, to);
    }

    /** Last section: the listener can no longer be cancelled. */
    method ForgetCancel(name: string)
      modifies this`cancels
      ensures cancels == old(cancels) - {name}
      ensures forall r, k :: old(Shows(r, name)) && R.Enabled(r, R.Forget(k)) ==> Shows(R.Next(r, R.Forget(k)), name)
    {
      cancels := cancels - {name};
    }

    /** One turn of the loop that waits for the listener to come online. */
    method PollLaunch(name: string) returns (p: Poll)
      ensures p == if name in base.processes && base.processes[name].state == Online then Succeeded
                   else if name in base.processes && base.processes[name].state == Failed then LaunchError
                   else KeepWaiting
      ensures forall r, k :: Shows(r, name) && R.At(r, k, R.Polling) ==>
                && (p == Succeeded <==> R.Enabled(r, R.Return(k, false)))
                && (p == LaunchError <==> R.Enabled(r, R.GiveUp(k, false)))
    {
      if name in base.processes {
        var proc := base.processes[name];
        if proc.state == Online {
          return Succeeded;
        }
        if proc.state == Failed {
          return LaunchError;
        }
      }
      return KeepWaiting;
    }

    /** The cancel function to call, if there is one; after the call its listener is live no more. */
    method Halt(name: string) returns (cancel: Option<nat>)
      ensures cancel == if name in cancels then Some(cancels[name]) else None
      ensures forall r :: Shows(r, name) ==>
                cancel == r.cancel && (cancel.Some? ==> !R.IsLive(R.Next(r, R.Halt), cancel.value))
    {
      cancel := if name in cancels then Some(cancels[name]) else None;
    }

    method MarkBusy(name: string)
      modifies base`processes
      ensures base.processes == WriteEntry(old(base.processes), name, Write.MarkBusy)
      ensures forall r :: old(Shows(r, name)) ==> Shows(R.Next(r, R.JobBegins), name)
    {
      base.MarkBusy(name);
    }

    method MarkIdle(name: string)
      modifies base`processes
      ensures base.processes == WriteEntry(old(base.processes), name, Write.MarkIdle(Online))
      ensures forall r :: old(Shows(r, name)) ==> Shows(R.Next(r, R.JobEnds), name)
    {
      base.MarkIdle(name, Online);
    }
  }

  /** A write of the scale-set manager: it never freezes, and its idle state is Online. */
  predicate ScaleSetWrite(w: Write) {
    match w
    case Transition(to) => to in {Online, Failed, Offline}
    case MarkIdle(idle) => idle == Online
    case Freeze => false
    case Thaw => false
    case _ => true
  }

  /** A scale-set runner is never Paused, in any run. */
  lemma {:induction false} NeverPaused(p: Proc, writes: seq<Write>)
    requires p.state != Paused && forall w <- writes :: ScaleSetWrite(w)
    ensures After(p, writes).state != Paused && AllUsed(writes)
    decreases |writes|
  {
    if writes != [] {
      assert ScaleSetWrite(writes[0]);
      NeverPaused(Written(p, writes[0]), writes[1..]);
      assert forall w <- writes :: ScaleSetWrite(w) ==> Used(w);
    }
  }

  /**
    Between the sections of the exit goroutine others may write. The exit is then shown exactly unless the
    runner has become, or stayed, Busy while Offline is asked for, or has begun to drain while Failed is.
   */
  lemma ExitIsShownExactly(p: Proc, between: seq<Write>, failed: bool, cancelled: bool)
    requires p.state != Paused && forall w <- between :: ScaleSetWrite(w)
    ensures var target := R.ExitTarget(failed, cancelled, p.state == Draining);
            var q := After(p, between);
            var asksFailed := failed && !cancelled && p.state != Draining;
            Written(q, Transition(target)).state in {Offline, Failed}
            <==> !(q.state == Busy && !asksFailed) && !(q.state == Draining && asksFailed)
  {
    NeverPaused(p, between);
  }

  /** A stop between the two sections of a failing listener leaves its runner Draining. */
  lemma StopOvertakesFailure() returns (p: Proc, between: seq<Write>)
    ensures p == Proc(Online, 0, 0) && between == [StopEntry]
    ensures R.ExitTarget(true, false, p.state == Draining) == Failed
    ensures Written(After(p, between), Transition(Failed)).state == Draining
  {
    p, between := Proc(Online, 0, 0), [StopEntry];
    assert between[1..] == [];
  }
}
