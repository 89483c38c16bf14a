/**
 * The classes behind `Events`: the shared status, the part of AsyncRunner that deals with events
 * and schedulers, and the scope object, with their fields assigned as the program assigns them.
 */
module AsyncEvents {
  import opened E = Events

  class AsyncOpState {
    var status: Status

    constructor ()
      ensures status == Normal
    {
      status := Normal;
    }

    method SetStatus(s: Status) returns (changed: bool)
      modifies this
      ensures changed <==> old(status) == Normal
      ensures status == if changed then s else old(status)
    {
      if status != Normal {
        return false;
      }
      status := s;
      return true;
    }

    method Cancel() returns (changed: bool)
      modifies this
      ensures status == if old(status) == Normal then Status.Cancelled else old(status)
      ensures status == Received(old(status), Signal.Cancel)
      ensures changed <==> old(status) == Normal
    {
      changed := SetStatus(Status.Cancelled);
    }

    method Timedout() returns (changed: bool)
      modifies this
      ensures status == if old(status) == Normal then Status.Timedout else old(status)
      ensures status == Received(old(status), Signal.TimeOut)
      ensures changed <==> old(status) == Normal
    {
      changed := SetStatus(Status.Timedout);
    }

    method Reset() returns (was: Status)
      modifies this
      ensures status == Normal == Received(old(status), Signal.Reset) && was == old(status)
    {
      was := status;
      status := Normal;
    }

    /** What other threads do: of several events without a reset only the first is told that it changed something. */
    method Receive(signals: seq<Signal>) returns (changes: nat)
      modifies this
      ensures status == AllReceived(old(status), signals)
      ensures NoReset(signals) ==> changes == if old(status) == Normal && signals != [] then 1 else 0
    {
      changes := 0;
      ghost var was := status;
      for i := 0 to |signals|
        invariant AllReceived(status, signals[i..]) == AllReceived(was, signals)
        invariant NoReset(signals) ==> (changes == if was == Normal && i > 0 then 1 else 0)
        invariant NoReset(signals) ==> (status == Normal <==> was == Normal && i == 0)
      {
        assert signals[i..][1..] == signals[i + 1..];
        var changed := false;
        match signals[i] {
          case Cancel => changed := Cancel();
          case TimeOut => changed := Timedout();
          case Reset => var _ := Reset();
        }
        if changed {
          changes := changes + 1;
        }
      }
    }
  }

  function AsOutcome(threw: bool, m: Machine): Outcome { if threw then Threw(m) else Returned(m) }

  /** The part of AsyncRunner that deals with events and schedulers. */
  class AsyncRunner {
    const opState: AsyncOpState
    var isEventsAllowed: bool
    var scheduler: Sched
    var on: Sched
    var checks: nat
    ghost var suspensions: nat
    ghost var trace: seq<(nat, Sched)>

    ghost function Snapshot(): Machine
      reads this, opState
    {
      Machine(opState.status, isEventsAllowed, scheduler, on, checks, suspensions, trace)
    }

    constructor (s: Sched)
      ensures fresh(opState) && Snapshot() == Machine(Normal, true, s, s, 0, 0, [])
    {
      opState := new AsyncOpState();
      isEventsAllowed, scheduler, on, checks, suspensions, trace := true, s, s, 0, 0, [];
    }

    method HandleEvents(env: Environment, unwinding: bool) returns (threw: bool)
      modifies this`checks, opState
      ensures AsOutcome(threw, Snapshot()) == E.HandleEvents(old(Snapshot()), env, unwinding)
    {
      var _ := opState.Receive(env(checks));
      checks := checks + 1;
      if !isEventsAllowed {
        return false;
      }
      if unwinding {
        return false;
      }
      if opState.status == Normal {
        return false;
      }
      return true;
    }

    method Defer(env: Environment, unwinding: bool) returns (threw: bool)
      modifies this`checks, this`on, this`suspensions, opState
      ensures AsOutcome(threw, Snapshot()) == E.Defer(old(Snapshot()), env, unwinding)
    {
      threw := HandleEvents(env, unwinding);
      if threw {
        return;
      }
      on := scheduler;
      suspensions := suspensions + if unwinding then 0 else 1;
      threw := HandleEvents(env, unwinding);
    }

    method SwitchTo(dst: Sched, env: Environment, unwinding: bool) returns (threw: bool)
      modifies this`checks, this`on, this`suspensions, this`scheduler, opState
      ensures AsOutcome(threw, Snapshot()) == E.SwitchTo(old(Snapshot()), dst, env, unwinding)
    {
      if dst == scheduler {
        return false;
      }
      scheduler := dst;
      threw := Defer(env, unwinding);
    }

    method DisableEvents(env: Environment) returns (threw: bool)
      modifies this`checks, this`isEventsAllowed, opState
      ensures AsOutcome(threw, Snapshot()) == E.DisableEvents(old(Snapshot()), env)
    {
      threw := HandleEvents(env, false);
      if !threw {
        isEventsAllowed := false;
      }
    }

    method EnableEvents(env: Environment) returns (threw: bool)
      modifies this`checks, this`isEventsAllowed, opState
      ensures AsOutcome(threw, Snapshot()) == E.EnableEvents(old(Snapshot()), env)
    {
      isEventsAllowed := true;
      threw := HandleEvents(env, false);
    }
  }

  /** The scope object: what its constructor and its destructor do to the runner. */
  class AsyncProxyBase {
    const runner: AsyncRunner
    const source: Sched

    constructor (runner: AsyncRunner)
      ensures this.runner == runner && source == runner.scheduler
    {
      this.runner := runner;
      source := runner.scheduler;
    }

    method Enter(dst: Sched, env: Environment) returns (threw: bool)
      modifies runner, runner.opState
      ensures AsOutcome(threw, runner.Snapshot()) == E.SwitchTo(old(runner.Snapshot()), dst, env, false)
    {
      threw := runner.SwitchTo(dst, env, false);
    }

    /** `threw` tells that the body has thrown; an exception from here ends the program. */
    method Destroy(threw: bool, env: Environment) returns (terminated: bool)
      modifies runner, runner.opState
      ensures Leave(AsOutcome(threw, old(runner.Snapshot())), source, env) ==
              if terminated then Terminated(runner.Snapshot()) else AsOutcome(threw, runner.Snapshot())
      ensures runner.scheduler == source
    {
      terminated := runner.SwitchTo(source, env, threw);
    }
  }
}
