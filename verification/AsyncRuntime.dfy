/**
 * The runtime as the program runs it: one object whose fields the functions of the runtime
 * assign, statement by statement.  Each method is one action, and leaves the fields as `Do`
 * of that action says; so every run of the machine is a run of this code.
 */
module AsyncRuntime {
  import opened Options
  import opened Runtime
  import opened RuntimeInvariant
  import opened RuntimeSafety
  import opened RuntimeTails

  lemma RunExtends(states: seq<State>, actions: seq<Action>, a: Action)
    requires IsCarefulRun(states, actions)
    requires Enabled(states[|actions|], a) && Defined(states[|actions|], a) && Careful(states[|actions|], a)
    ensures IsCarefulRun(states + [Do(states[|actions|], a)], actions + [a])
  {
  }

  class Engine {
    var runners: map<RunnerId, Runner>
    var nextRunner: RunnerId
    var count: int
    var posted: map<nat, Task>
    var nextTicket: nat
    var groups: seq<Group>
    var threads: seq<Thread>
    const strands: set<SchedId>
    var calls: set<GroupId>
    var exclusive: Option<nat>

    function Snapshot(): State
      reads this
    {
      State(runners, nextRunner, count, posted, nextTicket, groups, threads, strands, calls, exclusive)
    }

    ghost predicate Valid()
      reads this
    {
      Inv(Snapshot()) && TailsOk(Snapshot())
    }

    /** The action may be taken, and every pointer it follows is alive. */
    ghost predicate Ready(a: Action)
      reads this
    {
      Enabled(Snapshot(), a) && Defined(Snapshot(), a)
    }

    constructor (workers: nat, strands: set<SchedId>)
      ensures Valid() && Init(Snapshot()) && |threads| == workers
    {
      runners, nextRunner, count := map[], 0, 0;
      posted, nextTicket := map[], 0;
      groups, exclusive, calls := [], None, {};
      threads := seq(workers, _ => Thread(Idle, 0, None, None));
      this.strands := strands;
      new;
      ghost var s := Snapshot();
      assert forall p :: At(s, p) == None;
      assert Living(s) == {};
    }

    // ----- AsyncRunner

    method Schedule(r: RunnerId, start: bool, sched: SchedId)
      modifies this`posted, this`nextTicket
      ensures posted == old(posted)[old(nextTicket) := Task(r, start, sched)]
      ensures nextTicket == old(nextTicket) + 1
    {
      posted := posted[nextTicket := Task(r, start, sched)];
      nextTicket := nextTicket + 1;
    }

    /** `new AsyncRunner(sched)` and Start. */
    method Create(sched: SchedId, holds: Option<GroupId>, index: nat, home: SchedId)
      modifies this
      ensures Snapshot() == Spawning(old(Snapshot()), sched, holds, index, home)
    {
      var r := nextRunner;
      nextRunner := nextRunner + 1;
      runners := runners[r := Runner(sched, Unset, None, holds, index, Working, false, home)];
      count := count + 1;
      Schedule(r, true, sched);
    }

    method ProceedRunner(r: RunnerId)
      requires r in runners
      modifies this`posted, this`nextTicket
      ensures Snapshot() == Posting(old(Snapshot()), r)
    {
      Schedule(r, false, runners[r].sched);
    }

    /** The lambda around `proceed` that a group's users share. */
    method CallProceed(g: GroupId)
      requires g < |groups| && groups[g].owner in runners
      modifies this
      ensures Snapshot() == Proceed(old(Snapshot()), g)
    {
      groups := groups[g := groups[g].(proceeds := groups[g].proceeds + 1)];
      ProceedRunner(groups[g].owner);
    }

    /** A copy of the group's pointer is gone. */
    method RunDeleterIfLast(g: GroupId)
      requires g < |groups| && (DeleterProceeds(groups[g]) ==> groups[g].owner in runners)
      modifies this
      ensures Snapshot() == AfterRelease(old(Snapshot()), g)
    {
      if groups[g].refs == 0 {
        if groups[g].kind == AnyValue {
          groups := groups[g := groups[g].(counter := groups[g].counter + 1)];
          if groups[g].counter == 1 {
            groups := groups[g := groups[g].(claim := Some(None), slot := Some(None))];
            CallProceed(g);
          }
        } else if groups[g].kind == All || groups[g].kind == Waiting {
          CallProceed(g);
        }
      }
      assert old(groups)[g := old(groups)[g]] == old(groups);
    }

    method SetPhase(t: nat, ph: Phase)
      requires t < |threads|
      modifies this`threads
      ensures Snapshot() == Setting(old(Snapshot()), t, ph)
    {
      threads := threads[t := threads[t].(phase := ph)];
    }

    // ----- Starting operations

    method RunOutside(sched: SchedId)
      requires Ready(Action.RunOutside(sched))
      modifies this
      ensures Snapshot() == Do(old(Snapshot()), Action.RunOutside(sched))
    {
      Create(sched, None, 0, sched);
    }

    /** RunAsync: the scheduler is the one named, or else that of the current runner. */
    method Run(t: nat, target: Option<SchedId>)
      requires Ready(Action.Run(t, target))
      modifies this
      ensures Snapshot() == Do(old(Snapshot()), Action.Run(t, target))
    {
      match target
      case Some(sched) => Create(sched, None, 0, sched);
      case None =>
        var current := runners[threads[t].tlsRunner.value];
        Create(current.sched, None, 0, current.home);
    }

    method RunInto(t: nat, g: GroupId)
      requires t < |threads| && HasCurrent(Snapshot(), t) && g < |groups|
      modifies this
      ensures var ru := old(runners[threads[t].tlsRunner.value]);
              Snapshot() == SpawningInto(old(Snapshot()), ru.sched, g, ru.home)
    {
      var current := runners[threads[t].tlsRunner.value];
      var index := groups[g].spawned;
      groups := groups[g := groups[g].(refs := groups[g].refs + 1, spawned := index + 1)];
      Create(current.sched, Some(g), index, current.home);
    }

    method RunWaited(t: nat, g: GroupId)
      requires Ready(Action.RunWaited(t, g))
      modifies this
      ensures Snapshot() == Do(old(Snapshot()), Action.RunWaited(t, g))
    {
      RunInto(t, g);
    }

    method SpawnNext(t: nat)
      requires Ready(Action.SpawnNext(t))
      modifies this
      ensures Snapshot() == Do(old(Snapshot()), Action.SpawnNext(t))
    {
      RunInto(t, threads[t].phase.g);
    }

    /** A worker pops a task: OnEnter, and then the coroutine through Start or Resume. */
    method Begin(t: nat, ticket: nat)
      requires Ready(Action.Begin(t, ticket))
      modifies this
      ensures Snapshot() == Do(old(Snapshot()), Action.Begin(t, ticket))
    {
      var task := posted[ticket];
      posted := posted - {ticket};
      var th := threads[t];
      assert th.tlsRunner == None;
      th := th.(tlsRunner := Some(task.runner), on := task.sched);
      if task.start {
        th := th.(phase := Body(task.runner, FromStart), tlsCoro := Some(task.runner));
      } else {
        th := th.(phase := Body(task.runner, FromResume(th.tlsCoro)), tlsCoro := Some(task.runner));
      }
      threads := threads[t := th];
      if !task.start {
        calls := CallsWithout(Snapshot(), task.runner);
      }
    }

    // ----- Inside a body

    method MakeWaiter(t: nat)
      requires Ready(Action.MakeWaiter(t))
      modifies this
      ensures Snapshot() == Do(old(Snapshot()), Action.MakeWaiter(t))
    {
      groups := groups + [NewGroup(Waiting, threads[t].tlsRunner.value, t, 0)];
    }

    /** `defer_handler_ = d; Yield();` */
    method Defer(t: nat, d: Deferral)
      requires t < |threads| && threads[t].phase.Body? && threads[t].phase.r in runners
      modifies this
      ensures Snapshot() == Yielding(old(Snapshot()), t, d)
    {
      var r := threads[t].phase.r;
      runners := runners[r := runners[r].(deferred := Some(d))];
      SetPhase(t, Yielded(r, threads[t].phase.frame, false));
    }

    method Wait(t: nat, g: GroupId)
      requires Ready(Action.Wait(t, g))
      modifies this
      ensures Snapshot() == Do(old(Snapshot()), Action.Wait(t, g))
    {
      if groups[g].refs == 1 {
        return;
      }
      Defer(t, DropWaiter(g));
    }

    method Suspend(t: nat, d: Deferral)
      requires Ready(Action.Suspend(t, d))
      modifies this
      ensures Snapshot() == Do(old(Snapshot()), Action.Suspend(t, d))
    {
      Defer(t, d);
    }

    method SwitchTo(t: nat, dst: SchedId, throws: bool)
      requires Ready(Action.SwitchTo(t, dst, throws))
      modifies this
      ensures Snapshot() == Do(old(Snapshot()), Action.SwitchTo(t, dst, throws))
    {
      var r := threads[t].phase.r;
      if dst == runners[r].sched {
        return;
      }
      runners := runners[r := runners[r].(sched := dst)];
      if !throws {
        Defer(t, ProceedSelf);
      }
    }

    method End(t: nat)
      requires Ready(Action.End(t))
      modifies this
      ensures Snapshot() == Do(old(Snapshot()), Action.End(t))
    {
      var Body(r, frame) := threads[t].phase;
      threads := threads[t := threads[t].(tlsCoro := None)];
      SetPhase(t, Yielded(r, frame, true));
    }

    /** `++counter` of an Any-combinator; the first to do so will deliver. */
    method TryClaim(r: RunnerId, g: GroupId, value: Option<int>)
      requires r in runners && g < |groups|
      modifies this
      ensures Snapshot() == Claiming(old(Snapshot()), r, g, value)
    {
      groups := groups[g := groups[g].(counter := groups[g].counter + 1)];
      if groups[g].counter == 1 {
        groups := groups[g := groups[g].(winner := Some(r), claim := Some(value))];
        runners := runners[r := runners[r].(progress := Won(value))];
      } else {
        runners := runners[r := runners[r].(progress := Finished)];
      }
    }

    method Finish(t: nat, result: Option<int>)
      requires Ready(Action.Finish(t, result))
      modifies this
      ensures Snapshot() == Do(old(Snapshot()), Action.Finish(t, result))
    {
      var r := threads[t].phase.r;
      var g := runners[r].holds.value;
      if groups[g].kind == AnyIndex {
        TryClaim(r, g, Some(runners[r].index as int));
      } else if result.Some? {
        TryClaim(r, g, result);
      } else {
        runners := runners[r := runners[r].(progress := Finished)];
      }
    }

    method Deliver(t: nat)
      requires Ready(Action.Deliver(t))
      modifies this
      ensures Snapshot() == Do(old(Snapshot()), Action.Deliver(t))
    {
      var r := threads[t].phase.r;
      var g := runners[r].holds.value;
      groups := groups[g := groups[g].(slot := Some(runners[r].progress.value))];
      runners := runners[r := runners[r].(progress := Finished)];
      CallProceed(g);
    }

    // ----- Leaving the coroutine

    /** CoroHelper::Start assigns `coro_`; CoroHelper::Resume swaps the saved pointer back. */
    method Return(t: nat)
      requires Ready(Action.Return(t))
      modifies this
      ensures Snapshot() == Do(old(Snapshot()), Action.Return(t))
    {
      var Yielded(r, frame, ended) := threads[t].phase;
      runners := runners[r := runners[r].(coro := if ended then Complete else Alive)];
      if frame.FromResume? {
        threads := threads[t := threads[t].(tlsCoro := frame.saved)];
      }
      SetPhase(t, Exiting(r));
    }

    method OnExit(t: nat)
      requires Ready(Action.Exit(t))
      modifies this
      ensures Snapshot() == Do(old(Snapshot()), Action.Exit(t))
    {
      var r := threads[t].phase.r;
      var handler := runners[r].deferred;
      if handler == None {
        count := count - 1;
        runners := runners[r := runners[r].(dying := true)];
        SetPhase(t, Destroying(r));
      } else {
        runners := runners[r := runners[r].(deferred := None)];
        BeginHandler(t, r, handler.value);
      }
    }

    /** The first steps of the handler that OnExit calls. */
    method BeginHandler(t: nat, r: RunnerId, handler: Deferral)
      requires t < |threads|
      modifies this
      ensures var s := old(Snapshot());
              var g := |s.groups|;
              Snapshot() == match handler
                            case UserCallback =>
                              Setting(s.(groups := s.groups + [NewGroup(External, r, t, 0)]), t, Calling(r, g))
                            case RunAll(n) =>
                              Setting(s.(groups := s.groups + [NewGroup(All, r, t, n)]), t, Looping(r, g))
                            case RunAnyIndex(n) =>
                              Setting(s.(groups := s.groups + [NewGroup(AnyIndex, r, t, n)], calls := s.calls + {g},
                                         exclusive := Some(t)), t, Looping(r, g))
                            case RunAnyValue(n) =>
                              Setting(s.(groups := s.groups + [NewGroup(AnyValue, r, t, n)], exclusive := Some(t)), t,
                                      Looping(r, g))
                            case DropWaiter(w) => Setting(s, t, Dropping(r, w))
                            case ProceedSelf => Setting(s, t, Proceeding(r))
    {
      var g := |groups|;
      match handler
      case UserCallback =>
        groups := groups + [NewGroup(External, r, t, 0)];
        SetPhase(t, Calling(r, g));
      case RunAll(n) =>
        groups := groups + [NewGroup(All, r, t, n)];
        SetPhase(t, Looping(r, g));
      case RunAnyIndex(n) =>
        groups := groups + [NewGroup(AnyIndex, r, t, n)];
        calls := calls + {g};
        exclusive := Some(t);
        SetPhase(t, Looping(r, g));
      case RunAnyValue(n) =>
        groups := groups + [NewGroup(AnyValue, r, t, n)];
        exclusive := Some(t);
        SetPhase(t, Looping(r, g));
      case DropWaiter(w) =>
        SetPhase(t, Dropping(r, w));
      case ProceedSelf =>
        SetPhase(t, Proceeding(r));
    }

    /** The thread's own reference is destroyed. */
    method LetGo(t: nat, r: RunnerId, g: GroupId)
      requires t < |threads| && g < |groups| && groups[g].refs > 0
      modifies this
      ensures Snapshot() == LettingGo(old(Snapshot()), t, r, g)
    {
      groups := groups[g := groups[g].(hold := Released, refs := groups[g].refs - 1)];
      SetPhase(t, Clearing(r));
    }

    method LoopEnd(t: nat)
      requires Ready(Action.LoopEnd(t))
      modifies this
      ensures Snapshot() == Do(old(Snapshot()), Action.LoopEnd(t))
    {
      var Looping(r, g) := threads[t].phase;
      exclusive := None;
      LetGo(t, r, g);
      RunDeleterIfLast(g);
    }

    method HandOver(t: nat)
      requires Ready(Action.HandOver(t))
      modifies this
      ensures Snapshot() == Do(old(Snapshot()), Action.HandOver(t))
    {
      var Calling(r, g) := threads[t].phase;
      var on := threads[t].on;
      var sheltered := r in runners && (|threads| == 1 || (on in strands && runners[r].sched == on));
      LetGo(t, r, g);
      SetPhase(t, Tail(r, sheltered));
    }

    method CallbackEnd(t: nat)
      requires Ready(Action.CallbackEnd(t))
      modifies this
      ensures Snapshot() == Do(old(Snapshot()), Action.CallbackEnd(t))
    {
      SetPhase(t, Clearing(threads[t].phase.r));
    }

    method Drop(t: nat)
      requires Ready(Action.Drop(t))
      modifies this
      ensures Snapshot() == Do(old(Snapshot()), Action.Drop(t))
    {
      var Dropping(r, g) := threads[t].phase;
      LetGo(t, r, g);
      RunDeleterIfLast(g);
    }

    method ProceedNow(t: nat)
      requires Ready(Action.ProceedNow(t))
      modifies this
      ensures Snapshot() == Do(old(Snapshot()), Action.ProceedNow(t))
    {
      var r := threads[t].phase.r;
      ProceedRunner(r);
      SetPhase(t, Clearing(r));
    }

    /** The members of a deleted runner are destroyed, the captured pointer among them. */
    method Destroy(t: nat)
      requires Ready(Action.Destroy(t))
      modifies this
      ensures Snapshot() == Do(old(Snapshot()), Action.Destroy(t))
    {
      var r := threads[t].phase.r;
      var captured := runners[r].holds;
      runners := runners - {r};
      SetPhase(t, Clearing(r));
      if captured.Some? {
        var g := captured.value;
        groups := groups[g := groups[g].(refs := groups[g].refs - 1)];
        RunDeleterIfLast(g);
      }
    }

    method Clear(t: nat)
      requires Ready(Action.Clear(t))
      modifies this
      ensures Snapshot() == Do(old(Snapshot()), Action.Clear(t))
    {
      threads := threads[t := threads[t].(phase := Idle, tlsRunner := None)];
    }

    method Completion(g: GroupId)
      requires Ready(Action.Completion(g))
      modifies this
      ensures Snapshot() == Do(old(Snapshot()), Action.Completion(g))
    {
      CallProceed(g);
    }

    // ----- Whole runs

    /** Takes one step: whatever may be taken is safe to take, but for blind starts without a shelter. */
    method Perform(a: Action)
      requires Valid() && Enabled(Snapshot(), a) && Careful(Snapshot(), a)
      modifies this
      ensures old(Ready(a)) && Valid()
      ensures Snapshot() == Do(old(Snapshot()), a)
    {
      CarefulStepKeeps(Snapshot(), a);
      if OfBody(a) {
        PerformInBody(a);
      } else {
        PerformOnExit(a);
      }
    }

    method PerformInBody(a: Action)
      requires OfBody(a) && Ready(a)
      modifies this
      ensures Snapshot() == Do(old(Snapshot()), a)
    {
      match a
      case RunOutside(sched) => RunOutside(sched);
      case Begin(t, ticket) => Begin(t, ticket);
      case Run(t, target) => Run(t, target);
      case MakeWaiter(t) => MakeWaiter(t);
      case RunWaited(t, g) => RunWaited(t, g);
      case Wait(t, g) => Wait(t, g);
      case Suspend(t, d) => Suspend(t, d);
      case SwitchTo(t, dst, throws) => SwitchTo(t, dst, throws);
      case Finish(t, result) => Finish(t, result);
      case Deliver(t) => Deliver(t);
      case End(t) => End(t);
    }

    method PerformOnExit(a: Action)
      requires !OfBody(a) && Ready(a)
      modifies this
      ensures Snapshot() == Do(old(Snapshot()), a)
    {
      match a
      case Return(t) => Return(t);
      case Exit(t) => OnExit(t);
      case SpawnNext(t) => SpawnNext(t);
      case LoopEnd(t) => LoopEnd(t);
      case HandOver(t) => HandOver(t);
      case CallbackEnd(t) => CallbackEnd(t);
      case Drop(t) => Drop(t);
      case ProceedNow(t) => ProceedNow(t);
      case Destroy(t) => Destroy(t);
      case Clear(t) => Clear(t);
      case Completion(g) => Completion(g);
    }

    /**
     * The world and the threads ask for these steps one after the other, and those that may not be taken are passed
     * over.  What results is a run of the machine, so all that is proved of runs is true of this object.
     */
    method Play(wanted: seq<Action>) returns (taken: seq<Action>, ghost states: seq<State>)
      requires Valid() && Init(Snapshot())
      modifies this
      ensures Valid()
      ensures IsCarefulRun(states, taken) && states[|taken|] == Snapshot()
    {
      taken, states := [], [Snapshot()];
      for i := 0 to |wanted|
        invariant Valid()
        invariant IsCarefulRun(states, taken) && states[|taken|] == Snapshot()
      {
        if Enabled(Snapshot(), wanted[i]) && Careful(Snapshot(), wanted[i]) {
          ghost var s := Snapshot();
          Perform(wanted[i]);
          RunExtends(states, taken, wanted[i]);
          taken, states := taken + [wanted[i]], states + [Snapshot()];
        }
      }
    }
  }
}
