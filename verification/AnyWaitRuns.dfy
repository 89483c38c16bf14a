/** Two runs of RunAsyncAnyWait: one that uses a handler that is gone, and one in which the caller is lost. */
module AnyWaitRuns {
  import opened Options
  import opened Runtime
  import opened RuntimeInvariant
  import opened RuntimeSteps
  import opened RuntimeSafety
  import opened RuntimeTails
  import opened RuntimeTheorems
  import opened RuntimeRuns
  import opened AnyWait

  // ----- The states on the way

  function Caller(coro: Coro): Runner { FirstRunner(coro, None) }

  function Child(index: nat, coro: Coro, progress: Progress): Runner {
    Runner(0, coro, None, Some(0), index, progress, false, 0)
  }

  function Call(size: nat, spawned: nat, refs: nat, hold: Hold): Group {
    Group(AnyIndex, 0, 0, hold, refs, 0, size, spawned, None, None, None, 0)
  }

  function Off(coro: Option<RunnerId>): Thread { Thread(Idle, 0, None, coro) }

  function In(r: RunnerId, ph: Phase): Thread { Thread(ph, 0, Some(r), Some(r)) }

  /** The caller's thread is about to start `size` children, and has started none. */
  function Calls(n: nat, size: nat): State
    requires n > 0
  {
    Nothing(n).(runners := map[0 := Caller(Alive)], nextRunner := 1, count := 1, nextTicket := 1,
                groups := [Call(size, 0, 1, Local)], calls := {0}, exclusive := Some(0),
                threads := Threads(n)[0 := In(0, Looping(0, 0))])
  }

  /** It has started one. */
  function CallsOne(n: nat, size: nat): State
    requires n > 0
  {
    Calls(n, size).(runners := map[0 := Caller(Alive), 1 := Child(0, Unset, Working)], nextRunner := 2, count := 2,
                    posted := map[1 := Task(1, true, 0)], nextTicket := 2, groups := [Call(size, 1, 2, Local)])
  }

  lemma HopCall(n: nat, size: nat)
    requires n > 0 && size > 0
    ensures Hops(Deferred(n, RunAnyIndex(size)), Exit(0), Calls(n, size))
  {
  }

  lemma HopOne(n: nat, size: nat)
    requires n > 0 && size > 0
    ensures Hops(Calls(n, size), SpawnNext(0), CallsOne(n, size))
  {
  }

  lemma LeadsToOne(n: nat, size: nat)
    requires n > 0 && size > 0
    ensures Leads(Nothing(n), ToOne(size), CallsOne(n, size))
  {
    HopCall(n, size);
    HopOne(n, size);
    TwoHops(Deferred(n, RunAnyIndex(size)), Exit(0), Calls(n, size), SpawnNext(0), CallsOne(n, size));
    LeadsToDeferred(n, RunAnyIndex(size));
    LeadsOn(Nothing(n), Deferring(RunAnyIndex(size)), Deferred(n, RunAnyIndex(size)), [Exit(0)] + [SpawnNext(0)],
            CallsOne(n, size));
  }

  function ToOne(size: nat): seq<Action> { Deferring(RunAnyIndex(size)) + ([Exit(0)] + [SpawnNext(0)]) }

  // ----- All handlers throw

  /** One thread, and a call with one handler: what is left of it when thread 0 has come to `ph` with the child. */
  function Thrown(child: map<RunnerId, Runner>, count: int, refs: nat, posted: map<nat, Task>, th: Thread): State {
    Nothing(1).(runners := map[0 := Caller(Alive)] + child, nextRunner := 2, count := count, posted := posted,
                nextTicket := 2, groups := [Call(1, 1, refs, Released)], calls := {0}, threads := [th])
  }

  const CHILD_TASK := map[1 := Task(1, true, 0)]

  function Only(coro: Coro, dying: bool): map<RunnerId, Runner> {
    map[1 := Child(0, coro, Working).(dying := dying)]
  }

  const STARTED := Thrown(Only(Unset, false), 2, 1, CHILD_TASK, In(0, Clearing(0)))
  const WAITING := Thrown(Only(Unset, false), 2, 1, CHILD_TASK, Off(Some(0)))
  const HANDLING := Thrown(Only(Unset, false), 2, 1, map[], In(1, Body(1, FromStart)))
  const THROWING := Thrown(Only(Unset, false), 2, 1, map[], In(1, Yielded(1, FromStart, true)).(tlsCoro := None))
  const BACK := Thrown(Only(Complete, false), 2, 1, map[], In(1, Exiting(1)).(tlsCoro := None))
  const DYING := Thrown(Only(Complete, true), 1, 1, map[], In(1, Destroying(1)).(tlsCoro := None))
  const LOST := Thrown(map[], 1, 0, map[], In(1, Clearing(1)).(tlsCoro := None))

  lemma HopLoopEnd()
    ensures Hops(CallsOne(1, 1), LoopEnd(0), STARTED)
  {
    assert STARTED.runners == CallsOne(1, 1).runners;
    assert STARTED.threads == CallsOne(1, 1).threads[0 := In(0, Clearing(0))];
    assert Enabled(CallsOne(1, 1), LoopEnd(0)) && Defined(CallsOne(1, 1), LoopEnd(0));
    var s := Do(CallsOne(1, 1), LoopEnd(0));
    assert s.groups == STARTED.groups;
  }

  lemma HopClear()
    ensures Hops(STARTED, Clear(0), WAITING)
  {
  }

  lemma HopChild()
    ensures Hops(WAITING, Begin(0, 1), HANDLING)
  {
  }

  lemma HopThrow()
    ensures Hops(HANDLING, End(0), THROWING)
  {
  }

  lemma HopBack()
    ensures Hops(THROWING, Return(0), BACK)
  {
  }

  lemma HopDie()
    ensures Hops(BACK, Exit(0), DYING)
  {
  }

  lemma HopLost()
    ensures Hops(DYING, Destroy(0), LOST)
  {
    assert DYING.runners - {1} == LOST.runners;
    assert Enabled(DYING, Destroy(0)) && Defined(DYING, Destroy(0));
    assert Do(DYING, Destroy(0)).groups == LOST.groups;
  }

  function Throwing(): seq<Action> {
    ([LoopEnd(0)] + [Clear(0)]) + (([Begin(0, 1)] + [End(0)]) + ([Return(0)] + ([Exit(0)] + [Destroy(0)])))
  }

  lemma LeadsToLost()
    ensures Leads(CallsOne(1, 1), Throwing(), LOST)
  {
    HopDie();
    HopLost();
    TwoHops(BACK, Exit(0), DYING, Destroy(0), LOST);
    HopBack();
    HopFirst(THROWING, Return(0), BACK, [Exit(0)] + [Destroy(0)], LOST);
    HopChild();
    HopThrow();
    TwoHops(WAITING, Begin(0, 1), HANDLING, End(0), THROWING);
    LeadsOn(WAITING, [Begin(0, 1)] + [End(0)], THROWING, [Return(0)] + ([Exit(0)] + [Destroy(0)]), LOST);
    HopLoopEnd();
    HopClear();
    TwoHops(CallsOne(1, 1), LoopEnd(0), STARTED, Clear(0), WAITING);
    LeadsOn(CallsOne(1, 1), [LoopEnd(0)] + [Clear(0)], WAITING,
            ([Begin(0, 1)] + [End(0)]) + ([Return(0)] + ([Exit(0)] + [Destroy(0)])), LOST);
  }

  /** A run with one handler, which throws: its caller waits, and nobody is left to send it on. */
  lemma CallerIsLost() returns (states: seq<State>, actions: seq<Action>)
    ensures IsRun(states, actions)
    ensures states[|actions|] == LOST && 0 in LOST.runners && AllThrew(LOST.groups[0]) && LOST.groups[0].owner == 0
  {
    LeadsToOne(1, 1);
    LeadsToLost();
    actions := ToOne(1) + Throwing();
    LeadsOn(Nothing(1), ToOne(1), CallsOne(1, 1), Throwing(), LOST);
    NothingHolds(1);
    states := LeadsIsRun(Nothing(1), actions, LOST);
  }

  // ----- A handler outlives the call

  /** Three threads, and a call with two handlers. */
  function Both(first: Runner, second: Runner, posted: map<nat, Task>, ticket: nat, call: Group, calls: set<GroupId>,
                exclusive: Option<nat>, threads: seq<Thread>): State {
    Nothing(3).(runners := map[0 := Caller(Alive), 1 := first, 2 := second], nextRunner := 3, count := 3,
                posted := posted, nextTicket := ticket, groups := [call], calls := calls, threads := threads,
                exclusive := exclusive)
  }

  const FIRST := Child(0, Unset, Working)
  const SECOND := Child(1, Unset, Working)
  const BOTH_TASKS := map[1 := Task(1, true, 0), 2 := Task(2, true, 0)]
  const CLAIMED := Call(2, 2, 2, Released).(counter := 1, winner := Some(2), claim := Some(Some(1)))
  const ONE_IN := In(1, Body(1, FromStart))
  const TWO_IN := In(2, Body(2, FromStart))

  const LOOPED := Both(FIRST, SECOND, BOTH_TASKS, 3, Call(2, 2, 3, Local), {0}, Some(0),
                       [In(0, Looping(0, 0)), Off(None), Off(None)])
  const LOOP_LEFT := Both(FIRST, SECOND, BOTH_TASKS, 3, Call(2, 2, 2, Released), {0}, None,
                          [In(0, Clearing(0)), Off(None), Off(None)])
  const ALL_OFF := Both(FIRST, SECOND, BOTH_TASKS, 3, Call(2, 2, 2, Released), {0}, None,
                        [Off(Some(0)), Off(None), Off(None)])
  const FIRST_RUNS := Both(FIRST, SECOND, map[2 := Task(2, true, 0)], 3, Call(2, 2, 2, Released), {0}, None,
                           [ONE_IN, Off(None), Off(None)])
  const BOTH_RUN := Both(FIRST, SECOND, map[], 3, Call(2, 2, 2, Released), {0}, None, [ONE_IN, TWO_IN, Off(None)])
  const SECOND_WON := Both(FIRST, Child(1, Unset, Won(Some(1))), map[], 3, CLAIMED, {0}, None,
                           [ONE_IN, TWO_IN, Off(None)])
  const DELIVERED := Both(FIRST, Child(1, Unset, Finished), map[3 := Task(0, false, 0)], 4,
                          CLAIMED.(slot := Some(Some(1)), proceeds := 1), {0}, None, [ONE_IN, TWO_IN, Off(None)])
  const GONE_ON := Both(FIRST, Child(1, Unset, Finished), map[], 4, CLAIMED.(slot := Some(Some(1)), proceeds := 1),
                        {}, None,
                        [ONE_IN, TWO_IN, In(0, Body(0, FromResume(None)))])

  lemma HopTwo()
    ensures Hops(CallsOne(3, 2), SpawnNext(0), LOOPED)
  {
  }

  lemma HopLooped()
    ensures Hops(LOOPED, LoopEnd(0), LOOP_LEFT)
  {
  }

  lemma HopOff()
    ensures Hops(LOOP_LEFT, Clear(0), ALL_OFF)
  {
  }

  lemma HopFirstRuns()
    ensures Hops(ALL_OFF, Begin(0, 1), FIRST_RUNS)
  {
  }

  lemma HopBothRun()
    ensures Hops(FIRST_RUNS, Begin(1, 2), BOTH_RUN)
  {
  }

  lemma HopWon()
    ensures Hops(BOTH_RUN, Finish(1, None), SECOND_WON)
  {
  }

  lemma HopDelivered()
    ensures Hops(SECOND_WON, Deliver(1), DELIVERED)
  {
  }

  lemma HopGoneOn()
    ensures Hops(DELIVERED, Begin(2, 3), GONE_ON)
  {
  }

  function Starting(): seq<Action> { [SpawnNext(0)] + ([LoopEnd(0)] + [Clear(0)]) }

  function Winning(): seq<Action> {
    ([Begin(0, 1)] + [Begin(1, 2)]) + ([Finish(1, None)] + ([Deliver(1)] + [Begin(2, 3)]))
  }

  lemma LeadsToAllOff()
    ensures Leads(CallsOne(3, 2), Starting(), ALL_OFF)
  {
    HopLooped();
    HopOff();
    TwoHops(LOOPED, LoopEnd(0), LOOP_LEFT, Clear(0), ALL_OFF);
    HopTwo();
    HopFirst(CallsOne(3, 2), SpawnNext(0), LOOPED, [LoopEnd(0)] + [Clear(0)], ALL_OFF);
  }

  lemma LeadsToGoneOn()
    ensures Leads(ALL_OFF, Winning(), GONE_ON)
  {
    HopDelivered();
    HopGoneOn();
    TwoHops(SECOND_WON, Deliver(1), DELIVERED, Begin(2, 3), GONE_ON);
    HopWon();
    HopFirst(BOTH_RUN, Finish(1, None), SECOND_WON, [Deliver(1)] + [Begin(2, 3)], GONE_ON);
    HopFirstRuns();
    HopBothRun();
    TwoHops(ALL_OFF, Begin(0, 1), FIRST_RUNS, Begin(1, 2), BOTH_RUN);
    LeadsOn(ALL_OFF, [Begin(0, 1)] + [Begin(1, 2)], BOTH_RUN,
            [Finish(1, None)] + ([Deliver(1)] + [Begin(2, 3)]), GONE_ON);
  }

  lemma LeadsAllTheWay()
    ensures Leads(Nothing(3), ToOne(2) + (Starting() + Winning()), GONE_ON)
  {
    LeadsToOne(3, 2);
    LeadsToAllOff();
    LeadsToGoneOn();
    LeadsOn(CallsOne(3, 2), Starting(), ALL_OFF, Winning(), GONE_ON);
    LeadsOn(Nothing(3), ToOne(2), CallsOne(3, 2), Starting() + Winning(), GONE_ON);
  }

  lemma FirstStillRuns()
    ensures UsesHandler(GONE_ON, Finish(0, None), 0, 1) && Defined(GONE_ON, Finish(0, None)) && 0 !in GONE_ON.calls
  {
  }

  /**
   * A run with two handlers: the second returns first and the caller goes on, while the first is still running.  When
   * that returns, its list is gone.
   */
  lemma HandlerIsGone() returns (states: seq<State>, actions: seq<Action>)
    ensures IsRun(states, actions) && states[|actions|] == GONE_ON
    ensures UsesHandler(GONE_ON, Finish(0, None), 0, 1) && Defined(GONE_ON, Finish(0, None)) && 0 !in GONE_ON.calls
  {
    LeadsAllTheWay();
    FirstStillRuns();
    NothingHolds(3);
    actions := ToOne(2) + (Starting() + Winning());
    states := LeadsIsRun(Nothing(3), actions, GONE_ON);
  }
}
