/**
 * The flat-async runtime as a state machine: runners, their coroutines, the queues of
 * the schedulers, the worker threads, and the shared counters (`Group`) through which
 * the combinators decide when a suspended runner proceeds.
 *
 * An `Action` is one atomic step of one thread, or of the world outside.  `Enabled` says
 * when the program may take it, `Defined` that every runner it reaches is alive and every
 * assertion of the source on its way holds, and `Do` is its effect.  (The handlers that the
 * children of RunAsyncAnyWait refer to are the subject of `AnyWait`.)  The queues, the phases
 * of the threads and the two thread-local pointers are all explicit; nothing in the state
 * says where a runner "is".
 */
module Runtime {

  import opened Options

  type RunnerId = nat
  type SchedId = nat
  type GroupId = nat

  // ----- Runners

  /** `coro_`: not assigned yet, suspended or running, or ended. */
  datatype Coro = Unset | Alive | Complete

  /** What `defer_handler_` holds. */
  datatype Deferral =
    | UserCallback            // DeferProceed with a callback that hands `proceed` to some completion
    | RunAll(n: nat)          // RunAsyncWait over n handlers
    | RunAnyIndex(n: nat)     // RunAsyncAnyWait
    | RunAnyValue(n: nat)     // RunAsyncAnyResult
    | DropWaiter(g: GroupId)  // Waiter::Wait
    | ProceedSelf             // SwitchTo

  /** How far the child of an Any-combinator is. */
  datatype Progress = Working | Won(value: Option<int>) | Finished

  datatype Runner = Runner(
    sched: SchedId,              // scheduler_
    coro: Coro,
    deferred: Option<Deferral>,  // defer_handler_
    holds: Option<GroupId>,      // the shared_ptr its handler has captured
    index: nat,                  // its position in the list of handlers
    progress: Progress,
    dying: bool,                 // ~AsyncRunner has run, its members are still to be destroyed
    home: SchedId)               // history: the scheduler named when its family was started

  /** A closure in the queue of a scheduler. */
  datatype Task = Task(runner: RunnerId, start: bool, sched: SchedId)

  // ----- Threads

  /** The activation of CoroHelper that entered the coroutine; Resume keeps the pointer it swapped out. */
  datatype Frame = FromStart | FromResume(saved: Option<RunnerId>)

  datatype Phase =
    | Idle
    | Body(r: RunnerId, frame: Frame)                  // inside the coroutine
    | Yielded(r: RunnerId, frame: Frame, ended: bool)  // back in CoroHelper::Start or Resume
    | Exiting(r: RunnerId)                             // ~Guard, before OnExit
    | Calling(r: RunnerId, g: GroupId)                 // OnExit runs the callback of DeferProceed
    | Looping(r: RunnerId, g: GroupId)                 // OnExit runs a loop that starts children
    | Dropping(r: RunnerId, g: GroupId)                // OnExit destroys the pointer moved out of a Waiter
    | Proceeding(r: RunnerId)                          // OnExit runs ProceedHandler of the runner itself
    | Tail(r: RunnerId, sheltered: bool)               // the callback goes on after `proceed` is handed on
    | Destroying(r: RunnerId)                          // between ~AsyncRunner and the destruction of members
    | Clearing(r: RunnerId)                            // about to reset the thread-local pointer

  datatype Thread = Thread(phase: Phase, on: SchedId, tlsRunner: Option<RunnerId>, tlsCoro: Option<RunnerId>)

  // ----- Groups: the control blocks of shared pointers

  datatype Kind = External | All | Waiting | AnyIndex | AnyValue

  /** The reference of the spawning loop, of the Waiter's field or of the running callback. */
  datatype Hold = Local | Released

  datatype Group = Group(
    kind: Kind,
    owner: RunnerId,                 // the runner whose `proceed` it guards
    maker: nat,                      // history: the thread that made it
    hold: Hold,
    refs: nat,                       // use_count
    counter: nat,                    // the atomic counter of the Any-combinators
    size: nat,                       // the number of handlers
    spawned: nat,                    // how many of them were started
    winner: Option<RunnerId>,        // history: who raised the counter to one
    claim: Option<Option<int>>,      // history: with what
    slot: Option<Option<int>>,       // `index` or `result` of the caller, once written
    proceeds: nat)                   // history: how often `proceed` was called through it

  datatype State = State(
    runners: map<RunnerId, Runner>,  // the runners in memory
    nextRunner: RunnerId,
    count: int,                      // the global runner count
    posted: map<nat, Task>,          // the queues
    nextTicket: nat,
    groups: seq<Group>,
    threads: seq<Thread>,
    strands: set<SchedId>,           // the schedulers that run one task at a time
    calls: set<GroupId>,             // history: the calls of RunAsyncAnyWait that their callers have not left
    exclusive: Option<nat>)          // the thread that starts the children of an Any-combinator

  // ----- Actions

  datatype Action =
    | RunOutside(sched: SchedId)                // RunAsync where no runner is current
    | Begin(t: nat, ticket: nat)                // a worker pops a task and enters the coroutine
    | Run(t: nat, target: Option<SchedId>)      // RunAsync in a body or a callback, also in its tail
    | MakeWaiter(t: nat)                        // Waiter::init
    | RunWaited(t: nat, g: GroupId)             // Waiter::RunAsync
    | Wait(t: nat, g: GroupId)                  // Waiter::Wait
    | Suspend(t: nat, d: Deferral)              // Defer, up to the yield
    | SwitchTo(t: nat, dst: SchedId, throws: bool)
    | Finish(t: nat, result: Option<int>)       // the handler of an Any-child has returned
    | Deliver(t: nat)                           // the winner writes the result and calls proceed
    | End(t: nat)                               // the body has returned or thrown
    | Return(t: nat)                            // CoroHelper::Start or Resume returns
    | Exit(t: nat)                              // OnExit takes the deferred handler, or deletes
    | SpawnNext(t: nat)                         // one turn of a spawning loop
    | LoopEnd(t: nat)                           // the loop's own pointer is destroyed
    | HandOver(t: nat)                          // the callback hands `proceed` on: it is with the world
    | CallbackEnd(t: nat)                       // the callback returns
    | Drop(t: nat)                              // the Waiter's pointer is destroyed
    | ProceedNow(t: nat)
    | Destroy(t: nat)                           // members of a deleted runner are destroyed
    | Clear(t: nat)                             // the thread-local pointer is reset
    | Completion(g: GroupId)                    // the world calls a `proceed` it was handed

  // ----- Building blocks

  predicate IsAny(k: Kind) { k == AnyIndex || k == AnyValue }

  function Setting(s: State, t: nat, ph: Phase): State
    requires t < |s.threads|
  {
    s.(threads := s.threads[t := s.threads[t].(phase := ph)])
  }

  /** `new AsyncRunner`, Start and its Schedule. */
  function Spawning(s: State, sched: SchedId, holds: Option<GroupId>, index: nat, home: SchedId): State {
    s.(runners := s.runners[s.nextRunner := Runner(sched, Unset, None, holds, index, Working, false, home)],
       nextRunner := s.nextRunner + 1,
       count := s.count + 1,
       posted := s.posted[s.nextTicket := Task(s.nextRunner, true, sched)],
       nextTicket := s.nextTicket + 1)
  }

  /** Another copy of the group's pointer goes into the closure of a new runner. */
  function SpawningInto(s: State, sched: SchedId, g: GroupId, home: SchedId): State
    requires g < |s.groups|
  {
    var grp := s.groups[g];
    Spawning(s.(groups := s.groups[g := grp.(refs := grp.refs + 1, spawned := grp.spawned + 1)]),
             sched, Some(g), grp.spawned, home)
  }

  function Posting(s: State, r: RunnerId): State
    requires r in s.runners
  {
    s.(posted := s.posted[s.nextTicket := Task(r, false, s.runners[r].sched)], nextTicket := s.nextTicket + 1)
  }

  /** `proceed` of the group's owner is called through the group. */
  function Proceed(s: State, g: GroupId): State
    requires g < |s.groups| && s.groups[g].owner in s.runners
  {
    Posting(s.(groups := s.groups[g := s.groups[g].(proceeds := s.groups[g].proceeds + 1)]), s.groups[g].owner)
  }

  /** What the deleter does once the use count is zero. */
  predicate DeleterProceeds(grp: Group) {
    grp.refs == 0 && (grp.kind == All || grp.kind == Waiting || (grp.kind == AnyValue && grp.counter == 0))
  }

  function DeleterEffect(grp: Group): Group {
    if grp.kind == AnyValue && grp.refs == 0 then
      if grp.counter == 0 then grp.(counter := 1, claim := Some(None), slot := Some(None))
      else grp.(counter := grp.counter + 1)
    else grp
  }

  /** After a copy of the pointer is gone: run the deleter if it was the last. */
  function AfterRelease(s: State, g: GroupId): State
    requires g < |s.groups|
    requires DeleterProceeds(s.groups[g]) ==> s.groups[g].owner in s.runners
  {
    var s1 := s.(groups := s.groups[g := DeleterEffect(s.groups[g])]);
    if DeleterProceeds(s.groups[g]) then Proceed(s1, g) else s1
  }

  /**
   * Nobody else can resume the runner of the callback before the callback ends: the runner is on a strand, and this
   * thread holds it, or there is no other thread.
   */
  predicate Shelters(s: State, t: nat, r: RunnerId)
    requires t < |s.threads|
  {
    r in s.runners && (|s.threads| == 1 || (s.threads[t].on in s.strands && s.runners[r].sched == s.threads[t].on))
  }

  /** The callback has handed `proceed` on, and may do other things before it returns. */
  function HandingOver(s: State, t: nat): State
    requires t < |s.threads| && s.threads[t].phase.Calling?
    requires s.threads[t].phase.g < |s.groups| && s.groups[s.threads[t].phase.g].refs > 0
  {
    var Calling(r, g) := s.threads[t].phase;
    Setting(LettingGo(s, t, r, g), t, Tail(r, Shelters(s, t, r)))
  }

  /** The thread's own reference goes away, and the thread is left with its thread-local pointer only. */
  function LettingGo(s: State, t: nat, r: RunnerId, g: GroupId): State
    requires t < |s.threads| && g < |s.groups| && s.groups[g].refs > 0
  {
    var grp := s.groups[g];
    Setting(s.(groups := s.groups[g := grp.(hold := Released, refs := grp.refs - 1)]), t, Clearing(r))
  }

  function NewGroup(kind: Kind, owner: RunnerId, maker: nat, size: nat): Group {
    Group(kind, owner, maker, Local, 1, 0, size, 0, None, None, None, 0)
  }

  // ----- When an action may be taken

  function Actor(a: Action): Option<nat> {
    match a
    case RunOutside(_) => None
    case Completion(_) => None
    case _ => Some(a.t)
  }

  /** Tasks may be taken in any order; a strand runs one task at a time. */
  predicate MayPop(s: State, k: nat) {
    && k in s.posted
    && (s.posted[k].sched in s.strands ==>
          forall t | 0 <= t < |s.threads| && s.threads[t].phase != Idle :: s.threads[t].on != s.posted[k].sched)
  }

  predicate InBody(s: State, t: nat) {
    t < |s.threads| && s.threads[t].phase.Body? &&
    var r := s.threads[t].phase.r;
    r in s.runners ==> s.runners[r].progress == Working
  }

  predicate OwnWaiter(s: State, t: nat, g: GroupId)
    requires t < |s.threads|
  {
    && g < |s.groups| && s.groups[g].kind == Waiting && s.groups[g].hold == Local
    && Some(s.groups[g].owner) == s.threads[t].tlsRunner
  }

  predicate Enabled(s: State, a: Action) {
    && (s.exclusive == None || s.exclusive == Actor(a))
    && (Actor(a).Some? ==> Actor(a).value < |s.threads|)
    && match a
       case RunOutside(_) => true
       case Begin(t, k) => s.threads[t].phase == Idle && MayPop(s, k)
       case Run(t, _) => InBody(s, t) || s.threads[t].phase.Calling? || s.threads[t].phase.Tail?
       case MakeWaiter(t) => InBody(s, t)
       case RunWaited(t, g) => InBody(s, t) && OwnWaiter(s, t, g)
       case Wait(t, g) => InBody(s, t) && OwnWaiter(s, t, g)
       case Suspend(t, d) =>
         InBody(s, t) && (d.UserCallback? || d.RunAll? || (d.RunAnyIndex? && d.n > 0) || d.RunAnyValue?)
       case SwitchTo(t, _, _) => InBody(s, t)
       case Finish(t, _) => InBody(s, t) && IsAnyChild(s, t)
       case Deliver(t) =>
         s.threads[t].phase.Body? &&
         (s.threads[t].phase.r in s.runners ==> s.runners[s.threads[t].phase.r].progress.Won?)
       case End(t) =>
         s.threads[t].phase.Body? &&
         (s.threads[t].phase.r in s.runners ==> !s.runners[s.threads[t].phase.r].progress.Won?)
       case Return(t) => s.threads[t].phase.Yielded?
       case Exit(t) => s.threads[t].phase.Exiting?
       case SpawnNext(t) =>
         s.threads[t].phase.Looping? &&
         (s.threads[t].phase.g < |s.groups| ==>
           s.groups[s.threads[t].phase.g].spawned < s.groups[s.threads[t].phase.g].size)
       case LoopEnd(t) =>
         s.threads[t].phase.Looping? &&
         (s.threads[t].phase.g < |s.groups| ==>
           s.groups[s.threads[t].phase.g].spawned >= s.groups[s.threads[t].phase.g].size)
       case HandOver(t) => s.threads[t].phase.Calling?
       case CallbackEnd(t) => s.threads[t].phase.Tail?
       case Drop(t) => s.threads[t].phase.Dropping?
       case ProceedNow(t) => s.threads[t].phase.Proceeding?
       case Destroy(t) => s.threads[t].phase.Destroying?
       case Clear(t) => s.threads[t].phase.Clearing?
       case Completion(g) =>
         g < |s.groups| && s.groups[g].kind == External && s.groups[g].hold == Released && s.groups[g].proceeds == 0
  }

  predicate IsAnyChild(s: State, t: nat)
    requires t < |s.threads| && s.threads[t].phase.Body?
  {
    var r := s.threads[t].phase.r;
    r in s.runners ==>
      && s.runners[r].holds.Some?
      && (s.runners[r].holds.value < |s.groups| ==> IsAny(s.groups[s.runners[r].holds.value].kind))
  }

  // ----- When an action is safe to take

  /** The current runner, as GetCurrentThreadAsyncRunner finds it. */
  predicate HasCurrent(s: State, t: nat)
    requires t < |s.threads|
  {
    s.threads[t].tlsRunner.Some? && s.threads[t].tlsRunner.value in s.runners
  }

  /** Code of runner `r` runs and finds `r` itself through both thread-local pointers. */
  predicate SelfCurrent(s: State, t: nat, r: RunnerId)
    requires t < |s.threads|
  {
    s.threads[t].tlsRunner == Some(r) && s.threads[t].tlsCoro == Some(r) && r in s.runners
  }

  predicate ReleaseDefined(s: State, g: GroupId) {
    && g < |s.groups| && s.groups[g].refs > 0
    && (DeleterProceeds(s.groups[g].(refs := s.groups[g].refs - 1)) ==> s.groups[g].owner in s.runners)
  }

  predicate Defined(s: State, a: Action)
    requires Enabled(s, a)
  {
    match a
    case RunOutside(_) => true
    case Begin(t, k) =>
      var task := s.posted[k];
      && task.runner in s.runners
      && s.threads[t].tlsRunner == None
      && s.runners[task.runner].coro == (if task.start then Unset else Alive)
    case Run(t, target) => target == None ==> HasCurrent(s, t)
    case MakeWaiter(t) => SelfCurrent(s, t, s.threads[t].phase.r)
    case RunWaited(t, g) => SelfCurrent(s, t, s.threads[t].phase.r)
    case Wait(t, g) => SelfCurrent(s, t, s.threads[t].phase.r) && s.runners[s.threads[t].phase.r].deferred == None
    case Suspend(t, d) => SelfCurrent(s, t, s.threads[t].phase.r) && s.runners[s.threads[t].phase.r].deferred == None
    case SwitchTo(t, _, _) =>
      SelfCurrent(s, t, s.threads[t].phase.r) && s.runners[s.threads[t].phase.r].deferred == None
    case Finish(t, _) =>
      var r := s.threads[t].phase.r;
      r in s.runners && s.runners[r].holds.Some? && s.runners[r].holds.value < |s.groups|
    case Deliver(t) =>
      var r := s.threads[t].phase.r;
      && r in s.runners && s.runners[r].holds.Some? && s.runners[r].holds.value < |s.groups|
      && s.groups[s.runners[r].holds.value].owner in s.runners
    case End(t) => SelfCurrent(s, t, s.threads[t].phase.r)
    case Return(t) => s.threads[t].phase.r in s.runners
    case Exit(t) =>
      && s.threads[t].tlsRunner.Some?
      && s.threads[t].phase.r in s.runners
    case SpawnNext(t) => HasCurrent(s, t) && s.threads[t].phase.g < |s.groups|
    case LoopEnd(t) => ReleaseDefined(s, s.threads[t].phase.g)
    case HandOver(t) => s.threads[t].phase.g < |s.groups| && s.groups[s.threads[t].phase.g].refs > 0
    case CallbackEnd(t) => true
    case Drop(t) => ReleaseDefined(s, s.threads[t].phase.g)
    case ProceedNow(t) => s.threads[t].phase.r in s.runners
    case Destroy(t) =>
      var r := s.threads[t].phase.r;
      && r in s.runners
      && (s.runners[r].holds.Some? ==>
            ReleaseDefined(s.(runners := s.runners - {r}), s.runners[r].holds.value))
    case Clear(t) => true
    case Completion(g) => s.groups[g].owner in s.runners
  }

  // ----- Effects

  /** A resumed runner leaves the call it was in, and with it goes the list of handlers. */
  function CallsWithout(s: State, r: RunnerId): set<GroupId> {
    set g | g in s.calls && (g < |s.groups| ==> s.groups[g].owner != r)
  }

  function EnterCoroutine(s: State, t: nat, k: nat): State
    requires t < |s.threads| && k in s.posted
  {
    var task := s.posted[k];
    var th := s.threads[t];
    var frame := if task.start then FromStart else FromResume(th.tlsCoro);
    s.(posted := s.posted - {k},
       threads := s.threads[t := Thread(Body(task.runner, frame), task.sched, Some(task.runner), Some(task.runner))],
       calls := if task.start then s.calls else CallsWithout(s, task.runner))
  }

  /** `defer_handler_ = ...; Yield();` */
  function Yielding(s: State, t: nat, d: Deferral): State
    requires t < |s.threads| && s.threads[t].phase.Body? && s.threads[t].phase.r in s.runners
  {
    var r := s.threads[t].phase.r;
    Setting(s.(runners := s.runners[r := s.runners[r].(deferred := Some(d))]), t,
            Yielded(r, s.threads[t].phase.frame, false))
  }

  function Claiming(s: State, r: RunnerId, g: GroupId, value: Option<int>): State
    requires r in s.runners && g < |s.groups|
  {
    var grp := s.groups[g];
    if grp.counter == 0 then
      s.(groups := s.groups[g := grp.(counter := 1, winner := Some(r), claim := Some(value))],
         runners := s.runners[r := s.runners[r].(progress := Won(value))])
    else
      s.(groups := s.groups[g := grp.(counter := grp.counter + 1)],
         runners := s.runners[r := s.runners[r].(progress := Finished)])
  }

  function Finishing(s: State, t: nat, result: Option<int>): State
    requires t < |s.threads| && s.threads[t].phase.Body? && s.threads[t].phase.r in s.runners
    requires var ru := s.runners[s.threads[t].phase.r]; ru.holds.Some? && ru.holds.value < |s.groups|
  {
    var r := s.threads[t].phase.r;
    var g := s.runners[r].holds.value;
    if s.groups[g].kind == AnyIndex then Claiming(s, r, g, Some(s.runners[r].index as int))
    else if result.Some? then Claiming(s, r, g, result)
    else s.(runners := s.runners[r := s.runners[r].(progress := Finished)])
  }

  function Delivering(s: State, t: nat): State
    requires t < |s.threads| && s.threads[t].phase.Body? && s.threads[t].phase.r in s.runners
    requires var ru := s.runners[s.threads[t].phase.r];
             ru.progress.Won? && ru.holds.Some? && ru.holds.value < |s.groups| &&
             s.groups[ru.holds.value].owner in s.runners
  {
    var r := s.threads[t].phase.r;
    var g := s.runners[r].holds.value;
    Proceed(s.(groups := s.groups[g := s.groups[g].(slot := Some(s.runners[r].progress.value))],
               runners := s.runners[r := s.runners[r].(progress := Finished)]), g)
  }

  function Returning(s: State, t: nat): State
    requires t < |s.threads| && s.threads[t].phase.Yielded? && s.threads[t].phase.r in s.runners
  {
    var Yielded(r, frame, ended) := s.threads[t].phase;
    var s1 := s.(runners := s.runners[r := s.runners[r].(coro := if ended then Complete else Alive)]);
    var th := s.threads[t].(phase := Exiting(r));
    s1.(threads := s.threads[t := if frame.FromResume? then th.(tlsCoro := frame.saved) else th])
  }

  function Leaving(s: State, t: nat): State
    requires t < |s.threads| && s.threads[t].phase.Exiting? && s.threads[t].phase.r in s.runners
  {
    var r := s.threads[t].phase.r;
    var ru := s.runners[r];
    var s1 := s.(runners := s.runners[r := ru.(deferred := None)]);
    var g := |s.groups|;
    match ru.deferred
    case None =>
      Setting(s.(runners := s.runners[r := ru.(dying := true)], count := s.count - 1), t, Destroying(r))
    case Some(UserCallback) => Setting(s1.(groups := s.groups + [NewGroup(External, r, t, 0)]), t, Calling(r, g))
    case Some(RunAll(n)) => Setting(s1.(groups := s.groups + [NewGroup(All, r, t, n)]), t, Looping(r, g))
    case Some(RunAnyIndex(n)) =>
      Setting(s1.(groups := s.groups + [NewGroup(AnyIndex, r, t, n)], calls := s.calls + {g}, exclusive := Some(t)), t,
              Looping(r, g))
    case Some(RunAnyValue(n)) =>
      Setting(s1.(groups := s.groups + [NewGroup(AnyValue, r, t, n)], exclusive := Some(t)), t, Looping(r, g))
    case Some(DropWaiter(w)) => Setting(s1, t, Dropping(r, w))
    case Some(ProceedSelf) => Setting(s1, t, Proceeding(r))
  }

  function Destroyed(s: State, t: nat): State
    requires t < |s.threads| && s.threads[t].phase.Destroying? && s.threads[t].phase.r in s.runners
    requires var h := s.runners[s.threads[t].phase.r].holds;
             h.Some? ==> h.value < |s.groups| && s.groups[h.value].refs > 0
  {
    var r := s.threads[t].phase.r;
    var s1 := Setting(s.(runners := s.runners - {r}), t, Clearing(r));
    match s.runners[r].holds
    case None => s1
    case Some(g) => s1.(groups := s.groups[g := s.groups[g].(refs := s.groups[g].refs - 1)])
  }

  function Switching(s: State, t: nat, dst: SchedId, throws: bool): State
    requires t < |s.threads| && s.threads[t].phase.Body? && s.threads[t].phase.r in s.runners
  {
    var r := s.threads[t].phase.r;
    if s.runners[r].sched == dst then s
    else
      var s1 := s.(runners := s.runners[r := s.runners[r].(sched := dst)]);
      if throws then s1 else Yielding(s1, t, ProceedSelf)
  }

  function Dropped(s: State, t: nat, r: RunnerId, g: GroupId): State
    requires t < |s.threads| && ReleaseDefined(s, g)
  {
    AfterRelease(LettingGo(s, t, r, g), g)
  }

  function DestroyingMembers(s: State, t: nat): State
    requires t < |s.threads| && s.threads[t].phase.Destroying? && s.threads[t].phase.r in s.runners
    requires var r := s.threads[t].phase.r;
             s.runners[r].holds.Some? ==> ReleaseDefined(s.(runners := s.runners - {r}), s.runners[r].holds.value)
  {
    var h := s.runners[s.threads[t].phase.r].holds;
    if h.None? then Destroyed(s, t) else AfterRelease(Destroyed(s, t), h.value)
  }

  function Do(s: State, a: Action): State
    requires Enabled(s, a) && Defined(s, a)
  {
    match a
    case RunOutside(sched) => Spawning(s, sched, None, 0, sched)
    case Begin(t, k) => EnterCoroutine(s, t, k)
    case Run(t, None) =>
      var ru := s.runners[s.threads[t].tlsRunner.value];
      Spawning(s, ru.sched, None, 0, ru.home)
    case Run(t, Some(sched)) => Spawning(s, sched, None, 0, sched)
    case MakeWaiter(t) => s.(groups := s.groups + [NewGroup(Waiting, s.threads[t].tlsRunner.value, t, 0)])
    case RunWaited(t, g) =>
      var ru := s.runners[s.threads[t].tlsRunner.value];
      SpawningInto(s, ru.sched, g, ru.home)
    case Wait(t, g) => if s.groups[g].refs == 1 then s else Yielding(s, t, DropWaiter(g))
    case Suspend(t, d) => Yielding(s, t, d)
    case SwitchTo(t, dst, throws) => Switching(s, t, dst, throws)
    case Finish(t, result) => Finishing(s, t, result)
    case Deliver(t) => Delivering(s, t)
    case End(t) =>
      var Body(r, frame) := s.threads[t].phase;
      s.(threads := s.threads[t := s.threads[t].(phase := Yielded(r, frame, true), tlsCoro := None)])
    case Return(t) => Returning(s, t)
    case Exit(t) => Leaving(s, t)
    case SpawnNext(t) =>
      var ru := s.runners[s.threads[t].tlsRunner.value];
      SpawningInto(s, ru.sched, s.threads[t].phase.g, ru.home)
    case LoopEnd(t) => Dropped(s.(exclusive := None), t, s.threads[t].phase.r, s.threads[t].phase.g)
    case HandOver(t) => HandingOver(s, t)
    case CallbackEnd(t) => Setting(s, t, Clearing(s.threads[t].phase.r))
    case Drop(t) => Dropped(s, t, s.threads[t].phase.r, s.threads[t].phase.g)
    case ProceedNow(t) => Setting(Posting(s, s.threads[t].phase.r), t, Clearing(s.threads[t].phase.r))
    case Destroy(t) => DestroyingMembers(s, t)
    case Clear(t) => s.(threads := s.threads[t := s.threads[t].(phase := Idle, tlsRunner := None)])
    case Completion(g) => Proceed(s, g)
  }

  // ----- Runs

  /** An operation without a scheduler of its own is started after the callback has handed `proceed` on. */
  predicate StartsBlindly(s: State, a: Action) {
    a.Run? && a.target == None && a.t < |s.threads| && s.threads[a.t].phase.Tail?
  }

  /** Such a start is made under a shelter only. */
  predicate Careful(s: State, a: Action) {
    StartsBlindly(s, a) ==> s.threads[a.t].phase.sheltered
  }

  /** Nothing exists yet but the worker threads and the schedulers. */
  predicate Init(s: State) {
    && s.runners == map[] && s.count == 0 && s.posted == map[] && s.groups == [] && s.calls == {} && s.exclusive == None
    && forall t | 0 <= t < |s.threads| :: s.threads[t].phase == Idle && s.threads[t].tlsRunner == None
  }

  /** `states` is a run of the program that takes `actions`. */
  ghost predicate IsRun(states: seq<State>, actions: seq<Action>) {
    && |states| == |actions| + 1
    && Init(states[0])
    && forall i | 0 <= i < |actions| ::
         && Enabled(states[i], actions[i])
         && (Defined(states[i], actions[i]) ==> states[i + 1] == Do(states[i], actions[i]))
  }

  ghost predicate IsCarefulRun(states: seq<State>, actions: seq<Action>) {
    IsRun(states, actions) && forall i | 0 <= i < |actions| :: Careful(states[i], actions[i])
  }
}
