/**
 * What RunAsyncAnyWait does not promise.
 *
 * Its children refer to their handlers in the list that the caller has made for the call.  The list goes when
 * the caller goes on, and the caller goes on when the first handler has returned.  And when all handlers
 * throw, the caller never goes on.
 */
module AnyWait {
  import opened Options
  import opened Runtime
  import opened RuntimeInvariant
  import opened RuntimeSteps
  import opened RuntimeSafety
  import opened RuntimeTails
  import opened RuntimeTheorems
  import opened RuntimeRuns
  import opened Driving
  import opened RuntimeHistory

  // ----- Handlers

  predicate IsChild(s: State, g: GroupId, c: RunnerId) {
    && g < |s.groups| && s.groups[g].kind == AnyIndex
    && c in s.runners && s.runners[c].holds == Some(g)
  }

  /** Thread `u` is not just back from the end of the child's coroutine. */
  predicate NotBack(th: Thread, c: RunnerId) { !(th.phase.Yielded? && th.phase.r == c && th.phase.ended) }

  /** The handler of the child has not returned and not thrown: it is still to run, or it runs, or it is suspended. */
  ghost predicate Unfinished(s: State, c: RunnerId) {
    && c in s.runners && s.runners[c].progress == Working && s.runners[c].coro != Complete
    && forall t | 0 <= t < |s.threads| :: NotBack(s.threads[t], c)
  }

  /** The child whose coroutine the step enters, or in whose coroutine it is taken. */
  function Mover(s: State, a: Action): Option<RunnerId>
    requires Enabled(s, a)
  {
    if a.Begin? then Some(s.posted[a.ticket].runner)
    else if Actor(a).Some? && s.threads[Actor(a).value].phase.Body? then Some(s.threads[Actor(a).value].phase.r)
    else None
  }

  /** The step calls the handler of child `c`, or is taken inside it. */
  predicate UsesHandler(s: State, a: Action, g: GroupId, c: RunnerId) {
    Enabled(s, a) && Mover(s, a) == Some(c) && IsChild(s, g, c) && s.runners[c].progress == Working
  }

  /** The caller is resumed and leaves the call, and the handler of child `c` has not come to its end. */
  ghost predicate LeavesBehind(s: State, a: Action, g: GroupId, c: RunnerId) {
    && a.Begin? && Enabled(s, a) && !s.posted[a.ticket].start
    && IsChild(s, g, c) && Unfinished(s, c)
    && g in s.calls && s.groups[g].owner == s.posted[a.ticket].runner
  }

  /** While its children are being started, a call has not been left. */
  ghost predicate CallsOk(s: State) {
    forall g | 0 <= g < |s.groups| && s.groups[g].kind == AnyIndex && s.groups[g].hold == Local :: g in s.calls
  }

  // ----- Steps

  lemma QueuedIsUnfinished(s: State, k: nat)
    requires Placed(s) && k in s.posted && TaskOk(s, k) && s.runners[s.posted[k].runner].progress == Working
    ensures Unfinished(s, s.posted[k].runner)
  {
    assert At(s, InQueue(k)) == Some(s.posted[k].runner);
    forall t | 0 <= t < |s.threads|
      ensures NotBack(s.threads[t], s.posted[k].runner)
    {
      assert At(s, OnThread(t)) == Occupant(s.threads[t].phase);
    }
  }

  lemma RunningIsUnfinished(s: State, t: nat)
    requires Placed(s) && t < |s.threads| && ThreadOk(s, t) && s.threads[t].phase.Body?
    requires s.threads[t].phase.r in s.runners && s.runners[s.threads[t].phase.r].progress == Working
    ensures Unfinished(s, s.threads[t].phase.r)
  {
    OthersElsewhere(s, t, s.threads[t].phase.r);
  }

  lemma UsesIsUnfinished(s: State, a: Action, g: GroupId, c: RunnerId)
    requires Inv(s) && UsesHandler(s, a, g, c)
    ensures Unfinished(s, c)
  {
    if a.Begin? {
      assert TaskOk(s, a.ticket);
      QueuedIsUnfinished(s, a.ticket);
    } else {
      assert ThreadOk(s, Actor(a).value);
      RunningIsUnfinished(s, Actor(a).value);
    }
  }

  lemma BodyKeepsCalls(s: State, a: Action)
    requires Enabled(s, a) && Defined(s, a) && OfBody(a) && !a.Begin?
    ensures Do(s, a).calls == s.calls
  {
  }

  lemma ExitKeepsCalls(s: State, a: Action)
    requires Enabled(s, a) && Defined(s, a) && !OfBody(a) && !a.Exit?
    ensures Do(s, a).calls == s.calls
  {
  }

  /** Calls are left by resuming their callers, and begun by OnExit. */
  lemma CallsChange(s: State, a: Action, g: GroupId)
    requires Enabled(s, a) && Defined(s, a) && g < |s.groups|
    ensures g in Do(s, a).calls <==>
            g in s.calls && !(a.Begin? && !s.posted[a.ticket].start && s.groups[g].owner == s.posted[a.ticket].runner)
  {
    if a.Exit? || a.Begin? {
    } else if OfBody(a) {
      BodyKeepsCalls(s, a);
    } else {
      ExitKeepsCalls(s, a);
    }
  }

  lemma NewGroupIsCalled(s: State, a: Action, g: GroupId)
    requires Enabled(s, a) && Defined(s, a) && (a.MakeWaiter? || a.Exit?)
    requires |s.groups| <= g < |Do(s, a).groups| && Do(s, a).groups[g].kind == AnyIndex
    ensures g in Do(s, a).calls
  {
  }

  lemma OnlyTheseOpen(s: State, a: Action)
    requires Enabled(s, a) && Defined(s, a)
    ensures |Do(s, a).groups| == |s.groups| || a.MakeWaiter? || a.Exit?
  {
    if Releases(a) { ReleaseKeepsKinds(s, a, 0); }
  }

  /** No caller is resumed while children of a RunAsyncAnyWait are being started. */
  lemma NobodyStarting(s: State, t: nat, k: nat, g: GroupId)
    requires Inv(s) && Enabled(s, Begin(t, k)) && g < |s.groups| && s.groups[g].kind == AnyIndex
    ensures s.groups[g].hold == Released
  {
    NobodyExclusive(s, Begin(t, k));
    assert GroupOk(s, g);
  }

  lemma BodyKeepsHolds(s: State, a: Action, g: GroupId)
    requires Enabled(s, a) && Defined(s, a) && OfBody(a) && g < |s.groups|
    ensures g < |Do(s, a).groups| && Do(s, a).groups[g].hold == s.groups[g].hold
  {
  }

  lemma ReleasedStays(s: State, a: Action, g: GroupId)
    requires Enabled(s, a) && Defined(s, a) && g < |s.groups|
    ensures g < |Do(s, a).groups| && (s.groups[g].hold == Released ==> Do(s, a).groups[g].hold == Released)
  {
    if OfBody(a) { BodyKeepsHolds(s, a, g); }
  }

  lemma CallOkKept(s: State, a: Action, g: GroupId)
    requires Inv(s) && CallsOk(s) && Enabled(s, a) && Defined(s, a)
    requires g < |Do(s, a).groups| && Do(s, a).groups[g].kind == AnyIndex && Do(s, a).groups[g].hold == Local
    ensures g in Do(s, a).calls
  {
    KindsKept(s, a, g);
    OnlyTheseOpen(s, a);
    if g < |s.groups| {
      ReleasedStays(s, a, g);
      CallsChange(s, a, g);
      if a.Begin? { NobodyStarting(s, a.t, a.ticket, g); }
    } else {
      NewGroupIsCalled(s, a, g);
    }
  }

  lemma CallsOkKept(s: State, a: Action)
    requires Inv(s) && CallsOk(s) && Enabled(s, a) && Defined(s, a)
    ensures CallsOk(Do(s, a))
  {
    var s' := Do(s, a);
    forall g | 0 <= g < |s'.groups| && s'.groups[g].kind == AnyIndex && s'.groups[g].hold == Local
      ensures g in s'.calls
    {
      CallOkKept(s, a, g);
    }
  }

  // ----- Backward: where an unfinished child of a call that was left comes from

  lemma BodyKeepsChildren(s: State, a: Action, c: RunnerId)
    requires Enabled(s, a) && Defined(s, a) && OfBody(a) && s.nextRunner !in s.runners && c in Do(s, a).runners
    ensures c in s.runners ==> Do(s, a).runners[c].holds == s.runners[c].holds
    ensures c !in s.runners ==> Do(s, a).runners[c].holds == (if a.RunWaited? then Some(a.g) else None)
  {
  }

  lemma AfterReleaseKeepsRunners(s: State, g: GroupId)
    requires g < |s.groups| && (DeleterProceeds(s.groups[g]) ==> s.groups[g].owner in s.runners)
    ensures AfterRelease(s, g).runners == s.runners && AfterRelease(s, g).threads == s.threads
  {
  }

  lemma ExitKeepsChildren(s: State, a: Action, c: RunnerId)
    requires Enabled(s, a) && Defined(s, a) && !OfBody(a) && s.nextRunner !in s.runners && c in Do(s, a).runners
    ensures c in s.runners ==> Do(s, a).runners[c].holds == s.runners[c].holds
    ensures c !in s.runners ==> a.SpawnNext? && Do(s, a).runners[c].holds == Some(s.threads[a.t].phase.g)
  {
  }

  /** A child of a call that was left is not new. */
  lemma ChildIsOld(s: State, a: Action, g: GroupId, c: RunnerId)
    requires Inv(s) && CallsOk(s) && Enabled(s, a) && Defined(s, a)
    requires IsChild(Do(s, a), g, c) && g !in Do(s, a).calls
    ensures IsChild(s, g, c)
  {
    NumbersAreNew(s);
    KindsKept(s, a, g);
    if OfBody(a) { BodyKeepsChildren(s, a, c); } else { ExitKeepsChildren(s, a, c); }
    if c in s.runners {
      assert RunnerOk(s, c);
    } else {
      NewChildIsCalled(s, a, g);
    }
  }

  lemma NewChildIsCalled(s: State, a: Action, g: GroupId)
    requires Inv(s) && CallsOk(s) && Enabled(s, a) && Defined(s, a)
    requires (a.RunWaited? && a.g == g) || (a.SpawnNext? && s.threads[a.t].phase.g == g)
    ensures g < |s.groups| && (s.groups[g].kind == AnyIndex ==> g in Do(s, a).calls)
  {
    assert ThreadOk(s, a.t);
    if OfBody(a) { BodyKeepsCalls(s, a); } else { ExitKeepsCalls(s, a); }
  }

  predicate StaysEnded(ru: Runner, ru': Runner) {
    && (ru.progress != Working ==> ru'.progress != Working)
    && (ru.coro == Complete ==> ru'.coro == Complete)
  }

  predicate StaysBack(th: Thread, th': Thread, s': State) {
    th.phase.Yielded? && th.phase.ended ==>
      th' == th || (th.phase.r in s'.runners ==> s'.runners[th.phase.r].coro == Complete)
  }

  /** What has come to its end does not begin again. */
  ghost predicate EndsKept(s: State, s': State) {
    && |s'.threads| == |s.threads|
    && (forall c | c in s.runners && c in s'.runners :: StaysEnded(s.runners[c], s'.runners[c]))
    && (forall t | 0 <= t < |s.threads| :: StaysBack(s.threads[t], s'.threads[t], s'))
  }

  lemma WasUnfinished(s: State, s': State, c: RunnerId)
    requires EndsKept(s, s') && c in s.runners && Unfinished(s', c)
    ensures Unfinished(s, c)
  {
  }

  lemma BeginKeepsEnds(s: State, t: nat, k: nat)
    requires Enabled(s, Begin(t, k)) && Defined(s, Begin(t, k))
    ensures EndsKept(s, Do(s, Begin(t, k)))
  {
  }

  lemma BodyKeepsEnds(s: State, a: Action)
    requires Enabled(s, a) && Defined(s, a) && OfBody(a) && !a.Finish? && !a.Deliver?
    requires !a.RunOutside? && !a.Run? && !a.RunWaited? && !a.Begin?
    ensures EndsKept(s, Do(s, a))
  {
  }

  lemma StartKeepsEnds(s: State, a: Action)
    requires Enabled(s, a) && Defined(s, a) && s.nextRunner !in s.runners
    requires a.RunOutside? || a.Run? || a.RunWaited? || a.SpawnNext?
    ensures EndsKept(s, Do(s, a))
  {
  }

  lemma FinishKeepsEnds(s: State, a: Action)
    requires Enabled(s, a) && Defined(s, a) && (a.Finish? || a.Deliver?)
    ensures EndsKept(s, Do(s, a))
  {
  }

  lemma LeavingKeepsEnds(s: State, t: nat)
    requires t < |s.threads| && s.threads[t].phase.Exiting? && s.threads[t].phase.r in s.runners
    ensures EndsKept(s, Leaving(s, t))
  {
  }

  lemma ReturnKeepsEnds(s: State, t: nat)
    requires ThreadsOk(s) && Enabled(s, Return(t)) && Defined(s, Return(t))
    ensures EndsKept(s, Returning(s, t))
  {
    assert ThreadOk(s, t);
  }

  lemma ReleaseKeepsEnds(s: State, a: Action)
    requires Enabled(s, a) && Defined(s, a) && (a.LoopEnd? || a.Drop? || a.Destroy?)
    ensures EndsKept(s, Do(s, a))
  {
    if a.Destroy? {
      var h := s.runners[s.threads[a.t].phase.r].holds;
      if h.Some? { AfterReleaseKeepsRunners(Destroyed(s, a.t), h.value); }
    } else {
      var s0 := if a.LoopEnd? then s.(exclusive := None) else s;
      var r, h := s.threads[a.t].phase.r, s.threads[a.t].phase.g;
      AfterReleaseKeepsRunners(LettingGo(s0, a.t, r, h), h);
    }
  }

  lemma ExitKeepsEnds(s: State, a: Action)
    requires Enabled(s, a) && Defined(s, a) && !OfBody(a) && !a.SpawnNext?
    requires !a.Return? && !a.Exit? && !a.LoopEnd? && !a.Drop? && !a.Destroy?
    ensures EndsKept(s, Do(s, a))
  {
  }

  lemma StepKeepsEnds(s: State, a: Action)
    requires Inv(s) && Enabled(s, a) && Defined(s, a)
    ensures EndsKept(s, Do(s, a))
  {
    NumbersAreNew(s);
    if a.Finish? || a.Deliver? {
      FinishKeepsEnds(s, a);
    } else if a.RunOutside? || a.Run? || a.RunWaited? || a.SpawnNext? {
      StartKeepsEnds(s, a);
    } else if a.Begin? {
      BeginKeepsEnds(s, a.t, a.ticket);
    } else if OfBody(a) {
      BodyKeepsEnds(s, a);
    } else if a.Exit? {
      LeavingKeepsEnds(s, a.t);
    } else if a.Return? {
      ReturnKeepsEnds(s, a.t);
    } else if a.LoopEnd? || a.Drop? || a.Destroy? {
      ReleaseKeepsEnds(s, a);
    } else {
      ExitKeepsEnds(s, a);
    }
  }

  /** An unfinished child of a call that was left was unfinished before, and the call was left before or is left now. */
  lemma LeftBefore(s: State, a: Action, g: GroupId, c: RunnerId)
    requires Inv(s) && CallsOk(s) && Enabled(s, a) && Defined(s, a)
    requires IsChild(Do(s, a), g, c) && Unfinished(Do(s, a), c) && g !in Do(s, a).calls
    ensures IsChild(s, g, c) && Unfinished(s, c)
    ensures g !in s.calls || LeavesBehind(s, a, g, c)
  {
    ChildIsOld(s, a, g, c);
    StepKeepsEnds(s, a);
    WasUnfinished(s, Do(s, a), c);
    CallsChange(s, a, g);
  }

  // ----- Runs

  lemma FinishEnds(s: State, t: nat, result: Option<int>)
    requires Enabled(s, Finish(t, result)) && Defined(s, Finish(t, result))
    ensures var c := s.threads[t].phase.r;
            c in Do(s, Finish(t, result)).runners && Do(s, Finish(t, result)).runners[c].progress != Working
  {
  }

  lemma EndsInRun(states: seq<State>, actions: seq<Action>, n: nat)
    requires IsCarefulRun(states, actions) && n < |actions|
    ensures EndsKept(states[n], states[n + 1]) && states[n].nextRunner <= states[n + 1].nextRunner
    ensures forall c | c in states[n + 1].runners && c !in states[n].runners :: c == states[n].nextRunner
    ensures forall c | c in states[n].runners :: c < states[n].nextRunner
  {
    RunsAreSafe(states, actions, n);
    StepKeepsEnds(states[n], actions[n]);
    NumbersInRun(states, actions, n);
    forall c | c in states[n + 1].runners && c !in states[n].runners
      ensures c == states[n].nextRunner
    {
      NumbersAreNew(states[n]);
      StepKeepsRunner(states[n], actions[n], c);
    }
    forall c | c in states[n].runners
      ensures c < states[n].nextRunner
    {
      assert RunnerOk(states[n], c);
    }
  }

  /** A handler of an Any-combinator returns once: after that it contributes nothing more, and uses no handler. */
  lemma {:induction false} FinishesOnce(states: seq<State>, actions: seq<Action>, i: nat, n: nat, c: RunnerId)
    requires IsCarefulRun(states, actions) && i < n <= |actions|
    requires actions[i].Finish? && Who(states[i], actions[i]) == Some(c)
    ensures c < states[n].nextRunner && (c in states[n].runners ==> states[n].runners[c].progress != Working)
    ensures n < |actions| && Who(states[n], actions[n]) == Some(c) && c in states[n].runners ==> !actions[n].Finish?
  {
    EndsInRun(states, actions, n - 1);
    if n == i + 1 {
      RunsAreSafe(states, actions, i);
      FinishEnds(states[i], actions[i].t, actions[i].result);
    } else {
      FinishesOnce(states, actions, i, n - 1, c);
      if c in states[n].runners { assert StaysEnded(states[n - 1].runners[c], states[n].runners[c]); }
    }
  }

  lemma {:induction false} CallsAlwaysOk(states: seq<State>, actions: seq<Action>, n: nat)
    requires IsCarefulRun(states, actions) && n <= |actions|
    ensures CallsOk(states[n])
  {
    if n > 0 {
      RunsAreSafe(states, actions, n - 1);
      CallsAlwaysOk(states, actions, n - 1);
      CallsOkKept(states[n - 1], actions[n - 1]);
    }
  }

  lemma {:induction false} WasLeft(states: seq<State>, actions: seq<Action>, n: nat, g: GroupId, c: RunnerId)
    returns (j: nat)
    requires IsCarefulRun(states, actions) && n <= |actions|
    requires IsChild(states[n], g, c) && Unfinished(states[n], c) && g !in states[n].calls
    ensures j < n && LeavesBehind(states[j], actions[j], g, c)
  {
    RunsAreSafe(states, actions, n - 1);
    CallsAlwaysOk(states, actions, n - 1);
    LeftBefore(states[n - 1], actions[n - 1], g, c);
    if g in states[n - 1].calls { j := n - 1; } else { j := WasLeft(states, actions, n - 1, g, c); }
  }

  lemma {:induction false} StaysLeft(states: seq<State>, actions: seq<Action>, j: nat, n: nat, g: GroupId, c: RunnerId)
    requires IsCarefulRun(states, actions) && j < n <= |actions| && LeavesBehind(states[j], actions[j], g, c)
    ensures g < |states[n].groups| && g !in states[n].calls
  {
    RunsAreSafe(states, actions, n - 1);
    if n > j + 1 { StaysLeft(states, actions, j, n - 1, g, c); }
    KindsKept(states[n - 1], actions[n - 1], g);
    CallsChange(states[n - 1], actions[n - 1], g);
  }

  /**
   * A step that calls the handler of a child, or is taken inside it, finds the list of handlers gone if and only if the
   * caller has gone on before, while this child was still to run or to finish.
   */
  lemma HandlerIsGoneIff(states: seq<State>, actions: seq<Action>, i: nat, g: GroupId, c: RunnerId)
    requires IsCarefulRun(states, actions) && i < |actions| && UsesHandler(states[i], actions[i], g, c)
    ensures g !in states[i].calls <==> exists j: nat | j < i :: LeavesBehind(states[j], actions[j], g, c)
  {
    if g !in states[i].calls {
      RunsAreSafe(states, actions, i);
      UsesIsUnfinished(states[i], actions[i], g, c);
      var j := WasLeft(states, actions, i, g, c);
    }
    forall j: nat | j < i && LeavesBehind(states[j], actions[j], g, c)
      ensures g !in states[i].calls
    {
      StaysLeft(states, actions, j, i, g, c);
    }
  }

  // ----- When the caller goes on

  /** No continuation calls a handler of the call, or goes on inside one, after the list has gone. */
  ghost predicate NeverUsed(s: State, g: GroupId) {
    forall actions, s1, a, c :: Leads(s, actions, s1) && UsesHandler(s1, a, g, c) ==> g in s1.calls
  }

  ghost predicate AllFinished(s: State, g: GroupId) {
    forall c | c in s.runners && IsChild(s, g, c) :: !Unfinished(s, c)
  }

  lemma {:induction false} StaysFinished(s: State, actions: seq<Action>, s1: State, g: GroupId, c: RunnerId)
    requires Inv(s) && CallsOk(s) && g < |s.groups| && g !in s.calls && AllFinished(s, g) && Leads(s, actions, s1)
    ensures Inv(s1) && !(IsChild(s1, g, c) && Unfinished(s1, c))
    decreases |actions|
  {
    if actions != [] {
      StepKeeps(s, actions[0]);
      CallsOkKept(s, actions[0]);
      FinishedNext(s, actions[0], g);
      StaysFinished(Do(s, actions[0]), actions[1..], s1, g, c);
    }
  }

  lemma FinishedNext(s: State, a: Action, g: GroupId)
    requires Inv(s) && CallsOk(s) && Enabled(s, a) && Defined(s, a) && g < |s.groups| && g !in s.calls
             && AllFinished(s, g)
    ensures g < |Do(s, a).groups| && g !in Do(s, a).calls && AllFinished(Do(s, a), g)
  {
    KindsKept(s, a, g);
    CallsChange(s, a, g);
    forall c | c in Do(s, a).runners && IsChild(Do(s, a), g, c)
      ensures !Unfinished(Do(s, a), c)
    {
      if Unfinished(Do(s, a), c) { LeftBefore(s, a, g, c); }
    }
  }

  lemma NotUsed(s: State, actions: seq<Action>, s1: State, a: Action, g: GroupId, c: RunnerId)
    requires Inv(s) && CallsOk(s) && g < |s.groups| && g !in s.calls && AllFinished(s, g) && Leads(s, actions, s1)
    ensures !UsesHandler(s1, a, g, c)
  {
    StaysFinished(s, actions, s1, g, c);
    if UsesHandler(s1, a, g, c) { UsesIsUnfinished(s1, a, g, c); }
  }

  /** If all handlers have come to their ends when the caller goes on, their list is never used again. */
  lemma FinishedIsSafe(s: State, g: GroupId)
    requires Inv(s) && CallsOk(s) && g < |s.groups| && g !in s.calls && AllFinished(s, g)
    ensures NeverUsed(s, g)
  {
    forall actions, s1, a, c | Leads(s, actions, s1)
      ensures !UsesHandler(s1, a, g, c)
    {
      NotUsed(s, actions, s1, a, g, c);
    }
  }

  predicate HoldsStrand(s: State, v: nat, sched: SchedId)
    requires v < |s.threads|
  {
    s.threads[v].phase != Idle && s.threads[v].on == sched && sched in s.strands
  }

  /** The thread that holds a strand, or else any thread. */
  lemma Holder(s: State, sched: SchedId) returns (u: nat)
    requires StrandsOk(s) && |s.threads| > 0
    ensures u < |s.threads| && forall v | 0 <= v < |s.threads| && v != u :: !HoldsStrand(s, v, sched)
  {
    if v :| 0 <= v < |s.threads| && HoldsStrand(s, v, sched) { u := v; } else { u := 0; }
  }

  /** The child of a call that was left has its handler still to run or to finish. */
  predicate LeftChild(s: State, g: GroupId, c: RunnerId) {
    IsChild(s, g, c) && s.runners[c].progress == Working && g !in s.calls
  }

  /** Some thread may come to take up a queued runner. */
  lemma Fetches(s: State, c: RunnerId, k: nat) returns (actions: seq<Action>, s1: State, u: nat)
    requires Inv(s) && s.exclusive == None && |s.threads| > 0 && At(s, InQueue(k)) == Some(c)
    ensures Leads(s, actions, s1) && StillWaits(s, s1, c, InQueue(k)) && Enabled(s1, Begin(u, k))
  {
    u := Holder(s, s.posted[k].sched);
    actions, s1 := DriveToIdle(s, u, c, InQueue(k));
    OthersAsBefore(s, actions, s1, u);
    forall v | 0 <= v < |s1.threads|
      ensures !HoldsStrand(s1, v, s1.posted[k].sched)
    {
      assert v != u ==> !HoldsStrand(s, v, s.posted[k].sched);
    }
    assert forall v | 0 <= v < |s1.threads| && s1.threads[v].phase != Idle :: !HoldsStrand(s1, v, s1.posted[k].sched);
  }

  /** If it is in a queue, it is taken up. */
  lemma UsedFromQueue(s: State, g: GroupId, c: RunnerId, k: nat)
    requires Inv(s) && s.exclusive == None && |s.threads| > 0 && LeftChild(s, g, c) && At(s, InQueue(k)) == Some(c)
    ensures !NeverUsed(s, g)
  {
    var actions, s1, u := Fetches(s, c, k);
    UsesIfTaken(s, s1, g, c, k, u);
  }

  lemma UsesIfTaken(s: State, s1: State, g: GroupId, c: RunnerId, k: nat, u: nat)
    requires LeftChild(s, g, c) && At(s, InQueue(k)) == Some(c) && StillWaits(s, s1, c, InQueue(k))
    requires Enabled(s1, Begin(u, k))
    ensures UsesHandler(s1, Begin(u, k), g, c) && g !in s1.calls
  {
  }

  /** If it is in its body, the next step it takes is inside the handler. */
  lemma UsedInBody(s: State, g: GroupId, c: RunnerId, u: nat)
    requires s.exclusive == None && LeftChild(s, g, c) && At(s, OnThread(u)) == Some(c) && s.threads[u].phase.Body?
    ensures !NeverUsed(s, g)
  {
    assert Leads(s, [], s) && UsesHandler(s, End(u), g, c);
  }

  lemma Completed(s: State, g: GroupId, c: RunnerId, h: GroupId)
    requires LeftChild(s, g, c) && s.exclusive == None && At(s, AtGroup(h)) == Some(c) && s.groups[h].kind == External
    ensures Enabled(s, Completion(h)) && Defined(s, Completion(h))
    ensures var s1 := Do(s, Completion(h));
            && s1.exclusive == None && |s1.threads| == |s.threads|
            && LeftChild(s1, g, c) && At(s1, InQueue(s.nextTicket)) == Some(c)
  {
  }

  /** If it waits for the world, the world may send it on. */
  lemma UsedAfterCompletion(s: State, g: GroupId, c: RunnerId, h: GroupId)
    requires Inv(s) && s.exclusive == None && |s.threads| > 0 && LeftChild(s, g, c)
    requires At(s, AtGroup(h)) == Some(c) && s.groups[h].kind == External
    ensures !NeverUsed(s, g)
  {
    Completed(s, g, c, h);
    var s1 := Do(s, Completion(h));
    StepKeeps(s, Completion(h));
    UsedFromQueue(s1, g, c, s.nextTicket);
    StillUsed(s, Completion(h), s1, g);
  }

  lemma StillUsed(s: State, a: Action, s1: State, g: GroupId)
    requires Hops(s, a, s1) && !NeverUsed(s1, g)
    ensures !NeverUsed(s, g)
  {
    var actions, s2, b, c :| Leads(s1, actions, s2) && UsesHandler(s2, b, g, c) && g !in s2.calls;
    HopFirst(s, a, s1, actions, s2);
  }

  /** The runner is in its body, or waits for a thread or for the world, and not for operations of its own. */
  predicate Ready(s: State, c: RunnerId, p: Place) {
    Waits(s, c, p) || (At(s, p) == Some(c) && p.OnThread? && s.threads[p.t].phase.Body?)
  }

  /**
   * What a caller of RunAsyncAnyWait would have to know.  When it goes on and leaves the call: if all handlers have
   * come to their ends, their list is never used again; if one has not, and does not wait for operations of its own,
   * there is a continuation in which the list is used when it has gone.
   */
  lemma LeavingIsSafe(s: State, t: nat, k: nat, g: GroupId)
    requires Inv(s) && CallsOk(s) && Enabled(s, Begin(t, k)) && Defined(s, Begin(t, k)) && !s.posted[k].start
    requires g in s.calls && g < |s.groups| && s.groups[g].owner == s.posted[k].runner
    ensures var s' := Do(s, Begin(t, k));
            && (AllFinished(s', g) ==> NeverUsed(s', g))
            && (forall c, p | IsChild(s', g, c) && Unfinished(s', c) && Ready(s', c, p) :: !NeverUsed(s', g))
  {
    var s' := Do(s, Begin(t, k));
    StepKeeps(s, Begin(t, k));
    CallsOkKept(s, Begin(t, k));
    CallsChange(s, Begin(t, k), g);
    NobodyExclusive(s, Begin(t, k));
    if AllFinished(s', g) { FinishedIsSafe(s', g); }
    forall c, p | IsChild(s', g, c) && Unfinished(s', c) && Ready(s', c, p)
      ensures !NeverUsed(s', g)
    {
      UnfinishedIsUsed(s', g, c, p);
    }
  }

  lemma UnfinishedIsUsed(s: State, g: GroupId, c: RunnerId, p: Place)
    requires Inv(s) && s.exclusive == None && |s.threads| > 0 && LeftChild(s, g, c) && Ready(s, c, p)
    ensures !NeverUsed(s, g)
  {
    match p
    case InQueue(k) => UsedFromQueue(s, g, c, k);
    case OnThread(u) => UsedInBody(s, g, c, u);
    case AtGroup(h) => UsedAfterCompletion(s, g, c, h);
  }

  // ----- Handlers that all throw

  lemma BodyLeavesLost(s: State, a: Action, g: GroupId)
    requires Enabled(s, a) && Defined(s, a) && (a.Finish? || a.Deliver?) && g < |s.groups|
    requires forall c | c in s.runners :: s.runners[c].holds != Some(g)
    ensures g < |Do(s, a).groups| && Do(s, a).groups[g] == s.groups[g]
  {
  }

  lemma SpawnLeavesLost(s: State, a: Action, g: GroupId)
    requires ThreadsOk(s) && Enabled(s, a) && Defined(s, a) && (a.RunWaited? || a.SpawnNext?)
    requires g < |s.groups| && s.groups[g].hold == Released
    ensures g < |Do(s, a).groups| && Do(s, a).groups[g] == s.groups[g]
  {
    assert ThreadOk(s, a.t);
  }

  lemma AfterReleaseLeavesLost(s: State, h: GroupId, g: GroupId)
    requires h < |s.groups| && g < |s.groups| && g != h
    requires DeleterProceeds(s.groups[h]) ==> s.groups[h].owner in s.runners
    ensures g < |AfterRelease(s, h).groups| && AfterRelease(s, h).groups[g] == s.groups[g]
  {
  }

  lemma ReleaseLeavesLost(s: State, a: Action, g: GroupId)
    requires ThreadsOk(s) && Enabled(s, a) && Defined(s, a) && (a.LoopEnd? || a.Drop? || a.HandOver? || a.Completion?)
    requires g < |s.groups| && s.groups[g].hold == Released && s.groups[g].kind == AnyIndex
    ensures g < |Do(s, a).groups| && Do(s, a).groups[g] == s.groups[g]
  {
    if !a.Completion? { assert ThreadOk(s, a.t); }
    if a.LoopEnd? || a.Drop? {
      var s0 := if a.LoopEnd? then s.(exclusive := None) else s;
      var r, h := s.threads[a.t].phase.r, s.threads[a.t].phase.g;
      AfterReleaseLeavesLost(LettingGo(s0, a.t, r, h), h, g);
    }
  }

  lemma DestroyLeavesLost(s: State, t: nat, g: GroupId)
    requires Enabled(s, Destroy(t)) && Defined(s, Destroy(t)) && g < |s.groups|
    requires forall c | c in s.runners :: s.runners[c].holds != Some(g)
    ensures g < |DestroyingMembers(s, t).groups| && DestroyingMembers(s, t).groups[g] == s.groups[g]
  {
  }

  /** Nothing that happens later touches the call. */
  lemma LostStays(s: State, a: Action, g: GroupId)
    requires Inv(s) && Enabled(s, a) && Defined(s, a) && g < |s.groups| && AllThrew(s.groups[g])
    ensures g < |Do(s, a).groups| && Do(s, a).groups[g] == s.groups[g]
  {
    NobodyHolds(s, g);
    if Quiet(a) {
      QuietGroups(s, a, g);
    } else if a.Finish? || a.Deliver? {
      BodyLeavesLost(s, a, g);
    } else if a.RunWaited? || a.SpawnNext? {
      SpawnLeavesLost(s, a, g);
    } else if a.Destroy? {
      DestroyLeavesLost(s, a.t, g);
    } else {
      ReleaseLeavesLost(s, a, g);
    }
  }

  lemma LostIsParked(s: State, g: GroupId)
    requires Inv(s) && g < |s.groups| && AllThrew(s.groups[g])
    ensures At(s, AtGroup(g)) == Some(s.groups[g].owner)
    ensures s.groups[g].owner in s.runners && Suspended(s.runners[s.groups[g].owner])
  {
    assert GroupOk(s, g);
  }

  lemma LostNext(states: seq<State>, actions: seq<Action>, n: nat, g: GroupId)
    requires IsCarefulRun(states, actions) && n < |actions|
    requires g < |states[n].groups| && AllThrew(states[n].groups[g])
    ensures g < |states[n + 1].groups| && states[n + 1].groups[g] == states[n].groups[g]
  {
    RunsAreSafe(states, actions, n);
    LostStays(states[n], actions[n], g);
  }

  lemma {:induction false} LostInRun(states: seq<State>, actions: seq<Action>, m: nat, n: nat, g: GroupId)
    requires IsCarefulRun(states, actions) && m <= n <= |actions|
    requires g < |states[m].groups| && AllThrew(states[m].groups[g])
    ensures g < |states[n].groups| && states[n].groups[g] == states[m].groups[g]
  {
    if m < n {
      LostInRun(states, actions, m, n - 1, g);
      LostNext(states, actions, n - 1, g);
    }
  }

  /** Once all its handlers have thrown, the caller stays parked for ever. */
  lemma LostForEver(states: seq<State>, actions: seq<Action>, m: nat, n: nat, g: GroupId)
    requires IsCarefulRun(states, actions) && m <= n <= |actions|
    requires g < |states[m].groups| && AllThrew(states[m].groups[g])
    ensures g < |states[n].groups| && states[n].groups[g] == states[m].groups[g]
    ensures At(states[n], AtGroup(g)) == Some(states[n].groups[g].owner)
    ensures states[n].groups[g].owner in states[n].runners && Suspended(states[n].runners[states[n].groups[g].owner])
  {
    LostInRun(states, actions, m, n, g);
    RunsAreSafe(states, actions, n);
    LostIsParked(states[n], g);
  }
}
