/** What the runtime promises, for every run of every program. */
module RuntimeTheorems {
  import opened Options
  import opened Runtime
  import opened RuntimeInvariant
  import opened RuntimeSteps
  import opened RuntimeSafety
  import opened RuntimeTails

  // ----- Runs

  lemma InitHolds(s: State)
    requires Init(s)
    ensures Inv(s) && TailsOk(s)
  {
  }

  /**
   * In every run that starts nothing blindly outside a shelter, every action is safe: it has the effect `Do` gives it,
   * and the invariant holds throughout.
   */
  lemma {:induction false} RunsAreSafe(states: seq<State>, actions: seq<Action>, n: nat)
    requires IsCarefulRun(states, actions) && n <= |actions|
    ensures Inv(states[n]) && TailsOk(states[n])
    ensures n < |actions| ==> Defined(states[n], actions[n]) && states[n + 1] == Do(states[n], actions[n])
  {
    if n == 0 {
      InitHolds(states[0]);
    } else {
      RunsAreSafe(states, actions, n - 1);
      CarefulStepKeeps(states[n - 1], actions[n - 1]);
    }
    if n < |actions| { CarefulStepKeeps(states[n], actions[n]); }
  }

  ghost predicate Reachable(s: State) {
    exists states, actions :: IsCarefulRun(states, actions) && states[|actions|] == s
  }

  lemma ReachableInv(s: State)
    requires Reachable(s)
    ensures Inv(s) && TailsOk(s)
  {
    var states, actions :| IsCarefulRun(states, actions) && states[|actions|] == s;
    RunsAreSafe(states, actions, |actions|);
  }

  // ----- Where runners are

  /**
   * A runner in memory is in one place and in no other: it has one queued Start, or one queued
   * Resume, or one thread runs it, or it is parked with one undelivered `proceed`.
   */
  lemma OnePlace(s: State, r: RunnerId) returns (p: Place)
    requires Reachable(s) && r in s.runners
    ensures forall q :: At(s, q) == Some(r) <==> q == p
  {
    ReachableInv(s);
    p :| At(s, p) == Some(r);
  }

  /** No place refers to a runner that was deleted, and the state of the coroutine fits the place. */
  lemma PlacesAreSound(s: State, p: Place)
    requires Reachable(s) && At(s, p).Some?
    ensures At(s, p).value in s.runners
    ensures var ru := s.runners[At(s, p).value];
            match p
            case InQueue(k) =>
              && s.posted[k].sched == ru.sched
              && (if s.posted[k].start then Fresh(ru) else Suspended(ru))
            case OnThread(t) => s.threads[t].tlsRunner == At(s, p)
            case AtGroup(g) => Suspended(ru)
  {
    ReachableInv(s);
    match p
    case InQueue(k) => assert TaskOk(s, k);
    case OnThread(t) => assert ThreadOk(s, t);
    case AtGroup(g) => assert GroupOk(s, g);
  }

  /** While a body runs, both thread-local pointers of its thread are its own, whatever threads it ran on before. */
  lemma CurrentWhileRunning(s: State, t: nat)
    requires Reachable(s) && t < |s.threads| && s.threads[t].phase.Body?
    ensures SelfCurrent(s, t, s.threads[t].phase.r)
  {
    ReachableInv(s);
    assert ThreadOk(s, t);
  }

  /** Only the destruction of members takes a runner out of memory. */
  lemma BodyKeepsRunners(s: State, a: Action, r: RunnerId)
    requires Enabled(s, a) && Defined(s, a) && OfBody(a) && r in s.runners
    ensures r in Do(s, a).runners
  {
  }

  lemma ExitKeepsRunners(s: State, a: Action, r: RunnerId)
    requires Enabled(s, a) && Defined(s, a) && !OfBody(a) && !a.Destroy? && r in s.runners
    ensures r in Do(s, a).runners
  {
  }

  lemma DestructionTakesItsRunner(s: State, t: nat, r: RunnerId)
    requires Enabled(s, Destroy(t)) && Defined(s, Destroy(t)) && r in s.runners && r !in DestroyingMembers(s, t).runners
    ensures s.threads[t].phase == Destroying(r)
  {
  }

  lemma OnlyDestructionTakes(s: State, a: Action, r: RunnerId)
    requires Enabled(s, a) && Defined(s, a) && r in s.runners && r !in Do(s, a).runners
    ensures a.Destroy? && s.threads[a.t].phase == Destroying(r)
  {
    if OfBody(a) {
      BodyKeepsRunners(s, a, r);
    } else if !a.Destroy? {
      ExitKeepsRunners(s, a, r);
    } else {
      DestructionTakesItsRunner(s, a.t, r);
    }
  }

  /** A runner leaves memory only by the destruction that its own OnExit began, after its coroutine has ended. */
  lemma DeletedOnlyAtTheEnd(s: State, a: Action, r: RunnerId)
    requires Reachable(s) && Enabled(s, a) && Defined(s, a)
    requires r in s.runners && r !in Do(s, a).runners
    ensures a.Destroy? && s.threads[a.t].phase == Destroying(r) && s.runners[r].coro == Complete
  {
    ReachableInv(s);
    OnlyDestructionTakes(s, a, r);
    assert ThreadOk(s, a.t);
  }

  /** And a coroutine that has ended leaves its runner on the thread that is about to delete it. */
  lemma EndedIsBeingDeleted(s: State, r: RunnerId)
    requires Reachable(s) && r in s.runners && s.runners[r].coro == Complete
    ensures exists t :: 0 <= t < |s.threads| &&
              ((s.threads[t].phase == Exiting(r) && s.runners[r].deferred == None) ||
               s.threads[t].phase == Destroying(r))
  {
    ReachableInv(s);
    forall k | k in s.posted
      ensures s.runners[s.posted[k].runner].coro != Complete
    {
      assert TaskOk(s, k);
    }
    forall g | 0 <= g < |s.groups| && Parked(s.groups[g])
      ensures s.groups[g].owner in s.runners && s.runners[s.groups[g].owner].coro != Complete
    {
      assert GroupOk(s, g);
    }
    var p :| At(s, p) == Some(r);
    assert p.OnThread? && ThreadOk(s, p.t);
  }

  // ----- The count

  /** What a thread may be at when no runner is left alive: nothing, or the rest of a callback or of a deletion. */
  predicate AtRest(ph: Phase) { ph.Idle? || ph.Clearing? || ph.Destroying? || ph.Tail? }

  /** Nothing is queued, no `proceed` is outstanding, and every thread is at rest. */
  ghost predicate Quiescent(s: State) {
    && s.posted == map[]
    && (forall t | 0 <= t < |s.threads| :: AtRest(s.threads[t].phase))
    && (forall g | 0 <= g < |s.groups| :: !Parked(s.groups[g]))
  }

  /**
   * The count is the number of runners whose destructor has not run.  It is zero exactly when nothing is queued, nobody
   * waits for a `proceed`, and every thread is idle, at the end of a deletion, or in the rest of a callback.
   */
  lemma CountIsExact(s: State)
    requires Reachable(s)
    ensures s.count == |Living(s)|
    ensures s.count == 0 <==> Quiescent(s)
  {
    ReachableInv(s);
    if s.count == 0 { ZeroIsQuiescent(s); }
    if Quiescent(s) { QuiescentIsZero(s); }
  }

  lemma QuiescentIsZero(s: State)
    requires Inv(s) && Quiescent(s)
    ensures s.count == 0
  {
    forall r | r in s.runners
      ensures s.runners[r].dying
    {
      var p :| At(s, p) == Some(r);
      assert p.OnThread? && ThreadOk(s, p.t);
    }
    assert Living(s) == {};
  }

  lemma ZeroIsQuiescent(s: State)
    requires Inv(s) && s.count == 0
    ensures Quiescent(s) && Living(s) == {}
  {
    forall k | k in s.posted
      ensures s.posted[k].runner in Living(s)
    {
      assert TaskOk(s, k);
    }
    forall t | 0 <= t < |s.threads|
      ensures AtRest(s.threads[t].phase) || s.threads[t].phase.r in Living(s)
    {
      assert ThreadOk(s, t);
    }
    forall g | 0 <= g < |s.groups| && Parked(s.groups[g])
      ensures s.groups[g].owner in Living(s)
    {
      assert GroupOk(s, g);
    }
    assert Living(s) == {};
    assert forall k :: k !in s.posted;
  }

  /** The steps that start an operation or delete a runner. */
  predicate Counts(a: Action) { a.RunOutside? || a.Run? || a.RunWaited? || a.SpawnNext? || a.Exit? }

  lemma BodyKeepsCount(s: State, a: Action)
    requires Enabled(s, a) && Defined(s, a) && OfBody(a) && !Counts(a)
    ensures Do(s, a).count == s.count
  {
  }

  lemma ExitKeepsCount(s: State, a: Action)
    requires Enabled(s, a) && Defined(s, a) && !OfBody(a) && !Counts(a)
    ensures Do(s, a).count == s.count
  {
  }

  lemma StartCounts(s: State, a: Action)
    requires Enabled(s, a) && Defined(s, a) && (a.RunOutside? || a.Run?)
    ensures Do(s, a).count == s.count + 1
  {
  }

  lemma RestCannot(s: State, a: Action)
    requires Enabled(s, a) && Counts(a) && !a.RunOutside? && AtRest(s.threads[a.t].phase)
    ensures a.Run? && s.threads[a.t].phase.Tail?
  {
  }

  /**
   * The count leaves zero exactly when an operation is started, and then it is started by code outside every runner,
   * or by the tail of a callback whose runner is gone.
   */
  lemma ZeroStaysZero(s: State, a: Action)
    requires Reachable(s) && Enabled(s, a) && Defined(s, a) && s.count == 0
    ensures Do(s, a).count != 0 <==> a.RunOutside? || a.Run?
    ensures a.Run? ==> s.threads[a.t].phase.Tail? && s.threads[a.t].phase.r !in Living(s)
  {
    CountIsExact(s);
    assert Living(s) == {};
    if Counts(a) {
      if !a.RunOutside? { RestCannot(s, a); }
      StartCounts(s, a);
    } else if OfBody(a) {
      BodyKeepsCount(s, a);
    } else {
      ExitKeepsCount(s, a);
    }
  }

  // ----- RunAsyncWait

  /** Everybody the owner of a group waits for: the thread that still spawns, or a `proceed` still to come. */
  ghost predicate OwnerWaits(s: State, g: GroupId)
    requires g < |s.groups|
  {
    var grp := s.groups[g];
    && grp.owner in s.runners && Suspended(s.runners[grp.owner])
    && (if grp.hold == Local
        then grp.maker < |s.threads| && s.threads[grp.maker].phase == Looping(grp.owner, g)
        else At(s, AtGroup(g)) == Some(grp.owner))
  }

  /**
   * RunAsyncWait calls `proceed` at most once, and exactly when all its handlers were started and the
   * runners of all of them are gone; until then the caller is suspended.
   */
  lemma WaitForAll(s: State, g: GroupId)
    requires Reachable(s) && g < |s.groups| && s.groups[g].kind == All
    ensures s.groups[g].proceeds <= 1
    ensures s.groups[g].proceeds == 1 <==>
            s.groups[g].hold == Released && s.groups[g].spawned == s.groups[g].size && Holders(s, g) == {}
    ensures s.groups[g].proceeds == 0 ==> OwnerWaits(s, g)
  {
    ReachableInv(s);
    assert GroupOk(s, g) && Law(s, g);
    if s.groups[g].proceeds == 0 && s.groups[g].hold == Local {
      assert ThreadOk(s, s.groups[g].maker);
    }
  }

  // ----- Waiter

  /**
   * A Waiter that was waited for has `proceed` called at most once, and exactly when every task started
   * through it is gone; until then the caller is parked there, so no Wait returns early.
   */
  lemma WaiterWaits(s: State, g: GroupId)
    requires Reachable(s) && g < |s.groups| && s.groups[g].kind == Waiting
    ensures s.groups[g].proceeds <= 1
    ensures s.groups[g].proceeds == 1 <==> s.groups[g].hold == Released && Holders(s, g) == {}
    ensures s.groups[g].hold == Released && Holders(s, g) != {} ==>
              && At(s, AtGroup(g)) == Some(s.groups[g].owner)
              && s.groups[g].owner in s.runners && Suspended(s.runners[s.groups[g].owner])
  {
    ReachableInv(s);
    assert GroupOk(s, g) && Law(s, g);
  }

  /**
   * Over all rounds: a Waiter makes another pointer after each Wait, and whenever its owner runs again, no task is left
   * that was started through any pointer it has waited for.
   */
  lemma WaiterRounds(s: State, t: nat, g: GroupId)
    requires Reachable(s) && t < |s.threads| && s.threads[t].phase.Body?
    requires g < |s.groups| && s.groups[g].kind == Waiting && s.groups[g].hold == Released
    requires s.groups[g].owner == s.threads[t].phase.r
    ensures Holders(s, g) == {} && s.groups[g].proceeds == 1
  {
    ReachableInv(s);
    assert GroupOk(s, g) && Law(s, g);
    assert At(s, OnThread(t)) == Some(s.groups[g].owner);
    assert At(s, AtGroup(g)) != Some(s.groups[g].owner);
  }

  /** Wait returns at once, without suspending, exactly when no task of the Waiter is left. */
  lemma WaitReturnsAtOnce(s: State, t: nat, g: GroupId)
    requires Reachable(s) && Enabled(s, Wait(t, g))
    ensures Defined(s, Wait(t, g))
    ensures Holders(s, g) == {} <==> Do(s, Wait(t, g)) == s
    ensures Holders(s, g) != {} ==> Do(s, Wait(t, g)).threads[t].phase.Yielded?
  {
    ReachableInv(s);
    StepKeeps(s, Wait(t, g));
    assert GroupOk(s, g);
    var s' := Do(s, Wait(t, g));
    if s.groups[g].refs != 1 {
      assert s'.threads[t].phase.Yielded? && s.threads[t].phase.Body?;
    }
  }

  // ----- RunAsyncAnyWait and RunAsyncAnyResult

  /** What an action contributes to an Any-group: the index of a handler that returned, or its non-empty result. */
  function Yield(s: State, a: Action, g: GroupId): Option<int> {
    if && a.Finish? && a.t < |s.threads| && s.threads[a.t].phase.Body?
       && s.threads[a.t].phase.r in s.runners && s.runners[s.threads[a.t].phase.r].holds == Some(g) && g < |s.groups|
    then
      if s.groups[g].kind == AnyIndex then Some(s.runners[s.threads[a.t].phase.r].index as int) else a.result
    else None
  }

  /** The first contribution to the group among the first n actions. */
  function FirstYield(states: seq<State>, actions: seq<Action>, g: GroupId, n: nat): Option<int>
    requires |states| == |actions| + 1 && n <= |actions|
  {
    if n == 0 then None
    else
      var before := FirstYield(states, actions, g, n - 1);
      if before.Some? then before else Yield(states[n - 1], actions[n - 1], g)
  }

  predicate Abandoned(grp: Group) { grp.kind == AnyValue && grp.hold == Released && grp.refs == 0 }

  /** What the claim must be, given the first contribution. */
  function Claim(grp: Group, first: Option<int>): Option<Option<int>> {
    if first.Some? then Some(first) else if Abandoned(grp) then Some(None) else None
  }

  /** A group keeps its identity, and only its owner's thread can let go of it. */
  predicate SameGroup(grp: Group, grp': Group) {
    && grp'.kind == grp.kind && grp'.owner == grp.owner && grp'.maker == grp.maker && grp'.size == grp.size
    && (grp.hold == Released ==> grp'.hold == Released)
  }

  /** The claim of `grp'` is right once `first` has become `first'`. */
  predicate ClaimFits(grp: Group, grp': Group, first: Option<int>) {
    SameGroup(grp, grp') && grp'.claim == Claim(grp', first)
  }

  predicate Quiet(a: Action) {
    !(a.Finish? || a.Deliver? || a.RunWaited? || a.SpawnNext? || a.LoopEnd? || a.HandOver? || a.Drop?
      || a.Destroy? || a.Completion?)
  }

  /** The actions that give back references or deliver a `proceed`. */
  predicate Releases(a: Action) { a.LoopEnd? || a.Drop? || a.Destroy? || a.Completion? }

  lemma QuietGroups(s: State, a: Action, g: GroupId)
    requires Enabled(s, a) && Defined(s, a) && Quiet(a) && g < |s.groups|
    ensures g < |Do(s, a).groups| && Do(s, a).groups[g] == s.groups[g]
  {
  }

  /** A contribution to group h, seen from group g. */
  lemma ClaimingClaims(s: State, r: RunnerId, h: GroupId, value: Option<int>, g: GroupId, first: Option<int>)
    requires r in s.runners && h < |s.groups| && g < |s.groups| && value.Some?
    requires IsAny(s.groups[g].kind) && s.groups[g].claim == Claim(s.groups[g], first) && Law(s, g)
    requires g == h ==> s.groups[g].refs > 0
    ensures |Claiming(s, r, h, value).groups| == |s.groups|
    ensures ClaimFits(s.groups[g], Claiming(s, r, h, value).groups[g], if first.Some? || g != h then first else value)
  {
  }

  lemma FinishClaims(s: State, t: nat, result: Option<int>, g: GroupId, first: Option<int>)
    requires Inv(s) && Enabled(s, Finish(t, result)) && Defined(s, Finish(t, result))
    requires g < |s.groups| && IsAny(s.groups[g].kind) && s.groups[g].claim == Claim(s.groups[g], first)
    ensures var s' := Finishing(s, t, result);
            && |s'.groups| == |s.groups|
            && ClaimFits(s.groups[g], s'.groups[g], if first.Some? then first else Yield(s, Finish(t, result), g))
  {
    var r := s.threads[t].phase.r;
    var h := s.runners[r].holds.value;
    HeldHasRefs(s, r, h);
    assert Law(s, g);
    if s.groups[h].kind == AnyIndex {
      ClaimingClaims(s, r, h, Some(s.runners[r].index as int), g, first);
    } else if result.Some? {
      ClaimingClaims(s, r, h, result, g, first);
    }
  }

  lemma ReleaseClaims(s: State, s1: State, g: GroupId, h: GroupId, first: Option<int>)
    requires g < |s.groups| == |s1.groups| && h < |s.groups|
    requires IsAny(s.groups[g].kind) && s.groups[g].claim == Claim(s.groups[g], first)
    requires Law(s, g) && s.groups[h].refs > 0
    requires s1.groups == s.groups[h := s.groups[h].(refs := s.groups[h].refs - 1, hold := s1.groups[h].hold)]
    requires s1.groups[h].hold == Local ==> s.groups[h].hold == Local
    requires s1.groups[h].hold == Local ==> s1.groups[h].refs > 0
    requires DeleterProceeds(s1.groups[h]) ==> s1.groups[h].owner in s1.runners
    ensures |AfterRelease(s1, h).groups| == |s.groups|
    ensures ClaimFits(s.groups[g], AfterRelease(s1, h).groups[g], first)
  {
  }

  lemma LetGoClaims(s: State, s0: State, t: nat, g: GroupId, first: Option<int>)
    requires Inv(s) && t < |s.threads| && s0 == s.(exclusive := s0.exclusive)
    requires s.threads[t].phase.Looping? || s.threads[t].phase.Dropping?
    requires ReleaseDefined(s, s.threads[t].phase.g)
    requires g < |s.groups| && IsAny(s.groups[g].kind) && s.groups[g].claim == Claim(s.groups[g], first)
    ensures var s' := Dropped(s0, t, s.threads[t].phase.r, s.threads[t].phase.g);
            |s'.groups| == |s.groups| && ClaimFits(s.groups[g], s'.groups[g], first)
  {
    assert Law(s, g);
    var h := s.threads[t].phase.g;
    ReleaseClaims(s, LettingGo(s0, t, s.threads[t].phase.r, h), g, h, first);
  }

  lemma HandOverClaims(s: State, t: nat, g: GroupId, first: Option<int>)
    requires Inv(s) && Enabled(s, HandOver(t)) && Defined(s, HandOver(t))
    requires g < |s.groups| && IsAny(s.groups[g].kind) && s.groups[g].claim == Claim(s.groups[g], first)
    ensures |Do(s, HandOver(t)).groups| == |s.groups| && ClaimFits(s.groups[g], Do(s, HandOver(t)).groups[g], first)
  {
    assert ThreadOk(s, t);
  }

  lemma DestroyClaims(s: State, t: nat, g: GroupId, first: Option<int>)
    requires Core(s) && t < |s.threads| && s.threads[t].phase.Destroying? && s.threads[t].phase.r in s.runners
    requires var r := s.threads[t].phase.r;
             s.runners[r].holds.Some? ==> ReleaseDefined(s.(runners := s.runners - {r}), s.runners[r].holds.value)
    requires g < |s.groups| && IsAny(s.groups[g].kind) && s.groups[g].claim == Claim(s.groups[g], first) && Law(s, g)
    ensures var s' := DestroyingMembers(s, t); |s'.groups| == |s.groups| && ClaimFits(s.groups[g], s'.groups[g], first)
  {
    var r := s.threads[t].phase.r;
    if s.runners[r].holds.Some? {
      var h := s.runners[r].holds.value;
      if s.groups[h].hold == Local { LocalRefs(s, r, h); }
      ReleaseClaims(s, Destroyed(s, t), g, h, first);
    }
  }

  lemma SpawnClaims(s: State, sched: SchedId, home: SchedId, h: GroupId, g: GroupId, first: Option<int>)
    requires g < |s.groups| && h < |s.groups| && GroupOk(s, h) && s.groups[h].hold == Local
    requires s.groups[g].claim == Claim(s.groups[g], first)
    ensures |SpawningInto(s, sched, h, home).groups| == |s.groups|
    ensures ClaimFits(s.groups[g], SpawningInto(s, sched, h, home).groups[g], first)
  {
  }

  lemma ProceedClaims(s: State, h: GroupId, g: GroupId, first: Option<int>)
    requires g < |s.groups| && h < |s.groups| && s.groups[h].owner in s.runners
    requires s.groups[g].claim == Claim(s.groups[g], first)
    ensures |Proceed(s, h).groups| == |s.groups|
    ensures ClaimFits(s.groups[g], Proceed(s, h).groups[g], first)
  {
  }

  lemma SpawningClaims(s: State, a: Action, g: GroupId, first: Option<int>)
    requires Inv(s) && Enabled(s, a) && Defined(s, a) && (a.RunWaited? || a.SpawnNext?)
    requires g < |s.groups| && s.groups[g].claim == Claim(s.groups[g], first)
    ensures |Do(s, a).groups| == |s.groups| && ClaimFits(s.groups[g], Do(s, a).groups[g], first)
  {
    assert ThreadOk(s, a.t);
    var h := if a.RunWaited? then a.g else s.threads[a.t].phase.g;
    var ru := s.runners[s.threads[a.t].tlsRunner.value];
    assert GroupOk(s, h);
    SpawnClaims(s, ru.sched, ru.home, h, g, first);
  }

  lemma DeliverClaims(s: State, t: nat, g: GroupId, first: Option<int>)
    requires Enabled(s, Deliver(t)) && Defined(s, Deliver(t))
    requires g < |s.groups| && s.groups[g].claim == Claim(s.groups[g], first)
    ensures |Delivering(s, t).groups| == |s.groups| && ClaimFits(s.groups[g], Delivering(s, t).groups[g], first)
  {
  }

  lemma ClaimBodyStep(s: State, a: Action, g: GroupId, first: Option<int>)
    requires Inv(s) && Enabled(s, a) && Defined(s, a) && !Quiet(a) && (OfBody(a) || a.SpawnNext?)
    requires g < |s.groups| && IsAny(s.groups[g].kind) && s.groups[g].claim == Claim(s.groups[g], first)
    ensures g < |Do(s, a).groups|
    ensures ClaimFits(s.groups[g], Do(s, a).groups[g], if first.Some? then first else Yield(s, a, g))
  {
    if a.Finish? {
      FinishClaims(s, a.t, a.result, g, first);
    } else if a.Deliver? {
      DeliverClaims(s, a.t, g, first);
    } else {
      SpawningClaims(s, a, g, first);
    }
  }

  lemma ClaimExitStep(s: State, a: Action, g: GroupId, first: Option<int>)
    requires Inv(s) && Enabled(s, a) && Defined(s, a) && (Releases(a) || a.HandOver?)
    requires g < |s.groups| && IsAny(s.groups[g].kind) && s.groups[g].claim == Claim(s.groups[g], first)
    ensures g < |Do(s, a).groups|
    ensures ClaimFits(s.groups[g], Do(s, a).groups[g], first)
  {
    if a.Destroy? {
      assert Law(s, g);
      DestroyClaims(s, a.t, g, first);
    } else if a.LoopEnd? {
      LetGoClaims(s, s.(exclusive := None), a.t, g, first);
    } else if a.Drop? {
      LetGoClaims(s, s, a.t, g, first);
    } else if a.HandOver? {
      HandOverClaims(s, a.t, g, first);
    } else {
      ProceedClaims(s, a.g, g, first);
    }
  }

  lemma ClaimStep(s: State, a: Action, g: GroupId, first: Option<int>)
    requires Inv(s) && Enabled(s, a) && Defined(s, a)
    requires g < |s.groups| && IsAny(s.groups[g].kind) && s.groups[g].claim == Claim(s.groups[g], first)
    ensures g < |Do(s, a).groups|
    ensures ClaimFits(s.groups[g], Do(s, a).groups[g], if first.Some? then first else Yield(s, a, g))
  {
    if Quiet(a) {
      QuietGroups(s, a, g);
    } else if OfBody(a) || a.SpawnNext? {
      ClaimBodyStep(s, a, g, first);
    } else {
      ClaimExitStep(s, a, g, first);
    }
  }

  lemma BodyKeepsKinds(s: State, a: Action, g: GroupId)
    requires Enabled(s, a) && Defined(s, a) && OfBody(a)
    ensures |s.groups| <= |Do(s, a).groups|
    ensures g < |s.groups| ==> Do(s, a).groups[g].kind == s.groups[g].kind
    ensures |s.groups| <= g < |Do(s, a).groups| ==> Do(s, a).groups[g].claim == None && Do(s, a).groups[g].hold == Local
  {
  }

  lemma ExitKeepsKinds(s: State, a: Action, g: GroupId)
    requires Enabled(s, a) && Defined(s, a) && !OfBody(a) && !Releases(a)
    ensures |s.groups| <= |Do(s, a).groups|
    ensures g < |s.groups| ==> Do(s, a).groups[g].kind == s.groups[g].kind
    ensures |s.groups| <= g < |Do(s, a).groups| ==> Do(s, a).groups[g].claim == None && Do(s, a).groups[g].hold == Local
  {
  }

  lemma AfterReleaseKeepsKinds(s: State, h: GroupId, g: GroupId)
    requires h < |s.groups| && (DeleterProceeds(s.groups[h]) ==> s.groups[h].owner in s.runners)
    ensures |AfterRelease(s, h).groups| == |s.groups|
    ensures g < |s.groups| ==> AfterRelease(s, h).groups[g].kind == s.groups[g].kind
  {
  }

  lemma ReleaseKeepsKinds(s: State, a: Action, g: GroupId)
    requires Enabled(s, a) && Defined(s, a) && Releases(a)
    ensures |s.groups| == |Do(s, a).groups|
    ensures g < |s.groups| ==> Do(s, a).groups[g].kind == s.groups[g].kind
  {
    if a.LoopEnd? || a.Drop? {
      var s0 := if a.LoopEnd? then s.(exclusive := None) else s;
      var Looping(r, h) := if a.LoopEnd? then s.threads[a.t].phase
                           else Looping(s.threads[a.t].phase.r, s.threads[a.t].phase.g);
      AfterReleaseKeepsKinds(LettingGo(s0, a.t, r, h), h, g);
    } else if a.Destroy? && s.runners[s.threads[a.t].phase.r].holds.Some? {
      AfterReleaseKeepsKinds(Destroyed(s, a.t), s.runners[s.threads[a.t].phase.r].holds.value, g);
    }
  }

  lemma KindsKept(s: State, a: Action, g: GroupId)
    requires Enabled(s, a) && Defined(s, a)
    ensures |s.groups| <= |Do(s, a).groups|
    ensures g < |s.groups| ==> Do(s, a).groups[g].kind == s.groups[g].kind
    ensures |s.groups| <= g < |Do(s, a).groups| ==> Do(s, a).groups[g].claim == None && Do(s, a).groups[g].hold == Local
  {
    if OfBody(a) {
      BodyKeepsKinds(s, a, g);
    } else if Releases(a) {
      ReleaseKeepsKinds(s, a, g);
    } else {
      ExitKeepsKinds(s, a, g);
    }
  }

  /** Nobody contributes to a group before it is made. */
  lemma {:induction false} NoYieldBefore(states: seq<State>, actions: seq<Action>, g: GroupId, n: nat)
    requires IsCarefulRun(states, actions) && n <= |actions| && g >= |states[n].groups|
    ensures FirstYield(states, actions, g, n) == None
  {
    if n > 0 {
      RunsAreSafe(states, actions, n - 1);
      KindsKept(states[n - 1], actions[n - 1], g);
      NoYieldBefore(states, actions, g, n - 1);
    }
  }

  /** In every run, the value claimed at an Any-group is its first contribution, or none once all children are gone. */
  lemma {:induction false} FirstYieldIsClaimed(states: seq<State>, actions: seq<Action>, g: GroupId, n: nat)
    requires IsCarefulRun(states, actions) && n <= |actions| && g < |states[n].groups|
             && IsAny(states[n].groups[g].kind)
    ensures states[n].groups[g].claim == Claim(states[n].groups[g], FirstYield(states, actions, g, n))
  {
    if n > 0 {
      RunsAreSafe(states, actions, n - 1);
      var s, a := states[n - 1], actions[n - 1];
      KindsKept(s, a, g);
      if g < |s.groups| {
        FirstYieldIsClaimed(states, actions, g, n - 1);
        ClaimStep(s, a, g, FirstYield(states, actions, g, n - 1));
      } else {
        NoYieldBefore(states, actions, g, n - 1);
      }
    }
  }

  /**
   * RunAsyncAnyResult: `proceed` is called at most once.  When it is, the caller's result is the first non-empty
   * result of a handler, or empty if there was none, and then no handler is left.  Once no child is left, it has been.
   */
  lemma AnyResultDeliversFirst(states: seq<State>, actions: seq<Action>, g: GroupId, n: nat)
    requires IsCarefulRun(states, actions) && n <= |actions| && g < |states[n].groups|
             && states[n].groups[g].kind == AnyValue
    ensures states[n].groups[g].proceeds <= 1
    ensures states[n].groups[g].proceeds == 1 ==>
              states[n].groups[g].slot == Some(FirstYield(states, actions, g, n))
    ensures states[n].groups[g].proceeds == 1 && FirstYield(states, actions, g, n) == None ==>
              states[n].groups[g].spawned == states[n].groups[g].size && Holders(states[n], g) == {}
    ensures states[n].groups[g].hold == Released && Holders(states[n], g) == {} ==>
              states[n].groups[g].proceeds == 1
    ensures states[n].groups[g].proceeds == 0 ==> states[n].groups[g].slot == None && OwnerWaits(states[n], g)
  {
    RunsAreSafe(states, actions, n);
    FirstYieldIsClaimed(states, actions, g, n);
    AnyFacts(states[n], g);
  }

  /**
   * RunAsyncAnyWait: `proceed` is called at most once, with the index of the handler that returned first, which is
   * in range.  Once no child is left it has been called, unless every handler has thrown.
   */
  lemma AnyWaitDeliversFirst(states: seq<State>, actions: seq<Action>, g: GroupId, n: nat)
    requires IsCarefulRun(states, actions) && n <= |actions| && g < |states[n].groups|
             && states[n].groups[g].kind == AnyIndex
    ensures states[n].groups[g].proceeds <= 1
    ensures states[n].groups[g].proceeds == 1 ==>
              && FirstYield(states, actions, g, n).Some?
              && states[n].groups[g].slot == Some(FirstYield(states, actions, g, n))
              && 0 <= FirstYield(states, actions, g, n).value < states[n].groups[g].size
    ensures states[n].groups[g].hold == Released && Holders(states[n], g) == {} ==>
              (states[n].groups[g].proceeds == 1 <==> FirstYield(states, actions, g, n).Some?)
    ensures states[n].groups[g].proceeds == 0 ==> states[n].groups[g].slot == None && OwnerWaits(states[n], g)
  {
    RunsAreSafe(states, actions, n);
    FirstYieldIsClaimed(states, actions, g, n);
    AnyFacts(states[n], g);
  }

  lemma AnyFacts(s: State, g: GroupId)
    requires Inv(s) && g < |s.groups| && IsAny(s.groups[g].kind)
    ensures Law(s, g) && GroupOk(s, g)
    ensures s.groups[g].hold == Released && Holders(s, g) == {} ==> s.groups[g].refs == 0
    ensures s.groups[g].refs == 0 ==> Holders(s, g) == {} && s.groups[g].hold == Released
    ensures s.groups[g].refs == 0 && s.groups[g].counter > 0 ==> s.groups[g].proceeds == 1
    ensures s.groups[g].proceeds == 0 ==> OwnerWaits(s, g)
  {
    assert Law(s, g) && GroupOk(s, g);
    if s.groups[g].refs == 0 { NobodyHolds(s, g); }
    if s.groups[g].proceeds == 0 && s.groups[g].hold == Local {
      assert ThreadOk(s, s.groups[g].maker);
    }
  }

  // ----- Schedulers

  /** A child is started on the scheduler of the runner whose body, callback or deferred loop starts it. */
  lemma ChildInheritsScheduler(s: State, a: Action)
    requires Reachable(s) && Enabled(s, a) && Defined(s, a)
    requires (a.Run? && a.target == None) || a.RunWaited? || a.SpawnNext?
    ensures var r := s.threads[a.t].phase.r;
            && r in s.runners && s.nextRunner in Do(s, a).runners
            && Do(s, a).runners[s.nextRunner].sched == s.runners[r].sched
            && Do(s, a).runners[s.nextRunner].home == s.runners[r].home
  {
    ReachableInv(s);
    assert ThreadOk(s, a.t);
  }

  /** Every runner is where its family was started, and so is the thread that runs it. */
  ghost predicate AtHome(s: State) {
    && (forall r | r in s.runners :: s.runners[r].sched == s.runners[r].home)
    && (forall t | 0 <= t < |s.threads| :: HomeThread(s, t))
  }

  predicate HomeThread(s: State, t: nat)
    requires t < |s.threads|
  {
    var o := Occupant(s.threads[t].phase);
    o.Some? && o.value in s.runners ==> s.threads[t].on == s.runners[o.value].sched
  }

  /** Old runners keep their schedulers, new ones are at home, and no thread takes up another runner. */
  ghost predicate HomesKept(s: State, s': State) {
    && (forall r | r in s'.runners ::
          if r in s.runners then s'.runners[r].sched == s.runners[r].sched && s'.runners[r].home == s.runners[r].home
          else s'.runners[r].sched == s'.runners[r].home)
    && |s'.threads| == |s.threads|
    && (forall t | 0 <= t < |s.threads| :: SameOccupant(s.threads[t], s'.threads[t]))
  }

  lemma HomesKeptStay(s: State, s': State)
    requires AtHome(s) && HomesKept(s, s') && ThreadsOk(s)
    ensures AtHome(s')
  {
    forall t | 0 <= t < |s'.threads|
      ensures HomeThread(s', t)
    {
      assert HomeThread(s, t) && SameOccupant(s.threads[t], s'.threads[t]) && ThreadOk(s, t);
    }
  }

  lemma BeginStaysHome(s: State, t: nat, k: nat)
    requires Inv(s) && AtHome(s) && Enabled(s, Begin(t, k))
    ensures AtHome(EnterCoroutine(s, t, k))
  {
    assert TaskOk(s, k);
    var s' := EnterCoroutine(s, t, k);
    forall u | 0 <= u < |s'.threads|
      ensures HomeThread(s', u)
    {
      if u != t { assert HomeThread(s, u); }
    }
  }

  lemma SpawningStaysHome(s: State, sched: SchedId, holds: Option<GroupId>, index: nat, home: SchedId)
    requires s.nextRunner !in s.runners && sched == home
    ensures HomesKept(s, Spawning(s, sched, holds, index, home))
  {
  }

  lemma SpawningIntoStaysHome(s: State, sched: SchedId, g: GroupId, home: SchedId)
    requires s.nextRunner !in s.runners && sched == home && g < |s.groups|
    ensures HomesKept(s, SpawningInto(s, sched, g, home))
  {
  }

  lemma ProceedStaysHome(s: State, g: GroupId)
    requires g < |s.groups| && s.groups[g].owner in s.runners
    ensures HomesKept(s, Proceed(s, g))
  {
  }

  lemma HandingOverStaysHome(s: State, t: nat)
    requires Enabled(s, HandOver(t)) && Defined(s, HandOver(t))
    ensures HomesKept(s, HandingOver(s, t))
  {
  }

  lemma DroppedStaysHome(s: State, t: nat, r: RunnerId, g: GroupId)
    requires t < |s.threads| && ReleaseDefined(s, g)
    ensures HomesKept(s, Dropped(s, t, r, g))
  {
  }

  lemma DestroyedStaysHome(s: State, t: nat)
    requires t < |s.threads| && s.threads[t].phase.Destroying? && s.threads[t].phase.r in s.runners
    requires var r := s.threads[t].phase.r;
             s.runners[r].holds.Some? ==> ReleaseDefined(s.(runners := s.runners - {r}), s.runners[r].holds.value)
    ensures HomesKept(s, DestroyingMembers(s, t))
  {
  }

  lemma LeavingStaysHome(s: State, t: nat)
    requires t < |s.threads| && s.threads[t].phase.Exiting? && s.threads[t].phase.r in s.runners
    ensures HomesKept(s, Leaving(s, t))
  {
  }

  lemma FinishingStaysHome(s: State, t: nat, result: Option<int>)
    requires t < |s.threads| && s.threads[t].phase.Body? && s.threads[t].phase.r in s.runners
    requires var ru := s.runners[s.threads[t].phase.r]; ru.holds.Some? && ru.holds.value < |s.groups|
    ensures HomesKept(s, Finishing(s, t, result))
  {
  }

  lemma DeliveringStaysHome(s: State, t: nat)
    requires t < |s.threads| && s.threads[t].phase.Body? && s.threads[t].phase.r in s.runners
    requires var ru := s.runners[s.threads[t].phase.r];
             ru.progress.Won? && ru.holds.Some? && ru.holds.value < |s.groups| &&
             s.groups[ru.holds.value].owner in s.runners
    ensures HomesKept(s, Delivering(s, t))
  {
  }

  lemma StartStaysHome(s: State, a: Action)
    requires AtHome(s) && s.nextRunner !in s.runners && Enabled(s, a) && Defined(s, a)
    requires a.RunOutside? || a.Run? || a.RunWaited? || a.SpawnNext?
    ensures HomesKept(s, Do(s, a))
  {
    if a.RunOutside? {
      SpawningStaysHome(s, a.sched, None, 0, a.sched);
    } else if a.Run? && a.target.Some? {
      SpawningStaysHome(s, a.target.value, None, 0, a.target.value);
    } else if a.Run? {
      var ru := s.runners[s.threads[a.t].tlsRunner.value];
      SpawningStaysHome(s, ru.sched, None, 0, ru.home);
    } else {
      var ru := s.runners[s.threads[a.t].tlsRunner.value];
      SpawningIntoStaysHome(s, ru.sched, if a.RunWaited? then a.g else s.threads[a.t].phase.g, ru.home);
    }
  }

  lemma BodyStaysHome(s: State, a: Action)
    requires Enabled(s, a) && Defined(s, a) && OfBody(a)
    requires !a.SwitchTo? && !a.Begin? && !a.RunOutside? && !a.Run? && !a.RunWaited?
    ensures HomesKept(s, Do(s, a))
  {
    if a.Finish? {
      FinishingStaysHome(s, a.t, a.result);
    } else if a.Deliver? {
      DeliveringStaysHome(s, a.t);
    }
  }

  lemma ExitStaysHome(s: State, a: Action)
    requires Enabled(s, a) && Defined(s, a) && !OfBody(a) && !Releases(a) && !a.SpawnNext?
    ensures HomesKept(s, Do(s, a))
  {
    if a.Exit? {
      LeavingStaysHome(s, a.t);
    } else if a.HandOver? {
      HandingOverStaysHome(s, a.t);
    }
  }

  lemma ReleaseStaysHome(s: State, a: Action)
    requires Enabled(s, a) && Defined(s, a) && Releases(a)
    ensures HomesKept(s, Do(s, a))
  {
    if a.LoopEnd? {
      DroppedStaysHome(s.(exclusive := None), a.t, s.threads[a.t].phase.r, s.threads[a.t].phase.g);
    } else if a.Drop? {
      DroppedStaysHome(s, a.t, s.threads[a.t].phase.r, s.threads[a.t].phase.g);
    } else if a.Destroy? {
      DestroyedStaysHome(s, a.t);
    } else {
      ProceedStaysHome(s, a.g);
    }
  }

  lemma StepStaysHome(s: State, a: Action)
    requires Inv(s) && AtHome(s) && Enabled(s, a) && Defined(s, a) && !a.SwitchTo?
    ensures AtHome(Do(s, a))
  {
    if a.Begin? {
      BeginStaysHome(s, a.t, a.ticket);
    } else {
      if a.RunOutside? || a.Run? || a.RunWaited? || a.SpawnNext? {
        NumbersAreNew(s);
        StartStaysHome(s, a);
      } else if OfBody(a) {
        BodyStaysHome(s, a);
      } else if Releases(a) {
        ReleaseStaysHome(s, a);
      } else {
        ExitStaysHome(s, a);
      }
      HomesKeptStay(s, Do(s, a));
    }
  }

  /** If no body switches scheduler, every family of operations stays on the scheduler it was started on. */
  lemma {:induction false} FamiliesStayHome(states: seq<State>, actions: seq<Action>, n: nat)
    requires IsCarefulRun(states, actions) && n <= |actions|
    requires forall i | 0 <= i < |actions| :: !actions[i].SwitchTo?
    ensures AtHome(states[n])
  {
    if n > 0 {
      FamiliesStayHome(states, actions, n - 1);
      RunsAreSafe(states, actions, n - 1);
      StepStaysHome(states[n - 1], actions[n - 1]);
    }
  }

  predicate SameFamilyOnStrand(s: State, r: RunnerId, c: RunnerId)
    requires r in s.runners && c in s.runners
  {
    s.runners[r].home == s.runners[c].home && s.runners[r].home in s.strands
  }

  /** On a strand, at most one body of such a family runs at any moment. */
  lemma OneBodyPerStrand(states: seq<State>, actions: seq<Action>, n: nat, t: nat, u: nat)
    requires IsCarefulRun(states, actions) && n <= |actions|
    requires forall i | 0 <= i < |actions| :: !actions[i].SwitchTo?
    requires t < |states[n].threads| && u < |states[n].threads|
    requires states[n].threads[t].phase.Body? && states[n].threads[u].phase.Body?
    ensures var s := states[n];
            && s.threads[t].phase.r in s.runners && s.threads[u].phase.r in s.runners
            && (SameFamilyOnStrand(s, s.threads[t].phase.r, s.threads[u].phase.r) ==> t == u)
  {
    RunsAreSafe(states, actions, n);
    FamiliesStayHome(states, actions, n);
    var s := states[n];
    assert ThreadOk(s, t) && ThreadOk(s, u) && HomeThread(s, t) && HomeThread(s, u);
  }

  // ----- Progress

  /** Something other than a new operation from outside can happen. */
  ghost predicate CanGoOn(s: State) { exists a :: Enabled(s, a) && !a.RunOutside? }

  /** A RunAsyncAnyWait whose handlers have all thrown: nobody is left to call `proceed`. */
  predicate AllThrew(grp: Group) {
    grp.kind == AnyIndex && Parked(grp) && grp.refs == 0 && grp.counter == 0
  }

  /** The step that a thread which is not idle can take. */
  function NextStep(s: State, t: nat): Action
    requires t < |s.threads| && s.threads[t].phase != Idle
    requires s.threads[t].phase.Body? ==> s.threads[t].phase.r in s.runners
    requires s.threads[t].phase.Looping? ==> s.threads[t].phase.g < |s.groups|
  {
    match s.threads[t].phase
    case Body(r, _) => if s.runners[r].progress.Won? then Deliver(t) else End(t)
    case Yielded(_, _, _) => Return(t)
    case Exiting(_) => Exit(t)
    case Calling(_, _) => HandOver(t)
    case Looping(_, g) => if s.groups[g].spawned < s.groups[g].size then SpawnNext(t) else LoopEnd(t)
    case Tail(_, _) => CallbackEnd(t)
    case Dropping(_, _) => Drop(t)
    case Proceeding(_) => ProceedNow(t)
    case Destroying(_) => Destroy(t)
    case Clearing(_) => Clear(t)
  }

  lemma BusyThreadGoesOn(s: State, t: nat)
    requires ThreadsOk(s) && t < |s.threads| && s.threads[t].phase != Idle
    requires s.exclusive == None || s.exclusive == Some(t)
    ensures CanGoOn(s)
  {
    assert ThreadOk(s, t);
    assert Enabled(s, NextStep(s, t));
  }

  lemma IdleThreadPops(s: State)
    requires |s.threads| > 0 && s.exclusive == None && s.posted.Keys != {}
    requires forall t | 0 <= t < |s.threads| :: s.threads[t].phase == Idle
    ensures CanGoOn(s)
  {
    var k :| k in s.posted;
    assert Enabled(s, Begin(0, k));
  }

  /** The runner waits, down a chain of children, for a RunAsyncAnyWait whose handlers have all thrown. */
  ghost predicate WaitsForLost(s: State, r: RunnerId)
    decreases s.nextRunner - r
  {
    exists g: GroupId :: At(s, AtGroup(g)) == Some(r) && (AllThrew(s.groups[g]) || HasLostChild(s, r, g))
  }

  ghost predicate HasLostChild(s: State, r: RunnerId, g: GroupId)
    decreases s.nextRunner - r, 0
  {
    exists c | r < c < s.nextRunner :: c in s.runners && s.runners[c].holds == Some(g) && WaitsForLost(s, c)
  }

  /** Nothing moves: all threads are idle, all queues are empty, and the world holds no `proceed`. */
  ghost predicate Still(s: State) {
    && s.posted.Keys == {}
    && (forall t | 0 <= t < |s.threads| :: s.threads[t].phase == Idle)
    && (forall g | 0 <= g < |s.groups| && Parked(s.groups[g]) :: s.groups[g].kind != External)
  }

  /**
   * The runtime does not deadlock: if no step can be taken and the world holds no `proceed`, every runner in memory
   * waits for a RunAsyncAnyWait that was left without a handler that returned, itself or down a chain of its children.
   */
  lemma NoDeadlock(s: State)
    requires Reachable(s) && |s.threads| > 0
    ensures CanGoOn(s) || forall r | r in s.runners :: WaitsForLost(s, r)
  {
    ReachableInv(s);
    if !CanGoOn(s) {
      NothingMoves(s);
      forall r | r in s.runners
        ensures WaitsForLost(s, r)
      {
        LeadsDown(s, r);
      }
    }
  }

  lemma NothingMoves(s: State)
    requires Inv(s) && |s.threads| > 0 && !CanGoOn(s)
    ensures Still(s)
  {
    if s.exclusive.Some? {
      BusyThreadGoesOn(s, s.exclusive.value);
    } else if t :| 0 <= t < |s.threads| && s.threads[t].phase != Idle {
      BusyThreadGoesOn(s, t);
    } else if s.posted.Keys != {} {
      IdleThreadPops(s);
    } else if g :| 0 <= g < |s.groups| && Parked(s.groups[g]) && s.groups[g].kind == External {
      CompletionGoesOn(s, g);
    }
  }

  lemma ParkedSomewhere(s: State, r: RunnerId) returns (g: GroupId)
    requires Placed(s) && r in s.runners && Still(s)
    ensures At(s, AtGroup(g)) == Some(r)
  {
    var p :| At(s, p) == Some(r);
    assert p.AtGroup?;
    g := p.g;
  }

  /** Who waits at a group is waited for in vain, or waits for a child. */
  lemma AwaitedChild(s: State, g: GroupId) returns (c: RunnerId)
    requires g < |s.groups| && RunnersOk(s) && GroupOk(s, g) && Law(s, g) && Parked(s.groups[g])
    requires s.groups[g].kind != External && !AllThrew(s.groups[g])
    ensures s.groups[g].owner < c < s.nextRunner && c in s.runners && s.runners[c].holds == Some(g)
  {
    if IsAny(s.groups[g].kind) && s.groups[g].counter > 0 {
      c := s.groups[g].winner.value;
    } else {
      assert Holders(s, g) != {};
      c :| c in Holders(s, g);
    }
    assert RunnerOk(s, c);
  }

  lemma {:induction false} LeadsDown(s: State, r: RunnerId)
    requires Inv(s) && Still(s) && r in s.runners
    ensures WaitsForLost(s, r)
    decreases s.nextRunner - r
  {
    assert RunnerOk(s, r);
    var g := ParkedSomewhere(s, r);
    assert GroupOk(s, g) && Law(s, g);
    if !AllThrew(s.groups[g]) {
      var c := AwaitedChild(s, g);
      LeadsDown(s, c);
      assert HasLostChild(s, r, g);
    }
  }

  lemma CompletionGoesOn(s: State, g: GroupId)
    requires s.exclusive == None && g < |s.groups| && Parked(s.groups[g]) && s.groups[g].kind == External
    ensures CanGoOn(s)
  {
    assert Enabled(s, Completion(g));
  }
}
