/** Every action keeps the invariant and is safe to take; so does every run. */
module RuntimeSafety {
  import opened Options
  import opened Runtime
  import opened RuntimeInvariant
  import opened RuntimeSteps

  ghost predicate StepSafe(s: State, a: Action)
    requires Enabled(s, a)
  {
    Defined(s, a) && Inv(Do(s, a))
  }

  lemma AllLawsKept(s: State, s': State)
    requires Inv(s) && Core(s') && LawsKept(s, s', None) && |s'.groups| == |s.groups|
    ensures Inv(s')
  {
  }

  ghost predicate LawsBut(s: State, g: GroupId) {
    forall h | 0 <= h < |s.groups| && h != g :: Law(s, h)
  }

  lemma FiredKeeps(s: State, s': State, g: GroupId)
    requires Core(s) && LawsBut(s, g) && Fires(s, s', g) && Law(s', g)
    ensures Inv(s')
  {
    FireKeeps(s, s', g);
    LawsButOne(s, s', g);
  }

  lemma LawsButOne(s: State, s': State, g: GroupId)
    requires Core(s') && LawsBut(s, g) && LawsKept(s, s', Some(g)) && |s'.groups| == |s.groups|
    requires g < |s.groups| ==> Law(s', g)
    ensures Inv(s')
  {
  }

  lemma LawsOfOthers(s: State, s': State, g: GroupId)
    requires Inv(s) && LawsKept(s, s', Some(g)) && |s'.groups| == |s.groups|
    ensures LawsBut(s', g)
  {
  }

  /** Outside a loop that starts the children of an Any-combinator, nobody is exclusive. */
  lemma NobodyExclusive(s: State, a: Action)
    requires ExclusiveOk(s) && Enabled(s, a)
    requires Actor(a).Some? ==> !s.threads[Actor(a).value].phase.Looping?
    ensures s.exclusive == None
  {
  }

  // ----- Starting runners and tasks

  lemma RunOutsideSafe(s: State, sched: SchedId)
    requires Inv(s) && Enabled(s, RunOutside(sched))
    ensures StepSafe(s, RunOutside(sched))
  {
    SpawningKeeps(s, sched, sched);
    AllLawsKept(s, Spawning(s, sched, None, 0, sched));
  }

  lemma BeginSafe(s: State, t: nat, k: nat)
    requires Inv(s) && Enabled(s, Begin(t, k))
    ensures StepSafe(s, Begin(t, k))
  {
    assert TaskOk(s, k) && ThreadOk(s, t);
    EnterKeeps(s, t, k);
    AllLawsKept(s, EnterCoroutine(s, t, k));
  }

  lemma RunSafe(s: State, t: nat, target: Option<SchedId>)
    requires Inv(s) && Enabled(s, Run(t, target)) && (StartsBlindly(s, Run(t, target)) ==> Defined(s, Run(t, target)))
    ensures StepSafe(s, Run(t, target))
  {
    assert ThreadOk(s, t);
    match target
    case Some(sched) =>
      SpawningKeeps(s, sched, sched);
      AllLawsKept(s, Spawning(s, sched, None, 0, sched));
    case None =>
      var ru := s.runners[s.threads[t].tlsRunner.value];
      SpawningKeeps(s, ru.sched, ru.home);
      AllLawsKept(s, Spawning(s, ru.sched, None, 0, ru.home));
  }

  lemma MakeWaiterSafe(s: State, t: nat)
    requires Inv(s) && Enabled(s, MakeWaiter(t))
    ensures StepSafe(s, MakeWaiter(t))
  {
    assert ThreadOk(s, t);
    NobodyExclusive(s, MakeWaiter(t));
    OpenedInv(s, Do(s, MakeWaiter(t)), t, Waiting, 0);
  }

  lemma OpenedInv(s: State, s': State, t: nat, kind: Kind, size: nat)
    requires Inv(s) && Opens(s, s', t, kind, size)
    ensures Inv(s')
  {
    OpenKeeps(s, s', t, kind, size);
    forall g | 0 <= g < |s'.groups|
      ensures Law(s', g)
    {
      if g < |s.groups| { assert Law(s, g); }
    }
  }

  lemma RunWaitedSafe(s: State, t: nat, g: GroupId)
    requires Inv(s) && Enabled(s, RunWaited(t, g))
    ensures StepSafe(s, RunWaited(t, g))
  {
    assert ThreadOk(s, t);
    var ru := s.runners[s.threads[t].phase.r];
    SpawningIntoKeeps(s, ru.sched, g, ru.home);
    AllLawsKept(s, SpawningInto(s, ru.sched, g, ru.home));
  }

  lemma SpawnNextSafe(s: State, t: nat)
    requires Inv(s) && Enabled(s, SpawnNext(t))
    ensures StepSafe(s, SpawnNext(t))
  {
    assert ThreadOk(s, t);
    var ru := s.runners[s.threads[t].phase.r];
    var g := s.threads[t].phase.g;
    SpawningIntoKeeps(s, ru.sched, g, ru.home);
    AllLawsKept(s, SpawningInto(s, ru.sched, g, ru.home));
  }

  // ----- Inside a body

  lemma YieldingSafe(s: State, t: nat, d: Deferral)
    requires Inv(s) && InBody(s, t)
    requires var r := s.threads[t].phase.r;
             d.DropWaiter? ==> OwnGroup(s, d.g, r) && s.groups[d.g].kind == Waiting
    requires d.RunAnyIndex? ==> d.n > 0
    ensures s.threads[t].phase.r in s.runners && s.runners[s.threads[t].phase.r].deferred == None
    ensures SelfCurrent(s, t, s.threads[t].phase.r)
    ensures Inv(Yielding(s, t, d))
  {
    var r := s.threads[t].phase.r;
    assert ThreadOk(s, t) && RunnerOk(s, r);
    var s' := Yielding(s, t, d);
    GoesOnKeeps(s, s', t, r);
    AllLawsKept(s, s');
  }

  lemma WaitSafe(s: State, t: nat, g: GroupId)
    requires Inv(s) && Enabled(s, Wait(t, g))
    ensures StepSafe(s, Wait(t, g))
  {
    assert ThreadOk(s, t);
    YieldingSafe(s, t, DropWaiter(g));
  }

  lemma SuspendSafe(s: State, t: nat, d: Deferral)
    requires Inv(s) && Enabled(s, Suspend(t, d))
    ensures StepSafe(s, Suspend(t, d))
  {
    YieldingSafe(s, t, d);
  }

  lemma SwitchToSafe(s: State, t: nat, dst: SchedId, throws: bool)
    requires Inv(s) && Enabled(s, SwitchTo(t, dst, throws))
    ensures StepSafe(s, SwitchTo(t, dst, throws))
  {
    var r := s.threads[t].phase.r;
    assert ThreadOk(s, t) && RunnerOk(s, r);
    if s.runners[r].sched != dst {
      var s1 := s.(runners := s.runners[r := s.runners[r].(sched := dst)]);
      assert s1.threads == s.threads[t := s1.threads[t]];
      GoesOnKeeps(s, s1, t, r);
      AllLawsKept(s, s1);
      YieldingSafe(s1, t, ProceedSelf);
    }
  }

  lemma EndSafe(s: State, t: nat)
    requires Inv(s) && Enabled(s, End(t))
    ensures StepSafe(s, End(t))
  {
    var r := s.threads[t].phase.r;
    assert ThreadOk(s, t) && RunnerOk(s, r);
    var s' := Do(s, End(t));
    assert s'.runners == s.runners[r := s'.runners[r]];
    GoesOnKeeps(s, s', t, r);
    AllLawsKept(s, s');
  }

  // ----- The children of an Any-combinator

  /** A child that runs belongs to a group whose loop is over. */
  lemma AnyChildFacts(s: State, a: Action, t: nat, r: RunnerId, g: GroupId)
    requires Inv(s) && Enabled(s, a) && Actor(a) == Some(t)
    requires s.threads[t].phase.Body? && s.threads[t].phase.r == r
    requires r in s.runners && s.runners[r].holds == Some(g) && g < |s.groups| && IsAny(s.groups[g].kind)
    ensures s.groups[g].hold == Released && s.runners[r].index < s.groups[g].size
    ensures ThreadOk(s, t) && RunnerOk(s, r) && Law(s, g)
    ensures forall k | k in s.posted :: s.posted[k].runner != r
    ensures forall h | 0 <= h < |s.groups| && Parked(s.groups[h]) :: s.groups[h].owner != r
    ensures forall u | 0 <= u < |s.threads| && Occupant(s.threads[u].phase) == Some(r) :: s.threads[u].phase.Body?
  {
    NobodyExclusive(s, a);
    OthersElsewhere(s, t, r);
    assert ThreadOk(s, t) && RunnerOk(s, r) && GroupOk(s, g);
  }

  lemma ClaimingKeeps(s: State, t: nat, r: RunnerId, g: GroupId, value: Option<int>, a: Action)
    requires Inv(s) && Enabled(s, a) && Actor(a) == Some(t)
    requires s.threads[t].phase.Body? && s.threads[t].phase.r == r
    requires r in s.runners && s.runners[r].holds == Some(g) && g < |s.groups| && IsAny(s.groups[g].kind)
    requires s.runners[r].progress == Working
    requires value.Some? && (s.groups[g].kind == AnyIndex ==> value.value == s.runners[r].index)
    ensures Inv(Claiming(s, r, g, value))
  {
    AnyChildFacts(s, a, t, r, g);
    var s' := Claiming(s, r, g, value);
    var grp := s.groups[g];
    forall c | c in s.runners && c != r && s.runners[c].holds == Some(g) && s.runners[c].progress.Won?
      ensures WonBy(s'.groups[g], c, s.runners[c].progress.value)
    {
      assert RunnerOk(s, c);
    }
    TweakKeeps(s, s', r, g);
    assert Law(s', g);
    LawsOfOthers(s, s', g);
  }

  lemma FinishSafe(s: State, t: nat, result: Option<int>)
    requires Inv(s) && Enabled(s, Finish(t, result))
    ensures StepSafe(s, Finish(t, result))
  {
    var a := Finish(t, result);
    var r := s.threads[t].phase.r;
    assert ThreadOk(s, t) && RunnerOk(s, r);
    var g := s.runners[r].holds.value;
    if s.groups[g].kind == AnyIndex {
      ClaimingKeeps(s, t, r, g, Some(s.runners[r].index as int), a);
    } else if result.Some? {
      ClaimingKeeps(s, t, r, g, result, a);
    } else {
      var s' := Do(s, a);
      assert s'.threads == s.threads[t := s'.threads[t]];
      GoesOnKeeps(s, s', t, r);
      AllLawsKept(s, s');
    }
  }

  /** The winner has written the result and will not claim again; `proceed` is still to be called. */
  function Written(s: State, r: RunnerId, g: GroupId): State
    requires r in s.runners && s.runners[r].progress.Won? && g < |s.groups|
  {
    s.(groups := s.groups[g := s.groups[g].(slot := Some(s.runners[r].progress.value))],
       runners := s.runners[r := s.runners[r].(progress := Finished)])
  }

  lemma WrittenKeeps(s: State, t: nat, r: RunnerId, g: GroupId)
    requires Inv(s) && Enabled(s, Deliver(t)) && s.threads[t].phase.r == r && r in s.runners
    requires s.runners[r].progress.Won? && s.runners[r].holds == Some(g) && g < |s.groups|
    requires WonBy(s.groups[g], r, s.runners[r].progress.value)
    ensures Core(Written(s, r, g)) && LawsKept(s, Written(s, r, g), Some(g)) && NoWinnerAt(Written(s, r, g), g)
  {
    AnyChildFacts(s, Deliver(t), t, r, g);
    forall c | c in s.runners && c != r && s.runners[c].holds == Some(g)
      ensures !s.runners[c].progress.Won?
    {
      assert RunnerOk(s, c);
    }
    TweakKeeps(s, Written(s, r, g), r, g);
  }

  lemma DeliverSafe(s: State, t: nat)
    requires Inv(s) && Enabled(s, Deliver(t))
    ensures StepSafe(s, Deliver(t))
  {
    var r := s.threads[t].phase.r;
    assert ThreadOk(s, t) && RunnerOk(s, r);
    var g := s.runners[r].holds.value;
    WrittenKeeps(s, t, r, g);
    assert GroupOk(s, g) && Law(s, g);
    WrittenFires(s, Written(s, r, g), r, g);
    assert Do(s, Deliver(t)) == Proceed(Written(s, r, g), g);
  }

  lemma WrittenFires(s: State, s1: State, r: RunnerId, g: GroupId)
    requires Inv(s) && r in s.runners && s.runners[r].progress.Won? && g < |s.groups| && s1 == Written(s, r, g)
    requires WonBy(s.groups[g], r, s.runners[r].progress.value)
    requires Core(s1) && LawsKept(s, s1, Some(g)) && NoWinnerAt(s1, g)
    ensures s1.groups[g].owner in s1.runners && Inv(Proceed(s1, g))
  {
    assert GroupOk(s1, g);
    LawsOfOthers(s, s1, g);
    WrittenLaw(s, s1, r, g);
    FiredKeeps(s1, Proceed(s1, g), g);
  }

  lemma WrittenLaw(s: State, s1: State, r: RunnerId, g: GroupId)
    requires r in s.runners && s.runners[r].progress.Won? && g < |s.groups| && s1 == Written(s, r, g)
    requires WonBy(s.groups[g], r, s.runners[r].progress.value) && s1.groups[g].owner in s1.runners
    requires Law(s, g)
    ensures Law(Proceed(s1, g), g)
  {
  }

  // ----- Leaving the coroutine

  lemma ReturnSafe(s: State, t: nat)
    requires Inv(s) && Enabled(s, Return(t))
    ensures StepSafe(s, Return(t))
  {
    var r := s.threads[t].phase.r;
    assert ThreadOk(s, t) && RunnerOk(s, r);
    var s' := Do(s, Return(t));
    assert s'.threads == s.threads[t := s'.threads[t]];
    GoesOnKeeps(s, s', t, r);
    AllLawsKept(s, s');
  }

  /** OnExit has taken the handler and is about to run it. */
  function Taken(s: State, t: nat, ph: Phase): State
    requires t < |s.threads| && s.threads[t].phase.Exiting? && s.threads[t].phase.r in s.runners
  {
    var r := s.threads[t].phase.r;
    Setting(s.(runners := s.runners[r := s.runners[r].(deferred := None)]), t, ph)
  }

  /** The phase in which the handler begins, if it makes no group. */
  predicate FitsHandler(d: Option<Deferral>, r: RunnerId, ph: Phase) {
    d.Some? && (ph == Proceeding(r) || (d.value.DropWaiter? && ph == Dropping(r, d.value.g)))
  }

  lemma TakenKeeps(s: State, t: nat, ph: Phase)
    requires Inv(s) && Enabled(s, Exit(t)) && s.threads[t].phase.r in s.runners
    requires FitsHandler(s.runners[s.threads[t].phase.r].deferred, s.threads[t].phase.r, ph)
    ensures Inv(Taken(s, t, ph))
  {
    var r := s.threads[t].phase.r;
    assert ThreadOk(s, t) && RunnerOk(s, r);
    var s' := Taken(s, t, ph);
    GoesOnKeeps(s, s', t, r);
    AllLawsKept(s, s');
  }

  /** The group of a callback or a loop is made, and the thread begins with it. */
  function Opened(s: State, t: nat, r: RunnerId, kind: Kind, size: nat): State
    requires t < |s.threads|
  {
    var ph := if kind == External then Calling(r, |s.groups|) else Looping(r, |s.groups|);
    Setting(s.(groups := s.groups + [NewGroup(kind, r, t, size)],
               calls := if kind == AnyIndex then s.calls + {|s.groups|} else s.calls,
               exclusive := if IsAny(kind) then Some(t) else s.exclusive), t, ph)
  }

  lemma OpenedKeeps(s: State, t: nat, r: RunnerId, kind: Kind, size: nat)
    requires Inv(s) && t < |s.threads| && s.threads[t].phase == Proceeding(r) && s.exclusive == None
    requires kind != Waiting && (kind == AnyIndex ==> size > 0)
    ensures Inv(Opened(s, t, r, kind, size))
  {
    OpenedInv(s, Opened(s, t, r, kind, size), t, kind, size);
  }

  lemma OpenedSafe(s: State, t: nat, kind: Kind, size: nat)
    requires Inv(s) && Enabled(s, Exit(t)) && s.threads[t].phase.r in s.runners
    requires s.runners[s.threads[t].phase.r].deferred.Some?
    requires kind != Waiting && (kind == AnyIndex ==> size > 0)
    ensures Inv(Opened(Taken(s, t, Proceeding(s.threads[t].phase.r)), t, s.threads[t].phase.r, kind, size))
  {
    var r := s.threads[t].phase.r;
    TakenKeeps(s, t, Proceeding(r));
    NobodyExclusive(s, Exit(t));
    OpenedKeeps(Taken(s, t, Proceeding(r)), t, r, kind, size);
  }

  /** The deferred handler that makes a group of the given kind. */
  function HandlerOf(kind: Kind, size: nat): Deferral
    requires kind != Waiting
  {
    match kind
    case External => UserCallback
    case All => RunAll(size)
    case AnyIndex => RunAnyIndex(size)
    case AnyValue => RunAnyValue(size)
  }

  lemma LeavingIsOpened(s: State, t: nat, kind: Kind, size: nat)
    requires t < |s.threads| && s.threads[t].phase.Exiting? && s.threads[t].phase.r in s.runners
    requires kind != Waiting && (kind == External ==> size == 0)
    requires s.runners[s.threads[t].phase.r].deferred == Some(HandlerOf(kind, size))
    ensures Leaving(s, t) == Opened(Taken(s, t, Proceeding(s.threads[t].phase.r)), t, s.threads[t].phase.r, kind, size)
  {
  }

  lemma LoopingExitSafe(s: State, t: nat, kind: Kind, size: nat)
    requires Inv(s) && Enabled(s, Exit(t)) && s.threads[t].phase.r in s.runners
    requires kind != Waiting && (kind == External ==> size == 0) && (kind == AnyIndex ==> size > 0)
    requires s.runners[s.threads[t].phase.r].deferred == Some(HandlerOf(kind, size))
    ensures Inv(Leaving(s, t))
  {
    OpenedSafe(s, t, kind, size);
    LeavingIsOpened(s, t, kind, size);
  }

  lemma PlainExitSafe(s: State, t: nat, ph: Phase)
    requires Inv(s) && Enabled(s, Exit(t)) && s.threads[t].phase.r in s.runners
    requires FitsHandler(s.runners[s.threads[t].phase.r].deferred, s.threads[t].phase.r, ph)
    requires Leaving(s, t) == Taken(s, t, ph)
    ensures Inv(Leaving(s, t))
  {
    TakenKeeps(s, t, ph);
  }

  lemma LeavingIsTaken(s: State, t: nat, ph: Phase)
    requires t < |s.threads| && s.threads[t].phase.Exiting? && s.threads[t].phase.r in s.runners
    requires var d, r := s.runners[s.threads[t].phase.r].deferred, s.threads[t].phase.r;
             (d == Some(ProceedSelf) && ph == Proceeding(r)) ||
             (d.Some? && d.value.DropWaiter? && ph == Dropping(r, d.value.g))
    ensures Leaving(s, t) == Taken(s, t, ph)
  {
  }

  lemma DyingSafe(s: State, t: nat)
    requires Inv(s) && Enabled(s, Exit(t)) && s.threads[t].phase.r in s.runners
    requires s.runners[s.threads[t].phase.r].deferred == None
    ensures Inv(Leaving(s, t))
  {
    var r := s.threads[t].phase.r;
    assert ThreadOk(s, t) && RunnerOk(s, r);
    var s' := Leaving(s, t);
    GoesOnKeeps(s, s', t, r);
    AllLawsKept(s, s');
  }

  lemma LeavingSafe(s: State, t: nat)
    requires Inv(s) && Enabled(s, Exit(t)) && s.threads[t].phase.r in s.runners
    requires RunnerOk(s, s.threads[t].phase.r)
    ensures Inv(Leaving(s, t))
  {
    var r := s.threads[t].phase.r;
    match s.runners[r].deferred
    case None => DyingSafe(s, t);
    case Some(UserCallback) => LoopingExitSafe(s, t, External, 0);
    case Some(RunAll(n)) => LoopingExitSafe(s, t, All, n);
    case Some(RunAnyIndex(n)) => LoopingExitSafe(s, t, AnyIndex, n);
    case Some(RunAnyValue(n)) => LoopingExitSafe(s, t, AnyValue, n);
    case Some(DropWaiter(w)) =>
      LeavingIsTaken(s, t, Dropping(r, w));
      PlainExitSafe(s, t, Dropping(r, w));
    case Some(ProceedSelf) =>
      LeavingIsTaken(s, t, Proceeding(r));
      PlainExitSafe(s, t, Proceeding(r));
  }

  lemma ExitSafe(s: State, t: nat)
    requires Inv(s) && Enabled(s, Exit(t))
    ensures StepSafe(s, Exit(t))
  {
    var r := s.threads[t].phase.r;
    assert ThreadOk(s, t) && RunnerOk(s, r);
    LeavingSafe(s, t);
  }

  lemma ProceedNowSafe(s: State, t: nat)
    requires Inv(s) && Enabled(s, ProceedNow(t))
    ensures StepSafe(s, ProceedNow(t))
  {
    var r := s.threads[t].phase.r;
    assert ThreadOk(s, t);
    SelfFireKeeps(s, Do(s, ProceedNow(t)), t, r);
    AllLawsKept(s, Do(s, ProceedNow(t)));
  }

  lemma ClearSafe(s: State, t: nat)
    requires Inv(s) && Enabled(s, Clear(t))
    ensures StepSafe(s, Clear(t))
  {
    var s' := Do(s, Clear(t));
    assert s'.threads[t] == s.threads[t].(phase := Idle, tlsRunner := None);
    ClearKeeps(s, s', t);
    AllLawsKept(s, s');
  }

  /** A thread that has left its runner goes on, or is done with the callback. */
  lemma MovesOnSafe(s: State, t: nat, ph: Phase)
    requires Inv(s) && t < |s.threads| && Leaves(s.threads[t].phase) && Leaves(ph) && ph.r == s.threads[t].phase.r
    ensures Inv(Setting(s, t, ph))
  {
    var s' := Setting(s, t, ph);
    ClearKeeps(s, s', t);
    AllLawsKept(s, s');
  }

  lemma CallbackEndSafe(s: State, t: nat)
    requires Inv(s) && Enabled(s, CallbackEnd(t))
    ensures StepSafe(s, CallbackEnd(t))
  {
    MovesOnSafe(s, t, Clearing(s.threads[t].phase.r));
  }

  // ----- Releasing references

  /** The law held before the last reference but `refs` went away. */
  predicate LawBefore(s: State, g: GroupId)
    requires g < |s.groups|
  {
    Law(s.(groups := s.groups[g := s.groups[g].(refs := s.groups[g].refs + 1)]), g)
  }

  lemma NobodyHolds(s: State, g: GroupId)
    requires Core(s) && g < |s.groups| && s.groups[g].refs == 0
    ensures forall c | c in s.runners :: s.runners[c].holds != Some(g)
  {
    assert GroupOk(s, g);
    assert Holders(s, g) == {};
    forall c | c in s.runners
      ensures s.runners[c].holds != Some(g)
    {
      assert c !in Holders(s, g);
    }
  }

  lemma BumpKeeps(s: State, s': State, g: GroupId)
    requires Core(s) && g < |s.groups| && s.groups[g].refs == 0 && s.groups[g].hold == Released
    requires s' == s.(groups := s.groups[g := s.groups[g].(counter := s.groups[g].counter + 1)])
    ensures Core(s') && LawsKept(s, s', Some(g))
  {
    NobodyHolds(s, g);
    BumpPlaces(s, s', g);
    BumpRest(s, s', g);
    ExclusionKept(s, s');
  }

  lemma BumpPlaces(s: State, s': State, g: GroupId)
    requires Placed(s) && g < |s.groups|
    requires s' == s.(groups := s.groups[g := s.groups[g].(counter := s.groups[g].counter + 1)])
    ensures Placed(s')
  {
    forall x
      ensures At(s', x) == At(s, x)
    {
    }
    PlacedSame(s, s');
  }

  lemma BumpRest(s: State, s': State, g: GroupId)
    requires TasksOk(s) && ThreadsOk(s) && RunnersOk(s) && GroupsOk(s) && CountOk(s)
    requires g < |s.groups| && s.groups[g].hold == Released
    requires forall c | c in s.runners :: s.runners[c].holds != Some(g)
    requires s' == s.(groups := s.groups[g := s.groups[g].(counter := s.groups[g].counter + 1)])
    ensures TasksOk(s') && ThreadsOk(s') && RunnersOk(s') && GroupsOk(s') && CountOk(s')
  {
    forall k | k in s'.posted
      ensures TaskOk(s', k)
    {
      assert TaskOk(s, k);
    }
    forall t | 0 <= t < |s'.threads|
      ensures ThreadOk(s', t)
    {
      assert ThreadOk(s, t);
    }
    forall r | r in s'.runners
      ensures RunnerOk(s', r)
    {
      assert RunnerOk(s, r);
    }
    forall h | 0 <= h < |s'.groups|
      ensures GroupOk(s', h)
    {
      assert GroupOk(s, h);
      assert Holders(s', h) == Holders(s, h);
    }
    assert Living(s') == Living(s);
  }

  lemma ReleaseKeeps(s: State, g: GroupId)
    requires Core(s) && g < |s.groups| && s.groups[g].hold == Released && LawBefore(s, g) && LawsBut(s, g)
    ensures DeleterProceeds(s.groups[g]) ==> s.groups[g].owner in s.runners
    ensures Inv(AfterRelease(s, g))
  {
    if DeleterProceeds(s.groups[g]) {
      LastReference(s, g);
    } else if s.groups[g].kind == AnyValue && s.groups[g].refs == 0 {
      BumpKeeps(s, AfterRelease(s, g), g);
      LawsButOne(s, AfterRelease(s, g), g);
    } else {
      assert s.groups[g := s.groups[g]] == s.groups;
      assert AfterRelease(s, g) == s && Law(s, g);
    }
  }

  /** The deleter finds the owner parked and sends it on. */
  lemma LastReference(s: State, g: GroupId)
    requires Core(s) && g < |s.groups| && s.groups[g].hold == Released && LawBefore(s, g) && LawsBut(s, g)
    requires DeleterProceeds(s.groups[g])
    ensures s.groups[g].owner in s.runners && Inv(AfterRelease(s, g))
  {
    NobodyHolds(s, g);
    NotYetProceeded(s, g);
    assert GroupOk(s, g);
    LastReferenceFires(s, AfterRelease(s, g), g);
    FiredKeeps(s, AfterRelease(s, g), g);
  }

  lemma NotYetProceeded(s: State, g: GroupId)
    requires g < |s.groups| && LawBefore(s, g) && DeleterProceeds(s.groups[g])
    ensures s.groups[g].proceeds == 0
  {
  }

  lemma LastReferenceFires(s: State, s': State, g: GroupId)
    requires g < |s.groups| && Parked(s.groups[g]) && s.groups[g].owner in s.runners
    requires LawBefore(s, g) && DeleterProceeds(s.groups[g]) && s' == AfterRelease(s, g)
    requires forall c | c in s.runners :: s.runners[c].holds != Some(g)
    ensures Fires(s, s', g) && Law(s', g)
  {
  }

  /** A thread's own reference: the deleter, if it runs, finds the owner parked. */
  lemma DroppedSafe(s: State, s0: State, t: nat, r: RunnerId, g: GroupId)
    requires Inv(s) && t < |s.threads| && OwnGroup(s, g, r) && s.groups[g].refs > 0
    requires s0 == s.(exclusive := if LoopsAny(s, t) then None else s.exclusive)
    requires || s.threads[t].phase == Calling(r, g)
             || (s.threads[t].phase == Looping(r, g) && s.groups[g].spawned >= s.groups[g].size)
             || s.threads[t].phase == Dropping(r, g)
    ensures r in s.runners
    ensures Inv(AfterRelease(LettingGo(s0, t, r, g), g))
    ensures s.groups[g].kind == External ==> Inv(LettingGo(s0, t, r, g))
  {
    assert ThreadOk(s, t) && GroupOk(s, g);
    var s1 := LettingGo(s0, t, r, g);
    LetKeeps(s, s1, t, r, g);
    LetGoLaws(s, s1, s0, t, r, g);
    ReleaseKeeps(s1, g);
  }

  lemma LetGoLaws(s: State, s1: State, s0: State, t: nat, r: RunnerId, g: GroupId)
    requires Inv(s) && LawsKept(s, s1, Some(g)) && t < |s.threads| && g < |s.groups| && s.groups[g].refs > 0
    requires s0 == s.(exclusive := s0.exclusive) && s1 == LettingGo(s0, t, r, g)
    ensures LawsBut(s1, g) && LawBefore(s1, g)
    ensures s.groups[g].kind == External ==> AfterRelease(s1, g) == s1
  {
    LawsOfOthers(s, s1, g);
    assert Law(s, g);
    assert s1.groups[g := s1.groups[g]] == s1.groups;
  }

  lemma LoopEndSafe(s: State, t: nat)
    requires Inv(s) && Enabled(s, LoopEnd(t))
    ensures StepSafe(s, LoopEnd(t))
  {
    var Looping(r, g) := s.threads[t].phase;
    assert ThreadOk(s, t) && GroupOk(s, g);
    var s0 := s.(exclusive := None);
    assert s0 == s.(exclusive := if LoopsAny(s, t) then None else s.exclusive);
    DroppedSafe(s, s0, t, r, g);
  }

  lemma HandOverSafe(s: State, t: nat)
    requires Inv(s) && Enabled(s, HandOver(t))
    ensures StepSafe(s, HandOver(t))
  {
    var Calling(r, g) := s.threads[t].phase;
    assert ThreadOk(s, t) && GroupOk(s, g);
    DroppedSafe(s, s, t, r, g);
    MovesOnSafe(LettingGo(s, t, r, g), t, Tail(r, Shelters(s, t, r)));
  }

  lemma DropSafe(s: State, t: nat)
    requires Inv(s) && Enabled(s, Drop(t))
    ensures StepSafe(s, Drop(t))
  {
    var Dropping(r, g) := s.threads[t].phase;
    assert ThreadOk(s, t) && GroupOk(s, g);
    DroppedSafe(s, s, t, r, g);
  }

  lemma DestroySafe(s: State, t: nat)
    requires Inv(s) && Enabled(s, Destroy(t))
    ensures StepSafe(s, Destroy(t))
  {
    var r := s.threads[t].phase.r;
    assert ThreadOk(s, t) && RunnerOk(s, r);
    match s.runners[r].holds
    case None => DestroyAloneSafe(s, t, r);
    case Some(g) => DestroyHolderSafe(s, t, r, g);
  }

  lemma DestroyAloneSafe(s: State, t: nat, r: RunnerId)
    requires Inv(s) && t < |s.threads| && s.threads[t].phase == Destroying(r) && r in s.runners
    requires s.runners[r].holds == None
    ensures Inv(DestroyingMembers(s, t))
  {
    var s' := DestroyingMembers(s, t);
    DestroyKeeps(s, s', t, r);
    AllLawsKept(s, s');
  }

  lemma DestroyHolderSafe(s: State, t: nat, r: RunnerId, g: GroupId)
    requires Inv(s) && t < |s.threads| && s.threads[t].phase == Destroying(r) && r in s.runners
    requires s.runners[r].holds == Some(g) && g < |s.groups|
    ensures ReleaseDefined(s.(runners := s.runners - {r}), g)
    ensures Inv(DestroyingMembers(s, t))
  {
    HeldHasRefs(s, r, g);
    DestroyedIsSafe(s, Destroyed(s, t), t, r, g);
    DestroyingReleases(s, t, r, g);
  }

  lemma DestroyedIsSafe(s: State, s1: State, t: nat, r: RunnerId, g: GroupId)
    requires Inv(s) && Destroys(s, s1, t, r)
    requires s.runners[r].holds == Some(g) && g < |s.groups| && s.groups[g].refs > 0
    ensures DeleterProceeds(s1.groups[g]) ==> s1.groups[g].owner in s1.runners
    ensures Inv(AfterRelease(s1, g))
  {
    DestroyKeeps(s, s1, t, r);
    DestroyRelease(s, s1, t, r, g);
  }

  lemma DestroyingReleases(s: State, t: nat, r: RunnerId, g: GroupId)
    requires t < |s.threads| && s.threads[t].phase == Destroying(r) && r in s.runners
    requires s.runners[r].holds == Some(g) && g < |s.groups| && s.groups[g].refs > 0
    requires var s1 := Destroyed(s, t); DeleterProceeds(s1.groups[g]) ==> s1.groups[g].owner in s1.runners
    ensures ReleaseDefined(s.(runners := s.runners - {r}), g)
    ensures DestroyingMembers(s, t) == AfterRelease(Destroyed(s, t), g)
  {
  }

  lemma HeldHasRefs(s: State, r: RunnerId, g: GroupId)
    requires Core(s) && r in s.runners && g < |s.groups| && s.runners[r].holds == Some(g)
    ensures s.groups[g].refs > 0
  {
    assert GroupOk(s, g) && r in Holders(s, g);
  }

  lemma DestroyRelease(s: State, s1: State, t: nat, r: RunnerId, g: GroupId)
    requires Inv(s) && Core(s1) && LawsKept(s, s1, Some(g)) && Destroys(s, s1, t, r)
    requires s.runners[r].holds == Some(g) && g < |s.groups| && s.groups[g].refs > 0
    ensures DeleterProceeds(s1.groups[g]) ==> s1.groups[g].owner in s1.runners
    ensures Inv(AfterRelease(s1, g))
  {
    DestroyedLawBefore(s, s1, t, r, g);
    LawsOfOthers(s, s1, g);
    if s.groups[g].hold == Local {
      LocalRefs(s, r, g);
      LocalLaw(s1, g);
    } else {
      ReleaseKeeps(s1, g);
    }
  }

  lemma DestroyedLawBefore(s: State, s1: State, t: nat, r: RunnerId, g: GroupId)
    requires ThreadsOk(s) && Destroys(s, s1, t, r) && s.runners[r].holds == Some(g)
    requires Law(s, g)
    ensures LawBefore(s1, g)
  {
    assert ThreadOk(s, t);
  }

  /** A group that somebody else still holds is none the worse for one reference less. */
  lemma LocalLaw(s1: State, g: GroupId)
    requires g < |s1.groups| && s1.groups[g].refs > 0 && LawBefore(s1, g)
    ensures Law(s1, g) && AfterRelease(s1, g) == s1
  {
  }

  lemma LocalRefs(s: State, r: RunnerId, g: GroupId)
    requires Core(s) && r in s.runners && g < |s.groups| && s.runners[r].holds == Some(g) && s.groups[g].hold == Local
    ensures s.groups[g].refs > 1
  {
    assert GroupOk(s, g) && r in Holders(s, g);
  }

  lemma CompletionFires(s: State, g: GroupId)
    requires Core(s) && g < |s.groups| && s.groups[g].kind == External && Parked(s.groups[g])
    ensures s.groups[g].owner in s.runners && Fires(s, Proceed(s, g), g) && Law(Proceed(s, g), g)
  {
    assert GroupOk(s, g);
    forall c | c in s.runners && s.runners[c].holds == Some(g)
      ensures !s.runners[c].progress.Won?
    {
      assert RunnerOk(s, c);
    }
  }

  lemma CompletionSafe(s: State, g: GroupId)
    requires Inv(s) && Enabled(s, Completion(g))
    ensures StepSafe(s, Completion(g))
  {
    CompletionFires(s, g);
    FiredKeeps(s, Proceed(s, g), g);
  }

  // ----- Every action

  predicate OfBody(a: Action) {
    a.RunOutside? || a.Begin? || a.Run? || a.MakeWaiter? || a.RunWaited? || a.Wait? || a.Suspend? || a.SwitchTo?
    || a.Finish? || a.Deliver? || a.End?
  }

  lemma BodyKeeps(s: State, a: Action)
    requires Inv(s) && Enabled(s, a) && OfBody(a) && (StartsBlindly(s, a) ==> Defined(s, a))
    ensures StepSafe(s, a)
  {
    match a
    case RunOutside(sched) => RunOutsideSafe(s, sched);
    case Begin(t, k) => BeginSafe(s, t, k);
    case Run(t, target) => RunSafe(s, t, target);
    case MakeWaiter(t) => MakeWaiterSafe(s, t);
    case RunWaited(t, g) => RunWaitedSafe(s, t, g);
    case Wait(t, g) => WaitSafe(s, t, g);
    case Suspend(t, d) => SuspendSafe(s, t, d);
    case SwitchTo(t, dst, throws) => SwitchToSafe(s, t, dst, throws);
    case Finish(t, result) => FinishSafe(s, t, result);
    case Deliver(t) => DeliverSafe(s, t);
    case End(t) => EndSafe(s, t);
  }

  lemma ExitKeeps(s: State, a: Action)
    requires Inv(s) && Enabled(s, a) && !OfBody(a)
    ensures StepSafe(s, a)
  {
    match a
    case Return(t) => ReturnSafe(s, t);
    case Exit(t) => ExitSafe(s, t);
    case SpawnNext(t) => SpawnNextSafe(s, t);
    case LoopEnd(t) => LoopEndSafe(s, t);
    case HandOver(t) => HandOverSafe(s, t);
    case CallbackEnd(t) => CallbackEndSafe(s, t);
    case Drop(t) => DropSafe(s, t);
    case ProceedNow(t) => ProceedNowSafe(s, t);
    case Destroy(t) => DestroySafe(s, t);
    case Clear(t) => ClearSafe(s, t);
    case Completion(g) => CompletionSafe(s, g);
  }

  /** Whatever the program may do next is safe and keeps the invariant; only of a blind start it must be known. */
  lemma StepKeeps(s: State, a: Action)
    requires Inv(s) && Enabled(s, a) && (StartsBlindly(s, a) ==> Defined(s, a))
    ensures StepSafe(s, a)
  {
    if OfBody(a) { BodyKeeps(s, a); } else { ExitKeeps(s, a); }
  }
}
