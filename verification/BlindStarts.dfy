/**
 * Operations that a callback of DeferProceed starts after it has handed `proceed` on, without naming a
 * scheduler: RunAsync asks the current runner for one, and that runner may be gone.
 */
module BlindStarts {
  import opened Options
  import opened Runtime
  import opened RuntimeInvariant
  import opened RuntimeSafety
  import opened RuntimeTails
  import opened RuntimeRuns
  import opened Driving

  predicate StartsNothing(actions: seq<Action>) {
    forall i | 0 <= i < |actions| :: !actions[i].Run?
  }

  predicate HoldsStrandOf(s: State, v: nat, r: RunnerId)
    requires v < |s.threads| && r in s.runners
  {
    s.threads[v].phase != Idle && s.threads[v].on == s.runners[r].sched && s.runners[r].sched in s.strands
  }

  /** Thread `u` may take the runner's next task, once it is posted: no other busy thread but `t` holds its strand. */
  predicate FreeFor(s: State, t: nat, u: nat, r: RunnerId) {
    && t < |s.threads| && u < |s.threads| && u != t && r in s.runners && s.exclusive == None
    && s.threads[u].phase == Idle
    && forall v | 0 <= v < |s.threads| && v != t :: !HoldsStrandOf(s, v, r)
  }

  // ----- Under a shelter

  /** As long as the callback goes on under a shelter, its runner is there, whatever else happens. */
  lemma ShelterHolds(s: State, t: nat, actions: seq<Action>, s': State)
    requires Inv(s) && TailsOk(s) && t < |s.threads| && s.threads[t].phase.Tail? && s.threads[t].phase.sheltered
    requires Leads(s, actions, s') && Without(actions, t)
    ensures t < |s'.threads| && HasCurrent(s', t)
  {
    LeadsKeeps(s, actions, s');
    OthersLeave(s, actions, s', t);
    assert ThreadOk(s', t) && TailOk(s', t);
  }

  // ----- Without one

  lemma HopKeeps(s: State, a: Action, s1: State)
    requires Inv(s) && Hops(s, a, s1)
    ensures Inv(s1)
  {
    StepKeeps(s, a);
  }

  lemma EndHop(s: State, u: nat, r: RunnerId) returns (s1: State)
    requires Inv(s) && s.exclusive == None && u < |s.threads| && s.threads[u].phase.Body? && s.threads[u].phase.r == r
    requires r in s.runners && !s.runners[r].progress.Won?
    ensures Hops(s, End(u), s1) && s1.exclusive == None && s1.runners.Keys == s.runners.Keys
    ensures u < |s1.threads| && s1.threads[u].phase.Yielded? && s1.threads[u].phase.r == r && s1.threads[u].phase.ended
  {
    StepKeeps(s, End(u));
    s1 := Do(s, End(u));
  }

  lemma ReturnHop(s: State, u: nat, r: RunnerId) returns (s1: State)
    requires Inv(s) && s.exclusive == None && u < |s.threads| && s.threads[u].phase.Yielded?
    requires s.threads[u].phase.r == r && s.threads[u].phase.ended
    ensures Hops(s, Return(u), s1) && s1.exclusive == None && s1.runners.Keys == s.runners.Keys
    ensures u < |s1.threads| && s1.threads[u].phase == Exiting(r) && r in s1.runners && s1.runners[r].deferred == None
  {
    assert ThreadOk(s, u);
    StepKeeps(s, Return(u));
    s1 := Do(s, Return(u));
  }

  lemma LeavingKeepsKeys(s: State, u: nat)
    requires u < |s.threads| && s.threads[u].phase.Exiting? && s.threads[u].phase.r in s.runners
    ensures Leaving(s, u).runners.Keys == s.runners.Keys
  {
  }

  lemma ExitHop(s: State, u: nat, r: RunnerId) returns (s1: State)
    requires Inv(s) && s.exclusive == None && u < |s.threads| && s.threads[u].phase == Exiting(r)
    requires r in s.runners && s.runners[r].deferred == None
    ensures Hops(s, Exit(u), s1) && s1.exclusive == None && s1.runners.Keys == s.runners.Keys
    ensures u < |s1.threads| && s1.threads[u].phase == Destroying(r)
  {
    StepKeeps(s, Exit(u));
    s1 := Leaving(s, u);
    LeavingKeepsKeys(s, u);
  }

  lemma DestroyHop(s: State, u: nat, r: RunnerId) returns (s1: State)
    requires Inv(s) && s.exclusive == None && u < |s.threads| && s.threads[u].phase == Destroying(r)
    ensures Hops(s, Destroy(u), s1) && s1.runners.Keys == s.runners.Keys - {r} && s1.exclusive == None
  {
    StepKeeps(s, Destroy(u));
    var h := s.runners[r].holds;
    if h.Some? { AfterReleaseKeepsRunners(Destroyed(s, u), h.value); }
    s1 := Do(s, Destroy(u));
  }

  lemma AfterReleaseKeepsRunners(s: State, g: GroupId)
    requires g < |s.groups| && (DeleterProceeds(s.groups[g]) ==> s.groups[g].owner in s.runners)
    ensures AfterRelease(s, g).runners == s.runners && AfterRelease(s, g).exclusive == s.exclusive
  {
  }

  lemma EndAndReturn(s: State, u: nat, r: RunnerId) returns (s2: State)
    requires Inv(s) && s.exclusive == None && u < |s.threads| && s.threads[u].phase.Body? && s.threads[u].phase.r == r
    requires r in s.runners && !s.runners[r].progress.Won?
    ensures Leads(s, [End(u)] + [Return(u)], s2) && s2.exclusive == None && s2.runners.Keys == s.runners.Keys
    ensures u < |s2.threads| && s2.threads[u].phase == Exiting(r) && r in s2.runners && s2.runners[r].deferred == None
  {
    var s1 := EndHop(s, u, r);
    HopKeeps(s, End(u), s1);
    s2 := ReturnHop(s1, u, r);
    TwoHops(s, End(u), s1, Return(u), s2);
  }

  lemma ExitAndDestroy(s: State, u: nat, r: RunnerId) returns (s2: State)
    requires Inv(s) && s.exclusive == None && u < |s.threads| && s.threads[u].phase == Exiting(r)
    requires r in s.runners && s.runners[r].deferred == None
    ensures Leads(s, [Exit(u)] + [Destroy(u)], s2) && s2.runners.Keys == s.runners.Keys - {r} && s2.exclusive == None
  {
    var s1 := ExitHop(s, u, r);
    HopKeeps(s, Exit(u), s1);
    s2 := DestroyHop(s1, u, r);
    TwoHops(s, Exit(u), s1, Destroy(u), s2);
  }

  /** How a body ends and its runner is deleted. */
  function Ending(u: nat): seq<Action> { ([End(u)] + [Return(u)]) + ([Exit(u)] + [Destroy(u)]) }

  /** A body may end at any moment; then its runner is deleted. */
  lemma EndsAndGoes(s: State, u: nat, r: RunnerId) returns (s': State)
    requires Inv(s) && s.exclusive == None && u < |s.threads| && s.threads[u].phase.Body? && s.threads[u].phase.r == r
    requires r in s.runners && !s.runners[r].progress.Won?
    ensures Leads(s, Ending(u), s') && s'.runners.Keys == s.runners.Keys - {r} && s'.exclusive == None
  {
    var s2 := EndAndReturn(s, u, r);
    LeadsKeepsInv(s, [End(u)] + [Return(u)], s2);
    s' := ExitAndDestroy(s2, u, r);
    LeadsOn(s, [End(u)] + [Return(u)], s2, [Exit(u)] + [Destroy(u)], s');
  }

  lemma CompletionHop(s: State, r: RunnerId, g: GroupId) returns (s1: State)
    requires Inv(s) && s.exclusive == None
    requires g < |s.groups| && s.groups[g].kind == External && s.groups[g].owner == r && Parked(s.groups[g])
    ensures Hops(s, Completion(g), s1) && r in s.runners
    ensures s1.runners == s.runners && s1.threads == s.threads && s1.strands == s.strands && s1.exclusive == None
    ensures s.nextTicket in s1.posted && s1.posted[s.nextTicket] == Task(r, false, s.runners[r].sched)
  {
    assert GroupOk(s, g);
    StepKeeps(s, Completion(g));
    s1 := Do(s, Completion(g));
  }

  lemma MayBePopped(s: State, t: nat, u: nat, r: RunnerId, k: nat)
    requires FreeFor(s, t, u, r) && !Shelters(s, t, r)
    requires k in s.posted && s.posted[k] == Task(r, false, s.runners[r].sched)
    ensures MayPop(s, k)
  {
    forall v | 0 <= v < |s.threads| && s.threads[v].phase != Idle && s.runners[r].sched in s.strands
      ensures s.threads[v].on != s.runners[r].sched
    {
      if v != t { assert !HoldsStrandOf(s, v, r); }
    }
  }

  lemma FreeForStays(s: State, s1: State, t: nat, u: nat, r: RunnerId)
    requires FreeFor(s, t, u, r) && !Shelters(s, t, r)
    requires s1.runners == s.runners && s1.threads == s.threads && s1.strands == s.strands && s1.exclusive == None
    ensures FreeFor(s1, t, u, r) && !Shelters(s1, t, r)
  {
    forall v | 0 <= v < |s.threads| && v != t
      ensures !HoldsStrandOf(s1, v, r)
    {
      assert !HoldsStrandOf(s, v, r);
    }
  }

  lemma BeginHop(s: State, t: nat, u: nat, r: RunnerId, k: nat) returns (s1: State)
    requires Inv(s) && FreeFor(s, t, u, r) && !Shelters(s, t, r)
    requires k in s.posted && s.posted[k] == Task(r, false, s.runners[r].sched)
    ensures Hops(s, Begin(u, k), s1) && s1.exclusive == None && |s1.threads| == |s.threads|
            && s1.runners.Keys == s.runners.Keys
    ensures s1.threads[u].phase.Body? && s1.threads[u].phase.r == r && r in s1.runners && !s1.runners[r].progress.Won?
  {
    assert TaskOk(s, k);
    MayBePopped(s, t, u, r, k);
    StepKeeps(s, Begin(u, k));
    s1 := Do(s, Begin(u, k));
  }

  function Resuming(g: GroupId, u: nat, k: nat): seq<Action> { [Completion(g)] + [Begin(u, k)] }

  /** A parked runner may be sent on and resumed by another thread. */
  lemma ResumesElsewhere(s: State, t: nat, u: nat, r: RunnerId, g: GroupId) returns (s': State)
    requires Inv(s) && FreeFor(s, t, u, r) && !Shelters(s, t, r)
    requires g < |s.groups| && s.groups[g].kind == External && s.groups[g].owner == r && Parked(s.groups[g])
    ensures Leads(s, Resuming(g, u, s.nextTicket), s')
    ensures |s'.threads| == |s.threads| && s'.threads[u].phase.Body? && s'.threads[u].phase.r == r
    ensures s'.exclusive == None && s'.runners.Keys == s.runners.Keys && r in s'.runners && !s'.runners[r].progress.Won?
  {
    var s1 := CompletionHop(s, r, g);
    HopKeeps(s, Completion(g), s1);
    FreeForStays(s, s1, t, u, r);
    s' := BeginHop(s1, t, u, r, s.nextTicket);
    TwoHops(s, Completion(g), s1, Begin(u, s.nextTicket), s');
  }

  /** What other threads may do to the runner of a tail without a shelter. */
  function Overtaking(g: GroupId, u: nat, k: nat): seq<Action> { Resuming(g, u, k) + Ending(u) }

  lemma OvertakingFacts(g: GroupId, u: nat, k: nat, t: nat)
    requires u != t
    ensures Without(Overtaking(g, u, k), t) && StartsNothing(Overtaking(g, u, k))
  {
  }

  lemma GoesElsewhere(s: State, t: nat, u: nat, r: RunnerId, g: GroupId) returns (s': State)
    requires Inv(s) && FreeFor(s, t, u, r) && !Shelters(s, t, r)
    requires g < |s.groups| && s.groups[g].kind == External && s.groups[g].owner == r && Parked(s.groups[g])
    ensures Leads(s, Overtaking(g, u, s.nextTicket), s') && s'.runners.Keys == s.runners.Keys - {r}
    ensures s'.exclusive == None
  {
    var k := s.nextTicket;
    var s1 := ResumesElsewhere(s, t, u, r, g);
    LeadsKeepsInv(s, Resuming(g, u, k), s1);
    s' := EndsAndGoes(s1, u, r);
    LeadsOn(s, Resuming(g, u, k), s1, Ending(u), s');
  }

  /** From such a tail other threads may get to where a blind start finds its runner deleted. */
  lemma BlindStartFails(s: State, t: nat, u: nat, r: RunnerId, g: GroupId) returns (s': State)
    requires Inv(s) && FreeFor(s, t, u, r) && !Shelters(s, t, r) && s.threads[t].phase.Tail?
             && s.threads[t].phase.r == r
    requires g < |s.groups| && s.groups[g].kind == External && s.groups[g].owner == r && Parked(s.groups[g])
    ensures Leads(s, Overtaking(g, u, s.nextTicket), s') && s'.runners.Keys == s.runners.Keys - {r}
    ensures Enabled(s', Run(t, None)) && !Defined(s', Run(t, None)) && s'.threads[t] == s.threads[t]
  {
    assert ThreadOk(s, t);
    s' := GoesElsewhere(s, t, u, r, g);
    assert r !in s'.runners;
    OvertakingFacts(g, u, s.nextTicket, t);
    OthersLeave(s, Overtaking(g, u, s.nextTicket), s', t);
  }

  /** The runner is still there, whatever the other threads do until the callback ends. */
  ghost predicate AlwaysCurrent(s: State, t: nat) {
    forall actions, s' :: Leads(s, actions, s') && Without(actions, t) ==> t < |s'.threads| && HasCurrent(s', t)
  }

  lemma ShelteredIsCurrent(s: State, t: nat)
    requires Inv(s) && TailsOk(s) && t < |s.threads| && s.threads[t].phase.Tail? && s.threads[t].phase.sheltered
    ensures AlwaysCurrent(s, t)
  {
    forall actions, s' | Leads(s, actions, s') && Without(actions, t)
      ensures t < |s'.threads| && HasCurrent(s', t)
    {
      ShelterHolds(s, t, actions, s');
    }
  }

  /** The thread that keeps others from taking up the runner, or else any thread. */
  lemma Obstacle(s: State, t: nat, r: RunnerId) returns (u: nat)
    requires StrandsOk(s) && t < |s.threads| && |s.threads| > 1 && r in s.runners
    ensures u < |s.threads| && u != t
    ensures forall v | 0 <= v < |s.threads| && v != t && v != u :: !HoldsStrandOf(s, v, r)
  {
    if v :| 0 <= v < |s.threads| && v != t && HoldsStrandOf(s, v, r) {
      u := v;
    } else {
      u := if t == 0 then 1 else 0;
    }
  }

  /** It goes idle, and may then take up the runner. */
  lemma MakesRoom(s: State, t: nat, r: RunnerId, g: GroupId) returns (actions: seq<Action>, s': State, u: nat)
    requires Inv(s) && s.exclusive == None && t < |s.threads| && |s.threads| > 1 && Waits(s, r, AtGroup(g))
    requires r in s.runners && !Shelters(s, t, r)
    ensures Leads(s, actions, s') && Without(actions, t) && Waits(s', r, AtGroup(g))
    ensures t < |s'.threads| && r in s'.runners && !Shelters(s', t, r)
    ensures FreeFor(s', t, u, r) && |s'.threads| == |s.threads| && s'.threads[t] == s.threads[t]
  {
    IsElsewhere(s, t, r, AtGroup(g));
    u := Obstacle(s, t, r);
    actions, s' := DriveToIdle(s, u, r, AtGroup(g));
    OthersAsBefore(s, actions, s', u);
    forall v | 0 <= v < |s'.threads| && v != t
      ensures !HoldsStrandOf(s', v, r)
    {
      assert v != u ==> !HoldsStrandOf(s, v, r);
    }
  }

  lemma IsOvertaken(s: State, t: nat, r: RunnerId, g: GroupId) returns (actions: seq<Action>, s': State)
    requires Inv(s) && s.exclusive == None && t < |s.threads| && s.threads[t].phase.Tail? && s.threads[t].phase.r == r
    requires Waits(s, r, AtGroup(g)) && r in s.runners && !Shelters(s, t, r)
    ensures Leads(s, actions, s') && Without(actions, t) && t < |s'.threads| && !HasCurrent(s', t)
  {
    var before, s1, u := MakesRoom(s, t, r, g);
    LeadsKeepsInv(s, before, s1);
    s' := BlindStartFails(s1, t, u, r, g);
    OvertakingFacts(g, u, s1.nextTicket, t);
    LeadsOn(s, before, s1, Overtaking(g, u, s1.nextTicket), s');
    actions := before + Overtaking(g, u, s1.nextTicket);
  }

  lemma UnshelteredIsNot(s: State, t: nat, r: RunnerId, g: GroupId)
    requires Inv(s) && s.exclusive == None && t < |s.threads| && s.threads[t].phase.Tail? && s.threads[t].phase.r == r
    requires Waits(s, r, AtGroup(g)) && r in s.runners && !Shelters(s, t, r)
    ensures !AlwaysCurrent(s, t)
  {
    var actions, s' := IsOvertaken(s, t, r, g);
  }

  /** Where a hand-over leaves the thread and its runner. */
  lemma HandOverHop(s: State, t: nat, r: RunnerId, g: GroupId) returns (s1: State)
    requires Inv(s) && TailsOk(s) && Enabled(s, HandOver(t)) && s.threads[t].phase == Calling(r, g)
    ensures Hops(s, HandOver(t), s1) && Inv(s1) && TailsOk(s1)
    ensures s1.threads == s.threads[t := s.threads[t].(phase := Tail(r, Shelters(s, t, r)))]
    ensures s1.runners == s.runners && s1.strands == s.strands && s1.exclusive == s.exclusive
    ensures g < |s1.groups| && s1.groups[g].kind == External && s1.groups[g].owner == r && Parked(s1.groups[g])
  {
    StepKeeps(s, HandOver(t));
    StepKeepsTails(s, HandOver(t));
    s1 := Do(s, HandOver(t));
    CallingFacts(s, t, r, g);
  }

  lemma CallingFacts(s: State, t: nat, r: RunnerId, g: GroupId)
    requires Inv(s) && t < |s.threads| && s.threads[t].phase == Calling(r, g)
    ensures g < |s.groups| && s.groups[g].kind == External && s.groups[g].owner == r && s.groups[g].proceeds == 0
  {
    assert ThreadOk(s, t) && GroupOk(s, g);
  }

  /**
   * The guard is exact.  When a callback hands `proceed` on, blind starts in the rest of the callback are safe in every
   * continuation if and only if no other thread can resume the runner meanwhile: it is on a strand that this thread
   * holds, or there is no other thread.
   */
  lemma GuardIsExact(s: State, t: nat)
    requires Inv(s) && TailsOk(s) && Enabled(s, HandOver(t))
    ensures Defined(s, HandOver(t))
    ensures AlwaysCurrent(Do(s, HandOver(t)), t) <==> Shelters(s, t, s.threads[t].phase.r)
  {
    var Calling(r, g) := s.threads[t].phase;
    CallingIsNotExclusive(s, t);
    var s1 := HandOverHop(s, t, r, g);
    assert ThreadOk(s, t);
    if Shelters(s, t, r) { ShelteredIsCurrent(s1, t); } else { UnshelteredIsNot(s1, t, r, g); }
  }

  lemma CallingIsNotExclusive(s: State, t: nat)
    requires ExclusiveOk(s) && Enabled(s, HandOver(t))
    ensures s.exclusive == None
  {
  }

  // ----- A run that fails

  /** Two threads and no strand: the operation has handed its `proceed` on, and thread 0 is still in the callback. */
  function InTail(): State {
    var s := Alone(2, Alive, None, Tail(0, false));
    s.(groups := [NewGroup(External, 0, 0, 0).(hold := Released, refs := 0)])
  }

  function InCallback(): State {
    var s := Alone(2, Alive, None, Calling(0, 0));
    s.(groups := [NewGroup(External, 0, 0, 0)])
  }

  lemma LeadsToTail()
    ensures Leads(Nothing(2), ToTail(), InTail())
  {
    LeadsToDeferred(2, UserCallback);
    assert Hops(Deferred(2, UserCallback), Exit(0), InCallback());
    assert Hops(InCallback(), HandOver(0), InTail());
    OneHop(InCallback(), HandOver(0), InTail());
    HopFirst(Deferred(2, UserCallback), Exit(0), InCallback(), [HandOver(0)], InTail());
    LeadsOn(Nothing(2), Deferring(UserCallback), Deferred(2, UserCallback), [Exit(0)] + [HandOver(0)], InTail());
  }

  /** A run from the beginning that starts nothing blindly before its last action, and that action is not safe. */
  lemma FailingRun() returns (states: seq<State>, actions: seq<Action>)
    ensures IsRun(states, actions) && |actions| > 0
    ensures var n := |actions| - 1;
            && StartsBlindly(states[n], actions[n]) && !Defined(states[n], actions[n])
            && forall i | 0 <= i < n :: Defined(states[i], actions[i]) && !StartsBlindly(states[i], actions[i])
  {
    var s' := LeadsToFailure();
    FailureStartsNothing();
    var before := LeadsIsRun(Nothing(2), Failure(), s');
    NothingHolds(2);
    states, actions := Failing(before, Failure(), s', 0);
  }

  /** A careful run to a count of zero: WaitAll may return, and the callback has not. */
  lemma ZeroInCallback() returns (states: seq<State>, actions: seq<Action>)
    ensures IsCarefulRun(states, actions)
    ensures var s := states[|actions|];
            s.count == 0 && 0 < |s.threads| && s.threads[0].phase.Tail? && s.threads[0].phase.r !in s.runners
  {
    var s := LeadsToFailure();
    FailureStartsNothing();
    actions := Failure();
    states := LeadsIsRun(Nothing(2), actions, s);
    NothingHolds(2);
    NobodyCounts(s);
  }

  lemma NobodyCounts(s: State)
    requires Leads(Nothing(2), Failure(), s) && s.runners == map[]
    ensures s.count == 0
  {
    NothingHolds(2);
    LeadsKeepsInv(Nothing(2), Failure(), s);
    assert Living(s) == {};
  }

  function ToTail(): seq<Action> { Deferring(UserCallback) + ([Exit(0)] + [HandOver(0)]) }

  function Failure(): seq<Action> { ToTail() + Overtaking(0, 1, 1) }

  lemma FailureStartsNothing()
    ensures StartsNothing(Failure())
  {
  }

  lemma TailHolds()
    ensures Inv(InTail())
  {
    LeadsToTail();
    NothingHolds(2);
    LeadsKeepsInv(Nothing(2), ToTail(), InTail());
  }

  lemma LeadsToFailure() returns (s': State)
    ensures Leads(Nothing(2), Failure(), s') && s'.runners == map[]
    ensures 0 < |s'.threads| && s'.threads[0].phase.Tail? && Enabled(s', Run(0, None)) && !Defined(s', Run(0, None))
  {
    TailHolds();
    s' := BlindStartFails(InTail(), 0, 1, 0, 0);
    LeadsToTail();
    LeadsOn(Nothing(2), ToTail(), InTail(), Overtaking(0, 1, 1), s');
    assert s'.runners.Keys == {};
  }

  lemma Failing(before: seq<State>, first: seq<Action>, s': State, t: nat)
    returns (states: seq<State>, actions: seq<Action>)
    requires |before| == |first| + 1 && Init(before[0]) && before[|first|] == s'
    requires forall i | 0 <= i < |first| ::
               Enabled(before[i], first[i]) && Defined(before[i], first[i]) && before[i + 1] == Do(before[i], first[i])
    requires StartsNothing(first)
    requires Enabled(s', Run(t, None)) && !Defined(s', Run(t, None)) && t < |s'.threads| && s'.threads[t].phase.Tail?
    ensures IsRun(states, actions) && |actions| == |first| + 1
    ensures StartsBlindly(states[|first|], actions[|first|]) && !Defined(states[|first|], actions[|first|])
    ensures forall i | 0 <= i < |first| :: Defined(states[i], actions[i]) && !StartsBlindly(states[i], actions[i])
  {
    states, actions := before + [s'], first + [Run(t, None)];
    assert forall i {:trigger states[i]} | 0 <= i <= |first| :: states[i] == before[i];
    assert forall i {:trigger actions[i]} | 0 <= i < |first| :: actions[i] == first[i];
  }
}
