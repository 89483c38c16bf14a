/**
 * The runtime told by its history alone: on which scheduler an operation is, which children a call has started, and
 * what becomes of a handler that was deferred, read off the actions of a run.
 */
module RuntimeHistory {
  import opened Options
  import opened Runtime
  import opened RuntimeInvariant
  import opened RuntimeSteps
  import opened RuntimeSafety
  import opened RuntimeTails
  import opened RuntimeTheorems
  import opened Driving

  // ----- What no step changes

  /** The steps that create a runner. */
  predicate Starts(a: Action) { a.RunOutside? || a.Run? || a.RunWaited? || a.SpawnNext? }

  /** The runner in whose body, callback or loop the step is taken. */
  function Who(s: State, a: Action): Option<RunnerId> {
    if Actor(a).Some? && a.t < |s.threads| && s.threads[a.t].phase != Idle then Some(s.threads[a.t].phase.r) else None
  }

  /**
   * Its place among the children, and its family, stay; its scheduler is changed by its own SwitchTo only, and what it
   * has deferred by its own steps only.
   */
  predicate Kept(ru: Runner, ru': Runner, switched: Option<SchedId>, own: bool) {
    && ru'.holds == ru.holds && ru'.index == ru.index && ru'.home == ru.home
    && ru'.sched == (if switched.Some? then switched.value else ru.sched)
    && (own || ru'.deferred == ru.deferred)
  }

  function Switched(s: State, a: Action, c: RunnerId): Option<SchedId> {
    if a.SwitchTo? && Who(s, a) == Some(c) then Some(a.dst) else None
  }

  ghost predicate AllKept(s: State, s': State, who: Option<RunnerId>) {
    forall c | c in s.runners && c in s'.runners :: Kept(s.runners[c], s'.runners[c], None, who == Some(c))
  }

  lemma BodyKeepsEach(s: State, a: Action)
    requires Enabled(s, a) && Defined(s, a) && OfBody(a) && !Starts(a) && !a.SwitchTo? && !a.Finish? && !a.Deliver?
    ensures AllKept(s, Do(s, a), Who(s, a)) && Do(s, a).runners.Keys == s.runners.Keys
  {
  }

  lemma FinishKeepsEach(s: State, a: Action)
    requires Enabled(s, a) && Defined(s, a) && (a.Finish? || a.Deliver?)
    ensures AllKept(s, Do(s, a), Who(s, a)) && Do(s, a).runners.Keys == s.runners.Keys
  {
  }

  lemma SwitchKeepsEach(s: State, t: nat, dst: SchedId, throws: bool)
    requires Enabled(s, SwitchTo(t, dst, throws)) && Defined(s, SwitchTo(t, dst, throws))
    ensures var s' := Do(s, SwitchTo(t, dst, throws));
            && s'.runners.Keys == s.runners.Keys
            && forall c | c in s.runners :: Kept(s.runners[c], s'.runners[c], Switched(s, SwitchTo(t, dst, throws), c),
                                                        s.threads[t].phase.r == c)
  {
  }

  lemma StartKeepsEach(s: State, a: Action)
    requires Enabled(s, a) && Defined(s, a) && Starts(a) && s.nextRunner !in s.runners
    ensures AllKept(s, Do(s, a), Who(s, a)) && Do(s, a).runners.Keys == s.runners.Keys + {s.nextRunner}
  {
  }

  lemma ReleaseKeepsEach(s: State, a: Action)
    requires Enabled(s, a) && Defined(s, a) && (a.LoopEnd? || a.Drop? || a.Destroy?)
    ensures AllKept(s, Do(s, a), Who(s, a))
    ensures Do(s, a).runners.Keys == s.runners.Keys - if a.Destroy? then {s.threads[a.t].phase.r} else {}
  {
    if a.Destroy? {
      var h := s.runners[s.threads[a.t].phase.r].holds;
      if h.Some? { AfterReleaseKeepsAll(Destroyed(s, a.t), h.value); }
    } else {
      var s0 := if a.LoopEnd? then s.(exclusive := None) else s;
      var r, h := s.threads[a.t].phase.r, s.threads[a.t].phase.g;
      AfterReleaseKeepsAll(LettingGo(s0, a.t, r, h), h);
    }
  }

  lemma AfterReleaseKeepsAll(s: State, g: GroupId)
    requires g < |s.groups| && (DeleterProceeds(s.groups[g]) ==> s.groups[g].owner in s.runners)
    ensures AfterRelease(s, g).runners == s.runners
  {
  }

  lemma LeavingKeepsEach(s: State, t: nat)
    requires t < |s.threads| && s.threads[t].phase.Exiting? && s.threads[t].phase.r in s.runners
    ensures AllKept(s, Leaving(s, t), Some(s.threads[t].phase.r)) && Leaving(s, t).runners.Keys == s.runners.Keys
  {
  }

  lemma ExitKeepsEach(s: State, a: Action)
    requires Enabled(s, a) && Defined(s, a) && !OfBody(a) && !Starts(a) && !a.Exit?
    requires !a.LoopEnd? && !a.Drop? && !a.Destroy?
    ensures AllKept(s, Do(s, a), Who(s, a)) && Do(s, a).runners.Keys == s.runners.Keys
  {
  }

  /** Runners keep what they are, and a new one is the one that was started. */
  lemma StepKeepsRunner(s: State, a: Action, c: RunnerId)
    requires Enabled(s, a) && Defined(s, a) && s.nextRunner !in s.runners && c in Do(s, a).runners
    ensures c in s.runners ==> Kept(s.runners[c], Do(s, a).runners[c], Switched(s, a, c), Who(s, a) == Some(c))
    ensures c !in s.runners ==> Starts(a) && c == s.nextRunner
  {
    if a.SwitchTo? {
      SwitchKeepsEach(s, a.t, a.dst, a.throws);
    } else if Starts(a) {
      StartKeepsEach(s, a);
    } else if a.Finish? || a.Deliver? {
      FinishKeepsEach(s, a);
    } else if OfBody(a) {
      BodyKeepsEach(s, a);
    } else if a.Exit? {
      LeavingKeepsEach(s, a.t);
    } else if a.LoopEnd? || a.Drop? || a.Destroy? {
      ReleaseKeepsEach(s, a);
    } else {
      ExitKeepsEach(s, a);
    }
  }

  /** Only the destruction of its members takes it out of memory. */
  lemma StaysInMemory(s: State, a: Action, c: RunnerId)
    requires Enabled(s, a) && Defined(s, a) && s.nextRunner !in s.runners && c in s.runners
    requires a.Destroy? ==> Who(s, a) != Some(c)
    ensures c in Do(s, a).runners
  {
    if a.SwitchTo? {
      SwitchKeepsEach(s, a.t, a.dst, a.throws);
    } else if Starts(a) {
      StartKeepsEach(s, a);
    } else if a.Finish? || a.Deliver? {
      FinishKeepsEach(s, a);
    } else if OfBody(a) {
      BodyKeepsEach(s, a);
    } else if a.Exit? {
      LeavingKeepsEach(s, a.t);
    } else if a.LoopEnd? || a.Drop? || a.Destroy? {
      ReleaseKeepsEach(s, a);
    } else {
      ExitKeepsEach(s, a);
    }
  }

  // ----- Schedulers

  /** The scheduler that a starting step names, or none when it takes that of the runner that starts. */
  function Target(a: Action): Option<SchedId>
    requires Starts(a)
  {
    match a
    case RunOutside(sched) => Some(sched)
    case Run(_, target) => target
    case _ => None
  }

  /**
   * The scheduler that was named for a runner by the first `n` actions: when it was started, or when that was not said,
   * for the one that started it; and after that by its own calls of SwitchTo, if these are to count.
   */
  function Named(states: seq<State>, actions: seq<Action>, n: nat, r: RunnerId, switches: bool): SchedId
    requires |states| == |actions| + 1 && n <= |actions|
  {
    if n == 0 then 0
    else
      var s, a := states[n - 1], actions[n - 1];
      if Starts(a) && r == s.nextRunner then
        if Target(a).Some? then Target(a).value
        else if Who(s, a).Some? then Named(states, actions, n - 1, Who(s, a).value, switches) else 0
      else if switches && Switched(s, a, r).Some? then a.dst
      else Named(states, actions, n - 1, r, switches)
  }

  /** A new runner is on the scheduler that is named, or else where its starter is. */
  lemma StartNames(s: State, a: Action)
    requires ThreadsOk(s) && Enabled(s, a) && Defined(s, a) && Starts(a)
    ensures s.nextRunner in Do(s, a).runners
    ensures var ru := Do(s, a).runners[s.nextRunner];
            && (Target(a).Some? ==> ru.sched == ru.home == Target(a).value)
            && (Target(a).None? ==>
                  && Who(s, a).Some? && Who(s, a).value in s.runners
                  && ru.sched == s.runners[Who(s, a).value].sched && ru.home == s.runners[Who(s, a).value].home)
  {
    if Actor(a).Some? { assert ThreadOk(s, a.t); }
  }

  /** Every operation is on the scheduler that was named for it last, and its family on the one named first. */
  lemma {:induction false} SchedulersAreNamed(states: seq<State>, actions: seq<Action>, n: nat, r: RunnerId)
    requires IsCarefulRun(states, actions) && n <= |actions| && r in states[n].runners
    ensures states[n].runners[r].sched == Named(states, actions, n, r, true)
    ensures states[n].runners[r].home == Named(states, actions, n, r, false)
  {
    if n > 0 {
      var s, a := states[n - 1], actions[n - 1];
      NamedNext(states, actions, n - 1, r);
      if r in s.runners {
        SchedulersAreNamed(states, actions, n - 1, r);
      } else if Target(a).None? {
        SchedulersAreNamed(states, actions, n - 1, Who(s, a).value);
      }
    }
  }

  lemma NamedNext(states: seq<State>, actions: seq<Action>, n: nat, r: RunnerId)
    requires IsCarefulRun(states, actions) && n < |actions| && r in states[n + 1].runners
    ensures var s, a, ru := states[n], actions[n], states[n + 1].runners[r];
            if r in s.runners then r != s.nextRunner && Kept(s.runners[r], ru, Switched(s, a, r), Who(s, a) == Some(r))
            else
              && Starts(a) && r == s.nextRunner
              && (Target(a).Some? ==> ru.sched == ru.home == Target(a).value)
              && (Target(a).None? ==>
                    && Who(s, a).Some? && Who(s, a).value in s.runners
                    && ru.sched == s.runners[Who(s, a).value].sched && ru.home == s.runners[Who(s, a).value].home)
  {
    var s, a := states[n], actions[n];
    RunsAreSafe(states, actions, n);
    NumbersAreNew(s);
    StepKeepsRunner(s, a, r);
    if r !in s.runners { StartNames(s, a); }
  }

  /** A body is entered on the scheduler that was named for it last. */
  lemma BeginsWhereNamed(states: seq<State>, actions: seq<Action>, n: nat, t: nat, k: nat)
    requires IsCarefulRun(states, actions) && n < |actions| && actions[n] == Begin(t, k)
    ensures t < |states[n + 1].threads| && states[n + 1].threads[t].phase.Body?
    ensures k in states[n].posted && states[n + 1].threads[t].phase.r == states[n].posted[k].runner
    ensures states[n + 1].threads[t].on == Named(states, actions, n, states[n].posted[k].runner, true)
  {
    RunsAreSafe(states, actions, n);
    assert TaskOk(states[n], k);
    SchedulersAreNamed(states, actions, n, states[n].posted[k].runner);
  }

  lemma {:induction false} NamedSince(states: seq<State>, actions: seq<Action>, i: nat, n: nat, r: RunnerId)
    requires IsCarefulRun(states, actions) && i < n <= |actions| && r < states[i].nextRunner
    requires Switched(states[i], actions[i], r).Some?
    requires forall j | i < j < n :: Switched(states[j], actions[j], r) == None
    ensures Named(states, actions, n, r, true) == actions[i].dst && r < states[n].nextRunner
  {
    NumbersInRun(states, actions, n - 1);
    if n > i + 1 { NamedSince(states, actions, i, n - 1, r); }
  }

  lemma NumbersInRun(states: seq<State>, actions: seq<Action>, n: nat)
    requires IsCarefulRun(states, actions) && n < |actions|
    ensures states[n + 1].nextRunner == states[n].nextRunner + if Starts(actions[n]) then 1 else 0
  {
    RunsAreSafe(states, actions, n);
    NumbersGrow(states[n], actions[n]);
  }

  lemma NumbersGrow(s: State, a: Action)
    requires Enabled(s, a) && Defined(s, a)
    ensures Do(s, a).nextRunner == s.nextRunner + if Starts(a) then 1 else 0
  {
    if a.LoopEnd? || a.Drop? || a.Destroy? { ReleaseKeepsNumbers(s, a); }
  }

  lemma AfterReleaseKeepsNumbers(s: State, g: GroupId)
    requires g < |s.groups| && (DeleterProceeds(s.groups[g]) ==> s.groups[g].owner in s.runners)
    ensures AfterRelease(s, g).nextRunner == s.nextRunner
  {
  }

  lemma ReleaseKeepsNumbers(s: State, a: Action)
    requires Enabled(s, a) && Defined(s, a) && (a.LoopEnd? || a.Drop? || a.Destroy?)
    ensures Do(s, a).nextRunner == s.nextRunner
  {
    if a.Destroy? {
      var h := s.runners[s.threads[a.t].phase.r].holds;
      if h.Some? { AfterReleaseKeepsNumbers(Destroyed(s, a.t), h.value); }
    } else {
      var s0 := if a.LoopEnd? then s.(exclusive := None) else s;
      var r, h := s.threads[a.t].phase.r, s.threads[a.t].phase.g;
      AfterReleaseKeepsNumbers(LettingGo(s0, a.t, r, h), h);
    }
  }

  /**
   * A call of SwitchTo takes effect whether it throws or not: when the runner is next resumed, and has not called
   * SwitchTo again, it is on the scheduler it has named.
   */
  lemma SwitchTakesEffect(states: seq<State>, actions: seq<Action>, i: nat, n: nat, r: RunnerId, t: nat, k: nat)
    requires IsCarefulRun(states, actions) && i < n < |actions| && Switched(states[i], actions[i], r).Some?
    requires forall j | i < j < n :: Switched(states[j], actions[j], r) == None
    requires actions[n] == Begin(t, k) && k in states[n].posted && states[n].posted[k].runner == r
    ensures t < |states[n + 1].threads| && states[n + 1].threads[t].phase.Body?
    ensures states[n + 1].threads[t].phase.r == r && states[n + 1].threads[t].on == actions[i].dst
  {
    RunsAreSafe(states, actions, i);
    SwitcherIsOld(states[i], actions[i], r);
    NamedSince(states, actions, i, n, r);
    BeginsWhereNamed(states, actions, n, t, k);
  }

  lemma SwitcherIsOld(s: State, a: Action, r: RunnerId)
    requires Inv(s) && Enabled(s, a) && Switched(s, a, r).Some?
    ensures r < s.nextRunner
  {
    assert ThreadOk(s, a.t) && RunnerOk(s, r);
  }

  /** It suspends exactly if there is somewhere to go and no event throws first. */
  lemma SwitchSuspends(s: State, t: nat, dst: SchedId, throws: bool)
    requires Reachable(s) && Enabled(s, SwitchTo(t, dst, throws))
    ensures Defined(s, SwitchTo(t, dst, throws)) && s.threads[t].phase.r in s.runners
    ensures var s', r := Do(s, SwitchTo(t, dst, throws)), s.threads[t].phase.r;
            && r in s'.runners && s'.runners[r].sched == dst
            && (s'.threads[t].phase.Yielded? <==> s.runners[r].sched != dst && !throws)
            && (s.runners[r].sched == dst ==> s' == s)
  {
    ReachableInv(s);
    assert ThreadOk(s, t);
    StepKeeps(s, SwitchTo(t, dst, throws));
  }

  // ----- Children

  /** The pointer that goes into the closure of the runner which the step starts. */
  function Into(s: State, a: Action): Option<GroupId> {
    if a.RunWaited? then Some(a.g)
    else if a.SpawnNext? && a.t < |s.threads| && s.threads[a.t].phase.Looping? then Some(s.threads[a.t].phase.g)
    else None
  }

  /** How many of the first `n` actions have started a child of the group. */
  function Started(states: seq<State>, actions: seq<Action>, n: nat, g: GroupId): nat
    requires |states| == |actions| + 1 && n <= |actions|
  {
    if n == 0 then 0
    else Started(states, actions, n - 1, g) + if Into(states[n - 1], actions[n - 1]) == Some(g) then 1 else 0
  }

  /** They have started this one. */
  ghost predicate IsChildOf(states: seq<State>, actions: seq<Action>, n: nat, g: GroupId, c: RunnerId)
    requires |states| == |actions| + 1 && n <= |actions|
  {
    exists i | 0 <= i < n :: Into(states[i], actions[i]) == Some(g) && states[i].nextRunner == c
  }

  lemma IsChildNext(states: seq<State>, actions: seq<Action>, n: nat, g: GroupId, c: RunnerId)
    requires |states| == |actions| + 1 && n < |actions|
    ensures IsChildOf(states, actions, n + 1, g, c) <==>
            IsChildOf(states, actions, n, g, c) || (Into(states[n], actions[n]) == Some(g) && states[n].nextRunner == c)
  {
  }

  /** A new runner holds the pointer it was started with, and stands behind the children that were started before. */
  lemma StartHolds(s: State, a: Action)
    requires ThreadsOk(s) && Enabled(s, a) && Defined(s, a) && Starts(a)
    ensures s.nextRunner in Do(s, a).runners && Do(s, a).runners[s.nextRunner].holds == Into(s, a)
    ensures Into(s, a).Some? ==>
              && Into(s, a).value < |s.groups|
              && Do(s, a).runners[s.nextRunner].index == s.groups[Into(s, a).value].spawned
  {
    if Actor(a).Some? { assert ThreadOk(s, a.t); }
  }

  lemma HoldsNext(states: seq<State>, actions: seq<Action>, n: nat, c: RunnerId)
    requires IsCarefulRun(states, actions) && n < |actions| && c in states[n + 1].runners
    ensures c in states[n].runners ==>
              && c < states[n].nextRunner
              && states[n + 1].runners[c].holds == states[n].runners[c].holds
              && states[n + 1].runners[c].index == states[n].runners[c].index
    ensures c !in states[n].runners ==>
              && Starts(actions[n]) && c == states[n].nextRunner
              && states[n + 1].runners[c].holds == Into(states[n], actions[n])
  {
    var s, a := states[n], actions[n];
    RunsAreSafe(states, actions, n);
    NumbersAreNew(s);
    StepKeepsRunner(s, a, c);
    if c in s.runners { assert RunnerOk(s, c); } else { StartHolds(s, a); }
  }

  lemma {:induction false} NumbersRise(states: seq<State>, actions: seq<Action>, i: nat, n: nat)
    requires IsCarefulRun(states, actions) && i < n <= |actions| && Starts(actions[i])
    ensures states[i].nextRunner < states[n].nextRunner
  {
    NumbersInRun(states, actions, n - 1);
    if i + 1 < n { NumbersRise(states, actions, i, n - 1); }
  }

  lemma ChildIsNumbered(states: seq<State>, actions: seq<Action>, n: nat, g: GroupId, c: RunnerId)
    requires IsCarefulRun(states, actions) && n <= |actions| && IsChildOf(states, actions, n, g, c)
    ensures c < states[n].nextRunner
  {
    var i :| 0 <= i < n && Into(states[i], actions[i]) == Some(g) && states[i].nextRunner == c;
    NumbersRise(states, actions, i, n);
  }

  /** The runners that hold a pointer are the children started with it that are still in memory. */
  lemma {:induction false} HoldersAreChildren(states: seq<State>, actions: seq<Action>, n: nat, g: GroupId, c: RunnerId)
    requires IsCarefulRun(states, actions) && n <= |actions| && c in states[n].runners
    ensures states[n].runners[c].holds == Some(g) <==> IsChildOf(states, actions, n, g, c)
  {
    if n > 0 {
      HoldsNext(states, actions, n - 1, c);
      IsChildNext(states, actions, n - 1, g, c);
      if c in states[n - 1].runners {
        HoldersAreChildren(states, actions, n - 1, g, c);
      } else if IsChildOf(states, actions, n - 1, g, c) {
        ChildIsNumbered(states, actions, n - 1, g, c);
      }
    }
  }

  // ----- Groups

  /** The group keeps what it was made with; `more` children were started, and it is let go of only where `ends`. */
  predicate SameShape(grp: Group, grp': Group, more: nat, ends: bool) {
    && grp'.kind == grp.kind && grp'.owner == grp.owner && grp'.size == grp.size
    && grp'.spawned == grp.spawned + more
    && (grp.hold == Released ==> grp'.hold == Released)
    && (ends ==> grp'.hold == Released)
    && (grp.kind == All || IsAny(grp.kind) ==> (grp'.hold == Released <==> grp.hold == Released || ends))
  }

  /** The step ends the loop that starts the children of the group. */
  predicate EndsLoop(s: State, a: Action, g: GroupId) {
    a.LoopEnd? && a.t < |s.threads| && s.threads[a.t].phase.Looping? && s.threads[a.t].phase.g == g
  }

  function More(s: State, a: Action, g: GroupId): nat { if Into(s, a) == Some(g) then 1 else 0 }

  predicate Shaped(s: State, s': State, a: Action, g: GroupId)
    requires g < |s.groups|
  {
    g < |s'.groups| && SameShape(s.groups[g], s'.groups[g], More(s, a, g), EndsLoop(s, a, g))
  }

  lemma StartShapes(s: State, a: Action, g: GroupId)
    requires Enabled(s, a) && Defined(s, a) && (a.RunWaited? || a.SpawnNext?) && g < |s.groups|
    ensures Shaped(s, Do(s, a), a, g)
  {
  }

  lemma FinishShapes(s: State, a: Action, g: GroupId)
    requires Enabled(s, a) && Defined(s, a) && (a.Finish? || a.Deliver?) && g < |s.groups|
    ensures Shaped(s, Do(s, a), a, g)
  {
  }

  lemma AfterReleaseShapes(s: State, h: GroupId, g: GroupId)
    requires h < |s.groups| && (DeleterProceeds(s.groups[h]) ==> s.groups[h].owner in s.runners) && g < |s.groups|
    ensures g < |AfterRelease(s, h).groups| && SameShape(s.groups[g], AfterRelease(s, h).groups[g], 0, false)
  {
  }

  lemma LettingGoShapes(s: State, t: nat, r: RunnerId, h: GroupId, g: GroupId)
    requires t < |s.threads| && h < |s.groups| && s.groups[h].refs > 0 && g < |s.groups|
    requires s.groups[g].kind == All || IsAny(s.groups[g].kind) || g != h
    ensures g < |LettingGo(s, t, r, h).groups| && SameShape(s.groups[g], LettingGo(s, t, r, h).groups[g], 0, g == h)
  {
  }

  lemma LoopEndShapes(s: State, t: nat, g: GroupId)
    requires ThreadsOk(s) && Enabled(s, LoopEnd(t)) && Defined(s, LoopEnd(t)) && g < |s.groups|
    ensures Shaped(s, Do(s, LoopEnd(t)), LoopEnd(t), g)
  {
    assert ThreadOk(s, t);
    var s0, r, h := s.(exclusive := None), s.threads[t].phase.r, s.threads[t].phase.g;
    LettingGoShapes(s0, t, r, h, g);
    AfterReleaseShapes(LettingGo(s0, t, r, h), h, g);
  }

  lemma DropShapes(s: State, t: nat, g: GroupId)
    requires ThreadsOk(s) && Enabled(s, Drop(t)) && Defined(s, Drop(t)) && g < |s.groups|
    ensures Shaped(s, Do(s, Drop(t)), Drop(t), g)
  {
    assert ThreadOk(s, t);
    var r, h := s.threads[t].phase.r, s.threads[t].phase.g;
    var s1 := LettingGo(s, t, r, h);
    AfterReleaseShapes(s1, h, g);
  }

  lemma DestroyShapes(s: State, t: nat, g: GroupId)
    requires Enabled(s, Destroy(t)) && Defined(s, Destroy(t)) && g < |s.groups|
    ensures Shaped(s, Do(s, Destroy(t)), Destroy(t), g)
  {
    var h := s.runners[s.threads[t].phase.r].holds;
    if h.Some? { AfterReleaseShapes(Destroyed(s, t), h.value, g); }
  }

  lemma HandOverShapes(s: State, t: nat, g: GroupId)
    requires ThreadsOk(s) && Enabled(s, HandOver(t)) && Defined(s, HandOver(t)) && g < |s.groups|
    ensures Shaped(s, Do(s, HandOver(t)), HandOver(t), g)
  {
    assert ThreadOk(s, t);
  }

  lemma StepShapes(s: State, a: Action, g: GroupId)
    requires ThreadsOk(s) && Enabled(s, a) && Defined(s, a) && g < |s.groups|
    ensures Shaped(s, Do(s, a), a, g)
  {
    if Quiet(a) {
      QuietGroups(s, a, g);
    } else if a.RunWaited? || a.SpawnNext? {
      StartShapes(s, a, g);
    } else if a.Finish? || a.Deliver? {
      FinishShapes(s, a, g);
    } else if a.LoopEnd? {
      LoopEndShapes(s, a.t, g);
    } else if a.Drop? {
      DropShapes(s, a.t, g);
    } else if a.Destroy? {
      DestroyShapes(s, a.t, g);
    } else if a.HandOver? {
      HandOverShapes(s, a.t, g);
    }
  }

  /** A new group has no children yet. */
  lemma NewIsEmpty(s: State, a: Action, g: GroupId)
    requires Enabled(s, a) && Defined(s, a) && |s.groups| <= g < |Do(s, a).groups|
    ensures Do(s, a).groups[g].spawned == 0 && Do(s, a).groups[g].hold == Local
  {
    if a.MakeWaiter? || a.Exit? {
    } else if Releases(a) {
      ReleaseKeepsKinds(s, a, g);
    } else {
      NoNewGroup(s, a);
    }
  }

  lemma NoNewGroup(s: State, a: Action)
    requires Enabled(s, a) && Defined(s, a) && !a.MakeWaiter? && !a.Exit? && !Releases(a)
    ensures |Do(s, a).groups| == |s.groups|
  {
  }

  ghost predicate LoopEnded(states: seq<State>, actions: seq<Action>, n: nat, g: GroupId)
    requires |states| == |actions| + 1 && n <= |actions|
  {
    exists i | 0 <= i < n :: EndsLoop(states[i], actions[i], g)
  }

  lemma LoopEndedNext(states: seq<State>, actions: seq<Action>, n: nat, g: GroupId)
    requires |states| == |actions| + 1 && n < |actions|
    ensures LoopEnded(states, actions, n + 1, g) <==>
            LoopEnded(states, actions, n, g) || EndsLoop(states[n], actions[n], g)
  {
  }

  lemma ShapeInRun(states: seq<State>, actions: seq<Action>, n: nat, g: GroupId)
    requires IsCarefulRun(states, actions) && n < |actions|
    ensures |states[n].groups| <= |states[n + 1].groups|
    ensures g < |states[n].groups| ==> Shaped(states[n], states[n + 1], actions[n], g)
    ensures |states[n].groups| <= g < |states[n + 1].groups| ==>
              states[n + 1].groups[g].spawned == 0 && states[n + 1].groups[g].hold == Local
    ensures g >= |states[n].groups| ==> Into(states[n], actions[n]) != Some(g) && !EndsLoop(states[n], actions[n], g)
  {
    var s, a := states[n], actions[n];
    RunsAreSafe(states, actions, n);
    KindsKept(s, a, g);
    if g < |s.groups| {
      StepShapes(s, a, g);
    } else {
      if g < |states[n + 1].groups| { NewIsEmpty(s, a, g); }
      if a.SpawnNext? || a.LoopEnd? { assert ThreadOk(s, a.t); }
    }
  }

  /** The children are counted as they are started, and no loop has ended before its group was made. */
  lemma {:induction false} ChildrenAreCounted(states: seq<State>, actions: seq<Action>, n: nat, g: GroupId)
    requires IsCarefulRun(states, actions) && n <= |actions|
    ensures g < |states[n].groups| ==> states[n].groups[g].spawned == Started(states, actions, n, g)
    ensures g < |states[n].groups| && (states[n].groups[g].kind == All || IsAny(states[n].groups[g].kind)) ==>
              (states[n].groups[g].hold == Released <==> LoopEnded(states, actions, n, g))
    ensures g >= |states[n].groups| ==> Started(states, actions, n, g) == 0 && !LoopEnded(states, actions, n, g)
  {
    if n > 0 {
      ChildrenAreCounted(states, actions, n - 1, g);
      ShapeInRun(states, actions, n - 1, g);
      LoopEndedNext(states, actions, n - 1, g);
    }
  }

  /** A child stands in the list of handlers where it was started: behind as many as were started before it. */
  lemma {:induction false} ChildrenInOrder(states: seq<State>, actions: seq<Action>, i: nat, n: nat, g: GroupId)
    requires IsCarefulRun(states, actions) && i < n <= |actions| && Into(states[i], actions[i]) == Some(g)
    ensures states[i].nextRunner in states[n].runners ==>
              && states[n].runners[states[i].nextRunner].holds == Some(g)
              && states[n].runners[states[i].nextRunner].index == Started(states, actions, i, g)
    ensures states[i].nextRunner < states[n].nextRunner
  {
    var c := states[i].nextRunner;
    NumbersInRun(states, actions, n - 1);
    if n == i + 1 {
      RunsAreSafe(states, actions, i);
      StartHolds(states[i], actions[i]);
      ChildrenAreCounted(states, actions, i, g);
    } else {
      ChildrenInOrder(states, actions, i, n - 1, g);
      if c in states[n].runners { HoldsNext(states, actions, n - 1, c); }
    }
  }

  // ----- Deferred handlers

  /** What the step defers, if it suspends. */
  function DeferredBy(a: Action): Option<Deferral> {
    match a
    case Suspend(_, d) => Some(d)
    case Wait(_, g) => Some(DropWaiter(g))
    case SwitchTo(_, _, _) => Some(ProceedSelf)
    case _ => None
  }

  /** What OnExit does with it: the phase it comes to. */
  function PhaseOf(d: Deferral, r: RunnerId, g: GroupId): Phase {
    match d
    case UserCallback => Calling(r, g)
    case DropWaiter(w) => Dropping(r, w)
    case ProceedSelf => Proceeding(r)
    case _ => Looping(r, g)
  }

  /** The kind of pointer that it makes, and for how many handlers. */
  function KindOf(d: Deferral): Option<Kind> {
    match d
    case UserCallback => Some(External)
    case RunAll(_) => Some(All)
    case RunAnyIndex(_) => Some(AnyIndex)
    case RunAnyValue(_) => Some(AnyValue)
    case _ => None
  }

  function Handlers(d: Deferral): nat {
    match d
    case RunAll(n) => n
    case RunAnyIndex(n) => n
    case RunAnyValue(n) => n
    case _ => 0
  }

  /** The thread is on its way from the suspension of `r` to OnExit, and `d` is deferred. */
  predicate Carries(s: State, t: nat, r: RunnerId, d: Deferral) {
    && t < |s.threads| && r in s.runners && s.runners[r].deferred == Some(d)
    && ((s.threads[t].phase.Yielded? && s.threads[t].phase.r == r && !s.threads[t].phase.ended) ||
        s.threads[t].phase == Exiting(r))
  }

  lemma DeferralIsStored(s: State, a: Action, t: nat)
    requires ThreadsOk(s) && Enabled(s, a) && Defined(s, a) && Actor(a) == Some(t) && DeferredBy(a).Some?
    ensures t < |Do(s, a).threads| && s.threads[t].phase.Body?
    ensures a.Suspend? ==> Do(s, a).threads[t].phase.Yielded?
    ensures Do(s, a).threads[t].phase.Yielded? ==> Carries(Do(s, a), t, s.threads[t].phase.r, DeferredBy(a).value)
  {
    assert ThreadOk(s, t);
  }

  lemma OtherCarries(s: State, a: Action, t: nat, r: RunnerId, d: Deferral)
    requires Inv(s) && Enabled(s, a) && Defined(s, a) && Carries(s, t, r, d) && Actor(a) != Some(t)
    ensures Carries(Do(s, a), t, r, d)
  {
    NumbersAreNew(s);
    StepLeavesOthers(s, a, t);
    OthersElsewhere(s, t, r);
    if Who(s, a) == Some(r) { NotOfTail(s, a); }
    StaysInMemory(s, a, r);
    StepKeepsRunner(s, a, r);
  }

  /** Whoever destroys a runner, or does anything but RunAsync and the rest of a callback, occupies its thread. */
  lemma NotOfTail(s: State, a: Action)
    requires Enabled(s, a) && Who(s, a).Some?
    ensures Occupant(s.threads[a.t].phase) == Who(s, a) || a.Run? || a.CallbackEnd? || a.Clear?
  {
  }

  lemma OwnCarries(s: State, a: Action, t: nat, r: RunnerId, d: Deferral)
    requires Enabled(s, a) && Defined(s, a) && Carries(s, t, r, d) && Actor(a) == Some(t) && !a.Exit?
    ensures Carries(Do(s, a), t, r, d)
  {
  }

  lemma StoredInRun(states: seq<State>, actions: seq<Action>, n: nat, t: nat)
    requires IsCarefulRun(states, actions) && n < |actions|
    requires Actor(actions[n]) == Some(t) && DeferredBy(actions[n]).Some?
    ensures t < |states[n].threads| && states[n].threads[t].phase.Body? && t < |states[n + 1].threads|
    ensures states[n + 1].threads[t].phase.Yielded? ==>
              Carries(states[n + 1], t, states[n].threads[t].phase.r, DeferredBy(actions[n]).value)
    ensures actions[n].Suspend? ==> states[n + 1].threads[t].phase.Yielded?
  {
    RunsAreSafe(states, actions, n);
    DeferralIsStored(states[n], actions[n], t);
  }

  lemma CarriedInRun(states: seq<State>, actions: seq<Action>, n: nat, t: nat, r: RunnerId, d: Deferral)
    requires IsCarefulRun(states, actions) && n < |actions| && Carries(states[n], t, r, d) && actions[n] != Exit(t)
    ensures Carries(states[n + 1], t, r, d)
  {
    RunsAreSafe(states, actions, n);
    if Actor(actions[n]) == Some(t) {
      OwnCarries(states[n], actions[n], t, r, d);
    } else {
      OtherCarries(states[n], actions[n], t, r, d);
    }
  }

  /** What is deferred stays so until OnExit. */
  lemma {:induction false} DeferralStays(states: seq<State>, actions: seq<Action>, i: nat, n: nat, t: nat)
    requires IsCarefulRun(states, actions) && i < n <= |actions|
    requires Actor(actions[i]) == Some(t) && DeferredBy(actions[i]).Some?
    requires t < |states[i + 1].threads| && states[i + 1].threads[t].phase.Yielded?
    requires forall j | i < j < n :: actions[j] != Exit(t)
    ensures t < |states[i].threads| && states[i].threads[t].phase.Body?
    ensures Carries(states[n], t, states[i].threads[t].phase.r, DeferredBy(actions[i]).value)
  {
    StoredInRun(states, actions, i, t);
    if n > i + 1 {
      DeferralStays(states, actions, i, n - 1, t);
      CarriedInRun(states, actions, n - 1, t, states[i].threads[t].phase.r, DeferredBy(actions[i]).value);
    }
  }

  lemma ExitTakes(s: State, t: nat, r: RunnerId, d: Deferral)
    requires Carries(s, t, r, d) && Enabled(s, Exit(t)) && Defined(s, Exit(t))
    ensures var s', g := Do(s, Exit(t)), |s.groups|;
            && s'.threads[t].phase == PhaseOf(d, r, g)
            && (KindOf(d) == None ==> s'.groups == s.groups)
            && (KindOf(d).Some? ==>
                  && |s'.groups| == g + 1 && s'.groups[..g] == s.groups
                  && s'.groups[g].kind == KindOf(d).value && s'.groups[g].owner == r
                     && s'.groups[g].size == Handlers(d))
  {
  }

  lemma TakenInRun(states: seq<State>, actions: seq<Action>, n: nat, t: nat, r: RunnerId, d: Deferral)
    requires IsCarefulRun(states, actions) && n < |actions| && Carries(states[n], t, r, d) && actions[n] == Exit(t)
    ensures t < |states[n + 1].threads|
    ensures var g := |states[n].groups|;
            && states[n + 1].threads[t].phase == PhaseOf(d, r, g)
            && (KindOf(d) == None ==> states[n + 1].groups == states[n].groups)
            && (KindOf(d).Some? ==>
                  && |states[n + 1].groups| == g + 1 && states[n + 1].groups[..g] == states[n].groups
                  && states[n + 1].groups[g].kind == KindOf(d).value && states[n + 1].groups[g].owner == r
                  && states[n + 1].groups[g].size == Handlers(d))
  {
    RunsAreSafe(states, actions, n);
    ExitTakes(states[n], t, r, d);
  }

  /** Whatever a body defers is what OnExit finds and acts on when it is next called on this thread. */
  lemma DeferralIsTaken(states: seq<State>, actions: seq<Action>, i: nat, n: nat, t: nat)
    requires IsCarefulRun(states, actions) && i < n < |actions|
    requires Actor(actions[i]) == Some(t) && DeferredBy(actions[i]).Some?
    requires t < |states[i + 1].threads| && states[i + 1].threads[t].phase.Yielded?
    requires actions[n] == Exit(t) && forall j | i < j < n :: actions[j] != Exit(t)
    ensures t < |states[i].threads| && states[i].threads[t].phase.Body? && t < |states[n + 1].threads|
    ensures var d, r, g := DeferredBy(actions[i]).value, states[i].threads[t].phase.r, |states[n].groups|;
            && states[n + 1].threads[t].phase == PhaseOf(d, r, g)
            && (KindOf(d) == None ==> states[n + 1].groups == states[n].groups)
            && (KindOf(d).Some? ==>
                  && |states[n + 1].groups| == g + 1 && states[n + 1].groups[..g] == states[n].groups
                  && states[n + 1].groups[g].kind == KindOf(d).value && states[n + 1].groups[g].owner == r
                  && states[n + 1].groups[g].size == Handlers(d))
  {
    DeferralStays(states, actions, i, n, t);
    TakenInRun(states, actions, n, t, states[i].threads[t].phase.r, DeferredBy(actions[i]).value);
  }

  lemma {:induction false} ShapeStays(states: seq<State>, actions: seq<Action>, m: nat, n: nat, g: GroupId)
    requires IsCarefulRun(states, actions) && m <= n <= |actions| && g < |states[m].groups|
    ensures g < |states[n].groups| && states[n].groups[g].kind == states[m].groups[g].kind
    ensures states[n].groups[g].owner == states[m].groups[g].owner
            && states[n].groups[g].size == states[m].groups[g].size
  {
    if m < n {
      ShapeStays(states, actions, m, n - 1, g);
      ShapeInRun(states, actions, n - 1, g);
    }
  }

  /**
   * The step `i` suspends a body in RunAsyncWait, RunAsyncAnyWait or RunAsyncAnyResult with the handlers of `d`, and
   * the next OnExit on its thread is step `j`, which makes the pointer `g` of this call.
   */
  ghost predicate Calls(states: seq<State>, actions: seq<Action>, i: nat, j: nat, t: nat, d: Deferral, g: GroupId) {
    && IsCarefulRun(states, actions) && i < j < |actions|
    && actions[i] == Suspend(t, d) && (d.RunAll? || d.RunAnyIndex? || d.RunAnyValue?)
    && actions[j] == Exit(t) && (forall k | i < k < j :: actions[k] != Exit(t))
    && g == |states[j].groups|
  }

  lemma CallIsMade(states: seq<State>, actions: seq<Action>, i: nat, j: nat, n: nat, t: nat, d: Deferral, g: GroupId)
    requires Calls(states, actions, i, j, t, d, g) && j < n <= |actions|
    ensures g < |states[n].groups| && states[n].groups[g].kind == KindOf(d).value
    ensures t < |states[i].threads| && states[i].threads[t].phase.Body?
    ensures states[n].groups[g].owner == states[i].threads[t].phase.r && states[n].groups[g].size == Handlers(d)
  {
    StoredInRun(states, actions, i, t);
    DeferralIsTaken(states, actions, i, j, t);
    ShapeStays(states, actions, j + 1, n, g);
  }

  lemma GroupInRun(states: seq<State>, actions: seq<Action>, n: nat, g: GroupId)
    requires IsCarefulRun(states, actions) && n <= |actions| && g < |states[n].groups|
    ensures GroupOk(states[n], g)
  {
    RunsAreSafe(states, actions, n);
  }

  lemma PrefixIsReachable(states: seq<State>, actions: seq<Action>, n: nat)
    requires IsCarefulRun(states, actions) && n <= |actions|
    ensures Reachable(states[n])
  {
    assert IsCarefulRun(states[..n + 1], actions[..n]);
  }

  /** The handlers of a call are started one by one, and its loop ends exactly when all of them were. */
  lemma HandlersAllStart(states: seq<State>, actions: seq<Action>, i: nat, j: nat, n: nat, t: nat, d: Deferral,
                         g: GroupId)
    requires Calls(states, actions, i, j, t, d, g) && j < n <= |actions|
    ensures g < |states[n].groups| && states[n].groups[g].kind == KindOf(d).value
    ensures t < |states[i].threads| && states[i].threads[t].phase.Body?
    ensures states[n].groups[g].owner == states[i].threads[t].phase.r && states[n].groups[g].size == Handlers(d)
    ensures states[n].groups[g].spawned == Started(states, actions, n, g) <= Handlers(d)
    ensures LoopEnded(states, actions, n, g) ==> Started(states, actions, n, g) == Handlers(d)
    ensures LoopEnded(states, actions, n, g) <==> states[n].groups[g].hold == Released
    ensures states[n].groups[g].proceeds > 0 ==> LoopEnded(states, actions, n, g)
  {
    CallIsMade(states, actions, i, j, n, t, d, g);
    ChildrenAreCounted(states, actions, n, g);
    GroupInRun(states, actions, n, g);
  }

  /** No child that was started for the call is left in memory. */
  ghost predicate AllGone(states: seq<State>, actions: seq<Action>, n: nat, g: GroupId)
    requires |states| == |actions| + 1 && n <= |actions|
  {
    forall c | c in states[n].runners :: !IsChildOf(states, actions, n, g, c)
  }

  lemma GoneIsUnheld(states: seq<State>, actions: seq<Action>, n: nat, g: GroupId)
    requires IsCarefulRun(states, actions) && n <= |actions|
    ensures AllGone(states, actions, n, g) <==> Holders(states[n], g) == {}
  {
    forall c | c in states[n].runners
      ensures states[n].runners[c].holds == Some(g) <==> IsChildOf(states, actions, n, g, c)
    {
      HoldersAreChildren(states, actions, n, g, c);
    }
    if c :| c in Holders(states[n], g) { assert IsChildOf(states, actions, n, g, c); }
    if !AllGone(states, actions, n, g) {
      var c :| c in states[n].runners && IsChildOf(states, actions, n, g, c);
      assert c in Holders(states[n], g);
    }
  }

  /** RunAsyncWait with n handlers: `proceed` has been called exactly if all n were started and all of them are gone. */
  lemma WaitStartsAll(states: seq<State>, actions: seq<Action>, i: nat, j: nat, n: nat, t: nat, d: Deferral, g: GroupId)
    requires Calls(states, actions, i, j, t, d, g) && j < n <= |actions| && d.RunAll?
    ensures g < |states[n].groups| && states[n].groups[g].proceeds <= 1
    ensures states[n].groups[g].proceeds == 1 <==>
            LoopEnded(states, actions, n, g) && AllGone(states, actions, n, g)
    ensures states[n].groups[g].proceeds == 1 ==> Started(states, actions, n, g) == d.n
  {
    HandlersAllStart(states, actions, i, j, n, t, d, g);
    GoneIsUnheld(states, actions, n, g);
    PrefixIsReachable(states, actions, n);
    WaitForAll(states[n], g);
  }

  /**
   * RunAsyncAnyResult with n handlers: an empty result means that all n were started, none has given a result, and all
   * of them are gone.
   */
  lemma AnyResultStartsAll(states: seq<State>, actions: seq<Action>, i: nat, j: nat, n: nat, t: nat, d: Deferral,
                           g: GroupId)
    requires Calls(states, actions, i, j, t, d, g) && j < n <= |actions| && d.RunAnyValue?
    ensures g < |states[n].groups|
    ensures states[n].groups[g].proceeds == 1 ==>
              && states[n].groups[g].slot == Some(FirstYield(states, actions, g, n))
              && (FirstYield(states, actions, g, n) == None ==>
                    Started(states, actions, n, g) == d.n && AllGone(states, actions, n, g))
    ensures LoopEnded(states, actions, n, g) && AllGone(states, actions, n, g) ==>
              Started(states, actions, n, g) == d.n && states[n].groups[g].proceeds == 1
  {
    HandlersAllStart(states, actions, i, j, n, t, d, g);
    GoneIsUnheld(states, actions, n, g);
    AnyResultDeliversFirst(states, actions, g, n);
    ChildrenAreCounted(states, actions, n, g);
  }

  /** RunAsyncAnyWait with n handlers: the index delivered is below n, and no other handler has returned before. */
  lemma AnyWaitStartsAll(states: seq<State>, actions: seq<Action>, i: nat, j: nat, n: nat, t: nat, d: Deferral,
                         g: GroupId)
    requires Calls(states, actions, i, j, t, d, g) && j < n <= |actions| && d.RunAnyIndex?
    ensures g < |states[n].groups|
    ensures states[n].groups[g].proceeds == 1 ==>
              && Started(states, actions, n, g) == d.n
              && FirstYield(states, actions, g, n).Some? && 0 <= FirstYield(states, actions, g, n).value < d.n
              && states[n].groups[g].slot == Some(FirstYield(states, actions, g, n))
    ensures LoopEnded(states, actions, n, g) && AllGone(states, actions, n, g) ==>
              && Started(states, actions, n, g) == d.n
              && (states[n].groups[g].proceeds == 1 <==> FirstYield(states, actions, g, n).Some?)
  {
    HandlersAllStart(states, actions, i, j, n, t, d, g);
    GoneIsUnheld(states, actions, n, g);
    AnyWaitDeliversFirst(states, actions, g, n);
  }

  /** Waiter: a Wait that has let its caller go on was for every task that was started through the pointer. */
  lemma WaiterWaitsForAll(states: seq<State>, actions: seq<Action>, n: nat, g: GroupId)
    requires IsCarefulRun(states, actions) && n <= |actions|
    requires g < |states[n].groups| && states[n].groups[g].kind == Waiting
    ensures states[n].groups[g].proceeds == 1 <==>
            states[n].groups[g].hold == Released && AllGone(states, actions, n, g)
  {
    GoneIsUnheld(states, actions, n, g);
    PrefixIsReachable(states, actions, n);
    WaiterWaits(states[n], g);
  }

  // ----- The pointer to the current coroutine

  /** The thread is inside an activation of Resume that has saved `saved`. */
  predicate Resumed(s: State, t: nat, saved: Option<RunnerId>) {
    && t < |s.threads|
    && (s.threads[t].phase.Body? || s.threads[t].phase.Yielded?) && s.threads[t].phase.frame == FromResume(saved)
  }

  lemma OwnResumed(s: State, a: Action, t: nat, saved: Option<RunnerId>)
    requires Enabled(s, a) && Defined(s, a) && Resumed(s, t, saved) && Actor(a) == Some(t) && !a.Return?
    ensures Resumed(Do(s, a), t, saved)
  {
  }

  lemma ResumedInRun(states: seq<State>, actions: seq<Action>, n: nat, t: nat, saved: Option<RunnerId>)
    requires IsCarefulRun(states, actions) && n < |actions| && Resumed(states[n], t, saved) && actions[n] != Return(t)
    ensures Resumed(states[n + 1], t, saved)
  {
    RunsAreSafe(states, actions, n);
    if Actor(actions[n]) == Some(t) {
      OwnResumed(states[n], actions[n], t, saved);
    } else {
      StepLeavesOthers(states[n], actions[n], t);
    }
  }

  lemma {:induction false} StaysResumed(states: seq<State>, actions: seq<Action>, i: nat, n: nat, t: nat, k: nat)
    requires IsCarefulRun(states, actions) && i < n <= |actions| && actions[i] == Begin(t, k)
    requires k in states[i].posted && !states[i].posted[k].start
    requires forall j | i < j < n :: actions[j] != Return(t)
    ensures t < |states[i].threads| && Resumed(states[n], t, states[i].threads[t].tlsCoro)
  {
    RunsAreSafe(states, actions, i);
    if n > i + 1 {
      StaysResumed(states, actions, i, n - 1, t, k);
      ResumedInRun(states, actions, n - 1, t, states[i].threads[t].tlsCoro);
    }
  }

  /** Resume puts back the pointer that the thread had before it. */
  lemma ResumeRestores(states: seq<State>, actions: seq<Action>, i: nat, n: nat, t: nat, k: nat)
    requires IsCarefulRun(states, actions) && i < n < |actions| && actions[i] == Begin(t, k)
    requires k in states[i].posted && !states[i].posted[k].start
    requires actions[n] == Return(t) && forall j | i < j < n :: actions[j] != Return(t)
    ensures t < |states[i].threads| && t < |states[n + 1].threads|
    ensures states[n + 1].threads[t].tlsCoro == states[i].threads[t].tlsCoro
  {
    StaysResumed(states, actions, i, n, t, k);
    RunsAreSafe(states, actions, n);
  }

  /** A coroutine that yields leaves the pointer where it is, and one that ends resets it. */
  predicate LeavesPointer(th: Thread) {
    th.phase.Yielded? ==> th.tlsCoro == if th.phase.ended then None else Some(th.phase.r)
  }

  lemma OwnLeavesPointer(s: State, a: Action, t: nat)
    requires ThreadsOk(s) && Enabled(s, a) && Defined(s, a) && Actor(a) == Some(t) && LeavesPointer(s.threads[t])
    ensures t < |Do(s, a).threads| && LeavesPointer(Do(s, a).threads[t])
  {
    assert ThreadOk(s, t);
    if a.LoopEnd? || a.Drop? || a.Destroy? { ReleaseClears(s, a); }
  }

  lemma ReleaseClears(s: State, a: Action)
    requires Enabled(s, a) && Defined(s, a) && (a.LoopEnd? || a.Drop? || a.Destroy?)
    ensures a.t < |Do(s, a).threads| && Do(s, a).threads[a.t].phase.Clearing?
  {
    if a.Destroy? {
      var h := s.runners[s.threads[a.t].phase.r].holds;
      if h.Some? { AfterReleaseLeavesAll(Destroyed(s, a.t), h.value); }
    } else {
      var s0 := if a.LoopEnd? then s.(exclusive := None) else s;
      var r, h := s.threads[a.t].phase.r, s.threads[a.t].phase.g;
      AfterReleaseLeavesAll(LettingGo(s0, a.t, r, h), h);
    }
  }

  lemma {:induction false} PointerAfterYield(states: seq<State>, actions: seq<Action>, n: nat, t: nat)
    requires IsCarefulRun(states, actions) && n <= |actions| && t < |states[n].threads|
    ensures LeavesPointer(states[n].threads[t])
  {
    if n > 0 {
      RunsAreSafe(states, actions, n - 1);
      StepKeepsSize(states[n - 1], actions[n - 1]);
      PointerAfterYield(states, actions, n - 1, t);
      if Actor(actions[n - 1]) == Some(t) {
        OwnLeavesPointer(states[n - 1], actions[n - 1], t);
      } else {
        StepLeavesOthers(states[n - 1], actions[n - 1], t);
      }
    }
  }
}
