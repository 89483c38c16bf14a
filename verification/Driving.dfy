/**
 * Any busy thread can be led to idleness by its own steps, whatever the others do meanwhile, and a runner that
 * waits in a queue or with the world is not touched by that.
 */
module Driving {
  import opened Options
  import opened Runtime
  import opened RuntimeInvariant
  import opened RuntimeSteps
  import opened RuntimeSafety
  import opened RuntimeTheorems
  import opened RuntimeRuns

  predicate Without(actions: seq<Action>, t: nat) {
    forall i | 0 <= i < |actions| :: Actor(actions[i]) != Some(t)
  }

  // ----- Other threads do not touch a thread

  lemma BodyLeavesOthers(s: State, a: Action, t: nat)
    requires Enabled(s, a) && Defined(s, a) && OfBody(a) && t < |s.threads| && Actor(a) != Some(t)
    ensures |Do(s, a).threads| == |s.threads| && Do(s, a).threads[t] == s.threads[t]
  {
  }

  lemma AfterReleaseLeavesAll(s: State, g: GroupId)
    requires g < |s.groups| && (DeleterProceeds(s.groups[g]) ==> s.groups[g].owner in s.runners)
    ensures AfterRelease(s, g).threads == s.threads
  {
  }

  lemma ReleaseLeavesOthers(s: State, a: Action, t: nat)
    requires Enabled(s, a) && Defined(s, a) && (a.LoopEnd? || a.Drop? || a.Destroy?)
    requires t < |s.threads| && Actor(a) != Some(t)
    ensures |Do(s, a).threads| == |s.threads| && Do(s, a).threads[t] == s.threads[t]
  {
    if a.Destroy? {
      var h := s.runners[s.threads[a.t].phase.r].holds;
      if h.Some? { AfterReleaseLeavesAll(Destroyed(s, a.t), h.value); }
    } else {
      var s0 := if a.LoopEnd? then s.(exclusive := None) else s;
      var r, g := s.threads[a.t].phase.r, s.threads[a.t].phase.g;
      AfterReleaseLeavesAll(LettingGo(s0, a.t, r, g), g);
    }
  }

  lemma ExitLeavesOthers(s: State, a: Action, t: nat)
    requires Enabled(s, a) && Defined(s, a) && !OfBody(a) && !a.LoopEnd? && !a.Drop? && !a.Destroy?
    requires t < |s.threads| && Actor(a) != Some(t)
    ensures |Do(s, a).threads| == |s.threads| && Do(s, a).threads[t] == s.threads[t]
  {
  }

  lemma StepLeavesOthers(s: State, a: Action, t: nat)
    requires Enabled(s, a) && Defined(s, a) && t < |s.threads| && Actor(a) != Some(t)
    ensures |Do(s, a).threads| == |s.threads| && Do(s, a).threads[t] == s.threads[t]
  {
    if OfBody(a) {
      BodyLeavesOthers(s, a, t);
    } else if a.LoopEnd? || a.Drop? || a.Destroy? {
      ReleaseLeavesOthers(s, a, t);
    } else {
      ExitLeavesOthers(s, a, t);
    }
  }

  lemma {:induction false} OthersLeave(s: State, actions: seq<Action>, s': State, t: nat)
    requires Leads(s, actions, s') && Without(actions, t) && t < |s.threads|
    ensures |s'.threads| == |s.threads| && s'.threads[t] == s.threads[t]
    decreases |actions|
  {
    if actions != [] {
      StepLeavesOthers(s, actions[0], t);
      assert Without(actions[1..], t);
      OthersLeave(Do(s, actions[0]), actions[1..], s', t);
    }
  }

  lemma {:induction false} ThreadsStay(s: State, actions: seq<Action>, s': State)
    requires Leads(s, actions, s')
    ensures |s'.threads| == |s.threads|
    decreases |actions|
  {
    if actions != [] {
      StepKeepsSize(s, actions[0]);
      ThreadsStay(Do(s, actions[0]), actions[1..], s');
    }
  }

  lemma StepKeepsSize(s: State, a: Action)
    requires Enabled(s, a) && Defined(s, a)
    ensures |Do(s, a).threads| == |s.threads|
  {
    if a.LoopEnd? || a.Drop? || a.Destroy? { ReleaseKeepsSize(s, a); }
  }

  lemma ReleaseKeepsSize(s: State, a: Action)
    requires Enabled(s, a) && Defined(s, a) && (a.LoopEnd? || a.Drop? || a.Destroy?)
    ensures |Do(s, a).threads| == |s.threads|
  {
    if a.Destroy? {
      var h := s.runners[s.threads[a.t].phase.r].holds;
      if h.Some? { AfterReleaseLeavesAll(Destroyed(s, a.t), h.value); }
    } else {
      var s0 := if a.LoopEnd? then s.(exclusive := None) else s;
      var r, h := s.threads[a.t].phase.r, s.threads[a.t].phase.g;
      AfterReleaseLeavesAll(LettingGo(s0, a.t, r, h), h);
    }
  }

  // ----- Runners that wait for a thread only

  /** The runner is in a queue, or the world holds its `proceed`. */
  predicate Waits(s: State, c: RunnerId, p: Place) {
    At(s, p) == Some(c) && (p.InQueue? || (p.AtGroup? && s.groups[p.g].kind == External))
  }

  /** It waits there as before, and nothing has happened to it. */
  predicate StillWaits(s: State, s': State, c: RunnerId, p: Place)
    requires Waits(s, c, p)
  {
    && Waits(s', c, p) && s'.strands == s.strands
    && c in s.runners && c in s'.runners && s'.runners[c] == s.runners[c]
    && (p.InQueue? ==> s'.posted[p.ticket] == s.posted[p.ticket])
    && (forall g | g in s'.calls :: g < |s.groups| ==> g in s.calls)
    && |s.groups| <= |s'.groups| && (forall g | 0 <= g < |s.groups| :: s'.groups[g].kind == s.groups[g].kind)
  }

  // ----- One step

  /** Neither the thread's runner, nor a group of its own, is what the other runner waits with. */
  ghost predicate Elsewhere(s: State, t: nat, c: RunnerId, p: Place) {
    && t < |s.threads| && Occupant(s.threads[t].phase) != Some(c)
    && (s.threads[t].phase.Calling? || s.threads[t].phase.Looping? || s.threads[t].phase.Dropping? ==>
          p != AtGroup(s.threads[t].phase.g))
  }

  lemma IsElsewhere(s: State, t: nat, c: RunnerId, p: Place)
    requires Placed(s) && ThreadsOk(s) && t < |s.threads| && Waits(s, c, p)
    ensures Elsewhere(s, t, c, p) && c in s.runners
  {
    assert ThreadOk(s, t);
    assert At(s, OnThread(t)) == Occupant(s.threads[t].phase);
  }

  lemma PlainSpares(s: State, a: Action, c: RunnerId, p: Place)
    requires Enabled(s, a) && Defined(s, a) && s.nextTicket !in s.posted && Waits(s, c, p) && c in s.runners
    requires a.End? || a.Return? || a.CallbackEnd? || a.Clear? || a.HandOver? || a.ProceedNow?
    requires Elsewhere(s, a.t, c, p)
    ensures StillWaits(s, Do(s, a), c, p)
  {
  }

  lemma LeavingSpares(s: State, t: nat, c: RunnerId, p: Place)
    requires t < |s.threads| && s.threads[t].phase.Exiting? && s.threads[t].phase.r in s.runners
    requires Waits(s, c, p) && c in s.runners && Elsewhere(s, t, c, p)
    ensures StillWaits(s, Leaving(s, t), c, p)
  {
  }

  lemma SpawnSpares(s: State, t: nat, c: RunnerId, p: Place)
    requires Enabled(s, SpawnNext(t)) && Defined(s, SpawnNext(t)) && s.nextTicket !in s.posted
             && s.nextRunner !in s.runners
    requires Waits(s, c, p) && c in s.runners && Elsewhere(s, t, c, p)
    ensures StillWaits(s, Do(s, SpawnNext(t)), c, p)
  {
  }

  lemma DeliverSpares(s: State, t: nat, c: RunnerId, p: Place)
    requires Enabled(s, Deliver(t)) && Defined(s, Deliver(t)) && s.nextTicket !in s.posted
    requires Waits(s, c, p) && c in s.runners && Elsewhere(s, t, c, p)
    requires IsAny(s.groups[s.runners[s.threads[t].phase.r].holds.value].kind)
    ensures StillWaits(s, Do(s, Deliver(t)), c, p)
  {
  }

  lemma AfterReleaseSpares(s: State, h: GroupId, c: RunnerId, p: Place)
    requires h < |s.groups| && (DeleterProceeds(s.groups[h]) ==> s.groups[h].owner in s.runners)
    requires Waits(s, c, p) && c in s.runners && s.nextTicket !in s.posted
    ensures StillWaits(s, AfterRelease(s, h), c, p)
  {
  }

  lemma LettingGoSpares(s: State, t: nat, r: RunnerId, h: GroupId, c: RunnerId, p: Place)
    requires t < |s.threads| && h < |s.groups| && s.groups[h].refs > 0
    requires Waits(s, c, p) && c in s.runners
    ensures StillWaits(s, LettingGo(s, t, r, h), c, p)
  {
  }

  lemma DestroyedSpares(s: State, t: nat, c: RunnerId, p: Place)
    requires Enabled(s, Destroy(t)) && Defined(s, Destroy(t))
    requires Waits(s, c, p) && c in s.runners && Elsewhere(s, t, c, p)
    ensures StillWaits(s, Destroyed(s, t), c, p)
  {
  }

  lemma ReleaseSpares(s: State, a: Action, c: RunnerId, p: Place)
    requires Enabled(s, a) && Defined(s, a) && s.nextTicket !in s.posted && Waits(s, c, p) && c in s.runners
    requires (a.LoopEnd? || a.Drop? || a.Destroy?) && Elsewhere(s, a.t, c, p)
    ensures StillWaits(s, Do(s, a), c, p)
  {
    if a.Destroy? {
      DestroyedSpares(s, a.t, c, p);
      var h := s.runners[s.threads[a.t].phase.r].holds;
      if h.Some? { AfterReleaseSpares(Destroyed(s, a.t), h.value, c, p); }
    } else {
      var s0 := if a.LoopEnd? then s.(exclusive := None) else s;
      var r, h := s.threads[a.t].phase.r, s.threads[a.t].phase.g;
      LettingGoSpares(s0, a.t, r, h, c, p);
      AfterReleaseSpares(LettingGo(s0, a.t, r, h), h, c, p);
    }
  }

  /** How far a thread is from idleness: its phase, and the children it has yet to start. */
  function Rank(s: State, t: nat): nat
    requires t < |s.threads|
  {
    match s.threads[t].phase
    case Idle => 0
    case Clearing(_) => 1
    case Tail(_, _) => 2
    case Exiting(_) => 5
    case Yielded(_, _, _) => 6
    case Body(r, _) => if r in s.runners && s.runners[r].progress.Won? then 8 else 7
    case _ => 3
  }

  function Turns(s: State, t: nat): nat
    requires t < |s.threads|
  {
    match s.threads[t].phase
    case Looping(_, g) =>
      if g < |s.groups| && s.groups[g].spawned < s.groups[g].size then s.groups[g].size - s.groups[g].spawned else 0
    case _ => 0
  }

  predicate Nearer(s: State, s': State, t: nat)
    requires t < |s.threads|
  {
    && |s'.threads| == |s.threads|
    && (Rank(s', t) < Rank(s, t) || (Rank(s', t) == Rank(s, t) && Turns(s', t) < Turns(s, t)))
  }

  lemma PlainIsNearer(s: State, a: Action)
    requires Enabled(s, a) && Defined(s, a)
    requires a.End? || a.Return? || a.CallbackEnd? || a.Clear? || a.HandOver? || a.ProceedNow?
    ensures Nearer(s, Do(s, a), a.t)
  {
  }

  lemma LeavingIsNearer(s: State, t: nat)
    requires t < |s.threads| && s.threads[t].phase.Exiting? && s.threads[t].phase.r in s.runners
    ensures Nearer(s, Leaving(s, t), t)
  {
  }

  lemma DeliverIsNearer(s: State, t: nat)
    requires Enabled(s, Deliver(t)) && Defined(s, Deliver(t))
    ensures Nearer(s, Do(s, Deliver(t)), t)
  {
  }

  lemma SpawnIsNearer(s: State, t: nat)
    requires Enabled(s, SpawnNext(t)) && Defined(s, SpawnNext(t))
    ensures Nearer(s, Do(s, SpawnNext(t)), t)
  {
  }

  lemma ReleaseIsNearer(s: State, a: Action)
    requires Enabled(s, a) && Defined(s, a) && (a.LoopEnd? || a.Drop? || a.Destroy?)
    ensures Nearer(s, Do(s, a), a.t)
  {
    if a.Destroy? {
      var h := s.runners[s.threads[a.t].phase.r].holds;
      if h.Some? { AfterReleaseLeavesAll(Destroyed(s, a.t), h.value); }
    } else {
      var s0 := if a.LoopEnd? then s.(exclusive := None) else s;
      var r, h := s.threads[a.t].phase.r, s.threads[a.t].phase.g;
      AfterReleaseLeavesAll(LettingGo(s0, a.t, r, h), h);
    }
  }

  // ----- All the steps

  /** The steps that lead on from a phase. */
  predicate LeadsOut(a: Action) {
    || a.Deliver? || a.End? || a.Return? || a.Exit? || a.SpawnNext? || a.LoopEnd? || a.HandOver? || a.CallbackEnd?
    || a.Drop? || a.ProceedNow? || a.Destroy? || a.Clear?
  }

  lemma StepSpares(s: State, a: Action, c: RunnerId, p: Place)
    requires s.nextTicket !in s.posted && s.nextRunner !in s.runners && Waits(s, c, p) && c in s.runners
    requires Enabled(s, a) && Defined(s, a) && LeadsOut(a) && Elsewhere(s, a.t, c, p)
    requires a.Deliver? ==> IsAny(s.groups[s.runners[s.threads[a.t].phase.r].holds.value].kind)
    ensures StillWaits(s, Do(s, a), c, p)
  {
    if a.Deliver? {
      DeliverSpares(s, a.t, c, p);
    } else if a.SpawnNext? {
      SpawnSpares(s, a.t, c, p);
    } else if a.Exit? {
      LeavingSpares(s, a.t, c, p);
    } else if a.LoopEnd? || a.Drop? || a.Destroy? {
      ReleaseSpares(s, a, c, p);
    } else {
      PlainSpares(s, a, c, p);
    }
  }

  lemma StepIsNearer(s: State, a: Action)
    requires Enabled(s, a) && Defined(s, a) && LeadsOut(a)
    ensures Nearer(s, Do(s, a), a.t)
  {
    if a.SpawnNext? {
      SpawnIsNearer(s, a.t);
    } else if a.LoopEnd? || a.Drop? || a.Destroy? {
      ReleaseIsNearer(s, a);
    } else if a.Exit? {
      LeavingIsNearer(s, a.t);
    } else if a.Deliver? {
      DeliverIsNearer(s, a.t);
    } else {
      PlainIsNearer(s, a);
    }
  }

  /** A busy thread has a step. */
  lemma HasStep(s: State, t: nat) returns (a: Action)
    requires t < |s.threads| && ThreadOk(s, t) && s.threads[t].phase != Idle
    requires s.exclusive == None || s.exclusive == Some(t)
    ensures Enabled(s, a) && Actor(a) == Some(t) && LeadsOut(a)
  {
    a := NextStep(s, t);
  }

  lemma DeliversToAny(s: State, t: nat)
    requires RunnersOk(s) && Enabled(s, Deliver(t)) && Defined(s, Deliver(t))
    ensures IsAny(s.groups[s.runners[s.threads[t].phase.r].holds.value].kind)
  {
    assert RunnerOk(s, s.threads[t].phase.r);
  }

  /** One step of a busy thread. */
  lemma OwnHop(s: State, t: nat, c: RunnerId, p: Place) returns (a: Action, s1: State)
    requires Inv(s) && t < |s.threads| && s.threads[t].phase != Idle && (s.exclusive == None || s.exclusive == Some(t))
    requires Waits(s, c, p)
    ensures Hops(s, a, s1) && Inv(s1) && Actor(a) == Some(t) && LeadsOut(a)
    ensures StillWaits(s, s1, c, p) && Nearer(s, s1, t)
    ensures s1.exclusive == None || s1.exclusive == Some(t)
  {
    assert ThreadOk(s, t);
    a := HasStep(s, t);
    StepKeeps(s, a);
    NumbersAreNew(s);
    IsElsewhere(s, t, c, p);
    if a.Deliver? { DeliversToAny(s, t); }
    StepSpares(s, a, c, p);
    StepIsNearer(s, a);
    StaysWith(s, a, t);
    s1 := Do(s, a);
  }

  lemma StaysWith(s: State, a: Action, t: nat)
    requires Enabled(s, a) && Defined(s, a) && Actor(a) == Some(t) && (s.exclusive == None || s.exclusive == Some(t))
    ensures Do(s, a).exclusive == None || Do(s, a).exclusive == Some(t)
  {
    if a.Destroy? || a.LoopEnd? || a.Drop? { ReleaseStaysWith(s, a, t); }
  }

  lemma AfterReleaseKeepsExclusive(s: State, g: GroupId)
    requires g < |s.groups| && (DeleterProceeds(s.groups[g]) ==> s.groups[g].owner in s.runners)
    ensures AfterRelease(s, g).exclusive == s.exclusive
  {
  }

  lemma ReleaseStaysWith(s: State, a: Action, t: nat)
    requires Enabled(s, a) && Defined(s, a) && Actor(a) == Some(t) && (a.LoopEnd? || a.Drop? || a.Destroy?)
    ensures Do(s, a).exclusive == None || Do(s, a).exclusive == s.exclusive
  {
    if a.Destroy? {
      var h := s.runners[s.threads[t].phase.r].holds;
      if h.Some? { AfterReleaseKeepsExclusive(Destroyed(s, t), h.value); }
    } else {
      var s0 := if a.LoopEnd? then s.(exclusive := None) else s;
      var r, h := s.threads[t].phase.r, s.threads[t].phase.g;
      AfterReleaseKeepsExclusive(LettingGo(s0, t, r, h), h);
    }
  }

  /** The actions of one thread, none of which starts an operation of its own. */
  predicate OfThread(actions: seq<Action>, t: nat) {
    forall i | 0 <= i < |actions| :: Actor(actions[i]) == Some(t) && LeadsOut(actions[i])
  }

  lemma StillWaitsOn(s: State, s1: State, s2: State, c: RunnerId, p: Place)
    requires Waits(s, c, p) && StillWaits(s, s1, c, p) && StillWaits(s1, s2, c, p)
    ensures StillWaits(s, s2, c, p)
  {
  }

  /** The actions of the thread lead to idleness, and touch no runner that waits. */
  ghost predicate Idles(s: State, actions: seq<Action>, s': State, t: nat, c: RunnerId, p: Place)
    requires Waits(s, c, p)
  {
    && Leads(s, actions, s') && OfThread(actions, t) && StillWaits(s, s', c, p)
    && t < |s'.threads| && s'.threads[t].phase == Idle && s'.exclusive == None
  }

  lemma IdlesAlready(s: State, t: nat, c: RunnerId, p: Place)
    requires Inv(s) && t < |s.threads| && s.threads[t].phase == Idle && (s.exclusive == None || s.exclusive == Some(t))
    requires Waits(s, c, p)
    ensures Idles(s, [], s, t, c, p)
  {
    IsElsewhere(s, t, c, p);
  }

  lemma IdlesAfter(s: State, a: Action, s1: State, rest: seq<Action>, s': State, t: nat, c: RunnerId, p: Place)
    requires Waits(s, c, p) && Hops(s, a, s1) && Actor(a) == Some(t) && LeadsOut(a) && StillWaits(s, s1, c, p)
    requires Idles(s1, rest, s', t, c, p)
    ensures Idles(s, [a] + rest, s', t, c, p)
  {
    HopFirst(s, a, s1, rest, s');
    StillWaitsOn(s, s1, s', c, p);
  }

  /** Its own steps lead any thread to idleness. */
  lemma {:induction false} DriveToIdle(s: State, t: nat, c: RunnerId, p: Place)
    returns (actions: seq<Action>, s': State)
    requires Inv(s) && t < |s.threads| && (s.exclusive == None || s.exclusive == Some(t)) && Waits(s, c, p)
    ensures Idles(s, actions, s', t, c, p)
    decreases Rank(s, t), Turns(s, t)
  {
    if s.threads[t].phase == Idle {
      IdlesAlready(s, t, c, p);
      actions, s' := [], s;
    } else {
      var a, s1 := OwnHop(s, t, c, p);
      var rest;
      rest, s' := DriveToIdle(s1, t, c, p);
      IdlesAfter(s, a, s1, rest, s', t, c, p);
      actions := [a] + rest;
    }
  }

  /** Meanwhile the other threads stay where they are. */
  lemma OthersAsBefore(s: State, actions: seq<Action>, s': State, u: nat)
    requires Leads(s, actions, s') && OfThread(actions, u) && u < |s.threads|
    ensures |s'.threads| == |s.threads|
    ensures forall v | 0 <= v < |s.threads| && v != u :: s'.threads[v] == s.threads[v]
  {
    ThreadsStay(s, actions, s');
    forall v | 0 <= v < |s.threads| && v != u
      ensures s'.threads[v] == s.threads[v]
    {
      OthersLeave(s, actions, s', v);
    }
  }
}
