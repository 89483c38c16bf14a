/** Runs step by step: what a list of actions leads to, and the runs with which the examples begin. */
module RuntimeRuns {
  import opened Options
  import opened Runtime
  import opened RuntimeInvariant
  import opened RuntimeSafety
  import opened RuntimeTails

  /** The actions may be taken one after the other, safely, and lead from `s` to `s'`. */
  ghost predicate Leads(s: State, actions: seq<Action>, s': State)
    decreases |actions|
  {
    if actions == [] then s == s'
    else Enabled(s, actions[0]) && Defined(s, actions[0]) && Leads(Do(s, actions[0]), actions[1..], s')
  }

  lemma LeadsFirst(s: State, a: Action, actions: seq<Action>, s': State)
    requires Enabled(s, a) && Defined(s, a) && Leads(Do(s, a), actions, s')
    ensures Leads(s, [a] + actions, s')
  {
  }

  lemma {:induction false} LeadsOn(s: State, actions: seq<Action>, s': State, more: seq<Action>, s'': State)
    requires Leads(s, actions, s') && Leads(s', more, s'')
    ensures Leads(s, actions + more, s'')
    decreases |actions|
  {
    if actions == [] {
      assert actions + more == more;
    } else {
      LeadsOn(Do(s, actions[0]), actions[1..], s', more, s'');
      LeadsFirst(s, actions[0], actions[1..] + more, s'');
      assert actions + more == [actions[0]] + (actions[1..] + more);
    }
  }

  lemma {:induction false} LeadsKeepsInv(s: State, actions: seq<Action>, s': State)
    requires Inv(s) && Leads(s, actions, s')
    ensures Inv(s')
    decreases |actions|
  {
    if actions != [] {
      StepKeeps(s, actions[0]);
      LeadsKeepsInv(Do(s, actions[0]), actions[1..], s');
    }
  }

  lemma {:induction false} LeadsKeeps(s: State, actions: seq<Action>, s': State)
    requires Inv(s) && TailsOk(s) && Leads(s, actions, s')
    ensures Inv(s') && TailsOk(s')
    decreases |actions|
  {
    if actions != [] {
      StepKeeps(s, actions[0]);
      StepKeepsTails(s, actions[0]);
      LeadsKeeps(Do(s, actions[0]), actions[1..], s');
    }
  }

  /** What leads on from an initial state is a run, and another action may follow, safe or not. */
  lemma {:induction false} LeadsIsRun(s: State, actions: seq<Action>, s': State) returns (states: seq<State>)
    requires Leads(s, actions, s')
    ensures |states| == |actions| + 1 && states[0] == s && states[|actions|] == s'
    ensures forall i | 0 <= i < |actions| ::
              && Enabled(states[i], actions[i]) && Defined(states[i], actions[i])
              && states[i + 1] == Do(states[i], actions[i])
    decreases |actions|
  {
    if actions == [] {
      states := [s];
    } else {
      var rest := LeadsIsRun(Do(s, actions[0]), actions[1..], s');
      states := [s] + rest;
    }
  }

  /** One safe step. */
  ghost predicate Hops(s: State, a: Action, s': State) {
    Enabled(s, a) && Defined(s, a) && Do(s, a) == s'
  }

  lemma HopFirst(s: State, a: Action, s1: State, actions: seq<Action>, s': State)
    requires Hops(s, a, s1) && Leads(s1, actions, s')
    ensures Leads(s, [a] + actions, s')
  {
  }

  lemma OneHop(s: State, a: Action, s': State)
    requires Hops(s, a, s')
    ensures Leads(s, [a], s')
  {
  }

  lemma TwoHops(s: State, a: Action, s1: State, b: Action, s': State)
    requires Hops(s, a, s1) && Hops(s1, b, s')
    ensures Leads(s, [a] + [b], s')
  {
  }

  // ----- A first operation

  function Threads(n: nat): seq<Thread> { seq(n, _ => Thread(Idle, 0, None, None)) }

  /** `n` idle threads, no strands, and nothing else. */
  function Nothing(n: nat): State { State(map[], 0, 0, map[], 0, [], Threads(n), {}, {}, None) }

  function FirstRunner(coro: Coro, d: Option<Deferral>): Runner { Runner(0, coro, d, None, 0, Working, false, 0) }

  /** There is one operation, which was started from outside and is on thread 0. */
  function Alone(n: nat, coro: Coro, d: Option<Deferral>, ph: Phase): State
    requires n > 0
  {
    Nothing(n).(runners := map[0 := FirstRunner(coro, d)], nextRunner := 1, count := 1, nextTicket := 1,
                threads := Threads(n)[0 := Thread(ph, 0, Some(0), Some(0))])
  }

  function Posted(n: nat): State {
    Nothing(n).(runners := map[0 := FirstRunner(Unset, None)], nextRunner := 1, count := 1,
                posted := map[0 := Task(0, true, 0)], nextTicket := 1)
  }

  /** It has deferred `d` and is back from its coroutine. */
  function Deferred(n: nat, d: Deferral): State
    requires n > 0
  {
    Alone(n, Alive, Some(d), Exiting(0))
  }

  function Deferring(d: Deferral): seq<Action> {
    [RunOutside(0)] + ([Begin(0, 0)] + ([Action.Suspend(0, d)] + [Return(0)]))
  }

  lemma NothingHolds(n: nat)
    ensures Init(Nothing(n)) && Inv(Nothing(n)) && TailsOk(Nothing(n))
  {
  }

  lemma HopStart(n: nat)
    ensures Hops(Nothing(n), RunOutside(0), Posted(n))
  {
  }

  lemma HopBegin(n: nat)
    requires n > 0
    ensures Hops(Posted(n), Begin(0, 0), Alone(n, Unset, None, Body(0, FromStart)))
  {
  }

  lemma HopSuspend(n: nat, d: Deferral)
    requires n > 0 && (d.UserCallback? || (d.RunAnyIndex? && d.n > 0))
    ensures Hops(Alone(n, Unset, None, Body(0, FromStart)), Action.Suspend(0, d),
                 Alone(n, Unset, Some(d), Yielded(0, FromStart, false)))
  {
  }

  lemma HopReturn(n: nat, d: Deferral)
    requires n > 0
    ensures Hops(Alone(n, Unset, Some(d), Yielded(0, FromStart, false)), Return(0), Deferred(n, d))
  {
  }

  lemma LeadsToDeferred(n: nat, d: Deferral)
    requires n > 0 && (d.UserCallback? || (d.RunAnyIndex? && d.n > 0))
    ensures Leads(Nothing(n), Deferring(d), Deferred(n, d))
  {
    HopReturn(n, d);
    OneHop(Alone(n, Unset, Some(d), Yielded(0, FromStart, false)), Return(0), Deferred(n, d));
    HopSuspend(n, d);
    HopFirst(Alone(n, Unset, None, Body(0, FromStart)), Action.Suspend(0, d),
             Alone(n, Unset, Some(d), Yielded(0, FromStart, false)), [Return(0)], Deferred(n, d));
    HopBegin(n);
    HopFirst(Posted(n), Begin(0, 0), Alone(n, Unset, None, Body(0, FromStart)),
             [Action.Suspend(0, d)] + [Return(0)], Deferred(n, d));
    HopStart(n);
    HopFirst(Nothing(n), RunOutside(0), Posted(n), [Begin(0, 0)] + ([Action.Suspend(0, d)] + [Return(0)]),
             Deferred(n, d));
  }
}
