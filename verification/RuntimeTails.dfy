/**
 * The tail of a callback: what DeferProceed's callback does after it has handed `proceed` on.
 *
 * From then on another thread may resume the runner, run it to its end and delete it, while this
 * thread still has it as its current runner.  An operation started there without a scheduler of its
 * own asks the current runner for one.  This is safe exactly under a shelter: where no other thread can
 * take up the runner before the callback ends.
 */
module RuntimeTails {
  import opened Options
  import opened Runtime
  import opened RuntimeInvariant
  import opened RuntimeSteps
  import opened RuntimeSafety

  // ----- What a shelter gives

  /** The runner of the tail is in memory, still belongs to the strand that this thread holds, and runs nowhere. */
  ghost predicate Stays(s: State, t: nat, r: RunnerId)
    requires t < |s.threads|
  {
    Shelters(s, t, r) && forall u | 0 <= u < |s.threads| :: Occupant(s.threads[u].phase) != Some(r)
  }

  ghost predicate TailOk(s: State, t: nat)
    requires t < |s.threads|
  {
    s.threads[t].phase.Tail? && s.threads[t].phase.sheltered ==> Stays(s, t, s.threads[t].phase.r)
  }

  ghost predicate TailsOk(s: State) { forall t | 0 <= t < |s.threads| :: TailOk(s, t) }

  // ----- Steps

  predicate SameOccupant(th: Thread, th': Thread) {
    Occupant(th'.phase) == None || (Occupant(th'.phase) == Occupant(th.phase) && th'.on == th.on)
  }

  predicate SameTail(th: Thread, th': Thread) {
    th'.phase.Tail? ==> th'.phase == th.phase && th'.on == th.on
  }

  /** No thread takes up another runner or begins a tail, and only runner `o` may go or switch. */
  ghost predicate KeepsTails(s: State, s': State, o: Option<RunnerId>) {
    && s'.strands == s.strands && |s'.threads| == |s.threads|
    && (forall u | 0 <= u < |s.threads| ::
          SameOccupant(s.threads[u], s'.threads[u]) && SameTail(s.threads[u], s'.threads[u]))
    && (forall r | r in s.runners && Some(r) != o :: r in s'.runners && s'.runners[r].sched == s.runners[r].sched)
  }

  lemma TailsKept(s: State, s': State, t: nat)
    requires TailsOk(s) && t < |s.threads| && KeepsTails(s, s', Occupant(s.threads[t].phase))
    ensures TailsOk(s')
  {
    forall u | 0 <= u < |s'.threads|
      ensures TailOk(s', u)
    {
      assert TailOk(s, u) && SameTail(s.threads[u], s'.threads[u]);
      forall v | 0 <= v < |s'.threads|
        ensures SameOccupant(s.threads[v], s'.threads[v])
      {
      }
    }
  }

  lemma TailsKeptByWorld(s: State, s': State)
    requires TailsOk(s) && KeepsTails(s, s', None)
    ensures TailsOk(s')
  {
    forall u | 0 <= u < |s'.threads|
      ensures TailOk(s', u)
    {
      assert TailOk(s, u) && SameTail(s.threads[u], s'.threads[u]);
      forall v | 0 <= v < |s'.threads|
        ensures SameOccupant(s.threads[v], s'.threads[v])
      {
      }
    }
  }

  /** The runner whose thread takes the step. */
  function Stepping(s: State, a: Action): Option<RunnerId> {
    if Actor(a).Some? && Actor(a).value < |s.threads| then Occupant(s.threads[Actor(a).value].phase) else None
  }

  lemma SpawningKeepsTails(s: State, sched: SchedId, holds: Option<GroupId>, index: nat, home: SchedId)
    requires s.nextRunner !in s.runners
    ensures KeepsTails(s, Spawning(s, sched, holds, index, home), None)
  {
  }

  lemma SpawningIntoKeepsTails(s: State, sched: SchedId, g: GroupId, home: SchedId)
    requires s.nextRunner !in s.runners && g < |s.groups|
    ensures KeepsTails(s, SpawningInto(s, sched, g, home), None)
  {
  }

  lemma AnyoneKeepsTails(s: State, s': State, o: Option<RunnerId>)
    requires KeepsTails(s, s', None)
    ensures KeepsTails(s, s', o)
  {
  }

  lemma StartKeepsTails(s: State, a: Action)
    requires s.nextRunner !in s.runners && Enabled(s, a) && Defined(s, a)
    requires a.RunOutside? || a.Run? || a.RunWaited? || a.SpawnNext?
    ensures KeepsTails(s, Do(s, a), None)
  {
    match a
    case RunOutside(sched) => SpawningKeepsTails(s, sched, None, 0, sched);
    case Run(t, Some(sched)) => SpawningKeepsTails(s, sched, None, 0, sched);
    case Run(t, None) =>
      var ru := s.runners[s.threads[t].tlsRunner.value];
      SpawningKeepsTails(s, ru.sched, None, 0, ru.home);
    case RunWaited(t, g) =>
      var ru := s.runners[s.threads[t].tlsRunner.value];
      SpawningIntoKeepsTails(s, ru.sched, g, ru.home);
    case SpawnNext(t) =>
      var ru := s.runners[s.threads[t].tlsRunner.value];
      SpawningIntoKeepsTails(s, ru.sched, s.threads[t].phase.g, ru.home);
  }

  lemma BodyKeepsTails(s: State, a: Action)
    requires Enabled(s, a) && Defined(s, a) && OfBody(a)
    requires !a.Begin? && !a.RunOutside? && !a.Run? && !a.RunWaited? && !a.Finish? && !a.Deliver?
    ensures KeepsTails(s, Do(s, a), Stepping(s, a))
  {
  }

  lemma FinishKeepsTails(s: State, t: nat, result: Option<int>)
    requires Enabled(s, Finish(t, result)) && Defined(s, Finish(t, result))
    ensures KeepsTails(s, Finishing(s, t, result), None)
  {
  }

  lemma ProceedKeepsTails(s: State, g: GroupId)
    requires g < |s.groups| && s.groups[g].owner in s.runners
    ensures KeepsTails(s, Proceed(s, g), None)
  {
  }

  lemma AfterReleaseKeepsTails(s: State, g: GroupId)
    requires g < |s.groups| && (DeleterProceeds(s.groups[g]) ==> s.groups[g].owner in s.runners)
    ensures KeepsTails(s, AfterRelease(s, g), None)
  {
  }

  lemma DroppedKeepsTails(s: State, t: nat, r: RunnerId, g: GroupId)
    requires t < |s.threads| && ReleaseDefined(s, g) && s.threads[t].phase != Idle
    ensures KeepsTails(s, Dropped(s, t, r, g), None)
  {
    AfterReleaseKeepsTails(LettingGo(s, t, r, g), g);
  }

  lemma DestroyKeepsTails(s: State, t: nat)
    requires Enabled(s, Destroy(t)) && Defined(s, Destroy(t))
    ensures KeepsTails(s, DestroyingMembers(s, t), Some(s.threads[t].phase.r))
  {
    var h := s.runners[s.threads[t].phase.r].holds;
    if h.Some? { AfterReleaseKeepsTails(Destroyed(s, t), h.value); }
  }

  lemma LeavingKeepsTails(s: State, t: nat)
    requires t < |s.threads| && s.threads[t].phase.Exiting? && s.threads[t].phase.r in s.runners
    ensures KeepsTails(s, Leaving(s, t), Some(s.threads[t].phase.r))
  {
  }

  lemma ExitKeepsTails(s: State, a: Action)
    requires Enabled(s, a) && Defined(s, a)
    requires a.Return? || a.ProceedNow? || a.Clear? || a.CallbackEnd?
    ensures KeepsTails(s, Do(s, a), Stepping(s, a))
  {
  }

  lemma DeliverKeepsTails(s: State, t: nat)
    requires Enabled(s, Deliver(t)) && Defined(s, Deliver(t))
    ensures KeepsTails(s, Delivering(s, t), None)
  {
  }

  lemma BeginKeepsTails(s: State, t: nat, k: nat)
    requires TasksOk(s) && TailsOk(s) && Enabled(s, Begin(t, k))
    ensures TailsOk(EnterCoroutine(s, t, k))
  {
    var s' := EnterCoroutine(s, t, k);
    assert TaskOk(s, k);
    forall u | 0 <= u < |s'.threads|
      ensures TailOk(s', u)
    {
      assert TailOk(s, u);
    }
  }

  /** The runner of the callback leaves its thread with the hand-over, and is nowhere else. */
  lemma HandOverKeepsTails(s: State, t: nat)
    requires Inv(s) && TailsOk(s) && Enabled(s, HandOver(t)) && Defined(s, HandOver(t))
    ensures TailsOk(HandingOver(s, t))
  {
    OthersElsewhere(s, t, s.threads[t].phase.r);
    LeavesForTail(s, HandingOver(s, t), t, s.threads[t].phase.r);
  }

  lemma LeavesForTail(s: State, s': State, t: nat, r: RunnerId)
    requires TailsOk(s) && t < |s.threads|
    requires forall u | 0 <= u < |s.threads| && u != t :: Occupant(s.threads[u].phase) != Some(r)
    requires s'.runners == s.runners && s'.strands == s.strands
    requires s'.threads == s.threads[t := s.threads[t].(phase := Tail(r, Shelters(s, t, r)))]
    ensures TailsOk(s')
  {
    forall u | 0 <= u < |s'.threads|
      ensures TailOk(s', u)
    {
      assert TailOk(s, u);
    }
  }

  lemma StepKeepsTails(s: State, a: Action)
    requires Inv(s) && TailsOk(s) && Enabled(s, a) && Defined(s, a)
    ensures TailsOk(Do(s, a))
  {
    if a.Begin? {
      BeginKeepsTails(s, a.t, a.ticket);
    } else if a.HandOver? {
      HandOverKeepsTails(s, a.t);
    } else {
      PlainStepKeepsTails(s, a);
      if Actor(a).Some? { TailsKept(s, Do(s, a), Actor(a).value); } else { TailsKeptByWorld(s, Do(s, a)); }
    }
  }

  lemma ReleaseKeepsTails(s: State, a: Action)
    requires Enabled(s, a) && Defined(s, a) && (a.LoopEnd? || a.Drop? || a.Destroy? || a.Completion?)
    ensures KeepsTails(s, Do(s, a), Stepping(s, a))
  {
    match a
    case LoopEnd(t) =>
      DroppedKeepsTails(s.(exclusive := None), t, s.threads[t].phase.r, s.threads[t].phase.g);
      AnyoneKeepsTails(s, Do(s, a), Stepping(s, a));
    case Drop(t) =>
      DroppedKeepsTails(s, t, s.threads[t].phase.r, s.threads[t].phase.g);
      AnyoneKeepsTails(s, Do(s, a), Stepping(s, a));
    case Destroy(t) => DestroyKeepsTails(s, t);
    case Completion(g) => ProceedKeepsTails(s, g);
  }

  lemma ChildKeepsTails(s: State, a: Action)
    requires Enabled(s, a) && Defined(s, a) && (a.Finish? || a.Deliver?)
    ensures KeepsTails(s, Do(s, a), Stepping(s, a))
  {
    if a.Finish? { FinishKeepsTails(s, a.t, a.result); } else { DeliverKeepsTails(s, a.t); }
    AnyoneKeepsTails(s, Do(s, a), Stepping(s, a));
  }

  lemma PlainStepKeepsTails(s: State, a: Action)
    requires Inv(s) && Enabled(s, a) && Defined(s, a) && !a.Begin? && !a.HandOver?
    ensures KeepsTails(s, Do(s, a), Stepping(s, a))
  {
    if a.RunOutside? || a.Run? || a.RunWaited? || a.SpawnNext? {
      NumbersAreNew(s);
      StartKeepsTails(s, a);
      AnyoneKeepsTails(s, Do(s, a), Stepping(s, a));
    } else if a.Finish? || a.Deliver? {
      ChildKeepsTails(s, a);
    } else if a.LoopEnd? || a.Drop? || a.Destroy? || a.Completion? {
      ReleaseKeepsTails(s, a);
    } else if a.Exit? {
      LeavingKeepsTails(s, a.t);
    } else if OfBody(a) {
      BodyKeepsTails(s, a);
    } else {
      ExitKeepsTails(s, a);
    }
  }

  /** A step that makes blind starts under a shelter only is safe. */
  lemma CarefulStepKeeps(s: State, a: Action)
    requires Inv(s) && TailsOk(s) && Enabled(s, a) && Careful(s, a)
    ensures Defined(s, a) && Inv(Do(s, a)) && TailsOk(Do(s, a))
  {
    if StartsBlindly(s, a) { assert ThreadOk(s, a.t) && TailOk(s, a.t); }
    StepKeeps(s, a);
    StepKeepsTails(s, a);
  }
}
