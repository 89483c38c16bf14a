/**
 * What every reachable state of the runtime satisfies.
 *
 * The heart is `Placed`: a queue entry, a thread and a group that waits for its deleter are
 * the places where a runner can be; no two places hold the same runner, every place holds a
 * live one, and every runner in memory is in a place.
 */
module RuntimeInvariant {
  import opened Options
  import opened Runtime

  // ----- Places

  datatype Place = InQueue(ticket: nat) | OnThread(t: nat) | AtGroup(g: nat)

  function Occupant(ph: Phase): Option<RunnerId> {
    match ph
    case Idle => None
    case Clearing(_) => None
    case Tail(_, _) => None
    case _ => Some(ph.r)
  }

  /** The owner is suspended and its `proceed` has not been called through the group. */
  predicate Parked(grp: Group) { grp.hold == Released && grp.proceeds == 0 }

  function At(s: State, p: Place): Option<RunnerId> {
    match p
    case InQueue(k) => if k in s.posted then Some(s.posted[k].runner) else None
    case OnThread(t) => if t < |s.threads| then Occupant(s.threads[t].phase) else None
    case AtGroup(g) => if g < |s.groups| && Parked(s.groups[g]) then Some(s.groups[g].owner) else None
  }

  ghost predicate Placed(s: State) {
    && (forall p, q :: At(s, p).Some? && At(s, p) == At(s, q) ==> p == q)
    && (forall p :: At(s, p).Some? ==> At(s, p).value in s.runners)
    && (forall r | r in s.runners :: exists p :: At(s, p) == Some(r))
  }

  // ----- What holds at each place

  predicate Fresh(ru: Runner) { ru.coro == Unset && ru.deferred == None && !ru.dying && ru.progress == Working }

  predicate Suspended(ru: Runner) { ru.coro == Alive && ru.deferred == None && !ru.dying && ru.progress == Working }

  predicate TaskOk(s: State, k: nat)
    requires k in s.posted
  {
    var task := s.posted[k];
    && k < s.nextTicket
    && task.runner in s.runners
    && s.runners[task.runner].sched == task.sched
    && (if task.start then Fresh(s.runners[task.runner]) else Suspended(s.runners[task.runner]))
  }

  function EntryCoro(frame: Frame): Coro { if frame.FromStart? then Unset else Alive }

  predicate OwnGroup(s: State, g: GroupId, r: RunnerId) {
    g < |s.groups| && s.groups[g].owner == r && s.groups[g].hold == Local
  }

  predicate ThreadOk(s: State, t: nat)
    requires t < |s.threads|
  {
    var th := s.threads[t];
    if th.phase.Idle? then th.tlsRunner == None
    else
      var r := th.phase.r;
      && th.tlsRunner == Some(r)
      && (Occupant(th.phase).Some? ==> r in s.runners && RunningOk(s, th, s.runners[r]))
  }

  predicate RunningOk(s: State, th: Thread, ru: Runner) {
    match th.phase
    case Idle => true
    case Clearing(r) => true
    case Tail(r, _) => true
    case Body(r, frame) =>
      && th.tlsCoro == Some(r)
      && ru.coro == EntryCoro(frame) && ru.deferred == None && !ru.dying
    case Yielded(r, frame, ended) =>
      && ru.coro == EntryCoro(frame) && !ru.dying && !ru.progress.Won?
      && (if ended then ru.deferred == None else ru.deferred.Some? && ru.progress == Working)
    case Exiting(r) =>
      && !ru.dying && !ru.progress.Won?
      && (if ru.deferred == None then ru.coro == Complete else ru.coro == Alive && ru.progress == Working)
    case Calling(r, g) => Suspended(ru) && OwnGroup(s, g, r) && s.groups[g].kind == External
    case Looping(r, g) => Suspended(ru) && OwnGroup(s, g, r) && (s.groups[g].kind == All || IsAny(s.groups[g].kind))
    case Dropping(r, g) => Suspended(ru) && OwnGroup(s, g, r) && s.groups[g].kind == Waiting
    case Proceeding(r) => Suspended(ru)
    case Destroying(r) => ru.dying && ru.coro == Complete && ru.deferred == None && !ru.progress.Won?
  }

  predicate RunnerOk(s: State, r: RunnerId)
    requires r in s.runners
  {
    var ru := s.runners[r];
    && r < s.nextRunner
    && (ru.holds.Some? ==>
          && ru.holds.value < |s.groups|
          && ru.index < s.groups[ru.holds.value].spawned
          && s.groups[ru.holds.value].owner < r)
    && (ru.deferred.Some? && ru.deferred.value.DropWaiter? ==>
          OwnGroup(s, ru.deferred.value.g, r) && s.groups[ru.deferred.value.g].kind == Waiting)
    && (ru.deferred.Some? && ru.deferred.value.RunAnyIndex? ==> ru.deferred.value.n > 0)
    && (ru.progress.Won? ==>
          && ru.holds.Some?
          && WonBy(s.groups[ru.holds.value], r, ru.progress.value))
  }

  /** The runner that raised the counter to one has not called `proceed` yet. */
  predicate WonBy(grp: Group, r: RunnerId, value: Option<int>) {
    && IsAny(grp.kind) && grp.hold == Released && grp.proceeds == 0 && grp.counter > 0
    && grp.winner == Some(r) && grp.claim == Some(value)
  }

  // ----- Groups

  function Holders(s: State, g: GroupId): set<RunnerId> {
    set c | c in s.runners && s.runners[c].holds == Some(g)
  }

  predicate RefsOk(s: State, g: GroupId)
    requires g < |s.groups|
  {
    s.groups[g].refs == |Holders(s, g)| + (if s.groups[g].hold == Local then 1 else 0)
  }

  predicate GroupOk(s: State, g: GroupId)
    requires g < |s.groups|
  {
    var grp := s.groups[g];
    && RefsOk(s, g)
    && grp.owner < s.nextRunner
    && (Parked(grp) ==> grp.owner in s.runners && Suspended(s.runners[grp.owner]))
    && (grp.kind == All || IsAny(grp.kind) ==>
          grp.spawned <= grp.size && (grp.hold == Released ==> grp.spawned == grp.size))
    && (grp.kind == AnyIndex ==> grp.size > 0)
    && (grp.hold == Local ==> grp.proceeds == 0)
    && (grp.hold == Local && grp.kind != Waiting ==>
          && grp.maker < |s.threads|
          && s.threads[grp.maker].phase ==
             (if grp.kind == External then Calling(grp.owner, g) else Looping(grp.owner, g)))
    && (grp.hold == Local && IsAny(grp.kind) ==> grp.counter == 0 && s.exclusive == Some(grp.maker))
  }

  /** When `proceed` has been called: the law of each kind of group. */
  predicate Law(s: State, g: GroupId)
    requires g < |s.groups|
  {
    var grp := s.groups[g];
    match grp.kind
    case External => grp.proceeds <= 1
    case All => grp.proceeds == if grp.refs == 0 then 1 else 0
    case Waiting => grp.proceeds == if grp.refs == 0 then 1 else 0
    case _ =>
      && grp.proceeds <= 1
      && (grp.counter == 0 ==> grp.claim == None && grp.proceeds == 0 && (grp.kind == AnyValue ==> grp.refs > 0))
      && (grp.counter > 0 ==> grp.claim.Some?)
      && grp.slot == (if grp.proceeds == 1 then grp.claim else None)
      && (grp.kind == AnyIndex && grp.claim.Some? ==> grp.claim.value.Some? && 0 <= grp.claim.value.value < grp.size)
      && (grp.claim == Some(None) ==> grp.refs == 0 && grp.proceeds == 1)
      && (grp.counter > 0 && grp.proceeds == 0 ==>
            && grp.winner.Some? && grp.winner.value in s.runners
            && s.runners[grp.winner.value].progress.Won?
            && s.runners[grp.winner.value].holds == Some(g))
  }

  // ----- Counting and exclusion

  function Living(s: State): set<RunnerId> {
    set r | r in s.runners && !s.runners[r].dying
  }

  ghost predicate StrandsOk(s: State) {
    forall t, u | 0 <= t < |s.threads| && 0 <= u < |s.threads| && t != u ::
      s.threads[t].phase != Idle && s.threads[u].phase != Idle && s.threads[t].on == s.threads[u].on ==>
      s.threads[t].on !in s.strands
  }

  predicate CountOk(s: State) { s.count == |Living(s)| }

  ghost predicate TasksOk(s: State) { forall k | k in s.posted :: TaskOk(s, k) }

  ghost predicate ThreadsOk(s: State) { forall t | 0 <= t < |s.threads| :: ThreadOk(s, t) }

  ghost predicate RunnersOk(s: State) { forall r | r in s.runners :: RunnerOk(s, r) }

  ghost predicate GroupsOk(s: State) { forall g | 0 <= g < |s.groups| :: GroupOk(s, g) }

  /** The whole invariant but for the laws of the groups. */
  ghost predicate Core(s: State) {
    && Placed(s) && TasksOk(s) && ThreadsOk(s) && RunnersOk(s) && GroupsOk(s)
    && CountOk(s) && StrandsOk(s) && ExclusiveOk(s)
  }

  predicate ExclusiveOk(s: State) {
    && (s.exclusive.Some? ==> s.exclusive.value < |s.threads| && LoopsAny(s, s.exclusive.value))
    && (forall t | 0 <= t < |s.threads| && LoopsAny(s, t) :: s.exclusive == Some(t))
  }

  predicate LoopsAny(s: State, t: nat)
    requires t < |s.threads|
  {
    s.threads[t].phase.Looping? && s.threads[t].phase.g < |s.groups| && IsAny(s.groups[s.threads[t].phase.g].kind)
  }

  ghost predicate Inv(s: State) {
    Core(s) && forall g | 0 <= g < |s.groups| :: Law(s, g)
  }

  // ----- Moving between places

  lemma PlacedSame(s: State, s': State)
    requires Placed(s) && s'.runners.Keys == s.runners.Keys
    requires forall x :: At(s', x) == At(s, x)
    ensures Placed(s')
  {
  }

  lemma PlacedMove(s: State, s': State, r: RunnerId, p: Place, q: Place)
    requires Placed(s) && s'.runners.Keys == s.runners.Keys && p != q
    requires At(s, p) == Some(r) && At(s', q) == Some(r)
    requires At(s, q) == None && At(s', p) == None
    requires forall x | x != p && x != q :: At(s', x) == At(s, x)
    ensures Placed(s')
  {
    forall c | c in s'.runners
      ensures exists x :: At(s', x) == Some(c)
    {
      if c != r {
        var x :| At(s, x) == Some(c);
        assert At(s', x) == Some(c);
      }
    }
    forall x, y | At(s', x).Some? && At(s', x) == At(s', y)
      ensures x == y
    {
      assert At(s, x) == At(s', x) || x == q;
      assert At(s, y) == At(s', y) || y == q;
    }
  }

  lemma PlacedNew(s: State, s': State, r: RunnerId, q: Place)
    requires Placed(s) && r !in s.runners && s'.runners.Keys == s.runners.Keys + {r}
    requires At(s, q) == None && At(s', q) == Some(r)
    requires forall x | x != q :: At(s', x) == At(s, x)
    ensures Placed(s')
  {
  }

  lemma PlacedGone(s: State, s': State, r: RunnerId, p: Place)
    requires Placed(s) && s'.runners.Keys == s.runners.Keys - {r}
    requires At(s, p) == Some(r) && At(s', p) == None
    requires forall x | x != p :: At(s', x) == At(s, x)
    ensures Placed(s')
  {
  }
}
