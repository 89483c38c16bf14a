/** The moves of which the actions of the runtime are made, each of them keeping the invariant. */
module RuntimeSteps {
  import opened Options
  import opened Runtime
  import opened RuntimeInvariant

  /** The law of every group but `g` survives. */
  ghost predicate LawsKept(s: State, s': State, but: Option<GroupId>) {
    |s'.groups| >= |s.groups| && forall g | 0 <= g < |s.groups| && Some(g) != but && Law(s, g) :: Law(s', g)
  }

  lemma OthersElsewhere(s: State, t: nat, r: RunnerId)
    requires Placed(s) && t < |s.threads| && Occupant(s.threads[t].phase) == Some(r)
    ensures r in s.runners
    ensures forall k | k in s.posted :: s.posted[k].runner != r
    ensures forall u | 0 <= u < |s.threads| && u != t :: Occupant(s.threads[u].phase) != Some(r)
    ensures forall g | 0 <= g < |s.groups| && Parked(s.groups[g]) :: s.groups[g].owner != r
  {
    assert At(s, OnThread(t)) == Some(r);
    forall k | k in s.posted
      ensures s.posted[k].runner != r
    {
      assert At(s, InQueue(k)) == Some(s.posted[k].runner);
    }
    forall u | 0 <= u < |s.threads| && u != t
      ensures Occupant(s.threads[u].phase) != Some(r)
    {
      assert At(s, OnThread(u)) == Occupant(s.threads[u].phase);
    }
    forall g | 0 <= g < |s.groups| && Parked(s.groups[g])
      ensures s.groups[g].owner != r
    {
      assert At(s, AtGroup(g)) == Some(s.groups[g].owner);
    }
  }

  /** Strands and the exclusive thread, when no thread starts or stops to loop and none takes a new task. */
  lemma ExclusionKept(s: State, s': State)
    requires StrandsOk(s) && ExclusiveOk(s)
    requires |s'.threads| == |s.threads| && s'.strands == s.strands && s'.exclusive == s.exclusive
    requires forall u | 0 <= u < |s.threads| && s'.threads[u].phase != Idle ::
               s.threads[u].phase != Idle && s'.threads[u].on == s.threads[u].on
    requires forall u | 0 <= u < |s.threads| && (s.threads[u].phase.Looping? || s'.threads[u].phase.Looping?) ::
               s'.threads[u].phase == s.threads[u].phase
    requires |s'.groups| == |s.groups| && forall g | 0 <= g < |s.groups| :: s'.groups[g].kind == s.groups[g].kind
    ensures StrandsOk(s') && ExclusiveOk(s')
  {
  }

  // ----- A thread goes on with the runner it runs

  /** Phases in which a thread works for a group that it has just made. */
  predicate Spawner(ph: Phase) { ph.Calling? || ph.Looping? }

  ghost predicate GoesOn(s: State, s': State, t: nat, r: RunnerId) {
    && t < |s.threads| && Occupant(s.threads[t].phase) == Some(r) && r in s.runners
    && |s'.threads| == |s.threads| && s'.threads == s.threads[t := s'.threads[t]]
    && Occupant(s'.threads[t].phase) == Some(r) && s'.threads[t].on == s.threads[t].on
    && !Spawner(s.threads[t].phase) && !Spawner(s'.threads[t].phase)
    && r in s'.runners && s'.runners == s.runners[r := s'.runners[r]]
    && s'.runners[r].holds == s.runners[r].holds && s'.runners[r].index == s.runners[r].index
    && (s.runners[r].progress.Won? || s'.runners[r].progress.Won? ==> s'.runners[r].progress == s.runners[r].progress)
    && s'.nextRunner == s.nextRunner && s'.posted == s.posted && s'.nextTicket == s.nextTicket
    && s'.groups == s.groups && s'.strands == s.strands && s'.exclusive == s.exclusive
    && (s.runners[r].dying ==> s'.runners[r].dying)
    && s'.count == s.count - (if s'.runners[r].dying && !s.runners[r].dying then 1 else 0)
  }

  lemma GoesOnPlaces(s: State, s': State, t: nat, r: RunnerId)
    requires Placed(s) && GoesOn(s, s', t, r)
    ensures Placed(s')
  {
    forall x
      ensures At(s', x) == At(s, x)
    {
    }
    PlacedSame(s, s');
  }

  lemma GoesOnTasksAndThreads(s: State, s': State, t: nat, r: RunnerId)
    requires Placed(s) && TasksOk(s) && ThreadsOk(s) && GoesOn(s, s', t, r) && ThreadOk(s', t)
    ensures TasksOk(s') && ThreadsOk(s')
  {
    OthersElsewhere(s, t, r);
    forall k | k in s'.posted
      ensures TaskOk(s', k)
    {
      assert TaskOk(s, k);
    }
    forall u | 0 <= u < |s'.threads|
      ensures ThreadOk(s', u)
    {
      if u != t { assert ThreadOk(s, u) && s'.threads[u] == s.threads[u]; }
    }
  }

  lemma GoesOnGroups(s: State, s': State, t: nat, r: RunnerId)
    requires Placed(s) && GroupsOk(s) && GoesOn(s, s', t, r)
    ensures GroupsOk(s')
  {
    OthersElsewhere(s, t, r);
    forall g | 0 <= g < |s'.groups|
      ensures GroupOk(s', g)
    {
      assert GroupOk(s, g);
      assert Holders(s', g) == Holders(s, g);
    }
  }

  lemma GoesOnLaws(s: State, s': State, t: nat, r: RunnerId)
    requires GoesOn(s, s', t, r)
    ensures LawsKept(s, s', None)
  {
  }

  lemma GoesOnCount(s: State, s': State, t: nat, r: RunnerId)
    requires CountOk(s) && GoesOn(s, s', t, r)
    ensures CountOk(s')
  {
    if s'.runners[r].dying && !s.runners[r].dying {
      assert Living(s') == Living(s) - {r};
    } else {
      assert Living(s') == Living(s);
    }
  }

  lemma GoesOnKeeps(s: State, s': State, t: nat, r: RunnerId)
    requires Core(s) && GoesOn(s, s', t, r) && ThreadOk(s', t) && RunnerOk(s', r)
    ensures Core(s') && LawsKept(s, s', None)
  {
    GoesOnPlaces(s, s', t, r);
    GoesOnTasksAndThreads(s, s', t, r);
    ExclusionKept(s, s');
    GoesOnGroups(s, s', t, r);
    GoesOnLaws(s, s', t, r);
    GoesOnCount(s, s', t, r);
    forall c | c in s'.runners
      ensures RunnerOk(s', c)
    {
      if c != r { assert RunnerOk(s, c); }
    }
  }

  // ----- A new runner is started

  /** `n` is new and has its Start posted; groups differ at most in their use counts and numbers of children. */
  ghost predicate Spawns(s: State, s': State, n: RunnerId) {
    && n == s.nextRunner && s'.nextRunner == n + 1
    && n in s'.runners && s'.runners == s.runners[n := s'.runners[n]] && Fresh(s'.runners[n])
    && s'.count == s.count + 1
    && s'.posted == s.posted[s.nextTicket := Task(n, true, s'.runners[n].sched)]
    && s'.nextTicket == s.nextTicket + 1
    && s'.threads == s.threads && s'.strands == s.strands && s'.exclusive == s.exclusive
    && |s'.groups| == |s.groups|
    && forall g | 0 <= g < |s.groups| ::
         && s'.groups[g] == s.groups[g].(refs := s'.groups[g].refs, spawned := s'.groups[g].spawned)
         && s'.groups[g].spawned >= s.groups[g].spawned
  }

  lemma NumbersAreNew(s: State)
    requires TasksOk(s) && RunnersOk(s)
    ensures s.nextTicket !in s.posted && s.nextRunner !in s.runners
  {
  }

  lemma SpawnedPlaces(s: State, s': State, n: RunnerId)
    requires Placed(s) && Spawns(s, s', n) && s.nextTicket !in s.posted && n !in s.runners
    ensures Placed(s')
  {
    forall x | x != InQueue(s.nextTicket)
      ensures At(s', x) == At(s, x)
    {
    }
    PlacedNew(s, s', n, InQueue(s.nextTicket));
  }

  lemma SpawnedTasks(s: State, s': State, n: RunnerId)
    requires TasksOk(s) && Spawns(s, s', n) && n !in s.runners
    ensures TasksOk(s')
  {
  }

  lemma SpawnedThreads(s: State, s': State, n: RunnerId)
    requires ThreadsOk(s) && Spawns(s, s', n) && n !in s.runners
    ensures ThreadsOk(s')
  {
    forall t | 0 <= t < |s'.threads|
      ensures ThreadOk(s', t)
    {
      assert ThreadOk(s, t);
    }
  }

  lemma SpawnedCount(s: State, s': State, n: RunnerId)
    requires CountOk(s) && Spawns(s, s', n) && n !in s.runners
    ensures CountOk(s')
  {
    assert Living(s') == Living(s) + {n};
  }

  lemma SpawnedRunners(s: State, s': State, n: RunnerId)
    requires RunnersOk(s) && Spawns(s, s', n) && n !in s.runners && RunnerOk(s', n)
    ensures RunnersOk(s')
  {
  }

  lemma SpawnedKeeps(s: State, s': State, n: RunnerId)
    requires Core(s) && Spawns(s, s', n) && RunnerOk(s', n) && GroupsOk(s')
    ensures Core(s')
  {
    NumbersAreNew(s);
    SpawnedPlaces(s, s', n);
    SpawnedTasks(s, s', n);
    SpawnedThreads(s, s', n);
    ExclusionKept(s, s');
    SpawnedCount(s, s', n);
    SpawnedRunners(s, s', n);
  }

  /** A runner of nobody's group. */
  lemma SpawningKeeps(s: State, sched: SchedId, home: SchedId)
    requires Core(s)
    ensures var s' := Spawning(s, sched, None, 0, home); Core(s') && LawsKept(s, s', None)
  {
    var s' := Spawning(s, sched, None, 0, home);
    NumbersAreNew(s);
    SpawnedAlone(s, s', s.nextRunner);
    SpawnedKeeps(s, s', s.nextRunner);
  }

  lemma SpawnedAlone(s: State, s': State, n: RunnerId)
    requires GroupsOk(s) && Spawns(s, s', n) && n !in s.runners && s'.groups == s.groups && s'.runners[n].holds == None
    ensures GroupsOk(s') && LawsKept(s, s', None)
  {
    forall g | 0 <= g < |s'.groups|
      ensures GroupOk(s', g)
    {
      assert GroupOk(s, g);
      assert Holders(s', g) == Holders(s, g);
    }
  }

  lemma SpawnedInto(s: State, s': State, n: RunnerId, g: GroupId)
    requires GroupsOk(s) && Spawns(s, s', n) && n !in s.runners
    requires g < |s.groups| && s.groups[g].hold == Local && s.groups[g].kind != External && Law(s, g)
    requires s.groups[g].kind != Waiting ==> s.groups[g].spawned < s.groups[g].size
    requires s'.groups == s.groups[g := s.groups[g].(refs := s.groups[g].refs + 1, spawned := s.groups[g].spawned + 1)]
    requires s'.runners[n].holds == Some(g)
    ensures GroupsOk(s')
  {
    forall h | 0 <= h < |s'.groups|
      ensures GroupOk(s', h)
    {
      assert GroupOk(s, h);
      assert Holders(s', h) == if h == g then Holders(s, g) + {n} else Holders(s, h);
    }
  }

  lemma SpawnedIntoLaws(s: State, s': State, n: RunnerId, g: GroupId)
    requires Spawns(s, s', n) && n !in s.runners && g < |s.groups| && GroupOk(s, g)
    requires s.groups[g].hold == Local && s.groups[g].kind != External && Law(s, g)
    requires s'.groups == s.groups[g := s.groups[g].(refs := s.groups[g].refs + 1, spawned := s.groups[g].spawned + 1)]
    ensures LawsKept(s, s', None)
  {
  }

  /** A child of a group that its owner still holds. */
  lemma SpawningIntoKeeps(s: State, sched: SchedId, g: GroupId, home: SchedId)
    requires Core(s) && g < |s.groups| && s.groups[g].hold == Local && s.groups[g].kind != External && Law(s, g)
    requires s.groups[g].kind != Waiting ==> s.groups[g].spawned < s.groups[g].size
    ensures var s' := SpawningInto(s, sched, g, home); Core(s') && LawsKept(s, s', None)
  {
    var s' := SpawningInto(s, sched, g, home);
    NumbersAreNew(s);
    SpawnedInto(s, s', s.nextRunner, g);
    SpawnedIntoLaws(s, s', s.nextRunner, g);
    SpawnedKeeps(s, s', s.nextRunner);
  }

  // ----- A worker pops a task

  predicate EnteredBy(th: Thread, task: Task) {
    && th.phase.Body? && th.phase.r == task.runner && th.on == task.sched
    && th.tlsRunner == Some(task.runner) && th.tlsCoro == Some(task.runner)
    && th.phase.frame.FromStart? == task.start
  }

  ghost predicate Enters(s: State, s': State, t: nat, k: nat) {
    && t < |s.threads| && s.threads[t].phase == Idle && MayPop(s, k)
    && |s'.threads| == |s.threads| && s'.threads == s.threads[t := s'.threads[t]]
    && EnteredBy(s'.threads[t], s.posted[k])
    && s' == s.(posted := s.posted - {k}, threads := s'.threads, calls := s'.calls)
  }

  lemma EnterPlaces(s: State, s': State, t: nat, k: nat)
    requires Placed(s) && Enters(s, s', t, k)
    ensures Placed(s')
  {
    forall x | x != InQueue(k) && x != OnThread(t)
      ensures At(s', x) == At(s, x)
    {
    }
    PlacedMove(s, s', s.posted[k].runner, InQueue(k), OnThread(t));
  }

  lemma EnterTasks(s: State, s': State, t: nat, k: nat)
    requires TasksOk(s) && Enters(s, s', t, k)
    ensures TasksOk(s')
  {
  }

  lemma EnterThreads(s: State, s': State, t: nat, k: nat)
    requires TasksOk(s) && ThreadsOk(s) && StrandsOk(s) && ExclusiveOk(s) && Enters(s, s', t, k)
    ensures ThreadsOk(s') && StrandsOk(s') && ExclusiveOk(s')
  {
    assert TaskOk(s, k);
    forall u | 0 <= u < |s'.threads|
      ensures ThreadOk(s', u)
    {
      if u != t { assert ThreadOk(s, u); }
    }
    assert forall u | 0 <= u < |s.threads| :: LoopsAny(s', u) == LoopsAny(s, u);
  }

  /** Only queues and a thread that was not looping have changed. */
  lemma GroupsUntouched(s: State, s': State)
    requires s'.runners == s.runners && s'.groups == s.groups && s'.nextRunner == s.nextRunner
             && s'.exclusive == s.exclusive
    requires |s'.threads| == |s.threads|
    requires forall u | 0 <= u < |s.threads| && Spawner(s.threads[u].phase) :: s'.threads[u] == s.threads[u]
    requires RunnersOk(s) && GroupsOk(s) && CountOk(s) && s'.count == s.count
    ensures RunnersOk(s') && GroupsOk(s') && CountOk(s') && LawsKept(s, s', None)
  {
    forall c | c in s'.runners
      ensures RunnerOk(s', c)
    {
      assert RunnerOk(s, c);
    }
    forall g | 0 <= g < |s'.groups|
      ensures GroupOk(s', g)
    {
      assert GroupOk(s, g);
      assert Holders(s', g) == Holders(s, g);
    }
    assert Living(s') == Living(s);
  }

  lemma EnterKeeps(s: State, t: nat, k: nat)
    requires Core(s) && t < |s.threads| && s.threads[t].phase == Idle && MayPop(s, k)
    ensures var s' := EnterCoroutine(s, t, k); Core(s') && LawsKept(s, s', None)
  {
    var s' := EnterCoroutine(s, t, k);
    assert Enters(s, s', t, k);
    EnterPlaces(s, s', t, k);
    EnterTasks(s, s', t, k);
    EnterThreads(s, s', t, k);
    GroupsUntouched(s, s');
  }

  /** Nothing but the thread-local pointer keeps the thread from being idle. */
  predicate Leaves(ph: Phase) { ph.Clearing? || ph.Tail? }

  /** The thread gets ready for another task, or goes on without its runner. */
  ghost predicate Clears(s: State, s': State, t: nat) {
    && t < |s.threads| && Leaves(s.threads[t].phase)
    && |s'.threads| == |s.threads| && s' == s.(threads := s.threads[t := s'.threads[t]])
    && (|| s'.threads[t] == s.threads[t].(phase := Idle, tlsRunner := None)
        || (s'.threads[t] == s.threads[t].(phase := s'.threads[t].phase)
            && Leaves(s'.threads[t].phase) && s'.threads[t].phase.r == s.threads[t].phase.r))
  }

  lemma ClearPlacesAndTasks(s: State, s': State, t: nat)
    requires Placed(s) && TasksOk(s) && Clears(s, s', t)
    ensures Placed(s') && TasksOk(s')
  {
    forall x
      ensures At(s', x) == At(s, x)
    {
    }
    PlacedSame(s, s');
    forall j | j in s'.posted
      ensures TaskOk(s', j)
    {
      assert TaskOk(s, j);
    }
  }

  lemma ClearThreads(s: State, s': State, t: nat)
    requires ThreadsOk(s) && Clears(s, s', t)
    ensures ThreadsOk(s')
  {
    forall u | 0 <= u < |s'.threads|
      ensures ThreadOk(s', u)
    {
      assert ThreadOk(s, u);
    }
  }

  lemma ClearKeeps(s: State, s': State, t: nat)
    requires Core(s) && Clears(s, s', t)
    ensures Core(s') && LawsKept(s, s', None)
  {
    ClearPlacesAndTasks(s, s', t);
    ClearThreads(s, s', t);
    ExclusionKept(s, s');
    GroupsUntouched(s, s');
  }

  // ----- A group is made

  /** A new group whose pointer the owner keeps; the owner's thread may start to use it. */
  ghost predicate Opens(s: State, s': State, t: nat, kind: Kind, size: nat) {
    && t < |s.threads| && s.exclusive == None
    && (kind == AnyIndex ==> size > 0)
    && Occupant(s.threads[t].phase).Some?
    && var r := Occupant(s.threads[t].phase).value;
    (&& s'.groups == s.groups + [NewGroup(kind, r, t, size)]
     && (|| (kind == Waiting && s'.threads == s.threads && s.threads[t].phase.Body?)
         || (kind == External && Resumes(s, s', t, r, Calling(r, |s.groups|)))
         || ((kind == All || IsAny(kind)) && Resumes(s, s', t, r, Looping(r, |s.groups|))))
     && s' == s.(groups := s'.groups, threads := s'.threads, calls := s'.calls,
                 exclusive := if IsAny(kind) then Some(t) else None))
  }

  predicate Resumes(s: State, s': State, t: nat, r: RunnerId, ph: Phase)
    requires t < |s.threads|
  {
    s.threads[t].phase == Proceeding(r) && s'.threads == s.threads[t := s.threads[t].(phase := ph)]
  }

  lemma OpenPlacesAndTasks(s: State, s': State, t: nat, kind: Kind, size: nat)
    requires Placed(s) && TasksOk(s) && Opens(s, s', t, kind, size)
    ensures Placed(s') && TasksOk(s')
  {
    forall x
      ensures At(s', x) == At(s, x)
    {
    }
    PlacedSame(s, s');
    forall j | j in s'.posted
      ensures TaskOk(s', j)
    {
      assert TaskOk(s, j);
    }
  }

  lemma OpenThreads(s: State, s': State, t: nat, kind: Kind, size: nat)
    requires ThreadsOk(s) && Opens(s, s', t, kind, size)
    ensures ThreadsOk(s')
  {
    forall u | 0 <= u < |s'.threads|
      ensures ThreadOk(s', u)
    {
      assert ThreadOk(s, u);
    }
  }

  lemma OpenExclusion(s: State, s': State, t: nat, kind: Kind, size: nat)
    requires ThreadsOk(s) && StrandsOk(s) && ExclusiveOk(s) && Opens(s, s', t, kind, size)
    ensures StrandsOk(s') && ExclusiveOk(s')
  {
    forall u | 0 <= u < |s.threads|
      ensures LoopsAny(s', u) <==> u == t && IsAny(kind)
    {
      assert ThreadOk(s, u) && !LoopsAny(s, u);
    }
  }

  lemma OpenGroups(s: State, s': State, t: nat, kind: Kind, size: nat)
    requires Placed(s) && RunnersOk(s) && GroupsOk(s) && Opens(s, s', t, kind, size)
    ensures GroupsOk(s')
  {
    var r := Occupant(s.threads[t].phase).value;
    OthersElsewhere(s, t, r);
    assert RunnerOk(s, r);
    assert Holders(s', |s.groups|) == {} by {
      forall c | c in s.runners
        ensures s.runners[c].holds != Some(|s.groups|)
      {
        assert RunnerOk(s, c);
      }
    }
    forall g | 0 <= g < |s.groups|
      ensures GroupOk(s', g)
    {
      assert GroupOk(s, g);
      assert Holders(s', g) == Holders(s, g);
    }
  }

  lemma OpenRunners(s: State, s': State, t: nat, kind: Kind, size: nat)
    requires RunnersOk(s) && CountOk(s) && Opens(s, s', t, kind, size)
    ensures RunnersOk(s') && CountOk(s')
    ensures LawsKept(s, s', None) && Law(s', |s.groups|)
  {
  }

  lemma OpenKeeps(s: State, s': State, t: nat, kind: Kind, size: nat)
    requires Core(s) && Opens(s, s', t, kind, size)
    ensures Core(s') && LawsKept(s, s', None) && Law(s', |s.groups|)
  {
    OpenPlacesAndTasks(s, s', t, kind, size);
    OpenThreads(s, s', t, kind, size);
    OpenExclusion(s, s', t, kind, size);
    OpenGroups(s, s', t, kind, size);
    OpenRunners(s, s', t, kind, size);
  }

  // ----- A thread lets go of a group: the owner is parked there

  ghost predicate Lets(s: State, s': State, t: nat, r: RunnerId, g: GroupId) {
    && t < |s.threads| && OwnGroup(s, g, r) && s.groups[g].refs > 0 && s.groups[g].proceeds == 0
    && (|| s.threads[t].phase == Calling(r, g)
        || (s.threads[t].phase == Looping(r, g) && s.groups[g].spawned >= s.groups[g].size)
        || s.threads[t].phase == Dropping(r, g))
    && s'.groups == s.groups[g := s.groups[g].(hold := Released, refs := s.groups[g].refs - 1)]
    && s'.threads == s.threads[t := s.threads[t].(phase := Clearing(r))]
    && s' == s.(groups := s'.groups, threads := s'.threads, exclusive := if LoopsAny(s, t) then None else s.exclusive)
  }

  lemma LetPlaces(s: State, s': State, t: nat, r: RunnerId, g: GroupId)
    requires Placed(s) && Lets(s, s', t, r, g)
    ensures Placed(s')
  {
    forall x | x != OnThread(t) && x != AtGroup(g)
      ensures At(s', x) == At(s, x)
    {
    }
    PlacedMove(s, s', r, OnThread(t), AtGroup(g));
  }

  lemma LetTasks(s: State, s': State, t: nat, r: RunnerId, g: GroupId)
    requires TasksOk(s) && Lets(s, s', t, r, g)
    ensures TasksOk(s')
  {
  }

  lemma LetThreads(s: State, s': State, t: nat, r: RunnerId, g: GroupId)
    requires Placed(s) && ThreadsOk(s) && Lets(s, s', t, r, g)
    ensures ThreadsOk(s')
  {
    OthersElsewhere(s, t, r);
    forall u | 0 <= u < |s'.threads|
      ensures ThreadOk(s', u)
    {
      assert ThreadOk(s, u);
    }
  }

  lemma LetExclusion(s: State, s': State, t: nat, r: RunnerId, g: GroupId)
    requires StrandsOk(s) && ExclusiveOk(s) && Lets(s, s', t, r, g)
    ensures StrandsOk(s') && ExclusiveOk(s')
  {
  }

  lemma LetRunners(s: State, s': State, t: nat, r: RunnerId, g: GroupId)
    requires Placed(s) && ThreadsOk(s) && RunnersOk(s) && CountOk(s) && Lets(s, s', t, r, g)
    ensures RunnersOk(s') && CountOk(s')
  {
    assert ThreadOk(s, t);
    forall c | c in s'.runners
      ensures RunnerOk(s', c)
    {
      assert RunnerOk(s, c);
    }
    assert Living(s') == Living(s);
  }

  lemma LetGroups(s: State, s': State, t: nat, r: RunnerId, g: GroupId)
    requires ThreadsOk(s) && GroupsOk(s) && ExclusiveOk(s) && Lets(s, s', t, r, g)
    ensures GroupsOk(s') && LawsKept(s, s', Some(g))
  {
    assert ThreadOk(s, t);
    forall h | 0 <= h < |s'.groups|
      ensures GroupOk(s', h)
    {
      assert GroupOk(s, h);
      assert Holders(s', h) == Holders(s, h);
    }
  }

  lemma LetKeeps(s: State, s': State, t: nat, r: RunnerId, g: GroupId)
    requires Core(s) && Lets(s, s', t, r, g)
    ensures Core(s') && LawsKept(s, s', Some(g))
  {
    LetPlaces(s, s', t, r, g);
    LetTasks(s, s', t, r, g);
    LetThreads(s, s', t, r, g);
    LetExclusion(s, s', t, r, g);
    LetRunners(s, s', t, r, g);
    LetGroups(s, s', t, r, g);
  }

  // ----- The owner's proceed is called: it moves from the group to a queue

  /** The group's Any-fields may change on the way. */
  predicate SameButAny(grp: Group, grp': Group) {
    grp' == grp.(counter := grp'.counter, winner := grp'.winner, claim := grp'.claim, slot := grp'.slot,
                     proceeds := grp'.proceeds)
  }

  predicate NoWinnerAt(s: State, g: GroupId) {
    forall c | c in s.runners && s.runners[c].holds == Some(g) :: !s.runners[c].progress.Won?
  }

  ghost predicate Fires(s: State, s': State, g: GroupId) {
    && g < |s.groups| && Parked(s.groups[g]) && s.groups[g].owner in s.runners && NoWinnerAt(s, g)
    && |s'.groups| == |s.groups| && s'.groups == s.groups[g := s'.groups[g]]
    && SameButAny(s.groups[g], s'.groups[g]) && s'.groups[g].proceeds == 1
    && s'.posted == s.posted[s.nextTicket := Task(s.groups[g].owner, false, s.runners[s.groups[g].owner].sched)]
    && s' == s.(groups := s'.groups, posted := s'.posted, nextTicket := s.nextTicket + 1)
  }

  lemma FirePlaces(s: State, s': State, g: GroupId)
    requires Placed(s) && TasksOk(s) && RunnersOk(s) && Fires(s, s', g)
    ensures Placed(s')
  {
    NumbersAreNew(s);
    forall x | x != InQueue(s.nextTicket) && x != AtGroup(g)
      ensures At(s', x) == At(s, x)
    {
    }
    PlacedMove(s, s', s.groups[g].owner, AtGroup(g), InQueue(s.nextTicket));
  }

  lemma FireTasks(s: State, s': State, g: GroupId)
    requires TasksOk(s) && GroupsOk(s) && Fires(s, s', g)
    ensures TasksOk(s')
  {
    assert GroupOk(s, g);
    forall k | k in s'.posted
      ensures TaskOk(s', k)
    {
      if k != s.nextTicket { assert TaskOk(s, k); }
    }
  }

  lemma FireThreads(s: State, s': State, g: GroupId)
    requires ThreadsOk(s) && Fires(s, s', g)
    ensures ThreadsOk(s')
  {
    forall t | 0 <= t < |s'.threads|
      ensures ThreadOk(s', t)
    {
      assert ThreadOk(s, t);
    }
  }

  lemma FireGroups(s: State, s': State, g: GroupId)
    requires RunnersOk(s) && GroupsOk(s) && CountOk(s) && Fires(s, s', g)
    ensures RunnersOk(s') && GroupsOk(s') && CountOk(s') && LawsKept(s, s', Some(g))
  {
    forall c | c in s'.runners
      ensures RunnerOk(s', c)
    {
      assert RunnerOk(s, c);
    }
    forall h | 0 <= h < |s'.groups|
      ensures GroupOk(s', h)
    {
      assert GroupOk(s, h);
      assert Holders(s', h) == Holders(s, h);
    }
    assert Living(s') == Living(s);
  }

  lemma FireKeeps(s: State, s': State, g: GroupId)
    requires Core(s) && Fires(s, s', g)
    ensures Core(s') && LawsKept(s, s', Some(g))
  {
    FirePlaces(s, s', g);
    FireTasks(s, s', g);
    FireThreads(s, s', g);
    ExclusionKept(s, s');
    FireGroups(s, s', g);
  }

  // ----- A runner calls its own proceed

  ghost predicate SelfFires(s: State, s': State, t: nat, r: RunnerId) {
    && t < |s.threads| && s.threads[t].phase == Proceeding(r) && r in s.runners
    && s'.threads == s.threads[t := s.threads[t].(phase := Clearing(r))]
    && s'.posted == s.posted[s.nextTicket := Task(r, false, s.runners[r].sched)]
    && s' == s.(threads := s'.threads, posted := s'.posted, nextTicket := s.nextTicket + 1)
  }

  lemma SelfFirePlaces(s: State, s': State, t: nat, r: RunnerId)
    requires Placed(s) && TasksOk(s) && RunnersOk(s) && SelfFires(s, s', t, r)
    ensures Placed(s')
  {
    NumbersAreNew(s);
    forall x | x != InQueue(s.nextTicket) && x != OnThread(t)
      ensures At(s', x) == At(s, x)
    {
    }
    PlacedMove(s, s', r, OnThread(t), InQueue(s.nextTicket));
  }

  lemma SelfFireThreads(s: State, s': State, t: nat, r: RunnerId)
    requires TasksOk(s) && ThreadsOk(s) && SelfFires(s, s', t, r)
    ensures TasksOk(s') && ThreadsOk(s')
  {
    assert ThreadOk(s, t);
    forall k | k in s'.posted
      ensures TaskOk(s', k)
    {
      if k != s.nextTicket { assert TaskOk(s, k); }
    }
    forall u | 0 <= u < |s'.threads|
      ensures ThreadOk(s', u)
    {
      assert ThreadOk(s, u);
    }
  }

  lemma SelfFireKeeps(s: State, s': State, t: nat, r: RunnerId)
    requires Core(s) && SelfFires(s, s', t, r)
    ensures Core(s') && LawsKept(s, s', None)
  {
    SelfFirePlaces(s, s', t, r);
    SelfFireThreads(s, s', t, r);
    ExclusionKept(s, s');
    GroupsUntouched(s, s');
  }

  // ----- The child of an Any-combinator raises the counter, or hands over what it won

  ghost predicate Tweaks(s: State, s': State, r: RunnerId, g: GroupId) {
    && r in s.runners && s.runners[r].holds == Some(g) && g < |s.groups|
    && !s.runners[r].dying && s.runners[r].deferred == None
    && (forall k | k in s.posted :: s.posted[k].runner != r)
    && (forall h | 0 <= h < |s.groups| && Parked(s.groups[h]) :: s.groups[h].owner != r)
    && (forall u | 0 <= u < |s.threads| && Occupant(s.threads[u].phase) == Some(r) :: s.threads[u].phase.Body?)
    && r in s'.runners && s'.runners == s.runners[r := s.runners[r].(progress := s'.runners[r].progress)]
    && |s'.groups| == |s.groups| && s'.groups == s.groups[g := s'.groups[g]]
    && SameButAny(s.groups[g], s'.groups[g]) && s'.groups[g].proceeds == s.groups[g].proceeds
    && s.groups[g].hold == Released
    && s' == s.(groups := s'.groups, runners := s'.runners)
  }

  lemma TweakPlaces(s: State, s': State, r: RunnerId, g: GroupId)
    requires Placed(s) && Tweaks(s, s', r, g)
    ensures Placed(s')
  {
    forall x
      ensures At(s', x) == At(s, x)
    {
    }
    PlacedSame(s, s');
  }

  lemma TweakTasksAndThreads(s: State, s': State, r: RunnerId, g: GroupId)
    requires TasksOk(s) && ThreadsOk(s) && Tweaks(s, s', r, g)
    ensures TasksOk(s') && ThreadsOk(s')
  {
    forall k | k in s'.posted
      ensures TaskOk(s', k)
    {
      assert TaskOk(s, k);
    }
    forall u | 0 <= u < |s'.threads|
      ensures ThreadOk(s', u)
    {
      assert ThreadOk(s, u);
    }
  }

  lemma TweakGroups(s: State, s': State, r: RunnerId, g: GroupId)
    requires GroupsOk(s) && CountOk(s) && Tweaks(s, s', r, g)
    ensures GroupsOk(s') && CountOk(s')
  {
    forall h | 0 <= h < |s'.groups|
      ensures GroupOk(s', h)
    {
      assert GroupOk(s, h);
      assert Holders(s', h) == Holders(s, h);
    }
    assert Living(s') == Living(s);
  }

  lemma TweakKeeps(s: State, s': State, r: RunnerId, g: GroupId)
    requires Core(s) && Tweaks(s, s', r, g) && RunnerOk(s', r)
    requires forall c | c in s.runners && c != r && s.runners[c].holds == Some(g) && s.runners[c].progress.Won? ::
               WonBy(s'.groups[g], c, s.runners[c].progress.value)
    ensures Core(s') && LawsKept(s, s', Some(g))
  {
    TweakPlaces(s, s', r, g);
    TweakTasksAndThreads(s, s', r, g);
    ExclusionKept(s, s');
    TweakGroups(s, s', r, g);
    TweakRunners(s, s', r, g);
    TweakLaws(s, s', r, g);
  }

  lemma TweakRunners(s: State, s': State, r: RunnerId, g: GroupId)
    requires RunnersOk(s) && Tweaks(s, s', r, g) && RunnerOk(s', r)
    requires forall c | c in s.runners && c != r && s.runners[c].holds == Some(g) && s.runners[c].progress.Won? ::
               WonBy(s'.groups[g], c, s.runners[c].progress.value)
    ensures RunnersOk(s')
  {
  }

  lemma TweakLaws(s: State, s': State, r: RunnerId, g: GroupId)
    requires Tweaks(s, s', r, g)
    ensures LawsKept(s, s', Some(g))
  {
  }

  // ----- A runner's members are destroyed

  ghost predicate Destroys(s: State, s': State, t: nat, r: RunnerId) {
    && t < |s.threads| && s.threads[t].phase == Destroying(r) && r in s.runners
    && s'.runners == s.runners - {r}
    && s'.threads == s.threads[t := s.threads[t].(phase := Clearing(r))]
    && (match s.runners[r].holds
        case None => s'.groups == s.groups
        case Some(g) =>
          && g < |s.groups| && s.groups[g].refs > 0
          && s'.groups == s.groups[g := s.groups[g].(refs := s.groups[g].refs - 1)])
    && s' == s.(runners := s'.runners, threads := s'.threads, groups := s'.groups)
  }

  lemma DestroyPlaces(s: State, s': State, t: nat, r: RunnerId)
    requires Placed(s) && Destroys(s, s', t, r)
    ensures Placed(s')
  {
    forall x | x != OnThread(t)
      ensures At(s', x) == At(s, x)
    {
    }
    PlacedGone(s, s', r, OnThread(t));
  }

  lemma DestroyTasks(s: State, s': State, t: nat, r: RunnerId)
    requires Placed(s) && TasksOk(s) && Destroys(s, s', t, r)
    ensures TasksOk(s')
  {
    OthersElsewhere(s, t, r);
    forall k | k in s'.posted
      ensures TaskOk(s', k)
    {
      assert TaskOk(s, k);
    }
  }

  lemma DestroyThreads(s: State, s': State, t: nat, r: RunnerId)
    requires Placed(s) && ThreadsOk(s) && Destroys(s, s', t, r)
    ensures ThreadsOk(s')
  {
    OthersElsewhere(s, t, r);
    forall u | 0 <= u < |s'.threads|
      ensures ThreadOk(s', u)
    {
      assert ThreadOk(s, u);
    }
  }

  lemma DestroyExclusion(s: State, s': State, t: nat, r: RunnerId)
    requires StrandsOk(s) && ExclusiveOk(s) && Destroys(s, s', t, r)
    ensures StrandsOk(s') && ExclusiveOk(s')
  {
    ExclusionKept(s, s');
  }

  lemma DestroyRunners(s: State, s': State, t: nat, r: RunnerId)
    requires ThreadsOk(s) && RunnersOk(s) && CountOk(s) && Destroys(s, s', t, r)
    ensures RunnersOk(s') && CountOk(s')
  {
    assert ThreadOk(s, t);
    forall c | c in s'.runners
      ensures RunnerOk(s', c)
    {
      assert RunnerOk(s, c);
    }
    assert Living(s') == Living(s);
  }

  lemma DestroyGroups(s: State, s': State, t: nat, r: RunnerId)
    requires Placed(s) && GroupsOk(s) && Destroys(s, s', t, r)
    ensures GroupsOk(s')
  {
    OthersElsewhere(s, t, r);
    forall h | 0 <= h < |s'.groups|
      ensures GroupOk(s', h)
    {
      assert GroupOk(s, h);
      DestroyRefs(s, s', t, r, h);
    }
  }

  lemma DestroyRefs(s: State, s': State, t: nat, r: RunnerId, h: GroupId)
    requires Destroys(s, s', t, r) && h < |s.groups| && RefsOk(s, h)
    ensures RefsOk(s', h)
  {
    if s.runners[r].holds == Some(h) {
      assert Holders(s', h) == Holders(s, h) - {r};
    } else {
      assert Holders(s', h) == Holders(s, h);
    }
  }

  lemma DestroyLaws(s: State, s': State, t: nat, r: RunnerId)
    requires ThreadsOk(s) && Destroys(s, s', t, r)
    ensures LawsKept(s, s', s.runners[r].holds)
  {
  }

  lemma DestroyKeeps(s: State, s': State, t: nat, r: RunnerId)
    requires Core(s) && Destroys(s, s', t, r)
    ensures Core(s') && LawsKept(s, s', s.runners[r].holds)
  {
    DestroyPlaces(s, s', t, r);
    DestroyTasks(s, s', t, r);
    DestroyThreads(s, s', t, r);
    DestroyExclusion(s, s', t, r);
    DestroyRunners(s, s', t, r);
    DestroyGroups(s, s', t, r);
    DestroyLaws(s, s', t, r);
  }
}
