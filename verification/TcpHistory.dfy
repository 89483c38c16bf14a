/**
 * The TCP server told by its history alone: what is in its slots, in its queue and in its flags, after any run, is
 * determined by which calls, closures and events there were.
 */
module TcpHistory {
  import opened Options
  import opened TcpServer

  ghost predicate Happened(events: seq<Event>, n: nat, e: Event)
    requires n <= |events|
  {
    exists i | 0 <= i < n :: events[i] == e
  }

  lemma HappenedNext(events: seq<Event>, n: nat, e: Event)
    requires n < |events|
    ensures Happened(events, n + 1, e) <==> Happened(events, n, e) || events[n] == e
  {
    if Happened(events, n, e) {
      var i :| 0 <= i < n && events[i] == e;
    }
  }

  /** The closure that runs with this event. */
  function Ran(s: State, e: Event): Option<Job> { if e.Run? && s.queue != [] then Some(s.queue[0]) else None }

  /** The closures that are posted with this event, in this order. */
  function Posts(s: State, e: Event): seq<Job> {
    match e
    case Start => if s.running then [] else [Listen]
    case Stop => [Stopping]
    case Arrive(x) => if s.open then [Accepted(x)] else []
    case Report(x) => [Disconnected(x)]
    case Run =>
      if s.queue != [] && s.queue[0].Accepted? && s.running && !Full(s.slots)
      then [Connected(s.queue[0].socket), Next] else []
    case _ => []
  }

  predicate Full(slots: seq<Option<Socket>>) { forall i | 0 <= i < |slots| :: slots[i].Some? }

  // ----- The queue

  /** All closures posted by the first `n` events. */
  function AllPosted(states: seq<State>, events: seq<Event>, n: nat): seq<Job>
    requires |states| == |events| + 1 && n <= |events|
  {
    if n == 0 then [] else AllPosted(states, events, n - 1) + Posts(states[n - 1], events[n - 1])
  }

  /** All closures run by them. */
  function Executed(states: seq<State>, events: seq<Event>, n: nat): seq<Job>
    requires |states| == |events| + 1 && n <= |events|
  {
    if n == 0 then []
    else
      var ran := Ran(states[n - 1], events[n - 1]);
      Executed(states, events, n - 1) + if ran.Some? then [ran.value] else []
  }

  lemma StepQueue(s: State, e: Event)
    requires Enabled(s, e) && Defined(s, e)
    ensures (if e.Run? then [s.queue[0]] else []) + Do(s, e).queue == s.queue + Posts(s, e)
  {
    if e.Run? { RunQueue(s); }
  }

  lemma RunQueue(s: State)
    requires Enabled(s, Run) && Defined(s, Run)
    ensures [s.queue[0]] + Do(s, Run).queue == s.queue + Posts(s, Run)
  {
    var job, rest := s.queue[0], s.queue[1..];
    assert s.queue == [job] + rest;
    if job.Accepted? { AcceptedPosts(Popped(s), job.socket); } else { PerformWaits(Popped(s), job); }
  }

  lemma AcceptedPosts(s: State, x: Socket)
    ensures Accepting(s, x).queue == s.queue + if s.running && !Full(s.slots) then [Connected(x), Next] else []
  {
    assert s.queue + [Connected(x)] + [Next] == s.queue + [Connected(x), Next];
    var i := FirstFree(s.slots, 0);
    assert i < |s.slots| ==> s.slots[i].None?;
  }

  lemma Rejoin(done: seq<Job>, ran: seq<Job>, q: seq<Job>, q': seq<Job>, posted: seq<Job>, more: seq<Job>)
    requires done + q == posted && ran + q' == q + more
    ensures (done + ran) + q' == posted + more
  {
    assert (done + ran) + q' == done + (ran + q') == (done + q) + more;
  }

  /** Every closure that is posted is run once, in the order of posting, or is still in the queue. */
  lemma {:induction false} EachRunsOnce(states: seq<State>, events: seq<Event>, n: nat)
    requires IsCarefulRun(states, events) && n <= |events|
    ensures Executed(states, events, n) + states[n].queue == AllPosted(states, events, n)
  {
    if n > 0 {
      var s, e := states[n - 1], events[n - 1];
      EachRunsOnce(states, events, n - 1);
      RunsAreSafe(states, events, n - 1);
      StepQueue(s, e);
      Rejoin(Executed(states, events, n - 1), if e.Run? then [s.queue[0]] else [], s.queue, states[n].queue,
             AllPosted(states, events, n - 1), Posts(s, e));
    }
  }

  // ----- The slots

  /** A socket comes into a slot only when it is accepted, and out of it only when it is released. */
  lemma SlotStep(s: State, e: Event, x: Socket)
    requires Inv(s) && Enabled(s, e) && Defined(s, e)
    ensures x in s.ids ==> x in Do(s, e).ids && Do(s, e).ids[x] == s.ids[x]
    ensures e == Release(x) ==> x in s.ids
    ensures Some(x) in Do(s, e).slots <==>
            if x in s.ids then Some(x) in s.slots && e != Release(x) else x in Do(s, e).ids
  {
    if e == Release(x) { assert InItsSlot(s, x); }
    if e.Run? {
      RunSlots(s, x);
    } else if e.Release? {
      ReleaseSlots(s, e.socket, x);
    }
  }

  lemma HasSlot(s: State, x: Socket)
    requires SocketsOk(s)
    ensures Some(x) in s.slots <==> InItsSlot(s, x)
  {
  }

  lemma RunSlots(s: State, x: Socket)
    requires Inv(s) && Enabled(s, Run) && Defined(s, Run)
    ensures x in s.ids ==> x in Do(s, Run).ids && Do(s, Run).ids[x] == s.ids[x]
    ensures Some(x) in Do(s, Run).slots <==> if x in s.ids then Some(x) in s.slots else x in Do(s, Run).ids
  {
    var job := s.queue[0];
    assert JobOk(s, job);
    if job.Accepted? {
      AcceptedFills(Popped(s), job.socket, x);
    } else {
      PerformKeepsSlots(Popped(s), job);
      HasSlot(s, x);
    }
  }

  lemma PerformKeepsSlots(s: State, job: Job)
    requires JobDefined(s, job) && !job.Accepted?
    ensures Perform(s, job).slots == s.slots && Perform(s, job).ids == s.ids
  {
  }

  lemma AcceptedFills(s: State, y: Socket, x: Socket)
    requires SocketsOk(s) && y in s.arrived && y !in s.ids
    ensures x in s.ids ==> x in Accepting(s, y).ids && Accepting(s, y).ids[x] == s.ids[x]
    ensures Some(x) in Accepting(s, y).slots <==> if x in s.ids then Some(x) in s.slots else x in Accepting(s, y).ids
  {
    HasSlot(s, x);
    if s.running && FirstFree(s.slots, 0) < |s.slots| {
      AcceptedSockets(s, y);
      HasSlot(Accepting(s, y), x);
    }
  }

  /** The slot of the socket is free afterwards, whether the server is running or not, and no other slot is touched. */
  lemma ReleaseFrees(s: State, x: Socket)
    requires Inv(s) && Enabled(s, Release(x))
    ensures Defined(s, Release(x)) && x in s.ids && 1 <= s.ids[x] <= |s.slots|
    ensures Do(s, Release(x)).slots == s.slots[s.ids[x] - 1 := None] && s.slots[s.ids[x] - 1] == Some(x)
  {
    assert InItsSlot(s, x);
  }

  lemma ReleaseSlots(s: State, y: Socket, x: Socket)
    requires Inv(s) && Enabled(s, Release(y))
    ensures Defined(s, Release(y)) && Do(s, Release(y)).ids == s.ids
    ensures Some(x) in Do(s, Release(y)).slots <==> Some(x) in s.slots && x != y
  {
    ReleaseFrees(s, y);
    HasSlot(s, x);
    var s' := Do(s, Release(y));
    if InItsSlot(s, x) && x != y { assert s'.slots[s.ids[x] - 1] == Some(x); }
  }

  lemma {:induction false} ReleasedWasAccepted(states: seq<State>, events: seq<Event>, n: nat, x: Socket)
    requires IsCarefulRun(states, events) && n <= |events| && x !in states[n].ids
    ensures !Happened(events, n, Release(x))
  {
    if n > 0 {
      RunsAreSafe(states, events, n - 1);
      SlotStep(states[n - 1], events[n - 1], x);
      ReleasedWasAccepted(states, events, n - 1, x);
      HappenedNext(events, n - 1, Release(x));
    }
  }

  /** A socket is in a slot, and can be asked for, exactly from its acceptance to its release. */
  lemma {:induction false} SlotLife(states: seq<State>, events: seq<Event>, n: nat, x: Socket)
    requires IsCarefulRun(states, events) && n <= |events|
    ensures Some(x) in states[n].slots <==> x in states[n].ids && !Happened(events, n, Release(x))
  {
    if n > 0 {
      RunsAreSafe(states, events, n - 1);
      SlotLife(states, events, n - 1, x);
      SlotStep(states[n - 1], events[n - 1], x);
      HappenedNext(events, n - 1, Release(x));
      if x !in states[n - 1].ids { ReleasedWasAccepted(states, events, n - 1, x); }
    }
  }

  /** There is an id under which GetSocket finds it, exactly as long. */
  lemma FoundUntilReleased(states: seq<State>, events: seq<Event>, n: nat, x: Socket)
    requires IsCarefulRun(states, events) && n <= |events|
    ensures (exists id :: SocketOf(states[n], id) == Some(x)) <==>
            x in states[n].ids && !Happened(events, n, Release(x))
  {
    RunsAreSafe(states, events, n);
    SlotLife(states, events, n, x);
    HasSlot(states[n], x);
    if InItsSlot(states[n], x) { assert SocketOf(states[n], states[n].ids[x]) == Some(x); }
  }

  /** A server has raised on_stopped_ since its last start exactly if it was stopped and has released every socket. */
  lemma StoppedWhenReleased(states: seq<State>, events: seq<Event>, n: nat)
    requires IsCarefulRun(states, events) && n <= |events|
    ensures states[n].raised <==>
            !states[n].running && forall x | x in states[n].ids :: Happened(events, n, Release(x))
  {
    RunsAreSafe(states, events, n);
    var s := states[n];
    forall x
      ensures Some(x) in s.slots <==> x in s.ids && !Happened(events, n, Release(x))
    {
      SlotLife(states, events, n, x);
    }
    if !Empty(s.slots) {
      var i :| 0 <= i < |s.slots| && s.slots[i].Some?;
      assert s.slots[i].value in s.ids && Some(s.slots[i].value) in s.slots;
    }
  }

  // ----- Disconnections

  /** Where the disconnection of a socket is: nowhere yet, posted, with the subscribers, or over. */
  ghost predicate OneOf(a: bool, b: bool, c: bool, d: bool) {
    && (a || b || c || d)
    && !(a && b) && !(a && c) && !(a && d) && !(b && c) && !(b && d) && !(c && d)
  }

  ghost predicate Over(events: seq<Event>, n: nat, x: Socket)
    requires n <= |events|
  {
    Happened(events, n, Release(x)) || Happened(events, n, Fail(x))
  }

  /** What an event does to the stage of a socket, and at which stage it can occur. */
  lemma StepDisconnects(s: State, e: Event, x: Socket)
    requires Inv(s) && Enabled(s, e) && Defined(s, e)
    ensures x in Do(s, e).reported <==> x in s.reported || e == Report(x)
    ensures Disconnected(x) in Do(s, e).queue <==>
            (Disconnected(x) in s.queue && Ran(s, e) != Some(Disconnected(x))) || e == Report(x)
    ensures x in Do(s, e).busy <==>
            (x in s.busy && e != Release(x) && e != Fail(x)) || Ran(s, e) == Some(Disconnected(x))
    ensures e == Report(x) ==> x !in s.reported
    ensures Ran(s, e) == Some(Disconnected(x)) ==> Disconnected(x) in s.queue
    ensures e == Release(x) || e == Fail(x) ==> x in s.busy
  {
    if e.Run? { RunDisconnects(s, x); } else { StepQueue(s, e); }
  }

  lemma RunDisconnects(s: State, x: Socket)
    requires Inv(s) && Enabled(s, Run) && Defined(s, Run)
    ensures Do(s, Run).reported == s.reported
    ensures Disconnected(x) in Do(s, Run).queue <==> Disconnected(x) in s.queue && s.queue[0] != Disconnected(x)
    ensures x in Do(s, Run).busy <==> x in s.busy || s.queue[0] == Disconnected(x)
  {
    HeadGone(s.queue, x);
    RunQueue(s);
    assert Disconnected(x) in [s.queue[0]] + Do(s, Run).queue <==> Disconnected(x) in s.queue + Posts(s, Run);
    PerformBusy(Popped(s), s.queue[0]);
  }

  lemma PerformBusy(s: State, job: Job)
    requires JobDefined(s, job)
    ensures Perform(s, job).reported == s.reported
    ensures Perform(s, job).busy.Keys == s.busy.Keys + if job.Disconnected? then {job.socket} else {}
  {
  }

  lemma HeadGone(q: seq<Job>, x: Socket)
    requires InOrder(q) && q != []
    ensures Disconnected(x) in q[1..] <==> Disconnected(x) in q && q[0] != Disconnected(x)
  {
    PopKeepsOrder(q);
    assert q == [q[0]] + q[1..];
  }

  lemma DisconnectsInRun(states: seq<State>, events: seq<Event>, n: nat, x: Socket)
    requires IsCarefulRun(states, events) && n < |events|
    ensures var s, e, s' := states[n], events[n], states[n + 1];
            && (x in s'.reported <==> x in s.reported || e == Report(x))
            && (Disconnected(x) in s'.queue <==>
                  (Disconnected(x) in s.queue && Ran(s, e) != Some(Disconnected(x))) || e == Report(x))
            && (x in s'.busy <==>
                  (x in s.busy && e != Release(x) && e != Fail(x)) || Ran(s, e) == Some(Disconnected(x)))
            && (e == Report(x) ==> x !in s.reported)
            && (Ran(s, e) == Some(Disconnected(x)) ==> Disconnected(x) in s.queue)
            && (e == Release(x) || e == Fail(x) ==> x in s.busy)
  {
    RunsAreSafe(states, events, n);
    StepDisconnects(states[n], events[n], x);
  }

  /**
   * A socket that has reported its disconnection is at exactly one stage: its closure is posted, it is with the
   * subscribers, or that is over, and it was released or a subscriber has thrown.
   */
  lemma {:induction false} DisconnectionLife(states: seq<State>, events: seq<Event>, n: nat, x: Socket)
    requires IsCarefulRun(states, events) && n <= |events|
    ensures x in states[n].reported <==> Happened(events, n, Report(x))
    ensures OneOf(!Happened(events, n, Report(x)), Disconnected(x) in states[n].queue, x in states[n].busy,
                  Over(events, n, x))
  {
    if n > 0 {
      DisconnectionLife(states, events, n - 1, x);
      DisconnectsInRun(states, events, n - 1, x);
      HappenedNext(events, n - 1, Report(x));
      HappenedNext(events, n - 1, Release(x));
      HappenedNext(events, n - 1, Fail(x));
    }
  }

  // ----- The flag

  /** The server is started by an event, or stopped by it. */
  predicate Stops(s: State, e: Event) { Ran(s, e) == Some(Stopping) }

  /** A server runs exactly if it was started, and no closure of Stop has run since. */
  lemma {:induction false} RunningSince(states: seq<State>, events: seq<Event>, n: nat)
    requires IsCarefulRun(states, events) && n <= |events|
    ensures states[n].running <==>
            exists i | 0 <= i < n :: events[i].Start? && forall j | i < j < n :: !Stops(states[j], events[j])
    ensures states[n].open ==> states[n].running
  {
    RunsAreSafe(states, events, n);
    if n > 0 {
      var s, e := states[n - 1], events[n - 1];
      RunsAreSafe(states, events, n - 1);
      RunningSince(states, events, n - 1);
      StepRuns(s, e);
      if s.running && !Stops(s, e) {
        var i :| 0 <= i < n - 1 && events[i].Start? && forall j | i < j < n - 1 :: !Stops(states[j], events[j]);
        assert forall j | i < j < n :: !Stops(states[j], events[j]);
      }
    }
  }

  lemma StepRuns(s: State, e: Event)
    requires Enabled(s, e) && Defined(s, e)
    ensures Do(s, e).running <==> e.Start? || (s.running && !Stops(s, e))
  {
  }

  // ----- The count

  function Used(slots: seq<Option<Socket>>): set<nat> { set i: nat | i < |slots| && slots[i].Some? }

  /** GetConnectedCount counts the slots in use. */
  lemma {:induction false} CountIsExact(slots: seq<Option<Socket>>)
    ensures Count(slots) == |Used(slots)|
  {
    if slots != [] {
      var k := |slots| - 1;
      CountIsExact(slots[..k]);
      assert Used(slots) == Used(slots[..k]) + if slots[k].Some? then {k} else {};
    }
  }
}
