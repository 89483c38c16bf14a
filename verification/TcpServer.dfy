/**
 * The TCP server: its slots, the closures that it posts, and the one moment at which it reports that it has stopped.
 *
 * The closures of a server run on a strand, one at a time and in the order in which they were posted.  A closure that
 * calls the subscribers to a disconnection may suspend in them, and then it is cut in two; and so is one that waits
 * for a connection.
 */
module TcpServer {
  import opened Options

  /** The identity of a socket object. */
  type Socket = nat

  datatype Job =
    | Listen                          // posted by Start
    | Stopping                        // posted by Stop
    | Accepted(socket: Socket)        // posted when a connection has come, runs OnAccepted
    | Connected(socket: Socket)       // tells the subscribers
    | Next                            // waits for the next connection
    | Disconnected(socket: Socket)    // tells the subscribers and releases the slot

  datatype State = State(
    running: bool,                    // is_running_
    slots: seq<Option<Socket>>,       // client_connections_
    ids: map<Socket, nat>,            // the id that each accepted socket was given
    queue: seq<Job>,                  // the posted closures, the oldest first
    busy: map<Socket, nat>,           // disconnections that are with the subscribers, and the id that was read for them
    acceptor: bool,                   // whether acceptor_ is set
    open: bool,                       // and its socket is open
    accepting: nat,                   // closures that wait in DoAccept of that acceptor
    stale: nat,                       // and of acceptors that were replaced
    arrived: set<Socket>,             // the sockets that DoAccept has made
    reported: set<Socket>,            // the sockets that have reported their disconnection
    starts: nat,                      // history: how often the server was started
    stops: nat,                       // history: how often on_stopped_ was raised
    raised: bool)                     // history: whether it was since the last start

  datatype Event =
    | Start
    | Stop
    | Run                       // the oldest closure
    | Arrive(socket: Socket)    // DoAccept goes on, with a connection or because the acceptor was closed
    | Late                      // and so does one whose acceptor was replaced
    | Report(socket: Socket)    // the socket raises its event, and the server posts a closure
    | Release(socket: Socket)   // the subscribers have returned, the slot is cleared
    | Fail(socket: Socket)      // one of them has thrown

  // ----- What the program computes

  function FirstFree(slots: seq<Option<Socket>>, from: nat): (i: nat)
    requires from <= |slots|
    ensures from <= i <= |slots|
    ensures i < |slots| ==> slots[i].None?
    ensures forall j | from <= j < i :: slots[j].Some?
    decreases |slots| - from
  {
    if from < |slots| && slots[from].Some? then FirstFree(slots, from + 1) else from
  }

  function Count(slots: seq<Option<Socket>>): (n: nat)
    ensures n <= |slots|
    ensures n == 0 <==> Empty(slots)
  {
    if slots == [] then 0 else Count(slots[..|slots| - 1]) + if slots[|slots| - 1].Some? then 1 else 0
  }

  predicate Empty(slots: seq<Option<Socket>>) { forall i | 0 <= i < |slots| :: slots[i].None? }

  function SocketIndex(id: nat): nat { if id < 1 then 0 else id - 1 }

  function SocketOf(s: State, id: nat): Option<Socket> {
    if id < 1 || SocketIndex(id) >= |s.slots| then None else s.slots[SocketIndex(id)]
  }

  /** RaiseOnClosed */
  function Raised(s: State): State {
    if Count(s.slots) == 0 then s.(stops := s.stops + 1, raised := true) else s
  }

  // ----- Steps

  /** A connection has its own socket, and a socket reports its disconnection at most once. */
  predicate Enabled(s: State, e: Event) {
    match e
    case Start => true
    case Stop => true
    case Run => s.queue != []
    case Arrive(socket) => s.accepting > 0 && socket !in s.arrived
    case Late => s.stale > 0
    case Report(socket) => socket in s.ids && socket !in s.reported
    case Release(socket) => socket in s.busy
    case Fail(socket) => socket in s.busy
  }

  /** The acceptor is there, and the socket is. */
  predicate JobDefined(s: State, job: Job) {
    match job
    case Stopping => s.running ==> s.acceptor
    case Next => s.running ==> s.acceptor
    case Connected(socket) => socket in s.ids && Some(socket) in s.slots
    case Disconnected(socket) => socket in s.ids && Some(socket) in s.slots
    case _ => true
  }

  predicate Defined(s: State, e: Event)
    requires Enabled(s, e)
  {
    match e
    case Run => JobDefined(s, s.queue[0])
    case Late => false
    case Release(socket) => SocketIndex(s.busy[socket]) < |s.slots|
    case _ => true
  }

  function Accepting(s: State, socket: Socket): State {
    var i := FirstFree(s.slots, 0);
    if !s.running || i == |s.slots| then s
    else s.(slots := s.slots[i := Some(socket)], ids := s.ids[socket := i + 1],
            queue := s.queue + [Connected(socket)] + [Next])
  }

  function Perform(s: State, job: Job): State
    requires JobDefined(s, job)
  {
    match job
    case Listen =>
      if s.running then s.(acceptor := true, open := true, stale := s.stale + s.accepting, accepting := 1) else s
    case Stopping => if s.running then Raised(s.(running := false, open := false)) else s
    case Accepted(socket) => Accepting(s, socket)
    case Connected(_) => s
    case Next => if s.running then s.(accepting := s.accepting + 1) else s
    case Disconnected(socket) => s.(busy := s.busy[socket := s.ids[socket]])
  }

  function Releasing(s: State, socket: Socket): State
    requires socket in s.busy && SocketIndex(s.busy[socket]) < |s.slots|
  {
    var s1 := s.(slots := s.slots[SocketIndex(s.busy[socket]) := None], busy := s.busy - {socket});
    if s.running then s1 else Raised(s1)
  }

  function Popped(s: State): State
    requires s.queue != []
  {
    s.(queue := s.queue[1..])
  }

  function Do(s: State, e: Event): State
    requires Enabled(s, e) && Defined(s, e)
  {
    match e
    case Start =>
      if s.running then s
      else s.(running := true, queue := s.queue + [Listen], starts := s.starts + 1, raised := false)
    case Stop => s.(queue := s.queue + [Stopping])
    case Run => Perform(Popped(s), s.queue[0])
    case Arrive(socket) =>
      s.(accepting := s.accepting - 1, arrived := s.arrived + {socket},
         queue := if s.open then s.queue + [Accepted(socket)] else s.queue)
    case Report(socket) => s.(reported := s.reported + {socket}, queue := s.queue + [Disconnected(socket)])
    case Release(socket) => Releasing(s, socket)
    case Fail(socket) => s.(busy := s.busy - {socket})
  }

  predicate Init(s: State) {
    && !s.running && Empty(s.slots) && s.ids == map[] && s.queue == [] && s.busy == map[]
    && !s.acceptor && !s.open && s.accepting == 0 && s.stale == 0 && s.arrived == {} && s.reported == {}
    && s.starts == 0 && s.stops == 0 && s.raised
  }

  // ----- What always holds

  /** The socket sits in the slot that its id names. */
  predicate InItsSlot(s: State, socket: Socket) {
    socket in s.ids && 1 <= s.ids[socket] <= |s.slots| && s.slots[s.ids[socket] - 1] == Some(socket)
  }

  ghost predicate SocketsOk(s: State) {
    && (forall i | 0 <= i < |s.slots| && s.slots[i].Some? ::
          s.slots[i].value in s.ids && s.ids[s.slots[i].value] == i + 1)
    && (forall x | x in s.busy :: InItsSlot(s, x) && x in s.reported && s.busy[x] == s.ids[x])
    && (forall x | x in s.ids && x !in s.reported :: InItsSlot(s, x))
    && s.reported <= s.ids.Keys <= s.arrived
  }

  predicate JobOk(s: State, job: Job) {
    match job
    case Accepted(x) => s.acceptor && x in s.arrived && x !in s.ids
    case Connected(x) => InItsSlot(s, x) && x !in s.busy
    case Disconnected(x) => InItsSlot(s, x) && x !in s.busy && x in s.reported
    case Next => s.acceptor
    case _ => true
  }

  ghost predicate JobsOk(s: State) { forall job | job in s.queue :: JobOk(s, job) }

  /** What a closure about a socket forbids behind it. */
  predicate Precedes(a: Job, b: Job) {
    && (a.Disconnected? ==> b != a && b != Connected(a.socket))
    && (a.Accepted? ==> b != a)
  }

  ghost predicate InOrder(q: seq<Job>) { forall i, j | 0 <= i < j < |q| :: Precedes(q[i], q[j]) }

  predicate ListensFirst(q: seq<Job>) {
    q != [] && q[0] != Stopping && (q[0] == Listen || ListensFirst(q[1..]))
  }

  /** Until there is an acceptor, nothing has happened but calls of Stop, one of Start, and calls of Stop. */
  ghost predicate AcceptorOk(s: State) {
    && (s.acceptor ==> s.starts > 0)
    && (!s.acceptor ==> s.accepting == 0 && (s.running <==> s.starts > 0))
    && (!s.acceptor && s.running ==> ListensFirst(s.queue))
    && (s.starts == 0 ==> forall job | job in s.queue :: job == Stopping)
  }

  ghost predicate StopsOk(s: State) {
    && (s.raised <==> !s.running && Empty(s.slots))
    && (s.open ==> s.running)
    && s.stops + (if s.raised then 0 else 1) <= s.starts
  }

  ghost predicate Inv(s: State) {
    SocketsOk(s) && JobsOk(s) && InOrder(s.queue) && AcceptorOk(s) && StopsOk(s) && s.stale == 0
  }

  /**
   * The first start is not made while a closure of Stop is posted, and a new acceptor does not replace one that is
   * still waited for.
   */
  predicate Careful(s: State, e: Event)
    requires Enabled(s, e)
  {
    match e
    case Start => s.starts == 0 ==> Stopping !in s.queue
    case Run => s.queue[0] == Listen && s.running ==> s.accepting == 0
    case _ => true
  }

  /** The step may be taken, is safe, and was. */
  ghost predicate Took(s: State, e: Event, s': State) {
    Enabled(s, e) && Defined(s, e) && s' == Do(s, e)
  }

  /** The closure is the oldest one. */
  ghost predicate Runs(s: State, job: Job) { Inv(s) && s.queue != [] && s.queue[0] == job }

  // ----- The queue

  lemma PushKeepsOrder(q: seq<Job>, job: Job)
    requires InOrder(q) && forall b | b in q :: Precedes(b, job)
    ensures InOrder(q + [job])
  {
  }

  lemma PopKeepsOrder(q: seq<Job>)
    requires InOrder(q) && q != []
    ensures InOrder(q[1..]) && forall b | b in q[1..] :: b in q && Precedes(q[0], b)
  {
  }

  lemma {:induction false} ListensFirstOn(q: seq<Job>, job: Job)
    ensures ListensFirst(q) ==> ListensFirst(q + [job])
    ensures Stopping !in q ==> ListensFirst(q + [Listen])
  {
    if q != [] {
      ListensFirstOn(q[1..], job);
      assert (q + [job])[1..] == q[1..] + [job] && (q + [Listen])[1..] == q[1..] + [Listen];
    }
  }

  // ----- Steps keep the invariant

  lemma CallKeeps(s: State, e: Event)
    requires Inv(s) && (e.Start? || e.Stop?) && Careful(s, e)
    ensures Inv(Do(s, e))
  {
    var s' := Do(s, e);
    var job := if e.Start? then Listen else Stopping;
    PushKeepsOrder(s.queue, job);
    ListensFirstOn(s.queue, job);
    SameSockets(s, s');
  }

  /** Sockets and slots are as before, and so is what is known of them. */
  lemma SameSockets(s: State, s': State)
    requires SocketsOk(s) && s'.slots == s.slots && s'.ids == s.ids && s'.busy == s.busy
    requires s'.reported == s.reported && s'.arrived >= s.arrived
    ensures SocketsOk(s') && forall job | JobOk(s, job) && (s.acceptor ==> s'.acceptor) :: JobOk(s', job)
  {
  }

  lemma ArriveKeeps(s: State, x: Socket)
    requires Inv(s) && Enabled(s, Arrive(x))
    ensures Inv(Do(s, Arrive(x)))
  {
    var s' := Do(s, Arrive(x));
    SameSockets(s, s');
    forall b | b in s.queue
      ensures Precedes(b, Accepted(x))
    {
      assert JobOk(s, b);
    }
    PushKeepsOrder(s.queue, Accepted(x));
  }

  lemma ReportKeeps(s: State, x: Socket)
    requires Inv(s) && Enabled(s, Report(x))
    ensures Inv(Do(s, Report(x)))
  {
    var s' := Do(s, Report(x));
    forall y | InItsSlot(s, y)
      ensures InItsSlot(s', y)
    {
    }
    forall b | b in s.queue
      ensures Precedes(b, Disconnected(x)) && JobOk(s', b)
    {
      assert JobOk(s, b);
    }
    PushKeepsOrder(s.queue, Disconnected(x));
    ListensFirstOn(s.queue, Disconnected(x));
    assert InItsSlot(s, x);
  }

  lemma ReleaseKeeps(s: State, x: Socket)
    requires Inv(s) && Enabled(s, Release(x))
    ensures Defined(s, Release(x)) && Inv(Do(s, Release(x)))
  {
    assert InItsSlot(s, x);
    var s' := Do(s, Release(x));
    assert s.slots[s.ids[x] - 1].Some?;
    forall y | InItsSlot(s, y) && y != x
      ensures InItsSlot(s', y)
    {
    }
    forall b | b in s'.queue
      ensures JobOk(s', b)
    {
      assert JobOk(s, b);
    }
  }

  lemma FailKeeps(s: State, x: Socket)
    requires Inv(s) && Enabled(s, Fail(x))
    ensures Inv(Do(s, Fail(x)))
  {
    var s' := Do(s, Fail(x));
    forall y | InItsSlot(s, y)
      ensures InItsSlot(s', y)
    {
    }
    forall b | b in s'.queue
      ensures JobOk(s', b)
    {
      assert JobOk(s, b);
    }
  }

  lemma HeadIsDefined(s: State)
    requires Inv(s) && s.queue != []
    ensures JobDefined(s, s.queue[0])
  {
    assert JobOk(s, s.queue[0]);
  }

  /** The closure that runs does not add to the queue, and no socket is accepted or disconnected. */
  lemma PlainJobKeeps(s: State)
    requires Inv(s) && Enabled(s, Run) && Careful(s, Run)
    requires !s.queue[0].Accepted? && !s.queue[0].Disconnected?
    ensures Defined(s, Run) && Inv(Do(s, Run))
  {
    HeadIsDefined(s);
    PopKeepsOrder(s.queue);
    assert JobOk(s, s.queue[0]);
    SameSockets(s, Do(s, Run));
  }

  lemma NextKeeps(s: State, s': State)
    requires Runs(s, Next)
    requires s' == s.(queue := s.queue[1..], accepting := if s.running then s.accepting + 1 else s.accepting)
    ensures Inv(s') && Took(s, Run, s')
  {
    PlainJobKeeps(s);
  }

  lemma DisconnectedKeeps(s: State)
    requires Inv(s) && Enabled(s, Run) && s.queue[0].Disconnected?
    ensures Defined(s, Run) && Inv(Do(s, Run))
  {
    HeadIsDefined(s);
    PopKeepsOrder(s.queue);
    assert JobOk(s, s.queue[0]);
    var s' := Do(s, Run);
    forall y | InItsSlot(s, y)
      ensures InItsSlot(s', y)
    {
    }
    forall b | b in s'.queue
      ensures JobOk(s', b)
    {
      assert JobOk(s, b);
    }
  }

  /** A socket that comes into a free slot. */
  lemma AcceptedSlots(s: State, x: Socket)
    requires SocketsOk(s) && x !in s.ids && s.running && FirstFree(s.slots, 0) < |s.slots|
    ensures InItsSlot(Accepting(s, x), x)
    ensures forall y | InItsSlot(s, y) :: y != x && InItsSlot(Accepting(s, x), y)
  {
    assert s.slots[FirstFree(s.slots, 0)].None?;
  }

  lemma AcceptedSockets(s: State, x: Socket)
    requires SocketsOk(s) && x in s.arrived && x !in s.ids && s.running && FirstFree(s.slots, 0) < |s.slots|
    ensures SocketsOk(Accepting(s, x)) && InItsSlot(Accepting(s, x), x)
    ensures forall b | JobOk(s, b) && b != Accepted(x) :: JobOk(Accepting(s, x), b)
  {
    AcceptedSlots(s, x);
  }

  /** Behind the closure that ran, one comes that is about the socket, and one for the next connection. */
  lemma AcceptedQueue(s: State, x: Socket)
    requires JobsOk(s) && InOrder(s.queue) && x !in s.ids
    ensures InOrder(s.queue + [Connected(x)] + [Next])
  {
    forall b | b in s.queue
      ensures Precedes(b, Connected(x))
    {
      assert JobOk(s, b);
    }
    PushKeepsOrder(s.queue, Connected(x));
    PushKeepsOrder(s.queue + [Connected(x)], Next);
  }

  lemma PoppedKeeps(s: State)
    requires Inv(s) && s.queue != [] && s.queue[0].Accepted?
    ensures Inv(Popped(s)) && s.queue[0] !in Popped(s).queue
  {
    PopKeepsOrder(s.queue);
    SameSockets(s, Popped(s));
  }

  lemma AcceptedKeeps(s: State)
    requires Inv(s) && Enabled(s, Run) && s.queue[0].Accepted?
    ensures Inv(Do(s, Run))
  {
    var x, s1 := s.queue[0].socket, Popped(s);
    assert JobOk(s, s.queue[0]);
    PoppedKeeps(s);
    if s.running && FirstFree(s.slots, 0) < |s.slots| {
      AcceptedSockets(s1, x);
      AcceptedQueue(s1, x);
    }
  }

  /** Every step is safe, and a careful one keeps the invariant. */
  lemma StepKeeps(s: State, e: Event)
    requires Inv(s) && Enabled(s, e)
    ensures Defined(s, e) && |Do(s, e).slots| == |s.slots|
    ensures Careful(s, e) ==> Inv(Do(s, e))
  {
    if e.Run? { HeadIsDefined(s); }
    if e.Release? { ReleaseKeeps(s, e.socket); }
    if Careful(s, e) {
      match e {
        case Start => CallKeeps(s, e);
        case Stop => CallKeeps(s, e);
        case Run =>
          if s.queue[0].Accepted? {
            AcceptedKeeps(s);
          } else if s.queue[0].Disconnected? {
            DisconnectedKeeps(s);
          } else {
            PlainJobKeeps(s);
          }
        case Arrive(x) => ArriveKeeps(s, x);
        case Late =>
        case Report(x) => ReportKeeps(s, x);
        case Release(x) => ReleaseKeeps(s, x);
        case Fail(x) => FailKeeps(s, x);
      }
    }
  }

  /** After a step, a careful one or not, all that may happen next is safe if and only if the step was careful. */
  lemma CarefulIsExact(s: State, e: Event)
    requires Inv(s) && Enabled(s, e)
    ensures Defined(s, e)
    ensures Careful(s, e) <==> forall e' | Enabled(Do(s, e), e') :: Defined(Do(s, e), e')
  {
    StepKeeps(s, e);
    var s' := Do(s, e);
    if Careful(s, e) {
      forall e' | Enabled(s', e')
        ensures Defined(s', e')
      {
        StepKeeps(s', e');
      }
    } else if e.Start? {
      assert s.queue[0] in s.queue;
      assert Enabled(s', Run) && !Defined(s', Run);
    } else {
      assert Enabled(s', Late) && !Defined(s', Late);
    }
  }

  // ----- Runs

  /** What may happen, up to the first step that is not defined. */
  ghost predicate IsRun(states: seq<State>, events: seq<Event>) {
    && |states| == |events| + 1
    && Init(states[0])
    && forall i | 0 <= i < |events| ::
         && Enabled(states[i], events[i])
         && (Defined(states[i], events[i]) ==> states[i + 1] == Do(states[i], events[i]))
  }

  ghost predicate IsCarefulRun(states: seq<State>, events: seq<Event>) {
    IsRun(states, events) && forall i | 0 <= i < |events| :: Careful(states[i], events[i])
  }

  lemma InitHolds(s: State)
    requires Init(s)
    ensures Inv(s)
  {
  }

  lemma {:induction false} RunsAreSafe(states: seq<State>, events: seq<Event>, n: nat)
    requires IsCarefulRun(states, events) && n <= |events|
    ensures Inv(states[n]) && |states[n].slots| == |states[0].slots|
    ensures n < |events| ==> Defined(states[n], events[n]) && states[n + 1] == Do(states[n], events[n])
  {
    if n == 0 {
      InitHolds(states[0]);
    } else {
      RunsAreSafe(states, events, n - 1);
      StepKeeps(states[n - 1], events[n - 1]);
    }
    if n < |events| { StepKeeps(states[n], events[n]); }
  }

  /**
   * A slot in use holds a socket whose id names this slot, and asking for that id gives that socket; a socket that has
   * not reported its disconnection, or whose disconnection is posted or with the subscribers, can be asked for.
   */
  lemma IdsNameSlots(states: seq<State>, events: seq<Event>, n: nat, x: Socket)
    requires IsCarefulRun(states, events) && n <= |events|
    ensures var s := states[n];
            && (Some(x) in s.slots ==> x in s.ids && SocketOf(s, s.ids[x]) == Some(x))
            && (x in s.ids && (x !in s.reported || x in s.busy || Disconnected(x) in s.queue) ==>
                  SocketOf(s, s.ids[x]) == Some(x))
            && (forall id | SocketOf(s, id) == Some(x) :: x in s.ids && s.ids[x] == id)
  {
    RunsAreSafe(states, events, n);
    var s := states[n];
    if Disconnected(x) in s.queue { assert JobOk(s, Disconnected(x)); }
    if x in s.ids && (x !in s.reported || x in s.busy) { assert InItsSlot(s, x); }
  }

  /** How often on_stopped_ was raised by the steps from `m` to `n`, seen from the outside. */
  lemma {:induction false} StopsGrow(states: seq<State>, events: seq<Event>, m: nat, n: nat)
    requires IsCarefulRun(states, events) && m <= n <= |events|
    requires forall i | m <= i < n :: !events[i].Start?
    ensures states[n].stops == states[m].stops + (if states[n].raised && !states[m].raised then 1 else 0)
    ensures states[m].raised ==> states[n].raised
  {
    if m < n {
      StopsGrow(states, events, m, n - 1);
      RunsAreSafe(states, events, n - 1);
      RaisedOnce(states[n - 1], events[n - 1]);
    }
  }

  lemma RaisedOnce(s: State, e: Event)
    requires Inv(s) && Enabled(s, e) && Defined(s, e) && !e.Start?
    ensures var s' := Do(s, e);
            && (s.raised ==> s'.raised)
            && s'.stops == s.stops + (if s'.raised && !s.raised then 1 else 0)
  {
  }

  /**
   * Between two starts on_stopped_ is raised at most once; and it has been raised, since the last start, exactly if the
   * server is not running and every slot is empty.
   */
  lemma StoppedOnce(states: seq<State>, events: seq<Event>, m: nat, n: nat)
    requires IsCarefulRun(states, events) && m <= n <= |events|
    requires forall i | m <= i < n :: !events[i].Start?
    ensures states[n].stops <= states[m].stops + 1
    ensures states[n].stops <= states[n].starts
    ensures states[m].running || !Empty(states[m].slots) ==>
              (states[n].stops == states[m].stops + 1 <==> !states[n].running && Empty(states[n].slots))
  {
    StopsGrow(states, events, m, n);
    RunsAreSafe(states, events, m);
    RunsAreSafe(states, events, n);
  }

  // ----- Waiting for connections

  predicate Accepts(job: Job) { job.Listen? || job.Accepted? || job.Next? }

  function Posted(q: seq<Job>): (n: nat)
    ensures n == 0 <==> forall job | job in q :: !Accepts(job)
  {
    if q == [] then 0 else (if Accepts(q[0]) then 1 else 0) + Posted(q[1..])
  }

  lemma {:induction false} PostedOn(q: seq<Job>, job: Job)
    ensures Posted(q + [job]) == Posted(q) + (if Accepts(job) then 1 else 0)
  {
    if q != [] {
      PostedOn(q[1..], job);
      assert (q + [job])[1..] == q[1..] + [job];
    }
  }

  /** The chains of closures that accept one connection after another. */
  function Chains(s: State): nat { s.accepting + s.stale + Posted(s.queue) }

  /** The step starts the server. */
  predicate Begins(s: State, e: Event) { e.Start? && !s.running }

  /** The step ends a chain: a connection is refused, the server is not running, or the acceptor is closed. */
  predicate EndsChain(s: State, e: Event)
    requires Enabled(s, e)
  {
    match e
    case Run =>
      && Accepts(s.queue[0])
      && (!s.running || (s.queue[0].Accepted? && FirstFree(s.slots, 0) == |s.slots|))
    case Arrive(_) => !s.open
    case _ => false
  }

  lemma AcceptedChains(q: seq<Job>, x: Socket)
    ensures Posted(q + [Connected(x)] + [Next]) == Posted(q) + 1
  {
    PostedOn(q, Connected(x));
    PostedOn(q + [Connected(x)], Next);
  }

  lemma PerformWaits(s: State, job: Job)
    requires JobDefined(s, job) && !job.Accepted?
    ensures var s' := Perform(s, job);
            && s'.queue == s.queue
            && s'.accepting + s'.stale ==
               s.accepting + s.stale + (if s.running && (job.Listen? || job.Next?) then 1 else 0)
  {
  }

  lemma PlainChains(s: State)
    requires Enabled(s, Run) && Defined(s, Run) && !s.queue[0].Accepted?
    ensures Chains(Do(s, Run)) == Chains(s) - (if EndsChain(s, Run) then 1 else 0)
  {
    PerformWaits(Popped(s), s.queue[0]);
  }

  lemma RunChains(s: State)
    requires Enabled(s, Run) && Defined(s, Run)
    ensures Chains(Do(s, Run)) == Chains(s) - (if EndsChain(s, Run) then 1 else 0)
  {
    if s.queue[0].Accepted? {
      AcceptedChains(s.queue[1..], s.queue[0].socket);
    } else {
      PlainChains(s);
    }
  }

  /** No step divides a chain: each start begins one. */
  lemma ChainsGo(s: State, e: Event)
    requires Enabled(s, e) && Defined(s, e)
    ensures Chains(Do(s, e)) ==
            Chains(s) + (if Begins(s, e) then 1 else 0) - (if EndsChain(s, e) then 1 else 0)
  {
    match e
    case Start => PostedOn(s.queue, Listen);
    case Stop => PostedOn(s.queue, Stopping);
    case Arrive(x) => PostedOn(s.queue, Accepted(x));
    case Report(x) => PostedOn(s.queue, Disconnected(x));
    case Run => RunChains(s);
    case _ =>
  }

  lemma {:induction false} ChainsAreFew(states: seq<State>, events: seq<Event>, n: nat)
    requires IsCarefulRun(states, events) && n <= |events|
    ensures Chains(states[n]) <= states[n].starts
  {
    if n > 0 {
      ChainsAreFew(states, events, n - 1);
      RunsAreSafe(states, events, n - 1);
      ChainsGo(states[n - 1], events[n - 1]);
    }
  }

  /** Without a chain, until the next start, nobody is accepted. */
  lemma {:induction false} WithoutChain(states: seq<State>, events: seq<Event>, m: nat, n: nat)
    requires IsCarefulRun(states, events) && m <= n <= |events| && Chains(states[m]) == 0
    requires forall i | m <= i < n :: !Begins(states[i], events[i])
    ensures Chains(states[n]) == 0 && states[n].ids == states[m].ids
  {
    if m < n {
      WithoutChain(states, events, m, n - 1);
      RunsAreSafe(states, events, n - 1);
      ChainsGo(states[n - 1], events[n - 1]);
      if events[n - 1].Run? { assert !Accepts(states[n - 1].queue[0]); }
    }
  }

  /** A running server has no slot for a connection that has come. */
  predicate Refuses(s: State, e: Event)
    requires Enabled(s, e)
  {
    e.Run? && s.queue[0].Accepted? && s.running && FirstFree(s.slots, 0) == |s.slots|
  }

  /**
   * A server that was started once and has refused one connection accepts no other, whatever slots come free, until it
   * is started again.
   */
  lemma RefusesForEver(states: seq<State>, events: seq<Event>, m: nat, n: nat)
    requires IsCarefulRun(states, events) && m < n <= |events| && states[m].starts == 1 && Refuses(states[m], events[m])
    requires forall i | m <= i < n :: !Begins(states[i], events[i])
    ensures states[n].ids == states[m].ids && forall e | Enabled(states[n], e) :: !e.Arrive?
  {
    ChainsAreFew(states, events, m);
    RunsAreSafe(states, events, m);
    ChainsGo(states[m], events[m]);
    WithoutChain(states, events, m + 1, n);
  }

  /** Before the first start nothing is refused. */
  lemma {:induction false} NotStarted(states: seq<State>, events: seq<Event>, n: nat)
    requires IsCarefulRun(states, events) && n <= |events| && states[n].starts == 0
    ensures forall i | 0 <= i < n :: !Refuses(states[i], events[i])
  {
    if n > 0 {
      RunsAreSafe(states, events, n - 1);
      assert states[n - 1].queue != [] ==> states[n - 1].queue[0] in states[n - 1].queue;
      NotStarted(states, events, n - 1);
    }
  }

  /** A running server that was started once is running since then, and its acceptor is open. */
  lemma StillRunning(s: State, e: Event)
    requires Inv(s) && Enabled(s, e) && Defined(s, e) && Do(s, e).running && Do(s, e).starts == 1
    requires s.running && s.starts == 1 && s.acceptor ==> s.open
    ensures Do(s, e).acceptor ==> Do(s, e).open
    ensures s.starts == 0 ==> Begins(s, e)
    ensures s.starts > 0 ==> s.starts == 1 && s.running && !Begins(s, e) && (EndsChain(s, e) <==> Refuses(s, e))
  {
  }

  /** As long as a server that was started once runs, it goes on accepting if and only if it has refused nobody. */
  lemma {:induction false} AcceptsUntilRefusal(states: seq<State>, events: seq<Event>, n: nat)
    requires IsCarefulRun(states, events) && n <= |events| && states[n].running && states[n].starts == 1
    ensures Chains(states[n]) == 1 <==> forall i | 0 <= i < n :: !Refuses(states[i], events[i])
    ensures states[n].acceptor ==> states[n].open
  {
    var s, e := states[n - 1], events[n - 1];
    RunsAreSafe(states, events, n - 1);
    ChainsAreFew(states, events, n - 1);
    ChainsGo(s, e);
    if s.starts == 0 {
      NotStarted(states, events, n - 1);
      StillRunning(s, e);
    } else {
      if s.running && s.starts == 1 { AcceptsUntilRefusal(states, events, n - 1); }
      StillRunning(s, e);
    }
  }

  /** A server that is started once is careful about its acceptor. */
  lemma StartedOnce(states: seq<State>, events: seq<Event>, n: nat)
    requires IsCarefulRun(states, events) && n <= |events| && states[n].starts <= 1 && states[n].queue != []
    ensures Careful(states[n], Run)
  {
    ChainsAreFew(states, events, n);
  }

  // ----- Two runs that are not careful

  /** A server with `n` slots on which nothing was called. */
  function Fresh(n: nat): (s: State)
    ensures Init(s) && |s.slots| == n
  {
    State(false, seq(n, _ => None), map[], [], map[], false, false, 0, 0, {}, {}, 0, 0, true)
  }

  /** Stop is called, then Start, and then the closure of Stop runs: it finds no acceptor. */
  lemma StopThenStart(n: nat) returns (states: seq<State>, events: seq<Event>)
    ensures IsRun(states, events) && |states[0].slots| == n && events == [Stop, Start, Run]
    ensures !Defined(states[2], events[2])
  {
    var s0 := Fresh(n);
    var s1 := Do(s0, Stop);
    var s2 := Do(s1, Start);
    states, events := [s0, s1, s2, s2], [Stop, Start, Run];
  }

  /** The server is restarted before it has gone on from waiting for a connection at the acceptor that was closed. */
  lemma StartAgain(n: nat) returns (states: seq<State>, events: seq<Event>)
    ensures IsRun(states, events) && |states[0].slots| == n && events == [Start, Run, Stop, Run, Start, Run, Late]
    ensures states[4].raised && !Defined(states[6], events[6])
  {
    var s0 := Fresh(n);
    var s1 := Do(s0, Start);
    var s2 := Do(s1, Run);
    var s3 := Do(s2, Stop);
    var s4 := Do(s3, Run);
    var s5 := Do(s4, Start);
    var s6 := Do(s5, Run);
    states, events := [s0, s1, s2, s3, s4, s5, s6, s6], [Start, Run, Stop, Run, Start, Run, Late];
  }

  // ----- A run that refuses, and has a free slot afterwards

  /** A server with one slot that was started once. */
  function OneSlot(slot: Option<Socket>, queue: seq<Job>, accepting: nat, arrived: set<Socket>): State {
    State(true, [slot], if arrived == {} then map[] else map[0 := 1], queue, map[], true, true, accepting, 0, arrived,
          {}, 1, 0, false)
  }

  const STARTED := Fresh(1).(running := true, queue := [Listen], starts := 1, raised := false)
  const LISTENING := OneSlot(None, [], 1, {})
  const FIRST := LISTENING.(queue := [Accepted(0)], accepting := 0, arrived := {0})
  const TAKEN := OneSlot(Some(0), [Connected(0)] + [Next], 0, {0})
  const TOLD := OneSlot(Some(0), [Next], 0, {0})
  const WAITING := OneSlot(Some(0), [], 1, {0})
  const SECOND := WAITING.(queue := [Accepted(1)], accepting := 0, arrived := WAITING.arrived + {1})
  const REFUSED := SECOND.(queue := [])
  const REPORTED := REFUSED.(queue := [Disconnected(0)], reported := {0})
  const LEAVING := REFUSED.(busy := map[0 := 1], reported := {0})
  const FREED := REFUSED.(slots := [None], reported := {0})

  /** A careful run, and where it ends. */
  ghost predicate RunTo(states: seq<State>, events: seq<Event>, s: State) {
    IsCarefulRun(states, events) && states[|events|] == s
  }

  lemma GoesOn(states: seq<State>, events: seq<Event>, s: State, e: Event, s': State)
    requires RunTo(states, events, s) && Took(s, e, s') && Careful(s, e)
    ensures RunTo(states + [s'], events + [e], s')
  {
    assert forall i | 0 <= i <= |events| :: (states + [s'])[i] == states[i];
  }

  lemma StartedTook()
    ensures Took(Fresh(1), Start, STARTED) && Careful(Fresh(1), Start)
  {
    assert Fresh(1).queue + [Listen] == STARTED.queue;
  }

  lemma ListeningTook()
    ensures Took(STARTED, Run, LISTENING) && Careful(STARTED, Run)
  {
    assert STARTED.queue[1..] == [];
    assert STARTED.slots == [None];
  }

  lemma FirstTook()
    ensures Took(LISTENING, Arrive(0), FIRST)
  {
    assert LISTENING.queue + [Accepted(0)] == FIRST.queue;
    assert LISTENING.arrived + {0} == FIRST.arrived;
  }

  lemma TakenTook()
    ensures Took(FIRST, Run, TAKEN)
  {
    assert FIRST.queue[1..] + [Connected(0)] + [Next] == TAKEN.queue;
    assert FirstFree(FIRST.slots, 0) == 0;
    assert FIRST.slots[0 := Some(0)] == TAKEN.slots;
  }

  lemma ToldTook()
    ensures Took(TAKEN, Run, TOLD)
  {
    assert TAKEN.queue[1..] == TOLD.queue;
    assert TAKEN.slots[0] == Some(0);
  }

  lemma WaitingTook()
    ensures Took(TOLD, Run, WAITING)
  {
    assert TOLD.queue[1..] == WAITING.queue;
  }

  lemma SecondTook()
    ensures Took(WAITING, Arrive(1), SECOND)
  {
    assert WAITING.queue + [Accepted(1)] == SECOND.queue;
  }

  lemma RefusedTook()
    ensures Took(SECOND, Run, REFUSED) && Refuses(SECOND, Run)
  {
    assert SECOND.queue[1..] == [];
    assert SECOND.slots[0].Some? && FirstFree(SECOND.slots, 1) == 1;
  }

  lemma ReportedTook()
    ensures Took(REFUSED, Report(0), REPORTED)
  {
  }

  lemma LeavingTook()
    ensures Took(REPORTED, Run, LEAVING)
  {
    assert REPORTED.queue[1..] == [];
    assert REPORTED.slots[0] == Some(0);
  }

  lemma FreedTook()
    ensures Took(LEAVING, Release(0), FREED)
  {
    assert LEAVING.slots[0 := None] == FREED.slots;
    assert LEAVING.busy - {0} == map[];
  }

  lemma NoSteps(s: State)
    requires Init(s)
    ensures RunTo([s], [], s)
  {
  }

  lemma RunToListening() returns (states: seq<State>, events: seq<Event>)
    ensures RunTo(states, events, LISTENING)
  {
    StartedTook();
    ListeningTook();
    var s := Fresh(1);
    NoSteps(s);
    GoesOn([s], [], s, Start, STARTED);
    GoesOn([s] + [STARTED], [] + [Start], STARTED, Run, LISTENING);
    states, events := [s] + [STARTED] + [LISTENING], [] + [Start] + [Run];
  }

  lemma RunToTaken() returns (states: seq<State>, events: seq<Event>)
    ensures RunTo(states, events, TAKEN)
  {
    FirstTook();
    TakenTook();
    states, events := RunToListening();
    GoesOn(states, events, LISTENING, Arrive(0), FIRST);
    states, events := states + [FIRST], events + [Arrive(0)];
    GoesOn(states, events, FIRST, Run, TAKEN);
    states, events := states + [TAKEN], events + [Run];
  }

  lemma RunToSecond() returns (states: seq<State>, events: seq<Event>)
    ensures RunTo(states, events, SECOND)
  {
    ToldTook();
    WaitingTook();
    SecondTook();
    states, events := RunToTaken();
    GoesOn(states, events, TAKEN, Run, TOLD);
    states, events := states + [TOLD], events + [Run];
    GoesOn(states, events, TOLD, Run, WAITING);
    states, events := states + [WAITING], events + [Run];
    GoesOn(states, events, WAITING, Arrive(1), SECOND);
    states, events := states + [SECOND], events + [Arrive(1)];
  }

  /**
   * A connection is accepted, another is refused, and the first is closed: the server runs, its slot is free, and it
   * waits for no connection.
   */
  lemma RefusesWithFreeSlot() returns (states: seq<State>, events: seq<Event>, m: nat)
    ensures RunTo(states, events, FREED)
    ensures m < |events| && Refuses(states[m], events[m])
    ensures FREED.running && FREED.starts == 1 && FREED.slots == [None] && Chains(FREED) == 0
  {
    RefusedTook();
    ReportedTook();
    LeavingTook();
    FreedTook();
    states, events := RunToSecond();
    m := |events|;
    GoesOn(states, events, SECOND, Run, REFUSED);
    states, events := states + [REFUSED], events + [Run];
    GoesOn(states, events, REFUSED, Report(0), REPORTED);
    states, events := states + [REPORTED], events + [Report(0)];
    GoesOn(states, events, REPORTED, Run, LEAVING);
    states, events := states + [LEAVING], events + [Run];
    GoesOn(states, events, LEAVING, Release(0), FREED);
    states, events := states + [FREED], events + [Release(0)];
  }

  // ----- The program

  function Sockets(slots: seq<Option<Socket>>): (xs: seq<Socket>)
    ensures |xs| == Count(slots)
    ensures forall x :: x in xs <==> Some(x) in slots
  {
    if slots == [] then []
    else
      var last := slots[|slots| - 1];
      assert slots == slots[..|slots| - 1] + [last];
      Sockets(slots[..|slots| - 1]) + if last.Some? then [last.value] else []
  }

  class Server {
    var isRunning: bool
    const clientConnections: array<Option<Socket>>
    var ids: map<Socket, nat>
    var queue: seq<Job>
    var busy: map<Socket, nat>
    var hasAcceptor: bool
    var isOpen: bool
    var accepting: nat
    ghost var stale: nat
    ghost var arrived: set<Socket>
    ghost var reported: set<Socket>
    ghost var starts: nat
    ghost var stops: nat
    ghost var raised: bool

    ghost function Snapshot(): State
      reads this, clientConnections
    {
      State(isRunning, clientConnections[..], ids, queue, busy, hasAcceptor, isOpen, accepting, stale, arrived,
            reported, starts, stops, raised)
    }

    ghost predicate Valid()
      reads this, clientConnections
    {
      Inv(Snapshot())
    }

    constructor (maxConnections: nat)
      ensures Valid() && Init(Snapshot()) && clientConnections.Length == maxConnections
      ensures fresh(clientConnections)
    {
      isRunning := false;
      clientConnections := new Option<Socket>[maxConnections](_ => None);
      ids, queue, busy := map[], [], map[];
      hasAcceptor, isOpen, accepting, stale := false, false, 0, 0;
      arrived, reported, starts, stops, raised := {}, {}, 0, 0, true;
    }

    method GetConnectedCount() returns (count: nat)
      ensures count == Count(clientConnections[..])
    {
      count := 0;
      for i := 0 to clientConnections.Length
        invariant count == Count(clientConnections[..i])
      {
        assert clientConnections[..i + 1][..i] == clientConnections[..i];
        if clientConnections[i].Some? {
          count := count + 1;
        }
      }
      assert clientConnections[..] == clientConnections[..clientConnections.Length];
    }

    method GetNewConnectionIndex() returns (index: Option<nat>)
      ensures var i := FirstFree(clientConnections[..], 0);
              index == if i < clientConnections.Length then Some(i) else None
    {
      for i := 0 to clientConnections.Length
        invariant FirstFree(clientConnections[..], 0) == FirstFree(clientConnections[..], i)
      {
        if clientConnections[i].None? {
          return Some(i);
        }
      }
      return None;
    }

    method GetSocket(id: nat) returns (socket: Option<Socket>)
      ensures socket == SocketOf(Snapshot(), id)
    {
      if id < 1 {
        return None;
      }
      var index := SocketIndex(id);
      if index >= clientConnections.Length {
        return None;
      }
      socket := clientConnections[index];
    }

    method RaiseOnClosed()
      modifies this`stops, this`raised
      ensures Snapshot() == Raised(old(Snapshot()))
    {
      var count := GetConnectedCount();
      if count == 0 {
        stops, raised := stops + 1, true;
      }
    }

    method StartServer()
      requires Valid()
      modifies this`isRunning, this`queue, this`starts, this`raised
      ensures Took(old(Snapshot()), Start, Snapshot())
      ensures Careful(old(Snapshot()), Start) ==> Valid()
    {
      ghost var s := Snapshot();
      StepKeeps(s, Start);
      if isRunning {
        return;
      }
      isRunning := true;
      queue := queue + [Listen];
      starts, raised := starts + 1, false;
      assert Snapshot() == Do(s, Start);
    }

    /** The closure that Start posts; it waits for a connection at the new acceptor. */
    method OnListen()
      requires Runs(Snapshot(), Listen)
      modifies this`queue, this`hasAcceptor, this`isOpen, this`accepting, this`stale
      ensures Took(old(Snapshot()), Run, Snapshot())
      ensures Careful(old(Snapshot()), Run) ==> Valid()
    {
      StepKeeps(Snapshot(), Run);
      queue := queue[1..];
      if !isRunning {
        return;
      }
      stale := stale + accepting;
      hasAcceptor, isOpen, accepting := true, true, 1;
    }

    /** What DoAccept does when it goes on. */
    method OnArrived(socket: Socket)
      requires Valid() && Enabled(Snapshot(), Arrive(socket))
      modifies this`accepting, this`arrived, this`queue
      ensures Valid() && Took(old(Snapshot()), Arrive(socket), Snapshot())
    {
      StepKeeps(Snapshot(), Arrive(socket));
      accepting := accepting - 1;
      arrived := arrived + {socket};
      if !isOpen {
        return;
      }
      queue := queue + [Accepted(socket)];
    }

    method Stop()
      requires Valid()
      modifies this`queue
      ensures Valid() && Took(old(Snapshot()), Event.Stop, Snapshot())
    {
      StepKeeps(Snapshot(), Event.Stop);
      queue := queue + [Stopping];
    }

    method StopSockets() returns (told: seq<Socket>)
      ensures told == Sockets(clientConnections[..])
    {
      told := [];
      for i := 0 to clientConnections.Length
        invariant told == Sockets(clientConnections[..i])
      {
        assert clientConnections[..i + 1][..i] == clientConnections[..i];
        if clientConnections[i].Some? {
          told := told + [clientConnections[i].value];
        }
      }
      assert clientConnections[..] == clientConnections[..clientConnections.Length];
    }

    /** The closure that Stop posts; the sockets that it has told to stop will report later. */
    method StopServer() returns (told: seq<Socket>)
      requires Runs(Snapshot(), Stopping)
      modifies this`queue, this`isRunning, this`isOpen, this`stops, this`raised
      ensures Valid() && Took(old(Snapshot()), Run, Snapshot())
      ensures told == if old(isRunning) then Sockets(clientConnections[..]) else []
    {
      ghost var s := Snapshot();
      StepKeeps(s, Run);
      told := [];
      if isRunning {
        told := StopSockets();
        queue, isRunning, isOpen := queue[1..], false, false;
        RaiseOnClosed();
      } else {
        queue := queue[1..];
      }
      assert Snapshot() == Do(s, Run);
    }

    /** The socket gets the slot, and what follows is posted. */
    method Admit(index: nat, socket: Socket)
      requires isRunning && index == FirstFree(clientConnections[..], 0) < clientConnections.Length
      modifies this`ids, this`queue, clientConnections
      ensures Snapshot() == Accepting(old(Snapshot()), socket)
    {
      clientConnections[index] := Some(socket);
      ids := ids[socket := index + 1];
      queue := queue + [Connected(socket)];
      queue := queue + [Next];
    }

    /** `started` and `stopped` say whether the socket was told to start reading or to stop. */
    method OnAccepted(socket: Socket) returns (started: bool, stopped: bool)
      requires Runs(Snapshot(), Accepted(socket))
      modifies this`queue, this`ids, clientConnections
      ensures Valid() && Took(old(Snapshot()), Run, Snapshot())
      ensures started <==> isRunning && FirstFree(old(clientConnections[..]), 0) < clientConnections.Length
      ensures stopped <==> isRunning && !started
    {
      AcceptedKeeps(Snapshot());
      queue := queue[1..];
      if !isRunning {
        return false, false;
      }
      var index := GetNewConnectionIndex();
      if index == None {
        return false, true;
      }
      Admit(index.value, socket);
      return true, false;
    }

    /** The subscribers are called with the id of the socket, which is in its slot. */
    method RaiseOnConnected(socket: Socket) returns (id: nat)
      requires Runs(Snapshot(), Connected(socket))
      modifies this`queue
      ensures Valid() && Took(old(Snapshot()), Run, Snapshot())
      ensures SocketOf(Snapshot(), id) == Some(socket)
    {
      assert JobOk(Snapshot(), Connected(socket));
      PlainJobKeeps(Snapshot());
      queue := queue[1..];
      id := ids[socket];
    }

    method AcceptNext()
      requires Runs(Snapshot(), Next)
      modifies this`queue, this`accepting
      ensures Valid() && Took(old(Snapshot()), Run, Snapshot())
    {
      ghost var s := Snapshot();
      queue := queue[1..];
      if isRunning {
        accepting := accepting + 1;
      }
      NextKeeps(s, Snapshot());
    }

    /** What the server subscribes to the disconnection of a socket. */
    method OnSocketDisconnected(socket: Socket)
      requires Valid() && Enabled(Snapshot(), Report(socket))
      modifies this`queue, this`reported
      ensures Valid() && Took(old(Snapshot()), Report(socket), Snapshot())
    {
      StepKeeps(Snapshot(), Report(socket));
      reported := reported + {socket};
      queue := queue + [Disconnected(socket)];
    }

    /** The first half of the closure that releases a slot; the subscribers are called with the id. */
    method RaiseOnDisconnected(socket: Socket) returns (id: nat)
      requires Runs(Snapshot(), Disconnected(socket))
      modifies this`queue, this`busy
      ensures Valid() && Took(old(Snapshot()), Run, Snapshot())
      ensures SocketOf(Snapshot(), id) == Some(socket)
    {
      assert JobOk(Snapshot(), Disconnected(socket));
      DisconnectedKeeps(Snapshot());
      queue := queue[1..];
      id := ids[socket];
      busy := busy[socket := id];
    }

    /** The second half. */
    method ReleaseSlot(socket: Socket)
      requires Valid() && Enabled(Snapshot(), Release(socket))
      modifies this`busy, this`stops, this`raised, clientConnections
      ensures Valid() && Took(old(Snapshot()), Release(socket), Snapshot())
    {
      StepKeeps(Snapshot(), Release(socket));
      var id := busy[socket];
      busy := busy - {socket};
      clientConnections[SocketIndex(id)] := None;
      if !isRunning {
        RaiseOnClosed();
      }
    }

    method SubscriberFailed(socket: Socket)
      requires Valid() && Enabled(Snapshot(), Fail(socket))
      modifies this`busy
      ensures Valid() && Took(old(Snapshot()), Fail(socket), Snapshot())
    {
      StepKeeps(Snapshot(), Fail(socket));
      busy := busy - {socket};
    }
  }
}
