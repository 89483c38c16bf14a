/**
 * One operation seen from inside: the events it may be sent, the exceptions they become, and the
 * scheduler its body runs on, while it suspends, switches schedulers, and enters and leaves the
 * scopes of `AsyncProxyBase`.
 *
 * Other threads set the status at any time.  What they do before the k-th check of an operation
 * is `env(k)`, which is arbitrary.
 */
module Events {
  type Sched = nat

  // ----- The shared status

  datatype Status = Normal | Cancelled | Timedout

  datatype Signal = Cancel | TimeOut | Reset

  function StatusOf(signal: Signal): Status {
    match signal
    case Cancel => Cancelled
    case TimeOut => Timedout
    case Reset => Normal
  }

  /** SetStatus and Reset. */
  function Received(status: Status, signal: Signal): Status {
    if signal.Reset? || status == Normal then StatusOf(signal) else status
  }

  function AllReceived(status: Status, signals: seq<Signal>): Status
    decreases |signals|
  {
    if signals == [] then status else AllReceived(Received(status, signals[0]), signals[1..])
  }

  predicate NoReset(signals: seq<Signal>) { forall i | 0 <= i < |signals| :: !signals[i].Reset? }

  /** Until a reset, the first event decides: later ones change nothing. */
  lemma {:induction false} FirstEventWins(status: Status, signals: seq<Signal>)
    requires NoReset(signals)
    ensures AllReceived(status, signals) ==
            if status != Normal || signals == [] then status else if signals[0].Cancel? then Cancelled else Timedout
    decreases |signals|
  {
    if signals != [] { FirstEventWins(Received(status, signals[0]), signals[1..]); }
  }

  /** A reset makes everything before it forgotten. */
  lemma {:induction false} ResetForgets(status: Status, before: seq<Signal>, after: seq<Signal>)
    ensures AllReceived(status, before + [Reset] + after) == AllReceived(Normal, after)
    decreases |before|
  {
    var signals := before + [Reset] + after;
    if before == [] {
      assert signals[1..] == after;
    } else {
      assert signals[1..] == before[1..] + [Reset] + after;
      ResetForgets(Received(status, before[0]), before[1..], after);
    }
  }

  // ----- The operation

  datatype Machine = Machine(
    status: Status,
    allowed: bool,              // is_events_allowed_
    scheduler: Sched,           // scheduler_
    on: Sched,                  // where the body runs
    checks: nat,                // how many times HandleEvents was called
    suspensions: nat,           // history: how often the body suspended with no exception in flight
    trace: seq<(nat, Sched)>)   // history: what it did, and where

  datatype Outcome =
    | Returned(m: Machine)
    | Threw(m: Machine)
    | Terminated(m: Machine)    // an exception has left a destructor

  type Environment = nat -> seq<Signal>

  function HandleEvents(m: Machine, env: Environment, unwinding: bool): Outcome {
    var m1 := m.(status := AllReceived(m.status, env(m.checks)), checks := m.checks + 1);
    if m1.allowed && !unwinding && m1.status != Normal then Threw(m1) else Returned(m1)
  }

  /** The body is suspended, and later resumed by its scheduler. */
  function Suspended(m: Machine, unwinding: bool): Machine {
    m.(on := m.scheduler, suspensions := m.suspensions + if unwinding then 0 else 1)
  }

  function Defer(m: Machine, env: Environment, unwinding: bool): Outcome {
    var r := HandleEvents(m, env, unwinding);
    if r.Returned? then HandleEvents(Suspended(r.m, unwinding), env, unwinding) else r
  }

  function SwitchTo(m: Machine, dst: Sched, env: Environment, unwinding: bool): Outcome {
    if dst == m.scheduler then Returned(m) else Defer(m.(scheduler := dst), env, unwinding)
  }

  function DisableEvents(m: Machine, env: Environment): Outcome {
    var r := HandleEvents(m, env, false);
    if r.Returned? then Returned(r.m.(allowed := false)) else r
  }

  function EnableEvents(m: Machine, env: Environment): Outcome { HandleEvents(m.(allowed := true), env, false) }

  // ----- Bodies

  datatype Program =
    | Done
    | Act(what: nat, rest: Program)
    | Raise                                         // an exception of the body's own
    | Try(body: Program, rest: Program)             // any exception is caught
    | Check(rest: Program)                          // HandleEvents
    | Suspend(rest: Program)                        // Defer
    | Switch(dst: Sched, rest: Program)             // SwitchTo
    | Scope(dst: Sched, body: Program, rest: Program)   // an AsyncProxyBase lives while the body runs
    | Disable(rest: Program)
    | Enable(rest: Program)

  function Exec(p: Program, m: Machine, env: Environment): Outcome
    decreases p, 0
  {
    match p
    case Done => Returned(m)
    case Act(what, rest) => Exec(rest, m.(trace := m.trace + [(what, m.on)]), env)
    case Raise => Threw(m)
    case Try(body, rest) =>
      var r := Exec(body, m, env);
      if r.Terminated? then r else Exec(rest, r.m, env)
    case Check(rest) => Then(HandleEvents(m, env, false), rest, env)
    case Suspend(rest) => Then(Defer(m, env, false), rest, env)
    case Switch(dst, rest) => Then(SwitchTo(m, dst, env, false), rest, env)
    case Scope(dst, body, rest) =>
      var entered := SwitchTo(m, dst, env, false);
      if !entered.Returned? then entered
      else
        var left := Leave(Exec(body, entered.m, env), m.scheduler, env);
        if left.Returned? then Exec(rest, left.m, env) else left
    case Disable(rest) => Then(DisableEvents(m, env), rest, env)
    case Enable(rest) => Then(EnableEvents(m, env), rest, env)
  }

  function Then(r: Outcome, rest: Program, env: Environment): Outcome
    decreases rest, 1
  {
    if r.Returned? then Exec(rest, r.m, env) else r
  }

  /** The destructor of a scope switches back, whether the body has returned or thrown; it must not throw itself. */
  function Leave(r: Outcome, source: Sched, env: Environment): Outcome {
    match r
    case Terminated(_) => r
    case Returned(m) =>
      var back := SwitchTo(m, source, env, false);
      if back.Threw? then Terminated(back.m) else back
    case Threw(m) => Threw(SwitchTo(m, source, env, true).m)
  }

  // ----- Events that are pending

  ghost predicate NeverReset(env: Environment) { forall k :: NoReset(env(k)) }

  /** An event has arrived, and it can be seen. */
  predicate Doomed(m: Machine) { m.allowed && m.status != Normal }

  /** The machine has gone on without a suspension, and the event is still the same. */
  predicate StillDoomed(m: Machine, m': Machine) {
    m'.suspensions == m.suspensions && m'.status == m.status && m'.allowed
  }

  lemma PendingCheck(m: Machine, env: Environment, unwinding: bool)
    requires Doomed(m) && NeverReset(env)
    ensures var r := HandleEvents(m, env, unwinding);
            StillDoomed(m, r.m) && r.Threw? == !unwinding && !r.Terminated? && r.m.scheduler == m.scheduler
  {
    FirstEventWins(m.status, env(m.checks));
  }

  lemma PendingSwitch(m: Machine, dst: Sched, env: Environment, unwinding: bool)
    requires Doomed(m) && NeverReset(env)
    ensures StillDoomed(m, SwitchTo(m, dst, env, unwinding).m)
    ensures SwitchTo(m, dst, env, unwinding).Returned? <==> unwinding || dst == m.scheduler
  {
    if dst != m.scheduler {
      var m1 := m.(scheduler := dst);
      PendingCheck(m1, env, unwinding);
      if unwinding {
        PendingCheck(Suspended(HandleEvents(m1, env, unwinding).m, unwinding), env, unwinding);
      }
    }
  }

  /**
   * From the moment an event is pending, whatever the body does, catches or leaves, it does not suspend again with no
   * exception in flight; no later event takes the place of the first, and DisableEvents comes too late to hide it.
   */
  lemma {:induction false} NeverSuspendsAgain(p: Program, m: Machine, env: Environment)
    requires Doomed(m) && NeverReset(env)
    ensures StillDoomed(m, Exec(p, m, env).m)
    decreases p
  {
    match p
    case Done =>
    case Raise =>
    case Act(what, rest) => NeverSuspendsAgain(rest, m.(trace := m.trace + [(what, m.on)]), env);
    case Try(body, rest) =>
      NeverSuspendsAgain(body, m, env);
      NeverSuspendsAgain(rest, Exec(body, m, env).m, env);
    case Check(rest) => PendingCheck(m, env, false);
    case Suspend(rest) => PendingCheck(m, env, false);
    case Switch(dst, rest) =>
      PendingSwitch(m, dst, env, false);
      NeverSuspendsAgain(rest, SwitchTo(m, dst, env, false).m, env);
    case Scope(dst, body, rest) =>
      PendingSwitch(m, dst, env, false);
      var m1 := SwitchTo(m, dst, env, false).m;
      NeverSuspendsAgain(body, m1, env);
      var r := Exec(body, m1, env);
      PendingSwitch(r.m, m.scheduler, env, r.Threw?);
      NeverSuspendsAgain(rest, Leave(r, m.scheduler, env).m, env);
    case Disable(rest) => PendingCheck(m, env, false);
    case Enable(rest) => PendingCheck(m.(allowed := true), env, false);
  }

  /** A suspension is passed if and only if no event can be seen, neither before it nor when the body is resumed. */
  lemma PassesSuspension(m: Machine, env: Environment, unwinding: bool)
    ensures var before := AllReceived(m.status, env(m.checks));
            var after := AllReceived(before, env(m.checks + 1));
            && (Defer(m, env, unwinding).Returned? <==>
                  !m.allowed || unwinding || (before == Normal && after == Normal))
            && !Defer(m, env, unwinding).Terminated?
  {
  }

  // ----- Scopes

  /** The body runs where its runner says. */
  predicate Settled(m: Machine) { m.on == m.scheduler }

  /** What a body does, where it does it, and where it ends up, read off its text alone. */
  datatype Meaning = Meaning(trace: seq<(nat, Sched)>, suspensions: nat, at: Sched, raised: bool)

  function Lexical(p: Program, at: Sched): Meaning {
    match p
    case Done => Meaning([], 0, at, false)
    case Act(what, rest) => After([(what, at)], 0, Lexical(rest, at))
    case Raise => Meaning([], 0, at, true)
    case Try(body, rest) =>
      var tried := Lexical(body, at);
      After(tried.trace, tried.suspensions, Lexical(rest, tried.at))
    case Suspend(rest) => After([], 1, Lexical(rest, at))
    case Switch(dst, rest) => After([], Hops(at, dst), Lexical(rest, dst))
    case Scope(dst, body, rest) =>
      var inside := Lexical(body, dst);
      var entered := Hops(at, dst) + inside.suspensions;
      if inside.raised then Meaning(inside.trace, entered, at, true)
      else After(inside.trace, entered + Hops(inside.at, at), Lexical(rest, at))
    case _ => Lexical(p.rest, at)
  }

  /** Going to another scheduler takes a suspension. */
  function Hops(at: Sched, dst: Sched): nat { if at == dst then 0 else 1 }

  function After(trace: seq<(nat, Sched)>, suspensions: nat, rest: Meaning): Meaning {
    rest.(trace := trace + rest.trace, suspensions := suspensions + rest.suspensions)
  }

  predicate NoEnable(p: Program) {
    match p
    case Done => true
    case Raise => true
    case Enable(_) => false
    case Try(body, rest) => NoEnable(body) && NoEnable(rest)
    case Scope(_, body, rest) => NoEnable(body) && NoEnable(rest)
    case _ => NoEnable(p.rest)
  }

  /** No event is ever sent. */
  ghost predicate Calm(env: Environment) { forall k :: env(k) == [] }

  /** The body sees no event: either none is sent, or it has disabled them. */
  ghost predicate Unseen(m: Machine, env: Environment, calm: bool) {
    if calm then m.status == Normal && Calm(env) else !m.allowed
  }

  lemma UnseenCheck(m: Machine, env: Environment, unwinding: bool, calm: bool)
    requires Unseen(m, env, calm)
    ensures var r := HandleEvents(m, env, unwinding);
            && r.Returned? && Unseen(r.m, env, calm) && r.m.allowed == m.allowed
            && r.m.trace == m.trace && r.m.scheduler == m.scheduler && r.m.on == m.on
            && r.m.suspensions == m.suspensions
  {
  }

  lemma UnseenDefer(m: Machine, env: Environment, unwinding: bool, calm: bool)
    requires Unseen(m, env, calm)
    ensures var r := Defer(m, env, unwinding);
            && r.Returned? && Unseen(r.m, env, calm) && r.m.allowed == m.allowed
            && r.m.trace == m.trace && r.m.scheduler == m.scheduler && Settled(r.m)
            && r.m.suspensions == m.suspensions + if unwinding then 0 else 1
  {
  }

  lemma UnseenSwitch(m: Machine, dst: Sched, env: Environment, unwinding: bool, calm: bool)
    requires Unseen(m, env, calm) && Settled(m)
    ensures var r := SwitchTo(m, dst, env, unwinding);
            && r.Returned? && Unseen(r.m, env, calm) && r.m.allowed == m.allowed
            && r.m.trace == m.trace && r.m.scheduler == dst && Settled(r.m)
            && r.m.suspensions == m.suspensions + if unwinding then 0 else Hops(m.scheduler, dst)
  {
  }

  /** What `Exec` has to do with `Lexical`. */
  ghost predicate Means(r: Outcome, m: Machine, meaning: Meaning) {
    && r == (if meaning.raised then Threw(r.m) else Returned(r.m))
    && r.m.trace == m.trace + meaning.trace
    && r.m.suspensions == m.suspensions + meaning.suspensions
    && r.m.scheduler == meaning.at
    && Settled(r.m)
  }

  /** First `first` and then the rest. */
  lemma {:induction false} ThenMeans(m: Machine, first: Meaning, m1: Machine, r: Outcome, rest: Meaning)
    requires m1.trace == m.trace + first.trace && m1.suspensions == m.suspensions + first.suspensions
    requires Means(r, m1, rest)
    ensures Means(r, m, After(first.trace, first.suspensions, rest))
  {
  }

  /** A scope and what is in it, up to its end. */
  function Inside(dst: Sched, body: Program, at: Sched): Meaning {
    var inside := Lexical(body, dst);
    Meaning(inside.trace, Hops(at, dst) + inside.suspensions + if inside.raised then 0 else Hops(inside.at, at), at,
            inside.raised)
  }

  lemma {:induction false} LeavingMeans(dst: Sched, body: Program, m: Machine, env: Environment, calm: bool)
    requires Unseen(m, env, calm) && Settled(m)
    requires SwitchTo(m, dst, env, false).Returned?
    requires var m1 := SwitchTo(m, dst, env, false).m;
             Means(Exec(body, m1, env), m1, Lexical(body, dst)) && Unseen(Exec(body, m1, env).m, env, calm)
    ensures var left := Leave(Exec(body, SwitchTo(m, dst, env, false).m, env), m.scheduler, env);
            Means(left, m, Inside(dst, body, m.scheduler)) && Unseen(left.m, env, calm)
  {
    UnseenSwitch(m, dst, env, false, calm);
    var r := Exec(body, SwitchTo(m, dst, env, false).m, env);
    UnseenSwitch(r.m, m.scheduler, env, r.Threw?, calm);
  }

  /**
   * Where no event can be seen, switching the scheduler of the runner back and forth amounts to lexical scoping: every
   * action runs on the scheduler of the scope it is written in, after own exceptions too, and scopes are left last in,
   * first out.  The body suspends where it says so, and wherever the scheduler changes.
   */
  lemma {:induction false} ScopesAreLexical(p: Program, m: Machine, env: Environment, calm: bool)
    requires Unseen(m, env, calm) && (calm || NoEnable(p)) && Settled(m)
    ensures Means(Exec(p, m, env), m, Lexical(p, m.scheduler))
    ensures Unseen(Exec(p, m, env).m, env, calm)
    decreases p
  {
    match p
    case Done =>
    case Raise =>
    case Act(what, rest) =>
      var m1 := m.(trace := m.trace + [(what, m.on)]);
      ScopesAreLexical(rest, m1, env, calm);
      ThenMeans(m, Meaning([(what, m.on)], 0, m.on, false), m1, Exec(p, m, env), Lexical(rest, m.scheduler));
    case Try(body, rest) =>
      ScopesAreLexical(body, m, env, calm);
      var tried := Exec(body, m, env).m;
      ScopesAreLexical(rest, tried, env, calm);
      ThenMeans(m, Lexical(body, m.scheduler), tried, Exec(p, m, env), Lexical(rest, tried.scheduler));
    case Check(rest) =>
      UnseenCheck(m, env, false, calm);
      ScopesAreLexical(rest, HandleEvents(m, env, false).m, env, calm);
    case Suspend(rest) =>
      UnseenDefer(m, env, false, calm);
      ScopesAreLexical(rest, Defer(m, env, false).m, env, calm);
    case Switch(dst, rest) =>
      UnseenSwitch(m, dst, env, false, calm);
      ScopesAreLexical(rest, SwitchTo(m, dst, env, false).m, env, calm);
    case Scope(dst, body, rest) =>
      UnseenSwitch(m, dst, env, false, calm);
      var m1 := SwitchTo(m, dst, env, false).m;
      ScopesAreLexical(body, m1, env, calm);
      LeavingMeans(dst, body, m, env, calm);
      var r := Exec(body, m1, env);
      if r.Returned? {
        var left := Leave(r, m.scheduler, env).m;
        ScopesAreLexical(rest, left, env, calm);
        ThenMeans(m, Inside(dst, body, m.scheduler), left, Exec(p, m, env), Lexical(rest, m.scheduler));
      }
    case Disable(rest) =>
      UnseenCheck(m, env, false, calm);
      ScopesAreLexical(rest, DisableEvents(m, env).m, env, calm);
    case Enable(rest) =>
      UnseenCheck(m.(allowed := true), env, false, calm);
      ScopesAreLexical(rest, EnableEvents(m, env).m, env, calm);
  }

  /**
   * After events are disabled and until they are enabled, whatever is sent and wherever the body runs, no event
   * exception occurs: the body throws exactly if its text raises an exception of its own, and nothing leaves a
   * destructor.
   */
  lemma {:induction false} ShieldedFromEvents(p: Program, m: Machine, env: Environment)
    requires !m.allowed && NoEnable(p)
    ensures var r := Exec(p, m, env);
            && !r.Terminated? && (r.Threw? <==> Lexical(p, m.scheduler).raised)
            && !r.m.allowed && r.m.scheduler == Lexical(p, m.scheduler).at
    decreases p
  {
    match p
    case Done =>
    case Raise =>
    case Act(what, rest) => ShieldedFromEvents(rest, m.(trace := m.trace + [(what, m.on)]), env);
    case Try(body, rest) =>
      ShieldedFromEvents(body, m, env);
      ShieldedFromEvents(rest, Exec(body, m, env).m, env);
    case Check(rest) => ShieldedFromEvents(rest, HandleEvents(m, env, false).m, env);
    case Suspend(rest) => ShieldedFromEvents(rest, Defer(m, env, false).m, env);
    case Switch(dst, rest) => ShieldedFromEvents(rest, SwitchTo(m, dst, env, false).m, env);
    case Scope(dst, body, rest) =>
      var m1 := SwitchTo(m, dst, env, false).m;
      ShieldedFromEvents(body, m1, env);
      var r := Exec(body, m1, env);
      if r.Returned? { ShieldedFromEvents(rest, Leave(r, m.scheduler, env).m, env); }
    case Disable(rest) => ShieldedFromEvents(rest, DisableEvents(m, env).m, env);
  }

  /** What DisableEvents' or EnableEvents' own check finds. */
  function Seen(m: Machine, env: Environment): Status { AllReceived(m.status, env(m.checks)) }

  /**
   * DisableEvents throws if an event can be seen at its own check, and then events stay enabled and nothing that
   * follows is done.  If not, no event exception occurs in what follows, until EnableEvents.
   */
  lemma DisableShields(rest: Program, m: Machine, env: Environment)
    requires NoEnable(rest)
    ensures var r := Exec(Disable(rest), m, env);
            if m.allowed && Seen(m, env) != Normal then r.Threw? && r.m.allowed && r.m.trace == m.trace
            else !r.Terminated? && (r.Threw? <==> Lexical(rest, m.scheduler).raised) && !r.m.allowed
  {
    if !(m.allowed && Seen(m, env) != Normal) { ShieldedFromEvents(rest, DisableEvents(m, env).m, env); }
  }

  /**
   * EnableEvents throws exactly if an event is pending at its own check, whether events were disabled or not.  If not,
   * they are enabled in what follows.
   */
  lemma {:induction false} EnableShows(rest: Program, m: Machine, env: Environment)
    ensures var m1 := m.(status := Seen(m, env), allowed := true, checks := m.checks + 1);
            Exec(Enable(rest), m, env) == if Seen(m, env) == Normal then Exec(rest, m1, env) else Threw(m1)
  {
  }

  /** So the suspension that follows throws if an event is there before it or after it. */
  lemma {:induction false} EnabledSuspends(rest: Program, m: Machine, env: Environment)
    requires Seen(m, env) == Normal
    requires !SeesNothing(m.(status := Normal, allowed := true, checks := m.checks + 1), env)
    ensures Exec(Enable(Suspend(rest)), m, env).Threw?
  {
    var m1 := m.(status := Normal, allowed := true, checks := m.checks + 1);
    EnableShows(Suspend(rest), m, env);
    PassesSuspension(m1, env, false);
  }

  /**
   * A normal return from SwitchTo leaves the runner on `dst`; but the body is there if and only if the runner was
   * elsewhere before, or the body was there already.
   */
  lemma SwitchMoves(m: Machine, dst: Sched, env: Environment, unwinding: bool)
    requires SwitchTo(m, dst, env, unwinding).Returned?
    ensures SwitchTo(m, dst, env, unwinding).m.scheduler == dst
    ensures SwitchTo(m, dst, env, unwinding).m.on == dst <==> (dst != m.scheduler || m.on == dst)
  {
  }

  /**
   * Runner and body part company exactly when a switch finds an event before it suspends: the scheduler is
   * assigned first.
   */
  lemma PartsCompany(m: Machine, dst: Sched, env: Environment, unwinding: bool)
    requires Settled(m)
    ensures !Settled(SwitchTo(m, dst, env, unwinding).m) <==>
            dst != m.scheduler && m.allowed && !unwinding && AllReceived(m.status, env(m.checks)) != Normal
  {
  }

  /** So a cancelled switch that is caught and tried again returns at once, and the body goes on where it was. */
  lemma SwitchMayNotMove()
    ensures var m := Machine(Cancelled, true, 0, 0, 0, 0, []);
            var p := Try(Switch(1, Done), Switch(1, Act(7, Done)));
            var r := Exec(p, m, _ => []);
            && r.Returned? && r.m.scheduler == 1
            && r.m.trace == [(7, 0)] && Lexical(p, 0).trace == [(7, 1)]
  {
    var m := Machine(Cancelled, true, 0, 0, 0, 0, []);
    var m1 := m.(scheduler := 1, checks := 1);
    assert Exec(Switch(1, Done), m, _ => []) == Threw(m1);
    assert Exec(Switch(1, Act(7, Done)), m1, _ => []) == Exec(Act(7, Done), m1, _ => []);
    assert Lexical(Switch(1, Act(7, Done)), 1).trace == [(7, 1)];
  }

  /** No event can be seen by the two checks that a switch from `m` makes. */
  predicate SeesNothing(m: Machine, env: Environment) {
    var before := AllReceived(m.status, env(m.checks));
    !m.allowed || (before == Normal && AllReceived(before, env(m.checks + 1)) == Normal)
  }

  /**
   * With events as well, and whatever the body does inside: a scope that is left gives the runner its old scheduler
   * back if and only if it had nothing to switch, or its constructor finds no event at either of its checks.
   */
  lemma ScopeRestores(dst: Sched, body: Program, m: Machine, env: Environment)
    requires !Exec(Scope(dst, body, Done), m, env).Terminated?
    ensures Exec(Scope(dst, body, Done), m, env).m.scheduler == m.scheduler <==>
            dst == m.scheduler || SeesNothing(m, env)
  {
    PassesSuspension(m.(scheduler := dst), env, false);
  }

  /**
   * The exception of a destructor is fatal: a scope whose body has returned ends the program if and only if there is
   * a scheduler to switch back to, and an event is found on the way.
   */
  lemma LeavingIsFatal(dst: Sched, body: Program, m: Machine, env: Environment)
    requires SwitchTo(m, dst, env, false).Returned?
    requires Exec(body, SwitchTo(m, dst, env, false).m, env).Returned?
    ensures var inside := Exec(body, SwitchTo(m, dst, env, false).m, env).m;
            Exec(Scope(dst, body, Done), m, env).Terminated? <==>
              inside.scheduler != m.scheduler && !SeesNothing(inside, env)
  {
    var inside := Exec(body, SwitchTo(m, dst, env, false).m, env).m;
    PassesSuspension(inside.(scheduler := m.scheduler), env, false);
  }

  /** A cancelled operation enters a scope and fails to: its runner is left on the scheduler of the scope. */
  lemma ScopeMayNotRestore()
    ensures var m := Machine(Cancelled, true, 0, 0, 0, 0, []);
            var r := Exec(Try(Scope(1, Done, Done), Done), m, _ => []);
            r.Returned? && r.m.scheduler == 1 && r.m.on == 0
  {
  }
}
