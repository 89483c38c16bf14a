# Proofs about the flat-async runtime and its tools

This project models two parts of the repository in Dafny and proves what they promise, for every input and every run.

**The flat-async coroutine runtime.** Every asynchronous operation is a runner that owns a coroutine. It is posted to a
scheduler, suspends by storing a handler and yielding, is resumed by a posted `Proceed`, and deletes itself when its body
ends.

- `Runtime` is the protocol as a state machine: queues, threads with their two thread-local pointers, runners, and the
  reference-counted pointers through which RunAsyncWait, Waiter, RunAsyncAnyWait and RunAsyncAnyResult decide when to
  proceed. `Enabled` says when a step may be taken, `Defined` that it is safe, and `Do` what it does.
- `RuntimeInvariant`, `RuntimeSteps` and `RuntimeSafety` prove an inductive invariant over all interleavings,
  `RuntimeTails` what it needs beside it for callbacks that go on after they handed `proceed` on; `RuntimeTheorems` draws
  the conclusions for whole runs, and `RuntimeHistory` those that are read off the actions of a run alone.
- `BlindStarts` and `AnyWait` say what the runtime does not promise, and exactly when it fails; `AnyWaitRuns` has runs
  that do. `RuntimeRuns` has what is needed to give such runs, and `Driving` leads busy threads to idleness.
- `AsyncRuntime` is the same protocol as an object whose fields are assigned statement by statement; every run of it is
  a run of the machine.
- `Events` looks at one operation from the inside: cancellation and timeouts, exceptions, switching schedulers, scopes
  that switch back. `AsyncEvents` has the classes.
- `TcpServer` is the server that relies on its strand: its acceptor, its slots, the closures that it posts, and when it
  reports that it has stopped. `TcpHistory` reads its state off the events of a run.

**cpplint's scanners**, the bracket matchers, the nesting tracker and the comment remover.

- `Dyck` defines balanced words by a grammar and by a stack machine, and proves that they agree, from both ends.
- `BracketMatching` has the two scanners with their heuristics for angle brackets, and the second matcher.
- `Nesting` has the tracker on values, and the theorem that erases branches; `NestingTracker` has it on objects that are
  changed in place, with the deep copies that keep branches apart.
- `NestingMeaning` says what the tracker computes by the text of the lines: the braces that are not closed yet.
- `Comments` has the removal of comments from an array of lines. `Text` and `Options` serve the others.

`dafny verify dfyconfig.toml` checks everything.

## What the code does not promise

- SwitchTo assigns the scheduler before it checks for events. When it throws there, the runner names a scheduler where
  its body does not run, and another SwitchTo to that scheduler returns at once. `Events.SwitchMayNotMove` is such a
  run; `Events.SwitchMoves` and `Events.PartsCompany` say exactly when.
- For the same reason an AsyncProxyBase whose constructor throws leaves the runner on the new scheduler:
  `Events.ScopeMayNotRestore` is such a run, `Events.ScopeRestores` says exactly when a scope restores.
- The callback of DeferProceed may not do everything after it has handed `proceed` on. RunAsync without a scheduler asks
  for that of the current runner, and another thread may have ended and deleted it: `BlindStarts.FailingRun` is such a
  run. It is safe exactly if the runner is on a strand and the thread of the callback holds it, or there is no other
  thread (`BlindStarts.GuardIsExact`); starts that name a scheduler are always safe.
- WaitAll may return while the callback of DeferProceed is still running: `BlindStarts.ZeroInCallback` is such a run. The
  count is zero exactly if nothing is queued or outstanding and every thread is idle, at the end of a deletion, or in the
  rest of a callback whose runner is gone (`RuntimeTheorems.CountIsExact`).
- The children of RunAsyncAnyWait call their handlers through references into the list of the call, and nothing keeps
  the list when the first handler has returned and the caller goes on: `AnyWaitRuns.HandlerIsGone` is a run in which the
  other handler is still running. `AnyWait.HandlerIsGoneIff` says exactly which steps meet a list that is gone, and
  `AnyWait.LeavingIsSafe` what the caller would have to know when it goes on. `Defined` is about the runtime's own objects
  and does not ask for this list.
- RunAsyncAnyWait never resumes its caller when all handlers throw. `AnyWaitRuns.CallerIsLost` is such a run,
  `AnyWait.LostForEver` says that nothing helps afterwards, `RuntimeTheorems.AnyWaitDeliversFirst` and
  `RuntimeTheorems.NoDeadlock` that this is the only case.
- The server may be stopped before it is started for the first time, but not if it is started before the closure of Stop
  has run (`TcpServer.StopThenStart`); and it may be started again only when no wait at its old acceptor is left
  (`TcpServer.StartAgain`). `TcpServer.CarefulIsExact` says that both conditions are exact.
- A server that was started once and has refused a connection accepts no other until it is started again, even when slots
  come free (`TcpServer.RefusesForEver`); `TcpServer.RefusesWithFreeSlot` is such a run. As long as it runs, it goes on
  accepting exactly if it has refused nobody (`TcpServer.AcceptsUntilRefusal`).
- The remark in cpplint that blocks on the nesting stack are not modified in place does not hold. Parentheses, inline
  assembly, opening braces, colons of class heads and access labels are written into the block that `previous_stack_top`
  remembers. `NestingTracker.NestingState.Update` says what its value is afterwards, `Nesting.WrittenIff` for exactly which
  lines and stacks that is another one than before, and `Nesting.InPlaceExample` and `Nesting.BraceExample` have such
  lines. The model follows the code.

## Assumptions about the runtime

- Each shared read and write is one atomic step; memory order and data races are not modelled.
- Bodies suspend only through Defer with a handler that is not empty. The callback of DeferProceed hands `proceed` on,
  and it is called at most once, at any later time and from anywhere, also while the callback goes on.
- Careful runs: in the rest of its callback, after `proceed` was handed on, an operation is started only with a named
  scheduler, or under a shelter: on a strand that the thread holds, or on the only thread. Nothing else in the rest of a
  callback uses the current runner.
- The caller of RunAsyncAnyWait leaves the call in the step in which it is resumed.
- Operations are not started inside another running coroutine: the thread-local coroutine pointer is saved by Resume
  only.
- The spawning loop of RunAsyncAnyWait and of RunAsyncAnyResult runs with no other step in between, since the code does
  not keep the caller alive through it. The loop of RunAsyncWait is split into its steps.
- A Waiter is used by the body that made it, is not destroyed while its tasks run, and is not used again after an event
  exception has escaped from Wait.
- A strand runs one closure at a time. Otherwise schedulers may take their closures in any order, and any thread may serve
  any scheduler.
- The server's closures run on a strand in the order in which they were posted; DoAccept makes a new socket each time.

## Model

| member | source | states |
|---|---|---|
| `RuntimeTheorems.RunsAreSafe` | flatasync/src/core/async_runner.cc:142-199 | over every careful run, with any interleaving of threads, any completions, and callbacks that go on after they handed `proceed` on: no step follows a pointer to a deleted runner, resumes a coroutine that is not suspended, or meets a failing assertion, and the invariant holds in every state |
| `RuntimeTheorems.OnePlace` | flatasync/src/core/async_runner.cc:34-57 | a runner in memory is in exactly one place: one queued start, one queued resume, one thread, or parked with one undelivered `proceed`; so nothing resumes it twice or while it is on a stack |
| `RuntimeTheorems.PlacesAreSound` | flatasync/src/core/async_runner.cc:142-175 | no queue, thread or waiting callback refers to a deleted runner; a queued closure is in the queue of its runner's current scheduler; a start is for a fresh coroutine, a resume for one that has yielded and whose `coro_` is assigned |
| `RuntimeTheorems.CurrentWhileRunning` | flatasync/src/core/coro_helper.cc:38-41 | while a body runs, on whatever thread it was resumed, the current-runner and current-coroutine pointers of that thread are its own, so the free `Yield` suspends the right coroutine |
| `RuntimeTheorems.DeletedOnlyAtTheEnd` | flatasync/src/core/async_runner.cc:183-199 | a runner leaves memory only through the deletion in its own OnExit, and only after its coroutine has ended |
| `RuntimeTheorems.EndedIsBeingDeleted` | flatasync/src/core/async_runner.cc:183-199 | a runner whose coroutine has ended is on the thread that is about to delete it or is deleting it, and nowhere else |
| `RuntimeTheorems.CountIsExact` | flatasync/src/core/async_runner.cc:22-32 | the global count is the number of runners whose destructor has not run; it is zero, so that WaitAll may return, if and only if nothing is queued, no `proceed` is outstanding, and every thread is idle, at the end of a deletion, or in the rest of a callback that has handed `proceed` on |
| `BlindStarts.ZeroInCallback` | flatasync/src/core/async_runner.cc:121-140 | a run to a count of zero in which a callback of DeferProceed has not returned: it has handed `proceed` on, and its runner is gone |
| `RuntimeTheorems.ZeroStaysZero` | flatasync/src/core/async_runner.cc:121-140 | a step leads from a count of zero to another if and only if it starts an operation from outside every runner, or from the rest of a callback whose own runner is gone |
| `RuntimeTheorems.WaitForAll` | flatasync/src/core/async.cc:71-78 | RunAsyncWait: `proceed` is called at most once, and exactly when all handlers were started and the runners of all of them are gone, for any number of handlers, throwing or suspending ones, with the loop split into steps; before that the caller is suspended |
| `RuntimeTheorems.WaiterWaits` | flatasync/src/core/async.cc:80-110 | a Waiter that is waited for has its `proceed` called at most once, and exactly when every task started through it is gone; until then the caller is parked |
| `RuntimeTheorems.WaiterRounds` | flatasync/src/core/async.cc:94-110 | over all rounds of a Waiter, each with a pointer of its own: whenever the owner runs, every task started through any pointer that it has waited for is gone |
| `RuntimeTheorems.WaitReturnsAtOnce` | flatasync/src/core/async.cc:94-101 | Wait returns without suspending if and only if no task of the Waiter is left |
| `RuntimeTheorems.FirstYieldIsClaimed` | flatasync/src/core/async.h:166-197 | over whole runs: what is claimed at the counter of an Any-combinator is the first contribution in the order of the run, and later contributors, the destructor of the counter included, never change it |
| `RuntimeTheorems.AnyResultDeliversFirst` | flatasync/src/core/async.h:160-198 | RunAsyncAnyResult: `proceed` is called at most once; the caller's result is then the first non-empty result, or empty if no handler gave one, and in that case only after every handler is gone; once all are gone it has been called; until it is, the caller is suspended and its result untouched |
| `RuntimeTheorems.AnyWaitDeliversFirst` | flatasync/src/core/async.cc:112-132 | RunAsyncAnyWait: `proceed` is called at most once, with the index of the handler that returned first, which is in range; once all children are gone it was called if and only if some handler returned |
| `RuntimeTheorems.ChildInheritsScheduler` | flatasync/src/core/async.cc:20-24 | an operation started in a body, in a callback of DeferProceed or in a spawning loop, with no scheduler named, goes to the scheduler of the runner that starts it |
| `RuntimeTheorems.FamiliesStayHome` | flatasync/src/core/async_runner.cc:159-164 | if no body switches scheduler, every operation started, directly or not, from one started on S has S as its scheduler and runs on S, in every state of every run |
| `RuntimeTheorems.OneBodyPerStrand` | flatasync/src/core/sequential_scheduler.cc:12-14 | and if S is a strand, at most one body of such families runs at any moment |
| `RuntimeHistory.SchedulersAreNamed` | flatasync/src/core/async_runner.cc:59-68 | over every run: the scheduler of an operation is the one that was named for it last, when it was started or by its own SwitchTo, and if none was named at its start, that of the operation that started it; its family is the one of the first name |
| `RuntimeHistory.BeginsWhereNamed` | flatasync/src/core/async_runner.cc:172-175 | a body is entered on the scheduler that was named for it last |
| `RuntimeHistory.SwitchTakesEffect` | flatasync/src/core/async_runner.cc:59-68 | when a body that has called SwitchTo is next resumed, it is on the scheduler it has named, whether the call threw or not |
| `RuntimeHistory.SwitchSuspends` | flatasync/src/core/async_runner.cc:59-68 | after SwitchTo the runner has the scheduler named; it is suspended if and only if that is another one and no event throws first; on the same scheduler nothing happens |
| `RuntimeHistory.HoldersAreChildren` | flatasync/src/core/async.cc:71-92 | a runner in memory holds a pointer if and only if it was started with it |
| `RuntimeHistory.ChildrenInOrder` | flatasync/src/core/async.cc:112-129 | a child has as its position the number of children that were started before it |
| `RuntimeHistory.DeferralIsTaken` | flatasync/src/core/async_runner.cc:183-199 | what a body defers, by a combinator, by Wait or by SwitchTo, is what the next OnExit on its thread acts on, for as many handlers as were given |
| `RuntimeHistory.HandlersAllStart` | flatasync/src/core/async.cc:71-78 | after a call with n handlers, whatever else happens: no more than n children are started for it, and when its loop has ended, exactly n were |
| `RuntimeHistory.WaitStartsAll` | flatasync/src/core/async.cc:71-78 | RunAsyncWait with n handlers: `proceed` was called if and only if the loop has ended and no child started for the call is in memory, and then n were started |
| `RuntimeHistory.AnyResultStartsAll` | flatasync/src/core/async.h:160-198 | RunAsyncAnyResult with n handlers: the result is the first non-empty one; an empty one means that n were started, none gave a result, and all are gone |
| `RuntimeHistory.AnyWaitStartsAll` | flatasync/src/core/async.cc:112-132 | RunAsyncAnyWait with n handlers: n were started, and the index is the position of the handler that returned first, below n |
| `RuntimeHistory.WaiterWaitsForAll` | flatasync/src/core/async.cc:80-110 | a Wait has let its caller go on if and only if every task started through its pointer is gone |
| `RuntimeHistory.ResumeRestores` | flatasync/src/core/coro_helper.cc:57-92 | from a resumption to the return from it, whatever the body does: the thread has its coroutine pointer of before |
| `RuntimeHistory.PointerAfterYield` | flatasync/src/core/coro_helper.cc:27-33 | a coroutine that yields leaves the coroutine pointer on its thread, and one that ends resets it |
| `AnyWait.FinishesOnce` | flatasync/src/core/async.h:189-194 | a handler of an Any-combinator contributes once |
| `RuntimeTheorems.NoDeadlock` | flatasync/src/core/async_runner.cc:34-57 | if no step is possible and the world holds no `proceed`, every runner in memory waits, itself or down a chain of its children, for a RunAsyncAnyWait whose handlers have all thrown |
| `AnyWait.HandlerIsGoneIff` | flatasync/src/core/async.cc:112-132 | RunAsyncAnyWait: a step that calls the handler of a child or is taken inside it finds the list of handlers gone if and only if the caller has gone on before, while this child was still to run or to finish |
| `AnyWait.LeavingIsSafe` | flatasync/src/core/async.cc:112-132 | when the caller of RunAsyncAnyWait goes on: if all handlers have come to their ends, no continuation uses their list again; if one has not, and it is in a queue, in its body or waiting for the world, some continuation does |
| `AnyWaitRuns.HandlerIsGone` | flatasync/src/core/async.cc:112-132 | a run with two handlers: the second wins, the caller goes on, and the first is still inside its handler, which is gone |
| `AnyWait.LostForEver` | flatasync/src/core/async.cc:112-132 | once all handlers have thrown, the caller of RunAsyncAnyWait stays parked in every continuation |
| `AnyWaitRuns.CallerIsLost` | flatasync/src/core/async.cc:112-132 | a run that gets there: one handler, and it throws |
| `RuntimeSafety.StepKeeps` | flatasync/src/core/async_runner.cc:142-199 | the invariant is inductive: any step that may be taken is safe and keeps it, if it is not the start without a named scheduler in the rest of a callback |
| `RuntimeTails.CarefulStepKeeps` | flatasync/src/core/async.cc:20-24 | and that start is safe too under a shelter, a strand that this thread holds or the lack of other threads: the runner of the callback is still there, since it could go on only where this thread is |
| `BlindStarts.GuardIsExact` | flatasync/src/core/async_runner.cc:188-194 | when a callback hands `proceed` on, whatever the other threads are doing: RunAsync without a scheduler in the rest of the callback finds its runner alive in every continuation if and only if the runner is on a strand that this thread holds, or there is no other thread |
| `Driving.DriveToIdle` | flatasync/src/core/async_runner.cc:142-199 | from every state a busy thread can be led to idleness by its own steps alone, and no queued runner and none that waits for the world is touched by that |
| `BlindStarts.FailingRun` | flatasync/src/core/async.cc:20-24 | a run in which the callback has handed `proceed` on, another thread ends and deletes the runner, and the callback then asks for the scheduler of the deleted runner |
| `BlindStarts.BlindStartFails` | flatasync/src/core/async.cc:20-24 | once another thread is free, it can get to the point where this fails, without the thread of the callback |
| `BlindStarts.ShelterHolds` | flatasync/src/core/sequential_scheduler.cc:12-14 | on such a strand, or on the only thread, the runner stays, whatever the other threads and the world do |
| `RuntimeSafety.LeavingSafe` | flatasync/src/core/async_runner.cc:183-199 | OnExit keeps it, whichever deferred handler it finds, or none |
| `RuntimeSafety.DroppedSafe` | flatasync/src/core/async.cc:71-78 | giving up a copy of a shared pointer keeps it, also when that was the last copy and the deleter proceeds the owner |
| `RuntimeSafety.DestroySafe` | flatasync/src/core/async_runner.cc:28-32 | so does the destruction of a runner that has captured such a copy |
| `RuntimeSafety.DeliverSafe` | flatasync/src/core/async.h:172-175 | the winner of the counter may write the result and call `proceed`: the caller is still suspended and alive |
| `RuntimeSteps.FireKeeps` | flatasync/src/core/async_runner.cc:34-42 | a call of `proceed` moves the owner from its waiting place to the queue and changes no other place |
| `RuntimeSteps.SpawningKeeps` | flatasync/src/core/async_runner.cc:113-119 | creating and starting a runner adds one place, with a number that was never used |
| `RuntimeSteps.EnterKeeps` | flatasync/src/core/async_runner.cc:172-181 | popping a closure and entering the coroutine moves its runner from the queue to the thread, and keeps strands exclusive |
| `AsyncRuntime.Engine.Play` | flatasync/src/core/async_runner.cc:142-199 | any sequence of wishes of the threads and the world, played on the object below without the starts that are not careful, is a run of the state machine |
| `AsyncRuntime.Engine.Perform` | flatasync/src/core/async_runner.cc:142-199 | every careful step that may be taken is safe to take, leaves the object as the machine says, and keeps the invariant |
| `AsyncRuntime.Engine.Create` | flatasync/src/core/async_runner.cc:113-119 | a new runner with its count raised and its start posted to its own scheduler |
| `AsyncRuntime.Engine.ProceedRunner` | flatasync/src/core/async_runner.cc:34-37 | a resume is posted to the scheduler the runner has now |
| `AsyncRuntime.Engine.Run` | flatasync/src/core/async.cc:13-24 | RunAsync takes the scheduler named, or else that of the current runner |
| `AsyncRuntime.Engine.Begin` | flatasync/src/core/async_runner.cc:172-181 | OnEnter sets the pointer of an idle thread; Start or Resume sets the coroutine pointer, Resume keeping the old one |
| `AsyncRuntime.Engine.Return` | flatasync/src/core/coro_helper.cc:57-92 | `coro_` is assigned only when Start has returned; only Resume restores the pointer it swapped out |
| `AsyncRuntime.Engine.Defer` | flatasync/src/core/async_runner.cc:44-52 | the handler is stored, then the coroutine yields |
| `AsyncRuntime.Engine.SwitchTo` | flatasync/src/core/async_runner.cc:59-68 | nothing happens on the same scheduler; otherwise it is assigned before the suspension, which may not come about |
| `AsyncRuntime.Engine.OnExit` | flatasync/src/core/async_runner.cc:183-199 | the handler is moved out and cleared before it is called; without one the count is lowered and the runner dies |
| `AsyncRuntime.Engine.HandOver` | flatasync/src/core/async_runner.cc:44-57 | the callback has passed `proceed` on; it goes on, and from here on its runner may be resumed by others |
| `AsyncRuntime.Engine.CallbackEnd` | flatasync/src/core/async_runner.cc:188-194 | and then it returns to OnExit |
| `AsyncRuntime.Engine.BeginHandler` | flatasync/src/core/async.cc:71-132 | each deferred handler begins by making its shared pointer, or by taking the Waiter's |
| `AsyncRuntime.Engine.RunInto` | flatasync/src/core/async.cc:88-92 | the closure of a child holds another copy of the pointer, and its position in the list |
| `AsyncRuntime.Engine.Wait` | flatasync/src/core/async.cc:94-101 | a sole reference means that nothing is waited for; otherwise the pointer is given up after the suspension |
| `AsyncRuntime.Engine.TryClaim` | flatasync/src/core/async.cc:122-125 | the first to raise the counter to one wins, the others only raise it |
| `AsyncRuntime.Engine.Finish` | flatasync/src/core/async.h:189-194 | a handler that returned claims its index, or its result if that is not empty |
| `AsyncRuntime.Engine.Deliver` | flatasync/src/core/async.h:172-175 | the winner writes the slot and calls `proceed` |
| `AsyncRuntime.Engine.RunDeleterIfLast` | flatasync/src/core/async.cc:103-110 | the deleter runs when the last copy goes, and proceeds the owner as the kind of pointer demands |
| `AsyncRuntime.Engine.Destroy` | flatasync/src/core/async_runner.cc:28-32 | the members of a deleted runner go, the captured pointer with them |
| `Events.FirstEventWins` | flatasync/src/core/async_op_state.cc:29-46 | of any events without a reset between them the first decides the status: Cancelled or Timedout, by its kind |
| `Events.ResetForgets` | flatasync/src/core/async_op_state.cc:23-27 | after a reset the status depends only on the events that follow it |
| `Events.NeverSuspendsAgain` | flatasync/src/core/async_runner.cc:70-93 | for every body: once an event is pending and no reset comes, whatever it catches, whatever scopes it leaves and whether it disables events, it never suspends again with no exception in flight, and the status stays |
| `Events.PassesSuspension` | flatasync/src/core/async_runner.cc:44-52 | a suspension is passed normally if and only if events are disabled, an exception is in flight, or no event was there both before it and at the resumption |
| `Events.ShieldedFromEvents` | flatasync/src/core/async_runner.cc:89-99 | after DisableEvents and until EnableEvents, whatever is sent and wherever the body runs: it throws if and only if its text raises an exception of its own, no exception leaves a destructor, and its runner ends on the scheduler that the text says |
| `Events.DisableShields` | flatasync/src/core/async_runner.cc:89-93 | DisableEvents throws if an event can be seen at its own check, and nothing is disabled then; if not, what follows throws exactly if its text raises an exception of its own, until EnableEvents |
| `Events.EnableShows` | flatasync/src/core/async_runner.cc:95-99 | EnableEvents throws exactly if an event is pending at its own check, whether events were disabled or not; if not, what follows runs with events enabled |
| `Events.EnabledSuspends` | flatasync/src/core/async_runner.cc:44-52 | and a suspension after it throws if an event is there before or after it |
| `Events.ScopesAreLexical` | flatasync/src/core/async_proxy.cc:8-16 | where no event can be seen, any nesting of proxy scopes, switches, suspensions and own exceptions runs every action on the scheduler of the scope it is written in, suspends as often as the text says, and ends on the scheduler that the text says: last in, first out |
| `Events.ScopeRestores` | flatasync/src/core/async_proxy.cc:8-16 | with events, too, and for every body: a scope that is left gives the runner its scheduler back if and only if it had nothing to switch, events are disabled, or no event is there at the two checks of its constructor |
| `Events.ScopeMayNotRestore` | flatasync/src/core/async_proxy.cc:8-16 | a cancelled operation tries to enter a scope: the constructor throws, and the runner is left on the destination |
| `Events.LeavingIsFatal` | flatasync/src/core/async_proxy.cc:14-16 | a scope whose body has returned ends the program if and only if there is a scheduler to switch back to and an event is found on the way |
| `Events.SwitchMoves` | flatasync/src/core/async_runner.cc:59-68 | after a normal return from SwitchTo the body runs on the destination if and only if the runner's scheduler was another one before, or the body was there already |
| `Events.PartsCompany` | flatasync/src/core/async_runner.cc:59-68 | runner and body come to differ exactly if SwitchTo finds a visible event before it suspends, the scheduler being assigned first |
| `Events.SwitchMayNotMove` | flatasync/src/core/async_runner.cc:59-68 | a run in which a cancelled SwitchTo is caught and tried again: it returns at once, and the next action runs on the old scheduler |
| `AsyncEvents.AsyncOpState.SetStatus` | flatasync/src/core/async_op_state.cc:37-46 | the status changes, and the caller is told so, exactly if it was Normal |
| `AsyncEvents.AsyncOpState.Reset` | flatasync/src/core/async_op_state.cc:23-27 | back to Normal, with the old status returned |
| `AsyncEvents.AsyncOpState.Receive` | flatasync/src/core/async_op_state.cc:23-46 | of several events without a reset exactly the first is told that it changed the status, if it was Normal |
| `AsyncEvents.AsyncRunner.HandleEvents` | flatasync/src/core/async_runner.cc:70-87 | throws, or returns, as `Events.HandleEvents` says |
| `AsyncEvents.AsyncRunner.Defer` | flatasync/src/core/async_runner.cc:44-52 | checks before the suspension and after the resumption |
| `AsyncEvents.AsyncRunner.SwitchTo` | flatasync/src/core/async_runner.cc:59-68 | as `Events.SwitchTo` |
| `AsyncEvents.AsyncRunner.DisableEvents` | flatasync/src/core/async_runner.cc:89-93 | checks first, and disables events only if that returned |
| `AsyncEvents.AsyncRunner.EnableEvents` | flatasync/src/core/async_runner.cc:95-99 | enables events first, then checks |
| `AsyncEvents.AsyncProxyBase.Enter` | flatasync/src/core/async_proxy.cc:8-12 | the runner is switched to the destination; if that throws, no scope exists |
| `AsyncEvents.AsyncProxyBase.Destroy` | flatasync/src/core/async_proxy.cc:14-16 | the runner is back on the source scheduler, and an exception from here is fatal |
| `TcpServer.RunsAreSafe` | flatasync/src/net/tcp_server.cc:41-167 | in every careful run every step is safe: the acceptor is there when it is used, a socket is in its slot when its closures run, and no index is out of range; the number of slots never changes |
| `TcpServer.StepKeeps` | flatasync/src/net/tcp_server.cc:41-182 | every step that may be taken is safe, with others between the two halves of a disconnection, and a careful one keeps the invariant |
| `TcpServer.CarefulIsExact` | flatasync/src/net/tcp_server.cc:98-155 | the care is exact: everything that may come next is safe if and only if the step was not a first start while a closure of Stop is posted, and did not replace an acceptor that is still waited for |
| `TcpServer.StopThenStart` | flatasync/src/net/tcp_server.cc:147-155 | a run: Stop and then Start are called on a new server, and the closure of Stop finds no acceptor |
| `TcpServer.StartAgain` | flatasync/src/net/tcp_server.cc:98-124 | a run: a stopped server is started again at once, and what waits in DoAccept of the old acceptor goes on after it is deleted |
| `TcpServer.StartedOnce` | flatasync/src/net/tcp_server.cc:106-124 | a server that is started once never replaces an acceptor that is waited for |
| `TcpServer.IdsNameSlots` | flatasync/src/net/tcp_server.cc:225-246 | a slot in use holds a socket whose id is its number plus one; GetSocket of an id gives the socket with this id; a socket that has not reported, or whose disconnection is posted or with suspended subscribers, is still found |
| `TcpServer.StoppedOnce` | flatasync/src/net/tcp_server.cc:134-167 | between two starts on_stopped_ is raised at most once, and it has been raised exactly if the server is not running and all slots are empty; over a run it is raised at most as often as the server was started |
| `TcpServer.ChainsGo` | flatasync/src/net/tcp_server.cc:91-95 | each start begins one chain of accepting, which a refusal, a server that is not running or a closed acceptor ends, and which no step divides |
| `TcpServer.RefusesForEver` | flatasync/src/net/tcp_server.cc:50-55 | a server that was started once and has refused a connection never accepts another, whatever slots come free, until it is started again |
| `TcpServer.AcceptsUntilRefusal` | flatasync/src/net/tcp_server.cc:50-95 | as long as a server that was started once is running, it goes on accepting if and only if it has refused nobody |
| `TcpServer.RefusesWithFreeSlot` | flatasync/src/net/tcp_server.cc:50-55 | a run: with one slot, one connection is accepted, another is refused, and the first is closed; the server runs, its slot is free, and it waits for no connection |
| `TcpHistory.EachRunsOnce` | flatasync/src/net/tcp_server.cc:41-182 | every closure that the server posts is run once, in the order of posting, or is still posted; what is posted is read off the events |
| `TcpHistory.SlotLife` | flatasync/src/net/tcp_server.cc:41-96 | a socket is in a slot if and only if it was accepted and its release has not run, whether the server is running or not |
| `TcpHistory.FoundUntilReleased` | flatasync/src/net/tcp_server.cc:225-246 | and exactly so long there is an id under which GetSocket finds it |
| `TcpHistory.ReleaseFrees` | flatasync/src/net/tcp_server.cc:79-83 | releasing a socket frees the slot of its id, which held it, and touches no other |
| `TcpHistory.StoppedWhenReleased` | flatasync/src/net/tcp_server.cc:134-167 | on_stopped_ has been raised since the last start if and only if the server is stopped and every accepted socket was released |
| `TcpHistory.DisconnectionLife` | flatasync/src/net/tcp_server.cc:73-85 | a disconnection that was reported is at exactly one stage: posted, with the subscribers, or over |
| `TcpHistory.RunningSince` | flatasync/src/net/tcp_server.cc:98-155 | the server runs if and only if it was started and no closure of Stop has run since; its acceptor is open only then |
| `TcpHistory.CountIsExact` | flatasync/src/net/tcp_server.cc:169-172 | the number of connected sockets is the number of slots in use |
| `TcpServer.Server.OnAccepted` | flatasync/src/net/tcp_server.cc:41-96 | nothing when not running; told to stop exactly when every slot is taken; otherwise the first free slot, its number plus one as id, and the closures for the subscribers and for the next connection are posted, in this order |
| `TcpServer.Server.RaiseOnConnected` | flatasync/src/net/tcp_server.cc:87 | the subscribers are called with the id under which the socket is found |
| `TcpServer.Server.AcceptNext` | flatasync/src/net/tcp_server.cc:91-95 | the next connection is waited for if the server is running |
| `TcpServer.Server.OnArrived` | flatasync/src/net/acceptor.cc:60-72 | DoAccept goes on: the handler is posted if the acceptor is open |
| `TcpServer.Server.OnSocketDisconnected` | flatasync/src/net/tcp_server.cc:73-85 | a disconnection posts one closure |
| `TcpServer.Server.RaiseOnDisconnected` | flatasync/src/net/tcp_server.cc:76-78 | it reads the id under which the socket is found, and calls the subscribers with it |
| `TcpServer.Server.ReleaseSlot` | flatasync/src/net/tcp_server.cc:79-83 | then it clears the slot of this id, and raises on_stopped_ if this was the last one of a stopped server |
| `TcpServer.Server.SubscriberFailed` | flatasync/src/net/tcp_server.cc:76-79 | when a subscriber throws, the slot is not cleared |
| `TcpServer.Server.Stop` | flatasync/src/net/tcp_server.cc:147-149 | posts a closure |
| `TcpServer.Server.StopServer` | flatasync/src/net/tcp_server.cc:149-167 | it stops a running server, closes its acceptor, tells every socket in a slot to stop, and raises on_stopped_ if there is none |
| `TcpServer.Server.StartServer` | flatasync/src/net/tcp_server.cc:98-108 | starts a server that is not running, and posts a closure |
| `TcpServer.Server.OnListen` | flatasync/src/net/tcp_server.cc:108-124 | it makes a new acceptor and waits for a connection, if the server is still running |
| `TcpServer.Server.GetConnectedCount` | flatasync/src/net/tcp_server.cc:169-172 | the number of slots in use |
| `TcpServer.Server.GetNewConnectionIndex` | flatasync/src/net/tcp_server.cc:174-182 | the first free slot, or none |
| `TcpServer.Server.GetSocket` | flatasync/src/net/tcp_server.cc:225-246 | the socket in the slot of the id; none for an id out of range or an empty slot |
| `Dyck.ClosesIffBalanced` | tools/cpplint/cpplint.py:1513-1588 | the stack machine closes an opener at the end of a text, and not before, exactly if the text before its closer is a word of the bracket grammar |
| `Dyck.BackClosesIffBalanced` | tools/cpplint/cpplint.py:1635-1709 | the same for the machine that reads from right to left |
| `BracketMatching.CloseExpression` | tools/cpplint/cpplint.py:1591-1632 | from a round, square or curly opener: the position just past the bracket that the grammar pairs with it, or -1 exactly if there is none; -1 too at every other character but a plain `<` |
| `BracketMatching.ReverseCloseExpression` | tools/cpplint/cpplint.py:1712-1747 | from a closer: the opener that the grammar pairs with it, or -1 exactly if there is none |
| `BracketMatching.FindEndOfExpressionInLine` | tools/cpplint/cpplint.py:1513-1588 | the loop of one line computes the forward scan |
| `BracketMatching.FindStartOfExpressionInLine` | tools/cpplint/cpplint.py:1635-1709 | the loop of one line computes the backward scan, extra skips included |
| `BracketMatching.ForwardFindsPartner` | tools/cpplint/cpplint.py:1591-1632 | across any lines the forward scan from an opener ends at (l2, e) if and only if the closer before e is its partner, whatever `<`, `>`, `;` and the operator heuristics do |
| `BracketMatching.BackwardFindsPartner` | tools/cpplint/cpplint.py:1712-1747 | the same backward |
| `BracketMatching.ForwardCharSimulates` | tools/cpplint/cpplint.py:1526-1588 | erasing `<` from the stack is a simulation: each character does to what remains what the machine of the grammar does |
| `BracketMatching.BackwardCharSimulates` | tools/cpplint/cpplint.py:1651-1709 | the same for `>` backward, also when a character is skipped |
| `BracketMatching.SkippedCharIsPlain` | tools/cpplint/cpplint.py:1656-1675 | the extra character that the backward scan skips is never a bracket |
| `BracketMatching.RoundTrip` | tools/cpplint/cpplint.py:1591-1747 | closing from an opener gives a closer if and only if reversing from this closer gives the opener |
| `BracketMatching.RoundTripFromOpener` | tools/cpplint/cpplint.py:1591-1747 | whatever CloseExpression finds from an opener is a closer from which ReverseCloseExpression comes back |
| `BracketMatching.RoundTripFromCloser` | tools/cpplint/cpplint.py:1591-1747 | and the converse from every closer |
| `BracketMatching.PartnerIsUnique` | tools/cpplint/cpplint.py:1591-1747 | a bracket has at most one partner |
| `BracketMatching.GetTextInside` | tools/cpplint/cpplint.py:4605-4637 | the text up to the partner of the opener with which the match ends, or None exactly if there was no match or the opener has no partner |
| `BracketMatching.MatchersAgree` | tools/cpplint/cpplint.py:4605-4637 | on every text the second matcher ends where the first does |
| `Nesting.ErasureSimulates` | tools/cpplint/cpplint.py:2519-2573 | for all lines whatsoever: the state that the tracker will come back to after the branches it is in is the state that the lines of first branches alone lead to |
| `Nesting.ErasureExact` | tools/cpplint/cpplint.py:2519-2573 | a file ends in the same stack and checkpoints as its first branches alone if and only if it does not end inside a later branch |
| `Nesting.BranchErasure` | tools/cpplint/cpplint.py:2519-2573 | for any well-nested #if/#elif/#else/#endif structure, any number of branches, nested anywhere: all its lines do what its first branches, with their #if and #endif, do |
| `Nesting.EraseItems` | tools/cpplint/cpplint.py:2540-2573 | on well-nested lines the erasure keeps exactly the first branches |
| `Nesting.CountedStep` | tools/cpplint/cpplint.py:2540-2573 | a line of a first branch does the same to the state to come back to as to the state itself |
| `Nesting.ErasedStep` | tools/cpplint/cpplint.py:2540-2573 | a line of a later branch leaves the state to come back to alone, whatever it does to the stack |
| `Nesting.StrayDirective` | tools/cpplint/cpplint.py:2544-2573 | #else, #elif and #endif outside of every #if are ignored |
| `NestingMeaning.StackIsUnclosed` | tools/cpplint/cpplint.py:2576-2735 | in a file without #else the stack holds exactly the opening braces of the text that are not closed yet, from the outside in, with the name and kind of each block, and its first line, by what stands before its brace, and on top the declaration that waits for its brace; provided that while one waits nothing else is declared or closed |
| `NestingMeaning.FirstBranchesCount` | tools/cpplint/cpplint.py:2519-2735 | in a file with conditionals, nested anywhere, the stack holds those of the first branches |
| `NestingMeaning.LineShows` | tools/cpplint/cpplint.py:2600-2735 | the same line by line, from any stack |
| `NestingMeaning.IrregularExample` | tools/cpplint/cpplint.py:2729-2735 | a file that breaks the proviso: a closing brace takes away a declaration that waits |
| `NestingMeaning.NamespacesEnter` | tools/cpplint/cpplint.py:2623-2641 | a line enters the namespaces it begins with, in order, each open if and only if a brace follows it, and goes on behind them |
| `NestingMeaning.NamespaceLine` | tools/cpplint/cpplint.py:2623-2641 | a line with nothing but namespaces does just that to the stack |
| `NestingMeaning.BlockGivesBack` | tools/cpplint/cpplint.py:2701-2735 | when the blocks above some stack have been left, that stack is back, untouched, whatever was inside them |
| `NestingMeaning.NamespaceAndBrace` | tools/cpplint/cpplint.py:2623-2735 | the head of a namespace and its closing brace, with any lines in between, give the stack back |
| `NestingMeaning.NamespaceExample` | tools/cpplint/cpplint.py:2627-2641 | the line `namespace a {` with the regular expression that the tracker uses |
| `NestingMeaning.UnclosedOpening` | tools/cpplint/cpplint.py:2701-2735 | an opening brace stays unclosed as long as what follows it is closed in itself |
| `NestingMeaning.ClosedOpening` | tools/cpplint/cpplint.py:2729-2735 | and its closer leaves what was open before it |
| `NestingMeaning.AccessIsDefault` | tools/cpplint/cpplint.py:2643-2668 | without labels the members of a class are private and those of a struct public |
| `NestingMeaning.BranchStartsOver` | tools/cpplint/cpplint.py:2544-2555 | every other branch of a conditional starts from the stack that was there before the #if, whatever the branches before it did |
| `Nesting.WrittenIff` | tools/cpplint/cpplint.py:2600-2735 | a line leaves another value in the innermost block if and only if its parentheses are unequal, its inline assembly has ended or ends here, the brace that opens it comes when the blocks declared on this line have been left, or, if the line declares none, it is a class and there is a bare colon in its head or another access label |
| `Nesting.BraceExample` | tools/cpplint/cpplint.py:2709-2710 | a line of one brace without parentheses, and the namespace that it opens |
| `Nesting.InPlaceExample` | tools/cpplint/cpplint.py:2604-2607 | a line with one unfinished call, and the block that has another value after it |
| `Nesting.DepthIsCounted` | tools/cpplint/cpplint.py:2600-2604 | over any lines in which nothing else happens, the parentheses of a block are those of the lines added up |
| `Nesting.CountIsExact` | tools/cpplint/cpplint.py:2603 | the count of a character is the number of its occurrences in the line |
| `Nesting.AsmStatement` | tools/cpplint/cpplint.py:2606-2621 | an assembly statement of any number of lines: inside from its first line to the one that closes its parenthesis, ended there, and left with the next |
| `NestingTracker.DeepCopy` | tools/cpplint/cpplint.py:2543-2555 | equal values in fresh, distinct blocks |
| `NestingTracker.SavedIsApart` | tools/cpplint/cpplint.py:2540-2570 | no saved stack shares a block with the current one |
| `NestingTracker.NestingState.Update` | tools/cpplint/cpplint.py:2576-2735 | with blocks as objects changed in place, one line does to all stacks what the functions on values say; previous_stack_top is the block that was on top before, untouched if the directive brings another stack, and else with the value that `Nesting.AfterLine` gives, so that `Nesting.WrittenIff` says exactly when it differs |
| `NestingTracker.NestingState.UpdateStack` | tools/cpplint/cpplint.py:2600-2735 | the changes in place leave every saved stack as it was |
| `NestingTracker.NestingState.UpdatePreprocessor` | tools/cpplint/cpplint.py:2519-2573 | the three directives do to the objects what they do on values |
| `NestingTracker.NestingState.SaveStack` | tools/cpplint/cpplint.py:2540-2543 | a copy of the stack is saved at #if |
| `NestingTracker.NestingState.RestoreStack` | tools/cpplint/cpplint.py:2544-2555 | at #else the stack so far is saved if it is the first, and a copy of the one before the #if comes back |
| `NestingTracker.NestingState.DropCheckpoint` | tools/cpplint/cpplint.py:2559-2570 | at #endif the stack of the first branch is restored without a copy, if there was an #else |
| `NestingTracker.NestingState.CountParentheses` | tools/cpplint/cpplint.py:2600-2621 | parentheses and inline assembly of the innermost block |
| `NestingTracker.NestingState.ConsumeNamespaces` | tools/cpplint/cpplint.py:2623-2641 | all namespaces at the beginning of the line |
| `NestingTracker.NestingState.ConsumeClass` | tools/cpplint/cpplint.py:2643-2668 | a class declaration, unless within parentheses or a template argument list |
| `NestingTracker.NestingState.ConsumeBraces` | tools/cpplint/cpplint.py:2701-2735 | all braces, semicolons and closing parentheses of the rest of the line |
| `Comments.RemoveMultiLineComments` | tools/cpplint/cpplint.py:1384-1399 | exactly the lines of closed comments become `/**/`, in place; an error with its line is reported exactly if a comment stays open |
| `Comments.HiddenIffInRange` | tools/cpplint/cpplint.py:1384-1399 | a line is replaced if and only if it lies between a start outside of comments and the first end from there on |
| `Comments.NoStartIsLeft` | tools/cpplint/cpplint.py:1358-1399 | without an error no line that starts a comment is left |
| `Comments.UnclosedIsLast` | tools/cpplint/cpplint.py:1391-1397 | at most one comment is unclosed, and the lines end inside it |
| `Comments.Idempotent` | tools/cpplint/cpplint.py:1384-1399 | a second pass changes nothing and reports the same error, or none |
| `Comments.FindNextMultiLineCommentStart` | tools/cpplint/cpplint.py:1358-1366 | the first start from a line on |
| `Comments.FindNextMultiLineCommentEnd` | tools/cpplint/cpplint.py:1369-1375 | the first end from a line on |
| `Text.StripIsInside` | tools/cpplint/cpplint.py:1358-1375 | strip takes away the white space at both ends, and nothing else |
| `Text.FindIsFirst` | tools/cpplint/cpplint.py:1358-1366 | find gives the first occurrence from a place on, or none exactly if there is none |

## Left out

- Boost.Asio, sockets, resolver, acceptor, timers and thread pools: a completion is an arbitrary later call of `proceed`.
- ThreadPool::Wait as a guarantee that everything has drained: a worker that leaves late can release a later Wait early.
- WaitAll's busy loop: it only reads the count; what a zero means is proved, not that it is ever reached.
- CoroHelper's own constructor that starts a coroutine, and the unwinding of a suspended coroutine that is destroyed.
- Errors when the acceptor is opened or bound, on_listening_ and on_data_, and Start called by another thread than the strand's at the very moment at which is_running_ is read.
- TcpSocket itself, and that it reports its disconnection at most once, which the server model takes for granted.
- StopClient, the reads and the write of the server: they look a socket up and pass the call on.
- Logging, singletons, enumeration strings, engine and launcher: they would only add easy members.
- cpplint's style checks, messages, filters and command line, and matching that begins at `<` or `>` beyond what the scan computes.
- RuntimeTheorems.AnyResultDeliversFirst: results are integers and moving them is one step; the type T plays no role in the protocol.
- RuntimeTheorems.AnyWaitDeliversFirst: it assumes the exclusive spawning loop named above, as AnyResultDeliversFirst does.
- RuntimeTheorems.WaiterWaits: a Waiter's pointer that is never waited for keeps its own reference; the destructor of Waiter is not modelled, and init is a step of its own after Wait.
- AnyWait.LeavingIsSafe: nothing is said about a handler that waits for operations of its own when the caller goes on; it may be lost in a RunAsyncAnyWait itself.
- RuntimeTheorems.NoDeadlock: it says that a step is possible, not that schedulers are fair.
- Events.ScopesAreLexical: the guard class around DisableEvents and EnableEvents is left out, only the two calls are modelled; nothing is said about a body whose destructors suspend on their own.
- Events.NeverSuspendsAgain: the exception in flight belongs to the operation, while C++ counts exceptions per thread.
- AsyncRuntime.Engine.SwitchTo: whether an event throws before the suspension is a parameter here; Events decides it.
- TcpServer.Server.OnAccepted: what starting and stopping a socket do inside TcpSocket is left out; `started` and `stopped` say that it was told to.
- TcpServer.Server.StopServer: the same holds for the sockets that it tells to stop.
- TcpServer.StoppedOnce: if a subscriber to the disconnection throws, its slot stays taken and on_stopped_ is not raised; the model has this step, and the claim allows for it.
- BracketMatching.GetTextInside: the regular expression is not searched for: whether and where its match ends is a parameter.
- BracketMatching.CloseExpression: white space and word characters are those of ASCII; from a plain `<` it is tied to the scan only.
- NestingTracker.NestingState.Update: the recognisers of directives, classes, access labels and assembly, the test for template arguments and the extent of a class are arbitrary functions of the text, and so is that of namespaces, for which NestingMeaning has the one of the source as well; error messages are left out. Entries of pp_stack are records in the list, which nothing else refers to; blocks are objects.
- NestingMeaning.StackIsUnclosed: it says nothing about files in which, while a declaration waits for its brace, another is declared or a block is closed (NestingMeaning.IrregularExample has one); and whether a class is declared inside parentheses is judged by the count of the tracker.
- Comments.RemoveMultiLineComments: the error is returned as the number of its line; its text and category are left out.
