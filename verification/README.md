# Verified model of the hand-off layer

This project models the part of the coroutine library that decides who resumes a suspended
coroutine, and when: the multi-producer queue `nct::AtomicQueue`, the awaitables `wait_all`,
`wait_any` and `wait_each`, `CountingSemaphore` and `Mutex`, cancellation, timeouts, cancelable
sleep, the timer, the looper and the waitable promise. It proves what their interleavings keep, for
any number of threads, runners, waiters and awaits, and, where a promise is false of the code,
exactly when it holds.

Verify with `dafny verify dfyconfig.toml` (Dafny 4.11).

## How the model is built

Each protocol is a transition system: a `State` holding the shared words, where every thread stands,
and the history of the run; an `Event` for each atomic access of one thread (or each critical section
of a mutex); `Enabled` and `Apply`. `Runs.dfy` defines runs and reachable states once for all of
them. An invariant `Inv` is proved inductive, step by step, and the theorems are read off it or follow
by induction over the run. `fault` fields record what must never happen (a freed node touched, a
running coroutine resumed); they are proved to stay false, or the exact condition is given.

Beside each transition system stands a class with the source's own fields and one method per atomic
access that updates them in place. `Valid()` says that the object's `View()` is reachable, so every
theorem about reachable states is a theorem about every object. Each method states its new state
outright, field by field, and is proved to make the step that `Apply` describes. What the callers
asked for is tied to what happens by laws over the events of a run (`Runs.IsTrace`), or over all that
can follow a call (`Runs.Follows`). The program counters of the threads are fields of these
classes as well, because a method is called for one access of one thread.

The queue is proved in two layers. `AtomicQueues` has the pointers, the heap, the union member of
each node and re-use of freed addresses. `AtomicQueueTheorems.RunRefines` proves that every run of it
is a run of the small `GapQueue` (publish a place, later link it, take the oldest place if it is
linked), and the awaitables and the semaphore are built on `GapQueue`.

Assumptions:

- Memory accesses interleave sequentially consistently. The pairs of a store followed by a load at
  `include/awaitable.hpp:289-290`, `653-654` and `869-871` rely on this although the source asks only
  for acquire and release.
- The awaiter protocol is that of section 7.6.2.4 ([expr.await]) of ISO C++23: a coroutine counts as
  suspended when `await_suspend` starts.
- A dequeue is one step as the awaitables and the semaphore see it; their consumer side is used by one
  thread at a time. `AtomicQueues` has the single accesses. `maybe_empty` is two loads in
  `EmptinessReaders` and in the re-check of `WaitEach`. In `await_ready` it is one step, because the
  parent that calls it is the only thread that deletes heads.
- Allocation succeeds. Integers do not overflow. A result is a value or an error.
- A mutex makes its critical section one step. A wait on a condition variable may end at any time. A
  wait on an atomic compares and goes to sleep in one step.

## What is false of the code

- `wait_dequeue` re-reads the link only when head and tail agree (`include/container/queue.hpp:150-164`).
  A consumer that has missed a link while the tail was ahead of the head spins until `stop`, even
  after the value became reachable. `CaughtIff` lists exactly the steps that catch one; `SpinIsClosed`
  and `SpinForever` say that nothing but `stop` lets it out; `SpinWithReachableValue` and
  `CaughtBetweenLoads` are runs. The latter needs no gap at all: a publication between the consumer's
  reload of the link and its reload of the tail is enough.
- `maybe_empty` is documented as thread-safe (`include/container/queue.hpp:127`). Its second load
  touches a freed node exactly if a head was deleted since its first, and a call that begins now can
  meet that exactly if the queue is not stopped or holds a value: `ReadsFreedIff`, `CanReadFreedIff`. In
  `wait_each` it happens to re-checks of earlier awaits, for any number of operands, and never to the
  re-check of the parked one: `StaleRecheckIff`, `LatestRecheckIsSafe`.
- The comment at `include/awaitable.hpp:870` says that no wake-up is missed. That is proved as
  `StrandsNothing`: no enqueued result is stranded, whatever stale re-checks read. But `await_suspend`
  does not look at `remaining` again: an await can be parked for ever exactly if it begins when all N
  results are delivered and `remaining` is not yet zero, `CanParkIff`.
- An empty `wait_each` await does not mean that all is delivered. `CanMisleadIff` says which awaits can
  be misled, and `MisledNeedsTwo` that two operands are needed and enough.
- `await_suspend` goes on using its awaitable after it has published the handle, and the final
  suspension of a waitable coroutine goes on using its promise after it has set the word. When they can
  be late, that is, still have accesses to make when whoever may destroy that object has gone on, is
  said by `CanBeLateIff` of `WaitAll`, `WaitAny`, `WaitEachOutlook` and `WaitableLatches`, and by
  `LateIff` and `CanAlwaysBeLate` of `Timeouts`.
- `wait_any` publishes the index before the result. A parent that saw the index itself may return
  without a result, for any number of operands and any winner; one that the winner resumed never does:
  `ResultMissingIff`. With no operand at all the parent is parked for ever: `NeverLeftParked`.
- Registering a second waiter with `wait_cancel` is meant to resume the first one
  (`include/coro.hpp:630-631`). A `cancel` can break that exactly if it falls between the load
  of the word and the CAS of a registration that replaces a waiter: `CancelHarmsIff`. So a registration can do harm exactly if the word is
  `Waiting`: `RegisteringHarmsIff`.
- A cancelable sleep may never be resumed, exactly if a `cancel` wins after `await_ready` and before the
  waiter is set: `ForgottenIff`.
- A coroutine resumed by such a `cancel` may destroy the awaitable while `await_suspend`, or that very
  `cancel`, still runs on it. `DeadCopyIff` and `FreedBoxIff` say exactly when a destroyed awaitable, and
  when a freed control box, can be used.
- The semaphore's waiters need not be exactly the debt of its count. A negative initial count breaks
  this from the start; after that every negative release below zero does, and no other step:
  `InexactIff`, `ImprudentRelease`, `ExactStepIff`.
- A `stop` of the timer or the looper can leave the worker asleep for ever exactly if it comes during a
  callback: `StopMissedIff` of `Timers` and of `Loopers`.
- `add_task` does not test the stop flag. A worker that has left leaves behind exactly the tasks added
  after the last stop that it did not run on its way out: `ExitedLeavesLateTasks`, `TaskLeftBehind`.

## Model

The results come first; the methods of the classes, which carry them over to the objects, follow.

| member | source | states |
|---|---|---|
| `AtomicQueues.StepKeepsInv` | include/container/queue.hpp:40-72 | every access of any thread keeps the invariant: live distinct chain, links or their pending publishers, live values, one owner per node, no fault |
| `AtomicQueues.CasSeesLast` | include/container/queue.hpp:45-55 | whatever address a producer loaded, if the CAS succeeds the replaced node is the last of the chain and has no link yet |
| `AtomicQueues.CasOkKeeps` | include/container/queue.hpp:52-55 | publishing a node keeps the whole invariant although the node is not reachable yet |
| `AtomicQueues.LinkKeeps` | include/container/queue.hpp:56 | storing a link late and out of order keeps the whole invariant |
| `AtomicQueues.LinkOther` | include/container/queue.hpp:56 | two publishers never share a predecessor, so a link store disturbs no other producer |
| `AtomicQueues.GiveUpKeeps` | include/container/queue.hpp:46-51 | a rejected enqueue frees only its own node, whose value it has destroyed |
| `AtomicQueues.TakeSeesSecond` | include/container/queue.hpp:63-67 | the node the consumer moves the head to is the second of the chain, linked from the first |
| `AtomicQueues.TakeKeeps` | include/container/queue.hpp:67 | moving the head keeps the invariant; the old head passes to the consumer, which owes its deletion |
| `AtomicQueues.DropKeeps` | include/container/queue.hpp:68 | deleting the old head keeps the invariant: no producer or chain link refers to it |
| `AtomicQueues.MoveKeeps` | include/container/queue.hpp:69-71 | moving the value out and destroying it keeps the invariant; the node becomes the stub |
| `AtomicQueues.StepReachable` | include/container/queue.hpp:40-72 | no access in any run faults, and every access leads to a reachable state |
| `AtomicQueueTheorems.Fifo` | include/container/queue.hpp:40-72 | in every state of every run the values handed out are a prefix of the order of successful CASes, at most one behind the head, and never revised |
| `AtomicQueueTheorems.HistoryGrows` | include/container/queue.hpp:40-72 | publications, deliveries and head moves only grow along a run |
| `AtomicQueueTheorems.ProducerOrder` | include/container/queue.hpp:40-72 | the consumer sees the values of each producer in that producer's own order |
| `AtomicQueueTheorems.DeliversWhatWasCalled` | include/container/queue.hpp:40-72 | nothing is lost, duplicated or invented: the values handed out are a prefix of those the calls of `enqueue` with a successful CAS were given, in the order of the CASes |
| `AtomicQueueTheorems.EnqueuePublishesItsArgument` | include/container/queue.hpp:40-55 | the CAS of a call publishes the value that this call was given, whatever happens in between |
| `AtomicQueueTheorems.TracksStep` | include/container/queue.hpp:40-72 | after every access the private node of every unfinished call holds the value of that call |
| `AtomicQueueTheorems.NoUseAfterFree` | include/container/queue.hpp:40-72 | every address a thread is about to touch is allocated, every node has an owner, nothing is freed twice or with a live value |
| `AtomicQueueTheorems.ReusedTailIsHarmless` | include/container/queue.hpp:45-56 | a tail freed and reallocated between load and CAS does no harm: a successful CAS appends behind the last live node |
| `AtomicQueueTheorems.EmptinessIsOneSided` | include/container/queue.hpp:121-133 | judged at one moment, "not empty" is always right; "empty" is wrong only while the publisher of the oldest value has its link still to store |
| `EmptinessReaders.ReadsFreedIff` | include/container/queue.hpp:130-133 | the second load of `maybe_empty` touches a freed node, whatever lives at its address by then, exactly if a consumer has deleted a head since the first |
| `EmptinessReaders.LiveAnswerIsOneSided` | include/container/queue.hpp:121-133 | otherwise "empty" is right about the links of that moment, and "not empty" means that a value is published by now that was not taken by the first load |
| `EmptinessReaders.CanReadFreedIff` | include/container/queue.hpp:130-133 | a `maybe_empty` that begins now can read a freed node under some schedule of the other threads exactly if the queue is not stopped or a published value has not been taken |
| `EmptinessReaders.ReaderKept` | include/container/queue.hpp:40-72 | no other access of any thread frees the node a reader has loaded |
| `AtomicQueueTheorems.StepRefines` | include/container/queue.hpp:40-72 | each access is the gap-queue step its kind names (CAS publishes, link store links, head store takes) or none |
| `AtomicQueueTheorems.RunRefines` | include/container/queue.hpp:40-72 | every run of the pointer structure is a run of the gap queue, with the same emptiness test |
| `AtomicQueueTheorems.CaughtIff` | include/container/queue.hpp:147-165 | a consumer becomes caught at exactly three kinds of step: loading a missing link after a tail ahead of the head, reloading a missing link inside a gap, and a publication between its reloads of link and tail; never on a stopped queue |
| `AtomicQueueTheorems.CaughtBetweenLoads` | include/container/queue.hpp:161-164 | a run that catches a woken consumer although no link was missing when it reloaded the link, and keeps it caught once the value is reachable |
| `AtomicQueueTheorems.SpinIsClosed` | include/container/queue.hpp:150-165 | no step but `stop` lets a caught consumer out or delivers a value |
| `AtomicQueueTheorems.SpinForever` | include/container/queue.hpp:150-165 | along a run, a caught consumer stays caught and nothing is delivered until `stop` |
| `AtomicQueueTheorems.SpinWithReachableValue` | include/container/queue.hpp:150-165 | a run in which a consumer is caught although the value is already reachable |
| `AtomicQueueTheorems.WaitReturnsNothingOnlyWhenStopped` | include/container/queue.hpp:150-153 | a waiting consumer leaves the loop without a value only for a null tail, or to sleep on the tail that equals its head |
| `AtomicQueueObject.AloneFacts` | include/container/queue.hpp:62-72 | what one thread does alone equals its accesses one after the other, from any reachable state |
| `AtomicQueueObject.AloneIsLinked` | include/container/queue.hpp:27-32 | with no producer inside, an empty-looking queue is empty and the stub is its only node |
| `AtomicQueueObject.GapHasPublisher` | include/container/queue.hpp:52-56 | only a producer that still owes its link can hide the oldest value |
| `WaitEach.StepKeepsInv` | include/awaitable.hpp:843-882 | every access of a runner, the parent or a stale `await_suspend` keeps the invariant |
| `WaitEach.RecheckKeeps` | include/awaitable.hpp:870-873 | a re-check misled by a gap is harmless, because the runner that owes the link owes its exchange too; so is a stale re-check that reads garbage |
| `WaitEachTheorems.StrandsNothing` | include/awaitable.hpp:850-878 | if the handle is parked and an enqueued result is undelivered, a runner has its exchange to do or the re-check of this very await is pending; stale re-checks may read anything |
| `WaitEachTheorems.QuietParkedHasAll` | include/awaitable.hpp:850-878 | once those threads are done a parked parent has every enqueued result, in queue order |
| `WaitEachTheorems.LatestRecheckIsSafe` | include/awaitable.hpp:868-871 | only the re-check of an earlier await can read a head that was deleted meanwhile |
| `WaitEachTheorems.StaleRecheckIff` | include/awaitable.hpp:868-871 | and it can, for every number of operands but zero |
| `WaitEachTheorems.SingleToken` | include/awaitable.hpp:850-878 | over any number of awaits the handle is with the parent, in the cell or claimed by one thread; it is never resumed while running |
| `WaitEachTheorems.Partition` | include/awaitable.hpp:791-882 | each index has at most one place in the queue, exactly if its runner has enqueued, and deliveries are a prefix |
| `WaitEachTheorems.StepGrows` | include/awaitable.hpp:843-847 | a result is queued as its runner produced it, by that step only, and a delivery is never taken back |
| `WaitEachTheorems.ReadyByItemYields` | include/awaitable.hpp:863-866 | an await that was ready because the queue was not empty yields a result |
| `WaitEachTheorems.ReadyByZeroYieldsOrAll` | include/awaitable.hpp:863-866 | an await that was ready because nothing remained yields a result, or all N were delivered |
| `WaitEachTheorems.StuckIsTheOnlyHalt` | include/awaitable.hpp:850-882 | a reachable state has no further step exactly when all threads are done and the handle lies in the cell |
| `WaitEachTheorems.CanParkIff` | include/awaitable.hpp:863-878 | an await that begins now can be parked for ever exactly if all N results are delivered and `remaining` is not zero |
| `WaitEachTheorems.StuckOnlyAfterLastResult` | include/awaitable.hpp:868-878 | a parent parked for ever began its await after all N > 0 deliveries and loaded a `remaining` other than zero |
| `WaitEachTheorems.StuckAfterLastResult` | include/awaitable.hpp:868-878 | for every N > 0 there is a run that ends so |
| `WaitEachTheorems.LastAwait` | include/awaitable.hpp:850-878 | from any state with all results delivered and `remaining` not zero, whatever the other runners and stale re-checks are at, some schedule parks the next await for ever |
| `WaitEachTheorems.FollowsKeeps` | include/awaitable.hpp:863-866 | what an await found at its beginning stays on record until the next one begins |
| `WaitEachTheorems.Rounds` | include/awaitable.hpp:791-882 | for every N and i < N the first i results can be enqueued, announced and delivered one by one |
| `WaitEachOutlook.CanMisleadIff` | include/awaitable.hpp:863-882 | an await that begins now can yield nothing although results are outstanding exactly if nothing is reachable, results are outstanding, and there are two unfinished runners or a stale re-check past its loads or with its head deleted between them |
| `WaitEachOutlook.LastRunnerIsLinked` | include/awaitable.hpp:850-855 | the last unfinished runner reaches its exchange only with every result linked |
| `WaitEachTheorems.MisledIff` | include/awaitable.hpp:863-882 | at the dequeue: only a parent that was suspended is misled, and if the oldest outstanding result is enqueued its runner owes the link |
| `WaitEachTheorems.MisledNeedsTwo` | include/awaitable.hpp:850-882 | some schedule misleads an await so exactly if there are two operands or more |
| `WaitEachTheorems.WokenWithNothingReachable` | include/awaitable.hpp:850-855 | for every N >= 2, a run in which a resumed parent finds nothing reachable beside two queued results |
| `WaitEachOutlook.CanBeLateIff` | include/awaitable.hpp:868-878 | the `await_suspend` that stores the handle now can have accesses left when its coroutine has gone on, exactly if a runner is unfinished or an earlier re-check can take the handle by itself |
| `WaitAll.StepKeepsInv` | include/awaitable.hpp:611-664 | every access keeps the invariant |
| `WaitAll.SingleToken` | include/awaitable.hpp:635-660 | the handle is in exactly one place and the parent is never resumed while it runs |
| `WaitAll.ProceedsAfterEveryone` | include/awaitable.hpp:611-664 | the parent goes on only when all N slots hold their runner's outcome, and returns these |
| `WaitAll.StoredIsKept` | include/awaitable.hpp:622-633 | whatever follows, the slot of an operand holds what the operand gave, value or error, and the parent returns it |
| `WaitAll.HaltsOnlyFinished` | include/awaitable.hpp:611-664 | a reachable state has no further step exactly when the parent has returned and every thread is through: no wake-up is lost |
| `WaitAll.CanBeLateIff` | include/awaitable.hpp:652-660 | `await_suspend` can have accesses left when its coroutine has gone on, exactly if some runner is not through when the handle is stored |
| `WaitAny.StepKeepsInv` | include/awaitable.hpp:176-300 | every access keeps the invariant |
| `WaitAny.SingleToken` | include/awaitable.hpp:273-296 | the handle is in exactly one place and the parent is never resumed while it runs |
| `WaitAny.WinnerIsFinal` | include/awaitable.hpp:207-212 | along a run the index changes at most once and the parent returns at most once |
| `WaitAny.OneWinner` | include/awaitable.hpp:207-300 | exactly the runner the index names gets past its CAS; the parent goes on only with a winner and returns its index |
| `WaitAny.ResultOfWinner` | include/awaitable.hpp:207-300 | a result that is returned is the winner's, and it is there if the winner resumed the parent |
| `WaitAny.OutcomeIsKept` | include/awaitable.hpp:252-300 | whatever follows, a parent that returns the index of an operand returns what that operand gave, if it returns a result |
| `WaitAny.ResultMissingIff` | include/awaitable.hpp:207-300 | for every N > 0 and every winner, a run returns the index without a result after being let go by `v`, exactly if `v` is not the winner |
| `WaitAny.ResultIsThereIff` | include/awaitable.hpp:284-300 | at the moment of the return only the winner's store decides whether the result is there |
| `WaitAny.HaltedIff` | include/awaitable.hpp:176-300 | what states have no further step |
| `WaitAny.NeverLeftParked` | include/awaitable.hpp:273-296 | in those states the parent has returned, exactly if there was an operand at all |
| `WaitAny.CanBeLateIff` | include/awaitable.hpp:288-296 | `await_suspend` can have accesses left when its coroutine has gone on, exactly if there is an operand and no winner is through when the handle is stored |
| `Semaphores.StepKeepsInv` | include/sync.hpp:50-108 | every access keeps the invariant |
| `Semaphores.CasCounter` | include/sync.hpp:50-55 | any swap keeps 0 <= waiters <= max(0, -count), and a release never draws a negative number of tickets |
| `Semaphores.SwapPerformsItsCall` | include/sync.hpp:50-108 | every swap performs the operation its thread called: an acquire takes a permit or becomes a waiter about to queue its handle, a try_acquire takes a permit exactly if there is one, a release adds its permits and owes the wake-ups it found waiters for |
| `Semaphores.AcquireIsServed` | include/sync.hpp:92-108 | when its thread is idle again after the swap, a called acquire is granted or its handle is queued |
| `Semaphores.ReleasedIsWhatWasCalled` | include/sync.hpp:50-62 | the permits of the conservation laws are those of the calls of release |
| `Semaphores.TicketsMatchHandles` | include/sync.hpp:50-108 | queued handles plus acquirers before their enqueue equal counted waiters plus tickets held by releasers |
| `Semaphores.WakerHasHandle` | include/sync.hpp:63-69 | a releaser that owes a wake-up finds a reachable handle, or an acquirer is before its enqueue or owes the link in front |
| `Semaphores.GrantedOnce` | include/sync.hpp:63-69 | no acquire is granted twice or both granted and queued: each handle is resumed at most once |
| `Semaphores.NoAcquireLost` | include/sync.hpp:92-108 | every acquire past its swap is granted, queued or about to be queued |
| `Semaphores.PermitsConserved` | include/sync.hpp:50-108 | for any releases, negative ones included: 0 <= waiters <= max(0, -count), and granted + tickets + count + waiters = initial + released |
| `Semaphores.ExactStepIff` | include/sync.hpp:50-62 | once it holds, waiters = max(0, -count) is lost by a negative release that takes the count below zero, and by no other step |
| `Semaphores.ImprudentRelease` | include/sync.hpp:50-62 | from any reachable state every such release loses it |
| `Semaphores.InexactIff` | include/sync.hpp:38-62 | some run has it broken exactly if the initial count is negative or there is a thread that may release |
| `Semaphores.PermitLaw` | include/sync.hpp:50-108 | with an initial count of at least zero and without such releases waiters = max(0, -count) and granted + tickets + max(count, 0) = initial + released, over every run |
| `Mutexes.StepKeepsInv` | include/sync.hpp:116-135 | every step of lock, try_lock and unlock keeps the invariant |
| `Mutexes.FreshGrant` | include/sync.hpp:50-108 | a step grants at most one acquire, and one that was never granted before |
| `Mutexes.CallsReachSemaphore` | include/sync.hpp:121-131 | lock, try_lock and unlock reach the semaphore as an acquire, a try_acquire and the release of one permit |
| `Mutexes.OnePermit` | include/sync.hpp:116-135 | if only holders unlock: holders + unlocks under way + tickets + max(count, 0) = 1 |
| `Mutexes.MutualExclusion` | include/sync.hpp:116-135 | at most one holder |
| `Mutexes.NoIdleLock` | include/sync.hpp:116-135 | with no holder, unlock or ticket in flight the word is {1, 0}, the queue is empty and nobody is on the way there |
| `Cancellation.OneCancelWins` | include/coro.hpp:592-604 | the state is `Canceled` exactly once some call was made, and of all calls exactly one then returns true |
| `Cancellation.CancelStep` | include/coro.hpp:592-604 | `Canceled` is absorbing under every step |
| `Cancellation.CarefulStep` | include/coro.hpp:592-666 | every access but a `cancel` between the two accesses of a replacement keeps the invariant on who is suspended and where its handle is |
| `Cancellation.CarefulWaitersAreResumed` | include/coro.hpp:592-666 | with any number of replacements, no coroutine is resumed twice or while running, and none stays suspended once the registrar and a `cancel` have finished |
| `Cancellation.CancelDuringReplacement` | include/coro.hpp:592-666 | every `cancel` between those two accesses can lose the parked coroutine for ever and resume the new one while it runs |
| `Cancellation.CancelHarmsIff` | include/coro.hpp:592-666 | a call of `cancel` can do harm under some schedule of all that follows exactly if it comes between those two accesses |
| `Cancellation.RegisteringHarmsIff` | include/coro.hpp:629-666 | after any earlier registrations and replacements, a registration can do harm before the next one exactly if the word is `Waiting` |
| `Cancellation.SettledForever` | include/coro.hpp:592-666 | after the registrar and `cancel` have finished nobody is ever resumed |
| `Cancellation.ReplacingAlone` | include/coro.hpp:629-666 | without a concurrent `cancel` every replacement ends with the old coroutine resumed once and the new one parked in its place |
| `Cancellation.RegisteringAlone` | include/coro.hpp:629-666 | on a pending word, without a concurrent `cancel`, every registration ends with its coroutine parked |
| `Cancellation.CancelWakesParked` | include/coro.hpp:592-604 | a `cancel` that finds a coroutine parked resumes it and returns true |
| `Timeouts.StepKeepsInv` | include/timer.hpp:289-367 | every access keeps the invariant |
| `Timeouts.OneDecider` | include/timer.hpp:308-343 | worker and timer never both get to resume; whoever does finds the caller set and suspended |
| `Timeouts.DecisionIsFinal` | include/timer.hpp:308-341 | along a run the state leaves pending at most once, and no late completion or timer changes what was returned |
| `Timeouts.AnswerMatchesOutcome` | include/timer.hpp:351-367 | the caller gets nothing exactly on a timeout, otherwise the operand's own value or exception |
| `Timeouts.FiringDecides` | include/timer.hpp:333-358 | after a deadline fires on a pending word the caller gets nothing, whatever the operand gives and whatever follows |
| `Timeouts.LateAwaitDecides` | include/timer.hpp:319-358 | so it does if the deadline has passed before the await |
| `Timeouts.ReturnsWithoutOperand` | include/timer.hpp:333-358 | after either the caller can return without any step of the operand |
| `Timeouts.CompletionIsKept` | include/timer.hpp:296-365 | whatever follows a completion, a caller that gets something gets what the operand gave |
| `Timeouts.CompletionDecides` | include/timer.hpp:307-365 | after the operand wins on a pending word the caller gets what it gave |
| `Timeouts.HaltsOnlyFinished` | include/timer.hpp:319-367 | when nothing more can happen the caller has returned, even if the timer was stopped |
| `Timeouts.LateIff` | include/timer.hpp:328-348 | `await_suspend` still has its timer task to add when its caller has gone on, exactly if the operand has completed by then |
| `Timeouts.CanAlwaysBeLate` | include/timer.hpp:328-348 | whatever the operand gives, that can happen to every call |
| `CancelableSleep.StepKeepsInv` | include/timer.hpp:198-271 | every access keeps the invariant |
| `CancelableSleep.TouchedIsLive` | include/ptr/intrusive_ptr.hpp:160-180 | whoever touches the box through a live copy, or as the timer's callback, has a reference to it |
| `CancelableSleep.ReferencesCounted` | include/timer.hpp:198-267 | in every run the count equals live copies plus the lent reference plus the pin of a running callback, and the box is freed once, at zero |
| `CancelableSleep.SafeUnlessExposed` | include/timer.hpp:213-267 | no running coroutine is ever resumed; a destroyed copy or a freed box is used only after a winning user cancel exposed it |
| `CancelableSleep.FreedBoxIff` | include/timer.hpp:213-234 | a winning `cancel` can lead to an access of the freed box exactly if a coroutine sleeps and the call goes through the very copy it awaits or its `await_suspend` has not lent the timer's reference |
| `CancelableSleep.DeadCopyIff` | include/timer.hpp:213-266 | it can lead to the use of a destroyed copy exactly if a coroutine sleeps and the call goes through that copy or its `await_suspend` has not returned |
| `CancelableSleep.FreedIffNobodyHolds` | include/ptr/intrusive_ptr.hpp:14-32 | the box is freed exactly when every copy is gone and the timer holds no reference |
| `CancelableSleep.OneDecision` | include/timer.hpp:213-265 | of user cancel, timer fire and timer stop at most one wins, for good; the sleeper is resumed at most once; `Consumed` means the timer fired |
| `CancelableSleep.CallbackDecides` | include/timer.hpp:237-265 | a decision no user made is `Consumed` if the timer called the callback and `Canceled` if it called the cancellation |
| `CancelableSleep.AnswersWhetherFired` | include/timer.hpp:237-271 | the sleep is answered to have run its time exactly if the timer called the callback and that won the CAS |
| `CancelableSleep.ResumedUnlessMissed` | include/timer.hpp:213-267 | when everything is over the sleeper was resumed exactly once if the timer won or the waiter was set before the CAS was won |
| `CancelableSleep.ForgottenIff` | include/timer.hpp:213-235 | a winning `cancel` can leave a sleeper suspended for ever exactly if its `await_suspend` has begun and not set the waiter |
| `Timers.EveryTaskOneFate` | include/timer.hpp:39-83 | added tasks are executed, cancelled, running or pending: the multisets add up and no task is two of these |
| `Timers.ExitedLeavesLateTasks` | include/timer.hpp:39-83 | a worker that has left leaves pending exactly the tasks added after the last stop that it did not run on its way out, and it ran none unless that stop came during a callback |
| `Timers.ExitedForGood` | include/timer.hpp:39-83 | those tasks get no callback, and no cancellation unless stop is called again |
| `Timers.TaskLeftBehind` | include/timer.hpp:39-43 | a run that leaves a task behind |
| `Timers.CallbacksOnTime` | include/timer.hpp:53-58 | no callback begins before its time; callbacks begin in clock order, one at a time |
| `Timers.BeginsEarliest` | include/timer.hpp:53-55 | a task is begun only if it is due and no pending task is earlier |
| `Timers.AddedIsKept` | include/timer.hpp:39-43 | an added task keeps the time it was added for |
| `Timers.DueTaskCanBegin` | include/timer.hpp:50-58 | as long as the timer is not stopped, a worker outside every callback comes by its own steps to begin the earliest task, once that is due |
| `Timers.NeverOversleeps` | include/timer.hpp:67-71 | a sleeping worker has a notification pending or wakes before the earliest pending task |
| `Timers.StopMissedIff` | include/timer.hpp:52-83 | a stop can be followed, without another one, by a worker asleep without deadline or notification exactly if it comes during a callback |
| `Timers.MissedOnlyMidCallback` | include/timer.hpp:52-71 | whenever the worker sleeps so after a stop, the last stop came during a callback |
| `Timers.MissTheStop` | include/timer.hpp:52-71 | left alone after such a stop the worker goes to sleep so |
| `Loopers.StepKeepsInv` | include/looper.hpp:28-66 | every critical section keeps the invariant |
| `Loopers.EveryHandleOneFate` | include/looper.hpp:28-66 | accepted handles in submission order are those taken, then those destroyed by `stop`, then those queued |
| `Loopers.SleeperIsNotified` | include/looper.hpp:28-66 | a worker asleep beside a non-empty queue has a notification pending |
| `Loopers.SubmittedIsKept` | include/looper.hpp:28-66 | a handle submitted to a looper that is not stopped joins the end of the queue and is taken, destroyed or queued ever after |
| `Loopers.FrontCanRun` | include/looper.hpp:48-66 | as long as the looper is not stopped, a worker that resumes nothing comes by its own steps to resume the front of the queue |
| `Loopers.StopMissedIff` | include/looper.hpp:36-66 | a stop can be followed, without another one, by a worker asleep without a notification exactly if it comes while a handle is resumed |
| `Loopers.MissedOnlyMidTask` | include/looper.hpp:36-66 | whenever the worker sleeps so after a stop, the last stop came while a handle was resumed |
| `Loopers.StopMidTaskIsMissed` | include/looper.hpp:50-64 | whenever a stop comes while a handle is resumed the worker, left alone, goes to sleep unnotified |
| `WaitableLatches.WaitersSeeTheOutcome` | include/coro.hpp:383-401 | `wait` returns only after value or exception was stored; after `set_valid` nobody sleeps or falls asleep |
| `WaitableLatches.OutcomeIsKept` | include/coro.hpp:414-420 | what the coroutine gave is what is stored ever after |
| `WaitableLatches.RestsWhenAllReturned` | include/waitable_atomic.hpp:46-55 | with no spurious wake-up needed, the protocol comes to rest exactly when the promise is set and every waiter has returned |
| `WaitableLatches.CanBeLateIff` | include/coro.hpp:363-401 | from the store of the word on, the final suspension can have accesses of its promise left when a waiter has returned, exactly if anybody waits |
| `AtomicQueueObject.AtomicQueue.constructor` | include/container/queue.hpp:21-25 | the stub is head and tail; the state is reachable |
| `AtomicQueueObject.AtomicQueue.AllocateNode` | include/container/queue.hpp:41 | a fresh node, possibly at a re-used address, private to its producer; the state stays reachable |
| `AtomicQueueObject.AtomicQueue.LoadTailOf` | include/container/queue.hpp:45 | the producer has seen the present tail; nothing shared changes |
| `AtomicQueueObject.AtomicQueue.CompareExchangeTail` | include/container/queue.hpp:52-55 | succeeds only if the tail is the expected one, may fail anyway; success publishes, failure refreshes the expectation |
| `AtomicQueueObject.AtomicQueue.Discard` | include/container/queue.hpp:47-51 | on a stopped queue the node is freed and the enqueue abandoned |
| `AtomicQueueObject.AtomicQueue.StoreNext` | include/container/queue.hpp:56 | the predecessor gets its link and the enqueue is over |
| `AtomicQueueObject.AtomicQueue.LockConsumer` | include/container/queue.hpp:62-66 | one consumer at a time, in either dequeue |
| `AtomicQueueObject.AtomicQueue.Load` | include/container/queue.hpp:63-66 | each load and loop test of `try_dequeue` and of the wait loop, with the stale values they keep |
| `AtomicQueueObject.AtomicQueue.StoreHead` | include/container/queue.hpp:67 | the head moves by one node; what it leaves is owed a deletion |
| `AtomicQueueObject.AtomicQueue.DeleteOldHead` | include/container/queue.hpp:68 | exactly the old head is freed |
| `AtomicQueueObject.AtomicQueue.MoveOut` | include/container/queue.hpp:69-71 | the value handed out is appended to the deliveries and its slot is dead |
| `AtomicQueueObject.AtomicQueue.WakeUp` | include/container/queue.hpp:158 | a sleeper leaves `wait` once the tail differs from the expected one |
| `AtomicQueueObject.AtomicQueue.RelockConsumer` | include/container/queue.hpp:160 | a woken consumer resumes the loop only with the lock |
| `AtomicQueueObject.AtomicQueue.WaitExpires` | include/container/queue.hpp:154-156 | a deadline ends the wait without a value |
| `AtomicQueueObject.AtomicQueue.StopQueue` | include/container/queue.hpp:135-138 | the tail is null from then on; nothing else changes |
| `AtomicQueueObject.AtomicQueue.TryDequeue` | include/container/queue.hpp:62-72 | alone, it returns the oldest published value exactly when its link is stored, and is the composition of its single accesses |
| `AtomicQueueObject.AtomicQueue.DrainNext` | include/container/queue.hpp:29 | one turn of the drain loop delivers at most one value and leaves producers and publications alone |
| `AtomicQueueObject.AtomicQueue.Destroy` | include/container/queue.hpp:27-32 | with nobody inside, every published value has been handed out once and in order, and no node stays allocated |
| `WaitEach.WaitEachAwaitable.constructor` | include/awaitable.hpp:780-789 | N runners to come, nothing queued, empty cell |
| `WaitEach.WaitEachAwaitable.EnqueueResult` | include/awaitable.hpp:843-847 | the result takes the next place, not yet linked |
| `WaitEach.WaitEachAwaitable.LinkResult` | include/awaitable.hpp:846 | the place becomes linked, in any order among runners |
| `WaitEach.WaitEachAwaitable.FetchSubRemaining` | include/awaitable.hpp:850 | one fewer remains, after the link is stored |
| `WaitEach.WaitEachAwaitable.RunnerExchange` | include/awaitable.hpp:852-855 | the cell is emptied and the handle, if any, is claimed by this runner |
| `WaitEach.WaitEachAwaitable.ReadyByRemaining` | include/awaitable.hpp:865 | ready at once exactly when nothing remains |
| `WaitEach.WaitEachAwaitable.ReadyByQueue` | include/awaitable.hpp:865 | otherwise ready exactly when the oldest result is linked |
| `WaitEach.WaitEachAwaitable.StoreCoroutineAddr` | include/awaitable.hpp:869 | the handle is parked; a re-check is owed |
| `WaitEach.WaitEachAwaitable.RecheckLoadHead` | include/awaitable.hpp:871 | the first load of the re-check |
| `WaitEach.WaitEachAwaitable.RecheckLoadNext` | include/awaitable.hpp:871 | the second load decides whether to go on to the exchange; in the latest await it never touches a deleted head |
| `WaitEach.WaitEachAwaitable.SuspenderExchange` | include/awaitable.hpp:873-876 | also a stale re-check of an earlier await may claim the handle |
| `WaitEach.WaitEachAwaitable.ResumeParent` | include/awaitable.hpp:853-854 | whoever claimed the handle finds the parent suspended |
| `WaitEach.WaitEachAwaitable.TryDequeueResult` | include/awaitable.hpp:880-882 | delivers the oldest result if it is linked, else nothing |
| `WaitAll.WaitAllAwaitable.constructor` | include/awaitable.hpp:601-609 | count N, empty slots |
| `WaitAll.WaitAllAwaitable.StoreResult` | include/awaitable.hpp:622-633 | the runner's slot holds its value or its error before the countdown |
| `WaitAll.WaitAllAwaitable.FetchSubWaiting` | include/awaitable.hpp:635 | true for the countdown that reaches zero |
| `WaitAll.WaitAllAwaitable.RunnerExchange` | include/awaitable.hpp:636-639 | the last runner claims the handle if it is parked |
| `WaitAll.WaitAllAwaitable.AwaitReady` | include/awaitable.hpp:648-650 | ready exactly at count zero |
| `WaitAll.WaitAllAwaitable.StoreCoroutineAddr` | include/awaitable.hpp:653 | the handle is parked; a re-check is owed |
| `WaitAll.WaitAllAwaitable.RecheckCount` | include/awaitable.hpp:654 | the re-check goes on exactly at count zero |
| `WaitAll.WaitAllAwaitable.SuspenderExchange` | include/awaitable.hpp:655-658 | the parent's own thread claims the handle if it is still parked |
| `WaitAll.WaitAllAwaitable.ResumeParent` | include/awaitable.hpp:637-638 | whoever claimed the handle finds the parent suspended |
| `WaitAll.WaitAllAwaitable.AwaitResume` | include/awaitable.hpp:662-664 | returns N outcomes, none of them missing |
| `WaitAny.WaitAnyAwaitable.constructor` | include/awaitable.hpp:165-174 | no index, no result, empty cell |
| `WaitAny.WaitAnyAwaitable.AwaitOperand` | include/awaitable.hpp:252-258 | the runner holds its operand's outcome |
| `WaitAny.WaitAnyAwaitable.CompareExchangeIndex` | include/awaitable.hpp:259-264 | true for exactly the runner the index then names |
| `WaitAny.WaitAnyAwaitable.EmplaceResult` | include/awaitable.hpp:266-270 | the winner's outcome becomes the result, after the index was published |
| `WaitAny.WaitAnyAwaitable.RunnerExchange` | include/awaitable.hpp:273-276 | the winner claims the handle if it is parked |
| `WaitAny.WaitAnyAwaitable.AwaitReady` | include/awaitable.hpp:284-286 | ready exactly when there is an index |
| `WaitAny.WaitAnyAwaitable.StoreCoroutineAddr` | include/awaitable.hpp:289 | the handle is parked; a re-check is owed |
| `WaitAny.WaitAnyAwaitable.RecheckIndex` | include/awaitable.hpp:290 | the re-check goes on exactly when there is an index |
| `WaitAny.WaitAnyAwaitable.SuspenderExchange` | include/awaitable.hpp:291-294 | the parent's own thread claims the handle if it is still parked |
| `WaitAny.WaitAnyAwaitable.ResumeParent` | include/awaitable.hpp:274-276 | whoever claimed the handle finds the parent suspended |
| `WaitAny.WaitAnyAwaitable.AwaitResume` | include/awaitable.hpp:298-300 | the index, and the result if it is there; it is there if the winner resumed the parent |
| `Semaphores.CountingSemaphore.constructor` | include/sync.hpp:38-40 | the given count and no waiters |
| `Semaphores.CountingSemaphore.LoadCount` | include/sync.hpp:51 | the expectation of the CAS loop is the present word |
| `Semaphores.CountingSemaphore.CompareExchangeCount` | include/sync.hpp:53-62 | succeeds only on the expected word; then count, waiters, tickets and the fate of the acquire follow together |
| `Semaphores.CountingSemaphore.GrantNow` | include/sync.hpp:92-108 | an acquire that need not wait has its permit at the swap |
| `Semaphores.CountingSemaphore.EnqueueHandle` | include/sync.hpp:103-106 | the suspended handle takes the next place of the queue |
| `Semaphores.CountingSemaphore.LinkHandle` | include/sync.hpp:103-106 | the handle becomes reachable |
| `Semaphores.CountingSemaphore.WakeNext` | include/sync.hpp:63-66 | the oldest queued acquire is granted and one ticket is used up; the word is untouched |
| `Semaphores.CountingSemaphore.WakeLoop` | include/sync.hpp:63-69 | undisturbed, the wake loop resumes the oldest handles in order, one per ticket, and stops short only where the next handle is not linked and an acquirer is on its way in |
| `Semaphores.CountingSemaphore.FinishRelease` | include/sync.hpp:63-70 | release returns when no ticket is left |
| `Cancellation.CancelablePromiseBase.constructor` | include/coro.hpp:678-679 | pending, no waiter |
| `Cancellation.CancelablePromiseBase.AwaitReady` | include/coro.hpp:625-627 | goes on at once exactly if cancelled, else the coroutine is suspended |
| `Cancellation.CancelablePromiseBase.ResetWaiter` | include/coro.hpp:658-664 | succeeds exactly on `Waiting` |
| `Cancellation.CancelablePromiseBase.ExchangeWaiter` | include/coro.hpp:665 | the field is emptied into the registrar |
| `Cancellation.CancelablePromiseBase.ResumeFormer` | include/coro.hpp:631 | the former waiter is resumed if there was one |
| `Cancellation.CancelablePromiseBase.WriteWaiter` | include/coro.hpp:651 | the new handle is in the field before the word says so |
| `Cancellation.CancelablePromiseBase.SetWaiting` | include/coro.hpp:652-655 | parks exactly if still pending; otherwise the coroutine goes on |
| `Cancellation.CancelablePromiseBase.ExchangeState` | include/coro.hpp:593-598 | the old state decides what this call returns and whether it resumes |
| `Cancellation.CancelablePromiseBase.ResumeFromCancel` | include/coro.hpp:599-600 | resumes what the field holds at that moment |
| `Timeouts.TimeoutAwaitable.constructor` | include/timer.hpp:289-317 | pending, nothing stored, worker not started |
| `Timeouts.TimeoutAwaitable.AwaitReady` | include/timer.hpp:319-326 | a deadline in the past is a timeout at once |
| `Timeouts.TimeoutAwaitable.WriteCaller` | include/timer.hpp:329 | the caller is set before worker and timer start |
| `Timeouts.TimeoutAwaitable.ResumeWorker` | include/timer.hpp:330 | the operand is awaited from now on |
| `Timeouts.TimeoutAwaitable.AddTimerTask` | include/timer.hpp:331-348 | the deadline is armed |
| `Timeouts.TimeoutAwaitable.StoreOutcome` | include/timer.hpp:296-306 | the value or exception is stored before the CAS |
| `Timeouts.TimeoutAwaitable.WorkerCompareExchange` | include/timer.hpp:307-311 | wins exactly if still pending |
| `Timeouts.TimeoutAwaitable.TimerCompareExchange` | include/timer.hpp:335-339 | wins exactly if still pending |
| `Timeouts.TimeoutAwaitable.ResumeByWorker` | include/timer.hpp:312 | the caller is suspended and goes on |
| `Timeouts.TimeoutAwaitable.ResumeByTimer` | include/timer.hpp:340 | the caller is suspended and goes on |
| `Timeouts.TimeoutAwaitable.CancelTimerTask` | include/timer.hpp:345-347 | a stopped timer drops the deadline and decides nothing |
| `Timeouts.TimeoutAwaitable.AwaitResume` | include/timer.hpp:351-367 | never reaches the unreachable case: what it reads was stored before |
| `CancelableSleep.ControlBox.constructor` | include/timer.hpp:208-211 | one awaitable, one reference |
| `CancelableSleep.ControlBox.AddReference` | include/ptr/intrusive_ptr.hpp:169-172 | one more reference |
| `CancelableSleep.ControlBox.ReleaseReference` | include/ptr/intrusive_ptr.hpp:174-179 | one fewer; exactly the release from one frees |
| `CancelableSleep.ControlBox.CopyAwaitable` | include/ptr/intrusive_ptr.hpp:18 | a copy holds a reference of its own |
| `CancelableSleep.ControlBox.DropAwaitable` | include/ptr/intrusive_ptr.hpp:30-33 | the destructor frees the box exactly if it held the last reference |
| `CancelableSleep.ControlBox.TestReady` | include/timer.hpp:228-230 | ready if the time has come or the state is not pending |
| `CancelableSleep.ControlBox.WriteWaiter` | include/timer.hpp:233 | the waiter is set |
| `CancelableSleep.ControlBox.LendReference` | include/timer.hpp:234 | the timer gets a reference before it gets the address; undefined if the copy was destroyed |
| `CancelableSleep.ControlBox.AddTimerTask` | include/timer.hpp:235-266 | the callback and its cancellation are armed; undefined if the copy was destroyed |
| `CancelableSleep.ControlBox.CompareExchangeByUser` | include/timer.hpp:214-218 | wins exactly if still pending |
| `CancelableSleep.ControlBox.ResumeByUser` | include/timer.hpp:219-220 | resumes the waiter that is set at that moment |
| `CancelableSleep.ControlBox.ClearByUser` | include/timer.hpp:221 | the waiter is reset; undefined if the copy was destroyed |
| `CancelableSleep.ControlBox.PinByTask` | include/timer.hpp:238 | either callback pins the box first |
| `CancelableSleep.ControlBox.ReturnLent` | include/timer.hpp:239 | giving the lent reference back never frees the box |
| `CancelableSleep.ControlBox.CompareExchangeByTask` | include/timer.hpp:240-244 | wins exactly if still pending, with the state of its kind |
| `CancelableSleep.ControlBox.ResumeByTask` | include/timer.hpp:245-246 | resumes the waiter that is set at that moment |
| `CancelableSleep.ControlBox.AwaitResume` | include/timer.hpp:269-271 | true exactly if the timer's callback decided |
| `CancelableSleep.ControlBox.ClearByTask` | include/timer.hpp:247 | the waiter is reset |
| `CancelableSleep.ControlBox.UnpinByTask` | include/timer.hpp:250 | the callback frees the box exactly if it holds the last reference |
| `Timers.Timer.constructor` | include/timer.hpp:35 | no tasks, not stopped |
| `Timers.Timer.AddTask` | include/timer.hpp:39-43 | the task is pending and a sleeping worker is notified |
| `Timers.Timer.Top` | include/timer.hpp:87-93 | a pending task with no earlier one |
| `Timers.Timer.CancelPending` | include/timer.hpp:77-80 | every pending task is handed over once, earliest first, and none is left |
| `Timers.Timer.Stop` | include/timer.hpp:75-83 | all pending tasks are cancelled, earliest first; the flag is set and a sleeping worker notified |
| `Timers.Timer.DueTask` | include/timer.hpp:53-54 | the earliest task if it is due, nothing exactly if none is |
| `Timers.Timer.PollTask` | include/timer.hpp:53-58 | the due task is no longer pending when its callback begins |
| `Timers.Timer.FinishCallback` | include/timer.hpp:58-64 | the callback is over, normally or by an exception |
| `Timers.Timer.WaitForWork` | include/timer.hpp:67-71 | sleeps for ever without tasks, until a millisecond before the first otherwise, and not if one is due |
| `Timers.Timer.TestStopFlag` | include/timer.hpp:52 | the worker tests the flag after every wait and leaves exactly if it is set |
| `Timers.Timer.Advance` | include/timer.hpp:53 | the clock moves on by any amount at any moment, and nothing else changes |
| `Loopers.LooperSchedulerRunner.constructor` | include/looper.hpp:17-21 | no handles, not stopped |
| `Loopers.LooperSchedulerRunner.SubmitHandle` | include/looper.hpp:28-34 | accepted exactly if not stopped |
| `Loopers.LooperSchedulerRunner.Stop` | include/looper.hpp:36-44 | the queued handles are destroyed front first, none is left, a sleeping worker is notified |
| `Loopers.LooperSchedulerRunner.OuterStep` | include/looper.hpp:48-66 | the worker's moves between its loops |
| `Loopers.LooperSchedulerRunner.PollHandle` | include/looper.hpp:51-64 | pops the front or goes to sleep |
| `WaitableLatches.WaitablePromise.constructor` | include/coro.hpp:403-404 | unset |
| `WaitableLatches.WaitablePromise.ReturnOutcome` | include/coro.hpp:414-420 | the outcome is stored before the word is set |
| `WaitableLatches.WaitablePromise.StoreState` | include/coro.hpp:398-399 | the word is set |
| `WaitableLatches.WaitablePromise.Notify` | include/waitable_atomic.hpp:215-217 | every sleeper is back at its load |
| `WaitableLatches.WaitablePromise.ReadCaller` | include/coro.hpp:368-369 | the caller is read from the promise after the notification |
| `WaitableLatches.WaitablePromise.LoadState` | include/waitable_atomic.hpp:46-55 | returns exactly if the word is set, and then the outcome is there |
| `WaitableLatches.WaitablePromise.CompareAndSleep` | include/waitable_atomic.hpp:150-170 | sleeps exactly if the word is still unset |
| `WaitableLatches.WaitablePromise.WakeUp` | include/waitable_atomic.hpp:52-54 | a spurious wake-up only sends the waiter back to its load |

## Left out

- Weak memory orders: sequential consistency is assumed and nothing is claimed beyond it.
- AtomicQueues.StepKeepsInv: `notify_one` is not a step of its own; a sleeper may wake as soon as the tail differs from the one it expected, so which of several sleepers is chosen, and a sleeper that sleeps on because the same address is the tail again, are modelled only as a wake that may come late.
- AtomicQueueObject.AtomicQueue.TryDequeue: speaks of a call that no other thread interleaves with; interleaved calls are the single-access methods.
- AtomicQueueObject.AtomicQueue.Destroy: requires that no thread is inside the queue, as a C++ destructor does.
- Semaphores.WakerHasHandle: says that a handle is reachable or on its way, not that the releaser gets it; a releaser caught in a gap spins as `SpinForever` describes.
- Semaphores.CountingSemaphore.WakeLoop: speaks of a loop that no other thread moves beside; with others moving, each turn is `WakeNext`.
- Semaphores.PermitLaw: overflow of the 32-bit count and of the unsigned waiters is not modelled.
- WaitAny.ResultIsThereIff: a parent that reads while the winner writes is a data race in C++; the model treats the two as ordered steps.
- AtomicQueueTheorems.EmptinessIsOneSided: speaks of one moment; `EmptinessReaders` has the two loads.
- EmptinessReaders.ReadsFreedIff: what C++ leaves undefined is not modelled; `WaitEach` lets a read of a freed head return either answer and go on.
- WaitEach.StepKeepsInv: the dequeue of the parent is one step, so between its store of the head and its deletion a re-check may be given an arbitrary answer already.
- CancelableSleep.ControlBox.TestReady: two awaits of one control box suspended at the same time, the second of which would overwrite the waiter of the first, are not modelled.
- CancelableSleep.ControlBox.DropAwaitable: two destructions that a caller must not ask for are not modelled, that of a copy through which it is calling `cancel` and that of the awaited object of a coroutine that is still suspended.
- `maybe_empty` as a method of the queue object: `EmptinessReaders` models it on values.
- Cancellation.CarefulWaitersAreResumed: speaks of runs without a `cancel` between the two accesses of a replacement; `CancelHarmsIff` says why.
- Cancellation.ReplacingAlone: speaks of a coroutine that, once resumed, does not register again from within the resume.
- Timers.StopMissedIff: a spurious wake-up, a timed wait that is still due or a later `add_task` would save the worker, so the lemma says that it can sleep for ever, not that it must.
- Timers.Timer.TestStopFlag: a callback or a cancellation that calls back into the timer while `stop` holds the mutex would deadlock; not modelled.
- `Mutex` as an object: it forwards three calls to its semaphore; `Mutexes` models what its users do with them.
- The plain `SleepAwaitable`: one `add_task` without a race.
- The semaphore's destructor and the destructor of a promise that calls `cancel`: single-threaded clean-up.
- WaitEachOutlook.CanBeLateIff: says when an access comes late, as its companions in the other protocols do, not what an access of a destroyed awaitable or promise finds; the protocols go on as if it were alive.
- A frame that never completes after a timeout is not accounted for.
- `AwaitableResult*`, `Expected`, the reference and void overloads and `include/detail/meta.hpp`: type-level plumbing.
- `include/io/`, `include/timer/wheel.hpp`, `include/ptr/hazard_ptr.hpp`, `include/ptr/rc_ptr.hpp`, plain `Future` and `Promise`: thin wrappers, empty bodies or ownership without a race.
- The converting constructors of `intrusive_ptr`: the timer does not use them.
- `wait_for` and `wait_until` of `waitable_atomic` and its Windows and condition-variable variants: only compare-and-sleep and wake are modelled.
- Fairness and real time: no claim is made that a thread takes its next step.
