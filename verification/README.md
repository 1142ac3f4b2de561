# Serverbox: verified models of its concurrent and pointer-based parts

Serverbox is a task scheduler and an IO event loop built from lock-free queues, intrusive lists, a
heap, a hand-off mutex and chained network buffers. This project models those parts in Dafny and
proves what each of them promises, over every input and over every run.

Two kinds of models are used, after the form of the code.

- **Protocols** (`TaskScheduler`, `MultiConsumerQueue`, `IOUring`, `Epoll`, `InterruptibleMutex`,
  `Signal`, `MultiProducerQueue`, `DomainToIP`) are state machines. One step is one atomic operation
  or one locked section, together with the thread-local work around it. Atomics are sequentially
  consistent, a weak compare-exchange may fail without a reason. A run is a sequence of states and
  actions, any number of threads interleave, and each theorem is about an arbitrary run. Invariants
  are proved step by step, and every assertion of the C++ code on the way of a step is proved to hold.
  The theorems named `...Returns` say what an operation has achieved when it returns, from the step it
  begins with to the first state in which it is over.
- **Data structures** (`Buffers`, `BufferShapes`, `BufferStreams`, `BufferLinkLists`, `BinaryHeaps`,
  the list loops of `MultiProducerQueue`) are imperative: objects with fields and next pointers, the
  loops of the source, and ghost fields that tie the objects to the plain values they stand for.

| file | models |
|---|---|
| `TaskScheduler.dfy`, `TaskSchedulerSafety.dfy`, `TaskSchedulerRuns.dfy`, `TaskSchedulerBatch.dfy`, `TaskSchedulerCalls.dfy` | `src/mg/sch/TaskScheduler.cpp`, `src/mg/sch/Task.cpp` |
| `MultiConsumerQueue.dfy`, `MultiConsumerQueueSafety.dfy`, `MultiConsumerQueueRuns.dfy`, `MultiConsumerQueueCalls.dfy` | `src/mg/box/MultiConsumerQueueBase.cpp` |
| `IOUring.dfy`, `IOUringCalls.dfy` | `src/mg/aio/IOCore_iouring.cpp`, `IOTask_iouring.cpp`, `IOTask.cpp`, `IOCore.cpp` |
| `Epoll.dfy`, `EpollCalls.dfy` | `src/mg/aio/IOCore_epoll.cpp`, `IOTask_epoll.cpp`, `IOTask.cpp`, `IOCore.cpp` |
| `Buffer.dfy`, `BufferShape.dfy`, `BufferStream.dfy`, `BufferStreamRuns.dfy` | `BufferStream` of `src/mg/net/Buffer.cpp` |
| `BufferLinkList.dfy` | `BufferLinkList`, `BuffersCopy` and the gathering for sends of `src/mg/net/Buffer.cpp` |
| `BinaryHeap.dfy` | `src/mg/box/BinaryHeap.h` |
| `InterruptibleMutex.dfy` | `src/mg/box/InterruptibleMutex.cpp` |
| `Signal.dfy` | `src/mg/box/Signal.cpp` |
| `MultiProducerQueue.dfy` | `src/mg/box/MultiProducerQueueIntrusive.h` |
| `DomainToIP.dfy`, `DomainToIPCalls.dfy` | the worker of `src/mg/net/DomainToIP.cpp` |

`dafny verify dfyconfig.toml` checks everything.

The models are layered. `TaskScheduler` uses the other parts by what is proved of them: the scheduler
mutex is an owner and a FIFO of waiters (`InterruptibleMutex`), the front queue is a sequence whose
first push signals (`MultiProducerQueue`), the ready queue is a FIFO whose count may exceed its visible
items (`MultiConsumerQueue`), the waiting heap gives an element with the least deadline (`BinaryHeap`),
and a signal is sent in two steps over its PROBE state (`Signal`).

## What turned out not to hold

- `BufferStream::WriteCopy` keeps the stream in order if and only if it has nothing to write, or there
  is no write position, or the write position is the tail, or the data is strictly smaller than its
  free space. Otherwise the spare buffers behind the write position are left as a hole: the bytes are
  still all there in order, but `PrivCheck` fails. `BufferStreams.BufferStream.WriteCopy` proves both
  directions for all streams and all data.
- `BufferStream::PropagateWritePos` with the size 0 keeps the stream valid if and only if the read end
  is the write position. With any other size it always does. Callers filter 0.
- `PrivCheck` accepts more than the shape the other operations rely on: when all buffers have data it
  does not look at the read end. `BufferStreams.BufferStream.PrivCheck` states exactly what it accepts.
- A batch loop `++batch < maxBatch` handles at most `maxBatch - 1` items. A pass of the task scheduler takes
  exactly as many pending tasks as there are or as that limit allows, so it handles something if and only if
  the batch size is at least 2 (`TaskSchedulerBatches.DispatchExact`, `HandlesSome`, `ExpiresSome`). With a
  batch size of 1 no run ever executes a task (`BatchOfOne`); `BatchOfOneStarves` is such a run with a posted
  task left pending. The safety theorems hold for any batch size. The size is the size of a sub-queue times
  the number of threads, so it is 1 only for a sub-queue size and a thread count of 1.
- Destroying a `Signal` is safe if and only if no sender is between its compare-exchange and its lock when
  the destructor starts (`Signal.DestructionIsSafe`). A sender which already has the lock does no harm, although
  the word may still be PROBE. A caller can check the word: any value but PROBE is enough
  (`Signal.UnprobedIsSafe`). `Signal.DestroyedTooEarly` is a run of two threads in which the sender goes for the
  lock of a destroyed signal.
- `IOTask::AttachSocket` and a `Post` of a reused task assert in `PrivKernelRegister` that there are no events.
  For the epoll core there never are pending ones, and no ready ones if and only if the owner saved no event
  since the worker gave it the task (`Epoll.AssertionsHold`, `Epoll.RegistersIfUnsaved`). `Epoll.SavedBeforeAttach` is
  a run in which `SaveEventReadable()` before `AttachSocket()` makes the assertion fail.

## Reading the buffer models

A buffer is a position and the memory up to its capacity. `Node(bytes, room)` is its value: the data
and the memory behind it. A stream is `d` buffers with data followed by buffers with space only
(`BufferShapes.Shape`). Its abstract value is `Content()`, the bytes a reader gets, and `Space()`, the
memory a writer may fill. `BufferStream.Valid()` says what all cached pointers and sizes are for that
shape. A pointer moved out of a buffer (`std::move(p->myNext)`) is set to null, as in the source, so a
chain which is shared with another list would lose its rest; `SkipEmptyPrefix` and `WriteRef` therefore
require unshared chains, `BufferLinkList.SkipData` does not and its frame has no buffer in it.

## Model

| member | source | states |
|---|---|---|
| TaskSchedulerRuns.RunInv | src/mg/sch/TaskScheduler.cpp:118-419 | the invariant (tokens, queues, statuses, lock, wakeup obligations) holds in every state of every run |
| TaskSchedulerRuns.NextInv | src/mg/sch/TaskScheduler.cpp:148-419 | each of the 32 kinds of steps of clients, lockers, the scheduler role and workers keeps the invariant |
| TaskSchedulerRuns.OneToken | src/mg/sch/TaskScheduler.cpp:148-361 | a task is in exactly one of: a user's hands, a pusher, front, pending, local list, ready queue, WAITING, one worker; never twice; a task in the waiting heap is neither ready nor running |
| TaskSchedulerRuns.SignalNotLost | src/mg/sch/Task.cpp:121-132 | over any part of a run in which the owner does not receive it, a SIGNALED task stays SIGNALED, so it never waits |
| TaskSchedulerRuns.WakeupNotLost | src/mg/sch/Task.cpp:95-119 | a READY or SIGNALED task stays so until it is executed or its signal is received |
| TaskSchedulerRuns.WakeupTakesEffect | src/mg/sch/Task.cpp:95-119 | for each PostWakeup that returned there was a moment during the call when the task was READY or SIGNALED, spurious failures and races included |
| TaskSchedulerRuns.DeadlineHonoured | src/mg/sch/TaskScheduler.cpp:171-271 | at each execution IsExpired is true exactly if the deadline was at or before the timestamp of the dispatching pass, and a task dispatched before its deadline was woken since its last execution or holds a signal sent after the last receipt |
| TaskSchedulerRuns.StartMeaning | src/mg/sch/TaskScheduler.cpp:346-361 | the recorded moments of executions and receipts change exactly in those actions |
| TaskSchedulerRuns.DispatchMeaning | src/mg/sch/TaskScheduler.cpp:171-271 | the recorded moment of dispatching changes when a task joins the ready list of a pass, to the timestamp of that pass, and never else |
| TaskSchedulerRuns.PokeMeaning | src/mg/sch/Task.cpp:95-132 | the recorded moments of signals and wakeups change only in those actions, and a wakeup makes the task READY |
| TaskSchedulerRuns.StatusStep | src/mg/sch/Task.cpp:203-213 | no single step but a receipt takes a signal away, and none but a receipt or an execution takes readiness away |
| TaskSchedulerRuns.NoStuckState | src/mg/sch/TaskScheduler.cpp:286-344 | if no thread can go on by itself then all queues are empty, nobody waits for the lock, and one worker sleeps in the scheduler role, no longer than to the earliest deadline of the heap |
| TaskSchedulerRuns.AssertionsHold | src/mg/sch/TaskScheduler.cpp:148-361 | the assertions of posting, dispatching, expiring, executing and signalling hold in every run |
| TaskSchedulerSafety.AlertsKept | src/mg/sch/TaskScheduler.cpp:311-344 | which steps keep the obligation that somebody is going to wake the scheduler role up |
| TaskSchedulerSafety.DispatchKeeps | src/mg/sch/TaskScheduler.cpp:213-271 | dispatching a pending task, into the heap or to the ready list, keeps the invariant |
| TaskSchedulerSafety.ExpireKeeps | src/mg/sch/TaskScheduler.cpp:171-206 | taking an expired task from the heap keeps the invariant, whether its compare-exchange wins or not |
| TaskSchedulerSafety.WakeTryKeeps | src/mg/sch/Task.cpp:95-119 | one turn of the compare-exchange loop of a wakeup keeps the invariant |
| TaskSchedulerSafety.PostSignalKeeps | src/mg/sch/Task.cpp:121-132 | sending a signal keeps the invariant and leaves the task SIGNALED; the sender owns the task afterwards, and has to push it, if and only if it took it out of WAITING |
| TaskSchedulerBatches.PassBound | src/mg/sch/TaskScheduler.cpp:164-217 | from the start of a pass to the next one of the same thread at most maxBatch - 1 tasks are taken from the heap and at most maxBatch - 1 dispatched, all with the timestamp read at the start |
| TaskSchedulerBatches.DispatchExact | src/mg/sch/TaskScheduler.cpp:213-247 | a pass dispatches the first pending tasks, exactly as many as there are or as the limit allows, and the rest stays pending in order |
| TaskSchedulerBatches.HandlesSome | src/mg/sch/TaskScheduler.cpp:216-217 | a pass over pending tasks dispatches something if and only if the batch size is at least 2 |
| TaskSchedulerBatches.ExpiresSome | src/mg/sch/TaskScheduler.cpp:171-175 | a due task is taken from the heap at the start of the loop if and only if the batch size is at least 2 |
| TaskSchedulerBatches.BatchOfOne | src/mg/sch/TaskScheduler.cpp:164-217 | with a batch size of 1 no run takes, dispatches or executes a task |
| TaskSchedulerBatches.BatchOfOneStarves | src/mg/sch/TaskScheduler.cpp:216-217 | a run with a batch size of 1 whose pass leaves a posted task pending |
| TaskSchedulerCalls.PostSignalReturns | src/mg/sch/Task.cpp:121-132 | a PostSignal leaves the task SIGNALED, whatever its status was |
| TaskSchedulerCalls.ReceiveReturns | src/mg/sch/Task.cpp:203-213 | a receipt takes the signal if and only if there is one, and changes nothing otherwise |
| TaskSchedulerCalls.SentIsReceived | src/mg/sch/Task.cpp:121-213 | from a PostSignal to the first receipt the task is SIGNALED in every state, and that receipt finds the signal |
| TaskSchedulerCalls.DeadlineKept | src/mg/sch/Task.cpp:157-226 | a deadline which was set stays until the next execution or the next setting, and an execution resets it to 0 |
| TaskSchedulerCalls.PostReturns | src/mg/sch/TaskScheduler.cpp:118-134 | a posted task is in the scheduler and in the hands of its poster, which pushes it next |
| TaskSchedulerCalls.PostedStays | src/mg/sch/TaskScheduler.cpp:118-361 | it stays in the scheduler until it is executed |
| TaskSchedulerCalls.PostedIsServed | src/mg/sch/TaskScheduler.cpp:118-361 | if nobody can go on, a posted task which was not executed is WAITING, in the heap if it has a deadline |
| TaskSchedulerCalls.DispatchOrder | src/mg/sch/TaskScheduler.cpp:207-218 | the tasks ever pushed are, in their order, the ones dispatched, then the pending ones, then the front ones |
| TaskSchedulerCalls.ExecutionOrder | src/mg/sch/TaskScheduler.cpp:273-284 | the tasks which ever became ready are, in their order, the ones workers got, then the ready queue, then the list to flush |
| TaskSchedulerCalls.DispatchDecides | src/mg/sch/TaskScheduler.cpp:213-271 | a dispatched task sleeps if and only if it is not due and nobody woke it or signalled it, in the heap if it has a deadline; else it is ready |
| TaskSchedulerCalls.ExpireReturns | src/mg/sch/TaskScheduler.cpp:171-206 | when the loop over the heap ends no due task is in it, or the batch is full |
| TaskSchedulerCalls.CheckReturns | src/mg/sch/TaskScheduler.cpp:286-290 | the scheduler thinks of sleeping if and only if it saw no ready task and has no pending one |
| TaskSchedulerCalls.DecideReturns | src/mg/sch/TaskScheduler.cpp:291-308 | it sleeps without a limit if the heap is empty, up to the closest deadline if nothing is due, and not at all otherwise |
| TaskSchedulerCalls.SignalsConsumed | src/mg/sch/TaskScheduler.cpp:291-367 | the wakeup of the scheduler and of an idle worker consumes the signal |
| TaskSchedulerCalls.ExecReturns | src/mg/sch/TaskScheduler.cpp:398-411 | a worker goes back to scheduling exactly when it has executed a whole batch, or goes idle when it found no ready task |
| TaskSchedulerCalls.LockReturns | src/mg/sch/TaskScheduler.cpp:136-140 | a call of Lock does not return before its thread owns the lock, and is in the queue of the lock till then |
| TaskSchedulerCalls.UnlockReturns | src/mg/sch/TaskScheduler.cpp:311-318 | an unlock frees the lock, or hands it to the first of the queue |
| TaskSchedulerCalls.StepAdvances | src/mg/sch/TaskScheduler.cpp:148-419 | each step of a worker or of a begun operation takes its thread on |
| MultiConsumerQueueRuns.RunInv | src/mg/box/MultiConsumerQueueBase.cpp:144-607 | the invariant (list order, sub-queue contents, consumers, producer, counts) holds in every run |
| MultiConsumerQueueRuns.PopsInPushOrder | src/mg/box/MultiConsumerQueueBase.cpp:163-294 | all items popped by all consumers are, in the order of their read-index exchanges, a prefix of the flushed items, which are a prefix of the pushed ones; nothing is lost or doubled |
| MultiConsumerQueueRuns.RefinesFifo | src/mg/box/MultiConsumerQueueBase.cpp:163-380 | every step is a step of a plain FIFO: a publishing store appends the pending items and the pushed one, a won exchange takes the head, an empty-handed Pop happens only when the FIFO is empty, other steps change nothing |
| MultiConsumerQueueRuns.PopRefines | src/mg/box/MultiConsumerQueueBase.cpp:265-294 | a won exchange of the read index returns the oldest flushed item not popped yet |
| MultiConsumerQueueRuns.NullRefines | src/mg/box/MultiConsumerQueueBase.cpp:321-380 | a consumer leaves with nothing only if every flushed item was popped |
| MultiConsumerQueueRuns.PublishRefines | src/mg/box/MultiConsumerQueueBase.cpp:196-262 | one exchange makes all pending items, and the pushed one behind them, visible at once |
| MultiConsumerQueueRuns.ListShape | src/mg/box/MultiConsumerQueueBase.cpp:537-607 | the list is full sub-queues, then the write position, then fresh ones; each consumer is at or before the write position and everything before it is read to the end |
| MultiConsumerQueueRuns.RecyclesOnlyGarbage | src/mg/box/MultiConsumerQueueBase.cpp:144-161 | a sub-queue which is reset is full, completely read, without pending items, without consumers and not written to |
| MultiConsumerQueueRuns.CountConservation | src/mg/box/MultiConsumerQueueBase.cpp:445-501 | the count is the visible unread items, plus the ones counted but not published, plus the pops not subtracted yet; the pending count is the write index minus the flush index between operations |
| MultiConsumerQueueRuns.AssertionsHold | src/mg/box/MultiConsumerQueueBase.cpp:144-607 | in every state, for the producer and each consumer wherever they are, enabled or not: the cell at the flush index is null before its exchange, a switch finds the sub-queue full, nothing pending and a fresh sub-queue next, the count does not underflow, leaving finds the reference, the sub-queue in the list, a next one behind it, and what Reset asserts |
| MultiConsumerQueueSafety.CollectKeeps | src/mg/box/MultiConsumerQueueBase.cpp:560-607 | moving an unused exhausted sub-queue to the end of the list keeps the invariant |
| MultiConsumerQueueSafety.NextSubKeeps | src/mg/box/MultiConsumerQueueBase.cpp:321-380 | a consumer moving over the list, with the recycling on its way, keeps the invariant |
| MultiConsumerQueueSafety.PublishKeeps | src/mg/box/MultiConsumerQueueBase.cpp:163-263 | publishing keeps the invariant |
| MultiConsumerQueueCalls.ProducerReturns | src/mg/box/MultiConsumerQueueBase.cpp:445-501 | when Push or FlushPending returns everything pushed so far is visible and nothing is pending; PushPending leaves its item behind the pending ones, or alone after a switch which made the others visible |
| MultiConsumerQueueCalls.ProducerEnds | src/mg/box/MultiConsumerQueueBase.cpp:445-501 | each step of the producer brings its operation nearer to its end |
| MultiConsumerQueueCalls.PopReturns | src/mg/box/MultiConsumerQueueBase.cpp:321-380 | a Pop returns the one item it took, or it took nothing and nothing was visible at its last step |
| MultiConsumerQueueCalls.AttachReturns | src/mg/box/MultiConsumerQueueBase.cpp:382-412 | a consumer starts at the first sub-queue of the list, and is gone when it is detached |
| MultiConsumerQueueCalls.LeavingRecycles | src/mg/box/MultiConsumerQueueBase.cpp:560-607 | the last consumer which leaves a sub-queue that was read to its end moves it, reset, to the end of the list |
| MultiConsumerQueueCalls.ReserveReturns | src/mg/box/MultiConsumerQueueBase.cpp:503-535 | reserving adds fresh sub-queues behind the others |
| IOUring.RunInv | src/mg/aio/IOCore_iouring.cpp:100-456 | one place for the task, the status rules, the operation count and the cancellation rules hold in every run |
| IOUring.StepKeeps | src/mg/aio/IOCore_iouring.cpp:138-374 | each of the 25 kinds of steps keeps them |
| IOUring.AssertionsHold | src/mg/aio/IOCore_iouring.cpp:159-387 | the assertions of the scheduling pass, of PostClose, PrivAttach, PrivCloseDo, PrivCloseEnd and of the workers hold in every run |
| IOUring.OperationsCounted | src/mg/aio/IOTask_iouring.cpp:41-46 | the operation count is the unsubmitted events, the ones to submit, the ones in the kernel, the pending and the ready ones, the cancellation included |
| IOUring.ClosedOnce | src/mg/aio/IOCore_iouring.cpp:280-303 | between two deliveries of a task as closed its owner has posted it again |
| IOUring.NothingAfterClosed | src/mg/aio/IOTask_iouring.cpp:213-233 | when the owner has got the closed task all counts are zero, the socket is closed, and no completion can come before the task is reused |
| IOUring.CancelIsLast | src/mg/aio/IOCore_iouring.cpp:292-302 | once the cancellation is in the kernel every operation of the task is in the kernel or complete |
| IOUring.CancellationEnds | src/mg/aio/IOCore_iouring.cpp:183-216 | a task held for its cancellation always has an event which is still to be submitted or completed |
| IOUring.NoSleepOnEvents | src/mg/aio/IOCore_iouring.cpp:159-216 | a WAITING task has no events, except between a completion and the compare-exchange which then makes it ready |
| IOUring.EventsKept | src/mg/aio/IOTask_iouring.cpp:198-211 | the completions which came from the kernel are the events workers got plus the pending and ready ones |
| IOUring.OneWorker | src/mg/aio/IOCore.cpp:172-233 | a task is in at most one worker, and then in no queue and not waiting |
| IOUringCalls.PostReturns | src/mg/aio/IOCore.cpp:206-233 | a task which is posted, or which its worker is done with, is in the front queue and in no hands |
| IOUringCalls.ExecuteReturns | src/mg/aio/IOCore.cpp:172-204 | a worker has the task and all its ready events, and a READY task is PENDING again |
| IOUringCalls.WakeupReturns | src/mg/aio/IOTask.cpp:117-147 | a wakeup of a sleeping or running task makes it READY, and a sleeping one is on its way to the scheduler |
| IOUringCalls.StaysAwake | src/mg/aio/IOTask.cpp:117-147 | a READY task neither sleeps nor becomes PENDING before a worker executes it |
| IOUringCalls.WokenIsDispatched | src/mg/aio/IOCore_iouring.cpp:244-320 | the front phase gives a woken task to the workers, unless it has to be closed |
| IOUringCalls.CloseReturns | src/mg/aio/IOTask.cpp:90-115 | from the first PostClose on the task is closing, inside of that call, or closed, until it is posted again |
| IOUringCalls.SleeperHasDeadline | src/mg/aio/IOCore_iouring.cpp:256-277 | a task which went to sleep with a deadline is in the heap as long as it sleeps |
| IOUringCalls.ExpiredIsDispatched | src/mg/aio/IOCore_iouring.cpp:340-360 | an expired task is given to the workers and leaves the heap |
| IOUringCalls.ReuseReturns | src/mg/aio/IOTask.cpp:283-308 | a revived task is PENDING, open, and may be closed again |
| IOUringCalls.SocketGiven | src/mg/aio/IOTask.cpp:48-164 | a task has the socket it was posted with or which was attached to it |
| IOUringCalls.SocketStays | src/mg/aio/IOTask.cpp:263-281 | it keeps the socket until it is closed |
| IOUringCalls.ClosingReturns | src/mg/aio/IOCore_iouring.cpp:280-303 | a closing task whose operations are all complete is closed at once, otherwise one cancellation is queued behind its operations |
| IOUringCalls.OperationsKept | src/mg/aio/IOCore_iouring.cpp:397-456 | every operation a worker starts is submitted once and completes once: started ones are the complete ones plus those on their way or in the kernel |
| IOUringCalls.InternalStepsEnd | src/mg/aio/IOCore_iouring.cpp:100-456 | the steps of the scheduler, of the workers and of begun calls end: each brings the task nearer to where something must come from outside |
| IOUringCalls.NoStuckState | src/mg/aio/IOCore_iouring.cpp:100-456 | then the task is not posted, with its owner, gone, asleep without events, or waits for the kernel to complete cancelled operations |
| Epoll.RunInv | src/mg/aio/IOCore_epoll.cpp:92-315 | one place, the status, heap, queue flag and closing rules, no pending events while waiting or without a registered socket, in every run |
| Epoll.AssertionsHold | src/mg/aio/IOCore_epoll.cpp:56-312 | the assertions of the pass, the heap, the queue flag, closing and reuse hold in every run; those of registering a socket hold if and only if the task has no ready events, and always for the first post |
| Epoll.ReadyIfSaved | src/mg/aio/IOTask_epoll.cpp:39-51 | while the owner has the task it has no ready events if and only if the owner saved none since it got it |
| Epoll.RegistersIfUnsaved | src/mg/aio/IOCore_epoll.cpp:56-61 | the assertions of registering a socket hold if and only if the owner saved no event since it got the task |
| Epoll.SavedBeforeAttach | src/mg/aio/IOCore_epoll.cpp:60-61 | a run in which a socket is attached after an event was saved, and the assertion fails |
| Epoll.EventStays | src/mg/aio/IOCore_epoll.cpp:137-246 | each bit the kernel reports stays pending or ready until a worker is told of it or the task is closed, under all races with wakeups, closing and deadlines |
| Epoll.NoSleepOnEvents | src/mg/aio/IOCore_epoll.cpp:147-207 | a task does not wait with a bit it was not told of, except until the compare-exchange which follows the report |
| Epoll.ClosedIsSilent | src/mg/aio/IOCore_epoll.cpp:214-227 | a closed task has no pending bits and the kernel reports none for it |
| Epoll.OneWorker | src/mg/aio/IOCore.cpp:172-204 | a task is in at most one worker, and then in no queue and not waiting |
| EpollCalls.PostReturns | src/mg/aio/IOCore.cpp:206-233 | a task which is posted, or which its worker is done with, is in the front queue and in no hands |
| EpollCalls.ExecuteReturns | src/mg/aio/IOCore.cpp:172-204 | a worker has the task and all its ready events, and a READY task is PENDING again |
| EpollCalls.WakeupReturns | src/mg/aio/IOTask.cpp:117-147 | a wakeup of a sleeping or running task makes it READY, and a sleeping one is on its way to the scheduler |
| EpollCalls.StaysAwake | src/mg/aio/IOTask.cpp:117-147 | a READY task neither sleeps nor becomes PENDING before a worker executes it |
| EpollCalls.WokenIsDispatched | src/mg/aio/IOCore_epoll.cpp:177-246 | the front phase gives a woken task to the workers, unless it has to be closed |
| EpollCalls.CloseReturns | src/mg/aio/IOTask.cpp:90-115 | from the first PostClose on the task is closing, inside of that call, or closed, until it is posted again |
| EpollCalls.SleeperHasDeadline | src/mg/aio/IOCore_epoll.cpp:193-207 | a task which went to sleep with a deadline is in the heap as long as it sleeps |
| EpollCalls.ExpiredIsDispatched | src/mg/aio/IOCore_epoll.cpp:265-279 | an expired task is given to the workers and leaves the heap |
| EpollCalls.ReuseReturns | src/mg/aio/IOTask.cpp:283-308 | a revived task is PENDING, open, and may be closed again |
| EpollCalls.SocketGiven | src/mg/aio/IOTask.cpp:48-164 | a task has the socket it was posted with or which was attached to it |
| EpollCalls.SocketStays | src/mg/aio/IOTask.cpp:263-281 | it keeps the socket until it is closed |
| EpollCalls.ClosingReturns | src/mg/aio/IOCore_epoll.cpp:214-245 | a closing task is unregistered and closed, and its events are dropped |
| EpollCalls.SavedStays | src/mg/aio/IOCore_epoll.cpp:159-240 | a bit saved by the owner is ready in every state until a worker is told of it or the task is closed, under all reports, wakeups, deadlines and closings |
| EpollCalls.ToldOnce | src/mg/aio/IOTask_epoll.cpp:251-261 | a worker is told all ready bits, each once |
| EpollCalls.EventsAreReal | src/mg/aio/IOCore_epoll.cpp:137-246 | a worker is told of no bit which neither the kernel reported nor the owner saved |
| EpollCalls.InternalStepsEnd | src/mg/aio/IOCore_epoll.cpp:92-315 | the steps of the scheduler, of the workers and of begun calls end |
| EpollCalls.NoStuckState | src/mg/aio/IOCore_epoll.cpp:92-315 | then the task is not posted, with its owner, gone, or asleep without events |
| BufferShapes.PropagateOnWrite | src/mg/net/Buffer.cpp:618-638 | fills the buffers in order up to the given size and returns the one which got the last byte |
| BufferShapes.PropagateSpace | src/mg/net/Buffer.cpp:618-638 | on a stream it appends the first bytes of the space to the content and takes them from the space |
| BufferShapes.PropagateOnRead | src/mg/net/Buffer.cpp:640-657 | drops exactly the given number of bytes, and the buffers which are used up |
| BufferShapes.FilledBytes | src/mg/net/Buffer.cpp:618-638 | filling turns a prefix of the room into data and changes no byte |
| BufferShapes.CutBytes | src/mg/net/Buffer.cpp:640-657 | the bytes before and behind the place where a read ends |
| BufferShapes.CutAfter | src/mg/net/Buffer.cpp:328-339 | dropping an empty head which is not the write position keeps the shape, the write position and the space |
| BufferShapes.CutInside | src/mg/net/Buffer.cpp:317-341 | a partly read head, or an empty one which is the write position, keeps the shape |
| BufferShapes.InsertShape | src/mg/net/Buffer.cpp:218-315 | putting a chain between the data and the spare buffers appends its bytes in all cases of WriteRef |
| BufferShapes.CopyingEnd | src/mg/net/Buffer.cpp:183-214 | when the copy loop ends in a stream again, and what the hole is when it does not |
| BufferStreams.BufferStream.ValidChecked | src/mg/net/Buffer.cpp:466-518 | a valid stream passes everything PrivCheck asserts |
| BufferStreams.BufferStream.PrivCheck | src/mg/net/Buffer.cpp:466-518 | the loop accepts exactly the streams with the right first read end, first write position, tail and sizes |
| BufferStreams.BufferStream.EnsureWriteSize | src/mg/net/Buffer.cpp:103-136 | adds space up to the size, the content and the old buffers stay |
| BufferStreams.BufferStream.PropagateWritePos | src/mg/net/Buffer.cpp:138-156 | the first bytes of the space become content; valid afterwards if and only if the size is not 0 or the read end was the write position |
| BufferStreams.BufferStream.WriteCopy | src/mg/net/Buffer.cpp:158-216 | appends the bytes always; valid afterwards if the data fits the rule above, and PrivCheck fails otherwise |
| BufferStreams.BufferStream.WriteRef | src/mg/net/Buffer.cpp:218-315 | appends the bytes of the chain and puts its buffers between the data and the spare ones, in all four cases |
| BufferStreams.BufferStream.SkipData | src/mg/net/Buffer.cpp:317-341 | drops the first bytes of the content |
| BufferStreams.BufferStream.ReadData | src/mg/net/Buffer.cpp:343-384 | returns and drops the first bytes of the content |
| BufferStreams.BufferStream.PeekData | src/mg/net/Buffer.cpp:386-406 | returns the first bytes of the content |
| BufferStreams.BufferStream.PopData | src/mg/net/Buffer.cpp:408-431 | returns all of the content as a chain of its own, keeps the spare buffers |
| BufferStreams.BufferStream.Clear | src/mg/net/Buffer.cpp:433-443 | the stream is empty |
| BufferStreamRuns.Replay | src/mg/net/Buffer.cpp:103-443 | for every sequence of operations the stream passes PrivCheck after each of them, and the bytes which come out followed by the content are the content before followed by the bytes which went in |
| BufferStreamRuns.Give | src/mg/net/Buffer.cpp:103-315 | reserving, receiving, writing and linking any chain with data in each buffer append exactly their bytes |
| BufferStreamRuns.Take | src/mg/net/Buffer.cpp:317-431 | reading, skipping and popping take a prefix of the content, peeking takes nothing |
| BufferLinkLists.BufferLinkList.SkipData | src/mg/net/Buffer.cpp:31-57 | drops exactly the bytes counted from the offset, leaves an offset into the first buffer with data, and changes no buffer |
| BufferLinkLists.BufferLinkList.SkipEmptyPrefix | src/mg/net/Buffer.cpp:59-90 | the bytes to send stay, and the list starts with an unsent byte or is empty |
| BufferLinkLists.BufferLinkList.Gather | src/mg/net/Buffer.cpp:681-708 | the vectors are a prefix of the bytes to send, all of them unless there is no more place, and not empty if there is anything to send |
| BufferLinkLists.BufferLinkList.AppendCopy | src/mg/net/Buffer.h:458-464 | queues the bytes behind what is queued, in new buffers |
| BufferLinkLists.BufferLinkList.AppendRef | src/mg/net/Buffer.h:422-436 | queues the bytes of a chain |
| BufferLinkLists.BuffersCopy | src/mg/net/Buffer.cpp:522-532 | makes a new chain of the bytes |
| BufferLinkLists.BuffersCopyAppend | src/mg/net/Buffer.cpp:737-768 | appends the bytes to a buffer and to new buffers behind it |
| BufferLinkLists.StartSend | src/mg/aio/TCPSocket.cpp:41-55 | skipping keeps the bytes to send, the kernel gets a prefix of them, and at least one byte if there is one |
| BufferLinkLists.CommitSend | src/mg/aio/TCPSocket.cpp:70-76 | what was accepted followed by what is left is what was to send, also if more was queued during the send |
| BufferLinkLists.Deliver | src/mg/aio/TCPSocket.cpp:41-92 | for any mix of queueing, starts of sends, vector counts and accepted sizes exactly the queued bytes go out, in order |
| BinaryHeaps.BinaryHeap.Push | src/mg/box/BinaryHeap.h:351-360 | adds the element, keeps order and indexes |
| BinaryHeaps.BinaryHeap.PrivUpdateUp | src/mg/box/BinaryHeap.h:489-513 | if it moves an element with an arbitrary key then the heap is in order, otherwise only its children may be wrong; at most floor(log2(i + 1)) moves |
| BinaryHeaps.BinaryHeap.PrivUpdateDown | src/mg/box/BinaryHeap.h:515-560 | the heap is in order, in at most floor(log2(count)) moves |
| BinaryHeaps.BinaryHeap.PrivUpdate | src/mg/box/BinaryHeap.h:562-592 | up or else down is enough for an arbitrary key |
| BinaryHeaps.BinaryHeap.Update | src/mg/box/BinaryHeap.h:369-380 | restores the order around an element whose key changed |
| BinaryHeaps.BinaryHeap.ChangeKey | src/mg/box/BinaryHeap.h:43-49 | any new key and an update make a heap of the same elements |
| BinaryHeaps.BinaryHeap.RemoveTop | src/mg/box/BinaryHeap.h:382-401 | removes the top, whose index becomes -1 |
| BinaryHeaps.BinaryHeap.Remove | src/mg/box/BinaryHeap.h:403-424 | removes exactly that element, whose index becomes -1 |
| BinaryHeaps.BinaryHeap.Pop | src/mg/box/BinaryHeap.h:426-435 | returns and removes a minimum |
| BinaryHeaps.TopIsMin | src/mg/box/BinaryHeap.h:22-24 | the top is not above any element |
| BinaryHeaps.UpStep | src/mg/box/BinaryHeap.h:504-509 | one move up keeps the order around the moving element |
| BinaryHeaps.DownStep | src/mg/box/BinaryHeap.h:539-555 | one move down keeps the order around the moving element |
| InterruptibleMutex.RunInv | src/mg/box/InterruptibleMutex.cpp:24-124 | the invariant of the flags, the waiters and the owner holds in every run |
| InterruptibleMutex.AssertionsHold | src/mg/box/InterruptibleMutex.cpp:43-121 | the assertions of Lock and Unlock hold in every state for every thread which gets to them, the popped waiter is still there when it is signalled, and only the internal mutex or its own signal ever stops a thread |
| InterruptibleMutex.MutualExclusion | src/mg/box/InterruptibleMutex.cpp:24-124 | at most one thread owns the mutex |
| InterruptibleMutex.FreeHasNoWaiters | src/mg/box/InterruptibleMutex.cpp:38-55 | nobody waits for a free mutex |
| InterruptibleMutex.NoOvertaking | src/mg/box/InterruptibleMutex.cpp:75-84 | a thread which takes a free mutex finds everybody who ever queued up served |
| InterruptibleMutex.HandedToOwner | src/mg/box/InterruptibleMutex.cpp:106-122 | an owner by hand-off is the last one of the hand-off sequence |
| InterruptibleMutex.HandOff | src/mg/box/InterruptibleMutex.cpp:106-122 | when the owner changes without the mutex becoming free, the new one is the last of the hand-off sequence, a prefix of the queueing order |
| InterruptibleMutex.HandedInOrder | src/mg/box/InterruptibleMutex.cpp:113-123 | the mutex is handed over in the order of queueing up |
| InterruptibleMutex.LockReturns | src/mg/box/InterruptibleMutex.cpp:24-66 | a Lock does not return before its thread owns the mutex |
| InterruptibleMutex.TryLockReturns | src/mg/box/InterruptibleMutex.cpp:75-84 | a TryLock takes the mutex if and only if nobody owns it and no Lock is just about to take it, and changes nothing otherwise |
| InterruptibleMutex.UnlockFrees | src/mg/box/InterruptibleMutex.cpp:86-95 | an Unlock with nobody announced frees the mutex |
| InterruptibleMutex.UnlockReturns | src/mg/box/InterruptibleMutex.cpp:96-124 | an Unlock with somebody announced has handed the mutex to exactly the next one of the queue |
| InterruptibleMutex.CallsEnd | src/mg/box/InterruptibleMutex.cpp:24-124 | each operation of a call brings it nearer to its end |
| InterruptibleMutex.SleeperWasWoken | src/mg/box/InterruptibleMutex.cpp:60-66 | an owner which got in by TryLock had the wakeup callback called during its tenure if somebody waits |
| InterruptibleMutex.NoDeadlock | src/mg/box/InterruptibleMutex.cpp:24-124 | whenever a thread cannot go on, the owner of the mutex or of the internal one can |
| InterruptibleMutex.CleanInTheEnd | src/mg/box/InterruptibleMutex.cpp:19-22 | with nobody inside the state is 0, as the destructor asserts |
| Signal.RunInv | src/mg/box/Signal.cpp:14-115 | the invariant of the word, the lock and the threads holds in every run |
| Signal.ProbeIsOneSender | src/mg/box/Signal.cpp:25-66 | the word is PROBE if and only if exactly one sender is before its exchange |
| Signal.AssertionsHold | src/mg/box/Signal.cpp:61-63 | the exchange of a sender finds PROBE |
| Signal.NoLostWakeup | src/mg/box/Signal.cpp:81-115 | while the word is SIGNALED and a thread sleeps there is a woken or checking receiver, or a sender about to notify |
| Signal.ReceivedOnce | src/mg/box/Signal.cpp:68-79 | the sent signals are the received ones plus the one in the word |
| Signal.WaitingReturns | src/mg/box/Signal.cpp:81-115 | a ReceiveBlocking returns only with exactly one signal taken by its thread; a ReceiveTimed takes at most one, and returns true if and only if it took one |
| Signal.WaitingFinds | src/mg/box/Signal.cpp:81-115 | a waiting receive which finds a signal takes it at once |
| Signal.ReceiveReturns | src/mg/box/Signal.cpp:68-79 | a non-blocking receive takes the signal if and only if there is one |
| Signal.SendReturns | src/mg/box/Signal.cpp:25-66 | a Send which found EMPTY has stored the signal exactly once when it returns |
| Signal.SendSkips | src/mg/box/Signal.cpp:25-34 | a Send which found another word changes nothing, and a signal is there or its only sender is about to store it |
| Signal.NoStuckState | src/mg/box/Signal.cpp:25-115 | if nobody can go on then everybody is outside or sleeps, and nobody sleeps while there is a signal |
| Signal.GoMoves | src/mg/box/Signal.cpp:14-115 | each operation takes its thread to another place |
| Signal.DestructionIsSafe | src/mg/box/Signal.cpp:14-66 | from the start of a destructor on, no continuation has a thread inside after it, if and only if no sender was before its lock at the start |
| Signal.UnprobedIsSafe | src/mg/box/Signal.cpp:14-23 | a word other than PROBE at the start of the destructor is enough |
| Signal.NoLateTouch | src/mg/box/Signal.cpp:14-23 | with such a word nobody is inside but the owner of the lock until the destructor has it, and nobody at all after it |
| Signal.DestroyedTooEarly | src/mg/box/Signal.cpp:25-66 | a run in which the sender still has to take the lock of a destroyed signal |
| MultiProducerQueue.RunInv | src/mg/box/MultiProducerQueueIntrusive.h:51-137 | the invariant of the list, the pushers and the histories holds in every run |
| MultiProducerQueue.PopsInPushOrder | src/mg/box/MultiProducerQueueIntrusive.h:94-137 | a pop takes everything pushed since the previous one, once, in the order of the compare-exchanges |
| MultiProducerQueue.PopGetsTheList | src/mg/box/MultiProducerQueueIntrusive.h:94-98 | the list behind the head is exactly the items pushed since the last pop, newest first, even if nodes were popped and pushed again during a push |
| MultiProducerQueue.OneFirst | src/mg/box/MultiProducerQueueIntrusive.h:23-34 | from an empty queue to the next pop exactly one push returns true |
| MultiProducerQueue.FirstFoundEmpty | src/mg/box/MultiProducerQueueIntrusive.h:125-137 | a push returns true if and only if it found the queue empty |
| MultiProducerQueue.BatchKeepsOrder | src/mg/box/MultiProducerQueueIntrusive.h:65-88 | a batch of PushMany comes out in its order |
| MultiProducerQueue.PushReturnsOnce | src/mg/box/MultiProducerQueueIntrusive.h:125-137 | a push adds exactly its chain before the head, by the step it returns with, and nothing before |
| MultiProducerQueue.PushSucceeds | src/mg/box/MultiProducerQueueIntrusive.h:125-137 | a compare-exchange which finds the head unchanged succeeds, spurious failures aside |
| MultiProducerQueue.EmptyReturns | src/mg/box/MultiProducerQueueIntrusive.h:17-48 | pushing nothing, like IsEmpty, returns whether the queue is empty |
| MultiProducerQueue.PusherAdvances | src/mg/box/MultiProducerQueueIntrusive.h:125-137 | each step of a push takes it on |
| MultiProducerQueue.PopAllInOrder | src/mg/box/MultiProducerQueueIntrusive.h:100-116 | the loop turns the list around and the tail is its last item |
| MultiProducerQueue.TurnForPush | src/mg/box/MultiProducerQueueIntrusive.h:65-88 | the loop turns the batch around and finds its last item |
| DomainToIP.RunInv | src/mg/net/DomainToIP.cpp:209-337 | the invariant of the queues, the references and the callbacks holds in every run |
| DomainToIP.FiredOnce | src/mg/net/DomainToIP.cpp:262-337 | the callback of a request fires at most once, and has fired when the worker drops its reference |
| DomainToIP.MainIsHeap | src/mg/net/DomainToIP.cpp:262-337 | the main list and the heap have the same requests, each once, and their indexes say so |
| DomainToIP.RefsCounted | src/mg/net/DomainToIP.cpp:209-244 | the references are the user's handle or cancel entry, plus the worker's queue entry |
| DomainToIP.NeverFreedInUse | src/mg/net/DomainToIP.cpp:262-337 | no step works with a request without references |
| DomainToIP.FreedForGood | src/mg/net/DomainToIP.cpp:262-337 | a freed request stays freed and its callback has fired |
| DomainToIP.CancelFindsIt | src/mg/net/DomainToIP.cpp:325-336 | a cancellation finds its request in the main list, or its callback has fired |
| DomainToIP.NoSleepOnRequests | src/mg/net/DomainToIP.cpp:298-314 | the worker does not sleep while there is a request or a cancellation |
| DomainToIP.AssertionsHold | src/mg/net/DomainToIP.cpp:229-236 | a request is cancelled once, and its callback fires outside of the heap |
| DomainToIPCalls.RequestReturns | src/mg/net/DomainToIP.cpp:209-219 | a new request has a reference for the handle and one for the worker, and is on its way |
| DomainToIPCalls.PostReturns | src/mg/net/DomainToIP.cpp:221-226 | a posted request is the last one, and the worker does not sleep |
| DomainToIPCalls.OrderKept | src/mg/net/DomainToIP.cpp:262-337 | as long as the worker has two requests they stay in the order in which they came |
| DomainToIPCalls.ProcessReturns | src/mg/net/DomainToIP.cpp:278-285 | the worker takes the oldest request and fires its callback next |
| DomainToIPCalls.TimeoutReturns | src/mg/net/DomainToIP.cpp:267-277 | a request whose time is over leaves its place in the queue, and its callback is next |
| DomainToIPCalls.FireReturns | src/mg/net/DomainToIP.cpp:269-283 | firing calls the callback of that request, for the first and only time |
| DomainToIPCalls.CancelReturns | src/mg/net/DomainToIP.cpp:229-336 | from Cancel on the worker has a cancel entry of the request, or its callback has fired |
| DomainToIPCalls.CancelPosted | src/mg/net/DomainToIP.cpp:238-243 | a cancel entry is the last one, and the worker does not sleep |
| DomainToIPCalls.DropReturns | src/mg/net/DomainToIP.cpp:209-219 | dropping the handle gives one reference up, and the request goes on |
| DomainToIPCalls.FrontStartReturns | src/mg/net/DomainToIP.cpp:298-314 | the worker goes to sleep if and only if it has nothing to do |
| DomainToIPCalls.WorkerAdvances | src/mg/net/DomainToIP.cpp:246-337 | each step of the worker takes it on |

## Left out

- System calls and the kernel: completions, event masks, accepted byte counts, timeouts and results of name lookups are arbitrary choices of a step.
- C++ memory orders and cache lines: atomics are sequentially consistent.
- The kqueue and IOCP backends: near copies of the epoll and io_uring logic.
- TaskScheduler::IsEmpty, WaitEmpty and IOCore::WaitEmpty: polling helpers which promise nothing exact.
- Coroutines, callbacks and subscriptions: the body of a task is an arbitrary choice of its next operations.
- The boolean results of the pushes of the multi-consumer queue and the expiration flag of an IO task: the first follows from the count before the operation, the second from the deadline, which is a choice of a step there.
- Stopping of the schedulers and of their threads: runs are of started schedulers only.
- The order of the kernel, front and expiration phases inside a pass of IOUring and Epoll, batch sizes there and the clock: the phases of one task may follow in any order, which only adds runs; for epoll the batch of reported masks is merged before the task is looked at again.
- The time and batch limits of the DomainToIP worker: any request of the main list may time out at any moment, which only adds runs.
- BufferLinkLists.BufferLinkList.SkipEmptyPrefix: requires that no buffer is in two links of the list, because the source moves next pointers out of the buffers it drops.
- BufferLinkLists.StartSend: as SkipEmptyPrefix, which it calls, requires that no buffer is in two links of the list.
- BufferLinkLists.Deliver: starts with a list without shared buffers, for the same reason; what it queues is never shared.
- BufferStreams.BufferStream.WriteRef: requires that every buffer of the chain has data and that the chain is not part of the stream.
- BuffersRef, the copies of whole chains and the gathering for reads: loops over chains of the same kind as the ones modelled.
- Reference-counted deletion and pooling of buffers: an unreachable buffer is just not used any more.
- ForwardList, DoublyList and std::vector: sequences.
- Widths of integers: sizes and counters are unbounded.
- The sockets, SSL, the TCP server, Error, Log, Host, URL, Time and Thread.
