# concurrencpp, modelled and verified

concurrencpp is a C++20 library of coroutines, results and executors. This project models the parts
of it where several threads or coroutines meet, and proves what every interleaving of them keeps.
It covers the coroutine lock, its guards and the condition variable; the hand-off between the
producer and the consumer of a result, `when_any`, promises and shared results; tasks; the thread
executor, the worker thread executor and the thread pool; and the timer queue.

A protocol is a state machine. Every mutex region, every atomic operation and every access to memory
that another thread may touch is one step, the number of participants is arbitrary, and a theorem
about `Reachable(t)` is about every finite run. Assertions in the C++ code are part of the model:
a step that would violate one sets a `fault`, and the theorems say that this never happens. Next to
the state machines the same regions and loops are written as classes and methods over mutable
fields, linked nodes and arrays, with other threads allowed to act between any two of their steps.

| file | what it models |
|---|---|
| `AsyncLock.dfy`, `ScopedLock.dfy` | `async_lock` and `scoped_async_lock` |
| `SList.dfy`, `CondVar.dfy` | the intrusive list and `async_condition_variable` |
| `ResultState.dfy` | the atomic word between a producer and its consumer |
| `WhenAny.dfy` | `when_any` on any number of results, any number of times |
| `Promise.dfy` | `result_promise` and `result` as owners of the two sides |
| `SharedResult.dfy` | the state behind `shared_result` |
| `Task.dfy` | `task` and what it owns |
| `ThreadExecutor.dfy`, `WorkerThread.dfy` | the two simple executors |
| `WorkSplit.dfy`, `IdleWorkerSet.dfy`, `ThreadPool.dfy`, `IdleMarks.dfy` | the thread pool |
| `TimerQueueInternal.dfy`, `TimerQueue.dfy` | the timer queue's worker, and the queue around it |
| `Prelude.dfy` | options, and sums over the participants of a protocol |

## Where the code does less than it might be expected to

- **`when_any` can stay suspended for ever.** `result_state_base::when_any` returns the state that it
  loaded before its exchange, also when the exchange fails because the producer has just finished.
  `WhenAny.LostWakeup` is a run with one input that ends suspended although the input has completed.
  `WhenAny.StaysSuspendedIffAllMissed` gives the exact condition for any number of inputs: the
  exchange failed for every one of them.
- **A pool worker can leave tasks behind.** A worker whose idle time is over marks itself idle without
  looking at its public queue again. `ThreadPool.StrandedTask` is a run that ends with a task nobody
  runs; `ThreadPool.StrandedExactlyByLateTimeout` says which step strands a queue, if and only if,
  and `ThreadPool.AllRunIffLateRetirementsAreMadeGood` says it of whole runs: at rest, and
  `ThreadPool.ThreadsComeToRest` shows that it comes to that, every task has run if and only if every
  such late retirement was followed by an enqueueing or a donation to the same worker. A stranded worker
  need not be marked idle, so that no scan for idle workers finds it; `IdleMarks.MarkedAtRest` says that
  every other worker is.
- **A producer may access a result state that the consumer has deleted.** It exchanges the word and
  acts on what it found afterwards. `ResultState.NotifiedAfterGet` is a plain `get` that deletes the
  state before the producer notifies it; `ResultState.ReadAfterTimeout` is a `wait_for` that times out
  before the producer reads its context. `ResultState.TouchedAfterDeletion` says that there is no third
  way, and `ResultState.AwaitedIsNotTouchedAfterDeletion` that a result which is only awaited or
  dropped is safe. With `when_any` it can happen to the results that were not chosen:
  `WhenAny.ReadAfterDrop` returns one of two results while the producer of the other one has still to
  read its context, and dropping that one deletes the state. `WhenAny.ReadAfterReturn` says which
  results are concerned, and that the one returned by a first call never is.
- **A scan of the timers need not end.** A regular timer may have frequency zero. If the clock has not
  moved on when it is fired, it is due again in the same scan: `HandleDue` gives the exact condition,
  `FireUntilDueAgain` shows that nothing else can go wrong, `ScanWithoutEnd` is a scan that goes on for
  any number of turns, and `PositiveFrequenciesSuffice` and `AdvancingClockSuffices` say what rules it out.
  `FireUntilClockAdvances` bounds the scan by the clock readings that are not after its beginning.
- **`async_lock` may be unlocked by anybody.** `unlock` only asks whether the lock is locked.
  `AsyncLock.OnlyHoldersMayUnlock` says that an unlock of a locked lock keeps the lock and its owner together
  if and only if the holder calls it; after any other call `AsyncLock.TwoOwners` has two owners.
- **The worker thread executor never abandons what it has taken over.** Its `m_private_atomic_abort` is
  initialised and read but never stored, so the branches that abort the draining loop or reject a
  local enqueueing are dead. `WorkerThread.TakenOverTasksRun` states what follows.
- **`get_result` refuses a promise that has been set.** It looks at the producer's side first, so the
  result has to be retrieved before the promise is fulfilled (`Promise.ResultPromise.GetResult`).

## Model

| member | source | states |
|---|---|---|
| `AsyncLock.AsyncLock.LockIteration` | source/threads/async_lock.cpp:47-59 | takes a free lock, or joins the end of the waiters' queue, and says which |
| `AsyncLock.AsyncLock.TryLock` | source/threads/async_lock.cpp:99-109 | succeeds exactly on a free lock and never queues |
| `AsyncLock.AsyncLock.Unlock` | source/threads/async_lock.cpp:121-143 | fails without effect on a lock that is not locked; otherwise frees it, takes the first of the waiters off the queue and tells it to retry |
| `AsyncLock.MutualExclusion` | source/threads/async_lock.cpp:44-143 | in every run in which only holders unlock, the lock is locked exactly while one coroutine owns it, a coroutine is queued exactly while it is suspended, and waiters imply an owner or a retry under way |
| `AsyncLock.FirstInFirstOut` | source/threads/async_lock.cpp:44-143 | in every run waiters are told to retry in the order in which they were suspended, also when a resumption throws |
| `AsyncLock.ResumedInExecutorIffSuspended` | source/threads/async_lock.cpp:44-77 | whoever gets the lock goes on at once if it was not suspended since its request, and through the executor that it has named if it was |
| `AsyncLock.OnlyHoldersMayUnlock` | source/threads/async_lock.cpp:121-143 | in every reachable state an unlock of a locked lock leaves it locked exactly while one coroutine owns it if and only if the caller holds it |
| `AsyncLock.TwoOwners` | source/threads/async_lock.cpp:99-143 | after any unlock by a coroutine without the lock, that coroutine can take the lock while another one still owns it |
| `AsyncLock.TwoOwnersOccur` | source/threads/async_lock.cpp:121-143 | there is a reachable state in which such an unlock is possible |
| `AsyncLock.RunsAreFinite` | source/threads/async_lock.cpp:47-76 | without new requests a run is no longer than the work at hand, also when resumptions throw |
| `AsyncLock.StopsOnlyWhenDrained` | source/threads/async_lock.cpp:44-143 | a run that cannot go on has a free lock, no waiters, and every coroutine outside |
| `ScopedLock.ScopedAsyncLock.Destroy` | source/threads/async_lock.cpp:156-160 | gives the lock up exactly when the guard owns it |
| `ScopedLock.ScopedAsyncLock.TryLock` | source/threads/async_lock.cpp:181-195 | which errors are raised, and that ownership is gained exactly on a free lock |
| `ScopedLock.ScopedAsyncLock.Unlock` | source/threads/async_lock.cpp:197-206 | an error without ownership, otherwise the lock is released once |
| `ScopedLock.ScopedAsyncLock.Swap` | source/threads/async_lock.cpp:216-219 | exchanges lock and ownership together |
| `ScopedLock.ScopedAsyncLock.Release` | source/threads/async_lock.cpp:221-224 | hands the lock out as it is and leaves an empty guard |
| `ScopedLock.LockedWhileOwned` | source/threads/async_lock.cpp:149-224 | over any sequence of operations on any guards, a lock is locked exactly while one owner is left, and no guard unlocks a free lock |
| `ScopedLock.AllFreeAgain` | source/threads/async_lock.cpp:156-160 | when no guard owns a lock and nobody holds one without a guard, every lock is free |
| `SList.SList.Move` | include/concurrencpp/utils/slist.h:26-29 | takes the whole chain; the source is left empty and usable |
| `SList.SList.Empty` | include/concurrencpp/utils/slist.h:31-34 | true exactly for the empty chain |
| `SList.SList.PushBack` | include/concurrencpp/utils/slist.h:36-46 | appends one node; the result is a list if and only if the node came with a null link |
| `SList.SList.PopFront` | include/concurrencpp/utils/slist.h:48-61 | removes and returns the oldest node, or null |
| `SList.PushIntoMovedFrom` | include/concurrencpp/utils/slist.h:26-46 | pushes into a list that was moved from never change a link of the stolen chain |
| `CondVar.ConditionVariable.NotifyOne` | source/threads/async_condition_variable.cpp:66-74 | resumes the oldest waiter, or nobody |
| `CondVar.ConditionVariable.NotifyAll` | source/threads/async_condition_variable.cpp:76-89 | ends, having resumed exactly the waiters found at the start, in order, whoever arrives meanwhile, be it a resumed coroutine that awaits again in the same node; the newcomers stay queued |
| `CondVar.FirstInFirstOut` | source/threads/async_condition_variable.cpp:18-89 | in every run waiters are dequeued in the order of their enqueueing, each by one notifier |
| `CondVar.EnqueuedByTheRun` | source/threads/async_condition_variable.cpp:18-25 | the history of enqueueings is that of the actions of the run |
| `CondVar.NotifiersTakeTheOldest` | source/threads/async_condition_variable.cpp:66-89 | `notify_one` takes the first waiter if there is one, `notify_all` all of them; what was taken is resumed from the front |
| `CondVar.NotifierFindsWaiter` | source/threads/async_condition_variable.cpp:18-25 | whoever notifies after a waiter has released the coroutine lock finds that waiter already enqueued |
| `CondVar.NotifyAllResumesDetached` | source/threads/async_condition_variable.cpp:76-89 | the k-th resumption of a `notify_all` is of the k-th waiter at its detach point, in every interleaving |
| `ResultState.Memory.Wait` | source/results/impl/result_state.cpp:10-36 | for every time at which the producer may come: returns with the outcome published, and a producer that comes after the registering exchange finds the consumer waiting |
| `ResultState.Memory.Await` | source/results/impl/result_state.cpp:38-57 | suspends exactly when the producer comes after its exchange, and then leaves the handle for it; otherwise the outcome is there; word, context and what the producer found are determined |
| `ResultState.Memory.WaitFor` | include/concurrencpp/results/impl/result_state.h:84-131 | idle exactly when the producer comes after the last exchange, and then nothing is left behind; a producer that comes while the call sleeps or before its rewinding exchange finds it registered, and the status is `value` for a value and `exception` for an exception |
| `ResultState.Memory.TryRewindConsumer` | source/results/impl/result_state.cpp:80-98 | takes back a registration exactly when the producer comes after the exchange, with the context cleared; otherwise leaves it to the producer |
| `ResultState.Memory.CompleteConsumer` | include/concurrencpp/results/impl/result_state.h:191-205 | deletes exactly when the producer comes before the exchange; otherwise the producer will find `consumer_done` |
| `ResultState.ResumedExactlyOnce` | source/results/impl/result_state.cpp:38-57 | in every interleaving with any number of timed-out waits before it, a consumer told to suspend is resumed once and after the outcome is built, others never, and no assertion about the context fails |
| `ResultState.NoLostWakeup` | include/concurrencpp/results/impl/result_state.h:160-189 | once the producer is through nobody is left suspended or asleep |
| `ResultState.DeletedByTheSecond` | include/concurrencpp/results/impl/result_state.h:160-210 | the state is deleted at most once, not before the consumer has given it up and the producer has exchanged the word, and always by the time both are through |
| `ResultState.TouchedAfterDeletion` | include/concurrencpp/results/impl/result_state.h:166-181 | a producer can access a deleted state in two ways only: to notify a consumer found in the atomic wait, or to read the context of a `wait_for` found registered |
| `ResultState.NotifiedAfterGet` | include/concurrencpp/results/impl/result_state.h:175-177 | a reachable state in which `get` has deleted the state and the producer has still to notify it |
| `ResultState.ReadAfterTimeout` | include/concurrencpp/results/impl/result_state.h:118-127 | a reachable state in which a result was dropped after a timed-out `wait_for` and the producer has still to read its context |
| `ResultState.AwaitedIsNotTouchedAfterDeletion` | include/concurrencpp/results/impl/result_state.h:160-210 | a result that is only awaited or dropped is never accessed after its deletion |
| `ResultState.ContextIsNotRaced` | include/concurrencpp/results/impl/result_state.h:109-129 | the consumer writes its context only while no producer may read it |
| `ResultState.OutcomeIsWhatWasBuilt` | include/concurrencpp/results/impl/result_state.h:160-189 | in every run the outcome is the one that the producer has built, and it never changes |
| `ResultState.GivenUpExactlyByCalls` | include/concurrencpp/results/impl/result_state.h:191-210 | a result is given up by a drop or a consuming call only, and by each of them: without one in the run it is neither gone nor deleted, after one no call returns with the result still there |
| `ResultState.RunsAreFinite` | source/results/impl/result_state.cpp:10-57 | between two calls a run has a bounded number of steps, and four more for every spurious return of the atomic wait |
| `ResultState.StopsOnlyWhenServed` | include/concurrencpp/results/impl/result_state.h:160-189 | it ends only with the outcome published and every call returned |
| `WhenAny.ContinuedExactlyOnce` | source/results/impl/consumer_context.cpp:72-143 | in every round the coroutine continues once: inline if the status went straight to an input, by that input's producer if it went through done; the input has completed |
| `WhenAny.ReturnsCompletedIndex` | include/concurrencpp/results/when_result.h:137-152 | the index returned is in range and that of a completed input |
| `WhenAny.InputsAreReusable` | source/results/impl/result_state.cpp:80-98 | between two rounds every input has completed, or is idle with a cleared context |
| `WhenAny.ContextIsNotRaced` | source/results/impl/result_state.cpp:59-98 | contexts are set and cleared only while the input's producer does not read them |
| `WhenAny.TryResumeIsBounded` | source/results/impl/consumer_context.cpp:87-124 | the loop of `try_resume` goes round at most twice |
| `WhenAny.CompletionWakes` | source/results/impl/consumer_context.cpp:78-124 | a completed input whose registration succeeded has a producer resuming the suspended coroutine |
| `WhenAny.StaysSuspendedIffAllMissed` | source/results/impl/result_state.cpp:59-78 | a run that cannot go on has the coroutine suspended if and only if the registration exchange failed for every input |
| `WhenAny.LostWakeup` | source/results/impl/result_state.cpp:59-78 | a reachable state in which the only input has completed and the coroutine will never be resumed |
| `WhenAny.CompletedBeforeCallIsSeen` | include/concurrencpp/results/when_result.h:118-135 | with an input that has completed before the call, the coroutine is not suspended at any point of the round |
| `WhenAny.ReadAfterReturn` | include/concurrencpp/results/when_result.h:137-152 | a result that its producer has still to read when `await_resume` has returned has completed, so that dropping it deletes it at once; it is the returned one only if it was registered in an earlier round and found complete inline in this one |
| `WhenAny.ReadAfterDrop` | source/results/impl/consumer_context.cpp:217-219 | a reachable state in which one of two results was returned and the producer of the other one has still to read its context |
| `WhenAny.RunsAreFinite` | include/concurrencpp/results/when_result.h:118-152 | one call and all producers take a bounded number of steps, linear in the inputs |
| `Promise.Store.CompleteProducerOf` | include/concurrencpp/results/impl/result_state.h:160-189 | marks the outcome as published without changing it, and deletes exactly when the consumer was first |
| `Promise.Store.CompleteConsumerOf` | include/concurrencpp/results/impl/result_state.h:191-205 | deletes exactly when the producer was first |
| `Promise.ResultPromise.constructor` | include/concurrencpp/results/result.h:130-133 | a new state with both sides owned by the promise |
| `Promise.ResultPromise.BreakTaskIfNeeded` | include/concurrencpp/results/result.h:115-127 | `broken_task` is published exactly when the promise is unset and its result is held elsewhere; otherwise nothing changes |
| `Promise.ResultPromise.Destroy` | include/concurrencpp/results/result.h:138-140 | gives up both sides; the one outcome that changes is that of an unset promise whose result is held elsewhere, to `broken_task` |
| `Promise.ResultPromise.MoveAssign` | include/concurrencpp/results/result.h:142-150 | gives up the old sides, takes over the new ones, and does nothing on self-assignment |
| `Promise.ResultPromise.SetResult` | include/concurrencpp/results/result.h:159-168 | an error on an empty promise, otherwise the state of the promise has exactly that value and no other state changes |
| `Promise.ResultPromise.SetException` | include/concurrencpp/results/result.h:170-179 | both errors in their order, otherwise the state of the promise has exactly that exception and no other state changes |
| `Promise.ResultPromise.GetResult` | include/concurrencpp/results/result.h:195-203 | hands the consumer's side out once, and only while the promise is unset |
| `Promise.ResultObject.Get` | include/concurrencpp/results/result.h:76-82 | returns the outcome, empties the result and deletes the state |
| `Promise.ResultObject.MoveAssign` | include/concurrencpp/results/result.h:39-45 | drops the state held before and takes over the other one |
| `Promise.DestroyedIsOverwritten` | include/concurrencpp/results/result.h:138-150 | which of its two sides a promise gives up first makes no difference |
| `Promise.DeletedByTheLastSide` | include/concurrencpp/results/impl/result_state.h:160-210 | over every mix of operations on any number of handles a state is deleted exactly when neither side is owned, once, and no operation of an owner reaches it afterwards; each hand-over counts as one step here, and what a producer does after its exchange is `ResultState.TouchedAfterDeletion` |
| `Promise.HeldResultIsSetOrBroken` | include/concurrencpp/results/result.h:115-150 | a result held outside its promise has, once the promise is through with it, the outcome given to the promise, or `broken_task` if none was |
| `Promise.OutcomeIsWhatWasSet` | include/concurrencpp/results/result.h:115-203 | in every run the outcome of a state is the very one that a step of the run has set through its promise; `broken_task` if the promise was given up unset after the result had been retrieved; none while the promise is there |
| `Promise.OwnershipAfter` | include/concurrencpp/results/result.h:39-203 | which sides the handles named by an operation own afterwards, and that no other handle is concerned |
| `Promise.NothingIsLeaked` | include/concurrencpp/results/result.h:76-203 | when all handles are empty every state has been deleted |
| `SharedResult.SharedResultState.Await` | source/results/impl/shared_result_state.cpp:5-15 | a context joins the front of the chain exactly when the result is not ready |
| `SharedResult.SharedResultState.CompleteProducer` | source/results/impl/shared_result_state.cpp:41-59 | resumes every context of the chain once, although each coroutine may overwrite its context when resumed |
| `SharedResult.ResumedAtMostOnce` | source/results/impl/shared_result_state.cpp:41-76 | in every interleaving a coroutine is resumed at most once, only if it was told to suspend and only when the result is ready; the producer never touches the context of a resumed one |
| `SharedResult.LastInFirstOut` | source/results/impl/shared_result_state.cpp:5-15 | the k-th coroutine to be resumed in a run is the k-th from the end to have been suspended in it, and nobody is skipped |
| `SharedResult.RestsOnlyWhenServed` | source/results/impl/shared_result_state.cpp:17-91 | a run at rest leaves no coroutine suspended and no thread blocked; only a wait with a timeout may have given up |
| `SharedResult.RunsAreFinite` | source/results/impl/shared_result_state.cpp:5-91 | a run has a number of steps linear in the clients, and two more for every spurious wakeup and every access of a resumed coroutine to its own context |
| `Task.Task.DestroyObject` | source/results/impl/consumer_context.cpp:38-45 | an armed functor resumes its coroutine as interrupted, an armed handle or callable is freed unless trivially destructible, a moved-from object is left alone |
| `Task.Task.CallObject` | source/results/impl/consumer_context.cpp:47-51 | the coroutine is resumed and the functor disarmed |
| `Task.Task.MoveDestroy` | include/concurrencpp/task.h:58-67 | the object moves to the other buffer without any effect on what it owns |
| `Task.Task.BuildFrom` | source/task.cpp:53-74 | the source gives up its object and nothing is called or freed |
| `Task.Task.Call` | source/task.cpp:98-113 | an empty task does nothing; otherwise exactly the object that it owned is called, once and whatever its kind, coroutines are resumed, callables destroyed, and the task is empty |
| `Task.Task.Clear` | source/task.cpp:125-146 | exactly the object that the task owned is dropped without being called: resumed as interrupted, or freed; the task is empty |
| `Task.Task.Assign` | source/task.cpp:115-123 | the old object is dropped without being called, the new one taken over from the other task, which is empty then; nothing on self-assignment |
| `Task.AwaiterIsResumedOnce` | source/task.cpp:53-146 | over any sequence of operations on any tasks, an awaiting coroutine is owned by one task or has been resumed once, interrupted if and only if its functor was never called |
| `Task.CalledExactlyByCalls` | source/task.cpp:53-146 | over any sequence of operations an object has been called as often as a call found a task that owned it, which is at most once; nothing else calls it |
| `Task.NothingIsLeaked` | source/task.cpp:53-146 | when all tasks are empty every coroutine was resumed or destroyed once, and every other callable freed once and called at most once |
| `Task.TasksOwnLiveObjects` | source/task.cpp:53-146 | a task always points to an armed object that no other task owns |
| `ThreadExecutor.ThreadExecutor.Enqueue` | source/executors/thread_executor.cpp:26-44 | one thread per task, none after shutdown |
| `ThreadExecutor.ThreadExecutor.RetireWorker` | source/executors/thread_executor.cpp:75-89 | the caller replaces the previous retiree, which becomes its to join |
| `ThreadExecutor.JoinsAreSafe` | source/executors/thread_executor.cpp:75-89 | at most one thread is parked, none joins itself, none is joined twice or before it has ended |
| `ThreadExecutor.ShutdownJoinsEverybody` | source/executors/thread_executor.cpp:54-73 | when the first shutdown returns every thread ever started has ended and was joined exactly once |
| `ThreadExecutor.ChainIsLive` | source/executors/thread_executor.cpp:75-89 | joins never deadlock: a thread that waits is followed back to one that can go on |
| `ThreadExecutor.StopsOnlyWhenEnded` | source/executors/thread_executor.cpp:54-89 | a run that cannot go on has ended all threads and any shutdown |
| `WorkerThread.WorkerThreadExecutor.EnqueueForeign` | source/executors/worker_thread_executor.cpp:95-123 | appends the tasks one by one in their order, and asks for a wakeup exactly when the queue was empty |
| `WorkerThread.WorkerThreadExecutor.TakeOver` | source/executors/worker_thread_executor.cpp:51-64 | the whole public queue becomes private, unless there is none or shutdown was requested |
| `WorkerThread.WorkerThreadExecutor.DrainQueueImpl` | source/executors/worker_thread_executor.cpp:18-31 | runs everything in order, then what was enqueued locally meanwhile, in order |
| `WorkerThread.RunsInEnqueueOrder` | source/executors/worker_thread_executor.cpp:18-139 | in every run foreign tasks run in the order in which the actions of the run enqueue them, and so do local ones |
| `WorkerThread.NoLostWakeup` | source/executors/worker_thread_executor.cpp:33-49 | a worker at its semaphore with something to do has a token or a release to come |
| `WorkerThread.TakenOverTasksRun` | source/executors/worker_thread_executor.cpp:51-67 | shutdown discards only what is still in the public queue |
| `WorkerThread.RunsAreFinite` | source/executors/worker_thread_executor.cpp:18-77 | without calls a run has a bounded number of steps |
| `WorkerThread.StopsOnlyWhenDrained` | source/executors/worker_thread_executor.cpp:33-67 | it ends only when every task has run or shutdown is complete |
| `WorkSplit.BalanceWork` | source/executors/thread_pool_executor.cpp:187-253 | for any number of tasks and claimed workers, donated ranges are adjacent, non-empty and of the exact fair sizes, and the donor keeps its fair share of at least one task |
| `WorkSplit.DealOut` | source/executors/thread_pool_executor.cpp:568-596 | the bulk enqueueing deals out all tasks in order, in non-empty ranges of the exact fair sizes |
| `IdleWorkerSet.PicksAreDistinct` | source/executors/thread_pool_executor.cpp:124-162 | a scan acquires distinct workers in range, and never its caller when it starts behind it |
| `IdleWorkerSet.ExchangeIsOwn` | source/executors/thread_pool_executor.cpp:83-99 | whatever others do, setting a flag changes that flag from what the exchange has found, and no other |
| `IdleWorkerSet.SuccessIsOwnChange` | source/executors/thread_pool_executor.cpp:101-114 | whatever others do, an attempt succeeds if and only if it has itself made an idle worker active |
| `IdleWorkerSet.PicksAreOwnChanges` | source/executors/thread_pool_executor.cpp:116-163 | a scan has itself made active exactly the workers that it returns |
| `IdleWorkerSet.ExchangeIsAccountedFor` | source/executors/thread_pool_executor.cpp:83-99 | whatever other threads do before each of its operations, setting a flag leaves the size equal to the number of idle flags but for what the others still owe |
| `IdleWorkerSet.ScanIsAccountedFor` | source/executors/thread_pool_executor.cpp:101-163 | so does every prefix of a scan |
| `IdleWorkerSet.IdleWorkerSet.SetIdle` | source/executors/thread_pool_executor.cpp:83-90 | for every script of what others do: the flag is stored, and one is added to the size exactly if the exchange found it active; nothing is owed |
| `IdleWorkerSet.IdleWorkerSet.SetActive` | source/executors/thread_pool_executor.cpp:92-99 | for every script of what others do: the flag is cleared, and one is taken from the size exactly if the exchange found it idle; nothing is owed |
| `IdleWorkerSet.IdleWorkerSet.TryAcquireFlag` | source/executors/thread_pool_executor.cpp:101-114 | succeeds exactly when the flag is idle both when it is loaded and when it is exchanged, that is when the call itself makes an idle worker active; it changes no other flag |
| `IdleWorkerSet.IdleWorkerSet.FindIdleWorkers` | source/executors/thread_pool_executor.cpp:138-163 | its attempts, one after the other on the memory as others leave it, acquire what it returns; it stops early only at the limit given by the size it read and the maximum, right after the attempt that reaches it; the call itself has made active exactly the workers that it returns |
| `IdleWorkerSet.IdleWorkerSet.FindIdleWorker` | source/executors/thread_pool_executor.cpp:116-136 | returns the worker of the first attempt that succeeds; returns none only after all the others were tried in vain, or without a try when the size it read was not positive; the call itself has made active exactly the worker that it returns |
| `IdleWorkerSet.SizeIsAccountedFor` | source/executors/thread_pool_executor.cpp:83-114 | in every interleaving the size is the number of idle flags corrected by pending updates, and each time a flag becomes idle one thread at most claims it |
| `ThreadPool.ThreadPoolWorker.EnqueueForeign` | source/executors/thread_pool_executor.cpp:393-441 | appends the tasks behind the public queue; an idle worker gets a new thread and its old one is handed over to be joined; a busy one is owed a release of its semaphore, after the region, exactly if its queue was empty |
| `ThreadPool.ThreadPoolWorker.EnsureWorkerActive` | source/executors/thread_pool_executor.cpp:367-391 | afterwards a thread is in charge, a new one exactly if there was none; a release is owed exactly by the first enqueuer of a busy worker |
| `ThreadPool.ThreadPoolWorker.TakeOver` | source/executors/thread_pool_executor.cpp:333-352 | the whole public queue becomes private, in its order; the idle mark is taken away exactly if the thread has waited |
| `ThreadPool.ThreadPoolWorker.BalanceAndPop` | source/executors/thread_pool_executor.cpp:307-320 | the front of the private queue is donated and its back is run |
| `ThreadPool.ThreadPoolWorker.DrainQueueImpl` | source/executors/thread_pool_executor.cpp:307-331 | ends with an empty private queue, by rounds that donate the front, keep the fair share among as many workers as could be claimed, and run the back of it |
| `ThreadPool.DrainConserves` | source/executors/thread_pool_executor.cpp:307-331 | whatever was queued or enqueued locally meanwhile is run, donated or still there, as often as before |
| `ThreadPool.PlanKeepsOne` | source/executors/thread_pool_executor.cpp:204-251 | the donations of a plan never add up to the whole queue |
| `ThreadPool.EnqueueAppends` | source/executors/thread_pool_executor.cpp:393-441 | an enqueueing appends new tasks in order to one public queue and moves no other task |
| `ThreadPool.TakeOverSwaps` | source/executors/thread_pool_executor.cpp:333-352 | a thread that takes over finds the whole public queue in its order, and its idle mark is gone if it was woken up |
| `ThreadPool.DonationMoves` | source/executors/thread_pool_executor.cpp:204-251 | a donation is the front of the private queue and goes behind the public queue of the worker claimed; no other task moves |
| `ThreadPool.LastIsRun` | source/executors/thread_pool_executor.cpp:307-331 | the last task of the private queue is run next, and a task that was running has run |
| `ThreadPool.EveryTaskIsInOnePlace` | source/executors/thread_pool_executor.cpp:187-459 | in every run of any number of workers an enqueued task is in one queue, in the hands of one thread, or has run once |
| `ThreadPool.OneThreadPerWorker` | source/executors/thread_pool_executor.cpp:255-391 | a worker has one live thread exactly while it is not idle; private queues are empty when swapped, donors keep a task, a replaced thread has retired |
| `ThreadPool.PrivateTasksAreBeingDrained` | source/executors/thread_pool_executor.cpp:307-353 | a private queue that is not empty belongs to a thread that is draining it |
| `ThreadPool.ThreadsComeToRest` | source/executors/thread_pool_executor.cpp:187-365 | there is no infinite run of the threads' own steps: however they donate, wake and time out, they come to rest when nothing more is enqueued |
| `ThreadPool.NoLostWakeup` | source/executors/thread_pool_executor.cpp:255-305 | a thread that sleeps or is about to, and whose public queue is not empty, has its flag set, and a token or an enqueuer that has still to release one |
| `ThreadPool.SleepsUntilReleased` | source/executors/thread_pool_executor.cpp:367-377 | a reachable state in which a thread sleeps without a token on a public queue that is not empty, with the release still to come |
| `ThreadPool.StrandedExactlyByLateTimeout` | source/executors/thread_pool_executor.cpp:270-300 | a step strands a queue if and only if it is a timed-out thread retiring although its public queue is not empty |
| `ThreadPool.RestsOnlyWhenRunOrStranded` | source/executors/thread_pool_executor.cpp:255-365 | at rest every task has run once or sits in a stranded queue; all have run if and only if no queue is stranded |
| `ThreadPool.StrandedIffLate` | source/executors/thread_pool_executor.cpp:270-300 | at every point of every run a queue is stranded if and only if its worker's thread retired late and nothing was delivered to the worker since |
| `ThreadPool.AllRunIffLateRetirementsAreMadeGood` | source/executors/thread_pool_executor.cpp:255-365 | a run at rest has run every task if and only if every late retirement in it is followed by an enqueueing or a donation to that worker |
| `ThreadPool.AllRunWithoutLateRetirements` | source/executors/thread_pool_executor.cpp:255-365 | a run at rest without late retirements has run every task exactly once |
| `ThreadPool.StrandedTask` | source/executors/thread_pool_executor.cpp:292-300 | a run at rest with a task that was not run, at a worker that no scan for idle workers finds |
| `IdleMarks.WaitersCanBeFound` | source/executors/thread_pool_executor.cpp:187-305 | in every run a worker that waits is marked idle, or claimed by somebody who has still to enqueue or donate to it, or has something in its public queue |
| `IdleMarks.MarkedAtRest` | source/executors/thread_pool_executor.cpp:255-305 | at rest, with no claim pending, every worker is marked idle unless its queue is stranded |
| `IdleMarks.BusyButMarked` | source/executors/thread_pool_executor.cpp:534-553 | a reachable state in which a worker that has work is marked idle |
| `TimerQueueInternal.TimerQueueInternal.AddTimer` | source/timers/timer_queue.cpp:39-43 | keeps the set sorted and in bijection with the index |
| `TimerQueueInternal.TimerQueueInternal.RemoveTimer` | source/timers/timer_queue.cpp:45-56 | removes through the index; a timer no longer there is left alone |
| `TimerQueueInternal.TimerQueueInternal.ProcessRequestQueue` | source/timers/timer_queue.cpp:58-69 | every request takes effect: a timer is there afterwards if and only if the last request about it was to add it, or there was none and it was there |
| `TimerRequests.LastRequestDecides` | source/timers/timer_queue.cpp:58-69 | applying requests in order makes the last one about each timer decide |
| `TimerQueueInternal.TimerQueueInternal.HandleFirst` | source/timers/timer_queue.cpp:95-131 | extraction, firing and re-insertion keep set and index valid although the deadline changes; fired exactly if not cancelled by its turn |
| `TimerQueueInternal.TimerQueueInternal.HandleDue` | source/timers/timer_queue.cpp:95-131 | a timer is due again in the same scan if and only if it is a regular one that was fired and whose next deadline has passed already |
| `TimerQueueInternal.TimerQueueInternal.ScanWithoutEnd` | source/timers/timer_queue.cpp:90-132 | a regular timer whose next deadline has passed at each of the next readings of the clock, as with frequency zero and a clock that stands still, is due again after as many turns |
| `TimerQueueInternal.PositiveFrequenciesSuffice` | source/timers/timer.cpp:24-26 | with positive frequencies and a clock that does not go back no timer is due again in the same scan |
| `TimerQueueInternal.AdvancingClockSuffices` | source/timers/timer.cpp:24-26 | with any frequencies, zero among them, the same holds if the clock has advanced when the first timer is fired |
| `TimerQueueInternal.TimerQueueInternal.FireDue` | source/timers/timer_queue.cpp:90-132 | terminates unless a fired timer is due again at once; every timer due is fired or dropped once, in the order of deadlines, fired one-shots and dropped timers are gone, all others untouched |
| `TimerQueueInternal.TimerQueueInternal.FireUntilDueAgain` | source/timers/timer_queue.cpp:90-132 | for any frequencies and any clock: the scan ends with every timer handled once, or it comes to a regular timer that it has fired and that is due again |
| `TimerQueueInternal.TimerQueueInternal.FireUntilClockAdvances` | source/timers/timer_queue.cpp:90-132 | for any frequencies: if every reading of the clock from some one on is after the beginning of the scan, the scan ends, after no more turns than there are readings before that one and timers due; exactly the timers that were due are handled |
| `TimerQueueInternal.TimerQueueInternal.ProcessTimers` | source/timers/timer_queue.cpp:85-141 | the same for requests and scan together; the result is the earliest deadline left, or a day from now |
| `TimerQueue.RequestQueue.EnsureWorkerThread` | source/timers/timer_queue.cpp:248-262 | starts a worker exactly when there is none and returns the previous one |
| `TimerQueue.RequestQueue.AddTimer` | source/timers/timer_queue.cpp:171-184 | queues the request and starts a worker if needed; refuses after shutdown without effect |
| `TimerQueue.RequestQueue.TakeRequests` | source/timers/timer_queue.cpp:191-214 | takes all requests, or ends the worker; idle only without requests and with empty internal state |
| `TimerQueue.IdleMeansNothingToDo` | source/timers/timer_queue.cpp:186-222 | an idle queue holds no addition and no live timer; the removals it may hold are ignored by a later worker |
| `TimerQueue.NoTimerIsLost` | source/timers/timer_queue.cpp:154-222 | a live timer is with the one worker that has not retired, or in requests that keep it from retiring |
| `TimerQueue.RemovedForGood` | source/timers/timer_queue.cpp:45-69 | once a worker has processed requests with the removal of a timer among them, it has not fired the timer, no worker has it again, and no later step fires it |
| `TimerQueue.NoRemovalIsLost` | source/timers/timer_queue.cpp:154-222 | a removal that was asked for is on its way to the worker, or no worker has the timer |
| `TimerQueue.ScanLeaves` | source/timers/timer_queue.cpp:85-141 | what a worker is left with: the timers that its requests leave, less those dropped and the one-shots fired |
| `TimerQueue.OneShotsFireOnce` | source/timers/timer_queue.cpp:39-56 | in every run the assertions about the index hold and a one-shot timer fires at most once |

## Left out

- Weak memory orders: all atomic operations are sequentially consistent, and steps of different threads interleave.
- Mutexes, condition variables, semaphores and clocks are regions, enabledness, counters and a monotone input; the binary semaphore of the worker thread executor is a counter without an upper bound.
- AsyncLock.MutualExclusion: runs in which a coroutine unlocks only what it holds; `AsyncLock.OnlyHoldersMayUnlock` states the rest.
- Promise.DeletedByTheLastSide: each hand-over is one step; a producer's accesses after its exchange, which a deletion can overtake, are the subject of `ResultState.TouchedAfterDeletion`.
- WhenAny.ReadAfterReturn: dropping the results is not a step; it is stated what a drop would do and what the producers have still to read.
- IdleMarks.WaitersCanBeFound: the mark of a worker is one flag; the size that lets a scan give up early is the subject of `IdleWorkerSet`.
- `WorkerThread`, `ThreadPool`, `TimerQueue`: which task or timer callback throws, and what executors do with a posted job, is not part of the model.
- ThreadPool.EveryTaskIsInOnePlace: one pool before shutdown; the race of shutdown with donations, which may then throw half way, is not modelled.
- TimerQueueInternal.TimerQueueInternal.ProcessTimers: what it states is for scans in which no fired timer is due again at once; iterators of the multiset are node numbers, and the multiset is a sequence sorted by deadline. An owner acts on its timer once before the timer's turn in a scan.
- TimerQueue.NoTimerIsLost: which timers a scan fires or drops is left open here, within what `ProcessTimers` guarantees; runs before shutdown.
- CondVar.NotifierFindsWaiter: executors do not run resumed coroutines inline while the condition variable's mutex is held.
- ResultState.Memory.WaitFor: time is counted in atomic operations, and the length of the timeout is a number of them.
- Promise.ResultPromise.SetResult: constructors of values do not throw; values and exceptions are integers.
- Promise.ResultObject.Get: starts when its wait has returned; the wait itself is `ResultState.Memory.Wait`.
- Promise: the destruction of a coroutine while it is suspended on a result is not allowed for, as in the code's own assertion.
- Task.Task.Call: callables that throw out of a task are not modelled, nor is the size of buffers beyond whether an object is inlined.
- ScopedLock.LockedWhileOwned: `lock` of a guard is enabled once the lock is free; how waiters are served is the subject of `AsyncLock`.
- `when_all`, `lazy_result`, `generator`, `manual_executor`, `inline_executor`, `runtime` and the argument checks of the public wrappers would only add easy members.
- Fairness of the scheduler, and tasks that never return: a running task can always finish.
- Thread names, statistics, platform macros and allocation failures.
