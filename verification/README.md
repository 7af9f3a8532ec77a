# A model of the network library's concurrent core

This project models the stateful components of a small C++ network library in the style of
muduo (an epoll event loop with buffers, timers, TCP connections, a connector and an HTTP/1.x
layer, an elastic thread pool and an asynchronous logger) and proves what they keep over whole
runs.

Each component is one module. A component that shares state with other threads or with
re-entrant callbacks is a state machine on values: a state, the events that can happen next
(`Enabled`), and what each does (`Apply`). A critical section, an unlocked read or a system call
is one event. What the environment decides (which waiter is woken, a clock reading, how many
bytes a `write` takes, the class of an `errno`, an address that `new` returns) is a parameter of
the event. A run is any list of enabled events, and the main theorems are about every run.
Beside the state machine stands a class with the source's fields and loops; each of its methods
is proved to take its object from one state to the one the state machine prescribes, so that the
theorems are theorems about these methods. What the events do is also stated without the state
machine's own functions, field by field (`...Decides`, `...Iff`).

| file | component |
|---|---|
| `ThreadPool.dfy` | the elastic worker pool: no stranded task, accounting, draining |
| `TimerQueue.dfy` | timers with recycled addresses, re-entrant callbacks, a one-shot timerfd |
| `EventLoop.dfy` | the cross-thread functor queue and its eventfd |
| `Poller.dfy` | the epoll poller, its channels and the kernel's interest set |
| `Buffer.dfy` | the growing, compacting byte buffer |
| `TcpConnection.dfy` | the output path: short writes, errors, half-close |
| `HttpMessages.dfy`, `HttpParser.dfy`, `HttpContext.dfy` | messages, and the two incremental parsers |
| `HttpPrinter.dfy` | the two printers, and round trips through the parsers |
| `Connector.dfy` | one connection attempt at a time, with capped backoff |
| `AsyncLogger.dfy` | two-stage hand-off of log lines to a writer thread |
| `Text.dfy`, `Arithmetic.dfy` | searching, trimming, ordering and decimal numbers; narrowing |

## Where a promise fails

Where the code does not keep what one would expect of it, the code is modelled as it is, and the
exact condition is proved.

- A pool with `maxThreads_ == 0` strands a task (`SubmitServesIff`, `ZeroThreadsStrandATask`,
  `StrandedForever`).
- A cancel is lost if it comes before the functor that adds the timer has run, or if the number
  of the timer does not fit an `int` (`CancelTakesEffectIff`, `CancelledBeforeAdded`).
- What the loop's own thread queues outside `loop()` is not covered by a wake-up (`MissedIff`,
  `WakeupMissedOutsideLoop`), and a `quit` made there is forgotten (`QuitIsHonouredIff`,
  `QuitForgottenOutsideLoop`).
- A second channel on a descriptor breaks the poller's index (`NewChannelIsHarmlessIff`,
  `SecondAddIsRefusedIff`, `SecondRemoveIsHarmlessIff`). `kReadEvent` is 1 because of a logical
  or, so urgent data alone are never asked for.
- `parseRequest` does not return on an incomplete announced body, and cuts a body of unknown
  length at the end of a chunk (`SpinsIff`, `ChunksMatterIff`). A POST of 2^31 bytes or more does
  not survive (`PostBodySurvivesIff`), and the length header of a keep-alive response of 10^13
  bytes or more swallows the next one (`GeneratedRecoveredIff`, `ResponseSurvivesIff`).
- `reset` keeps the old body (`ResetIsFreshIff`, `StaleBody`), and after a failed call another
  one can set the method twice (`MethodStaysUnsetIff`).
- `shutdown` on another thread sets the state at once and shuts down later: with bytes buffered,
  the write side can be shut down twice, or over unsent bytes (`OtherShutdownIff`,
  `ShutDownTwice`, `ShutDownUnsent`).
- A connector that is started while an attempt is in progress, or begins an attempt, started in
  the loop thread or by a retry timer, before the channel of the last one has been destroyed,
  loses a socket (`AttemptIsSoundIff`, `ResetIsLinearIff`, `TwoStartsLoseASocket`,
  `EarlyRestartLosesASocket`, `EarlyTimerLosesASocket`).
- `stop` of the logger writes the current buffer before the older queue (`FlushKeepsOrderIff`,
  `LateEntriesAreReversed`).
- `createNonblockingOrDie` does not die: it returns -1, which `connect` then treats like any other
  bad descriptor, and closing it does nothing.

## Model

Paths are relative to the root of the library's repository.

| member | source | states |
|---|---|---|
| `ThreadPools.NoStrandedTask` | src/http/ThreadPool.h:109-122 | In every run, every interleaving of callers, workers, time-outs and spurious wake-ups: if `maxThreads_ >= 1` at each `submit`, a non-empty queue implies a worker that is starting, awake or running, although `idleThreads_` also counts workers already notified. |
| `ThreadPools.SubmitServesIff` | src/http/ThreadPool.h:112-122 | An accepted task leaves the pool served if and only if a worker is live or `maxThreads_ > 0`. |
| `ThreadPools.ZeroThreadsStrandATask` | src/http/ThreadPool.h:116-122 | The witness for the other half: a pool with `maxThreads_ == 0` accepts a task, and no worker is there to run it. |
| `ThreadPools.StrandedForever` | src/http/ThreadPool.h:112-122 | As long as the limit stays at 0 and no worker is live, no task is ever started, whatever else happens. |
| `ThreadPools.NeverTooManyThreads` | src/http/ThreadPool.h:112-122 | In every run the number of live threads never exceeds the largest `maxThreads_` ever in force, `setMaxThreads` by anybody at any time included. |
| `ThreadPools.NeverTooManyTasks` | src/http/ThreadPool.h:97-110 | In every run with a bounded queue, the queue never holds more tasks than the largest `maxTasks_` ever in force. |
| `ThreadPools.GrowsIff` | src/http/ThreadPool.h:112-122 | The pool grows in a step if and only if that is a `submit` that is not refused, with nobody idle and `currentThreads_ < maxThreads_`; then by exactly one worker, started and mapped under its id. |
| `ThreadPools.ShrinksIff` | src/http/ThreadPool.h:170-184 | It shrinks, by one, if and only if a worker finds the queue empty and `quit_` is set or its wait has timed out. |
| `ThreadPools.AcceptsIff` | src/http/ThreadPool.h:100-110 | A task is queued if and only if `maxTasks_` is -1 or the queue is shorter; otherwise the call changes nothing. |
| `ThreadPools.EnterMoves` | src/http/ThreadPool.h:155-206 | What a worker does that looks at the queue: the first task, or quits, retires or waits, in this order of priority; retiring joins exactly the workers that had retired, and nobody else moves. |
| `ThreadPools.OthersMove` | src/http/ThreadPool.h:54-122 | Every other step moves a worker only to wake it, by `notify_one`, `notify_all` or on its own, or because its task has ended. |
| `ThreadPools.StepKeepsInv` | src/http/ThreadPool.h:97-206 | Every critical section, in any order, keeps: both counters equal to what the workers are doing, every mapped thread known and every unjoined worker mapped, finished ids distinct and joinable. |
| `ThreadPools.StepKeepsServed` | src/http/ThreadPool.h:155-190 | One step of anybody keeps a non-empty queue served. |
| `ThreadPools.PoolAccounting` | src/http/ThreadPool.h:178-182 | Threads in the map = `currentThreads_` + ids waiting to be joined + workers that returned on quit; `0 <= idleThreads_ <= currentThreads_`; the finished ids are distinct, and each is mapped to a thread that needs the mutex no more. |
| `ThreadPools.StartedInOrder` | src/http/ThreadPool.h:109-110 | In every run, queued + submitted tasks == started tasks + still queued ones, as sequences: each accepted task starts once, in submission order. |
| `ThreadPools.StepKeepsOrder` | src/http/ThreadPool.h:185-186 | One step moves a task only from the caller to the back of the queue or from its front to the worker that runs it. |
| `ThreadPools.QuitStepDrains` | src/http/ThreadPool.h:51-65 | After `quit_`, no step changes the thread map or the finished ids, and every worker step makes the measure smaller. |
| `ThreadPools.DrainIsBounded` | src/http/ThreadPool.h:51-65 | From any state with `quit_`, the number of worker steps of any run is bounded by the measure of that state; the map stays frozen while the destructor walks it. |
| `ThreadPools.DrainIsComplete` | src/http/ThreadPool.h:60-64 | When no worker can take a step any more, the queue is empty, no worker is live, and every thread in the map can be joined. |
| `ThreadPools.DestructorDrains` | src/http/ThreadPool.h:51-65 | For every run with `maxThreads_ >= 1` at each `submit`: when the pool is being destroyed and no worker can take a step any more, the started tasks are exactly the accepted ones, in order, and every mapped thread can be joined. |
| `ThreadPools.DestructorJoinsAll` | src/http/ThreadPool.h:51-65 | For every order of the map and every interleaving of the blocking joins with the workers: the map never changes, joins and worker steps are bounded, and when none can happen any more every thread has been joined once and no task is left. |
| `ThreadPools.StepKeepsDestroying` | src/http/ThreadPool.h:60-64 | One join or one step of a worker keeps the map and comes nearer to the end. |
| `ThreadPools.AwakeOnArrival` | src/http/ThreadPool.h:161-169 | Finding the predicate true on arrival is the same as waiting and being woken. |
| `ThreadPools.FrontIsJoinable` | src/http/ThreadPool.h:192-206 | Both assertions of the join loop: the front id is mapped, to a thread that has retired; joining it keeps the invariant. |
| `ThreadPools.TableAfterDrain` | src/http/ThreadPool.h:60-64 | With no live worker, every worker has been joined or is mapped under its own id. |
| `ThreadPools.ThreadPool.constructor` | src/http/ThreadPool.h:38-45 | An empty pool with the two limits. |
| `ThreadPools.ThreadPool.Submit` | src/http/ThreadPool.h:97-125 | Refuses exactly when the queue is full; otherwise queue, counters, map and workers change as the submission step says, which `AcceptsIff`, `GrowsIff` and `OthersMove` spell out: a thread is created only below the limit, and a waiter is woken only if there is one. |
| `ThreadPools.ThreadPool.EnterWait` | src/http/ThreadPool.h:161-168 | The worker waits exactly if there is neither a task nor `quit_`; otherwise it leaves with the front task, or for good. |
| `ThreadPools.ThreadPool.Recheck` | src/http/ThreadPool.h:163-187 | A worker that comes back looks at the predicate again and waits on, takes the front task, quits or retires. |
| `ThreadPools.ThreadPool.LeaveWait` | src/http/ThreadPool.h:169-187 | The second half of the critical section; `tasks_.front()` is never taken from an empty queue. |
| `ThreadPools.ThreadPool.Retire` | src/http/ThreadPool.h:177-183 | Joins all that retired earlier, then lists the caller as finished. |
| `ThreadPools.ThreadPool.JoinFinishedThreads` | src/http/ThreadPool.h:192-206 | The loop joins exactly the listed threads, takes them out of the map and ends. |
| `ThreadPools.ThreadPool.BeginDestruction` | src/http/ThreadPool.h:54-57 | Sets `quit_` and nothing else. |
| `ThreadPools.ThreadPool.NotifyEveryone` | src/http/ThreadPool.h:58 | Wakes every worker in the wait set. |
| `ThreadPools.ThreadPool.JoinAll` | src/http/ThreadPool.h:60-64 | The destructor joins every thread exactly once, and none is left. |
| `TimerQueues.StepKeepsInv` | src/TimerQueue.cc:91-220 | Allocating, adding, cancelling, firing, a callback and `reset`, in any order that calls can nest, and also when an earlier callback of the same poll round has armed the timerfd anew, keep all invariants: heap, both indexes, ownership, cancellation history, run log, arming. |
| `TimerQueues.IndexesAgree` | src/TimerQueue.cc:117-132 | After any run, (when, t) is in `timers_` if and only if (t, sequence) is in `activeTimers_` and when is the expiration of t. |
| `TimerQueues.OneOwner` | src/TimerQueue.cc:91-188 | An allocated timer is owned by exactly one of: the functor that will add it, the active set, the running batch; what is dereferenced is allocated. |
| `TimerQueues.FreedStaysFreed` | src/TimerQueue.cc:120-126 | In any run a freed timer is never alive again, even if its address is: it is freed once. |
| `TimerQueues.StepKeepsFreed` | src/TimerQueue.cc:175-188 | One step brings no freed timer back. |
| `TimerQueues.IdNamesTimerIff` | src/TimerId.h:17-21 | A `TimerId`, whose number is narrowed to `int`, names the timer now at its address if and only if it is that timer and fewer than 2^31 timers came before it. |
| `TimerQueues.CancelTakesEffectIff` | src/TimerQueue.cc:117-132 | A cancel by the timer's own id takes effect, freeing it or marking it in its batch, if and only if the timer has been added and its number is below 2^31; otherwise it changes no timer. |
| `TimerQueues.CancelledBeforeAdded` | src/TimerQueue.cc:91-105 | The witness for the first half: a run in which the loop cancels a timer before the functor that adds it, and it runs all the same. |
| `TimerQueues.CancelFreesIff` | src/TimerQueue.cc:117-127 | A listed timer is freed by its own id if and only if its number is below 2^31, and no other timer changes. |
| `TimerQueues.StaleCancelIsHarmless` | src/TimerQueue.cc:117-132 | A stale id cancels nothing and marks no timer that is allocated, whatever lives at the address now. |
| `TimerQueues.CancelledStays` | src/TimerQueue.cc:117-132 | In any run a cancel that took effect stays in effect. |
| `TimerQueues.CancelledNeverRunsAgain` | src/TimerQueue.cc:134-151 | In any run after a cancel that takes effect, made by anybody, by the timer itself or by another callback of its batch, the timer runs in no later batch. |
| `TimerQueues.RunsOncePerBatch` | src/TimerQueue.cc:144-147 | In any run a timer runs at most once in a batch, and a one-shot timer at most once at all. |
| `TimerQueues.PendingAgainAfterInterval` | src/Timestamp.h:43-47 | In every run from the call of `addTimer` on: each time the batch of the timer has been run, it is pending again at a time p with p - now = the interval in whole microseconds, if the interval is positive and it has not been cancelled meanwhile; otherwise it is gone. |
| `TimerQueues.TimerKeepsInterval` | src/Timer.cpp:13-23 | In every run a timer keeps interval and repetition as long as it lives, whatever happens to its address before or after. |
| `TimerQueues.StepKeepsTimer` | src/Timer.cpp:13-23 | No step changes the interval of a timer, and none its expiration but the `restart` of a timer of the batch. |
| `TimerQueues.NewTimerIs` | src/TimerQueue.cc:91-99 | A new timer expires when asked, repeats if and only if its interval is positive, and then d <= interval * 10^6 < d + 1 for the microseconds d it keeps; no other timer changes. |
| `TimerQueues.AddDecides` | src/TimerQueue.cc:107-115 | Adding lists the timer under its expiration; the timerfd is armed, for max(expiration, now + 100 us), if and only if that is before all others. |
| `TimerQueues.EveryDueTimerRuns` | src/TimerQueue.cc:134-151 | In every run, the callbacks of a batch are called for all its timers, each once, in the order of their expirations, whatever other callbacks add or cancel meanwhile. |
| `TimerQueues.FireDecides` | src/TimerQueue.cc:134-169 | The batch is exactly the timers with expiration <= now, and the others stay listed. |
| `TimerQueues.FinishArms` | src/TimerQueue.cc:190-199 | After `reset` the timerfd is armed for the earliest timer, or left alone if there is none with a valid expiration. |
| `TimerQueues.RepeatersArePending` | src/TimerQueue.cc:171-188 | After `reset`, a timer of the batch is pending at now + the microseconds it keeps if and only if it repeats and was not cancelled; otherwise it is freed. (`PendingAgainAfterInterval` says what those microseconds are.) |
| `TimerQueues.TimersWakeInTime` | src/TimerQueue.cc:107-115 | After any run, between two events of the loop, a pending timer has the timerfd readable or armed no later than max(its expiration, arming time + 100 us); cancels of the earliest timer and adds inside callbacks included. |
| `TimerQueues.TimeSpecIsExact` | src/TimerQueue.cc:25-38 | The split into seconds and nanoseconds is exact, with `tv_nsec < 10^9` and at least 100 us. |
| `TimerQueues.ListedOrInFlight` | src/TimerQueue.cc:79-89 | Between batches, what the destructor does not free is exactly what no functor has added yet. |
| `TimerQueues.ResetOne` | src/TimerQueue.cc:175-188 | One turn of the loop of `reset` brings the queue from what the earlier timers of the batch make of it to what one more makes of it. |
| `TimerQueues.TimerQueue.constructor` | src/TimerQueue.cc:66-77 | An empty queue with a disarmed timerfd. |
| `TimerQueues.TimerQueue.AddTimer` | src/TimerQueue.cc:91-99 | Allocates a timer with the next sequence number, the expiration asked for and, if the interval is positive, that interval in whole microseconds; the id is its address and that number narrowed. |
| `TimerQueues.TimerQueue.Insert` | src/TimerQueue.cc:201-220 | Puts the timer into both indexes, keeps the order, and tells whether it is due strictly before all others. |
| `TimerQueues.TimerQueue.AddTimerInLoop` | src/TimerQueue.cc:107-115 | Inserts, and arms the timerfd exactly if the timer is the new earliest. |
| `TimerQueues.TimerQueue.CancelInLoop` | src/TimerQueue.cc:117-132 | Frees an active timer and takes it out of both indexes; otherwise marks the id while callbacks run, and does nothing else. |
| `TimerQueues.TimerQueue.Erase` | src/TimerQueue.cc:123 | Removes exactly one entry. |
| `TimerQueues.TimerQueue.GetExpired` | src/TimerQueue.cc:153-169 | Splits off exactly the entries with expiration <= now, in order, and deactivates exactly those. |
| `TimerQueues.TimerQueue.BeginHandleRead` | src/TimerQueue.cc:134-142 | The batch starts with no cancellation marked; a timerfd that has been armed anew stays armed. |
| `TimerQueues.TimerQueue.StartCallback` | src/TimerQueue.cc:144-147 | The next timer of the batch runs, and it is allocated. |
| `TimerQueues.TimerQueue.Reset` | src/TimerQueue.cc:171-199 | Restarts, frees and arms as the finishing step says. |
| `TimerQueues.TimerQueue.RestartAll` | src/TimerQueue.cc:148-151 | The batch is over: repeating timers that were not cancelled are back, all others freed. |
| `TimerQueues.TimerQueue.RestartOrFree` | src/TimerQueue.cc:175-188 | The loop over the batch computes heap and both indexes as the step defines them. |
| `TimerQueues.TimerQueue.RestartOrFreeOne` | src/TimerQueue.cc:177-187 | One turn of that loop. |
| `TimerQueues.TimerQueue.ArmForEarliest` | src/TimerQueue.cc:190-198 | Arms for the first listed timer if its expiration is valid, and leaves the timerfd alone otherwise. |
| `TimerQueues.TimerQueue.Destroy` | src/TimerQueue.cc:79-89 | Frees every listed timer, each once, and no other. |
| `EventLoops.NoMissedWakeup` | src/EventLoop.cpp:61-89 | In every run: when the loop is in poll and the eventfd counter is 0, nothing is queued unless a thread is between its push and its write, and nobody has called `quit` since `loop()` was entered unless a thread is about to write. |
| `EventLoops.RunsInQueueOrder` | src/EventLoop.cpp:164-178 | In every run, without any condition, executed ++ rest of the batch ++ pending is the order of enqueuing, for functors of all threads. |
| `EventLoops.StepKeepsOrder` | src/EventLoop.cpp:114-178 | One step keeps that equation. |
| `EventLoops.FlagIsRequest` | src/EventLoop.cpp:61-98 | In every run `quit_` is set if and only if `quit` has been called since `loop()` was entered last. |
| `EventLoops.RunKeepsInv` | src/EventLoop.cpp:61-148 | Every run in which the own thread queues only inside `loop()` keeps the invariant of the loop. |
| `EventLoops.StepKeepsInv` | src/EventLoop.cpp:61-178 | Every step of the loop, of its callbacks and of other threads keeps that invariant. |
| `EventLoops.MissedIff` | src/EventLoop.cpp:114-127 | For every place where user code runs on the loop's thread: the loop, left alone, sleeps in its next poll on what was queued there if and only if the place is outside `loop()` and nobody else has written the eventfd or is about to. |
| `EventLoops.SleepsAfterReading` | src/EventLoop.cpp:129-137 | A loop that reads its eventfd and is then left alone runs all that has been queued so far and sleeps: it is in poll with counter 0 and an empty queue. |
| `EventLoops.CounterDecides` | src/EventLoop.cpp:114-148 | Every step: reading sets the counter to 0; it grows by 1 if another thread writes, or the own thread queues while functors are being called; nothing else changes it. |
| `EventLoops.QuitIsHonouredIff` | src/EventLoop.cpp:61-98 | The first test of the loop condition after a call of `quit` ends the loop if and only if the call was not made outside `loop()`, which forgets it. |
| `EventLoops.QuitForgottenOutsideLoop` | src/EventLoop.cpp:61-64 | A run that forgets a request: call `quit`, then `loop()`. |
| `EventLoops.WakeupMissedOutsideLoop` | src/EventLoop.cpp:114-127 | A run that misses a wake-up: queue on the own thread, then call `loop()`. |
| `EventLoops.EventLoop.constructor` | src/EventLoop.cpp:28-51 | A loop outside `loop()` with an empty queue. |
| `EventLoops.EventLoop.QueueInLoop` | src/EventLoop.cpp:114-119 | The functor goes to the back of the queue; nothing else changes under the lock. |
| `EventLoops.EventLoop.WakeupAfterPush` | src/EventLoop.cpp:121-126 | The eventfd is written exactly for another thread or while functors are being called. |
| `EventLoops.EventLoop.Quit` | src/EventLoop.cpp:91-98 | Sets the flag; another thread owes a write. |
| `EventLoops.EventLoop.HandleRead` | src/EventLoop.cpp:129-137 | Reading sets the counter to zero. |
| `EventLoops.EventLoop.TestQuitFlag` | src/EventLoop.cpp:68 | The loop goes on polling if and only if nobody has asked it to quit. |
| `EventLoops.EventLoop.DoPendingFunctors` | src/EventLoop.cpp:164-178 | Runs exactly what was queued, in order; what the own thread and others queue while the functors run stays for the next round, in order, with a wake-up written if there is any. |
| `EventLoops.EventLoop.TakePending` | src/EventLoop.cpp:166-172 | The whole queue is swapped out under the lock, with the flag set. |
| `EventLoops.EventLoop.RunBatch` | src/EventLoop.cpp:173-176 | The loop over the batch. |
| `EventLoops.EventLoop.RunOne` | src/EventLoop.cpp:173-176 | One functor runs, and what arrives meanwhile is behind all that was queued. |
| `EventLoops.EventLoop.QueueAll` | src/EventLoop.cpp:114-127 | Queueing while a functor runs, from any thread, always leaves the eventfd written. |
| `EventLoops.EventLoop.QueueOne` | src/EventLoop.cpp:114-127 | The same for one call. |
| `Pollers.IndexMirrorsKernel` | src/EpollPoller.cpp:68-112 | After any run of mask changes, removals, waits, and of making and destroying channels on distinct descriptors: index is `kAdded` if and only if the kernel watches the descriptor, then with `events_` as mask and this channel as pointer; index is not `kNew` if and only if `channels_` leads to the channel; and the kernel has refused no ADD, MOD or DEL. Removing an unregistered channel is included. |
| `Pollers.KernelWatchesForLastRequest` | src/Channel.h:41-65 | After any such run, a registered descriptor is watched for exactly what was asked of its channel last: EPOLLIN, EPOLLOUT, both or nothing, with the address of the channel. |
| `Pollers.InterestIsLastRequest` | src/Channel.h:41-65 | After any such run, the mask of every channel is what was asked of it last since it was made. |
| `Pollers.ReportReachesCallbacksIff` | src/Channel.cpp:59-86 | What the kernel reports for a descriptor reaches the callbacks of its channel: reading if and only if input or urgent data are reported, writing for room, error for an error, closing for a hang-up without input. |
| `Pollers.ReportsAreStored` | src/EpollPoller.cpp:113-121 | After a wait every reported channel holds exactly the events reported for its descriptor, every other one what it held; nothing else changes. |
| `Pollers.ChangeIsLocal` | src/EpollPoller.cpp:68-96 | An update changes mask and index of one channel and the entries of its descriptor; the poller lists the channel. |
| `Pollers.RemoveDecides` | src/EpollPoller.cpp:99-112 | After a removal the descriptor is in neither the kernel nor the map, the index is `kNew`, and nothing else has changed. |
| `Pollers.StepKeepsInv` | src/EpollPoller.cpp:68-121 | Each of these steps keeps the agreement for every channel at once. |
| `Pollers.ChangeKeepsInv` | src/EpollPoller.cpp:68-96 | A change of the mask through the three branches of `updateChannel` keeps it. |
| `Pollers.RemoveKeepsInv` | src/EpollPoller.cpp:99-112 | `removeChannel` keeps it. |
| `Pollers.WaitKeepsInv` | src/EpollPoller.cpp:113-121 | Storing the returned events keeps it and touches neither the kernel nor the set of channels. |
| `Pollers.ActiveAreAlive` | src/EpollPoller.cpp:113-121 | Every channel that a wait returns is alive, registered, and has the descriptor the kernel reported. |
| `Pollers.WatchedAfterChangeIff` | src/EpollPoller.cpp:73-95 | After an update the descriptor is watched if and only if the channel was not registered before (even with an empty mask) or its mask is not empty. |
| `Pollers.SecondAddIsRefusedIff` | src/EpollPoller.cpp:73-82 | For a second channel on a descriptor the first update is refused by the kernel if and only if the first channel is registered. |
| `Pollers.SecondRemoveIsHarmlessIff` | src/EpollPoller.cpp:99-112 | Removing such a second channel leaves the first one in order if and only if that is unknown to the poller. |
| `Pollers.SecondChannelBreaksIndex` | src/EpollPoller.cpp:68-96 | Whatever the first channel's index, the first update of a second one on its descriptor breaks the agreement of the first. |
| `Pollers.NewChannelIsHarmlessIff` | src/EpollPoller.cpp:68-96 | Distinct descriptors are the exact condition: the first update of a new channel leaves every other in agreement if and only if none has its descriptor. |
| `Pollers.MaskMeans` | src/Channel.h:41-70 | Each update changes the interest it names and leaves the other; a reachable mask is empty if and only if it has neither interest. |
| `Pollers.Channel.constructor` | src/Channel.cpp:12-15 | No interest, no events, `kNew`. |
| `Pollers.Channel.EnableReading` | src/Channel.h:41-45 | Mask and registration after the call are those of the change step. |
| `Pollers.Channel.DisableReading` | src/Channel.h:46-50 | The same for dropping the interest in reading. |
| `Pollers.Channel.EnableWriting` | src/Channel.h:51-55 | The same for writing. |
| `Pollers.Channel.DisableWriting` | src/Channel.h:56-60 | The same for dropping the interest in writing. |
| `Pollers.Channel.DisableAll` | src/Channel.h:61-65 | The same for dropping both. |
| `Pollers.Channel.HandleEvent` | src/Channel.cpp:45-86 | Calls the callbacks that are set and wanted, in the order close, error, read, write; none if the channel is tied to an owner that is gone. |
| `Pollers.EpollPoller.constructor` | src/EpollPoller.cpp:16-25 | Nothing registered. |
| `Pollers.EpollPoller.Update` | src/EpollPoller.cpp:125-146 | The kernel refuses to add what is there and to change or delete what is not; otherwise exactly this descriptor changes. |
| `Pollers.EpollPoller.UpdateChannel` | src/EpollPoller.cpp:68-96 | Map, index and kernel after the call are those of the update step; no other channel changes. |
| `Pollers.EpollPoller.RemoveChannel` | src/EpollPoller.cpp:99-112 | The same for the removal step. |
| `Pollers.EpollPoller.HasChannel` | src/Poller.cpp:10-18 | True if and only if the index of the channel is not `kNew`. |
| `Pollers.EpollPoller.FillActivateChannels` | src/EpollPoller.cpp:113-121 | Returns the channels behind the reported pointers in order; each then holds its event, as `ReportsAreStored` spells out. |
| `Pollers.EpollPoller.PollOnce` | src/EpollPoller.cpp:42-49 | The same, and afterwards the list of events has room for more than was reported. |
| `Buffers.Buffer.Perform` | src/Buffer.h:40-94 | Any run of append, readFd (of any amount that is available, or failing) and retrieve acts on the array as what the calls came to acts on a byte queue, keeps 8 <= reader <= writer <= size, and the size never exceeds max(8 + initial, 2P + 7) for the longest queue P; a read takes all there is, or at least 65536 bytes of it. |
| `Buffers.Buffer.PerformOne` | src/Buffer.h:40-94 | One such operation acts on the queue as append or drop. |
| `Buffers.Buffer.constructor` | src/Buffer.h:15-20 | An empty queue in an array of 8 + initial bytes. |
| `Buffers.Buffer.Retrieve` | src/Buffer.h:40-50 | Drops `len` bytes, or everything if there are not more. |
| `Buffers.Buffer.RetrieveAll` | src/Buffer.h:52-55 | Empties the queue. |
| `Buffers.Buffer.RetrieveAsString` | src/Buffer.h:63-68 | Returns the first `len` bytes and drops them. |
| `Buffers.Buffer.EnsureWriteableBytes` | src/Buffer.h:70-76 | Room for `len` bytes, and the queue unchanged. |
| `Buffers.Buffer.MakeSpace` | src/Buffer.h:154-169 | The same by compacting or growing; compaction happens only with reader > 8. |
| `Buffers.Buffer.MoveToFront` | src/Buffer.h:163-165 | The forward copy of overlapping ranges puts the old bytes at the front, byte for byte. |
| `Buffers.Buffer.Resize` | src/Buffer.h:158 | A larger array that begins with the old one. |
| `Buffers.Buffer.Append` | src/Buffer.h:89-94 | The queue grows by exactly `s` at its end. |
| `Buffers.Buffer.ReadFd` | src/Buffer.cpp:13-40 | The bytes delivered are appended in order, whether they end in the array or in the overflow buffer; an error changes nothing. |
| `Buffers.Buffer.FindCRLF` | src/Buffer.h:111-116 | The first CR LF of the readable bytes, or none. |
| `Buffers.Buffer.FindEOL` | src/Buffer.h:125-129 | The first line feed of the readable bytes, or none. |
| `Text.FindCrlfIff` | src/Buffer.h:111-116 | What the search means: the first position, none before it. |
| `TcpConnections.StreamIntegrity` | src/TcpConnection.cpp:183-244 | In every run, bytes taken by the kernel ++ buffered bytes == the concatenation, in order, of the messages not dropped; a message is dropped only whole, when not connected or when a direct write fails with EPIPE or ECONNRESET, and with no other error. |
| `TcpConnections.SendDecides` | src/TcpConnection.cpp:141-244 | For every state and every result of `write`: nothing unless connected; behind buffered bytes always; otherwise what was taken goes to the kernel and the rest is buffered with writing enabled, on EWOULDBLOCK and other errors all of it, and only EPIPE and ECONNRESET drop the message. |
| `TcpConnections.WritableDecides` | src/TcpConnection.cpp:79-112 | A write event moves exactly the bytes taken from the front of the buffer to the kernel and drops the interest in writing if and only if none is left; an error or an empty write changes nothing. |
| `TcpConnections.ShutsDownIff` | src/TcpConnection.cpp:94-101 | The write side is shut down, once, in exactly three events: a request with nothing to write, a functor with nothing to write, the write event that empties the buffer of a disconnecting connection. |
| `TcpConnections.StateDecides` | src/TcpConnection.cpp:114-281 | The state after every event, and that no event but a send or a write event touches the bytes. |
| `TcpConnections.HalfClose` | src/TcpConnection.cpp:266-281 | In every run of a new connection in which only the loop's thread calls `shutdown`: at most one shutdown of the write side, and then every byte not dropped is in the kernel; a disconnecting connection has shut down if and only if its buffer is empty; while connected or disconnecting the channel is writing if and only if the buffer is not empty. |
| `TcpConnections.OtherShutdownIff` | src/TcpConnection.cpp:266-281 | When another thread, having found the connection connected, sets its state: every run from there on shuts down at most once and with nothing unsent if and only if nothing is buffered, nothing has been shut down and no third thread is about to set the state, too; or the channel has left the poller with bytes to write and nothing will happen any more. |
| `TcpConnections.ShutDownTwice` | src/TcpConnection.cpp:97-100 | A run of a new connection: asked from another thread, the buffer drains before the functor runs, and the write side is shut down twice. |
| `TcpConnections.ShutDownUnsent` | src/TcpConnection.cpp:114-118 | The same, but the peer closes first, and it is shut down over the unsent message. |
| `TcpConnections.SendSeesNoShutdown` | src/TcpConnection.cpp:189-193 | A send whose test of the state comes before another thread sets it is a send before that: `sendInLoop` does not tell the two states apart. |
| `TcpConnections.DrainShutsDown` | src/TcpConnection.cpp:84-101 | After a shutdown request the write event that takes all that is buffered shuts down, and no other does. |
| `TcpConnections.RunKeepsInv` | src/TcpConnection.cpp:79-281 | Every run in which only the loop's thread calls `shutdown` keeps the relation of state, writing flag, buffer and shutdowns. |
| `TcpConnections.StepKeepsStream` | src/TcpConnection.cpp:79-244 | One step extends the stream by the message it accepts, and by nothing else. |
| `TcpConnections.SendKeepsStream` | src/TcpConnection.cpp:195-243 | A short direct write and the buffering of the rest neither lose, repeat nor reorder a byte. |
| `TcpConnections.WritableKeepsStream` | src/TcpConnection.cpp:79-102 | A short write from the buffer moves bytes to the kernel in order. |
| `TcpConnections.TcpConnection.constructor` | src/TcpConnection.cpp:25-51 | Connecting, with an empty output buffer. |
| `TcpConnections.TcpConnection.ConnectEstablished` | src/TcpConnection.cpp:246-254 | Connected and reading. |
| `TcpConnections.TcpConnection.Send` | src/TcpConnection.cpp:141-158 | On the loop thread: nothing unless connected, otherwise the send step, which `SendDecides` spells out for every errno. |
| `TcpConnections.TcpConnection.SendInLoop` | src/TcpConnection.cpp:183-244 | Kernel, buffer and writing flag after the call, in every state and for every result of `write`. |
| `TcpConnections.TcpConnection.TryWrite` | src/TcpConnection.cpp:195-221 | The direct write happens exactly if nothing is waiting, and tells how much was taken and whether the peer is gone; `SendDecides` spells out for which errors. |
| `TcpConnections.TcpConnection.HandleWrite` | src/TcpConnection.cpp:79-112 | The same for a write event, with the shutdown that a drained buffer triggers. |
| `TcpConnections.TcpConnection.HandleClose` | src/TcpConnection.cpp:114-123 | Disconnected, no interest left; buffer and kernel unchanged. |
| `TcpConnections.TcpConnection.ConnectDestroyed` | src/TcpConnection.cpp:255-264 | Out of the poller, and disconnected if it was connected. |
| `TcpConnections.TcpConnection.RequestShutdown` | src/TcpConnection.cpp:266-274 | On the loop thread: disconnecting if it was connected, with the write side shut down now if nothing is buffered. |
| `TcpConnections.TcpConnection.TestConnected` | src/TcpConnection.cpp:268 | On another thread: the test of the state. |
| `TcpConnections.TcpConnection.SetDisconnecting` | src/TcpConnection.cpp:270-272 | Its change, whatever the state is by now, and the functor queued. |
| `TcpConnections.TcpConnection.RunShutdownFunctor` | src/TcpConnection.cpp:271-280 | The functor, which does not look at the state again. |
| `TcpConnections.TcpConnection.DoShutdownInLoop` | src/TcpConnection.cpp:275-281 | Shuts the write side down exactly if the channel is not writing. |
| `HttpParsers.ReturnsIffStops` | src/http/HttpContext.cc:54-133 | For either parser: a call returns if and only if its loop stops within readable bytes + 1 turns, and otherwise it never stops. |
| `HttpParsers.SpinsIff` | src/http/HttpContext.cc:114-124 | `parseRequest` does not return if and only if it is entered in `kGotAll`, or the head announces a body that is not there in full. |
| `HttpParsers.RequestLineIff` | src/http/HttpContext.cc:6-77 | For every complete first line: the call fails if and only if the line is not "name target HTTP/1.d" with one of five names, a target without space and d = 0 or 1; otherwise it goes on with that method, version 1.d, and the target cut in front of its first question mark. |
| `HttpParsers.HeaderLineDecides` | src/http/HttpContext.cc:78-108 | For every complete line behind it: with a colon, the trimmed rest is stored under what is in front of the first one; without, it ends the headers, and the request unless that is a POST. |
| `HttpParsers.StatusLineIff` | src/http/HttpContext.cc:148-217 | For every complete first line of a response: the call fails if and only if the line is not "HTTP/1.d code message"; otherwise it goes on with the code, 0 for one that is not known. |
| `HttpParsers.FieldLineDecides` | src/http/HttpContext.cc:218-279 | For every complete line behind that: with a colon, the rest is stored untrimmed; without, all that has arrived behind it is the body. |
| `HttpParsers.ResponseSpinsIff` | src/http/HttpContext.cc:148-280 | `parseResponse` does not return if and only if it is entered in `kGotAll`. |
| `HttpParsers.ChunkIndependence` | src/http/HttpContext.cc:50-108 | For any non-POST stream cut into any chunks, feeding them one by one gives the verdict, request and unread suffix of one parse of the whole. |
| `HttpParsers.CutMattersIff` | src/http/HttpContext.cc:109-132 | For every stream, POST included, cut in two: the outcome differs if and only if the cut is inside a body of unknown length, or the announced end is in the second part only. |
| `HttpParsers.ChunksMatterIff` | src/http/HttpContext.cc:50-135 | For every stream, POST included, cut into any number of chunks: the outcome differs from one parse of the whole if and only if one of the cuts makes a difference by itself; so a POST that announces its length may be cut anywhere but inside its body. |
| `HttpParsers.HeadContinues` | src/http/HttpContext.cc:78-108 | A parser that waits goes on with the head it has begun. |
| `HttpParsers.NoBodyLater` | src/http/HttpContext.cc:50-135 | A parser that is done or has failed finds no body in later bytes. |
| `HttpParsers.ParseAppend` | src/http/HttpContext.cc:54-135 | Parsing what has arrived and going on later equals parsing everything at once, outside these two cases. |
| `HttpParsers.StableAppend` | src/http/HttpContext.cc:54-135 | The same for any parser loop whose turns do not depend on what arrives later. |
| `HttpParsers.FeedAll` | src/http/HttpContext.cc:54-135 | The same for any number of chunks. |
| `HttpParsers.NeverPostIsStable` | src/http/HttpContext.cc:92-101 | The turns of a request that is no POST do not depend on what arrives later. |
| `HttpParsers.HeadAppend` | src/http/HttpContext.cc:78-108 | A complete head is the same whatever follows. |
| `HttpParsers.ParseFromHead` | src/http/HttpContext.cc:109-132 | Parsing goes on from the head as if it had started there. |
| `HttpParsers.BodyOutcome` | src/http/HttpContext.cc:109-132 | What a body comes to: without Content-Length, all there is; with n >= 0 bytes announced and there, exactly these; otherwise, a negative length included, a call that does not return. |
| `HttpParsers.MethodStaysUnsetIff` | src/http/HttpRequest.h:45-74 | The assertion in `setMethod` holds in the next call if and only if this call did not fail, or refused a line that does not begin with a known method. |
| `HttpParsers.ResetIsFreshIff` | src/http/HttpContext.h:37-42 | `reset` gives a fresh context if and only if neither a body nor a response was stored. |
| `HttpParsers.StaleBody` | src/http/HttpRequest.h:204-212 | After `reset` the next request is parsed as by a fresh context, but the old body stays until a body is read. |
| `HttpContexts.HttpContext.constructor` | src/http/HttpContext.h:19-22 | A fresh context. |
| `HttpContexts.HttpContext.ProcessRequestLine` | src/http/HttpContext.cc:6-47 | Verdict and request, including the fields a refused line has already set. |
| `HttpContexts.HttpContext.ProcessTarget` | src/http/HttpContext.cc:13-44 | Path, query and version of a line whose method is known. |
| `HttpContexts.HttpContext.ParseRequest` | src/http/HttpContext.cc:50-135 | For every input the loop computes the specified outcome and consumes exactly what it should; where the source never returns it says so. |
| `HttpContexts.HttpContext.AcceptLine` | src/http/HttpContext.cc:61-67 | A line that is accepted changes the state; one that is refused leaves what it has set. |
| `HttpContexts.HttpContext.TakeRequestLine` | src/http/HttpContext.cc:56-77 | The first branch of the loop. |
| `HttpContexts.HttpContext.TakeTurn` | src/http/HttpContext.cc:54-133 | One turn of the loop of `parseRequest`. |
| `HttpContexts.HttpContext.TakeHeader` | src/http/HttpContext.cc:78-108 | The second branch; any line without a colon ends the headers. |
| `HttpContexts.HttpContext.StoreOrEnd` | src/http/HttpContext.cc:83-101 | Stores the field, or ends the headers in the state that the method calls for. |
| `HttpContexts.HttpContext.TakeBody` | src/http/HttpContext.cc:109-132 | The third branch, with a negative length larger than any buffer. |
| `HttpContexts.HttpContext.ProcessStatusLine` | src/http/HttpContext.cc:150-217 | Accepts a status line exactly as specified; the message is dropped, an unknown code becomes 0. |
| `HttpContexts.HttpContext.ProcessCode` | src/http/HttpContext.cc:183-205 | The code behind the version. |
| `HttpContexts.HttpContext.AcceptStatus` | src/http/HttpContext.cc:157-199 | A status line that is accepted changes the state. |
| `HttpContexts.HttpContext.TakeStatusLine` | src/http/HttpContext.cc:150-217 | The first branch of `parseResponse`. |
| `HttpContexts.HttpContext.StoreField` | src/http/HttpContext.cc:224-246 | Stores the field, or ends the headers. |
| `HttpContexts.HttpContext.TakeField` | src/http/HttpContext.cc:218-253 | The second branch; the space behind the colon stays in the value. |
| `HttpContexts.HttpContext.TakeRest` | src/http/HttpContext.cc:254-279 | The third branch: all that has arrived is the body. |
| `HttpContexts.HttpContext.ParseResponse` | src/http/HttpContext.cc:137-283 | The same for responses. |
| `HttpContexts.HttpContext.Reset` | src/http/HttpContext.h:37-42 | The next request starts with the body of the last one. |
| `HttpMessages.MethodRoundTrip` | src/http/HttpRequest.h:45-110 | A method is recovered from its name, and a name has neither space nor line end. |
| `HttpMessages.SkipSpaces` | src/http/HttpRequest.h:170-174 | The loop drops exactly the leading white space. |
| `HttpMessages.DropSpaces` | src/http/HttpRequest.h:175-179 | The loop drops exactly the trailing white space. |
| `HttpMessages.HttpRequest.SetMethod` | src/http/HttpRequest.h:45-74 | True if and only if the name is known. |
| `HttpMessages.HttpRequest.AddHeader` | src/http/HttpRequest.h:167-181 | The trimmed value is stored under the name, over an older one. |
| `HttpMessages.HttpRequest.GetHeader` | src/http/HttpRequest.h:188-197 | The stored value or the empty string. |
| `HttpMessages.HttpRequest.Swap` | src/http/HttpRequest.h:204-212 | Everything but the body changes sides. |
| `Text.TrimIffTrimmed` | src/http/HttpRequest.h:170-179 | Trimming leaves a value as it is if and only if it has no white space at its ends. |
| `Text.TrimKeepsInner` | src/http/HttpRequest.h:170-179 | Of white space, a value and white space again, trimming leaves exactly the value. |
| `Text.AtoiDecimal` | src/http/HttpContext.cc:116 | A printed length is read back by `atoi` if and only if it is below 2^31. |
| `Text.AtoiNegative` | src/http/HttpContext.cc:116 | With a minus sign it is read back as the negative number if and only if it is at most 2^31. |
| `HttpPrinters.PostedRequestRoundTrip` | src/http/HttpClient.cc:92-103 | What `post` sends, followed by any suffix, is parsed by a fresh context to method POST, version 1.1, the body, its length and its type under their names and no other header, with path ++ query the posted path; the parser stops exactly behind it. |
| `HttpPrinters.PostBodySurvivesIff` | src/http/HttpClient.cc:102 | The body of a `post`, followed by any suffix, survives if and only if it is shorter than 2^31 bytes. |
| `HttpPrinters.GetRoundTrip` | src/http/HttpClient.cc:65-72 | What `get` sends, followed by any suffix, is parsed to method GET, version 1.1, no header, no body, path ++ query the path, and the parser stops right behind it. |
| `HttpPrinters.GetBytes` | src/http/HttpClient.cc:132-156 | The bytes of a `get` on the wire. |
| `HttpPrinters.PostBytes` | src/http/HttpClient.cc:132-156 | The bytes of a `post` on the wire, its two headers in ascending order. |
| `HttpPrinters.PostKeys` | src/http/HttpClient.cc:141 | Content-Length comes before Content-Type, and there is no other header. |
| `HttpPrinters.GetSurvivesIff` | src/http/HttpClient.cc:65-72 | For every path and suffix: the bytes parse with path ++ query the printed path if and only if the path holds no space and no line end. |
| `HttpParsers.ParsedTargetIsPlain` | src/http/HttpContext.cc:13-26 | What a successful parse stores as path and query never holds a space or a line end. |
| `HttpPrinters.RequestRoundTrip` | src/http/HttpClient.cc:132-156 | The same for every printable request without a body, with any headers. |
| `HttpPrinters.PostRoundTrip` | src/http/HttpClient.cc:132-156 | The same for every POST that announces its length. |
| `HttpPrinters.HeadersRecoveredIff` | src/http/HttpRequest.h:167-181 | The header values come back unchanged if and only if none has white space at its ends. |
| `HttpPrinters.PathIsRecovered` | src/http/HttpContext.cc:17-26 | Path and query together are the printed path. |
| `HttpPrinters.LengthIsRecovered` | src/http/HttpContext.cc:113-117 | The printed length is the one announced to the parser if and only if it fits an `int`. |
| `HttpPrinters.ParseHeaderLines` | src/http/HttpContext.cc:78-108 | Printed header lines are read one by one into the map, the last of equal names winning. |
| `HttpPrinters.PrintHeaders` | src/http/HttpClient.cc:141-147 | The loop prints every header once, in ascending order of the keys. |
| `HttpPrinters.SortedKeys` | src/http/HttpClient.cc:141 | The order of `std::map`: each key once, ascending. |
| `HttpPrinters.OrderIsUnique` | src/http/HttpClient.cc:141 | There is one such order, so the printed bytes are a function of the message. |
| `Text.BelowIsTotal` | src/http/HttpClient.cc:141 | The order of strings is total and strict. |
| `Text.Least` | src/http/HttpClient.cc:141 | The loop finds the first key. |
| `HttpPrinters.PrintTail` | src/http/HttpClient.cc:149-156 | Headers, empty line and body. |
| `HttpPrinters.PrintRequest` | src/http/HttpClient.cc:132-156 | The bytes in the new buffer are those of the request. |
| `HttpPrinters.BuildGet` | src/http/HttpClient.cc:65-72 | The request that `get` builds. |
| `HttpPrinters.BuildPost` | src/http/HttpClient.cc:96-103 | The request that `post` builds, with its two headers. |
| `HttpPrinters.ResponseRoundTrip` | src/http/HttpResponse.cc:15-44 | Whatever its length, what `appendToBuffer` prints is parsed by a fresh context: status code and body are recovered, and the headers are the generated ones as they are read, overridden by the stored ones, each value with one space in front. |
| `HttpPrinters.ResponseBytesAre` | src/http/HttpResponse.cc:15-44 | The bytes of a response on the wire: status line, the generated lines of both kinds of connection, headers, empty line, body. |
| `HttpPrinters.ResponseSurvivesIff` | src/http/HttpResponse.cc:23-32 | The parser gets the headers that were meant if and only if the connection closes, the body is shorter than 10^13 bytes, or the response overrides both generated headers. |
| `HttpPrinters.GeneratedRecoveredIff` | src/http/HttpResponse.cc:23-32 | For a response without headers of its own: the parser gets the generated ones if and only if the connection closes or the body is shorter than 10^13 bytes. |
| `HttpPrinters.ParseGenerated` | src/http/HttpResponse.cc:23-32 | The generated lines, a cut length line included, are read as specified, for both kinds of connection. |
| `HttpPrinters.LengthLineFits` | src/http/HttpResponse.cc:17-30 | The length line fits the 32 bytes of the print buffer if and only if the length is below 10^13. |
| `HttpPrinters.LengthLineIsCut` | src/http/HttpResponse.cc:17-31 | A longer one loses its line end, so the next line becomes part of its value. |
| `HttpPrinters.StatusLineFits` | src/http/HttpResponse.cc:17-19 | The beginning of the status line always fits them. |
| `HttpPrinters.StatusIsRecovered` | src/http/HttpResponse.h:37-59 | Every code the type has is recovered from its digits. |
| `HttpPrinters.AppendToBuffer` | src/http/HttpResponse.cc:15-44 | Exactly the bytes of the response are appended to what the buffer held. |
| `HttpPrinters.PrintStatus` | src/http/HttpResponse.cc:17-21 | The status line. |
| `HttpPrinters.PrintGenerated` | src/http/HttpResponse.cc:23-32 | The generated header lines. |
| `Connectors.SocketsAreLinear` | src/Connector.cpp:72-119 | In every disciplined run each socket created is closed at most once and handed over at most once, never both, and neither exactly while its attempt is in progress; an event with error and writability and a `stop` that races with completion are included. |
| `Connectors.RunKeepsInv` | src/Connector.cpp:37-214 | Every disciplined run keeps the invariant. |
| `Connectors.StepKeepsInv` | src/Connector.cpp:37-214 | Every disciplined step keeps: all sockets accounted for, at most one attempt, retry or start outstanding, no queued destruction of a channel in use. |
| `Connectors.AttemptIsSoundIff` | src/Connector.cpp:72-133 | An attempt keeps every socket with its owner if and only if none is being watched or the attempt fails for good; whatever its outcome, if and only if none is being watched. |
| `Connectors.ResetIsLinearIff` | src/Connector.cpp:145-148 | The queued destruction of the channel loses a socket if and only if a new attempt has put its channel there meanwhile. |
| `Connectors.TwoStartsLoseASocket` | src/Connector.cpp:37-41 | Two runs from the beginning: a second start in a row loses the first socket, whether it is in progress or refused at once, and nothing that happens to the channel afterwards helps. |
| `Connectors.EarlyRestartLosesASocket` | src/Connector.cpp:135-148 | A run from the beginning: stopped, and started again in the loop before the old channel has been destroyed, the new socket is lost. |
| `Connectors.EarlyTimerLosesASocket` | src/Connector.cpp:203-209 | A run from the beginning: a retry timer that fires before the old channel has been destroyed loses the new socket, too. |
| `Connectors.KeepsTryingIff` | src/Connector.cpp:72-111 | Without `stop`, a step of a connector with something outstanding leaves something outstanding, or hands the connection over, if and only if it does not begin an attempt that fails for good or gets no socket. |
| `Connectors.CompletionDecides` | src/Connector.cpp:150-185 | When the socket of the attempt becomes writable: connected if and only if it has no error and is not connected to itself; handed over if and only if, in addition, not stopped, and closed otherwise; a retry scheduled, with the current delay, if and only if the attempt failed and the connector is not stopped. |
| `Connectors.HandsOverSuccesses` | src/Connector.cpp:170-179 | In every run, disciplined or not, the sockets handed over are exactly those of the attempts that succeeded while not stopped, in that order. |
| `Connectors.FailureDecides` | src/Connector.cpp:62-70 | An error event (lines 187-197) or the functor of `stop` ends the attempt: its socket is closed, never handed over, and a retry is scheduled if and only if not stopped. |
| `Connectors.AttemptDecides` | src/Connector.cpp:72-133 | A socket is created by exactly the events that begin an attempt while not stopped; it is watched if and only if the attempt is in progress, closed if and only if it failed, and a retry is scheduled if and only if it failed with an error to be retried. |
| `Connectors.StoppedStaysStopped` | src/Connector.cpp:55-60 | In every run after `stop` without a new start: no socket is created or handed over, no retry scheduled, and no attempt is in progress once the queue is empty. |
| `Connectors.StartIsOutstandingIff` | src/Connector.cpp:37-53 | A start leaves something outstanding if and only if it is queued or its attempt does not fail for good. |
| `Connectors.LateEventsAreIgnored` | src/Connector.cpp:150-197 | Events of an attempt that is over change nothing. |
| `Connectors.RetryDelays` | src/Connector.cpp:199-210 | In every run, disciplined or not, the k-th retry scheduled since construction or `restart` waits min(500 * 2^(k-1), 30000) ms. |
| `Connectors.StepKeepsBackoff` | src/Connector.cpp:203-209 | The same for a single step, without any discipline of the callers. |
| `Connectors.BackoffDoubles` | src/Connector.cpp:208 | Doubling up to the limit is the closed formula. |
| `Connectors.Connector.constructor` | src/Connector.cpp:22-30 | Disconnected, nothing outstanding. |
| `Connectors.Connector.Start` | src/Connector.cpp:37-41 | Begins at once in the loop thread, or queues the start. |
| `Connectors.Connector.Restart` | src/Connector.cpp:113-119 | Begins with the first delay. |
| `Connectors.Connector.Stop` | src/Connector.cpp:55-60 | No new attempt, and the current one will be given up. |
| `Connectors.Connector.StartInLoop` | src/Connector.cpp:43-53 | An attempt, unless stopped. |
| `Connectors.Connector.Connect` | src/Connector.cpp:72-111 | The outcome for each class of `errno`. |
| `Connectors.Connector.Connecting` | src/Connector.cpp:121-133 | The socket is watched. |
| `Connectors.Connector.RemoveAndResetChannel` | src/Connector.cpp:135-143 | The channel leaves the poller now and is destroyed later; its descriptor is returned. |
| `Connectors.Connector.StopInLoop` | src/Connector.cpp:62-70 | Gives up an attempt in progress, and does nothing otherwise. |
| `Connectors.Connector.ResetChannel` | src/Connector.cpp:145-148 | No channel. |
| `Connectors.Connector.HandleWrite` | src/Connector.cpp:150-185 | Hands over, closes or retries, as `CompletionDecides` spells out for each outcome; nothing if the attempt is over. |
| `Connectors.Connector.HandleError` | src/Connector.cpp:187-197 | Closes and retries; nothing if the attempt is over. |
| `Connectors.Connector.Retry` | src/Connector.cpp:199-214 | Closes the socket, and schedules with the current delay unless stopped. |
| `Connectors.Connector.RunFunctor` | src/Connector.cpp:43-70 | The loop runs the connector's oldest functor. |
| `AsyncLoggers.NothingIsLost` | src/AsyncLogger.h:69-132 | In every run, for every interleaving of callers and writer, until `stop` writes the rest: file ++ batch ++ queue ++ current buffer is the log in lock order. |
| `AsyncLoggers.StopWritesEverything` | src/AsyncLogger.h:40-67 | If no `log` overlaps or follows `stop`, the file is the whole log in order when `stop` returns. |
| `AsyncLoggers.FlushKeepsOrderIff` | src/AsyncLogger.h:50-60 | The last writes of `stop`, current buffer before queue, keep the order if and only if one of the two is empty. |
| `AsyncLoggers.FlushWritesEachOnce` | src/AsyncLogger.h:50-60 | In every case they write each remaining entry exactly once. |
| `AsyncLoggers.TurnCatchesUpIff` | src/AsyncLogger.h:93-131 | One turn of the writer brings every line logged so far into the file if and only if no buffer with a line in it is left behind the sixteenth; with fewer than sixteen queued none is left. |
| `AsyncLoggers.CollectDecides` | src/AsyncLogger.h:96-118 | The critical section of the writer leaves the current buffer empty; it waits if and only if there is nothing to write, and otherwise takes the first sixteen of queue ++ current, or all. |
| `AsyncLoggers.LogHandsOverIff` | src/AsyncLogger.h:69-85 | A line stays in the current buffer if and only if line and line end fit its capacity; otherwise that buffer is queued and the line begins the next one. |
| `AsyncLoggers.ReadDecides` | src/AsyncLogger.h:93 | The writer goes on if any of the three reads says so, and leaves only when it has found stopped, queue empty, buffer empty, in this order. |
| `AsyncLoggers.LateEntriesAreReversed` | src/AsyncLogger.h:50-60 | The witness, a run from the beginning: two calls that come after the writer has left end up in the file in reverse order. |
| `AsyncLoggers.WriterFinishes` | src/AsyncLogger.h:93-131 | After `stop` has begun, with nobody logging, every step of the writer brings its end nearer. |
| `AsyncLoggers.WriterLeaves` | src/AsyncLogger.h:44-48 | So `join` returns: from any such state a bounded list of writer steps reaches the end of the writer. |
| `AsyncLoggers.StepKeepsInv` | src/AsyncLogger.h:40-132 | Every step keeps order and conservation, and what the writer has found empty outside the lock stays empty if nobody is late. |
| `AsyncLoggers.LogAppends` | src/AsyncLogger.h:69-85 | A call adds its line at the end of everything, whether or not the buffer is full. |
| `AsyncLoggers.CollectKeepsEverything` | src/AsyncLogger.h:96-118 | Handing over the current buffer and taking a batch of at most sixteen changes nothing in the order. |
| `AsyncLoggers.WriteKeepsEverything` | src/AsyncLogger.h:121-130 | Writing one buffer changes nothing in the order. |
| `AsyncLoggers.WriteAllIsSteps` | src/AsyncLogger.h:121-130 | Writing the whole batch is one step for each buffer and one for the end. |
| `AsyncLoggers.AsyncLogger.constructor` | src/AsyncLogger.h:20-33 | Running, with everything empty. |
| `AsyncLoggers.AsyncLogger.Log` | src/AsyncLogger.h:69-85 | The buffer is handed over exactly if the line does not fit. |
| `AsyncLoggers.AsyncLogger.TestCondition` | src/AsyncLogger.h:93 | One read of the loop condition; the writer goes on if and only if the part it reads says so. |
| `AsyncLoggers.AsyncLogger.Collect` | src/AsyncLogger.h:96-118 | The critical section of the writer. |
| `AsyncLoggers.AsyncLogger.TakeBatch` | src/AsyncLogger.h:113-117 | The loop moves the first sixteen buffers, or all if there are fewer. |
| `AsyncLoggers.AsyncLogger.WriteBatch` | src/AsyncLogger.h:121-130 | The loop writes the batch in order. |
| `AsyncLoggers.AsyncLogger.BeginStop` | src/AsyncLogger.h:42 | Only the first call goes on. |
| `AsyncLoggers.AsyncLogger.FlushRest` | src/AsyncLogger.h:50-65 | The loop writes the current buffer, then the queue, and closes the file. |

## Left out

- System calls, sockets, addresses, `Acceptor`, `TcpServer`, `TcpClient`: their results are parameters of the events.
- Cross-thread `TcpConnection::send`: the functor holds a raw pointer into a string it does not own.
- `TcpConnection` callbacks for high water, completed writes and messages, `handleRead`: they do not touch the output path.
- `EventLoop::runAt` and `runAfter`, and wall-clock time: `timerQueue_` is never built and `Timestamp::now` stores seconds in a field of microseconds, so the timer queue is modelled on its own, in units of `Timestamp`.
- Overflow of `size_t` and `int64_t`, and the rounding of `double` intervals: lengths and times are unbounded, and an interval is a real number.
- C++ data races as such: an unlocked read of a flag or of a container's emptiness is one atomic step.
- Fairness: that an enabled worker or the logger's writer is scheduled at all is not modelled; the bounds are on the number of steps.
- ThreadPools.ThreadPool.JoinAll: states what the destructor's loop does once no worker is live; the interleaving of its blocking joins with the workers is in `DestructorJoinsAll`.
- EventLoops.EventLoop.DoPendingFunctors: other threads queue only while functors run, each push with its write; all other interleavings are in `NoMissedWakeup` and `RunsInQueueOrder`.
- TcpConnections.HalfClose: holds for runs in which `shutdown` is called on the loop's thread; `OtherShutdownIff` is exact for a call on another one.
- HttpMessages.HttpRequest.AddHeader: `isspace` is that of the C locale on bytes below 128.
- HttpContexts.HttpContext.ParseRequest: where the source's loop never ends, the method stops and returns `spins`; `ParseResponse` likewise. The receive time of a request is not kept.
- HttpParsers.ChunkIndependence: holds for requests other than POST; `ChunksMatterIff` is exact for all of them.
- Connectors.SocketsAreLinear: holds for runs in which `start` is not called while something is outstanding and nothing begins an attempt before the queued destruction of the last channel, which a retry timer of half a second or more does not; `AttemptIsSoundIff` and `ResetIsLinearIff` say what each breach costs. Sockets are told apart from closed ones with the same descriptor.
- Pollers.IndexMirrorsKernel: the kernel refuses an operation only for the reasons given; that a closed descriptor leaves the interest set by itself is not needed, because channels are removed first.
- Pollers.Channel.HandleEvent: what the callbacks do is not modelled here; `revents` is set only by a poll.
- `HttpClient`'s request queue and callbacks: a direct send can overtake queued requests, so there is no order to state.
- The setters of `HttpResponse`: a response is a value here.
- The logger's output to the console, its destructor (which calls `stop` a second time) and the failure to open the file.
- `Logger`, `Thread`, `EventLoopThread`, `EventLoopThreadPool`, `CurrentThread`, `Endian`, the examples: plumbing.
