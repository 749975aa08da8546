# Verification of the Hermit kernel, kio, libmoq and the matrix demo

Dafny models of the concurrent and arithmetic core of this repository, with proofs over all inputs and all runs.

Code that shares state between cores, threads or async tasks is modelled twice. First as a transition system whose
steps are the atomic pieces of the code: a region under a lock, one atomic read-modify-write, one turn of a retry
loop, one callback. Every interleaving is a sequence of such steps, and the theorems hold in every reachable state.
Then as a class whose methods do the same on mutable fields, with the source's branches and loops, and are proved to
take exactly that step.

- `Bits`, `ZMatrix`, `MatMul`: the four matrix multiplications of the demo, over exact integers. All are proved
  against the mathematical product.
- `TaskQueue`: the priority queue of the kernel, one FIFO for each priority and a bitmap, against the list of tasks in
  order of arrival.
- `Futex`, `FutexWaits`, `FutexKernel`, `TaskNotify`: waits with timeouts, stray wakeups and wakes that overlap in any way, and the
  token protocol on top.
- `KioWaiters`, `KioChannel`, `KioRuns`, `KioHistory`, `KioHandles`, `KioFuture`: the kio channel, with reference counts
  that change outside the lock, and the futures that wait on it.
- `Scheduler`, `SchedulerWakes`, `SchedulerCore`, `Join`: one core's scheduler, and waiting for a task to exit.
- `WaitQueue`, `Semaphore`, `RecMutex`: the blocking primitives.
- `Timers`: the shared one-shot timer, and the sleepers that depend on it.
- `Getdents`, `RamFile`, `RamFileLaws`, `RamFileIo`: directory listings, RAM files, `readv` and `writev`.
- `MoqConsume`, `MoqCallbacks`, `MoqSlab`: handles and callbacks of libmoq.
- `HeapMap`, `PhysicalMem`: mapping the heap, and the free frames after the device tree has been read.
- `Numbers`, `Bytes`, `Options`, `Sets`: what several of them share.

Where the code does not do what one might expect, the model follows the code:

- `SplayedBitsCounter` has 32-bit masks, so `seq_matmulz` does not terminate for lengths from 4^16 on
  (`MatMul.CounterStops` is the exact condition). The recursive variants call it only on short matrices.
- `create_timer_abs` keeps the earlier of the old and the new time, although its sibling is documented as overriding.
  A timer for `u64::MAX` while none is pending sets the hardware timer (`Timers.CreateKeepsArmed` is the exact condition).
- `lseek` on a RAM file beyond its end extends the file, even if it only asks for the position after a truncation
  (`RamFileLaws.SeekNowhere` is the exact condition).
- `readv` and `writev` without buffers return 0 even on a closed descriptor (`RamFileIo.VectoredIsSingle`).
- A task parked in a semaphore or a recursive mutex that is woken by anything but a release queues itself a second time,
  and a later release may pop the stale handle and wake nobody (`Semaphore.StrayWakeupLosesRelease`,
  `RecMutex.StrayWakeupLosesRelease`). `Semaphore.NoLostRelease` and `RecMutex.NoLostRelease` are the exact conditions. Such wakeups
  exist: one for a task of another core waits in that core's inbox and reaches the task wherever it is blocked by then.
- Ids of libmoq repeat once the 32-bit counter has wrapped (`MoqConsume.IdsRepeatExactlyOnWrap`). A task that starts on
  the number of an unfinished one takes over its entry (`MoqConsume.WrappedIdOverwrites`), which breaks the order of
  callbacks (`MoqConsume.ClashBreaksOrder`). `MoqConsume.RunIsGood` is the exact condition.

Atomics are taken as sequentially consistent. Clocks, the results of `select`, the frames the allocator finds and
which waiters are alive are parameters or steps.

## Model

| member | source | states |
|---|---|---|
| MatMul.SplayedBitsCounter.Next | hermit-rs/examples/demo/src/matmul.rs:49-62 | one call yields the even bits of the counter if below the bound and advances past the odd bits, otherwise yields nothing and keeps the counter |
| MatMul.CounterYields | hermit-rs/examples/demo/src/matmul.rs:46-62 | call number t yields the spread of t (its bits at the even positions), for every t the 32-bit masks can hold |
| MatMul.CounterCoversSide | hermit-rs/examples/demo/src/matmul.rs:46-62 | for length 4^k, k at most 15, the counter yields the spreads of 0 to 2^k - 1 in order and then nothing |
| MatMul.CounterStops | hermit-rs/examples/demo/src/matmul.rs:35-62 | the counter ever stops if and only if its bound is at most 0x5555_5555; for lengths from 4^16 on it never ends |
| MatMul.InnerProductZ | hermit-rs/examples/demo/src/matmul.rs:85-101 | the innermost loop sums row i of a times column j of b, every index in range, and ends |
| MatMul.SeqMatMulZ | hermit-rs/examples/demo/src/matmul.rs:76-103 | writes the mathematical product of two Z-order matrices, for every length 4^k with k at most 15 |
| MatMul.QuartersAreBlocks | hermit-rs/examples/demo/src/matmul.rs:109-125 | the four quarters of a Z-order matrix are its four blocks |
| ZMatrix.ProductBlock | hermit-rs/examples/demo/src/matmul.rs:190-204 | a block of a product is the sum of the two products of blocks |
| ZMatrix.ProductAt | hermit-rs/examples/demo/src/matmul.rs:76-103 | the product's entry at row i and column j is the inner product of row i and column j |
| ZMatrix.ProductWithIdentity | hermit-rs/examples/demo/src/matmul.rs:76-103 | the identity matrix is the unit of the product on both sides |
| MatMul.EightProducts | hermit-rs/examples/demo/src/matmul.rs:179-208 | the two groups of four block products, added up, are the product |
| MatMul.MatMulZ | hermit-rs/examples/demo/src/matmul.rs:179-208 | the eight-way recursion writes the same product, for every power-of-four length, and terminates |
| ZMatrix.ProductLeft | hermit-rs/examples/demo/src/matmul.rs:247-273 | multiplication distributes over sums and differences of left factors |
| ZMatrix.ProductRight | hermit-rs/examples/demo/src/matmul.rs:247-273 | multiplication distributes over sums and differences of right factors |
| MatMul.StrassenIdentity | hermit-rs/examples/demo/src/matmul.rs:220-239 | the seven Strassen products recombine to the four blocks of the product |
| MatMul.StrassenSevenMultiplies | hermit-rs/examples/demo/src/matmul.rs:220-231 | the seven products and their sums write the four sums of block products into the four quarters |
| MatMul.StrassenRecombine | hermit-rs/examples/demo/src/matmul.rs:232-239 | the recombination writes the four sums into the four quarters and nothing else |
| MatMul.MatMulStrassen | hermit-rs/examples/demo/src/matmul.rs:210-240 | writes the same product as the other variants, for every power-of-four length, and terminates on the quarter length |
| MatMul.RMatSum | hermit-rs/examples/demo/src/matmul.rs:302-306 | adds one matrix into a slice in place |
| MatMul.RCopy | hermit-rs/examples/demo/src/matmul.rs:314-324 | copies a matrix into a slice by recursion on halves |
| MatMul.SeqMatMul | hermit-rs/examples/demo/src/matmul.rs:12-31 | writes the row-major product |
| MatMul.RowMajorAgreesWithZOrder | hermit-rs/examples/demo/src/matmul.rs:12-31 | a row-major product, permuted into Z-order, is the Z-order product of the permuted operands |
| Bits.MortonOfRowCol | hermit-rs/examples/demo/src/matmul.rs:81-95 | every index is the interleaving of its row and column bits |
| Bits.RowColOfMorton | hermit-rs/examples/demo/src/matmul.rs:81-95 | interleaving is undone by taking even and odd bits |
| TaskQueue.TaskHandlePriorityQueue.Msb | hermit-rs/kernel/src/scheduler/task/mod.rs:38-40 | the most significant set bit, or none for an empty bitmap |
| TaskQueue.TaskHandlePriorityQueue.Push | hermit-rs/kernel/src/scheduler/task/mod.rs:184-196 | appends to the arrival order; bitmap and levels stay in step with it |
| TaskQueue.TaskHandlePriorityQueue.Pop | hermit-rs/kernel/src/scheduler/task/mod.rs:198-215 | takes the earliest arrival of the highest priority, or nothing from an empty queue |
| TaskQueue.TaskHandlePriorityQueue.PopWithPrio | hermit-rs/kernel/src/scheduler/task/mod.rs:323-331 | takes the next task only if its priority is at least the given one |
| TaskQueue.TaskHandlePriorityQueue.Has | hermit-rs/kernel/src/scheduler/task/mod.rs:178-181 | finds a task by id at its priority, and only then |
| TaskQueue.TaskHandlePriorityQueue.Remove | hermit-rs/kernel/src/scheduler/task/mod.rs:219-241 | removes every entry of the task and keeps the order of the others; true exactly if there was one |
| TaskQueue.LevelWithout | hermit-rs/kernel/src/scheduler/task/mod.rs:198-208 | taking the earliest of a priority drops the head of that level and leaves all other levels |
| Futex.StepKeepsInv | hermit-rs/kernel/src/synch/futex.rs:37-237 | every locked region, scheduler step and clock tick keeps the invariant of the parking lot |
| Futex.RunKeepsInv | hermit-rs/kernel/src/synch/futex.rs:37-237 | so does every interleaving |
| Futex.ReturnCodes | hermit-rs/kernel/src/synch/futex.rs:55-96 | a wait has returned 0 exactly if a wake popped it and ETIMEDOUT exactly if none did |
| Futex.WakeAccounting | hermit-rs/kernel/src/synch/futex.rs:172-237 | the wakes reported (plus what saturation hid) are the waits that returned 0 plus those popped and not yet returned |
| Futex.NoEmptyQueue | hermit-rs/kernel/src/synch/futex.rs:66-96 | the lot never keeps an empty queue; every handle in it belongs to exactly one wait at that address |
| Futex.NoStrandedSleeper | hermit-rs/kernel/src/synch/futex.rs:55-96 | a sleeping waiter is still queued or has a wakeup on the way to its core |
| Futex.PoppedWaitReturns | hermit-rs/kernel/src/scheduler/mod.rs:405-421 | a popped wait returns 0 once its core has read its inbox, whatever timeouts or stray wakeups came between |
| Futex.ExpiredWaitTimesOut | hermit-rs/kernel/src/synch/futex.rs:69-82 | an expired wait that no wake popped returns ETIMEDOUT and leaves no handle behind |
| FutexWaits.ResumeDecides | hermit-rs/kernel/src/synch/futex.rs:55-96 | in every reachable state a turn lets the wait sleep on, queued as before and blocked until the same time, if and only if no wake has popped it and its time has not come; otherwise it returns 0 if popped and ETIMEDOUT if not |
| FutexWaits.ResumeKeepsOthers | hermit-rs/kernel/src/synch/futex.rs:69-82 | such a turn leaves every other handle queued, in order; a timeout takes out exactly its own |
| FutexWaits.WaitLastsUntilItsTime | hermit-rs/kernel/src/synch/futex.rs:43-96 | from parking on, whatever happens meanwhile, a wait sleeps on exactly until a wake pops it or the timeout it was given has run out: an absolute time, or that long after it parked, if that fits 64 bits |
| FutexWaits.TimedOutOnTime | hermit-rs/kernel/src/synch/futex.rs:69-86 | over every run, a wait that returned ETIMEDOUT had a wakeup time that had come at that step, and was not popped |
| FutexWaits.ParksOnTheLastValue | hermit-rs/kernel/src/synch/futex.rs:37-58 | over every run, a wait parks, last in its queue, if and only if the last value written to its word is the one it expects; otherwise EAGAIN and nobody sleeps |
| FutexWaits.WordIsLastWritten | hermit-rs/kernel/src/synch/futex.rs:107-237 | the word at an address is the last value written: by a store, by a wait with a new value whether it parks or not, or by a wake-or-set that wakes nobody |
| FutexWaits.RousedForAReason | hermit-rs/kernel/src/synch/futex.rs:184-196 | a sleeping wait is unblocked if and only if a wake of its core pops it, a wakeup addressed to it has reached its core, or its time has passed |
| FutexWaits.WakeOrSetWakes | hermit-rs/kernel/src/synch/futex.rs:204-237 | wakes exactly as the plain wake does for every count, and sets the word exactly if nobody was woken; both refuse a negative count |
| Futex.WakeLoopCounts | hermit-rs/kernel/src/synch/futex.rs:184-196 | the loop wakes the smaller of count and queue length (all for i32::MAX) and returns that number, saturated |
| Futex.WakeLoopOrder | hermit-rs/kernel/src/synch/futex.rs:184-196 | no task left has a higher priority than one taken, and of each priority those taken came before those left |
| Futex.WakeReturns | hermit-rs/kernel/src/synch/futex.rs:172-198 | the value returned, the shortened queue, and every other queue untouched |
| FutexKernel.Kernel.EnterWait | hermit-rs/kernel/src/synch/futex.rs:37-53 | up to the first reschedule, code and whole new state are those of the parking step: EAGAIN on a different value (after the swap, if any), otherwise blocked and queued |
| FutexKernel.Kernel.ResumeWait | hermit-rs/kernel/src/synch/futex.rs:55-96 | one turn of the loop, code and new state: 0 if no longer queued, ETIMEDOUT and removal if expired and queued, otherwise blocked again |
| FutexKernel.Kernel.WakeQueue | hermit-rs/kernel/src/synch/futex.rs:184-192 | the loop pops, wakes and counts (saturating) exactly as its recursive specification, and ends |
| FutexKernel.Kernel.Wake | hermit-rs/kernel/src/synch/futex.rs:172-198 | EINVAL for a negative count, 0 without waiters, otherwise the loop and the removal of an empty queue |
| FutexKernel.Kernel.WakeOrSetWord | hermit-rs/kernel/src/synch/futex.rs:204-237 | as above, and the word is set if nobody was woken |
| TaskNotify.NotifyWait | hermit-rs/kernel/src/executor/mod.rs:76-82 | a wait consumes a set token and returns at once, or parks if it is not set |
| TaskNotify.NotifyWake | hermit-rs/kernel/src/executor/mod.rs:90-92 | a wake unparks exactly one waiter if there is one and otherwise leaves the token |
| TaskNotify.NotifyInitial | hermit-rs/kernel/src/executor/mod.rs:69-74 | the protocol holds at the start, with the word 0 and nobody parked |
| TaskNotify.NotifyRun | hermit-rs/kernel/src/executor/mod.rs:64-93 | in every run the word is 0 or u32::MAX, the token excludes parked waiters, and it stays until a wait takes it |
| TaskNotify.NotificationNotLost | hermit-rs/kernel/src/executor/mod.rs:64-93 | a wake that finds nobody makes the next wait return without parking, whatever happens in between |
| KioWaiters.Register | relay/rs/kio/src/waiter.rs:73-89 | registering adds the entry, loses no live entry, keeps the cursor valid and grows the list by at most one |
| KioWaiters.RegisterReuses | relay/rs/kio/src/waiter.rs:73-89 | the first dead one of the two slots from the cursor on is reused in place, and only if both are alive the list grows; the cursor moves past the live slots seen |
| KioWaiters.WaiterList.RegisterWaiter | relay/rs/kio/src/waiter.rs:73-89 | the loop over up to two slots leaves entries and cursor as specified: first dead slot reused, otherwise appended |
| KioWaiters.WaiterList.Take | relay/rs/kio/src/waiter.rs:92-98 | hands over all entries and leaves an empty list |
| KioWaiters.WaiterList.Wake | relay/rs/kio/src/waiter.rs:101-106 | wakes exactly the live entries, in order, and drains the list |
| KioWaiters.LiveEntriesAre | relay/rs/kio/src/waiter.rs:101-106 | the live entries are those entries whose waiter is alive |
| KioWaiters.LiveEntriesConcat | relay/rs/kio/src/waiter.rs:101-106 | and they are in the order of the list |
| KioRuns.StepKeepsInv | relay/rs/kio/src/producer.rs:40-333 | every count step, lock region, poll and wake keeps the channel's invariant |
| KioRuns.RunKeepsInv | relay/rs/kio/src/producer.rs:40-333 | so does every interleaving |
| KioRuns.PendingNeverLost | relay/rs/kio/src/consumer.rs:32-52 | in every reachable state a live waiter whose poll was pending is in its list or in a batch being woken, until it is woken |
| KioRuns.NoMissedWakeup | relay/rs/kio/src/producer.rs:143-193 | in every reachable state a live, pending, unwoken waiter is in a batch being woken, or what it awaits has not happened (channel open, value unchanged, consumer count as it was), or the operation that changed the count has yet to drain it |
| KioRuns.QuietMeansNotYet | relay/rs/kio/src/producer.rs:143-193 | with nothing under way what such a waiter awaits has not happened |
| KioRuns.SomethingCanFinish | relay/rs/kio/src/producer.rs:236-333 | while any operation is under way, some operation can take its next step |
| KioRuns.FinishingEnds | relay/rs/kio/src/producer.rs:236-333 | if nothing new is begun, what is under way takes at most a number of steps known beforehand, in any order |
| KioRuns.ComesToRest | relay/rs/kio/src/producer.rs:236-333 | from every state that keeps the invariant a run that begins nothing new leads to one with nothing under way |
| KioRuns.WakesAreIsolated | relay/rs/kio/src/lib.rs:30-45 | value changes wake only value waiters that saw an older value, consumer churn only count waiters, and closing wakes need a closed channel |
| KioRuns.OpenHasProducer | relay/rs/kio/src/producer.rs:237-262 | an open channel has a positive producer count or a last drop between its decrement and its lock |
| KioRuns.QuiescentWithoutProducersIsClosed | relay/rs/kio/src/producer.rs:237-262 | with nothing under way and no producer handle the channel is closed |
| KioRuns.ClosedIsFinal | relay/rs/kio/src/producer.rs:65-72 | over any run from a closed state it stays closed, the value does not change and no poll registers |
| KioHistory.ValueOfRun | relay/rs/kio/src/producer.rs:65-72 | over every run the value is that of the last write that mutated while the channel was open, or the first value if there was none; the channel is closed exactly if a guard or the last producer closed it |
| KioHistory.StepValue | relay/rs/kio/src/producer.rs:282-333 | a step changes the value only if it is such a write, and counts as a change exactly if a guard mutated or closed an open channel |
| KioHistory.PollRegisters | relay/rs/kio/src/consumer.rs:32-78 | a poll for a value or for closure leaves one new, pending, listed registration that has seen all changes so far, exactly if it is not ready and the channel is open |
| KioHistory.CountPollRegisters | relay/rs/kio/src/weak.rs:96-145 | a poll for the consumer count is decided at once if closed or, through a strong handle, if the count is as awaited; otherwise it is listed and holds the lock |
| KioHistory.CountPollDecides | relay/rs/kio/src/producer.rs:155-161 | the second load under that lock leaves it pending exactly if the count is not as awaited |
| KioHistory.StepHandles | relay/rs/kio/src/producer.rs:226-243 | handles are exactly those made by consume, clone and an upgrade that finds the channel open, without those dropped |
| KioRuns.CountsMatchHandles | relay/rs/kio/src/consumer.rs:98-115 | counts equal the handles plus upgrades under way, so no decrement underflows |
| KioFuture.PendingFutureIsKept | relay/rs/kio/src/waiter.rs:144-158 | over any run of polls, each of which replaces the waiter and asks any number of questions, drops and channel steps: a future left pending keeps a live waiter registered in each list it was left pending on until woken there, and with nothing under way what it awaits there has not happened |
| KioFuture.EventKeepsInv | relay/rs/kio/src/waiter.rs:144-158 | each poll, drop and channel step keeps the futures' waiters alive and their own |
| KioFuture.WaitersAreTheFutures | relay/rs/kio/src/waiter.rs:151-157 | over every run in which only futures make waiters, the waiters alive are exactly those of the futures: replaced ones and those of dropped futures are gone |
| KioHandles.Channel.Write | relay/rs/kio/src/producer.rs:284-333 | the write step; returns whether the channel was open and exactly the drained entries: the value waiters on modification, all three lists on closing, none on a closed channel or without change |
| KioHandles.Channel.PollValue | relay/rs/kio/src/consumer.rs:32-52 | pending exactly if not ready and open, and then registered |
| KioHandles.Channel.PollClosed | relay/rs/kio/src/consumer.rs:70-78 | pending exactly if open, and then registered |
| KioHandles.Channel.PollCount | relay/rs/kio/src/weak.rs:96-145 | used and unused polls up to the registration, for strong and weak handles |
| KioHandles.Channel.FinishPoll | relay/rs/kio/src/producer.rs:155-161 | the second load under the lock decides between ready and pending |
| KioHandles.Channel.Consume | relay/rs/kio/src/producer.rs:40-53 | counts a consumer; true exactly for the first, which has yet to lock |
| KioHandles.Channel.DropConsumer | relay/rs/kio/src/consumer.rs:141-147 | uncounts a consumer; true exactly for the last, which has yet to lock |
| KioHandles.Channel.DropProducer | relay/rs/kio/src/producer.rs:237-243 | uncounts a producer; true exactly for the last, which has yet to lock |
| KioHandles.Channel.DrainCount | relay/rs/kio/src/consumer.rs:149-158 | takes all count waiters, and returns exactly those |
| KioHandles.Channel.CloseByDrop | relay/rs/kio/src/producer.rs:245-261 | closes and returns exactly the entries of all three lists, unless closed already |
| KioHandles.Channel.BeginUpgrade | relay/rs/kio/src/weak.rs:26-29 | counts a producer before looking |
| KioHandles.Channel.FinishUpgrade | relay/rs/kio/src/weak.rs:31-43 | a handle if open, otherwise the count is given back |
| Scheduler.EveryRun | hermit-rs/kernel/src/scheduler/mod.rs:236-298 | over every sequence of spawns, blocks, wakeups, timer ticks, exits and decisions the invariant holds, and after a decision the right task runs |
| Scheduler.OnePlace | hermit-rs/kernel/src/scheduler/mod.rs:734-835 | every spawned, unreleased task is in exactly one of running, ready, blocked, finished or inbox, the one its status names, both ways |
| Scheduler.IdleNotQueued | hermit-rs/kernel/src/scheduler/mod.rs:774-778 | the idle task is in no queue |
| Scheduler.StepKeepsInv | hermit-rs/kernel/src/scheduler/mod.rs:396-429 | each step keeps the invariant; a decision also leaves no ready task above the running one, and idles only without ready tasks |
| Scheduler.SwitchDecides | hermit-rs/kernel/src/scheduler/mod.rs:753-804 | after a decision the current task is running or idle and no ready task has a higher priority |
| Scheduler.StepTasks | hermit-rs/kernel/src/scheduler/mod.rs:236-298 | only spawning adds tasks and only releasing finished ones removes them |
| Scheduler.ReleasedOnlyWhenFinished | hermit-rs/kernel/src/scheduler/mod.rs:669-674 | a released task has exited and is neither current nor idle |
| Scheduler.TimerWakesTheElapsed | hermit-rs/kernel/src/scheduler/task/mod.rs:606-622 | the timer moves exactly the sleepers whose time has passed to the ready queue, in order, and keeps the rest |
| Scheduler.AddKeepsSorted | hermit-rs/kernel/src/scheduler/task/mod.rs:540-562 | the insertion keeps the blocked queue sorted by wakeup time |
| Scheduler.FrontWakesFirst | hermit-rs/kernel/src/scheduler/task/mod.rs:606-629 | the front of the blocked queue has the earliest wakeup time |
| Scheduler.RoundRobin | hermit-rs/kernel/src/scheduler/mod.rs:753-799 | a task at position k of its level runs after at most k + 1 decisions, if at none of them a strictly higher priority is running or ready |
| SchedulerWakes.WakeReadies | hermit-rs/kernel/src/scheduler/task/mod.rs:565-600 | a wakeup readies exactly the task it names, last in the ready queue and no longer asleep, if that task sleeps; every other task keeps status and place, and a wakeup of any other task changes nothing |
| SchedulerWakes.CheckInputReadies | hermit-rs/kernel/src/scheduler/mod.rs:677-690 | exactly the sleeping tasks named in the inbox become ready, in the order in which they are first named, then the new tasks in order; all others keep status and place, and the inbox is empty |
| SchedulerWakes.RousedAreTheNamed | hermit-rs/kernel/src/scheduler/mod.rs:677-690 | those named are the sleeping tasks with a wakeup in the inbox, each once |
| SchedulerWakes.BlockSleeps | hermit-rs/kernel/src/scheduler/task/mod.rs:525-562 | blocking puts the current task, and only it, among the sleepers with the time given, behind all that do not wake later and before those that do |
| SchedulerWakes.SleepsUntilRoused | hermit-rs/kernel/src/scheduler/task/mod.rs:565-622 | from blocking on, over every run, a task sleeps exactly until a wakeup names it or a timer finds its time strictly past, and is ready then |
| SchedulerWakes.PriorityOverRuns | hermit-rs/kernel/src/scheduler/mod.rs:609-614 | over every run a task has the priority it was spawned with, or the last one it gave itself |
| SchedulerWakes.SpawnArrives | hermit-rs/kernel/src/scheduler/mod.rs:236-298 | a task spawned here goes to the end of the level of its priority, one spawned elsewhere to the end of the inbox |
| SchedulerWakes.WokenArrives | hermit-rs/kernel/src/scheduler/mod.rs:397-403 | a woken task goes to the end of the level of its priority, from which round robin takes it |
| SchedulerWakes.ExitedTaskGoes | hermit-rs/kernel/src/scheduler/mod.rs:171-205 | an exited task is switched away from at the next decision and released by the next cleanup |
| SchedulerCore.PerCoreScheduler.Spawn | hermit-rs/kernel/src/scheduler/mod.rs:236-280 | queues the new task as ready at its priority, with levels and bitmap in step, and changes nothing else |
| SchedulerCore.PerCoreScheduler.CustomWakeup | hermit-rs/kernel/src/scheduler/task/mod.rs:565-600 | a blocked task moves to the ready queue; a wakeup of any other changes nothing |
| SchedulerCore.PerCoreScheduler.CheckInput | hermit-rs/kernel/src/scheduler/mod.rs:677-690 | all wakeups in order, then all new tasks in order, have moved on, and the inbox is empty |
| SchedulerCore.PerCoreScheduler.BlockCurrentTask | hermit-rs/kernel/src/scheduler/task/mod.rs:525-562 | the current task is marked blocked and inserted before the first later wakeup time, or last without one |
| SchedulerCore.PerCoreScheduler.HandleWaitingTasks | hermit-rs/kernel/src/scheduler/task/mod.rs:606-622 | exactly the sleepers with a wakeup time before now have moved to the ready queue |
| SchedulerCore.PerCoreScheduler.Exit | hermit-rs/kernel/src/scheduler/mod.rs:171-187 | the current task is marked finished and nothing else changes |
| SchedulerCore.PerCoreScheduler.CleanupTasks | hermit-rs/kernel/src/scheduler/mod.rs:669-674 | all finished tasks are gone from the table, and only those |
| SchedulerCore.PerCoreScheduler.Schedule | hermit-rs/kernel/src/scheduler/mod.rs:734-835 | on the priority queue with its bitmap the new state is the specified decision, the invariant holds, no ready task is above the running one, and a switch is reported exactly if the current task changed |
| Join.JoinReturns | hermit-rs/kernel/src/scheduler/mod.rs:925-948 | once its target has exited a joiner returns after its core has read its inbox |
| Join.JoinWaits | hermit-rs/kernel/src/scheduler/mod.rs:934-947 | a turn ends the join if the target has exited; otherwise an exit of the target on any core unblocks the joiner or puts its handle into its core's inbox |
| Join.JoinEndsExactly | hermit-rs/kernel/src/scheduler/mod.rs:925-948 | over every run a turn ends the join if and only if its target was never spawned or has exited; otherwise the joiner blocks, last in the queue of its target |
| Join.WakeAllWakes | hermit-rs/kernel/src/scheduler/mod.rs:192-197 | exiting wakes every task in the queue, directly or through an inbox, and no other |
| Join.WaitingTasks.JoinTurn | hermit-rs/kernel/src/scheduler/mod.rs:934-947 | returns true without effect if the target has no queue, otherwise queues and blocks the caller |
| Join.WaitingTasks.WakeJoiners | hermit-rs/kernel/src/scheduler/mod.rs:192-199 | the queue is gone and each task that was in it is unblocked here or has a wakeup in an inbox |
| Semaphore.NoLostRelease | hermit-rs/kernel/src/synch/semaphore.rs:68-152 | over any run, with any stray wakeups: while tasks are parked every available resource always has a woken task coming for it, if and only if each release pops the handle of a parked task, or nobody is parked, or enough woken tasks are already there |
| Semaphore.ReleaseCovered | hermit-rs/kernel/src/synch/semaphore.rs:141-152 | a release keeps every resource covered if and only if the handle it pops is of a parked task, or nobody is parked, or one more than the count is already woken |
| Semaphore.StepKeepsCovered | hermit-rs/kernel/src/synch/semaphore.rs:68-135 | no other step, a stray wakeup included, leaves a resource without a taker |
| Semaphore.Conserved | hermit-rs/kernel/src/synch/semaphore.rs:68-152 | over every run the count is what it was plus the releases minus the acquires that succeeded, and these never exceed what there was plus the releases |
| Semaphore.AttemptDecides | hermit-rs/kernel/src/synch/semaphore.rs:77-123 | a turn succeeds exactly if the count is positive; otherwise the task parks, last in the queue, unless it spins |
| Semaphore.ReleaseWakesNext | hermit-rs/kernel/src/synch/semaphore.rs:141-152 | a release takes out the longest waiting handle of the highest priority, and of all tasks wakes only that one, if parked |
| Semaphore.QuietRunLosesNothing | hermit-rs/kernel/src/synch/semaphore.rs:68-152 | a run without stray wakeups loses no release |
| Semaphore.StrayWakeupLosesRelease | hermit-rs/kernel/src/synch/semaphore.rs:95-122 | a run in which a task woken by mistake queues itself twice and later swallows the wakeup of the task behind it |
| Semaphore.CountingSemaphore.Attempt | hermit-rs/kernel/src/synch/semaphore.rs:77-123 | one turn: takes a resource exactly if the count is positive, otherwise spins or parks at its priority |
| Semaphore.CountingSemaphore.TryAcquire | hermit-rs/kernel/src/synch/semaphore.rs:126-135 | takes a resource exactly if there is one |
| Semaphore.CountingSemaphore.Release | hermit-rs/kernel/src/synch/semaphore.rs:141-152 | counts up and wakes the longest waiting task of the highest priority |
| RecMutex.MutualExclusion | hermit-rs/kernel/src/synch/recmutex.rs:28-63 | over every run, with any stray wakeups: the successful acquires of a task minus its releases are what the mutex counts for it, and positive for at most one task, the owner |
| RecMutex.AttemptDecides | hermit-rs/kernel/src/synch/recmutex.rs:33-62 | an attempt succeeds exactly if the mutex is free or the caller's; otherwise the task parks, last in the queue |
| RecMutex.ReleaseWakesNext | hermit-rs/kernel/src/synch/recmutex.rs:65-89 | only the last release wakes, and then only the longest waiting handle of the highest priority, if its task is parked |
| RecMutex.NoLostRelease | hermit-rs/kernel/src/synch/recmutex.rs:65-89 | over any run, with any stray wakeups: a free mutex with a parked task always has a woken task about to retry, if and only if each release keeps the mutex, or pops the handle of a parked task, or nobody is parked, or a woken task is already there |
| RecMutex.ReleaseCovered | hermit-rs/kernel/src/synch/recmutex.rs:65-89 | a release leaves a free mutex with a taker if and only if the count stays positive, or the popped handle is of a parked task, or nobody is parked, or a woken task is already there |
| RecMutex.StepKeepsCovered | hermit-rs/kernel/src/synch/recmutex.rs:28-63 | no other step, a stray wakeup included, leaves a free mutex without a taker |
| RecMutex.QuietRunLosesNothing | hermit-rs/kernel/src/synch/recmutex.rs:28-89 | a run without stray wakeups loses no release |
| RecMutex.StrayWakeupLosesRelease | hermit-rs/kernel/src/synch/recmutex.rs:33-89 | a run in which a task woken by mistake queues itself twice and its own release pops its stale handle: the mutex is free, a task is parked, nobody is woken |
| RecMutex.ReleaseUndoesAcquire | hermit-rs/kernel/src/synch/recmutex.rs:28-89 | a release takes back what an acquire added |
| RecMutex.RecursiveMutex.Attempt | hermit-rs/kernel/src/synch/recmutex.rs:33-62 | one turn: acquires exactly if free or owned by the caller (counting up), otherwise parks |
| RecMutex.RecursiveMutex.Release | hermit-rs/kernel/src/synch/recmutex.rs:65-89 | counts down; at zero the mutex is free, and the handle to wake is the earliest of the highest priority, if there is one |
| Timers.CreateKeepsArmed | hermit-rs/kernel/src/scheduler/timer_interrupts.rs:101-114 | after creating a timer the hardware equals the earliest pending slot, if and only if it is not a timer for u64::MAX while none is pending |
| Timers.CreateChangesOneSlot | hermit-rs/kernel/src/scheduler/timer_interrupts.rs:101-114 | creating a timer leaves the other source's slot unchanged and makes its own the earlier of old and new; the hardware is then the earlier of both slots |
| Timers.NeverTimerArmsHardware | hermit-rs/kernel/src/scheduler/timer_interrupts.rs:101-114 | the input for which it does not |
| Timers.FiredKeepsArmed | hermit-rs/kernel/src/scheduler/timer_interrupts.rs:117-153 | after an interrupt the hardware is right again; after an early one the other timer is as far ahead of now as it was behind the one that fired, otherwise it is unchanged; no underflow |
| Timers.NobodyOversleeps | hermit-rs/kernel/src/scheduler/task/mod.rs:540-629 | outside the interrupt handler the hardware fires no later than the wakeup time of any sleeper |
| Timers.NetworkTimerOnTime | hermit-rs/kernel/src/scheduler/timer_interrupts.rs:101-153 | over every run the hardware is set no later than any network timer created since the network slot last fired; if no interrupt came early, that slot is exactly the earliest of them |
| Timers.InterruptFindsTimer | hermit-rs/kernel/src/scheduler/timer_interrupts.rs:120-121 | an interrupt while the hardware is set always finds a pending slot, so the assertion holds |
| Timers.TimerList.NextTimer | hermit-rs/kernel/src/scheduler/timer_interrupts.rs:56-71 | the first slot with the least wakeup time |
| Timers.TimerList.CreateTimerAbs | hermit-rs/kernel/src/scheduler/timer_interrupts.rs:101-114 | the slot is the earlier of old and new time, and the hardware is set if that is the earliest |
| Timers.TimerList.AdjustBy | hermit-rs/kernel/src/scheduler/timer_interrupts.rs:74-80 | brings all set slots forward |
| Timers.TimerList.ClearActiveAndSetNext | hermit-rs/kernel/src/scheduler/timer_interrupts.rs:117-153 | clears the earliest slot, adjusts the other if early, and arms the next or switches off |
| Getdents.MemDirectoryInterface.Getdents | hermit-rs/kernel/src/fs/mem.rs:389-432 | as many whole records as fit, decodable, rest of the buffer untouched; 0 exactly at the end; EINVAL with position and buffer unchanged exactly if not even one fits |
| Getdents.WriteDirent | hermit-rs/kernel/src/fs/mem.rs:410-426 | writes one record with inode 1, its length, the name and its NUL, whatever the padding |
| Getdents.DecodeReads | hermit-rs/kernel/src/syscalls/mod.rs:736-748 | walking a listing by record length yields exactly the names |
| Getdents.AnswersDecode | hermit-rs/kernel/src/fs/mem.rs:389-432 | what one call returns decodes to the keys from the old to the new position |
| Getdents.ListingIsComplete | hermit-rs/kernel/src/syscalls/mod.rs:797-812 | for any sequence of buffer sizes the names of all calls are the keys from the start on, each once and in order; after a 0 they are all of them |
| Getdents.ListingEnds | hermit-rs/kernel/src/fs/mem.rs:389-432 | with buffers large enough for any record, as many calls as keys read them all |
| Getdents.FittingIsMost | hermit-rs/kernel/src/fs/mem.rs:399-408 | as many records as fit: those fit together, and with the next one they do not |
| Getdents.MemDirectoryInterface.Lseek | hermit-rs/kernel/src/fs/mem.rs:438-445 | absolute offsets, or 0, set the position (a negative one wraps); others fail and change nothing |
| RamFile.LastWriterWins | hermit-rs/kernel/src/fs/mem.rs:155-244 | over any history through any handles, if k is the last operation that wrote position i or truncated at or below it, the byte is the one it wrote there, or 0 |
| RamFile.UntouchedStays | hermit-rs/kernel/src/fs/mem.rs:155-244 | a byte that no operation wrote or cut off is the initial one, or 0 beyond the initial end |
| RamFile.CursorsAreIndependent | hermit-rs/kernel/src/fs/mem.rs:134-139 | over any history a cursor moves only by operations through its own handle |
| RamFile.RunsStayBounded | hermit-rs/kernel/src/fs/mem.rs:205-232 | lengths and cursors stay within isize |
| RamFile.ReadBack | hermit-rs/kernel/src/fs/mem.rs:155-203 | what was written is read back, other bytes stay, and a gap reads as zeros |
| RamFile.WrittenTwice | hermit-rs/kernel/src/fs/mem.rs:183-203 | two consecutive writes are one write of the concatenation |
| RamFile.ChunkTwice | hermit-rs/kernel/src/fs/mem.rs:155-181 | a read is a shorter read followed, if that was full, by a read of the rest |
| RamFileLaws.SeekGoesToTarget | hermit-rs/kernel/src/fs/mem.rs:205-232 | a seek counts from the start, the cursor or the end; it fails exactly if the target is negative or beyond isize::MAX or whence is unknown, with the right errno and no change; otherwise it goes to and answers its target, and no byte changes |
| RamFileLaws.SeekNowhere | hermit-rs/kernel/src/fs/mem.rs:205-232 | a seek by 0 from the cursor answers the cursor, and changes nothing if and only if the cursor is not beyond the end |
| RamFileLaws.SeekTwice | hermit-rs/kernel/src/fs/mem.rs:205-232 | two accepted seeks from the cursor end where one by their sum does |
| RamFileLaws.ReadTail | hermit-rs/kernel/src/fs/mem.rs:155-232 | a seek by -n from the end, then a read of n, yields the last n bytes |
| RamFileLaws.ChunkIs | hermit-rs/kernel/src/fs/mem.rs:155-181 | a read yields the bytes from the cursor on, as many as asked for and there are, and none at or beyond the end |
| RamFileLaws.ReadTwice | hermit-rs/kernel/src/fs/mem.rs:155-181 | two reads in turn through a handle yield what one read of both lengths does, and leave the same file |
| RamFileLaws.WriteTwice | hermit-rs/kernel/src/fs/mem.rs:183-203 | two writes in turn through a handle leave the same file as one of the concatenation |
| RamFileLaws.WriteBackRead | hermit-rs/kernel/src/fs/mem.rs:155-232 | a write, a seek back by its length and a read of its length yield the data, and the file as after the write |
| RamFileLaws.OpenReadsFromStart | hermit-rs/kernel/src/fs/mem.rs:253-260 | a new handle reads from the beginning |
| RamFileLaws.LastOneSettles | hermit-rs/kernel/src/fs/mem.rs:183-244 | over any history through any handles, whether position i is part of the file is decided by the last write or seek beyond it, or truncation |
| RamFileIo.RamFileInterface.Read | hermit-rs/kernel/src/fs/mem.rs:155-181 | copies the bytes up to the end of file into memory and advances the cursor |
| RamFileIo.RamFileInterface.Write | hermit-rs/kernel/src/fs/mem.rs:183-203 | resizing and overwriting is the specified write; the size attribute stays the length |
| RamFileIo.RamFileInterface.Lseek | hermit-rs/kernel/src/fs/mem.rs:205-232 | position or EOVERFLOW or EINVAL; seeking beyond the end extends the file with zeros |
| RamFileIo.RamFileInterface.Truncate | hermit-rs/kernel/src/fs/mem.rs:239-244 | cuts, or extends with zeros |
| RamFileIo.RamFileInterface.Fstat | hermit-rs/kernel/src/fs/mem.rs:234-237 | the size attribute is the length |
| RamFileIo.OpenFile.Open | hermit-rs/kernel/src/fs/mem.rs:253-260 | a new handle on the shared file starts at position 0, and contents and other cursors stay |
| RamFileIo.OpenFile.Read | hermit-rs/kernel/src/fs/mem.rs:155-181 | with any number of handles open, a read through one is the read operation of the reference form, with its count and bytes |
| RamFileIo.OpenFile.Write | hermit-rs/kernel/src/fs/mem.rs:183-203 | likewise a write: contents, all cursors and count |
| RamFileIo.OpenFile.Lseek | hermit-rs/kernel/src/fs/mem.rs:205-232 | likewise a seek: contents, all cursors and result |
| RamFileIo.OpenFile.Truncate | hermit-rs/kernel/src/fs/mem.rs:239-244 | likewise a truncation |
| RamFileIo.FdRead | hermit-rs/kernel/src/fd/mod.rs:346-354 | EBADF, or the read; an empty buffer reads nothing |
| RamFileIo.FdWrite | hermit-rs/kernel/src/fd/mod.rs:368-376 | EBADF, or the write; an empty buffer writes nothing |
| RamFileIo.SysReadv | hermit-rs/kernel/src/syscalls/mod.rs:544-574 | one read of the total length scattered over the buffers in order, also if they overlap, with the same value and position |
| RamFileIo.SysWritev | hermit-rs/kernel/src/syscalls/mod.rs:623-651 | one write of the concatenated buffers, with the same value and position |
| RamFileIo.GatherAt | hermit-rs/kernel/src/syscalls/mod.rs:623-651 | byte j of buffer i comes right after all bytes of the buffers before |
| RamFileIo.GatherUndoesScatter | hermit-rs/kernel/src/syscalls/mod.rs:544-574 | what is scattered over buffers that do not overlap is gathered again |
| RamFileIo.ScatterKeeps | hermit-rs/kernel/src/syscalls/mod.rs:544-574 | a scatter changes nothing outside the buffers |
| RamFileIo.VectoredIsSingle | hermit-rs/kernel/src/syscalls/mod.rs:544-547 | the vectored call returns what the single call does if and only if there are at most 1024 buffers and it is not the call without buffers on a closed descriptor |
| RamFileIo.NoBuffersOnClosedDescriptor | hermit-rs/kernel/src/syscalls/mod.rs:544-574 | that call, which returns 0 instead of EBADF |
| MoqConsume.StepKeepsGood | relay/rs/libmoq/src/consume.rs:61-137 | a region under the lock, a callback or a select answer keeps each task's entry and callbacks in order, except exactly a start on a number that an unfinished task of that kind still has |
| MoqConsume.RunIsGood | relay/rs/libmoq/src/id.rs:24-39 | a run keeps to the protocol throughout if and only if each start draws a number that no unfinished task of its kind has |
| MoqConsume.BeforeWrapIsOrderly | relay/rs/libmoq/src/id.rs:34-36 | until the counter wraps each start does |
| MoqConsume.CallbackOrder | relay/rs/libmoq/src/consume.rs:72-81 | in every such run, however often the counter has wrapped, a catalog, track or raw task delivers positive codes, then exactly one code that is not positive, then nothing whatever step follows |
| MoqConsume.CloseAtMostOnce | relay/rs/libmoq/src/consume.rs:223-235 | in every such run a close reaches a task at most once, and would reach it exactly if none has and its entry is still there, so never after its terminal callback |
| MoqConsume.StepSignals | relay/rs/libmoq/src/consume.rs:352-362 | a task loses its close sender to a close that reaches it or with its entry, and to nothing else |
| MoqConsume.AtMostOneItemAfterClose | relay/rs/libmoq/src/consume.rs:330-350 | in every such run, however long, a closed task delivers at most the one item it has in hand |
| MoqConsume.ClosedTaskEnds | relay/rs/libmoq/src/consume.rs:92-137 | in every such run a closed task can always go on, each of its own steps brings it nearer to its terminal callback, and no other step changes anything for it |
| MoqCallbacks.CallbackHearsTheStory | relay/rs/libmoq/src/consume.rs:72-137 | in every such run the callback hears exactly the ids of the items the task buffered, in order, and then the reason of its end: 0 after a close or at the end of the source, otherwise the error |
| MoqConsume.IdResolvesOnce | relay/rs/libmoq/src/id.rs:21-39 | until the counter wraps an id is in at most one slab |
| MoqConsume.IdsNeverReused | relay/rs/libmoq/src/id.rs:24-39 | until the counter wraps a removed id never comes back |
| MoqConsume.IdsRepeatExactlyOnWrap | relay/rs/libmoq/src/id.rs:34-36 | two draws give the same number if and only if a whole number of wraps lies between them |
| MoqConsume.WrappedIdOverwrites | relay/rs/libmoq/src/id.rs:34-39 | a run of 2^32 more draws after which a new task takes over the live entry of an old one |
| MoqConsume.ClashBreaksOrder | relay/rs/libmoq/src/consume.rs:72-81 | then the old task ends without a terminal callback, and the new one's callback hears an item after a terminal code |
| MoqSlab.IdCounter.FetchAdd | relay/rs/libmoq/src/id.rs:35 | returns the number before and wraps at 32 bits |
| MoqSlab.NonZeroSlab.Insert | relay/rs/libmoq/src/id.rs:34-39 | stores under the drawn number, or fails if that is not a positive i32 |
| MoqSlab.NonZeroSlab.Remove | relay/rs/libmoq/src/id.rs:49-51 | takes the value out, if there is one |
| MoqSlab.Consume.Start | relay/rs/libmoq/src/consume.rs:398-424 | enters a task that can be closed |
| MoqSlab.Consume.Close | relay/rs/libmoq/src/consume.rs:352-362 | takes the sender, and fails without entry or sender |
| MoqSlab.Consume.Buffer | relay/rs/libmoq/src/consume.rs:456-458 | buffers an item under a new id, or ends the task with the invalid-id error |
| MoqSlab.Consume.RemoveEntry | relay/rs/libmoq/src/consume.rs:415-421 | takes the entry out, and the terminal callback is the one that was in it |
| HeapMap.Heap.MapHeap | hermit-rs/kernel/src/arch/x86_64/mm/paging.rs:205-220 | appends pages of the asked size back to back and keeps those mapped before; on failure exactly the first n |
| HeapMap.Heap.MapToBoundary | hermit-rs/kernel/src/mm/mod.rs:238-247 | appends large pages up to the next huge page boundary, as many as there are frames for, without underflow |
| HeapMap.Heap.MapStage | hermit-rs/kernel/src/mm/mod.rs:260-304 | one phase: appends exactly the pages of its size that its frames allow, mapped plus remaining stays constant, alignment is kept, and it fails exactly if it finds too few frames |
| HeapMap.Heap.Init | hermit-rs/kernel/src/mm/mod.rs:211-308 | for all sizes, page support and failures the list of mapped pages, their sizes included, and the end of the heap are what the frames of each phase allow; the pages tile the heap, end plus unmapped is start plus size, and all of it is mapped exactly if the base page call does not fail |
| HeapMap.FewBasePages | hermit-rs/kernel/src/mm/mod.rs:276-304 | with large pages and frames for them, base pages map no more than one large page, at the end |
| HeapMap.FewSmallPages | hermit-rs/kernel/src/mm/mod.rs:238-304 | with huge pages and frames for them, smaller pages are used only below the first huge page boundary and for no more than one huge page at the end |
| HeapMap.UnsupportedUnused | hermit-rs/kernel/src/mm/mod.rs:238-304 | without huge pages none is used, and without large ones too only base pages are |
| HeapMap.TilesMapOnce | hermit-rs/kernel/src/mm/mod.rs:306-308 | tiled pages map each address of the range exactly once and no other |
| PhysicalMem.And | hermit-rs/kernel/src/mm/physicalmem.rs:197-201 | the overlap of two ranges, if there is one |
| PhysicalMem.Containing | hermit-rs/kernel/src/mm/physicalmem.rs:191-195 | the smallest range of whole pages around an interval |
| PhysicalMem.CutTakes | hermit-rs/kernel/src/mm/physicalmem.rs:148-153 | allocating an overlap takes exactly its frames from the free list |
| PhysicalMem.FreeList.Reserve | hermit-rs/kernel/src/mm/physicalmem.rs:144-154 | the loop ends, and leaves free exactly the old free frames outside the reservation, none twice |
| PhysicalMem.ClaimRegions | hermit-rs/kernel/src/mm/physicalmem.rs:109-142 | claims each memory region from the end of the kernel on, or all of it under UEFI, and sums up the sizes |
| PhysicalMem.TotalCountsBytes | hermit-rs/kernel/src/mm/physicalmem.rs:109-142 | the total is the number of bytes claimed, none counted twice |
| PhysicalMem.DetectFromFdt | hermit-rs/kernel/src/mm/physicalmem.rs:106-181 | a frame is free exactly if it is memory, not the kernel's (without UEFI: not below its end), not reserved and not the device tree's, and it is so once |

## Left out

- Floating point and rayon in the matrix demo: elements are exact integers, and the joined closures run in sequence.
- Weak memory orderings in kio and the kernel.
- MatMul.SeqMatMulZ: stated for lengths up to 4^15, because from 4^16 on the iterator never ends.
- Semaphore.NoLostRelease: acquires with a timeout are not modelled.
- MoqConsume.IdResolvesOnce: until the 32-bit counter wraps; afterwards ids repeat.
- MoqConsume.IdsNeverReused: likewise.
- RamFileIo.RamFileInterface.Write: allocation always succeeds up to isize::MAX bytes; the time stamps are not modelled.
- RamFileIo.SysWritev: likewise for the total length.
- Getdents.MemDirectoryInterface.Getdents: names without NUL and with a record length that fits 16 bits, as longer ones
  make the kernel panic; the directory does not change during the listing.
- PhysicalMem.FreeList.Reserve: the order and merging of ranges in the free_list crate, which is not part of this
  model; only that an overlap is found if there is one and is taken out.
- PhysicalMem.DetectFromFdt: regions that are apart and ranges of whole pages, on which the kernel panics otherwise;
  mapping the claimed frames is not modelled.
- Scheduler.RoundRobin: `set_priority` of a ready task is not modelled; changing the current task's priority is.
- Scheduler.EveryRun: task ids are not reused; tasks block, exit and change priority only while running.
- RecMutex.MutualExclusion: the mutex is released only by its owner, which the code trusts its callers with.
- Timers.NobodyOversleeps: wakeup times below u64::MAX.
- MoqSlab.Consume.Start: broadcast and catalog lookups before a task is entered; the select loops are steps of the
  transition system, not loops.
- `futex_wake_or_set` with counts other than 1 in the token protocol, directories other than their listing, ROM files,
  context switches, stacks, the FPU, page tables, networking, codecs and the C interface of libmoq.
