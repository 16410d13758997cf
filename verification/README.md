# FreeRTOS kernel and lwIP socket layer, in Dafny

A model of the FreeRTOS V7.0.2 kernel (lists, scheduler, queues, timers) and of lwIP 1.4.0's socket and netconn
layer, with proofs of what they promise over whole runs. `dafny verify dfyconfig.toml` checks everything.

Each part has a state, a function for every step of it (one critical section, one interrupt, one protected section, or
one stretch with the scheduler suspended) and lemmas about all sequences of steps. The classes hold the same state in
fields, in the source's own loops and branches, each method proved equal to its step and to keep what holds of all
runs. Time is an unbounded count; tick counters are it modulo a period that is a parameter.

| files | what they model |
|---|---|
| `Sequences`, `Containers`, `IntrusiveList` | `list.c`, `list.h`: pointer rings as sequences with a cursor |
| `Ticks` | wrapped tick arithmetic and time-outs |
| `Tasks`, `TaskInvariants`, `TaskSteps`, `TaskRuns`, `TaskCounters`, `KernelObject` | `tasks.c`: steps, invariants, every run, what runs count, and the code |
| `TaskStart` | the state the scheduler starts in, and the theorems about runs from there |
| `EventOrder`, `Fairness`, `Inheritance` | waking by priority, turn-taking and priority inheritance over every run |
| `ManyMutexes`, `MutexHistory`, `InheritanceLimits` | several mutexes per task, who holds them, and runs in which inheritance goes wrong |
| `QueueStore`, `QueueProtocol`, `QueueTraffic`, `QueueControl`, `RecursiveMutex` | `queue.c`: the byte ring, waiting and waking, messages counted, recursive mutexes |
| `Timers`, `TimerRuns`, `OneShot`, `TimerDrops`, `TimerBursts`, `TimerService`, `TimerDrains` | `timers.c`: the timer daemon |
| `Select`, `SelectEvents`, `SelectScan`, `SocketLayer`, `Accept` | `sockets.c`: select and accept |
| `Receive`, `StreamSocket` | `sockets.c`, `api_lib.c`: reading from a TCP socket |
| `Netconn`, `NetconnRuns`, `NetconnReplies`, `NetconnObject` | `api_msg.c`: writing, closing, connecting, listening, and what callers are told |

## Where the code falls short of what it promises

Each of these is a theorem about when the promise holds, with a run in which it does not.

- The timer daemon samples the time once and then drains its queue. A start command sent after the sample is always
  misplaced, and one stamped a tick later runs its callback (n - 1) / period times at once
  (`Timers.PlacedRightIffPast`, `TimerBursts.DrainRunsAgeOverPeriod`, `TimerBursts.LateCommandBursts`).
- A timer that reloads itself falls silent for good if the queue is full when the daemon sends itself the command to
  reload it, which it does when it is a period late and at a wrap; the source only asserts that there is room
  (`TimerRuns.GoesOnIffRoom`, `TimerRuns.DroppedForGood`, `TimerDrops.ReloadIsDropped`).
- A time-out check is wrong if a whole wrap of the counter goes by unseen between two checks (`Ticks.ExpiryIsExactUnless`,
  `Ticks.ExpiryIsMissed`).
- Deleting a task that was woken and has not tried again can strand another one next to a message
  (`QueueProtocol.NoLostWakeUp`, `QueueProtocol.DeletingWokenStrands`).
- The first give drops everything a task inherited, also for a second mutex it holds (`ManyMutexes.GiveIsRightIff`,
  `InheritanceLimits.SecondMutexIsForgotten`); and a mutex given by another task readies its holder wherever it is
  (`Inheritance.GiveByOtherIsRightIff`, `InheritanceLimits.GivenByOtherWhileWaiting`).
- vTaskPrioritySet and inheritance rewrite the event value of a waiting task without sorting its list again
  (`EventOrder.InheritKeepsOrderIff`, `EventOrder.SetPriorityKeepsOrderIff`, `InheritanceLimits.LowerIsWoken`,
  `InheritanceLimits.LowerIsWokenToo`).
- xQueueCreateCountingSemaphore takes an initial count above the maximum (`QueueStore.CreateCountingSemaphore`).
- A selector is not woken for data another thread leaves over from a read (`Select.OnlyLeftoverDataIsMissed`,
  `Select.LeftoverDataIsMissed`).
- The comment in event_callback says early events are counted down or up; removals are not counted at all.
  No call of the API makes a removal that early, so this is about the callback alone: without one the count is right
  (`Accept.ExactIffNoneRemovedEarly`, `Accept.NothingIsLost`, `Accept.EarlyRemovalIsLost`).
- The window does not open by the bytes returned: MSG_PEEK opens it for bytes that stay, the end of the stream opens it by
  one, and after err_tcp nothing does (`Receive.WindowIsExactIff`, `Receive.EndOpensOneMore`, `Receive.FailureOpensLess`).
- A reader that never blocks may never be told that the stream has ended (`Receive.EndIsRepeatedIff`,
  `Receive.EndIsSwallowed`).
- Data that is in the mailbox when the connection fails is never returned (`Receive.EndedForGood`,
  `Receive.FailureCutsOff`).
- A write without blocking of more than 65535 bytes never succeeds (`Netconn.UnblockingWriteSucceedsIff`), and
  write_offset stays nonzero after a write that failed half way, against the assertions in `do_write`, `do_close` and
  `do_delconn` (`NetconnRuns.OffsetIsZeroIff`, `NetconnRuns.AssertionHoldsIff`, `NetconnRuns.AssertionFails`).
- err_tcp does not signal a close that began during a connect without blocking and was refused by TCP; this cannot
  happen only because closing a connecting pcb never fails (lwip-1.4.0/src/core/tcp.c:188-194)
  (`NetconnRuns.CallerIsStrandedIff`, `NetconnRuns.CloserIsStranded`).

## Premises

- No API call is made on a deleted task, and the idle task neither blocks nor is suspended or deleted.
- A delay or block time is less than a whole wrap, and a previous wake time less than a whole wrap ago.
- `Inheritance.InheritanceIsExact`: one mutex per task, given by its holder; holders are not deleted; no vTaskPrioritySet.
  `ManyMutexes` drops the first of these.
- `QueueProtocol.NobodyWaitsInVain`: a woken task tries again; tasks woken and not yet running are not deleted.
- `TimerRuns`, `OneShot`: nobody else commands the timer, its own command is received within a wrap of its stamp and not
  before it, and time is sampled at least once a wrap.
- `Receive.ZeroMeansEnd`: TCP hands over no empty pbuf.
- `Netconn`: one application call at a time, as each blocks its caller; TCP reports a connection only while connecting.

## Model

| member | source | states |
|---|---|---|
| Sequences.InsertPosUnique | sw/repo/bsp/freertos_zynq_v1_02_a/src/Source/list.c:113-167 | The place where the search loop of a sorted insertion stops is the only split into values not above and above the new one. |
| Sequences.InsertKeepsAscending | sw/repo/bsp/freertos_zynq_v1_02_a/src/Source/list.c:113-167 | A sorted insertion keeps the list sorted and goes behind every equal value. |
| Sequences.QueueAfterRemoval | sw/repo/bsp/freertos_zynq_v1_02_a/src/Source/list.c:170-189 | Removing an item, on either side of the cursor, removes it from the order in which the cursor visits the items and disturbs nothing else. |
| IntrusiveList.List.constructor | sw/repo/bsp/freertos_zynq_v1_02_a/src/Source/list.c:63-80 | A new list is the sentinel closed on itself, with the largest value and no items. |
| IntrusiveList.LinkAfter | sw/repo/bsp/freertos_zynq_v1_02_a/src/Source/list.c:90-110 | The pointer surgery of an insertion turns a closed ring into a closed ring with one more item, in both directions. |
| IntrusiveList.Unlink | sw/repo/bsp/freertos_zynq_v1_02_a/src/Source/list.c:170-189 | The pointer surgery of a removal closes the ring over the gap. |
| IntrusiveList.List.InsertEnd | sw/repo/bsp/freertos_zynq_v1_02_a/src/Source/list.c:90-110 | The new item is the last the cursor will visit. |
| IntrusiveList.List.FindGap | sw/repo/bsp/freertos_zynq_v1_02_a/src/Source/list.c:113-167 | The search loop ends, for the largest value as well, behind all items that are not larger. |
| IntrusiveList.List.Insert | sw/repo/bsp/freertos_zynq_v1_02_a/src/Source/list.c:113-167 | A stable insertion that keeps a sorted list sorted, the ring closed, the count and every container right. |
| IntrusiveList.List.OwnerOfNextEntry | sw/repo/bsp/freertos_zynq_v1_02_a/src/Source/include/list.h:190-201 | Returns the front of the cursor order and moves it to the back, stepping over the sentinel. |
| IntrusiveList.List.IsEmpty | sw/repo/bsp/freertos_zynq_v1_02_a/src/Source/include/list.h:164 | Exact, by the count. |
| IntrusiveList.List.Head | sw/repo/bsp/freertos_zynq_v1_02_a/src/Source/include/list.h:220 | The first item; the least of a sorted list. |
| IntrusiveList.Remove | sw/repo/bsp/freertos_zynq_v1_02_a/src/Source/list.c:170-189 | The item leaves the one list its container names: sequence and cursor order lose it and nothing else, sortedness survives. |
| Containers.UnlinkIsConsistent | sw/repo/bsp/freertos_zynq_v1_02_a/src/Source/list.c:170-189 | Over a family of lists, removal keeps each item on exactly the list its container names. |
| Containers.PutIsConsistent | sw/repo/bsp/freertos_zynq_v1_02_a/src/Source/list.c:90-167 | So does an insertion of an item that is on none. |
| Ticks.EpochGap | sw/repo/bsp/freertos_zynq_v1_02_a/src/Source/tasks.c:1525-1543 | Two times less than a wrap apart lie in the same epoch of the counter or in adjacent ones, which comparing their wrapped values tells. |
| Ticks.WrapSubIsElapsed | sw/repo/bsp/freertos_zynq_v1_02_a/src/Source/tasks.c:1886 | The wrapped difference of two tick counts is the time between them up to whole wraps. |
| Ticks.CheckForTimeOut | sw/repo/bsp/freertos_zynq_v1_02_a/src/Source/tasks.c:1858-1901 | The outcome and the state for the next check, in all four cases. |
| Ticks.ExpiryIsExactUnless | sw/repo/bsp/freertos_zynq_v1_02_a/src/Source/tasks.c:1858-1901 | The check says expired iff the ticks have passed, in all cases but exactly one: a whole wrap went by unseen and the rest is still short. |
| Ticks.ExpiryIsMissed | sw/repo/bsp/freertos_zynq_v1_02_a/src/Source/tasks.c:1858-1901 | And it does err, for every period from four ticks on: a wait of two ticks is not over after a whole period and one tick more. |
| Ticks.ExpiryIsExact | sw/repo/bsp/freertos_zynq_v1_02_a/src/Source/tasks.c:1858-1901 | It is right if the counter wrapped at most once since the last check, and then leaves the right remainder. |
| Ticks.DeadlineIsConserved | sw/repo/bsp/freertos_zynq_v1_02_a/src/Source/queue.c:846-992 | Over any number of wake-ups to no avail a blocking call gives up at the first check at or after its original deadline, never before. |
| Ticks.EveryBlockEndsAtDeadline | sw/repo/bsp/freertos_zynq_v1_02_a/src/Source/tasks.c:1886-1892 | Each time it blocks again it is for exactly the time left to that deadline. |
| Ticks.ForeverNeverExpires | sw/repo/bsp/freertos_zynq_v1_02_a/src/Source/tasks.c:1868-1875 | A wait of portMAX_DELAY never times out. |
| TaskInvariants.EmptyAtWrap | sw/repo/bsp/freertos_zynq_v1_02_a/src/Source/tasks.c:1525-1543 | When the counter wraps the delayed list that is swapped out is empty: nobody on it is still waiting. |
| TaskInvariants.SkippedScanIsIdle | sw/repo/bsp/freertos_zynq_v1_02_a/src/Source/tasks.c:274-324 | A tick below xNextTaskUnblockTime would find nothing to wake: the skipped scan equals a full one. |
| TaskInvariants.ScanWakesDue | sw/repo/bsp/freertos_zynq_v1_02_a/src/Source/tasks.c:274-324 | A scan readies exactly the tasks whose wake time the counter has reached and leaves the bound right for the next. |
| TaskInvariants.DueIsStable | sw/repo/bsp/freertos_zynq_v1_02_a/src/Source/tasks.c:1503-1549 | A tick, list swap included, changes no delayed task's unwrapped deadline. |
| TaskInvariants.TickWakesOnTime | sw/repo/bsp/freertos_zynq_v1_02_a/src/Source/tasks.c:1503-1549 | A tick readies exactly the tasks whose deadline is the new time; everyone else stays where they were with the same deadline. |
| TaskInvariants.ReadyKeepsPlaced | sw/repo/bsp/freertos_zynq_v1_02_a/src/Source/tasks.c:258-263 | prvAddTaskToReadyQueue puts the task on the ready list of its priority and takes it off whatever other list it was on. |
| TaskInvariants.DrainReadiesPending | sw/repo/bsp/freertos_zynq_v1_02_a/src/Source/tasks.c:1196-1211 | Resuming moves every task of xPendingReadyList, and nobody else, to the ready list of its priority. |
| TaskInvariants.ReplayWakesOnTime | sw/repo/bsp/freertos_zynq_v1_02_a/src/Source/tasks.c:1216-1223 | The missed ticks replayed together wake exactly the tasks due by the new time. |
| TaskInvariants.TickSetsBound | sw/repo/bsp/freertos_zynq_v1_02_a/src/Source/tasks.c:1525-1543 | A tick that wraps the counter or reaches xNextTaskUnblockTime sets that to the earliest wake time of the list then current. |
| TaskSteps.MovedKeepsInv | sw/repo/bsp/freertos_zynq_v1_02_a/src/Source/tasks.c:597-638 | Taking a task to a ready, suspended or termination list keeps every placement, counting, order and deadline invariant. |
| TaskSteps.SuspendTaskKeepsInv | sw/repo/bsp/freertos_zynq_v1_02_a/src/Source/tasks.c:904-961 | vTaskSuspend keeps every invariant. |
| TaskSteps.DeleteKeepsInv | sw/repo/bsp/freertos_zynq_v1_02_a/src/Source/tasks.c:597-648 | vTaskDelete does; uxTasksDeleted stays the length of the termination list. |
| TaskSteps.SignalKeepsInv | sw/repo/bsp/freertos_zynq_v1_02_a/src/Source/tasks.c:1799-1847 | So does waking the head of an event list, to ready or, with the scheduler suspended, to pending. |
| TaskSteps.ResumeTaskKeepsInv | sw/repo/bsp/freertos_zynq_v1_02_a/src/Source/tasks.c:1002-1039 | So does vTaskResume. |
| TaskSteps.ResumeFromISRKeepsInv | sw/repo/bsp/freertos_zynq_v1_02_a/src/Source/tasks.c:1047-1076 | So does xTaskResumeFromISR, which may only pend the task. |
| TaskSteps.WakeTimeWraps | sw/repo/bsp/freertos_zynq_v1_02_a/src/Source/tasks.c:2138-2161 | The wrapped wake time and the list it selects stand for the unwrapped deadline. |
| TaskSteps.MoveToDelayedLists | sw/repo/bsp/freertos_zynq_v1_02_a/src/Source/tasks.c:2138-2161 | prvAddCurrentTaskToDelayedList takes the task to one delayed list, in order of wake time, and lowers xNextTaskUnblockTime iff that is the current one and it wakes earlier. |
| TaskSteps.DelayKeepsInv | sw/repo/bsp/freertos_zynq_v1_02_a/src/Source/tasks.c:728-767 | vTaskDelay keeps every invariant and sets exactly the deadline now + ticks. |
| TaskSteps.BlockKeepsInv | sw/repo/bsp/freertos_zynq_v1_02_a/src/Source/tasks.c:1717-1760 | So does blocking on an event, with a time-out or without one. |
| TaskSteps.BlockRestrictedKeepsInv | sw/repo/bsp/freertos_zynq_v1_02_a/src/Source/tasks.c:1767-1794 | So does the timer daemon's way of blocking. |
| TaskSteps.CreateKeepsInv | sw/repo/bsp/freertos_zynq_v1_02_a/src/Source/tasks.c:519-570 | Creating a task keeps every invariant; the task is ready at its capped priority. |
| TaskSteps.InheritKeepsInv | sw/repo/bsp/freertos_zynq_v1_02_a/src/Source/tasks.c:2409-2436 | vTaskPriorityInherit leaves the holder at least at the waiter's priority, on the matching ready list if it is ready. |
| TaskSteps.DisinheritKeepsInv | sw/repo/bsp/freertos_zynq_v1_02_a/src/Source/tasks.c:2443-2463 | vTaskPriorityDisinherit restores the base priority of any holder and keeps every invariant, if the holder had inherited nothing or waits for no event and is not deleted; one that had inherited is then ready. |
| TaskSteps.SetPriorityKeepsInv | sw/repo/bsp/freertos_zynq_v1_02_a/src/Source/tasks.c:796-897 | vTaskPrioritySet keeps the placement; of a task at an inherited priority it changes only the base. |
| TaskSteps.TopReadyIsHighest | sw/repo/bsp/freertos_zynq_v1_02_a/src/Source/tasks.c:1700-1705 | The search of a switch stops at the highest level with a ready task. |
| TaskSteps.SomeTaskIsReady | sw/repo/bsp/freertos_zynq_v1_02_a/src/Source/tasks.c:1665-1714 | In every reachable state the search ends: uxTopReadyPriority bounds all levels and the idle task is on one. |
| TaskRuns.SwitchPicksHighest | sw/repo/bsp/freertos_zynq_v1_02_a/src/Source/tasks.c:1665-1714 | The task a switch picks is ready and no ready task has a higher priority. |
| TaskRuns.ReapKeepsInv | sw/repo/bsp/freertos_zynq_v1_02_a/src/Source/tasks.c:2103-2135 | Cleaning up a deleted task keeps every invariant and both counts. |
| TaskRuns.HeldTick | sw/repo/bsp/freertos_zynq_v1_02_a/src/Source/tasks.c:1550-1552 | With the scheduler suspended a tick is only counted; unwrapped time plus uxMissedTicks is the number of interrupts. |
| TaskRuns.ResumeLosesNothing | sw/repo/bsp/freertos_zynq_v1_02_a/src/Source/tasks.c:1172-1246 | Ending the last suspension catches up all ticks, readies all pending and all due tasks and nobody else, and leaves neither ticks nor tasks held. |
| TaskRuns.StepKeepsInv | sw/repo/bsp/freertos_zynq_v1_02_a/src/Source/tasks.c:1164-1246 | Every one of the seventeen kinds of step keeps every invariant, never turns the clock back, and leaves the tasks it does not handle ready, or delayed until their deadline. |
| TaskRuns.ReadyStaysReady | sw/repo/bsp/freertos_zynq_v1_02_a/src/Source/tasks.c:258-263 | Over any run, a ready task nobody handles stays ready. |
| TaskRuns.WakesExactlyWhenDue | sw/repo/bsp/freertos_zynq_v1_02_a/src/Source/tasks.c:663-767 | Over any run, through wraps, list swaps and nested suspensions, a delayed task nobody handles is delayed until the clock reaches its deadline and ready from then on. |
| TaskRuns.ShouldDelayIffFuture | sw/repo/bsp/freertos_zynq_v1_02_a/src/Source/tasks.c:672-706 | The wrapped test of vTaskDelayUntil holds iff the unwrapped wake time is still to come, for a previous wake under a wrap ago. |
| TaskRuns.DelayUntilIsExact | sw/repo/bsp/freertos_zynq_v1_02_a/src/Source/tasks.c:663-721 | So vTaskDelayUntil delays to exactly the previous wake plus the increment, or not at all. |
| TaskRuns.TickIsWrappedTime | sw/repo/bsp/freertos_zynq_v1_02_a/src/Source/tasks.c:1511-1525 | The tick counter is the unwrapped time modulo its range. |
| TaskCounters.EffectIsCounted | sw/repo/bsp/freertos_zynq_v1_02_a/src/Source/tasks.c:1164-1255 | Every kind of step, told by its name alone, changes suspension depth, missed ticks, noted switch, number of tasks, deleted tasks and running task as it should, and no other step changes any of them. |
| TaskCounters.SuspensionsNest | sw/repo/bsp/freertos_zynq_v1_02_a/src/Source/tasks.c:1164-1255 | In every run the scheduler is suspended by the calls of vTaskSuspendAll less those of xTaskResumeAll, and whenever these are equal the clock has counted every tick interrupt and no task is held back. |
| TaskCounters.ResumeYieldsIff | sw/repo/bsp/freertos_zynq_v1_02_a/src/Source/tasks.c:1225-1246 | In every run the xTaskResumeAll that matches the first vTaskSuspendAll yields iff since then a switch was asked for, a tick came, or a task that is held back is as urgent as the running one. |
| KernelObject.Scheduler.CheckDelayedTasks | sw/repo/bsp/freertos_zynq_v1_02_a/src/Source/tasks.c:274-324 | The draining loop computes the scan the theorems are about, and is skipped only below the bound. |
| KernelObject.Scheduler.IncrementTick | sw/repo/bsp/freertos_zynq_v1_02_a/src/Source/tasks.c:1503-1552 | The tick with its loop is the step the theorems are about, suspended or not. |
| KernelObject.Scheduler.DrainPendingReady | sw/repo/bsp/freertos_zynq_v1_02_a/src/Source/tasks.c:1196-1211 | The loop empties xPendingReadyList and tells whether a task as urgent as the current one was on it. |
| KernelObject.Scheduler.ReplayMissedTicks | sw/repo/bsp/freertos_zynq_v1_02_a/src/Source/tasks.c:1216-1223 | The loop over uxMissedTicks is the replay of all of them. |
| KernelObject.Scheduler.SuspendAll | sw/repo/bsp/freertos_zynq_v1_02_a/src/Source/tasks.c:1164-1169 | One suspension more, whatever there was; keeps every invariant. |
| KernelObject.Scheduler.ResumeAll | sw/repo/bsp/freertos_zynq_v1_02_a/src/Source/tasks.c:1172-1246 | One suspension less. Inside another one nothing else happens; at the end of the last nothing is held back any more, and it has yielded iff a pending task was as urgent, a tick was missed or a yield was. |
| KernelObject.Scheduler.SwitchContext | sw/repo/bsp/freertos_zynq_v1_02_a/src/Source/tasks.c:1665-1714 | The downward search passes only empty levels and takes the first task of the one it stops at; while the scheduler is suspended the request is noted and nothing else happens. |
| KernelObject.Scheduler.DelayFor | sw/repo/bsp/freertos_zynq_v1_02_a/src/Source/tasks.c:728-767 | Keeps every invariant; the current task is delayed until exactly the unwrapped time it is now and the ticks. |
| KernelObject.Scheduler.DelayUntil | sw/repo/bsp/freertos_zynq_v1_02_a/src/Source/tasks.c:663-721 | Keeps every invariant; the current task is delayed until exactly the previous wake time and the increment if that is to come, and else nothing changes. |
| KernelObject.Scheduler.PlaceOnEventList | sw/repo/bsp/freertos_zynq_v1_02_a/src/Source/tasks.c:1717-1760 | Keeps every invariant; the current task waits for the event, suspended for ever or until exactly the ticks have passed. |
| KernelObject.Scheduler.PlaceOnEventListRestricted | sw/repo/bsp/freertos_zynq_v1_02_a/src/Source/tasks.c:1767-1794 | Likewise, never suspended. |
| KernelObject.Scheduler.RemoveFromEventList | sw/repo/bsp/freertos_zynq_v1_02_a/src/Source/tasks.c:1799-1847 | Keeps every invariant; the head is ready, or held back iff the scheduler is suspended; whether it is as urgent as the current task. |
| KernelObject.Scheduler.SuspendTask | sw/repo/bsp/freertos_zynq_v1_02_a/src/Source/tasks.c:904-961 | Keeps every invariant; the task is suspended and waits for no event. |
| KernelObject.Scheduler.ResumeTask | sw/repo/bsp/freertos_zynq_v1_02_a/src/Source/tasks.c:1002-1039 | Keeps every invariant; a suspended task other than the caller is ready, and nothing else changes anything. |
| KernelObject.Scheduler.ResumeFromISR | sw/repo/bsp/freertos_zynq_v1_02_a/src/Source/tasks.c:1047-1076 | Keeps every invariant; a suspended task is ready, or held back iff the scheduler is suspended. |
| KernelObject.Scheduler.DeleteTask | sw/repo/bsp/freertos_zynq_v1_02_a/src/Source/tasks.c:597-648 | Keeps every invariant, the deletion count among them; the task awaits termination and no event. |
| KernelObject.Scheduler.PriorityInherit | sw/repo/bsp/freertos_zynq_v1_02_a/src/Source/tasks.c:2409-2436 | Keeps every invariant; the holder runs at no less than its own priority and the caller's. |
| KernelObject.Scheduler.PriorityDisinherit | sw/repo/bsp/freertos_zynq_v1_02_a/src/Source/tasks.c:2443-2463 | Keeps every invariant; the holder runs at its base priority. |
| KernelObject.Scheduler.PrioritySet | sw/repo/bsp/freertos_zynq_v1_02_a/src/Source/tasks.c:796-897 | Keeps every invariant; the base priority is the one asked for or else the highest there is, and so is the priority the task runs at unless it inherited another. |
| KernelObject.Scheduler.CreateTask | sw/repo/bsp/freertos_zynq_v1_02_a/src/Source/tasks.c:519-570 | Keeps every invariant; the task is ready at the capped priority. |
| KernelObject.Scheduler.CheckTasksWaitingTermination | sw/repo/bsp/freertos_zynq_v1_02_a/src/Source/tasks.c:2103-2135 | Keeps every invariant; there is one deleted task less, if there was one. |
| TaskStart.StartedIsFresh | sw/repo/bsp/freertos_zynq_v1_02_a/src/Source/tasks.c:1088-1137 | For any period, number of priorities and tasks, created before the scheduler or by its start, the first state satisfies every invariant: each task ready at its capped priority, nothing inherited, event lists in order. |
| TaskStart.CreatedEarlyIsFresh | sw/repo/bsp/freertos_zynq_v1_02_a/src/Source/tasks.c:519-570 | A task created before the scheduler runs keeps it so,, at the capped priority asked for. |
| TaskStart.HighestRunsFirst | sw/repo/bsp/freertos_zynq_v1_02_a/src/Source/tasks.c:537-547 | The scheduler starts with the task that was created last of those of the highest priority. |
| TaskStart.WakesOnTimeFromStart | sw/repo/bsp/freertos_zynq_v1_02_a/src/Source/tasks.c:663-767 | After any run from such a start, a delayed task left alone is ready exactly from its deadline on. |
| TaskStart.ResumeLosesNothingFromStart | sw/repo/bsp/freertos_zynq_v1_02_a/src/Source/tasks.c:1172-1246 | And the end of a suspension catches up with all that happened meanwhile; unwrapped time is then the number of tick interrupts. |
| TaskStart.InheritanceIsExactFromStart | sw/repo/bsp/freertos_zynq_v1_02_a/src/Source/tasks.c:2409-2463 | And priorities are those the mutexes call for, one mutex per task. |
| TaskStart.EventWakesHighestFromStart | sw/repo/bsp/freertos_zynq_v1_02_a/src/Source/tasks.c:1799-1815 | And events wake a task of the highest priority of their waiters, under the rules of EventOrder. |
| EventOrder.StepKeepsOrder | sw/repo/bsp/freertos_zynq_v1_02_a/src/Source/tasks.c:1717-1760 | Every step keeps all event lists in order of event value, and every event value that of the task's priority, if it reprices no waiting task. |
| EventOrder.EventWakesHighest | sw/repo/bsp/freertos_zynq_v1_02_a/src/Source/tasks.c:1799-1815 | In any such run the task an event takes off its list has the highest priority of all that wait for it. |
| EventOrder.InheritKeepsOrderIff | sw/repo/bsp/freertos_zynq_v1_02_a/src/Source/tasks.c:2409-2436 | If a task waiting for an event inherits, the event lists stay in order iff nobody in front of it has a lower priority than it inherits. |
| EventOrder.SetPriorityKeepsOrderIff | sw/repo/bsp/freertos_zynq_v1_02_a/src/Source/tasks.c:796-897 | If its priority is set, they stay in order with the right values iff the priority fits between its neighbours' and it had not inherited another. |
| InheritanceLimits.LowerIsWoken | sw/repo/bsp/freertos_zynq_v1_02_a/src/Source/tasks.c:2409-2420 | From the start there is a run in which a task takes a mutex, waits for an event, inherits from a task that comes to wait for the mutex, and the event then wakes a task of lower priority in front of it. |
| InheritanceLimits.LowerIsWokenToo | sw/repo/bsp/freertos_zynq_v1_02_a/src/Source/tasks.c:869-876 | And a run, in order up to there, in which vTaskPrioritySet on the waiting task does the same. |
| Fairness.StepKeepsPlace | sw/repo/bsp/freertos_zynq_v1_02_a/src/Source/include/list.h:190-201 | No step but a switch moves a task of a ready list back in cursor order, whoever joins or leaves the list. |
| Fairness.SwitchAdvances | sw/repo/bsp/freertos_zynq_v1_02_a/src/Source/tasks.c:1665-1714 | A switch takes the front of the highest list and moves every other task of it one place forward. |
| Fairness.EveryoneGetsATurn | sw/repo/bsp/freertos_zynq_v1_02_a/src/Source/tasks.c:1700-1709 | In any run, a task that stays ready at the highest level is chosen within as many switches as there were tasks ahead of it, and one. |
| Inheritance.MaxOfIsMaximum | sw/repo/bsp/freertos_zynq_v1_02_a/src/Source/tasks.c:2409-2436 | What the theorem calls the highest priority is the least upper bound of the base priority and those that blocked. |
| Inheritance.EffectKeepsPriorities | sw/repo/bsp/freertos_zynq_v1_02_a/src/Source/tasks.c:1503-1552 | No step of scheduling, blocking or waking changes any priority. |
| Inheritance.WaitKeepsExact | sw/repo/bsp/freertos_zynq_v1_02_a/src/Source/queue.c:958-968 | A task that is about to wait for a mutex raises its holder to the new maximum, and nobody else. |
| Inheritance.GiveKeepsExact | sw/repo/bsp/freertos_zynq_v1_02_a/src/Source/queue.c:1092-1101 | The give restores the holder's base priority. |
| Inheritance.InheritanceIsExact | sw/repo/bsp/freertos_zynq_v1_02_a/src/Source/tasks.c:2409-2463 | In any run, a holder runs at the maximum of its base priority and the priorities that blocked on its mutex since it was taken, everyone else at base, and every ready task is on the list of its priority. |
| MutexHistory.RunIsRecorded | sw/repo/bsp/freertos_zynq_v1_02_a/src/Source/queue.c:869-880 | In every run a mutex is held by the task that took it last unless it has been given since, and the priorities that blocked on it are those of the tasks that came to wait since. |
| MutexHistory.AllIsRecorded | sw/repo/bsp/freertos_zynq_v1_02_a/src/Source/tasks.c:2443-2463 | The same with several mutexes per task; and what is recent for a task is what came to wait for its mutexes since it last gave one. |
| ManyMutexes.PriorityIsMostRecent | sw/repo/bsp/freertos_zynq_v1_02_a/src/Source/tasks.c:2409-2463 | In every run with any number of mutexes per task, a task runs at the maximum of its base priority and those that blocked on mutexes it holds since it last gave one. |
| ManyMutexes.GiveIsRightIff | sw/repo/bsp/freertos_zynq_v1_02_a/src/Source/tasks.c:2443-2463 | In every such run a give leaves the task at the maximum over all mutexes it still holds iff nobody above its base priority has blocked on one of them. |
| InheritanceLimits.SecondMutexIsForgotten | sw/repo/bsp/freertos_zynq_v1_02_a/src/Source/tasks.c:2443-2463 | From the start there is a run with two takes, a wait for the second and a give of the first after which the holder runs below the waiter. |
| Inheritance.GiveByOtherIsRightIff | sw/repo/bsp/freertos_zynq_v1_02_a/src/Source/tasks.c:2443-2463 | Given by another task while the holder has inherited, all invariants survive iff the holder waits for no event and is not deleted. |
| InheritanceLimits.GivenByOtherWhileWaiting | sw/repo/bsp/freertos_zynq_v1_02_a/src/Source/tasks.c:2443-2463 | From the start there is a run, with the mutex taken and the holder waiting for an event, to a state in which they do not. |
| QueueStore.SlotIsModulo | sw/repo/bsp/freertos_zynq_v1_02_a/src/Source/queue.c:103-107 | The i-th item is in slot (read + 1 + i) mod length. |
| QueueStore.SlotsDiffer | sw/repo/bsp/freertos_zynq_v1_02_a/src/Source/queue.c:1088-1123 | Two items share a slot, or an item and the write pointer, only when the queue is full. |
| QueueStore.StepForward | sw/repo/bsp/freertos_zynq_v1_02_a/src/Source/queue.c:1130-1134 | Compare-and-wrap at the tail steps to the next slot. |
| QueueStore.StepBack | sw/repo/bsp/freertos_zynq_v1_02_a/src/Source/queue.c:1115-1119 | Compare-and-wrap below the head steps to the slot before. |
| QueueStore.AppendedItems | sw/repo/bsp/freertos_zynq_v1_02_a/src/Source/queue.c:1103-1111 | Bytes written at the write pointer append an item and touch no other. |
| QueueStore.PrependedItems | sw/repo/bsp/freertos_zynq_v1_02_a/src/Source/queue.c:1112-1120 | Bytes written at the read pointer prepend one. |
| QueueStore.RemainingItems | sw/repo/bsp/freertos_zynq_v1_02_a/src/Source/queue.c:1126-1137 | Stepping the read pointer leaves all items but the front. |
| QueueStore.Queue.constructor | sw/repo/bsp/freertos_zynq_v1_02_a/src/Source/queue.c:249-285 | A new queue is empty, of the given length and item size, with one marker byte. |
| QueueStore.Create | sw/repo/bsp/freertos_zynq_v1_02_a/src/Source/queue.c:249-285 | A queue is made iff its length is not zero and there is memory, and is then empty and of the length and item size asked for. |
| QueueStore.CreateCountingSemaphore | sw/repo/bsp/freertos_zynq_v1_02_a/src/Source/queue.c:440-459 | A queue of items without bytes that starts with the initial count of them, and is a valid one iff that is not above the maximum, which nothing checks. |
| QueueStore.Queue.Mutex | sw/repo/bsp/freertos_zynq_v1_02_a/src/Source/queue.c:302-344 | A new mutex has neither storage, token, holder nor count. |
| QueueStore.Queue.CopyToBack | sw/repo/bsp/freertos_zynq_v1_02_a/src/Source/queue.c:1103-1111 | Appends the item; the pointers stay in step. |
| QueueStore.Queue.CopyToFront | sw/repo/bsp/freertos_zynq_v1_02_a/src/Source/queue.c:1112-1120 | Prepends it. |
| QueueStore.Queue.CopyDataToQueue | sw/repo/bsp/freertos_zynq_v1_02_a/src/Source/queue.c:1088-1123 | Either, or for a mutex the token, dropping the holder and leaving the count field alone. |
| QueueStore.Queue.CopyDataFromQueue | sw/repo/bsp/freertos_zynq_v1_02_a/src/Source/queue.c:1126-1137 | The bytes of the front item; a mutex's fields are not disturbed. |
| QueueStore.Queue.Receive | sw/repo/bsp/freertos_zynq_v1_02_a/src/Source/queue.c:865-888 | Pops the front; a mutex records its new holder. |
| QueueStore.Queue.Peek | sw/repo/bsp/freertos_zynq_v1_02_a/src/Source/queue.c:898-919 | Returns the front and changes nothing. |
| QueueStore.Queue.WriteIndex | sw/repo/bsp/freertos_zynq_v1_02_a/src/Source/queue.c:103-107 | In every state the write index is (read index + 1 + count) mod length. |
| QueueProtocol.UnlockKeepsGood | sw/repo/bsp/freertos_zynq_v1_02_a/src/Source/queue.c:1140-1201 | An unlock loop wakes a task for each count it takes down, so that the bound survives; it stops early only when nobody waits. |
| QueueProtocol.EnqueueKeepsGood | sw/repo/bsp/freertos_zynq_v1_02_a/src/Source/tasks.c:1717-1760 | A task may join the waiting list if what it found missing has come only by way of the lock count. |
| QueueProtocol.TryReceiveKeepsInv | sw/repo/bsp/freertos_zynq_v1_02_a/src/Source/queue.c:861-943 | A receive or peek keeps the bounds on both sides, whether the task was woken for it or came first. |
| QueueProtocol.TrySendKeepsInv | sw/repo/bsp/freertos_zynq_v1_02_a/src/Source/queue.c:477-528 | So does a send. |
| QueueProtocol.InterruptsKeepInv | sw/repo/bsp/freertos_zynq_v1_02_a/src/Source/queue.c:789-843 | So do sends and receives from interrupts, on a locked queue and on an unlocked one. |
| QueueProtocol.StepKeepsInv | sw/repo/bsp/freertos_zynq_v1_02_a/src/Source/queue.c:464-580 | Every step keeps the whole invariant. |
| QueueProtocol.DeletionKeepsInv | sw/repo/bsp/freertos_zynq_v1_02_a/src/Source/tasks.c:597-648 | Deleting a task that was woken and has not tried again weakens the bound of its side by one. |
| QueueProtocol.NoLostWakeUp | sw/repo/bsp/freertos_zynq_v1_02_a/src/Source/queue.c:229-241 | In every interleaving, while a receiver waits there are no more messages than receivers woken and yet to try, lock counts, and receivers deleted after they were woken; likewise for senders. |
| QueueProtocol.NobodyWaitsInVain | sw/repo/bsp/freertos_zynq_v1_02_a/src/Source/queue.c:229-241 | So if no woken task is deleted, then with nobody woken and the queue unlocked, receivers wait only on an empty queue and senders only on a full one, never both. |
| QueueProtocol.WokenIsFirst | sw/repo/bsp/freertos_zynq_v1_02_a/src/Source/tasks.c:1799-1815 | The task taken off the waiting list has the highest priority on it. |
| QueueProtocol.NewcomerGoesLast | sw/repo/bsp/freertos_zynq_v1_02_a/src/Source/tasks.c:1717-1735 | A task joins behind those of its priority and before the lower ones. |
| QueueProtocol.BlockingReceiveWaits | sw/repo/bsp/freertos_zynq_v1_02_a/src/Source/queue.c:846-992 | A whole blocking receive on an empty queue, uninterrupted, ends with the task waiting and the queue unlocked. |
| QueueProtocol.DeletingWokenStrands | sw/repo/bsp/freertos_zynq_v1_02_a/src/Source/tasks.c:597-648 | A run from creation in which such a deletion leaves a receiver waiting on an unlocked queue with a message and nobody to wake it. |
| QueueTraffic.ReceiveMoves | sw/repo/bsp/freertos_zynq_v1_02_a/src/Source/queue.c:861-943 | A receive takes one message out and wakes the first waiting sender iff there is a message, and nobody else; the caller is about to block iff there is none and it may. |
| QueueTraffic.PeekMoves | sw/repo/bsp/freertos_zynq_v1_02_a/src/Source/queue.c:898-919 | A peek takes no message and wakes the next waiting receiver iff there is a message. |
| QueueTraffic.SendMoves | sw/repo/bsp/freertos_zynq_v1_02_a/src/Source/queue.c:477-528 | A send adds one message and wakes the first waiting receiver iff there is a free place, and nobody else. |
| QueueTraffic.InterruptsMove | sw/repo/bsp/freertos_zynq_v1_02_a/src/Source/queue.c:789-843 | From interrupts likewise; on a locked queue nobody is woken and the lock counts one more. |
| QueueTraffic.GivingUpMoves | sw/repo/bsp/freertos_zynq_v1_02_a/src/Source/tasks.c:918-930 | A task that gives up waiting is off both lists, and those it waited with keep their places. |
| QueueTraffic.UnlockWakes | sw/repo/bsp/freertos_zynq_v1_02_a/src/Source/queue.c:1140-1201 | An unlock wakes as many of those waiting as its lock has counted, the first of them, or all there are. |
| QueueTraffic.MessagesAreCounted | sw/repo/bsp/freertos_zynq_v1_02_a/src/Source/queue.c:861-943 | In every run the messages are the sends that got through less the receives that did, peeks not counted, where what gets through is told by counting from an empty queue. |
| QueueControl.Control.TryReceive | sw/repo/bsp/freertos_zynq_v1_02_a/src/Source/queue.c:861-943 | Succeeds iff there is a message; a receive that succeeds leaves one message less and wakes the first sender, a peek leaves them all and wakes the first receiver; keeps the bounds of both sides. |
| QueueControl.Control.TrySend | sw/repo/bsp/freertos_zynq_v1_02_a/src/Source/queue.c:477-528 | Succeeds iff there is a free place, leaves one message more and wakes the first receiver; likewise. |
| QueueControl.Control.SendFromISR | sw/repo/bsp/freertos_zynq_v1_02_a/src/Source/queue.c:789-843 | Likewise, but on a locked queue it wakes nobody and the lock counts one more. |
| QueueControl.Control.ReceiveFromISR | sw/repo/bsp/freertos_zynq_v1_02_a/src/Source/queue.c:996-1048 | Succeeds iff there is a message, leaves one less, and wakes the first sender or counts in the lock; likewise. |
| QueueControl.Control.Lock | sw/repo/bsp/freertos_zynq_v1_02_a/src/Source/queue.c:229-241 | Keeps the bounds; both counts start from zero. |
| QueueControl.Control.Check | sw/repo/bsp/freertos_zynq_v1_02_a/src/Source/queue.c:951-985 | The task is to wait iff it has not timed out and there is nothing for it. |
| QueueControl.Control.Place | sw/repo/bsp/freertos_zynq_v1_02_a/src/Source/queue.c:958-971 | It waits, in order, and the bound of its side holds with it: what interrupts did since the check is in the count. |
| QueueControl.Control.UnlockTx | sw/repo/bsp/freertos_zynq_v1_02_a/src/Source/queue.c:1148-1176 | The loop over the count of sends is the unlock of the side, and keeps the bounds. |
| QueueControl.Control.UnlockRx | sw/repo/bsp/freertos_zynq_v1_02_a/src/Source/queue.c:1179-1200 | The loop over the count of receives is, too. |
| QueueControl.Control.Abandon | sw/repo/bsp/freertos_zynq_v1_02_a/src/Source/tasks.c:918-930 | A task that is suspended, deleted or timed out leaves both lists, and the bounds of both sides hold. |
| QueueControl.AbandonedByAll | sw/repo/bsp/freertos_zynq_v1_02_a/src/Source/tasks.c:310-320 | The same of the lists as values, from any state of a run. |
| RecursiveMutex.StepKeepsInv | sw/repo/bsp/freertos_zynq_v1_02_a/src/Source/queue.c:351-433 | Every part of a recursive take or give, interleaved with those of other tasks, keeps holder, count and token in step. |
| RecursiveMutex.FreeIffCountIsZero | sw/repo/bsp/freertos_zynq_v1_02_a/src/Source/queue.c:351-433 | In every run, between calls, the mutex is free iff the count is zero iff there is no holder; else the count is the holder's unmatched takes, and nobody else has any. |
| RecursiveMutex.OneOwner | sw/repo/bsp/freertos_zynq_v1_02_a/src/Source/queue.c:400-433 | At most one task is past the token, and it is the holder. |
| RecursiveMutex.GiveReleasesIffLast | sw/repo/bsp/freertos_zynq_v1_02_a/src/Source/queue.c:351-393 | A give by a task without unmatched takes is refused and changes nothing; otherwise the count does not underflow and the mutex is released iff it matches the first take. |
| RecursiveMutex.DepthIsUnmatched | sw/repo/bsp/freertos_zynq_v1_02_a/src/Source/queue.c:351-433 | What unmatched means: the task's takes that succeeded less its gives that were accepted, counted over the run; for the holder that is the count. |
| RecursiveMutex.CallsGoOn | sw/repo/bsp/freertos_zynq_v1_02_a/src/Source/queue.c:351-433 | In every run a take ends at once iff the task has unmatched takes, its receive gets the token iff nobody has any and nobody is past the token, and a give goes on to release iff one is left. |
| RecursiveMutex.TakeStep | sw/repo/bsp/freertos_zynq_v1_02_a/src/Source/queue.c:411-415 | On the queue's own fields: counts iff the caller holds it. |
| RecursiveMutex.AcquireStep | sw/repo/bsp/freertos_zynq_v1_02_a/src/Source/queue.c:418-425 | The receive in a take; the count is not disturbed by the copy routine. |
| RecursiveMutex.GiveStep | sw/repo/bsp/freertos_zynq_v1_02_a/src/Source/queue.c:363-383 | Counts down iff the caller holds it, and tells the last. |
| RecursiveMutex.ReleaseStep | sw/repo/bsp/freertos_zynq_v1_02_a/src/Source/queue.c:375-380 | The send in a give; it clears the holder and leaves the count. |
| Timers.ProcessedIffAged | sw/repo/bsp/freertos_zynq_v1_02_a/src/Source/timers.c:452-490 | Whatever the clocks, a timer is processed at once iff the wrapped age of its command is a period or more. |
| Timers.PlacedRightIffPast | sw/repo/bsp/freertos_zynq_v1_02_a/src/Source/timers.c:452-490 | The timer is processed iff its expiry has passed, and else listed under the epoch the expiry falls in, iff the command is not younger than the sample; this is false of commands sent after it. |
| TimerBursts.DrainRunsAgeOverPeriod | sw/repo/bsp/freertos_zynq_v1_02_a/src/Source/timers.c:493-563 | A drain that finds one start command of an auto-reload timer runs its callback as often as periods fit into the wrapped age of the command. |
| TimerBursts.DrainLeavesOthers | sw/repo/bsp/freertos_zynq_v1_02_a/src/Source/timers.c:493-563 | A timer with no command queued gets no callback from a drain. |
| TimerBursts.LateCommandIsReached | sw/repo/bsp/freertos_zynq_v1_02_a/src/Source/timers.c:429-449 | A new daemon that samples the time, and a task that then starts a timer at the next tick, come to such a drain. |
| TimerBursts.LateCommandBursts | sw/repo/bsp/freertos_zynq_v1_02_a/src/Source/timers.c:502-504 | It runs the callback (n - 1) / period times, though no period has passed. |
| Timers.FlushHeadAdvances | sw/repo/bsp/freertos_zynq_v1_02_a/src/Source/timers.c:580-615 | Each turn of the list switch brings its timers nearer the end of the epoch in total, so it ends. |
| TimerRuns.StepKeepsWellFormed | sw/repo/bsp/freertos_zynq_v1_02_a/src/Source/timers.c:330-351 | Every step keeps both timer lists sorted and disjoint, all values below the wrap and the queue within its length. |
| TimerRuns.SampledNow | sw/repo/bsp/freertos_zynq_v1_02_a/src/Source/timers.c:429-449 | After a sample the daemon's unwrapped clock is the sampled time, wrapped or not. |
| TimerRuns.EnlistedAt | sw/repo/bsp/freertos_zynq_v1_02_a/src/Source/timers.c:452-490 | A timer enlisted by a command in the last wrap is due now, or listed under exactly command + period. |
| TimerRuns.FlushInStep | sw/repo/bsp/freertos_zynq_v1_02_a/src/Source/timers.c:566-620 | A list switch runs a timer's callback once for each expiry in the ended epoch; the next one is queued, undrifted, iff the queue has room when the timer's own command is sent. |
| TimerRuns.FlushRunsOut | sw/repo/bsp/freertos_zynq_v1_02_a/src/Source/timers.c:566-620 | It leaves no expiry of the ended epoch behind, room or not: the next one of a timer that was listed for it is in the next epoch. |
| TimerRuns.StepInStep | sw/repo/bsp/freertos_zynq_v1_02_a/src/Source/timers.c:294-327 | Every step keeps an auto-reload timer's chain of expiries unbroken and runs none early, and the timer goes on iff the step has room for the command that reloads it. |
| TimerRuns.StartIsTracked | sw/repo/bsp/freertos_zynq_v1_02_a/src/Source/timers.c:244-273 | Posting a start for an idle timer begins such a chain. |
| TimerRuns.CallbacksAreExact | sw/repo/bsp/freertos_zynq_v1_02_a/src/Source/timers.c:566-620 | In any run, full queue or not, the k-th callback is for start + k * period, none early; and whenever the timer is listed for a time to come exactly the callbacks for the periods passed have run. |
| TimerRuns.GoesOnIffRoom | sw/repo/bsp/freertos_zynq_v1_02_a/src/Source/timers.c:315-321 | In any run the timer is still listed or commanded iff the queue had room each time the daemon sent the command that reloads it. |
| TimerRuns.DroppedForGood | sw/repo/bsp/freertos_zynq_v1_02_a/src/Source/timers.c:609-613 | If it had not, no callback of the timer runs in any continuation in which nobody else commands it. |
| TimerRuns.BlockedIsCaughtUp | sw/repo/bsp/freertos_zynq_v1_02_a/src/Source/timers.c:354-400 | Whenever the daemon may block, its queue empty and its first timer not due, (now - start) / period callbacks have run, iff there was room throughout or the next expiry is still to come. |
| TimerDrops.ReloadIsDropped | sw/repo/bsp/freertos_zynq_v1_02_a/src/Source/timers.c:315-321 | A run in which the daemon is a period late, finds its queue full and drops a timer after its first callback. |
| OneShot.StepOnce | sw/repo/bsp/freertos_zynq_v1_02_a/src/Source/timers.c:294-327 | Every step keeps a one-shot timer listed for start + period, in its queued command, or spent after one callback. |
| OneShot.FiresExactlyOnce | sw/repo/bsp/freertos_zynq_v1_02_a/src/Source/timers.c:294-327 | In any run a one-shot timer's callback runs at most once, for start + period and not before; whenever the daemon may block it has run iff that time has come. |
| OneShot.StartIsArmed | sw/repo/bsp/freertos_zynq_v1_02_a/src/Source/timers.c:244-273 | Posting a start for an idle one-shot timer begins such a run. |
| TimerService.ReceiveAdvances | sw/repo/bsp/freertos_zynq_v1_02_a/src/Source/timers.c:493-563 | Each received command leaves less work in the queue, though it may send another. |
| TimerService.Drain | sw/repo/bsp/freertos_zynq_v1_02_a/src/Source/timers.c:493-563 | So draining the queue ends, with the queue empty. |
| TimerService.DrainWith | sw/repo/bsp/freertos_zynq_v1_02_a/src/Source/timers.c:493-563 | It also ends with finitely many commands sent by other tasks before its turns. |
| TimerDrains.DrainIsRun | sw/repo/bsp/freertos_zynq_v1_02_a/src/Source/timers.c:493-563 | Draining is nothing but receiving, command by command, until the queue is empty. |
| TimerDrains.DrainWithIsRun | sw/repo/bsp/freertos_zynq_v1_02_a/src/Source/timers.c:493-563 | With other tasks sending it is that and the commands they send, each sent once and in order, as far as they get before the queue is empty. |
| TimerDrains.ProcessingIsRun | sw/repo/bsp/freertos_zynq_v1_02_a/src/Source/timers.c:493-563 | So the whole pass is a run to which CallbacksAreExact and GoesOnIffRoom apply, for a timer in step whose queued command is timely and that nobody else commands. |
| TimerDrains.ProcessingIsRunOnce | sw/repo/bsp/freertos_zynq_v1_02_a/src/Source/timers.c:493-563 | And one to which FiresExactlyOnce does, for a one-shot timer. |
| TimerDrains.StartIsServed | sw/repo/bsp/freertos_zynq_v1_02_a/src/Source/timers.c:504-542 | A start sent to an idle timer during a drain, that finds room, ends with the timer listed for exactly a period after it or, if that has passed, with its callback run for then. |
| TimerDrains.StoppedIsQuiet | sw/repo/bsp/freertos_zynq_v1_02_a/src/Source/timers.c:544-558 | A stop or delete that is the last command for its timer leaves it on no list and in no command, without a callback. |
| TimerDrains.QuietForGood | sw/repo/bsp/freertos_zynq_v1_02_a/src/Source/timers.c:544-558 | And no callback of it runs in any continuation in which nobody commands it. |
| TimerDrains.ChangedPeriodIsListed | sw/repo/bsp/freertos_zynq_v1_02_a/src/Source/timers.c:548-552 | A change of period that is the last command for its timer lists it for exactly the new period from the sample, without a callback. |
| TimerDrains.ChangedPeriodIsInStep | sw/repo/bsp/freertos_zynq_v1_02_a/src/Source/timers.c:548-552 | From there on the theorems about runs apply to it, if no callback of it ran before. |
| TimerService.Service.GenericCommand | sw/repo/bsp/freertos_zynq_v1_02_a/src/Source/timers.c:244-273 | Sent iff there is room, behind the commands there are for its timer and no other's. |
| TimerService.Service.InsertTimerInActiveList | sw/repo/bsp/freertos_zynq_v1_02_a/src/Source/timers.c:452-490 | The timer is to be processed now iff a period has passed since its command, and is else listed for exactly a period after it; the lists stay in order. |
| TimerService.Service.ExpireHead | sw/repo/bsp/freertos_zynq_v1_02_a/src/Source/timers.c:580-615 | The first timer's callback runs for the time it was listed for, and the list comes nearer the end of the epoch. |
| TimerService.Service.SwitchTimerLists | sw/repo/bsp/freertos_zynq_v1_02_a/src/Source/timers.c:566-620 | The loop ends and is the flush of the list, followed by the swap. |
| TimerService.Service.SampleTimeNow | sw/repo/bsp/freertos_zynq_v1_02_a/src/Source/timers.c:429-449 | Switches the lists iff the counter went down. |
| TimerService.Service.ProcessExpiredTimer | sw/repo/bsp/freertos_zynq_v1_02_a/src/Source/timers.c:294-327 | The first timer's callback runs for the time it was listed for; the lists stay in order. |
| TimerService.Service.ProcessCommand | sw/repo/bsp/freertos_zynq_v1_02_a/src/Source/timers.c:504-562 | There is less left to do in the queue, the lists stay in order, and no other timer has noticed. |
| TimerService.Service.ProcessReceivedCommands | sw/repo/bsp/freertos_zynq_v1_02_a/src/Source/timers.c:493-563 | One sample and a loop that ends with the queue empty, whatever other tasks send before its turns; the result is DrainWith of what they send, so TimerDrains says what it did. |
| TimerService.Service.GetNextExpireTime | sw/repo/bsp/freertos_zynq_v1_02_a/src/Source/timers.c:403-426 | The earliest expiry listed, or zero for the wrap. |
| TimerService.Service.ProcessTimerOrBlock | sw/repo/bsp/freertos_zynq_v1_02_a/src/Source/timers.c:354-400 | The daemon blocks exactly until the head's expiry, or until the wrap. |
| SelectScan.SelScan | sw/repo/bsp/lwip140_v2_1/src/lwip-1.4.0/src/api/sockets.c:1013-1069 | Exactly the sockets asked about that are ready, per set, and their number. |
| SelectScan.EmptyScanIff | sw/repo/bsp/lwip140_v2_1/src/lwip-1.4.0/src/api/sockets.c:1013-1069 | The scan comes out empty iff no watched socket is ready for the selector. |
| Select.CountKeepsInv | sw/repo/bsp/lwip140_v2_1/src/lwip-1.4.0/src/api/sockets.c:1138-1150 | select_waiting stays the number of selectors counted on the socket. |
| Select.WalkKeepsInv | sw/repo/bsp/lwip140_v2_1/src/lwip-1.4.0/src/api/sockets.c:1308-1345 | A callback that goes on, or starts over because the list changed, visits every selector it owes a visit. |
| Select.NotifyKeepsInv | sw/repo/bsp/lwip140_v2_1/src/lwip-1.4.0/src/api/sockets.c:1273-1306 | An event with nobody counted on the socket needs no walk; any other begins one that owes everybody a visit. |
| Select.StepKeepsInv | sw/repo/bsp/lwip140_v2_1/src/lwip-1.4.0/src/api/sockets.c:1075-1206 | Every step of every selector and callback keeps the invariant. |
| Select.NoLostSelect | sw/repo/bsp/lwip140_v2_1/src/lwip-1.4.0/src/api/sockets.c:1234-1347 | In every interleaving, if a selector sleeps unsignalled while a watched socket has an event for it, a callback for that socket is under way and has yet to reach it or will start over. |
| Select.OnlyLeftoverDataIsMissed | sw/repo/bsp/lwip140_v2_1/src/lwip-1.4.0/src/api/sockets.c:1044-1048 | With no callback under way, a sleeping selector's socket would scan ready iff it has left-over data and is watched for reading. |
| Select.CallbackEnds | sw/repo/bsp/lwip140_v2_1/src/lwip-1.4.0/src/api/sockets.c:1308-1345 | Without further changes of the list each section of a callback brings it nearer its end. |
| Select.LeftoverDataIsMissed | sw/repo/bsp/lwip140_v2_1/src/lwip-1.4.0/src/api/sockets.c:612-618 | A reachable state in which another thread's partial read leaves a selector asleep on a readable socket. |
| SelectEvents.EventsAreThoseThatCame | sw/repo/bsp/lwip140_v2_1/src/lwip-1.4.0/src/api/sockets.c:1273-1295 | In every run rcvevent is the first value and the arrivals less the removals, the socket is writable iff the last event about sending said so, and has an error iff one came. |
| SelectEvents.WishesAreKept | sw/repo/bsp/lwip140_v2_1/src/lwip-1.4.0/src/api/sockets.c:1110-1136 | In every run a selector is listed with the sets it asked for, from when it enlists until it leaves. |
| SelectEvents.SignalMeansReady | sw/repo/bsp/lwip140_v2_1/src/lwip-1.4.0/src/api/sockets.c:1310-1335 | Nobody is signalled but on the list, by a callback for a socket that is then ready for it, and nobody is unsignalled. |
| SelectEvents.ScanFindsReady | sw/repo/bsp/lwip140_v2_1/src/lwip-1.4.0/src/api/sockets.c:1152-1163 | The second scan finds a socket iff it is ready, and is done with it iff not. |
| SocketLayer.Sockets.Enlist | sw/repo/bsp/lwip140_v2_1/src/lwip-1.4.0/src/api/sockets.c:1110-1136 | Keeps the invariant; the selector is first in the list, with the sets asked for and unsignalled, and every callback between two sections will start over. |
| SocketLayer.Sockets.Count | sw/repo/bsp/lwip140_v2_1/src/lwip-1.4.0/src/api/sockets.c:1138-1150 | Keeps the invariant; select_waiting is the number of selectors counted on the socket, this one among them. |
| SocketLayer.Sockets.Uncount | sw/repo/bsp/lwip140_v2_1/src/lwip-1.4.0/src/api/sockets.c:1171-1182 | Likewise, this one no longer among them. |
| SocketLayer.Sockets.Delist | sw/repo/bsp/lwip140_v2_1/src/lwip-1.4.0/src/api/sockets.c:1183-1197 | Keeps the invariant; the selector is gone and every callback between two sections will start over. |
| SocketLayer.Sockets.Visit | sw/repo/bsp/lwip140_v2_1/src/lwip-1.4.0/src/api/sockets.c:1310-1335 | The chain of tests signals iff not yet signalled and ready. |
| SocketLayer.Sockets.Notify | sw/repo/bsp/lwip140_v2_1/src/lwip-1.4.0/src/api/sockets.c:1273-1338 | The fields of the socket say what the event says and no other socket changes; keeps the invariant; with no callback left under way every sleeper the socket is ready for has been signalled. |
| SocketLayer.Sockets.Proceed | sw/repo/bsp/lwip140_v2_1/src/lwip-1.4.0/src/api/sockets.c:1336-1345 | Likewise. |
| SocketLayer.Sockets.EventCallback | sw/repo/bsp/lwip140_v2_1/src/lwip-1.4.0/src/api/sockets.c:1234-1347 | Uninterrupted: the fields of the socket say what the event says, and exactly the listed selectors the event is for are signalled, if any are counted. |
| Accept.EventsAreConserved | sw/repo/bsp/lwip140_v2_1/src/lwip-1.4.0/src/api/sockets.c:372-390 | However events and lwip_accept interleave, the new socket ends with a 16-bit rcvevent of the arrivals less the removals, but for those applied before the hand-over. |
| Accept.ExactIffNoneRemovedEarly | sw/repo/bsp/lwip140_v2_1/src/lwip-1.4.0/src/api/sockets.c:1245-1264 | That is arrivals less removals iff the number of removals applied before the hand-over is zero modulo 65536. |
| Accept.NothingIsLost | sw/repo/bsp/lwip140_v2_1/src/lwip-1.4.0/src/api/sockets.c:372-390 | It is in every run in which no removal begins before the hand-over. |
| Accept.EarlyRemovalIsLost | sw/repo/bsp/lwip140_v2_1/src/lwip-1.4.0/src/api/sockets.c:1245-1264 | A run of the callback in which one does, and the socket counts data that has been taken; no call of the API makes such a removal, as nobody has the new netconn to read from before lwip_accept returns. |
| Receive.StreamIsPreserved | sw/repo/bsp/lwip140_v2_1/src/lwip-1.4.0/src/api/sockets.c:549-731 | In every run of calls and arrivals, however cut and interleaved, all that arrived is what was returned and then what is pending. |
| Receive.EventsAreThoseThatCame | sw/repo/bsp/lwip140_v2_1/src/lwip-1.4.0/src/api/api_msg.c:347-404 | Whatever the stack does lands in the mailbox in order, a failure as a null pointer iff there is room; the last error is that of the last failure, and each event is counted in rcvevent or still to be. |
| Receive.PeekShowsNext | sw/repo/bsp/lwip140_v2_1/src/lwip-1.4.0/src/api/sockets.c:658-663 | What MSG_PEEK returns is the next to be read after it. |
| Receive.WindowIsExactIff | sw/repo/bsp/lwip140_v2_1/src/lwip-1.4.0/src/api/api_lib.c:376-389 | While there is a pcb the window was opened by what was returned, what was peeked at, and one once the end of the stream was taken; so it is the bytes returned iff neither has happened. |
| Receive.NothingOpenedAfterFailure | sw/repo/bsp/lwip140_v2_1/src/lwip-1.4.0/src/api/api_msg.c:1159-1180 | Once err_tcp has taken the pcb away nothing opens the window, whatever is still read. |
| Receive.EndOpensOneMore | sw/repo/bsp/lwip140_v2_1/src/lwip-1.4.0/src/api/api_lib.c:376-389 | Two bytes and the end of the stream, read to the end: two bytes returned, the window opened by three. |
| Receive.FailureOpensLess | sw/repo/bsp/lwip140_v2_1/src/lwip-1.4.0/src/api/api_msg.c:1159-1180 | Two bytes read one before and one after err_tcp: two returned, the window opened by one. |
| Receive.WouldBlockIffNothingThere | sw/repo/bsp/lwip140_v2_1/src/lwip-1.4.0/src/api/sockets.c:573-589 | In every run a call that may not block never waits, and fails with EWOULDBLOCK iff nothing is left over and rcvevent is not positive; with the connection up and all counted, iff nothing is there. |
| Receive.EndedForGood | sw/repo/bsp/lwip140_v2_1/src/lwip-1.4.0/src/api/api_lib.c:357-364 | Once the end of the stream was taken or the connection has failed, with nothing left over, no call returns data ever again. |
| Receive.FailureCutsOff | sw/repo/bsp/lwip140_v2_1/src/lwip-1.4.0/src/api/api_lib.c:357-364 | So data that is in the mailbox when the connection fails is never read, which the source wonders about. |
| Receive.EndIsRepeatedIff | sw/repo/bsp/lwip140_v2_1/src/lwip-1.4.0/src/api/sockets.c:573-616 | In every run, once the end was taken and nothing is left over, and ever after, whatever the stack does: a call is told of the end iff it may block or rcvevent is positive, and the connection has not failed; it gets EWOULDBLOCK iff neither. |
| Receive.EndIsSwallowed | sw/repo/bsp/lwip140_v2_1/src/lwip-1.4.0/src/api/api_lib.c:391-396 | A run in which a reader that never blocks is not told of the end: the call that took it returned data, and a later one says EWOULDBLOCK. |
| Receive.LeftoverIsReturned | sw/repo/bsp/lwip140_v2_1/src/lwip-1.4.0/src/api/sockets.c:568-573 | What was left over is returned whatever happens, as far as it fits. |
| Receive.ZeroMeansEnd | sw/repo/bsp/lwip140_v2_1/src/lwip-1.4.0/src/api/sockets.c:600-616 | In every run without empty pbufs, zero for a positive length means that the stream has ended or failed. |
| StreamSocket.Socket.Fetch | sw/repo/bsp/lwip140_v2_1/src/lwip-1.4.0/src/api/api_lib.c:342-422 | The next mail, an earlier fatal error or a time-out, on the fields, is the fetch the theorems are about. |
| StreamSocket.Socket.Recved | sw/repo/bsp/lwip140_v2_1/src/lwip-1.4.0/src/api/api_msg.c:1159-1180 | The window opens in 16-bit steps that add up to the length, or not at all without a pcb. |
| StreamSocket.Socket.Loop | sw/repo/bsp/lwip140_v2_1/src/lwip-1.4.0/src/api/sockets.c:568-723 | The loop ends and is the recursion the theorems are about. |
| StreamSocket.Socket.RecvFrom | sw/repo/bsp/lwip140_v2_1/src/lwip-1.4.0/src/api/sockets.c:549-731 | So the whole call is, and it keeps stream and window in step. |
| Netconn.WriteMoreKeepsInv | sw/repo/bsp/lwip140_v2_1/src/lwip-1.4.0/src/api/api_msg.c:1193-1303 | Each resumption passes TCP the next bytes, or ends the write. |
| Netconn.StepKeepsInv | sw/repo/bsp/lwip140_v2_1/src/lwip-1.4.0/src/api/api_msg.c:276-404 | Every request and callback keeps state, current_msg and write_offset in step. |
| Netconn.EveryCallIsAnsweredOnce | sw/repo/bsp/lwip140_v2_1/src/lwip-1.4.0/src/api/api_msg.c:347-404 | In any run each call is signalled on op_completed exactly once and in order, but for the one in progress, whatever err_tcp does. |
| Netconn.WritesAreHonest | sw/repo/bsp/lwip140_v2_1/src/lwip-1.4.0/src/api/api_msg.c:1193-1303 | The bytes TCP accepted are those of the writes in order; a write ends ERR_OK iff TCP has all of it; one that may not block is all or nothing. |
| NetconnRuns.ResumedWriteEnds | sw/repo/bsp/lwip140_v2_1/src/lwip-1.4.0/src/api/api_msg.c:1259-1266 | As many resumptions with room as there are bytes left end a write with ERR_OK, however little the room. |
| NetconnRuns.OffsetIsZeroIff | sw/repo/bsp/lwip140_v2_1/src/lwip-1.4.0/src/api/api_msg.c:1278-1282 | In every run, between writes, write_offset is zero iff the last write begun was not broken off, by a tcp_write that failed or by err_tcp, after part of it was accepted. |
| NetconnRuns.AssertionHoldsIff | sw/repo/bsp/lwip140_v2_1/src/lwip-1.4.0/src/api/api_msg.c:1435-1440 | And do_write, do_close and do_delconn find what they assert, no current message and offset zero, iff that is so. |
| NetconnRuns.AssertionFails | sw/repo/bsp/lwip140_v2_1/src/lwip-1.4.0/src/api/api_msg.c:1435-1440 | A run of two steps after which they do not. |
| Netconn.UnblockingWriteSucceedsIff | sw/repo/bsp/lwip140_v2_1/src/lwip-1.4.0/src/api/api_msg.c:1232-1248 | A write that may not block succeeds iff it fits the send buffer and 65535 bytes and tcp_write takes it. |
| NetconnRuns.CallerIsStrandedIff | sw/repo/bsp/lwip140_v2_1/src/lwip-1.4.0/src/api/api_msg.c:386-403 | If closing a connecting netconn could fail: in every run a caller is left waiting for ever iff err_tcp comes to a netconn that is being closed and was connecting without blocking. |
| NetconnRuns.CloserIsStranded | sw/repo/bsp/lwip140_v2_1/src/lwip-1.4.0/src/api/api_msg.c:820-862 | A run of four steps in which one is. |
| NetconnReplies.StepEndsRight | sw/repo/bsp/lwip140_v2_1/src/lwip-1.4.0/src/api/api_msg.c:820-1095 | Every event ends the one request it should, or none, with the result that the fields it finds and TCP's answer call for. |
| NetconnReplies.ResultsAreRight | sw/repo/bsp/lwip140_v2_1/src/lwip-1.4.0/src/api/api_msg.c:820-1095 | In every run each reply is the right one for the event that gave it: a connect answered at once is refused iff TCP refused it, in progress iff it was started without blocking, and else tells of the state or the missing pcb. |
| NetconnReplies.SuccessIff | sw/repo/bsp/lwip140_v2_1/src/lwip-1.4.0/src/api/api_msg.c:925-1095 | In every run a connect succeeds iff TCP reports that it did, a close iff TCP closes, then or later, a delete also if there is no pcb, a listen iff the netconn listens from then on. |
| NetconnReplies.PcbIsThereIff | sw/repo/bsp/lwip140_v2_1/src/lwip-1.4.0/src/api/api_msg.c:735-810 | In every run the pcb is there iff the connection has not failed and no close or delete succeeded, and the mode is the one asked for last. |
| NetconnObject.NextBytesPassed | sw/repo/bsp/lwip140_v2_1/src/lwip-1.4.0/src/api/api_msg.c:1193-1303 | A resumption adds to what TCP has accepted exactly the next of the write's bytes, and signals its caller or nobody. |
| NetconnObject.TcpNetconn.WriteMore | sw/repo/bsp/lwip140_v2_1/src/lwip-1.4.0/src/api/api_msg.c:1193-1303 | Keeps the invariant; the write is in progress or its caller, and nobody else, has been signalled. |
| NetconnObject.TcpNetconn.DoWrite | sw/repo/bsp/lwip140_v2_1/src/lwip-1.4.0/src/api/api_msg.c:1313-1359 | Likewise; one that may not block is never left in progress, and one answered at once is told what the fields and TCP's answer call for. |
| NetconnObject.TcpNetconn.CloseMore | sw/repo/bsp/lwip140_v2_1/src/lwip-1.4.0/src/api/api_msg.c:735-810 | The caller is signalled, and the pcb gone, iff the close succeeds. |
| NetconnObject.TcpNetconn.DoClose | sw/repo/bsp/lwip140_v2_1/src/lwip-1.4.0/src/api/api_msg.c:1421-1452 | Keeps the invariant; the caller waits only for a close that did not succeed at once, and is else signalled, ERR_OK iff TCP closed. |
| NetconnObject.TcpNetconn.DoDelete | sw/repo/bsp/lwip140_v2_1/src/lwip-1.4.0/src/api/api_msg.c:820-875 | Keeps the invariant; the caller waits or is signalled, ERR_OK iff TCP closed or there was no pcb, and then the pcb is gone. |
| NetconnObject.TcpNetconn.DoConnect | sw/repo/bsp/lwip140_v2_1/src/lwip-1.4.0/src/api/api_msg.c:972-1020 | Keeps the invariant; the caller waits iff the connect was started and blocks, and is else told that it was refused, is in progress, is connected or has no pcb, each iff it is so. |
| NetconnObject.TcpNetconn.DoListen | sw/repo/bsp/lwip140_v2_1/src/lwip-1.4.0/src/api/api_msg.c:1052-1100 | Keeps the invariant; the caller is told ERR_OK iff the netconn listens from then on. |
| NetconnObject.TcpNetconn.Connected | sw/repo/bsp/lwip140_v2_1/src/lwip-1.4.0/src/api/api_msg.c:925-961 | Keeps the invariant; whoever waited for the connection is told how it ended, and nobody else anything. |
| NetconnObject.TcpNetconn.Resume | sw/repo/bsp/lwip140_v2_1/src/lwip-1.4.0/src/api/api_msg.c:277-336 | Keeps the invariant; the request in progress goes on or its caller is signalled, and nobody else. |
| NetconnObject.TcpNetconn.ErrTcp | sw/repo/bsp/lwip140_v2_1/src/lwip-1.4.0/src/api/api_msg.c:347-404 | Keeps the invariant; nobody is left waiting, and whoever was is told of the failure. |

## Left out

- Netconn.EveryCallIsAnsweredOnce: assumes that TCP never fails to close a pcb that is still connecting; without that it is false, and NetconnRuns says exactly when.
- QueueProtocol.NoLostWakeUp: does not cover suspending a woken task; vTaskSuspend leaves such a task counted as woken although it will not try until it is resumed.
- EventOrder.EventWakesHighest: for runs in which no waiting task is repriced, no inheriting task has its priority set, and the restricted way of blocking has its list to itself; InheritKeepsOrderIff and SetPriorityKeepsOrderIff say when the first two do no harm.
- QueueProtocol.WokenIsFirst: event values do not change in a run.
- Ticks.ExpiryIsExact: needs the overflow count to be seen at most one wrap late; what happens otherwise is ExpiryIsExactUnless.
- TimerRuns.CallbacksAreExact: one auto-reload timer without other commands to it; what a stop, a delete or a change of period does is in TimerDrains, for the last command to a timer; one-shot timers are in OneShot.
- TimerRuns.GoesOnIffRoom: commands sent by others in the middle of a list switch or of prvProcessExpiredTimer count as sent before or after it; those sent between receiving a command and reloading its timer are in the steps, but not in TimerService.
- Accept.EventsAreConserved: the socket field of a netconn, an int in the source, is unbounded.
- Select.NoLostSelect: watched sockets stay open, and select_cb_ctr is unbounded: a full wrap of it between two sections of one callback is not modelled.
- IntrusiveList.Remove: a list item is on a list of this model or on none; the scheduler, queue and timer models use lists as values, which this file shows the linked lists to refine.
- Receive.StreamIsPreserved: TCP sockets only; what the stack does during a call is a parameter, the sender's address is not modelled, and rcvevent is unbounded, as a mailbox never holds as many mails as 16 bits count.
- TimerService.Service.ProcessReceivedCommands: other tasks send finitely many commands during one drain; with commands for ever the source's loop does not end either.
- Queue contents and queue waiting are separate models (QueueStore, QueueProtocol); the second counts messages only.
- Low-water marks and the send events that follow them in the netconn callbacks.
- Co-routines, the alternative queue API, queue registry, trace, run-time statistics, stack checks, hooks and MPU support.
- Context-switch assembly and interrupt masking: each is the atomicity of a step.
- Memory allocation beyond a yes or no in queue creation; running out of memory in task and timer creation.
- The scheduler after it ends, and calls other than xTaskCreate before it starts; the idle task beyond its clean-up.
- Socket options, sendto, bind, connect and close of sockets.c, and the RAW, UDP, DNS and IGMP branches of api_msg.c.
- TCP itself: tcp_write, tcp_close and tcp_connect may answer anything the model's premises allow.
