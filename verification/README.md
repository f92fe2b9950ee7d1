# FreeRTOS kernel: a verified model

A Dafny model of the FreeRTOS V10.4.3 kernel in the configuration this firmware builds: the
scheduler, queues and mutexes, software timers, event groups, stream and message buffers, and
the linked list under all of them.  Every claim below holds for all inputs and all runs of the
model.

The port is rv64 (`portmacro.h`, lines 47-66, and `-march=rv64...` in the build), so
`TickType_t` and `EventBits_t` are 64 bits wide and `portMAX_DELAY` is 2^64 - 1.  Nothing in the
proofs depends on the width.  True times are unbounded naturals; the kernel's words are their
low 64 bits, and the number of wraps is their high part.

## How it is laid out

- `Ticks`, `Lists`, `Sequences`: tick words and true times; the list as a sequence with an index;
  facts about sequences.
- `PointerList`: list.c on the heap, its pointers tied to `Lists`.
- `Kernel`: the scheduler's state and operations, one critical section or interrupt each.
  `KernelInvariants`, `KernelRuns`: what they keep.  `KernelTheorems`: waking on time and the
  ticks of a suspended scheduler.  `KernelSelection`: the ready bitmap and the task report.
  `KernelPreemption`: when a context switch is asked for.  `StaleBit`: a run.
- `TaskStates`: the task state diagram, with no lists and no clock, and that the scheduler follows it.
  `Suspension`: how suspensions of the scheduler nest, and what they hold back.
- `Scheduler`: the same operations as tasks.c has them, on file-scope variables with loops, each
  method tied to its operation in `Kernel`.
- `Timeouts`, `Notifications`: time-outs across spurious wake-ups; direct-to-task notifications on
  top of the scheduler of `Kernel`.
- `QueueRing`: the item storage.  `QueueWakeups`: the lock-count protocol between tasks and
  interrupts.  `QueueAccounts`: what it does to the count and to those who wait.  `LostWakeUps`:
  runs of it in which wake-ups are lost.
- `Mutexes`, `MutexRuns`, `OvertakingRun`: priority inheritance, its runs, and one in which it fails.
  `LentPriorities`: where raised priorities come from.
- `Timers`, `TimerRuns`, `OneShots`, `TimerDaemon`: the timer daemon, its runs for auto-reload and for
  one-shot timers, and its code in place.  `TimerCommands`: what a command does for good.
  `TimerProgress`: that the daemon catches up.
- `EventGroups`, `EventFlags`, `Barrier`: event groups, what they mean flag by flag, and the rendezvous
  built on them.
- `StreamBuffers`, `MessageInterleaving`, `MessageProgress`: the byte ring with framed messages, one
  writer and one reader interleaved at every byte, and that their calls end.

## Where the code differs from what is said of it

- `vListInsertEnd` says that the new item will be the last a traversal returns (list.c, lines
  96-98).  That is so exactly while the index is on the end marker
  (`Lists.AppendedLast`); otherwise it is the last but one.
- `vTaskPriorityDisinheritAfterTimeout` clears the ready bit of the priority just lowered to, not
  of the one left (tasks.c, line 4341).  The invariant of the scheduler stands exactly if the
  holder was not alone in its ready list (`KernelSelection.DisinheritKeepsExactly`), and runs of
  `Kernel` take the step where it does.  `StaleBit` has a run to a state where it does not: the
  task whose wait expired runs above the holder because it holds a mutex itself, for which a
  higher task waits.
- `xQueueGenericSend` looks at the disinheritance's own wish to yield only if no task waits for the
  mutex (queue.c, lines 866-897).  A giver that drops to its base priority and wakes a waiter not
  above it runs on although a third task may be above it (`Mutexes.YieldMissed`), also through later
  wakes of tasks that are not above it, and may take another mutex over the head of its first
  waiter.  `OvertakingRun` has such a run from a start.
  Inheritance holds throughout a run exactly if no task overtakes a waiter in this way
  (`MutexRuns.InheritanceHoldsExactly`).
- A task that takes a notification without blocking while the scheduler is suspended, finds
  nothing, and is still held pending from an earlier give, is put on the pending list again by the
  next give (tasks.c, lines 5205-5216; `Notifications.TakesWhilePendedPendTwice`).
  `Notifications.TakesWhilePendedReached` has the run.
- The timer daemon can only tell one wrap from none.  `TimerRuns.NoDriftExactly` says when that is
  enough for a timer to keep its schedule, and `TimerRuns.UnseenWrapMissesExpiry` has a run in which
  it is not.
- `xQueueGenericReset` frees every slot but wakes one sender; `QueueWakeups.ResetServesSenders` says
  when that is enough, and `LostWakeUps.ResetStrandsSender` has a run in which it is not.
- The lock counts of a queue are 8 bits wide.  The source asserts that they do not wrap;
  `LostWakeUps.WrappedCountReached` has a run in which one does, and a receiver waits in vain.
- Overwriting in a queue of more than one item breaks the ring unless the queue is empty
  (`QueueRing.OverwriteIsForOneSlot`); the source asserts a length of one.
- `xTaskCheckForTimeOut` compares wrap counts for inequality only; `Timeouts.CheckIsExact` gives the
  one case, two wraps or more, in which it misses an expiry.

## Hypotheses

- Waking on time: no step but the passing of time acts on the sleeping task.
- Lost wake-ups: an interrupt never finds a lock count at 127 (asserted by the source); no woken
  task is deleted or suspended; for senders, no reset.
- Inheritance: tasks that wait for a mutex hold none; mutexes are used outside `vTaskSuspendAll`; no
  task is deleted, suspended or given a new base priority; nobody overtakes a waiter, which is
  exact.
- Timers: sends to the daemon succeed; nobody else commands the timer; the daemon is never too late
  for it (`TimerRuns.NeverTooLate`), which is exact for auto-reload and
  for one-shot timers, and which holds if it looks at the clock once
  per wrap and handles each restart less than one wrap after the instant it carries.
- The command loop of the daemon: auto-reload timers have a positive period, as the source asserts.
- Notifications: no take while still held pending that finds nothing, which is exact.
- Barrier: bits disjoint and non-empty, indefinite waits, nothing else touches the group.
- Message buffers: one writer, one reader, messages of at least one byte, receive buffers that fit.

## Model

| member | source | states |
|---|---|---|
| Lists.InsertKeeps | FreeRTOS/Source/list.c:115-180 | Sorted insertion keeps the list sorted and duplicate-free and adds exactly the new entry |
| Lists.InsertEndKeeps | FreeRTOS/Source/list.c:85-112 | Insertion in front of the index adds exactly the new entry |
| Lists.RemoveEntries | FreeRTOS/Source/list.c:183-209 | Removal takes out exactly the entry of that owner |
| Lists.VisitsRotate | FreeRTOS/Source/include/list.h:279-290 | On n entries, n traversal steps visit each entry once: what follows the index, then what leads up to it |
| Lists.AppendedVisit | FreeRTOS/Source/list.c:85-112 | Where an appended entry comes in a traversal, with the index on the end marker and off it |
| Lists.AppendedLast | FreeRTOS/Source/list.c:85-112 | An appended entry is visited last if and only if the index is on the end marker |
| Lists.AppendedIsNotAlwaysLast | FreeRTOS/Source/list.c:96-98 | A list in which the appended entry is visited before the one already there, against the comment |
| PointerList.RingList.constructor | FreeRTOS/Source/list.c:48-70 | An initialised list is an empty ring |
| PointerList.RingList.Insert | FreeRTOS/Source/list.c:115-180 | The pointer walk ends at the end marker at the latest, and the ring then stands for the stable sorted insertion |
| PointerList.RingList.InsertEnd | FreeRTOS/Source/list.c:85-112 | The new ring stands for insertion in front of the index |
| PointerList.RingList.Remove | FreeRTOS/Source/list.c:183-209 | The ring stays a ring without the item, the index steps back if it was on it, and the count returned is the new length |
| PointerList.RingList.Next | FreeRTOS/Source/include/list.h:279-290 | One traversal step on the pointers is one on the sequence and returns what that visits |
| Ticks.AddWords | FreeRTOS/Source/tasks.c:5340-5388 | Word addition adds true times with a carry of at most one epoch |
| Ticks.SubWords | FreeRTOS/Source/tasks.c:3343-3355 | Word subtraction gives the true distance below one wrap |
| KernelInvariants.CacheIsSound | FreeRTOS/Source/tasks.c:2795-2876 | Scanning only when the tick has reached the cached unblock time wakes exactly the due entries and keeps every invariant |
| KernelInvariants.SwitchKeeps | FreeRTOS/Source/tasks.c:202-214 | Swapping the delayed lists keeps the task lists, the bitmap and the cached unblock time right |
| KernelInvariants.TickedKeeps | FreeRTOS/Source/tasks.c:2766-2800 | The clock moves by one, the current delayed list is empty at every wrap, and no deadline moves |
| KernelInvariants.TickWakesExactlyTheDue | FreeRTOS/Source/tasks.c:2766-2876 | A tick makes exactly the tasks due at the new time ready; every other deadline stands |
| KernelInvariants.MakeReadyTop | FreeRTOS/Source/tasks.c:222-226 | Moving a task to its ready list keeps the ready bitmap exact |
| KernelInvariants.LeaveReadyTop | FreeRTOS/Source/tasks.c:5333-5337 | Leaving a ready list clears its bit exactly when the list empties |
| KernelRuns.BlockLists | FreeRTOS/Source/tasks.c:5316-5426 | Blocking files the running task, under its wake time, in the list of this wrap, of the next, or of those suspended, changes no other list of blocked tasks, and keeps the cached unblock time right |
| KernelRuns.ResumeAllKeeps | FreeRTOS/Source/tasks.c:2239-2347 | Resuming keeps the invariant and turns pended ticks into time, one for one |
| KernelRuns.StepKeeps | FreeRTOS/Source/tasks.c:1089-2347 | Every operation of the scheduler keeps its invariant: one list per task, ready tasks under their priority, exact counters and bitmap, sorted and timely delayed lists, nothing held back once the scheduler runs |
| KernelRuns.RunKeeps | FreeRTOS/Source/tasks.c:1089-2347 | So does every run |
| KernelTheorems.WakesOnTime | FreeRTOS/Source/tasks.c:5316-5426 | A task that blocks for d ticks at true time T, and that only time acts on, is blocked at every state before T + d and ready at every later one, through wraps and suspended ticks |
| KernelTheorems.TickThenResume | FreeRTOS/Source/tasks.c:2239-2347 | A tick taken just before the scheduler resumes does what it would have done just after |
| KernelTheorems.PendedTicksReplay | FreeRTOS/Source/tasks.c:2239-2347 | Resuming with k pended ticks gives the same state as resuming with none and then taking k ticks |
| KernelTheorems.TicksAreConserved | FreeRTOS/Source/tasks.c:2766-2936 | In every run tick count plus pended ticks is the number of tick interrupts, and nothing stays pended or pending once the scheduler runs |
| KernelSelection.FastSelectionIsTheScan | FreeRTOS/Source/tasks.c:137-194 | With an exact bitmap the highest bit names the list the downward scan finds, and it is not empty |
| KernelSelection.SwitchPicksHighest | FreeRTOS/Source/tasks.c:3051-3124 | In every run the switch picks a ready task of the highest ready priority, the next in that list |
| KernelSelection.DisinheritBitExactly | FreeRTOS/Source/tasks.c:4334-4348 | Clearing the bit of the lowered priority keeps the bitmap exact if and only if the holder was not alone in its ready list |
| KernelSelection.DisinheritKeepsExactly | FreeRTOS/Source/tasks.c:4270-4369 | Undoing an inheritance after a time-out keeps the whole invariant if and only if it does not take the holder out of a ready list it was alone in |
| KernelRuns.DisinheritKeeps | FreeRTOS/Source/tasks.c:4270-4369 | As a step of a run, with the bit the code clears, it keeps the invariant wherever it does not spoil the bitmap |
| StaleBit.StaleBitSelectsEmptyList | FreeRTOS/Source/tasks.c:4341 | A run reaches a state in order, with a ready caller and the holder alone in its list, from which the highest bit comes to name an empty list while the holder is ready |
| KernelSelection.TasksArePartitioned | FreeRTOS/Source/tasks.c:1089-1782 | In every run each task is in exactly one state list, the ready list of its own priority if it is ready, and the counter counts the tasks |
| KernelSelection.ListingExact | FreeRTOS/Source/tasks.c:3853-3881 | Listing one state list reports each of its tasks once |
| KernelSelection.ReportIsEveryTaskOnce | FreeRTOS/Source/tasks.c:2563-2631 | The report of all lists holds every task exactly once, and the task count is its length |
| Scheduler.Kernel.constructor | FreeRTOS/Source/tasks.c:3689-3718 | The initial lists satisfy the invariant |
| Scheduler.Kernel.ResetNextTaskUnblockTime | FreeRTOS/Source/tasks.c:4032-4050 | The cached time is the head of the delayed list or the maximum |
| Scheduler.Kernel.AddTaskToReadyList | FreeRTOS/Source/tasks.c:222-226 | Appends to the ready list of the priority and sets its bit |
| Scheduler.Kernel.ListRemove | FreeRTOS/Source/list.c:183-209 | Takes the state item off its list |
| Scheduler.Kernel.SwitchDelayedLists | FreeRTOS/Source/tasks.c:202-214 | The two delayed lists change places and the wrap is counted |
| Scheduler.Kernel.WakeHead | FreeRTOS/Source/tasks.c:2838-2860 | The head of the delayed list goes to its ready list, its event item off its list |
| Scheduler.Kernel.WakeExpiredTasks | FreeRTOS/Source/tasks.c:2802-2876 | The loop computes the recursive scan of the delayed list, and whether it woke a task of at least the running priority |
| Scheduler.Kernel.IncrementTick | FreeRTOS/Source/tasks.c:2766-2936 | The whole tick step, taken or pended, and whether a switch is required |
| Scheduler.Kernel.AddCurrentTaskToDelayedList | FreeRTOS/Source/tasks.c:5316-5426 | Blocks the running task in the suspended, delayed or overflow list |
| Scheduler.Kernel.PlaceOnEventList | FreeRTOS/Source/tasks.c:3127-3142 | Blocks the running task with its event item placed |
| Scheduler.Kernel.RemoveFromEventList | FreeRTOS/Source/tasks.c:3206-3271 | Readies the task, or holds it pending while the scheduler is suspended, and reports and remembers whether it is above the running one |
| Scheduler.Kernel.DrainPendingList | FreeRTOS/Source/tasks.c:2262-2290 | The loop readies every pending task in order, and remembers a yield if one is of at least the running priority |
| Scheduler.Kernel.TakePendedTicks | FreeRTOS/Source/tasks.c:2293-2320 | The loop takes as many ticks as were pended |
| Scheduler.Kernel.ResumeAll | FreeRTOS/Source/tasks.c:2239-2347 | The whole resume step, and whether it called for a yield |
| Scheduler.Kernel.AddNewTaskToReadyList | FreeRTOS/Source/tasks.c:1089-1170 | Counts the task, makes it ready, chooses the current task before the scheduler runs and reports a yield afterwards |
| Scheduler.Kernel.Detach | FreeRTOS/Source/tasks.c:1185-1205 | Off the state list and the event list, the ready bit cleared only if its list is empty |
| Scheduler.Kernel.RemoveFromUnorderedEventList | FreeRTOS/Source/tasks.c:3273-3315 | Readies the task although the scheduler is suspended, and remembers a yield if it is above the running one |
| Scheduler.Kernel.ReadyNotified | FreeRTOS/Source/tasks.c:4965-5001 | The same for a task notified by a task, and says whether it is above the running one |
| Scheduler.Kernel.DeleteTask | FreeRTOS/Source/tasks.c:1175-1267 | Deletes another task, or leaves itself for the idle task |
| Scheduler.Kernel.CheckTasksWaitingTermination | FreeRTOS/Source/tasks.c:3721-3746 | The loop frees every task that deleted itself, none if there is none |
| Scheduler.Kernel.SuspendTask | FreeRTOS/Source/tasks.c:1731-1830 | Moves the task to the suspended list |
| Scheduler.Kernel.ResumeTask | FreeRTOS/Source/tasks.c:1837-1929 | Readies a task that is suspended and nothing else |
| Scheduler.Kernel.PriorityDisinheritAfterTimeout | FreeRTOS/Source/tasks.c:4270-4369 | Lowers the holder to the higher of its base and the first waiter, if it holds one mutex only |
| Scheduler.Kernel.SwitchContext | FreeRTOS/Source/tasks.c:3051-3124 | Steps round the ready list the highest bit names, or remembers a yield while the scheduler is suspended |
| Scheduler.Kernel.SelectByScan | FreeRTOS/Source/tasks.c:137-153 | The loop computes the downward scan |
| Scheduler.Kernel.ListTasks | FreeRTOS/Source/tasks.c:3853-3881 | The loop stops after one full round and has reported each task of the list |
| Scheduler.Kernel.GetSystemState | FreeRTOS/Source/tasks.c:2563-2631 | With room for all tasks the report holds each exactly once; with less room it is empty |
| KernelRuns.ReapAllKeeps | FreeRTOS/Source/tasks.c:3721-3746 | The idle task frees every task that has deleted itself, and the invariant holds |
| KernelPreemption.TickAsksEnough | FreeRTOS/Source/tasks.c:2795-2936 | If a tick does not ask for a switch, the running task is still of the highest ready priority, and alone there |
| KernelPreemption.UnblockAsksEnough | FreeRTOS/Source/tasks.c:3206-3271 | If waking a task does not report a higher one, nobody ready is above the running task |
| KernelPreemption.DirectWakeAsksEnough | FreeRTOS/Source/tasks.c:3273-3315 | The same of a task woken straight to the ready list |
| KernelPreemption.ResumeAsksEnough | FreeRTOS/Source/tasks.c:2239-2347 | If a resume does not report a yield, neither released tasks nor pended ticks have left a task above the running one ready |
| KernelPreemption.StartsWithHighest | FreeRTOS/Source/tasks.c:1095-1130 | Before the scheduler runs, the current task is of the highest priority created |
| KernelPreemption.TickAsksExactly | FreeRTOS/Source/tasks.c:2795-2936 | A tick asks for a switch if and only if after it another task of at least the running priority is ready |
| KernelPreemption.ResumeAsksMeans | FreeRTOS/Source/tasks.c:2239-2347 | A resume asks for one only if such a task is ready after it |
| KernelPreemption.StartsWithLastOfHighest | FreeRTOS/Source/tasks.c:1095-1130 | The scheduler starts with the task created last of those of the highest priority |
| TaskStates.StepFollows | FreeRTOS/Source/tasks.c:1095-4369 | Each step of the scheduler is a step of the task state diagram: ready, asleep, suspended, deleted, with priorities, events, tasks held back and nesting, and neither lists nor clock |
| TaskStates.RunFollows | FreeRTOS/Source/tasks.c:1095-4369 | So every run of the scheduler is a run of the diagram |
| TaskStates.SuspendedStaysAside | FreeRTOS/Source/tasks.c:1731-1929 | A suspended task is not ready at any later point of a run unless it is resumed, notified or deleted |
| TaskStates.DeletedStaysGone | FreeRTOS/Source/tasks.c:1175-1267 | A deleted task is never ready again unless one is created in its place |
| TaskStates.SetAside | FreeRTOS/Source/tasks.c:1175-1929 | Suspending and deleting a task lead there, and resuming a suspended one makes it ready |
| Suspension.NestingCounts | FreeRTOS/Source/tasks.c:2155-2347 | In every run the scheduler is suspended as often as at the start, plus the suspensions, less the resumes |
| Suspension.NothingMoves | FreeRTOS/Source/tasks.c:2155-2347 | While suspensions outnumber resumes the clock stands, ticks pend one for one, nothing is switched, and no task held back is let go unless it is itself deleted, suspended, resumed or woken directly |
| Suspension.OrderStands | FreeRTOS/Source/tasks.c:2155-2347 | Tasks held back keep their order |
| Suspension.HeldToTheLastResume | FreeRTOS/Source/tasks.c:2239-2347 | A sleeping task woken in a suspension is not ready before the resume that ends it, however deep it nests, and is ready then |
| Suspension.LastResumeReadies | FreeRTOS/Source/tasks.c:2239-2347 | The last resume readies every task held back |
| Suspension.ReadiedInOrder | FreeRTOS/Source/tasks.c:2275-2290 | Those of one priority enter their ready list in the order in which they were held back, behind all ready before but the one the index is on |
| Timeouts.TimeOut.CheckForTimeOut | FreeRTOS/Source/tasks.c:3343-3405 | The method computes the check on words that the lemmas are about |
| Timeouts.CheckIsExact | FreeRTOS/Source/tasks.c:3343-3405 | An expiry reported is genuine; the answer is right if and only if it is not the case that two wraps or more have passed, the word is below the entry word and their distance is short of the wait |
| Timeouts.DeadlineStands | FreeRTOS/Source/tasks.c:3343-3405 | Through any number of spurious wake-ups less than two wraps apart, last check plus remaining ticks is the original deadline, and expiry comes at the first check at or after it |
| Timeouts.ForeverIsForever | FreeRTOS/Source/tasks.c:3368-3376 | A wait of the maximum delay never expires |
| Timeouts.TwoWrapsHideAnExpiry | FreeRTOS/Source/tasks.c:3378-3400 | Two wraps between checks can hide an expiry |
| Notifications.Notified.GiveFromISR | FreeRTOS/Source/tasks.c:5157-5239 | On the fields and the scheduler of class `Scheduler.Kernel`, a give is the step Give of the system the conservation theorem is about |
| Notifications.Notified.GiveFromTask | FreeRTOS/Source/tasks.c:4895-5020 | A give from a task is the step TaskGive of that system, and says whether it yields |
| Notifications.Notified.TakeFirst | FreeRTOS/Source/tasks.c:4737-4772 | The first half of a take is the step Enter of that system |
| Notifications.Notified.TakeSecond | FreeRTOS/Source/tasks.c:4774-4802 | The second half is the step Leave, and its result is what it adds to the values returned |
| Notifications.StartHolds | FreeRTOS/Source/tasks.c:838-1086 | Before the first give and the first take the books are in order |
| Notifications.EnterKeepsExactly | FreeRTOS/Source/tasks.c:4737-4772 | Entering a take keeps the books if and only if it does not find nothing while the task is still held pending |
| Notifications.TakesWhilePendedPendTwice | FreeRTOS/Source/tasks.c:5205-5216 | After such a take the next give puts the one event item on the pending list twice |
| Notifications.TakesWhilePendedReached | FreeRTOS/Source/tasks.c:4737-5239 | Such a take can come: a run of four steps from any start in which the task runs ends before one, with the books in order |
| Notifications.StepKeeps | FreeRTOS/Source/tasks.c:4737-5239 | Gives from tasks and interrupts, both halves of a take, and every step of the scheduler keep the books and leave nobody asleep on a count |
| Notifications.OtherOnlyWakes | FreeRTOS/Source/tasks.c:2239-2347 | What other scheduler steps can do to a task in its take is wake it |
| Notifications.NotificationsAreConserved | FreeRTOS/Source/tasks.c:4737-5239 | Taken plus stored equals given modulo 2^32 in every run, and a task asleep in its take with a count is held pending |
| Notifications.ReturnedPlusStored | FreeRTOS/Source/tasks.c:4737-5239 | With clearing takes, the values returned plus the value stored are the gives modulo 2^32 |
| Notifications.OneTakePerGive | FreeRTOS/Source/tasks.c:4774-4802 | When no take clears the count, the takes that have returned something and the count stored are the count at the start and the gives since, modulo 2^32 |
| Notifications.EnterBlocksExactly | FreeRTOS/Source/tasks.c:4737-4772 | A take puts its task to sleep if and only if it finds nothing and may wait |
| QueueRing.Queue.constructor | FreeRTOS/Source/queue.c:444-487 | A new queue is a reset queue |
| QueueRing.Queue.GenericReset | FreeRTOS/Source/queue.c:264-315 | Positions and count as after a reset |
| QueueRing.Queue.CopyDataToQueue | FreeRTOS/Source/queue.c:2126-2206 | Writes the slot and moves the positions as specified for back, front and overwrite |
| QueueRing.Queue.CopyDataFromQueue | FreeRTOS/Source/queue.c:2209-2227 | Moves the read position on and returns that slot |
| QueueRing.Queue.Send | FreeRTOS/Source/queue.c:796-870 | Refuses when full unless overwriting |
| QueueRing.Queue.Receive | FreeRTOS/Source/queue.c:1349-1390 | Returns nothing when empty |
| QueueRing.Queue.Peek | FreeRTOS/Source/queue.c:1711-1760 | Returns what a receive would and leaves the state as it is |
| QueueRing.SendBackAppends | FreeRTOS/Source/queue.c:2156-2169 | Sending to the back appends and keeps write position = read position + 1 + count |
| QueueRing.SendFrontPrepends | FreeRTOS/Source/queue.c:2170-2200 | Sending to the front prepends and keeps it |
| QueueRing.OverwriteIsForOneSlot | FreeRTOS/Source/queue.c:2184-2200 | Overwriting keeps the positions right if and only if the queue has one slot or is empty, and then leaves just the new item |
| QueueRing.ReceiveTakesFront | FreeRTOS/Source/queue.c:2209-2227 | Receiving takes the front item and keeps the rest |
| QueueRing.ResetEmpties | FreeRTOS/Source/queue.c:264-278 | A reset queue is valid and empty |
| QueueRing.StepRefines | FreeRTOS/Source/queue.c:771-1828 | Each call on the ring answers and changes as the call on a bounded deque |
| QueueRing.RingRefinesDeque | FreeRTOS/Source/queue.c:771-1828 | Every history of calls gets the answers of a bounded deque |
| QueueWakeups.QueueControl.Send | FreeRTOS/Source/queue.c:796-905 | Sends if there is room or overwriting, and wakes one receiver |
| QueueWakeups.QueueControl.Receive | FreeRTOS/Source/queue.c:1349-1390 | Receives if there is an item, and wakes one sender |
| QueueWakeups.QueueControl.Peek | FreeRTOS/Source/queue.c:1711-1760 | Leaves the item and wakes another receiver |
| QueueWakeups.QueueControl.SendFromISR | FreeRTOS/Source/queue.c:983-1315 | Wakes a receiver, or counts in the lock if the queue is locked |
| QueueWakeups.QueueControl.ReceiveFromISR | FreeRTOS/Source/queue.c:1831-1923 | Wakes a sender, or counts in the lock if the queue is locked |
| QueueWakeups.QueueControl.Lock | FreeRTOS/Source/queue.c:249-261 | Locks both counts unless they are locked |
| QueueWakeups.QueueControl.UnlockTx | FreeRTOS/Source/queue.c:2230-2311 | The loop wakes as many receivers as the count says, or all |
| QueueWakeups.QueueControl.UnlockRx | FreeRTOS/Source/queue.c:2313-2346 | The loop wakes as many senders as the count says, or all |
| QueueWakeups.QueueControl.GenericReset | FreeRTOS/Source/queue.c:264-315 | Empties, unlocks and wakes one sender |
| QueueWakeups.StepKeeps | FreeRTOS/Source/queue.c:771-2347 | Every critical section, interrupt and lock step keeps receivers served, and all but a reset keep senders served |
| QueueWakeups.NoLostWakeUp | FreeRTOS/Source/queue.c:249-2347 | In every interleaving a waiting receiver means messages <= woken receivers still to run + messages counted in the lock; the mirror holds for senders without resets |
| QueueWakeups.SettledMeansJustified | FreeRTOS/Source/queue.c:249-2347 | Once all woken tasks have run, a waiting receiver means an empty queue and a waiting sender a full one |
| QueueWakeups.ResetServesSenders | FreeRTOS/Source/queue.c:264-315 | A reset keeps senders served if and only if at most one waits or enough were woken before |
| QueueWakeups.WrappedCountLosesWakeUps | FreeRTOS/Source/queue.c:1126-1134 | A lock count that wraps wakes nobody; receivers are then served only if enough were woken before |
| QueueWakeups.WrappedRxCountLosesWakeUps | FreeRTOS/Source/queue.c:1899-1911 | The mirror for an interrupt that receives, and the senders |
| LostWakeUps.ResetStrandsSender | FreeRTOS/Source/queue.c:264-315 | For every queue of two slots or more, a run from a fresh queue to a reset that wakes one of two waiting senders and strands the other |
| LostWakeUps.WrappedCountReached | FreeRTOS/Source/queue.c:1126-1134 | For every queue of 128 slots or more, a run from a fresh queue in which 128 sends by interrupts wrap the lock count and a waiting receiver is not served |
| LostWakeUps.WrappedRxCountReached | FreeRTOS/Source/queue.c:1899-1911 | The mirror, for receives by interrupts and a waiting sender |
| QueueAccounts.ItemsAreConserved | FreeRTOS/Source/queue.c:771-1923 | In every run without a reset the count is what it was, plus the items added, less those taken; a send finds room or overwrites, a receive finds something |
| QueueAccounts.WokenInOrder | FreeRTOS/Source/queue.c:249-2347 | Nobody is woken before a task that waits ahead of it |
| QueueAccounts.LeaversExactly | FreeRTOS/Source/queue.c:249-2347 | Whose time expires waits no more, and who else stops waiting has been woken |
| QueueAccounts.WaitsOnlyInTime | FreeRTOS/Source/queue.c:905-970 | In every run a call about to wait has been found in time at its last check |
| QueueAccounts.WakesArePaid | FreeRTOS/Source/queue.c:249-2347 | In every run the tasks woken and the wake-ups counted in the lock are no more than the items (or slots) offered and the count at the start |
| Mutexes.TaskControlBlock.PriorityInherit | FreeRTOS/Source/tasks.c:4100-4183 | Changes the holder as the system does when a task comes to wait, and returns whether inheritance is in force |
| Mutexes.TaskControlBlock.PriorityDisinherit | FreeRTOS/Source/tasks.c:4190-4263 | One mutex fewer, and back to base with the last |
| Mutexes.TaskControlBlock.PriorityDisinheritAfterTimeout | FreeRTOS/Source/tasks.c:4270-4369 | Down to the higher of base and first waiter, with one mutex held |
| Mutexes.HeadCovers | FreeRTOS/Source/queue.c:2101-2121 | The head of the waiting list has the highest priority of it |
| Mutexes.TopOvertakesNobody | FreeRTOS/Source/queue.c:1491-1545 | A task of the highest ready priority never takes a free mutex over the head of a waiter above itself |
| Mutexes.TakeKeepsExactly | FreeRTOS/Source/queue.c:1491-1545 | Taking keeps every holder above its waiters if and only if it overtakes nobody |
| Mutexes.BlockOnKeeps | FreeRTOS/Source/queue.c:1585-1625 | Waiting lends the priority and keeps every mutex covered |
| Mutexes.GiveKeeps | FreeRTOS/Source/queue.c:2136-2153 | Giving keeps every mutex covered, whoever runs next |
| Mutexes.GiveTop | FreeRTOS/Source/queue.c:866-897 | After a give the running task is of the highest ready priority if and only if no yield is missed |
| Mutexes.UndoEffect | FreeRTOS/Source/tasks.c:4270-4369 | After a time-out the holder stays between its base and its old priority and covers the remaining waiters |
| Mutexes.UndoIsLeast | FreeRTOS/Source/tasks.c:4293-4320 | A holder of one mutex whose waiter has timed out gets the least priority not below its base that covers those still waiting; one of several keeps its own |
| Mutexes.MissedExactly | FreeRTOS/Source/queue.c:866-897 | A give misses its yield if and only if it lowers the giver, wakes a waiter not above the base, and leaves a third task above it ready |
| LentPriorities.PrioritiesAreLent | FreeRTOS/Source/tasks.c:4100-4369 | In every run from a start, overtaking or not, a priority is the base or that of a task that has waited for a mutex the task held, since it last held none |
| LentPriorities.LendsExactly | FreeRTOS/Source/tasks.c:4100-4183 | A waiting task has an inheritance to undo if and only if it is above the base of the holder |
| LentPriorities.LeaversAreReady | FreeRTOS/Source/queue.c:866-897 | Who stops waiting for a mutex is ready, by a give of it or by its time |
| LentPriorities.SameAsScheduler | FreeRTOS/Source/tasks.c:4270-4369 | The scheduler gives the holder the priority the mutex model says |
| Mutexes.StepKeepsExactly | FreeRTOS/Source/queue.c:1461-1677 | Every step keeps the invariant, a take exactly if it overtakes nobody |
| Mutexes.StepTop | FreeRTOS/Source/queue.c:866-897 | Only a give that misses its yield leaves a task above the running one ready |
| MutexRuns.InheritanceHoldsExactly | FreeRTOS/Source/tasks.c:4100-4369 | In every run from a start, at every point holder >= each waiter, effective >= base, equal when nothing is held, and held count = mutexes naming the task, if and only if nobody overtakes |
| MutexRuns.InheritanceHoldsWithoutMissedYields | FreeRTOS/Source/tasks.c:4100-4369 | So it holds throughout every run in which no give misses its yield |
| OvertakingRun.OvertakingBreaksInheritance | FreeRTOS/Source/queue.c:866-897 | A run from a start in which a give misses its yield, its task overtakes a waiter, and a holder ends below its waiter |
| Timers.PlacementIsExact | FreeRTOS/Source/timers.c:699-740 | Handled within one wrap of its base time, a timer is processed now iff its expiry has come, and otherwise filed in the list of the wrap its expiry lies in |
| Timers.LeftInsert | FreeRTOS/Source/timers.c:893-950 | The measure of the switch: filing an entry adds what is left of the wrap after it |
| Timers.ExpireHead | FreeRTOS/Source/timers.c:900-942 | Each expiry lowers the measure, whatever the periods |
| Timers.ExpireAll | FreeRTOS/Source/timers.c:893-943 | The expiry loop ends with the current list empty |
| TimerRuns.SwitchFiresInOrder | FreeRTOS/Source/timers.c:893-950 | The switch runs callbacks of the old wrap in order of their instants and brings in a list already sorted |
| TimerRuns.SwitchFiresAll | FreeRTOS/Source/timers.c:893-950 | A timer listed in the old wrap gets every callback it still owes it, once each |
| TimerRuns.SwitchFiresOneShot | FreeRTOS/Source/timers.c:893-950 | A one-shot timer listed in the old wrap gets exactly one callback in the switch, for its own instant, and is no longer listed |
| TimerRuns.SampleKeeps | FreeRTOS/Source/timers.c:676-696 | A sample keeps the lists in order and moves the epoch to that of the tick |
| TimerRuns.ProcessExpiredFires | FreeRTOS/Source/timers.c:508-548 | A due timer fires for its instant and is set up one period after that instant |
| TimerRuns.SampleTracksExactly | FreeRTOS/Source/timers.c:676-696 | Looking at the clock keeps a timer on schedule if and only if the timer is still in sight: not listed, or less than a wrap since the last look, or expired by the wrap that shows |
| TimerRuns.HandleOwnExactly | FreeRTOS/Source/timers.c:743-890 | Handling its restart keeps a timer on schedule if and only if less than a wrap has passed or the word distance still shows a period |
| TimerRuns.StepTracksExactly | FreeRTOS/Source/timers.c:508-950 | So for every step: on schedule if and only if the daemon is not too late in it |
| TimerRuns.NoDrift | FreeRTOS/Source/timers.c:508-950 | In every run in which the daemon is never too late for it, an auto-reload timer started at c fires for c + p, c + 2p, ... once each, in order, never early |
| TimerRuns.NoDriftExactly | FreeRTOS/Source/timers.c:508-950 | That hypothesis is exact: the timer is on schedule at every point of a run if and only if the daemon is never too late for it |
| TimerRuns.ExactlyTheInstantsThatHaveCome | FreeRTOS/Source/timers.c:508-950 | When the daemon has caught up, the callbacks are exactly those for the instants up to the present |
| TimerRuns.CaughtUp | FreeRTOS/Source/timers.c:587-646 | When nothing is queued or due, every instant up to the present has had its callback |
| TimerRuns.UnseenWrapMissesExpiry | FreeRTOS/Source/timers.c:676-696 | For every period, a run from power on in which the daemon does not look at the clock for a whole wrap and misses a due timer |
| TimerRuns.SleepsUntilNext | FreeRTOS/Source/timers.c:587-673 | The block time ends at the first expiry, or at the wrap, or never if no timer is listed |
| OneShots.SampleOnceExactly | FreeRTOS/Source/timers.c:676-696 | Looking at the clock keeps a one-shot timer waiting for its instant, or done once, if and only if it is in sight |
| OneShots.StartOnceExactly | FreeRTOS/Source/timers.c:801-835 | Handling its start does so if and only if it is handled in time |
| OneShots.StepOnceExactly | FreeRTOS/Source/timers.c:508-950 | So does every step, if and only if the daemon is not too late in it |
| OneShots.OneShotExactly | FreeRTOS/Source/timers.c:508-950 | At every point of a run a one-shot timer awaits its instant or has had its one callback for it, not early, if and only if the daemon is never too late for it |
| OneShots.FiresOnce | FreeRTOS/Source/timers.c:508-950 | At the end of such a run it has had at most one callback, for c + p and not before; exactly one if c + p has come and the daemon has caught up, and none before |
| TimerCommands.ChangeTakes | FreeRTOS/Source/timers.c:843-856 | A change of period handled at n leaves the new period, and the timer listed for n + p and nothing else |
| TimerCommands.StartTakes | FreeRTOS/Source/timers.c:801-835 | A start or a reset likewise, counted from when it was sent; a first instant that has come is called back at once |
| TimerCommands.CommandsSetTheTime | FreeRTOS/Source/timers.c:743-890 | From a start, a reset or a change of period on, whatever went before, the callbacks are for c + p, c + 2p, ... (for c + p once, if one-shot), in order, not early, and all of them that have come once the daemon has caught up |
| TimerCommands.StoppedIsSilent | FreeRTOS/Source/timers.c:837-886 | A stopped or deleted timer is called back no more in any run until it is commanded again |
| TimerCommands.DeletedIsForgotten | FreeRTOS/Source/timers.c:858-886 | A deleted timer is forgotten |
| TimerProgress.TurnProcesses | FreeRTOS/Source/timers.c:587-646 | A due head is called back for its instant, and one timer fewer is due |
| TimerProgress.DaemonCatchesUp | FreeRTOS/Source/timers.c:551-890 | From any state in order the daemon, by its own steps alone, reaches one with nothing queued and nothing due |
| TimerDaemon.Daemon.InsertTimerInActiveList | FreeRTOS/Source/timers.c:699-740 | Files the timer or asks for it to be processed |
| TimerDaemon.Daemon.SwitchTimerLists | FreeRTOS/Source/timers.c:893-950 | The loop terminates and computes the switch |
| TimerDaemon.Daemon.SampleTimeNow | FreeRTOS/Source/timers.c:676-696 | Switches the lists exactly when the word has gone down |
| TimerDaemon.Daemon.ProcessExpiredTimer | FreeRTOS/Source/timers.c:508-548 | Reload first, then the callback; the lists stay in order |
| TimerDaemon.Daemon.NextExpireTime | FreeRTOS/Source/timers.c:649-673 | The head of the current list, or 0 to wake at the wrap |
| TimerDaemon.Daemon.ProcessTimerOrBlock | FreeRTOS/Source/timers.c:587-646 | Processes the head if the lists were not switched and it is due, and otherwise says for how long to block |
| TimerDaemon.Daemon.StartTimer | FreeRTOS/Source/timers.c:801-835 | Files the timer, or runs its callback and sends a restart |
| TimerDaemon.Daemon.ReceiveCommand | FreeRTOS/Source/timers.c:748-798 | One command off the queue, its timer off its list, the time sampled |
| TimerDaemon.Daemon.ActOn | FreeRTOS/Source/timers.c:800-886 | Each command, on tick words, does what the operation on true times says |
| TimerDaemon.Daemon.ProcessReceivedCommand | FreeRTOS/Source/timers.c:743-890 | One turn of the command loop is one step of a run, and can be followed by another |
| TimerDaemon.HandleWorks | FreeRTOS/Source/timers.c:743-890 | Each turn leaves less work in the queue, although it may send a restart |
| TimerDaemon.Daemon.ProcessReceivedCommands | FreeRTOS/Source/timers.c:743-890 | The command loop ends with an empty queue and is a run of command steps |
| TimerDaemon.Daemon.Rounds | FreeRTOS/Source/timers.c:551-584 | Any number of rounds of the daemon task is a run |
| EventGroups.PackingRoundTrips | FreeRTOS/Source/event_groups.c:565-567 | Requests and answers survive packing into an item value, and cannot be taken for each other |
| EventGroups.EventGroup.Set | FreeRTOS/Source/event_groups.c:531-623 | The walk over the waiting list computes the specified set |
| EventGroups.EventGroup.Clear | FreeRTOS/Source/event_groups.c:471-496 | Takes the bits away and returns them as they were |
| EventGroups.EventGroup.Wait | FreeRTOS/Source/event_groups.c:315-398 | Returns at once if the condition is met or the caller does not block, and otherwise places the packed request |
| EventGroups.EventGroup.Rendezvous | FreeRTOS/Source/event_groups.c:192-258 | Sets, then returns old|set if that is complete, and otherwise waits for all with clear-on-exit |
| EventGroups.EventGroup.RunOn | FreeRTOS/Source/event_groups.c:260-312 | Returns the answer without its control bits, or tests the current bits once more |
| EventGroups.EventGroup.DeleteGroup | FreeRTOS/Source/event_groups.c:626-665 | The loop wakes every waiter |
| EventGroups.DeleteTellsAll | FreeRTOS/Source/event_groups.c:626-665 | After a deletion nobody waits, and every former waiter is told that no bits are set |
| EventGroups.ClearMaskIsUnion | FreeRTOS/Source/event_groups.c:590-619 | The mask cleared is the union of what the matching clear-on-exit waiters asked for, whatever their order |
| EventGroups.WakesExactly | FreeRTOS/Source/event_groups.c:569-608 | A task is woken iff it waits and old|set satisfies it, and is handed that value |
| EventGroups.SetIsExact | FreeRTOS/Source/event_groups.c:531-623 | A set wakes exactly the waiters satisfied by old|set, hands each that value, keeps the rest unsatisfied and clears exactly the mask |
| EventGroups.MetIsMonotone | FreeRTOS/Source/event_groups.c:686-720 | Taking bits away never satisfies a condition |
| EventFlags.AnyMeans | FreeRTOS/Source/event_groups.c:686-720 | Waiting for any bit is met if and only if one of the flags asked for is set |
| EventFlags.AllMeans | FreeRTOS/Source/event_groups.c:686-720 | Waiting for all, if and only if every one of them is |
| EventFlags.MetSpreads | FreeRTOS/Source/event_groups.c:686-720 | A condition on a union of bits is the disjunction (for all, the conjunction) of those on its parts, and on one flag the two kinds agree |
| EventFlags.WaitExactly | FreeRTOS/Source/event_groups.c:315-398 | A wait blocks if and only if it may and what it asks for is not there; otherwise it returns the bits as found, and clears what it asked for if and only if that was there and it clears on exit |
| EventFlags.ClearExactly | FreeRTOS/Source/event_groups.c:471-496 | A clear takes away exactly the flags named |
| EventFlags.SetExactly | FreeRTOS/Source/event_groups.c:531-623 | After a set a flag stands if and only if it was set or stood and no woken waiter takes it; exactly the waiters whose flags are there are woken |
| EventFlags.SyncExactly | FreeRTOS/Source/event_groups.c:192-258 | A rendezvous goes on if and only if all it waits for were there before anything was cleared, and returns that; otherwise it waits, or returns what is left |
| EventFlags.ResumeExactly | FreeRTOS/Source/event_groups.c:256-312 | A task whose wait has timed out tests once more, returns the bits as they are, and clears on exit if what it asked for is there |
| EventGroups.StepKeeps | FreeRTOS/Source/event_groups.c:192-623 | Set, clear, wait, sync, time-out and resumption keep every waiter unsatisfied |
| EventGroups.NobodyWaitsInVain | FreeRTOS/Source/event_groups.c:192-623 | In every run no task is left waiting whose condition the current bits satisfy |
| EventGroups.ResumeTellsTruth | FreeRTOS/Source/event_groups.c:256-300 | A resumed task returns a value that met its request if it was woken by a set, and the current bits if it timed out |
| Barrier.SyncWaits | FreeRTOS/Source/event_groups.c:192-312 | A rendezvous call that is not the last adds its bits and waits |
| Barrier.SyncReleases | FreeRTOS/Source/event_groups.c:192-312 | The last one wakes all, clears all bits and returns the full mask |
| Barrier.StepKeeps | FreeRTOS/Source/event_groups.c:192-312 | Entering and leaving keep all tasks within one round |
| Barrier.BarrierHolds | FreeRTOS/Source/event_groups.c:192-312 | Nobody finishes a round someone has not entered, finished rounds differ by at most one, and every call returns the full mask |
| StreamBuffers.BytesAndSpaces | FreeRTOS/Source/stream_buffer.c:483-504 | Bytes held and spaces reported add up to the length less one |
| StreamBuffers.LengthRoundTrip | FreeRTOS/Source/stream_buffer.c:720-732 | A length survives being stored as bytes |
| StreamBuffers.FirstFrame | FreeRTOS/Source/stream_buffer.c:958-990 | The first message can be read off the stored bytes |
| StreamBuffers.StreamBuffer.SpacesAvailable | FreeRTOS/Source/stream_buffer.c:483-504 | What is left of the length less one |
| StreamBuffers.StreamBuffer.BytesInBuffer | FreeRTOS/Source/stream_buffer.c:1238-1256 | How many bytes are held |
| StreamBuffers.StreamBuffer.WriteBytes | FreeRTOS/Source/stream_buffer.c:1131-1177 | The two copies append the bytes to the contents |
| StreamBuffers.StreamBuffer.ReadBytes | FreeRTOS/Source/stream_buffer.c:1180-1235 | The two copies take bytes off the front of the contents |
| StreamBuffers.StreamBuffer.WriteMessage | FreeRTOS/Source/stream_buffer.c:700-749 | A message goes in framed and whole or not at all; a stream takes what fits |
| StreamBuffers.StreamBuffer.ReadMessage | FreeRTOS/Source/stream_buffer.c:958-1007 | A message that does not fit the receiver stays, contents unchanged |
| StreamBuffers.StreamBuffer.Send | FreeRTOS/Source/stream_buffer.c:519-646 | Without blocking: the frames held grow by the message or stay |
| StreamBuffers.StreamBuffer.Receive | FreeRTOS/Source/stream_buffer.c:752-853 | Without blocking: the first message whole, or nothing and no change |
| MessageInterleaving.WriteByteKeeps | FreeRTOS/Source/stream_buffer.c:1131-1177 | Copying into free positions disturbs neither reader nor contents |
| MessageInterleaving.PublishHeaderKeeps | FreeRTOS/Source/stream_buffer.c:728-733 | Publishing the length ahead of the message keeps the reader safe |
| MessageInterleaving.TakeHeaderKeeps | FreeRTOS/Source/stream_buffer.c:966-998 | With more than a header seen, the message behind it is complete |
| MessageInterleaving.StepKeeps | FreeRTOS/Source/stream_buffer.c:700-1256 | What every step of either side keeps |
| MessageProgress.WriterAdvances | FreeRTOS/Source/stream_buffer.c:700-749 | A writer in the middle of a call can always go on, whatever the reader is in the middle of, and is nearer its end |
| MessageProgress.ReaderAdvances | FreeRTOS/Source/stream_buffer.c:958-1007 | So can a reader whose buffer is large enough |
| MessageProgress.SendsIfRoom | FreeRTOS/Source/stream_buffer.c:700-749 | A message goes in if and only if there is room for it and its length |
| MessageProgress.ReceivesIfSent | FreeRTOS/Source/stream_buffer.c:958-1007 | A message sent and not received can be received, whole, into a buffer large enough |
| MessageInterleaving.MessagesArriveWhole | FreeRTOS/Source/stream_buffer.c:700-1256 | In every interleaving the messages received are a prefix of those sent, each whole; at rest the buffer holds exactly the others |

## Left out

- Kernel.Block: a block time of zero is excluded; only the timer task's restricted wait at tick word 0 can ask for one, and it would expire at the next tick.
- Kernel.State: `xYieldPending` is kept by class `Scheduler.Kernel` only; in runs a context switch may come after any step.
- Scheduler.Kernel.SuspendTask: the notification state that a suspension resets belongs to `Notifications`, where suspension of the taking task is left out.
- Kernel.State: the ready bitmap is the set of its one bits, and counters other than ticks and lock counts are unbounded.
- Kernel.Reprioritise: `vTaskPrioritySet` also changes base priorities and event item values without re-sorting; only its effect on the ready lists is modelled.
- Kernel.Append: the item value an unsorted list keeps is not modelled, since nothing reads it there.
- Scheduler.Kernel.ListTasks: the per-task fields other than the handle, and the stack check, are left out.
- Notifications.Apply: one notification index and one task; `xTaskNotifyWait` and the other notify actions are left out.
- QueueRing.Queue: a slot stands for `uxItemSize` bytes; semaphores, which copy nothing, are modelled by their count in `QueueWakeups`.
- QueueWakeups.Apply: event lists are in whatever order the priorities give; time-outs may come at any moment the scheduler runs.
- Mutexes.Apply: recursive mutexes keep their own count above a mutex and are left out; the ready lists themselves are those of `Kernel`.
- TimerRuns.NoDrift: the ACTIVE status bit, which is not cleared on every expiry path, and pended function calls are left out.
- MessageInterleaving.Apply: a receive buffer that is too small, and reading the next length, put the tail back; they are modelled for one task at a time only, in `StreamBuffers`.
- StreamBuffers.StreamBuffer: blocking, trigger levels and the notification of the other side are left out.
- xTaskCatchUpTicks adds to the pended ticks without a critical section and is left out.
- Queue sets, the queue registry, co-routines, tickless idle, abort delay, MPU wrappers, run-time statistics and text formatting are disabled or presentation only.
- Memory allocation, stacks, context switch assembly and the board code are not part of this model.
