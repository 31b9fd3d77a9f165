# cocoOS kernel: verified model

cocoOS is a cooperative kernel: tasks are coroutines that give up the processor inside blocking
macros, and interrupts drive clocks and signal events in between. This project models the kernel
proper (message queues, tasks with timers and event wait sets, events, semaphores, the scheduler
and the blocking macros over them) and proves what holds in every run of it.

## How it is built

* **Storage.** `MessageBytes` and `MsgQueues` hold the message queue as the source does: a flat
  byte buffer with `head` and `tail`, updated in place by copy loops. `EventBits` holds the event
  wait set as bytes and shifts. `KernelObjects.Cocoos` is the whole kernel as an object: arrays of
  control blocks, events and semaphores, one method per function or macro of the source.
* **Specification.** `QueueSpec` is a queue as a bounded sequence of messages, `TaskSpec` a task
  as a state machine over a dozen actions, `KernelSpec` each kernel call as a function on a kernel
  value. A ghost field ties a `Cocoos` object to such a value, and every method is proved to
  compute the function of `KernelSpec` or `QueueSpec` it stands for.
* **Transition system.** `Steps.Step` is one step of the kernel: a set-up call, a dispatch, one
  call of the running task, a tick or an interrupt's signal, each defined by the same functions
  the methods are proved against. User tasks are arbitrary sequences of calls: every theorem about runs
  quantifies over all finite sequences of legal steps. `Steps.Legal` is what callers owe the
  kernel: the source's assertions, ids of objects that exist, and no message pool of one
  message. Everything else is legal, also what a task does after it has killed itself.
* **Projection.** `Projection` and `QueueProjection` prove what a step is for one task (a sequence
  of actions) and for one queue (at most one operation). Properties of one task or one queue under
  every sequence of actions (`TaskLife`, `QueueHistory`) thereby become properties of kernel runs.
* **Results.** `Invariant` (the inductive invariant), `Runs` (sleep, timeouts, wait-all and
  wait-any, killed tasks, waiting times, message accounting and order), `Wakeups` (no lost
  wake-up), `Suspension` (exactly which suspended tasks can lose one), `Recovery` (blocked sides
  recover), `Semaphores` (hand-off, books of units), `Exclusion` (mutual exclusion and
  conservation in terms of what tasks do), `Waiting` (task_wait, event_wait, task_suspend and
  task_kill from the call on), `Calls` (what posts, receives, their retries, dispatches and task
  creation do, who gives up the processor, who is recorded as signaller), `Scheduling` (priorities, round-robin fairness) and
  `Reachability` (runs that lose a wake-up and that revive a killed task).

## Where the code keeps less than its documentation says

* The comment at os/os_event/include/os_event.h:50-51 calls `N/9 + 1` the minimum number of bytes
  for N events. `EventBits.SizingIsExact` gives the exact condition under which they are enough;
  17 is the first N for which they are not, and no N from 73 on works. `Cocoos` requires it.
* Priorities are documented as 0-255 (os/os_task/src/os_task.c:89). `Scheduling.PriorityDispatch`
  and `Semaphores.SignalLostOnPrio255` say exactly what a task with priority 255 does not get.
* `os_task_create` accepts a message pool of one message, for which the fresh queue is no empty
  queue: `MsgQueues.CreatedRingIsEmptyIffSizeAtLeastTwo`.
* A task suspended while it waits for an event does not hear the event
  (os/os_task/src/os_task.c:620-628) and resumes as waiting. `Wakeups.NoRunLosesAWakeUp` therefore
  exempts a task whose present wait missed a signal in this way, and
  `Wakeups.WithoutSuspendedWaiters` shows that nothing else loses a wake-up. Which tasks can lose
  one is exact: a blocked receiver if and only if it is suspended
  (`Suspension.ReceiverCanLoseIffSuspended`), a blocked poster if and only if it is suspended and
  its full queue holds a one-shot message (`Suspension.PosterCanLoseIff`), because a queue full of
  periodic messages stays full. `Reachability.LostWakeUpIsReachable` is a run from power-up.
* A killed task "cannot be resumed" (os/os_task/src/os_task.c:179). A task that kills itself, goes
  on and waits is alive again: `Reachability.KilledTaskRevives`. A killed task stays killed if and
  only if it makes no such wait (`Runs.KilledStaysKilledIffItNeverWaits`), so always when it was
  killed by another or reached its end (`Runs.KilledAndStoppedIsForEver`).
* `os_sem_increment` is documented to add one; it saturates (os/os_sem/src/os_sem.c:97-105).
* `os_wait_multiple` asks for at most N_TOTAL_EVENTS events (os/os_event/include/os_event.h:189)
  and accepts one more: `KernelObjects.Cocoos.WaitMultiple`.
* `OS_WAIT_SEM` calls `os_task_wait_sem_set` where the function is named `task_wait_sem_set`, and
  `msg_receive_async` (os/os_kernel/include/os_kernel.h:846) passes one argument too few. The
  model follows the evident intent.

## Model

| member | source | states |
|---|---|---|
| Wakeups.NoRunLosesAWakeUp | os/os_msgqueue/include/os_msgqueue.h:42-102 | in every run, a task that is blocked in a message receive has a queue without an expired message and one blocked in a message post has a full queue, unless it was suspended while its queue signalled |
| Wakeups.NoWakeUpIsLost | os/os_msgqueue/include/os_msgqueue.h:42-102 | the same for every run from power-up, under every configuration |
| Wakeups.WithoutSuspendedWaiters | os/os_task/src/os_task.c:438-473 | if no task is suspended out of an event wait, no task at all is ever blocked on a queue without reason |
| Suspension.ReceiverCanLoseIffSuspended | os/os_msgqueue/include/os_msgqueue.h:72-102 | with another task running, a blocked receiver that missed nothing so far can be left waiting with an expired message in its queue if and only if it is suspended, whatever the queue holds |
| Suspension.PosterCanLoseIff | os/os_msgqueue/include/os_msgqueue.h:42-68 | likewise a blocked poster can be left waiting at a queue with room if and only if it is suspended and the full queue holds a one-shot message |
| Suspension.StuckPosterIsJustified | os/os_msgqueue/src/os_msgqueue.c:175-199 | a queue full of periodic messages stays full in every run, and a poster to it is never left waiting for no reason |
| Suspension.SuspendedReceiverLosesThePost | os/os_task/src/os_task.c:620-628 | a receiver suspended while blocked, whose queue then gets an immediate message, is still waiting after it is resumed although the message has expired |
| Reachability.LostWakeUpIsReachable | os/os_task/src/os_task.c:438-473 | a run of nine steps from power-up ends in such a state |
| Wakeups.OpeningIsSignalled | os/os_msgqueue/src/os_msgqueue.c:210-233 | every step that makes room in a full queue, or an expired message in a queue that had none, signals that queue's change event |
| Recovery.BlockedSidesRecover | os/os_msgqueue/src/os_msgqueue.c:210-233 | a poster and a receiver blocked on the same queue: it is full of unexpired messages, and after as many ticks as the shortest of their delays both are ready |
| Recovery.ListenerWakes | os/os_task/src/os_task.c:563-608 | a task listening to a queue of unexpired messages is ready after as many ticks as the first of them needs |
| MsgQueues.MsgQueue.Receive | os/os_msgqueue/src/os_msgqueue.c:138-208 | for every size from two up and every head and tail, full buffers included: the result, the message the caller gets, the contents afterwards (behind + ahead, a periodic message re-armed at the back), one pass more than there are messages ahead of the first expired one; nothing changes when none has expired |
| MsgQueues.MsgQueue.FindFirstReady | os/os_msgqueue/src/os_msgqueue.c:159-202 | the receive loop, whose tail is stored only at the end, terminates and leaves the rotated contents with no message overwritten |
| MsgQueues.MsgQueue.Pass | os/os_msgqueue/src/os_msgqueue.c:163-201 | one pass takes the oldest message and puts it behind the others, re-armed if it is expired and periodic, not at all if it is expired and one-shot |
| MsgQueues.MsgQueue.MsgQAllDelayed | os/os_msgqueue/src/os_msgqueue.c:239-260 | 1 if and only if no stored message has expired |
| MsgQueues.MsgQueue.Push | os/os_msgqueue/src/os_msgqueue.c:114-135 | FULL exactly when size - 1 messages are stored, and then nothing changes; otherwise the message is appended |
| MsgQueues.MsgQueue.Post | os/os_msgqueue/src/os_msgqueue.c:97-111 | the caller's message gets delay and period and is pushed |
| MsgQueues.MsgQueue.CountDown | os/os_msgqueue/src/os_msgqueue.c:220-231 | one slot's timer counts down in place, all other messages stay as they were, and expiry is reported exactly at the change from one to zero |
| MsgQueues.MsgQueue.CopyIn | os/os_msgqueue/src/os_msgqueue.c:122-129 | copying messageSize bytes to a slot replaces exactly that message of the buffer |
| MsgQueues.MsgQueue.CopyOut | os/os_msgqueue/src/os_msgqueue.c:164-170 | the caller's memory holds the slot's message |
| MsgQueues.MsgQueue.constructor | os/os_msgqueue/src/os_msgqueue.c:53-69 | a new queue is an empty sequence with room for size - 1 messages |
| MsgQueues.CreatedRingIsEmptyIffSizeAtLeastTwo | os/os_msgqueue/src/os_msgqueue.c:57-58 | head 1 and tail 0 are an empty ring if and only if there are at least two slots |
| MsgQueues.NextSlot | os/os_msgqueue/src/os_msgqueue.c:215-231 | stepping from tail + 1 visits the stored messages in order and meets head exactly after the last one |
| MsgQueues.LastPass | os/os_msgqueue/src/os_msgqueue.c:178-202 | passing over the first expired message completes the receive of the sequence specification |
| MessageBytes.CopyBytes | os/os_msgqueue/src/os_msgqueue.c:124-129 | the byte loop copies exactly the range |
| MessageBytes.OtherSlotsUntouched | os/os_msgqueue/src/os_msgqueue.c:122-131 | rewriting bytes inside one slot leaves every other slot's bytes alone |
| MessageBytes.MessageRoundTrip | os/os_msgqueue/include/os_msgqueue.h:16-23 | bytes and message determine each other |
| QueueSpec.ReceiveTakesFirstReady | os/os_msgqueue/src/os_msgqueue.c:138-208 | a receive takes the head of the expired messages and leaves exactly the rest of them expired, in order |
| QueueHistory.ReadyMessagesAreFifo | os/os_msgqueue/src/os_msgqueue.c:138-208 | two messages expired at the same moment are delivered in the order they then have, whatever posts, ticks and receives follow |
| QueueHistory.PlainQueueIsFifo | os/os_msgqueue/src/os_msgqueue.c:114-208 | with immediate one-shot messages only, delivered followed by stored is every accepted message in posting order |
| QueueHistory.EveryRunIsAccounted | os/os_msgqueue/src/os_msgqueue.c:97-233 | in every run of one queue: an accepted one-shot message is stored or was delivered, one of the two and once; a periodic one stays stored; timers show what is left; nothing is delivered before its delay, nor twice within its period; no more than size - 1 are stored |
| Runs.KernelRunsAreAccounted | os/os_msgqueue/include/os_msgqueue.h:42-102 | every run of the whole kernel treats each queue as such an accounted run |
| Calls.PostStores | os/os_msgqueue/include/os_msgqueue.h:42-68 | a post to a task whose queue has room appends the message with the delay and period of the call and nothing else to any queue, signals the change event on behalf of the caller, and lets the caller go on |
| Calls.PostToFull | os/os_msgqueue/include/os_msgqueue.h:52-62 | a post to a full queue stores and signals nothing; an asynchronous one returns, any other waits for the change event alone, ready to retry with the same message, delay and period |
| Calls.PostToNobody | os/os_msgqueue/src/os_msgqueue.c:97-111 | a post to a task without a queue does nothing |
| Calls.ReceiveTakes | os/os_msgqueue/include/os_msgqueue.h:72-102 | a receive takes the first expired message, moves those ahead of it to the back, puts a periodic one back with its period, signals the change event, and lets the caller go on |
| Calls.ReceiveFromDelayed | os/os_msgqueue/include/os_msgqueue.h:80-97 | a receive without an expired message takes and signals nothing; an asynchronous one returns, any other waits for the change event alone |
| Calls.BlockedPostStores | os/os_msgqueue/include/os_msgqueue.h:50-67 | in any run, after any number of dispatches in vain, the first dispatch of a blocked poster that finds room stores the message with the delay and period of the call |
| Calls.BlockedReceiveTakes | os/os_msgqueue/include/os_msgqueue.h:80-101 | in any run, after any number of dispatches in vain, the first dispatch of a blocked receiver that finds an expired message takes the first one |
| Calls.FindIsExact | os/os_msgqueue/src/os_msgqueue.c:72-84 | os_msgQ_find returns NO_QUEUE if and only if no queue belongs to the task |
| Calls.EachTaskFindsItsQueue | os/os_msgqueue/src/os_msgqueue.c:72-84 | in every reachable state it returns the queue the task was created with, for every task and every queue |
| Calls.TaskIsCreated | os/os_task/src/os_task.c:136-162 | a new task has the prio of the call and starts ready at the top; a pool of n messages becomes its queue for n - 1 messages with a new change event, which os_msgQ_find finds |
| Runs.KernelRunsAreFifo | os/os_msgqueue/include/os_msgqueue.h:42-102 | in every run of the kernel two messages of a queue expired at the same moment are delivered in the order they then have |
| Runs.PlainKernelRunsAreFifo | os/os_msgqueue/include/os_msgqueue.h:42-102 | in every run of the kernel a queue that gets only immediate one-shot messages delivers them in posting order |
| QueueProjection.QueueProjects | os/os_msgqueue/include/os_msgqueue.h:42-102 | a kernel step is exactly one post, receive or tick for a queue, or nothing |
| Projection.StepProjects | os/os_task/src/os_task.c:350-711 | a kernel step does to each task exactly the actions listed for it |
| Projection.TickQueues | os/os_task/src/os_task.c:599-606 | a master tick counts every queue down exactly once, although tasks change in mid-loop |
| Projection.TickProjects | os/os_task/src/os_task.c:563-608 | a tick does to each task its own timer step and the signals of the queues that fire, in loop order |
| Projection.TickActionsAre | os/os_task/src/os_task.c:563-608 | one tick advances every task's timer exactly once; everything else it does to a task is signals |
| Invariant.InvStep | os/os_kernel/src/os_kernel.c:48-69 | every legal step keeps the kernel invariant |
| Invariant.StepShape | os/os_task/src/os_task.c:148-156 | running creates and deletes nothing and changes no prio, no queue ownership and no semaphore maximum |
| Invariant.OthersActForeign | os/os_task/src/os_task.c:438-473 | a step reaches tasks other than the one it runs only by signals, timers, grants, resumes, suspensions and kills |
| Runs.EveryReachableStateIsSound | os/os_kernel/src/os_kernel.c:37-45 | the invariant holds at power-up and in every state of every run |
| TaskLife.SoundAfter | os/os_task/src/os_task.c:438-473 | whatever happens to a task: suspended saves one of four states, the wait set is non-empty if and only if it waits for events, and a timed wait has time left |
| Runs.KilledStaysKilledIffItNeverWaits | os/os_task/src/os_task.c:224-228 | a killed task is killed after every step of a run if and only if it makes no call in the run that makes it wait |
| Runs.KilledAndStoppedIsForEver | os/os_task/src/os_task.c:175-228 | a killed task that is not running is killed after every step of every run |
| Reachability.KilledTaskRevives | os/os_task/src/os_task.c:521-531 | a run from power-up in which a task is killed and later ready again |
| TaskLife.SleepIsExact | os/os_task/src/os_task.c:571-591 | under any ticks of any clocks, signals and grants, a sleeping task holds its time minus its own clock's advance and is ready when that reaches its time |
| Runs.SleepIsExactInRuns | os/os_task/src/os_task.c:563-608 | the same in every run of the kernel that does not suspend or kill it, to the very step that wakes it |
| Waiting.TaskWaitIsExact | os/os_kernel/include/os_reentry.h:29-30 | after task_wait_id(c, n) in any run that does not suspend or kill the caller: it sleeps with n minus the advance of clock c left, and the step with which c reaches n makes it ready, whatever other clocks do |
| Waiting.EventWaitIsExact | os/os_event/include/os_event.h:15-20 | after event_wait_timeout(e, n), or event_wait(e) as n = 0, in any run until the next dispatch of the caller: ready if and only if e was signalled by anybody or the master clock advanced by n; until then waiting with exactly the rest of n; when ready, no time left if e was not signalled and some left if the clock had not run out |
| Waiting.ReadyTaskKeepsItsTime | os/os_task/src/os_task.c:696-700 | a ready task left alone keeps the time it became ready with, so the first of signal and timeout decides |
| Waiting.UnknownEventIsNoWait | os/os_event/src/os_event.c:79-88 | a wait for an event that was not created leaves the caller ready |
| Waiting.SuspensionIsFaithful | os/os_task/src/os_task.c:438-473 | task_suspend of any task neither killed nor suspended suspends it; in every run it is not run and does not change until resumed or killed; the resume brings back its state, a semaphore waiter ready at the top of its procedure, a sleeper with the same time left |
| Waiting.KillKills | os/os_task/src/os_task.c:224-228 | task_kill kills a task in whatever state and leaves the processor to the running task |
| Waiting.CloseKills | os/os_kernel/include/os_reentry.h:20-22 | the end of a task procedure kills the task and frees the processor |
| TaskLife.TimeTellsTimeout | os/os_task/src/os_task.c:696-700 | after a timed event wait the remaining time is zero if and only if a master tick ended it, non-zero if and only if a signal of an awaited event did, suspended in between or not |
| Runs.TimeoutIsDistinguishable | os/os_kernel/include/os_kernel.h:270-300 | the same in every run, when the task is next ready to run |
| TaskLife.WaitAllMeansAll | os/os_task/src/os_task.c:611-642 | waiting for all: ready exactly when all awaited events were signalled, until then waiting for exactly the others |
| TaskLife.WaitAnyMeansAny | os/os_task/src/os_task.c:611-642 | waiting for any: ready exactly when one awaited event was signalled |
| Runs.WaitMultipleMeansWhatItSays | os/os_event/src/os_event.c:110-150 | after event_wait_multiple in any run: ready if and only if all, or any, of the events were signalled by a task, an interrupt or a queue |
| Runs.SignalsAreBroadcast | os/os_task/src/os_task.c:611-642 | every step signals the same events to all tasks |
| Calls.WhatIsRaised | os/os_event/src/os_event.c:93-99 | which events a step signals: those of signal calls and interrupts, the change event of a queue whose post or receive goes through, and by a tick those of the queues in which a message expires |
| Calls.SignallerIsRecorded | os/os_event/src/os_event.c:102-107 | a step records its task, or the interrupt, for the events it signals, and otherwise leaves the signaller of an event or sets it back to nobody |
| Calls.TimeoutShowsNoSignaller | os/os_event/include/os_event.h:95-102 | from the start of a wait for an event, its signaller is nobody in every run in which it is not signalled, in particular when the wait timed out first |
| TaskLife.SignalWakesOrIsMissed | os/os_task/src/os_task.c:620-640 | a signal ends the wait of a task blocked on the event or is missed by suspension, nothing else |
| EventBits.SizingIsExact | os/os_event/include/os_event.h:49-55 | N/9 + 1 bytes hold all N event bits if and only if N/9 + N%9 <= 8, and are then the fewest that do |
| EventBits.WhereSizingFails | os/os_event/include/os_event.h:50-52 | enough for every N up to 16, not for 17, not for any N from 73 on |
| EventBits.SetBitIsUnion | os/os_task/src/os_task.c:543-547 | the byte and shift update adds exactly that event |
| EventBits.ClearBitIsDifference | os/os_task/src/os_task.c:630-632 | and the masking update removes exactly it |
| EventBits.AllZeroIsEmpty | os/os_task/src/os_task.c:502-518 | all bytes zero if and only if the wait set is empty |
| Scheduling.BestPrioMeaning | os/os_task/src/os_task.c:271-296 | the search finds the first task of least prio, and nobody if and only if all candidates have prio 255 |
| Scheduling.PriorityDispatch | os/os_kernel/src/os_kernel.c:48-69 | some ready task is dispatched if and only if a ready one has a prio below 255, and then none with a smaller number is ready |
| Calls.DispatchRuns | os/os_kernel/src/os_kernel.c:48-69 | a dispatch gives the processor to the selected task, unless it finds the queue it retries on still shut |
| Calls.WhoGivesUp | os/os_kernel/include/os_reentry.h:24-30 | any other step takes the processor from the running task exactly when the call blocks it, signals an event, hands over a unit, ends its procedure, or suspends or resumes itself |
| Scheduling.PassedOverMovesUp | os/os_task/src/os_task.c:300-344 | the round-robin scan finds a ready task if there is one, and every ready task it passes over moves up |
| Scheduling.RoundRobinIsFair | os/os_task/src/os_task.c:300-344 | a task ready at every dispatch is among any nTasks dispatches of any run, and is passed over at most as often as its cyclic distance |
| Semaphores.ReleaseMeaning | os/os_task/src/os_task.c:350-402 | a release picks the first waiter of least prio number, or under ROUND_ROBIN the first with the greatest waiting time, the last of all if nobody has waited a tick; nobody only if all have prio 255 |
| Runs.WaitingTimeIsTicks | os/os_task/src/os_task.c:593-597 | in every run the waiting time of a task that still waits for its semaphore is the number of ticks, of any clock, since it began to wait, modulo 2^32 |
| Semaphores.SignalGivesOnce | os/os_sem/include/os_sem.h:24-42 | a signal adds one unit up to the maximum, or makes exactly one waiter ready |
| Semaphores.SignalLostOnPrio255 | os/os_task/src/os_task.c:350-402 | a signal with waiters is lost if and only if all of them have prio 255 under priority scheduling |
| Semaphores.LedgerStays | os/os_sem/include/os_sem.h:13-42 | every step keeps free + booked + lost = initial + given from outside, for every semaphore; Exclusion.TrackedNext ties the books to the tasks |
| Exclusion.TrackedNext | os/os_sem/include/os_sem.h:13-42 | every step keeps the books exact: each living task is booked one unit for each section it is inside, and one if it is past its wait and has not run since |
| Exclusion.HoldersAreConserved | os/os_sem/include/os_sem.h:13-42 | in every run after the creation of a semaphore in which only tasks inside signal it: value + held = initial, held being one unit for each section a task is inside and one for each hand-off it has not run with, with tasks suspended, reset, resumed and killed in between |
| Exclusion.AtMostInitialInside | os/os_sem/include/os_sem.h:13-42 | in every such run at most as many tasks as the initial value are between their return from OS_WAIT_SEM and their signal |
| Exclusion.BinarySemaphoreExcludes | os/os_sem/src/os_sem.c:48-51 | mutual exclusion: while a task is between its return from OS_WAIT_SEM on a binary semaphore created free and its signal, no step returns from OS_WAIT_SEM on it |
| Semaphores.NobodyWaitsForAFreeSemaphore | os/os_sem/include/os_sem.h:13-42 | in every reachable state a semaphore with waiters has value zero |
| KernelObjects.Cocoos.MsgPost | os/os_msgqueue/include/os_msgqueue.h:42-68 | the post macro up to where it posts, gives up or blocks: whole new kernel state, and the caller's message with delay and period of the call |
| KernelObjects.Cocoos.MsgReceive | os/os_msgqueue/include/os_msgqueue.h:72-102 | the receive macro likewise, and the caller's memory holds the first expired message |
| KernelObjects.Cocoos.ContinuePost | os/os_msgqueue/include/os_msgqueue.h:50-67 | the retry of a dispatched poster is the step's continuation |
| KernelObjects.Cocoos.ContinueReceive | os/os_msgqueue/include/os_msgqueue.h:80-101 | the retry of a dispatched receiver is the step's continuation |
| KernelObjects.Cocoos.MsgQTick | os/os_msgqueue/src/os_msgqueue.c:210-233 | the loop, which signals inside, equals counting all timers down and signalling the change event once if one reaches zero |
| KernelObjects.Cocoos.TaskTickAll | os/os_task/src/os_task.c:563-608 | the tick loop over the task table, with the queues it ticks, computes the specified tick |
| KernelObjects.Cocoos.TickTimer | os/os_task/src/os_task.c:568-597 | one task's timer step: its whole new control block, all others unchanged |
| KernelObjects.Cocoos.OsSubNTick | os/os_kernel/src/os_kernel.c:180-218 | sub clock 0 does nothing, others tick tasks but no queue |
| KernelObjects.Cocoos.TaskSignalEvent | os/os_task/src/os_task.c:611-642 | the loop over bytes and shifts signals the event to every task's wait set |
| KernelObjects.Cocoos.SignalEvent | os/os_event/src/os_event.c:93-107 | and records the event and its signaller |
| KernelObjects.Cocoos.TaskWaitEvent | os/os_task/src/os_task.c:534-560 | the event is added to the wait set; with a timeout the task waits on clock 0 |
| KernelObjects.Cocoos.WaitEvent | os/os_event/src/os_event.c:72-90 | an unknown event is ignored, a known one forgets its last signaller |
| KernelObjects.Cocoos.WaitMultiple | os/os_event/src/os_event.c:110-150 | accepts exactly the lists that end with NO_EVENT within N_TOTAL_EVENTS + 1 events, and then waits for exactly those |
| KernelObjects.Cocoos.ClearWaitQueue | os/os_task/src/os_task.c:485-498 | the byte loop empties the wait set and ends single-event waiting |
| KernelObjects.Cocoos.WaitQueueEmpty | os/os_task/src/os_task.c:502-518 | true if and only if the wait set is empty |
| KernelObjects.Cocoos.HighestPrioReadyTask | os/os_task/src/os_task.c:271-296 | the loop computes the specified search |
| KernelObjects.Cocoos.NextReadyTask | os/os_task/src/os_task.c:300-344 | the cyclic loop computes the specified scan and remembers its result |
| KernelObjects.Cocoos.SelectTask | os/os_kernel/src/os_kernel.c:48-59 | the scheduler's choice under either policy |
| KernelObjects.Cocoos.ReleaseWaitingTask | os/os_task/src/os_task.c:350-402 | either loop, then the hand-off to the chosen waiter |
| KernelObjects.Cocoos.WaitingThisSemaphore | os/os_task/src/os_task.c:406-426 | true if and only if some task waits for the semaphore |
| KernelObjects.Cocoos.SignalSem | os/os_sem/include/os_sem.h:24-32 | increments, or hands off and yields |
| KernelObjects.Cocoos.WaitSem | os/os_sem/include/os_sem.h:13-21 | decrements, or waits from time 0 and yields |
| KernelObjects.Cocoos.SuspendTask | os/os_task/src/os_task.c:438-463 | saves the state, but resets a semaphore waiter to ready at the top of its procedure |
| KernelObjects.Cocoos.ResumeTask | os/os_task/src/os_task.c:466-473 | restores the saved state of a suspended task, leaves others alone |
| KernelObjects.Cocoos.WaitTicks | os/os_kernel/include/os_reentry.h:29-30 | the task sleeps and has left the processor |
| KernelObjects.Cocoos.CloseTask | os/os_kernel/include/os_reentry.h:20-22 | the task is killed and has left the processor |
| KernelObjects.Cocoos.MsgQFind | os/os_msgqueue/src/os_msgqueue.c:72-84 | the first queue of the task, or NO_QUEUE |
| KernelObjects.Cocoos.TaskCreate | os/os_task/src/os_task.c:111-163 | fails, changing nothing, exactly when the kernel runs, the table is full or the prio is taken; otherwise the new task, with its queue and change event if it has a pool |
| KernelObjects.Cocoos.constructor | os/os_kernel/src/os_kernel.c:37-45 | power-up and os_init leave the empty kernel |

## Left out

- MsgQueues.MsgQueue.constructor: needs two messages at least; with one, the first push would write outside the buffer, see CreatedRingIsEmptyIffSizeAtLeastTwo.
- KernelObjects.Cocoos.constructor: needs a number of events whose bits fit (SizeFits); with others the source writes outside its wait sets. Event numbers from 255 on, which its id type cannot tell apart, are excluded too.
- KernelObjects.Cocoos.NextReadyTask: needs at least one task; without any the source reads past its task table.
- KernelObjects.Cocoos.TaskCreate: the source's return value 1 after a failed assertion, which is also a task id, is None here.
- Runs.SleepIsExactInRuns: does not cover suspension of the sleeper, which stops its time in the source; Waiting.SuspensionIsFaithful says so.
- Exclusion.HoldersAreConserved: assumes prios below 255 under priority scheduling, see SignalLostOnPrio255, and an initial value within the maximum, which os_sem_create does not check; AtMostInitialInside and BinarySemaphoreExcludes assume neither.
- Interrupts inside a slice: a step is one kernel call of the running task, or a dispatch with the retry it resumes in; interrupts come between steps. The race the project's README describes (README.md:188) is below that granularity.
- The switch on line numbers behind OS_BEGIN and OS_YIELD: a resume point is the top of the procedure, a place after some macro, or a place inside a queue macro; it carries the message being posted, which in the source stays in the task's static memory.
- User task procedures, task data and the message memory a task chooses: arbitrary calls with arbitrary arguments.
- Wrap-around of the 32-bit semaphore waiting time is in the model, so that after 2^32 ticks the greatest waiting time need not be the longest wait.
- Field order inside a message is taken as little-endian; the layout matters only for the round trips.
- Control blocks are values in an array, so that aliasing of a `tcb *` with its array element is not modelled. The waitQ field, which nothing reads, and os_task_ready_set, which nothing calls, are not either.
- Callbacks of event_wait_ex and msg_receive_ex.
- Calls.TimeoutShowsNoSignaller: the other half of what event_signaling_taskId_get promises, the task that signalled, holds only until another task begins to wait for the same event, which sets the signaller back to nobody (os/os_event/src/os_event.c:81).
- A second os_init: the kernel is initialised once, at power-up.
- os_cbkSleep, os_on_assert, the port macros, platforms, mocks, unit tests and build files: no logic to prove.
