# A verified model of the FreeRTOS SMP kernel and of its SPA2 application

This project models, in Dafny, the parts of the repository whose correctness is
an argument over whole runs: wrapped tick counts against true time, deferred
wake-ups against immediate ones, linked lists against sequences, several cores
against one map of tasks.  Nothing is executed; everything is proved for all
inputs, all runs and all interleavings the stated conditions allow.

Code that updates structures in place is written as classes with the same fields
and loops, and every method is proved equal to a step function on values.  The
properties are then proved of those functions, and of runs of them.

| files | what they model |
|---|---|
| `Common`, `ListSpec`, `Lists` | `list.c`: sequences with stable ordered insertion, and the circular doubly linked list with its sentinel and index that implements them |
| `DelayedLists`, `Suspension`, `TickKernel` | the tick count, the two delayed lists, `xNextTaskUnblockTime`, `xTaskDelayUntil`, scheduler suspension with pended ticks, the stepped tick of tickless idle (`tasks.c`) |
| `TimeOuts` | `xTaskCheckForTimeOut` and waits that are interrupted again and again (`tasks.c`) |
| `Timers`, `TimerDaemon` | the software timer daemon (`timers.c`) |
| `QueueProtocol` | blocking, waking and the lock counters of queues, as a state machine with one step per critical section (`queue.c`) |
| `QueueRing` | the ring of items in a queue's storage (`queue.c`) |
| `Mutexes` | mutexes, recursive mutexes and priority inheritance (`queue.c`, `tasks.c`) |
| `Scheduler`, `SchedulerCode` | the scheduler for several cores: the map of running tasks, yield requests, selection, affinity, deletion (`tasks.c`) |
| `EventGroups` | event groups and the rendezvous built on them (`event_groups.c`) |
| `MessageBuffers`, `StreamBufferCode` | message buffers with one writer and one reader, interleaved between sampling, copying and publishing (`stream_buffer.c`) |
| `Partitioning`, `PartitioningCode` | the semi-partitioned assignment of tasks to cores, with splitting (`smp_test`) |

How the specifications are built:

- Time.  The code counts ticks modulo 2^32; the specification counts them without
  bound.  `DelayedLists.Inv` and `Timers.Sampled` relate the two, and the theorems
  about wake times and timer callbacks are in true time.
- Concurrency.  A critical section is one step.  Runs are sequences of events, and
  each theorem about runs is for every sequence in which each event is possible
  when it happens.
- The number of cores, the number of priorities and
  `configRUN_MULTIPLE_PRIORITIES` are parameters of the scheduler's state.
  `FreeRTOS-Kernel/include/FreeRTOSConfig.h:47-61` chooses five priorities and two
  cores with affinity, and does not define `configRUN_MULTIPLE_PRIORITIES`, so
  that it counts as 0.
- Utilizations are real numbers; runtimes stay integers, truncated as the code
  truncates them.

Where the code does not do what one would expect of it, the model follows the code:

- `xTaskCheckForTimeOut` can take a long-expired wait for one that goes on, once the
  tick count has wrapped twice since the time-out was recorded.
  `TimeOuts.CheckExact` gives the exact condition, `TimeOuts.CheckMissesTwoWraps` a case.
- `vTaskStepTick` asserts on a sum that may have wrapped.  A jump over the wrap passes
  the assertion (`FreeRTOS-Kernel/tasks.c:4568-4569`) but the lists are not switched:
  `Suspension.StepTickExact` says that the step is right if and only if the counter does
  not wrap in it or nobody has a deadline, `Suspension.StepTickSkipsSwitch` gives a case.
- An overwrite of a full queue whose items have no data counts one item too many
  (the branch for them, `FreeRTOS-Kernel/queue.c:2411-2427`, goes on to the common
  increment without first taking the overwritten item off).
  `QueueRing.Queue.CopyDataToQueue` says that this is the only case,
  `QueueRing.OverwriteWithoutData` reaches it.
- The assignment loop of SPA2 looks at the cores that were not given away and at the
  last one that was, and at no other.  `Partitioning.SucceedsExactly` gives the exact
  condition under which it places every task, `Partitioning.Spa2Exactly` the same from
  the start of `main`; `Partitioning.SecondPreAssignedCoreIsMissed` is a start that fits on
  the cores and is given up.
- Priority inheritance does not protect the holder of a mutex against a more urgent
  task that was already waiting when it took the mutex.  `Mutexes.NeverBelowWaiters` gives
  the exact condition, at the take, under which nobody waiting is ever above the holder
  for as long as it keeps the mutex; `Mutexes.EarlierWaitersDoNotLend` is a run in which
  it fails.
- There a time-out can even raise the holder: the priority that
  `vTaskPriorityDisinheritAfterTimeout` gives back is that of the first task still
  waiting, though it never lent it.  `Mutexes.GivesUpRaises` says exactly when,
  `Mutexes.TimeOutRaises` is a run from the start.  So a priority is not always bounded by
  those who blocked on what a task holds: `Mutexes.PriorityIsLent` gives the bound that always
  holds, `Mutexes.PriorityIsLimited` the narrower one for runs in which nobody takes a mutex
  in front of a more urgent task.
- A timer daemon that is about to block just when a turn of the tick counter begins, with
  all expiries in the next turn, waits for no ticks at all: `Timers.WaitExactly`.

## Model

| member | source | states |
|---|---|---|
| ListSpec.InsertSorts | FreeRTOS-Kernel/list.c:139-213 | ordered insertion keeps a sorted list sorted, goes behind equal values, leaves the other entries in their order and adds exactly one |
| ListSpec.InsertUnique | FreeRTOS-Kernel/list.c:139-213 | those facts determine the result: any sorted list that extends the old one by the entry behind its equals is the one the code builds |
| ListSpec.InsertEndIsVisitedLast | FreeRTOS-Kernel/list.c:105-136 | insertion just in front of the index makes the new item the last one the index will reach before it is back where it stands |
| ListSpec.WithoutKeeps | FreeRTOS-Kernel/list.c:217-247 | removal of an owner leaves only others' entries, all from the old list, and keeps order and distinctness |
| Lists.ListItem.constructor | FreeRTOS-Kernel/list.c:89-98 | an initialised item is in no list |
| Lists.List.constructor | FreeRTOS-Kernel/list.c:49-86 | an initialised list is a valid empty ring of its sentinel |
| Lists.List.InsertEnd | FreeRTOS-Kernel/list.c:105-136 | the ring gets the item just in front of the index; all links stay mutually inverse, the count is the length, the container pointers are exactly the members', the index stays |
| Lists.List.Insert | FreeRTOS-Kernel/list.c:139-213 | the linked list's entries become the stable ordered insertion into the old ones, whatever the value, and the list stays valid |
| Lists.List.Scan | FreeRTOS-Kernel/list.c:161-199 | the search ends, thanks to the sentinel, at the last node whose value is not larger, the largest value included |
| Lists.Remove | FreeRTOS-Kernel/list.c:217-247 | exactly the item leaves its container's ring, the count returned is the new length, and an index on the item moves to its predecessor |
| Lists.InsertMends | FreeRTOS-Kernel/list.c:201-204 | once a new item and its two neighbours point at each other the whole ring is linked again |
| Lists.RemoveMends | FreeRTOS-Kernel/list.c:225-242 | once the neighbours of a removed item point at each other the rest of the ring is linked |
| DelayedLists.InitInv | FreeRTOS-Kernel/tasks.c:6067-6096 | a started kernel, with empty lists, satisfies the invariant |
| DelayedLists.BlockInv | FreeRTOS-Kernel/tasks.c:8579-8655 | blocking for d ticks, 0 < d < 2^32, makes that deadline now + d in true time, whichever list the wrapped wake time goes to, and keeps xNextTaskUnblockTime a lower bound |
| DelayedLists.WakeInv | FreeRTOS-Kernel/tasks.c:5394-5445 | a task woken early has no deadline any more and nobody else's changes, whether xNextTaskUnblockTime is recomputed before, after or not at all |
| DelayedLists.SwitchFindsEmpty | FreeRTOS-Kernel/tasks.c:264-276 | when the tick count wraps the list that becomes the overflow list is empty, as the code asserts |
| DelayedLists.TickInv | FreeRTOS-Kernel/tasks.c:4725-4856 | a tick readies, once each, exactly the tasks whose true deadline it is, and the lists go on standing for the remaining deadlines |
| DelayedLists.StepInv | FreeRTOS-Kernel/tasks.c:4725-4856 | the same invariant over every kind of step, with exactly who is readied |
| DelayedLists.RunInv | FreeRTOS-Kernel/tasks.c:4725-4856 | the lists stand for the specification's table of true deadlines after every run |
| DelayedLists.ReadiedExactlyWhenDue | FreeRTOS-Kernel/tasks.c:4725-4856 | a task left to its time-out stays blocked while its true deadline is ahead and is readied by an event if and only if that event is the tick it waits for |
| DelayedLists.NotDueStays | FreeRTOS-Kernel/tasks.c:4725-4856 | a task that is not blocked is readied by no tick |
| DelayedLists.DelayUntilExact | FreeRTOS-Kernel/tasks.c:2366-2451 | xTaskDelayUntil delays if and only if the next wake time is ahead in true time, the distance taken modulo 2^32, and then for exactly the remaining ticks |
| DelayedLists.PeriodicRelease | FreeRTOS-Kernel/tasks.c:2366-2451 | a loop on xTaskDelayUntil whose jobs are done in time is released at exactly P0 + k * I for every k, through any number of wraps |
| Suspension.ReplayInv | FreeRTOS-Kernel/tasks.c:4088-4124 | after a replay the lists stand for the deadlines that are still ahead of the true time |
| Suspension.ReplayReadiesWhatFellDue | FreeRTOS-Kernel/tasks.c:4088-4124 | a replay readies exactly the tasks that fell due while the scheduler was suspended, once each, in the order of their deadlines |
| Suspension.ResumedInv | FreeRTOS-Kernel/tasks.c:4042-4086 | draining the pending list leaves the lists standing for the deadlines of the others |
| Suspension.StepTickExact | FreeRTOS-Kernel/tasks.c:4559-4596 | whenever its assertion holds, a stepped tick leaves lists and true time in agreement if and only if the counter does not wrap or nobody has a deadline |
| Suspension.StepTickSkipsSwitch | FreeRTOS-Kernel/tasks.c:4568-4592 | a jump over the wrap that passes the assertion and leaves a task's deadline misfiled |
| Suspension.StepSound | FreeRTOS-Kernel/tasks.c:4011-4140 | ticks, delays, wake-ups, suspensions, resumes and stepped ticks keep lists and deadlines in agreement and ready exactly whom they should, once each |
| Suspension.NoTickIsLost | FreeRTOS-Kernel/tasks.c:4956-4966 | no tick is lost or made up: over every run the clock and the ticks held back add up to the tick interrupts and stepped ticks that came |
| Suspension.SuspensionsNest | FreeRTOS-Kernel/tasks.c:3837-3935 | the scheduler runs again when there were as many resumes as suspensions |
| Suspension.WokenOnResume | FreeRTOS-Kernel/tasks.c:5440-5445 | a task woken while the scheduler is suspended is readied by the last resume, and its lists are left alone until then |
| Suspension.ReadiedWhenDueOrOnResume | FreeRTOS-Kernel/tasks.c:4011-4140 | over every run that interleaves them, by the ticks that came: a task left to its time-out is readied by the tick that is its deadline if the scheduler runs then, and otherwise by the last resume after it, and by nothing else |
| TickKernel.Kernel.ResetNextUnblockTime | FreeRTOS-Kernel/tasks.c:6515-6533 | the cached unblock time becomes the head's value, or the largest value for an empty list |
| TickKernel.Kernel.SwitchDelayedLists | FreeRTOS-Kernel/tasks.c:264-276 | the lists change places and the overflow count goes up by one, modulo 2^32 |
| TickKernel.Kernel.AddCurrentTaskToDelayedList | FreeRTOS-Kernel/tasks.c:8579-8655 | the state refines blocking until now + ticks, or waiting without limit in the suspended list when that is asked for |
| TickKernel.Kernel.ReadyExpired | FreeRTOS-Kernel/tasks.c:4765-4856 | the waking loop readies exactly the entries up to the tick, in order, and leaves the cached unblock time exact |
| TickKernel.Kernel.AdvanceTick | FreeRTOS-Kernel/tasks.c:4742-4759 | the count refines true time and the overflow counter is the number of wraps |
| TickKernel.Kernel.ExpireTick | FreeRTOS-Kernel/tasks.c:4761-4856 | whoever is due is readied, if the cached unblock time has come |
| TickKernel.Kernel.IncrementTick | FreeRTOS-Kernel/tasks.c:4725-4966 | one tick of the specification, or one more pended tick while the scheduler is suspended |
| TickKernel.Kernel.RemoveFromEventList | FreeRTOS-Kernel/tasks.c:5394-5445 | a task that waits with a time-out or without limit becomes ready and waits no more, or becomes pending, once, while the scheduler is suspended |
| TickKernel.Kernel.StepTickCount | FreeRTOS-Kernel/tasks.c:4559-4596 | the jump refines the specification and leaves a tick that reaches the next unblock time to the resume |
| TickKernel.Kernel.SuspendAll | FreeRTOS-Kernel/tasks.c:3837-3935 | suspensions nest |
| TickKernel.Kernel.ResumeAll | FreeRTOS-Kernel/tasks.c:4011-4124 | the last resume readies the pending tasks and replays the pended ticks: the state is that of waking them and ticking as often |
| TickKernel.Kernel.DrainPendingReady | FreeRTOS-Kernel/tasks.c:4042-4086 | every pending task is readied in order and has no deadline any more |
| TickKernel.Kernel.ReadyPending | FreeRTOS-Kernel/tasks.c:4044-4053 | the first pending task is readied, whether it waited with a time-out or without |
| TickKernel.Kernel.ReplayPendedTicks | FreeRTOS-Kernel/tasks.c:4088-4124 | as many ticks as were held back happen one after the other |
| TimeOuts.CheckKeepsDeadline | FreeRTOS-Kernel/tasks.c:5587-5653 | with at most one wrap since the entry: expired if and only if the original deadline has come, otherwise entry plus remaining ticks is still the original deadline and the remainder is positive |
| TimeOuts.CheckExact | FreeRTOS-Kernel/tasks.c:5587-5653 | over any distance, the answer is right if and only if a condition on the two clock readings holds |
| TimeOuts.CheckMissesTwoWraps | FreeRTOS-Kernel/tasks.c:5607-5645 | a wait of 10 ticks that is taken to go on more than 2^32 ticks later |
| TimeOuts.WaitEndsAtDeadline | FreeRTOS-Kernel/tasks.c:5559-5653 | however often a wait is interrupted and checked, it goes on at exactly the checks before its original deadline |
| TimeOuts.UnlimitedWaitGoesOn | FreeRTOS-Kernel/tasks.c:5614-5622 | a wait without limit goes on at every check, however often the counter wraps |
| TimeOuts.AbortEndsWait | FreeRTOS-Kernel/tasks.c:5603-5611 | an aborted wait ends at once with its time as it was, before anything else is looked at |
| TimeOuts.TimeOut.constructor | FreeRTOS-Kernel/tasks.c:5559-5572 | a time-out records the clock |
| TimeOuts.TimeOut.InternalSet | FreeRTOS-Kernel/tasks.c:5575-5584 | both parts of the clock are recorded |
| TimeOuts.TimeOut.CheckForTimeOut | FreeRTOS-Kernel/tasks.c:5587-5653 | the answer, the record and the remaining ticks refine the specification, abort and unlimited waits included; an abort is reported once |
| Timers.ElapsedExact | FreeRTOS-Kernel/timers.c:890-931 | the comparisons of three wrapped values decide whether a whole period has passed since the command, in every case of wrapping |
| Timers.MissedCatchesUp | FreeRTOS-Kernel/timers.c:695-711 | the number of rounds of the reload loop is the number of periods that have passed in true time, and the next expiry is ahead |
| Timers.ReloadRel | FreeRTOS-Kernel/timers.c:695-711 | reloading makes up every missed call and files the timer under its next true expiry |
| Timers.ProcessRel | FreeRTOS-Kernel/timers.c:714-744 | processing an expired head at true time N makes exactly the missing calls: fired becomes floor((N - C) / P), and a one-shot timer ends |
| Timers.FinishTurnRel | FreeRTOS-Kernel/timers.c:1089-1111 | the switch loop ends and makes exactly the calls that belong to the turn of the counter that is over, for every timer |
| Timers.SwapRel | FreeRTOS-Kernel/timers.c:1089-1111 | with its list empty the turn may end: the overflow list stands for the turn that begins |
| Timers.SampleRel | FreeRTOS-Kernel/timers.c:867-887 | sampled at least once per wrap while a timer is active, the clock comparison detects exactly the turns' ends |
| Timers.RoundRel | FreeRTOS-Kernel/timers.c:778-837 | after a round every job has advanced by exactly the calls made, never past the time |
| Timers.BlocksExactly | FreeRTOS-Kernel/timers.c:778-837 | the daemon goes on to block if and only if the round did not end a turn of the counter and no expiry has come; without active timers, if and only if the count is not below the last one |
| Timers.RoundsReachBlocking | FreeRTOS-Kernel/timers.c:734-837 | rounds at one tick come to a blocking one, with at most one per active timer and one more before it |
| Timers.ObeyRel | FreeRTOS-Kernel/timers.c:995-1073 | start, reset, stop, deletion and change of period do in true time what they mean, however late a start is received |
| Timers.ReceiveRel | FreeRTOS-Kernel/timers.c:934-1086 | the same with the list removal and the clock sample that precede the command, which may end a turn |
| Timers.ActGood | FreeRTOS-Kernel/timers.c:734-837 | every act of the daemon keeps lists, status bits and clock in agreement with the jobs in true time, and no callback is early |
| Timers.AutoReloadNeverEarly | FreeRTOS-Kernel/timers.c:695-744 | over any run, the callback for the k-th period is never made before C + k * P, and the job counts its calls |
| Timers.BlocksCaughtUp | FreeRTOS-Kernel/timers.c:778-837 | whenever the daemon goes on to block at N, which it does exactly as BlocksExactly says, every active timer has had exactly floor((N - C) / P) calls |
| Timers.FiresOncePerPeriod | FreeRTOS-Kernel/timers.c:934-1047 | an auto-reload timer started at C, its command received however late, and left alone: when the daemon blocks at N it has had exactly floor((N - C) / P) calls, the k-th not before C + k * P |
| Timers.CountIsReached | FreeRTOS-Kernel/timers.c:734-1047 | and that count is reached: from any state of the run, a daemon that gets its turn at N has made exactly floor((N - C) / P) calls after at most one round per active timer and one more |
| Timers.StartGood | FreeRTOS-Kernel/timers.c:237-300 | the started daemon, with empty lists, satisfies the invariant, whatever timers exist |
| Timers.WaitIsSafe | FreeRTOS-Kernel/timers.c:778-837 | the time the daemon blocks for never reaches beyond a true expiry, is shorter than a turn of the counter, and is without limit only if no timer is active |
| Timers.WaitExactly | FreeRTOS-Kernel/timers.c:778-837 | the wait ends at the earliest expiry if that is in this turn of the counter, at the end of the turn if all are in the next, and is without limit if and only if no timer is active |
| Timers.PromptStep | FreeRTOS-Kernel/timers.c:778-837 | a daemon that acts when its wait is over, or sooner, samples the clock often enough, is never late, and makes a call only at the tick it belongs to |
| Timers.PromptlyOnTime | FreeRTOS-Kernel/timers.c:695-837 | over any run of such a daemon the callback for the k-th period of an auto-reload timer is made exactly at C + k * P |
| TimerDaemon.TimerTask.InsertTimerInActiveList | FreeRTOS-Kernel/timers.c:890-931 | reports that the expiry has passed, or files the timer in the list of the right turn |
| TimerDaemon.TimerTask.ReloadTimer | FreeRTOS-Kernel/timers.c:695-711 | the loop ends after as many callbacks as whole periods have passed since the expiry |
| TimerDaemon.TimerTask.ProcessExpiredTimer | FreeRTOS-Kernel/timers.c:714-744 | state and callbacks refine the processing of the head |
| TimerDaemon.TimerTask.SwitchTimerLists | FreeRTOS-Kernel/timers.c:1089-1111 | the loop ends with the list empty, with the specified callbacks, and the lists change places |
| TimerDaemon.TimerTask.SampleTimeNow | FreeRTOS-Kernel/timers.c:867-887 | refines the sample: switches the lists exactly when the count is below the last one |
| TimerDaemon.TimerTask.GetNextExpireTime | FreeRTOS-Kernel/timers.c:840-864 | the head's expiry, or 0 with an empty list |
| TimerDaemon.TimerTask.ProcessTimerOrBlockTask | FreeRTOS-Kernel/timers.c:778-837 | refines a round, blocking exactly when that does, for exactly the specified wait |
| TimerDaemon.TimerTask.ProcessCommand | FreeRTOS-Kernel/timers.c:971-1078 | one received command refines its specification |
| TimerDaemon.TimerTask.Execute | FreeRTOS-Kernel/timers.c:995-1078 | the switch over the commands refines its specification |
| TimerDaemon.TimerTask.StartTimer | FreeRTOS-Kernel/timers.c:997-1026 | a late start makes up all missed calls at once |
| TimerDaemon.TimerTask.ChangeTimerPeriod | FreeRTOS-Kernel/timers.c:1034-1047 | the new period counts from now and never has to be processed at once |
| TimerDaemon.TimerTask.ProcessReceivedCommands | FreeRTOS-Kernel/timers.c:934-1086 | all waiting commands are obeyed in order |
| QueueProtocol.WokenIsFirst | FreeRTOS-Kernel/tasks.c:5394-5445 | whoever is woken has the highest priority of those waiting |
| QueueProtocol.UnlockSide | FreeRTOS-Kernel/queue.c:2504-2621 | unlocking a side leaves nobody waiting, or has woken one task for every counted event, the cap notwithstanding |
| QueueProtocol.UnlockExactly | FreeRTOS-Kernel/queue.c:2504-2621 | unlocking wakes as many of those waiting as events were counted, the first ones, and nobody else |
| QueueProtocol.StepInv | FreeRTOS-Kernel/queue.c:258-300 | every step of sends, receives, peeks, ISR calls, lock, unlock, time-out and suspension keeps the invariant that covers every event by a wake-up or a count |
| QueueProtocol.RunInv | FreeRTOS-Kernel/queue.c:949-1163 | the invariant holds after every interleaving |
| QueueProtocol.NoLostWakeUp | FreeRTOS-Kernel/queue.c:1512-1658 | over every interleaving, if a receiver is still waiting while the Tx side is unlocked, the messages waiting are at most the receivers woken and not yet run; the same for senders, free slots and the Rx side |
| QueueProtocol.SettledQueue | FreeRTOS-Kernel/queue.c:1512-1658 | once every woken task has run nobody waits beside a message or a free slot, and senders and receivers never wait at once |
| QueueProtocol.WakeUpsNeedEvents | FreeRTOS-Kernel/queue.c:2504-2621 | nobody is woken without an event: over every interleaving the tasks woken and the wake-ups still owed are no more than the events that happened and those owed before |
| QueueProtocol.StaysWaiting | FreeRTOS-Kernel/queue.c:2504-2621 | a waiting task stays on its list, through any unlocking, until there is an event or its time is up |
| QueueProtocol.PlacedStays | FreeRTOS-Kernel/queue.c:1117-1151 | a task that has locked the queue and placed itself is still on its list behind its own unlocking if nothing happened since the lock |
| QueueProtocol.GivenUpIsNotPlaced | FreeRTOS-Kernel/queue.c:1121-1162 | a call whose time is up, or that finds the queue no longer empty or full, never puts its task on a list; only another attempt can |
| QueueProtocol.MessagesAddUp | FreeRTOS-Kernel/queue.c:969-1082 | over every run the messages waiting are those brought in, by overwriting an empty queue as well, less those taken |
| QueueProtocol.CountIsTheRings | FreeRTOS-Kernel/queue.c:2400-2480 | the count of the protocol is the one that the ring's copying keeps |
| QueueProtocol.CountersFit | FreeRTOS-Kernel/queue.c:277-300 | with at most 127 tasks the lock counters never overflow nor meet the assertion that guards them |
| QueueProtocol.CapLosesNothing | FreeRTOS-Kernel/queue.c:277-300 | a queue that caps its lock counts at the number of tasks does, step by step, what one with any larger cap does |
| QueueProtocol.CapLosesNothingInRuns | FreeRTOS-Kernel/queue.c:277-300 | and so in whole runs |
| QueueProtocol.Queue.constructor | FreeRTOS-Kernel/queue.c:313-352 | an empty, unlocked queue on which nobody waits |
| QueueProtocol.Queue.LockQueue | FreeRTOS-Kernel/queue.c:258-270 | both sides are locked, counts of a locked side are kept |
| QueueProtocol.Queue.UnlockTx | FreeRTOS-Kernel/queue.c:2504-2577 | the loop over the counted sends wakes as specified, the first receivers and no more than were counted |
| QueueProtocol.Queue.UnlockRx | FreeRTOS-Kernel/queue.c:2579-2621 | the same for receives and senders |
| QueueProtocol.Queue.WakeReceiver | FreeRTOS-Kernel/tasks.c:5394-5445 | the head of the list of receivers is woken and nobody else |
| QueueProtocol.Queue.WakeSender | FreeRTOS-Kernel/tasks.c:5394-5445 | the head of the list of senders is woken and nobody else |
| QueueProtocol.Queue.SendFromISR | FreeRTOS-Kernel/queue.c:1167-1336 | succeeds if and only if there is room or it overwrites; tells a receiver at once, or counts, up to the number of tasks |
| QueueProtocol.Queue.ReceiveFromISR | FreeRTOS-Kernel/queue.c:2045-2142 | succeeds if and only if there is a message; tells a sender at once, or counts |
| QueueProtocol.Queue.Attempt | FreeRTOS-Kernel/queue.c:969-1112 | the critical section at the head of each blocking call refines the specified attempt, a peek's wake-up of another receiver included |
| QueueRing.ToBack | FreeRTOS-Kernel/queue.c:2428-2441 | storing at the write position appends to the items, for every length and item size |
| QueueRing.ToFront | FreeRTOS-Kernel/queue.c:2442-2454 | storing at the read position and stepping back prepends |
| QueueRing.Taken | FreeRTOS-Kernel/queue.c:2483-2501 | stepping the read position on leaves out the first item |
| QueueRing.SlotWritten | FreeRTOS-Kernel/queue.c:2428-2454 | writing one slot's bytes leaves every other slot as it was |
| QueueRing.Queue.constructor | FreeRTOS-Kernel/queue.c:569-613 | a new queue holds nothing |
| QueueRing.Queue.Reset | FreeRTOS-Kernel/queue.c:320-323 | a reset queue holds nothing and its two pointers are in step again |
| QueueRing.Queue.CopyDataToQueue | FreeRTOS-Kernel/queue.c:2400-2480 | the contents as a bounded sequence: appended, prepended, or replaced by an overwrite; and exactly when the count goes wrong |
| QueueRing.OverwriteWithoutData | FreeRTOS-Kernel/queue.c:2411-2427 | a queue of length 1 without data, sent to and overwritten, counts 2 |
| QueueRing.Queue.CopyToBack | FreeRTOS-Kernel/queue.c:2428-2441 | the byte copy and the wrapping write pointer append an item, in bounds |
| QueueRing.Queue.CopyToFront | FreeRTOS-Kernel/queue.c:2442-2475 | the byte copy and the read pointer, wrapping backwards, prepend an item, in bounds, or replace the only one |
| QueueRing.Queue.CopyNothing | FreeRTOS-Kernel/queue.c:2411-2427 | an item without data is only counted |
| QueueRing.Queue.CopyDataFromQueue | FreeRTOS-Kernel/queue.c:2483-2501 | the first item comes out and the read pointer moves on by one slot, wrapping |
| QueueRing.Queue.Receive | FreeRTOS-Kernel/queue.c:1536-1560 | takes the first item if there is one |
| QueueRing.Queue.Peek | FreeRTOS-Kernel/queue.c:1912-1931 | shows the first item and leaves the contents alone |
| QueueRing.Queue.CopyIn | FreeRTOS-Kernel/queue.c:2428-2430 | the copied bytes fill one slot and no other |
| Mutexes.StartAccounted | FreeRTOS-Kernel/queue.c:617-640 | new mutexes and tasks are in order |
| Mutexes.StepAccounted | FreeRTOS-Kernel/tasks.c:6742-6829 | over take, give, recursive take and give, block, time-out and priority set: count is 0 if and only if there is a holder, uxMutexesHeld is the number of mutexes held, priority is at least the base priority, and equal to it when none is held |
| Mutexes.HolderHolds | FreeRTOS-Kernel/tasks.c:7666-7684 | a mutex's holder is an existing task with a positive count |
| Mutexes.NestedStep | FreeRTOS-Kernel/queue.c:759-865 | while a recursive mutex is held only its holder's own takes and gives change the call count, by one, and the give that brings it to zero frees it |
| Mutexes.NestedTakes | FreeRTOS-Kernel/queue.c:759-865 | k nested takes need k gives: over any run of everybody, it is held while takes outweigh gives and freed by the event that evens them up |
| Mutexes.StepProtected | FreeRTOS-Kernel/tasks.c:6639-6735 | each step of a run without priority changes and without blocking while holding keeps the waiting lists in priority order and each holder at least as urgent as those it answers for |
| Mutexes.RunProtected | FreeRTOS-Kernel/tasks.c:6836-6949 | and so every such run |
| Mutexes.HolderIsNoLower | FreeRTOS-Kernel/queue.c:1788-1869 | the inheritance guarantee: after every such run, through time-outs and with several mutexes held, a holder's priority is at least that of every waiting task that blocked since the holder took the mutex, and of every one that was waiting before without being more urgent |
| Mutexes.GivesUpExactly | FreeRTOS-Kernel/tasks.c:6836-6949 | what was lent is taken back: when a call that had lent its priority is given up, a holder of just this mutex has exactly the highest of its base priority and of those still waiting; one that holds more keeps what it has; nobody else changes |
| Mutexes.GivesUpRaises | FreeRTOS-Kernel/tasks.c:6836-6949 | it raises the holder if and only if the first task still waiting is more urgent, which is then one that was waiting before the take |
| Mutexes.PriorityIsLent | FreeRTOS-Kernel/tasks.c:6639-6949 | the upper half of the guarantee: over every such run a task's priority is its own or that of a task that has waited for a mutex it held since it last held nothing |
| Mutexes.PriorityIsLimited | FreeRTOS-Kernel/tasks.c:6639-6949 | where nobody takes a mutex in front of a more urgent task, it is at most the highest of its own and of those that blocked on what it held since |
| Mutexes.TimeOutRaises | FreeRTOS-Kernel/tasks.c:6836-6949 | a run from the start in which that fails without the condition: a time-out gives the holder the priority of an earlier waiter |
| Mutexes.BlocksExactly | FreeRTOS-Kernel/queue.c:1788-1809 | a task that blocks lends exactly its priority, waits by it behind its equals, and remembers having lent if and only if the holder's own is lower |
| Mutexes.TimesOutExactly | FreeRTOS-Kernel/queue.c:1829-1846 | a time-out takes the task off the list and nothing else |
| Mutexes.GivesExactly | FreeRTOS-Kernel/queue.c:2411-2427 | the give that counts frees the mutex, costs the giver one and, if it was the last, what it inherited, and wakes the first of those waiting and nobody else |
| Mutexes.PrioritySetExactly | FreeRTOS-Kernel/tasks.c:2796-2917 | a new priority is the task's own at once; an inherited one stays only while it is higher, and giving back leads to the new one |
| Mutexes.TakerIsNoLower | FreeRTOS-Kernel/queue.c:1691-1745 | after the take of a free mutex nobody waiting for it is above the taker if and only if nobody was waiting or the first one was not above it, which can be seen before |
| Mutexes.StepAnswered | FreeRTOS-Kernel/tasks.c:6836-6949 | while a task keeps a mutex, whoever comes to wait for it is one the holder answers for |
| Mutexes.NeverBelowWaiters | FreeRTOS-Kernel/queue.c:1691-1869 | the exact guarantee over a whole tenure: along every such run in which the taker keeps the mutex nobody waiting is ever above it, if and only if that held at the take |
| Mutexes.EarlierWaitersDoNotLend | FreeRTOS-Kernel/queue.c:1691-1745 | a run from the start in which it does not: a task that gets hold of a mutex a more urgent one was already waiting for runs below it |
| Mutexes.Kernel.PriorityInherit | FreeRTOS-Kernel/tasks.c:6639-6735 | priority and event list value refine the specified lending, and so does the answer whether anything was lent |
| Mutexes.Kernel.PriorityDisinherit | FreeRTOS-Kernel/tasks.c:6742-6829 | the count goes down, and the last give restores the base priority |
| Mutexes.Kernel.PriorityDisinheritAfterTimeout | FreeRTOS-Kernel/tasks.c:6836-6949 | with one mutex held the priority becomes, up or down, the larger of the base and the highest still waiting, as GivesUpExactly demands |
| Mutexes.Kernel.SetTaskPriority | FreeRTOS-Kernel/tasks.c:2796-2917 | the base priority is set, and an inherited priority kept unless the new one is higher |
| Mutexes.Kernel.TakeMutex | FreeRTOS-Kernel/queue.c:1691-1745 | takes if and only if it is free or, being recursive, already held by the caller |
| Mutexes.Kernel.BlockOnMutex | FreeRTOS-Kernel/queue.c:1788-1809 | lends the caller's priority and queues the caller by it, keeping the accounts |
| Mutexes.Kernel.GiveMutex | FreeRTOS-Kernel/queue.c:759-812 | gives if and only if the caller holds it, keeping the accounts |
| Mutexes.Kernel.ReleaseMutex | FreeRTOS-Kernel/queue.c:2411-2427 | the mutex becomes free, the giver disinherits and the first waiting task is woken |
| Scheduler.IdleFree | FreeRTOS-Kernel/tasks.c:1058-1120 | with one idle task per core always ready some idle task is free for the selecting core: the others cannot hold them all |
| Scheduler.ScanRight | FreeRTOS-Kernel/tasks.c:1040-1155 | the loop over priorities ends with a task chosen, the right one, and uxTopReadyPriority exact |
| Scheduler.SelectRight | FreeRTOS-Kernel/tasks.c:1005-1268 | selection always succeeds, chooses the right task, keeps the core map and settles what was outstanding for the core |
| Scheduler.ChosenIsHighest | FreeRTOS-Kernel/tasks.c:1040-1155 | with several priorities at once no eligible ready task has a higher priority than the chosen one; with one at a time it is from the highest ready list, or an idle task if that has none eligible |
| Scheduler.TopIsExact | FreeRTOS-Kernel/tasks.c:1040-1155 | uxTopReadyPriority ends equal to the highest non-empty ready list |
| Scheduler.SwitchContextInv | FreeRTOS-Kernel/tasks.c:5194-5289 | a context switch, or the note that one is wanted while the scheduler is suspended, keeps the invariant |
| Scheduler.SwitchAsks | FreeRTOS-Kernel/tasks.c:1157-1267 | exactly which cores a context switch asks to yield: all that run idle tasks if the highest ready priority has dropped with one priority at a time, and the one with the least urgent task that the evicted one may displace; whoever was asked before stays asked but the switching core |
| Scheduler.CoreForExactly | FreeRTOS-Kernel/tasks.c:1227-1258 | the search finds the core that runs the least urgent task of those that may be displaced, of equals the highest numbered, or none if there is none |
| Scheduler.YieldIdleAsks | FreeRTOS-Kernel/tasks.c:1166-1174 | exactly the cores that run idle tasks are asked in addition |
| Scheduler.SuspendedSwitchWaits | FreeRTOS-Kernel/tasks.c:5213-5222 | while the scheduler is suspended a switch is only noted |
| Scheduler.AssignMapped | FreeRTOS-Kernel/tasks.c:1086-1119 | giving a core a task that no other core has keeps the map of all cores |
| Scheduler.RotateSame | FreeRTOS-Kernel/tasks.c:1022-1038 | moving the running task to the end of its ready list changes the order of that list and nothing else |
| Scheduler.MakesRoom | FreeRTOS-Kernel/tasks.c:890-1003 | if a core the task may use runs something less urgent, then after the call such a core has been asked to yield: the least urgent one with several priorities at once, otherwise every core running a less urgent task, idle ones aside |
| Scheduler.CallerYields | FreeRTOS-Kernel/tasks.c:990-998 | the assertion at the end of prvYieldForTask never fails: with one priority at a time the calling core yields to a more urgent task |
| Scheduler.AsksOnlyForRoom | FreeRTOS-Kernel/tasks.c:890-1003 | and nobody is asked in vain: whoever prvYieldForTask asks runs something less urgent; with several priorities at once it asks one core at most, which the task may use |
| Scheduler.ReadyMakesRoom | FreeRTOS-Kernel/tasks.c:284-289 | a task that becomes ready has room made for it |
| Scheduler.StoppingAsks | FreeRTOS-Kernel/tasks.c:2257-2337 | a running task that is deleted, blocks or is suspended has its core asked to yield and no other; a deleted one waits for its clean-up exactly if it runs |
| Scheduler.AffinityAsks | FreeRTOS-Kernel/tasks.c:3018-3059 | a running task that is given a new mask has its core asked exactly if that is not in the mask, and no other core is |
| Scheduler.SliceAsks | FreeRTOS-Kernel/tasks.c:4876-4889 | the tick asks a core exactly if another task is ready at the priority of its ready task |
| Scheduler.StartInv | FreeRTOS-Kernel/tasks.c:3676-3678 | a started scheduler, with idle tasks on all cores, satisfies the invariant |
| Scheduler.StepInv | FreeRTOS-Kernel/tasks.c:2213-2337 | every step keeps the invariant, and a TCB that a step frees is current on no core |
| Scheduler.MapSafety | FreeRTOS-Kernel/tasks.c:349-365 | after every run: no task is current on two cores, a current one's run state is its core or scheduled-to-yield, everyone else's is not-running, and a task on a core outside its mask has a yield outstanding for that core |
| Scheduler.OvertakingStep | FreeRTOS-Kernel/tasks.c:1022-1038 | while w waits at the highest ready priority no step of any core lets a task get in front of it, and a selection by core c uses one up |
| Scheduler.BoundedOvertaking | FreeRTOS-Kernel/tasks.c:1064-1126 | core c selects at most as often while w waits as there were tasks ahead of w to begin with |
| SchedulerCode.Kernel.YieldCore | FreeRTOS-Kernel/tasks.c:349-365 | the flag of the own core, or the run state of another's task, and nothing else |
| SchedulerCode.Kernel.YieldForTask | FreeRTOS-Kernel/tasks.c:890-1003 | the loop refines the specified search and requests |
| SchedulerCode.Kernel.Visit | FreeRTOS-Kernel/tasks.c:921-979 | one round of it |
| SchedulerCode.Kernel.SelectHighestPriorityTask | FreeRTOS-Kernel/tasks.c:1005-1268 | refines the specified selection |
| SchedulerCode.Kernel.RotateReady | FreeRTOS-Kernel/tasks.c:1022-1038 | refines the rotation |
| SchedulerCode.Kernel.ChooseTask | FreeRTOS-Kernel/tasks.c:1040-1155 | refines the loop over the priorities, with the task that is evicted |
| SchedulerCode.Kernel.ScanList | FreeRTOS-Kernel/tasks.c:1054-1127 | takes the first eligible task of a ready list, or none if there is none |
| SchedulerCode.Kernel.TakeTask | FreeRTOS-Kernel/tasks.c:1064-1126 | takes a task if and only if it is eligible |
| SchedulerCode.Kernel.SettleCores | FreeRTOS-Kernel/tasks.c:1157-1267 | refines what follows the choice, the requests that SwitchAsks lists |
| SchedulerCode.Kernel.YieldIdleCores | FreeRTOS-Kernel/tasks.c:1157-1178 | all cores that run idle tasks are asked to yield, and no other |
| SchedulerCode.Kernel.DisplaceTask | FreeRTOS-Kernel/tasks.c:1180-1267 | refines the attempt of the evicted task to displace another |
| SchedulerCode.Kernel.FindCore | FreeRTOS-Kernel/tasks.c:1227-1258 | its search for the core running the least urgent task |
| SchedulerCode.Kernel.SwitchContext | FreeRTOS-Kernel/tasks.c:5194-5289 | keeps the invariant and refines the step |
| SchedulerCode.Kernel.SliceTime | FreeRTOS-Kernel/tasks.c:4876-4889 | marks exactly the cores whose task shares its priority with another ready one, keeping the invariant |
| SchedulerCode.Kernel.CoreAffinitySet | FreeRTOS-Kernel/tasks.c:3010-3059 | keeps the invariant and refines the step |
| SchedulerCode.Kernel.DeleteTask | FreeRTOS-Kernel/tasks.c:2213-2337 | keeps the invariant and refines the step |
| SchedulerCode.Kernel.CheckTasksWaitingTermination | FreeRTOS-Kernel/tasks.c:6099-6166 | frees a prefix of the deleted tasks, none of them running on any core, and stops at the first that still runs |
| SchedulerCode.Kernel.AddTaskToReadyList | FreeRTOS-Kernel/tasks.c:284-289 | keeps the invariant and refines the step |
| Partitioning.SucceedsExactly | smp_test/main.c:134-170 | for any number of cores, however many were given away: the loop places every task if and only if the stacked utilizations add up to no more than the room on the cores it reaches, those not given away and the last that was; otherwise it finds everything full, no core to look at, or no spare task |
| Partitioning.PartitionCompletes | smp_test/main.c:134-170 | what success means: every task on a core, total utilization conserved, fewer splits than cores, no core above the bound unless it was before and got nothing |
| Partitioning.PlaceOutcome | smp_test/main.c:137-169 | a round goes on if and only if the chosen core has room and there is a spare task when one is needed |
| Partitioning.MinCoreIsFirst | smp_test/task_manager.c:274-286 | the loop looks at the emptiest core and, of equals, at the one nearest the top of the stack |
| Partitioning.SpareTask | smp_test/task_manager.c:206-220 | a round stops for want of a core or a spare task only if the tasks do not fit into the room that is left |
| Partitioning.AllocatedSound | smp_test/main.c:153-168 | a round keeps the stacks free of repetition and at most one split per full core |
| Partitioning.RoundSums | smp_test/main.c:153-168 | what a round takes off the stack is exactly the room it uses up and the utilization its core gains |
| Partitioning.OnlyHigherOnPre | smp_test/task_manager.c:188-204 | a task that comes to a pre-assigned core has a higher priority than the one that core was given to |
| Partitioning.PartitionKeepsOrder | smp_test/main.c:134-170 | over the whole loop, every task is in one place once, each core's utilization is the sum of what is placed on it, and priorities rise on each core in the order of assignment |
| Partitioning.BodiesHaveTopPriority | smp_test/main.c:118-170 | the algorithm's key lemma, of the finished allocation, with any number of pre-assigned cores: a body piece has the highest priority on its core, and everything placed later on a pre-assigned core is above the task it was given to |
| Partitioning.SimpleNeedsCore | smp_test/task_manager.c:188-204 | when no core is left simple_test fails, so pre-assignment never pops a core that is not there |
| Partitioning.PreAssignDealt | smp_test/main.c:118-132 | the pre-assignment loop always ends, with the cores from the top down given to one task each, the others stacked in order, every task in one place |
| Partitioning.PreAssignDeserves | smp_test/main.c:118-132 | exactly the heavy tasks that pass simple_test, with the cores left when their turn comes, are given a core; a heavy task on the stack failed it |
| Partitioning.DealtLast | smp_test/task_manager.c:188-204 | what simple_test added up for the last task that got a core is the utilization that waits below it, and it fits on the cores that are left |
| Partitioning.Spa2Exactly | smp_test/main.c:99-170 | from the start of main, as long as one core is not given away: all tasks are assigned if and only if the stacked ones fit on the cores that were not given away and on what is left of the last one that was; then utilization is conserved with at most M - 1 splits and within the bound |
| Partitioning.Spa2Succeeds | smp_test/main.c:99-170 | in particular, with at most one core given away to a task that fits on it, whenever all tasks together fit on all cores |
| Partitioning.SecondPreAssignedCoreIsMissed | smp_test/main.c:118-151 | from the start of main with three cores and four tasks that together fit: the loop reports that everything is full while the first pre-assigned core has room |
| Partitioning.OneSplit | smp_test/task_manager.c:100-135 | a split conserves runtime and utilization, name, period and priority, and numbers the tail; the body runs at most what its utilization stands for, the tail less than one tick more |
| Partitioning.SplitRounding | smp_test/task_manager.c:100-135 | over any chain of splits the runtimes sum to the original, each body is within its utilization, and the last tail exceeds its own by less than the number of splits |
| PartitioningCode.Allocation.GetMinCore | smp_test/task_manager.c:274-286 | the least utilized core of the stack, ties going to the one nearest the top |
| PartitioningCode.Allocation.PushTask | smp_test/task_manager.c:171-181 | the task is on top, or nothing changes if the stack is full |
| PartitioningCode.Allocation.AssignTask | smp_test/task_manager.c:138-145 | the core carries the task's utilization as well |
| PartitioningCode.Allocation.NewTask | smp_test/task_manager.c:206-220 | the next spare task, or none if there is none |
| PartitioningCode.Allocation.TaskSplit | smp_test/task_manager.c:100-135 | refines the split: the body fills the core, the tail is on the stack |
| PartitioningCode.Allocation.PlaceTask | smp_test/main.c:153-169 | refines assignment or split and assignment |
| PartitioningCode.Allocation.NormalAssign | smp_test/main.c:134-170 | the loop ends, and ends as specified |
| PartitioningCode.Allocation.TestSimple | smp_test/task_manager.c:188-204 | the sum of the lower tasks against what the other cores can carry |
| PartitioningCode.Allocation.GiveCore | smp_test/main.c:121-127 | the core on top of the stack is given away to the task |
| PartitioningCode.Allocation.PreAssignTasks | smp_test/main.c:118-132 | the loop gives away the cores it is specified to, or runs out of cores |
| EventGroups.ItemValueSays | FreeRTOS-Kernel/event_groups.c:336-404 | the control bits in a list item's value say exactly what the waiting call asked for |
| EventGroups.SetBitsExactly | FreeRTOS-Kernel/event_groups.c:547-642 | a set wakes exactly the waiters whose condition holds of old and new bits together, hands them those bits, and clears exactly the union of what they asked to have cleared |
| EventGroups.WaitBitsExactly | FreeRTOS-Kernel/event_groups.c:312-404 | a wait clears what it waited for exactly if it is over at once and asked to; else, if it may block, it leaves the bits and goes to the end of the list with an item that says what it wants |
| EventGroups.SyncExactly | FreeRTOS-Kernel/event_groups.c:185-248 | a rendezvous sets first; it clears exactly if all bits are there, else it joins the list to take them all in the end |
| EventGroups.ClearBitsExactly | FreeRTOS-Kernel/event_groups.c:472-496 | exactly the bits named are cleared |
| EventGroups.TimeOutExactly | FreeRTOS-Kernel/event_groups.c:404-423 | a time-out takes the task off the list, its item as it was |
| EventGroups.WokenReturns | FreeRTOS-Kernel/event_groups.c:417-458 | a woken task returns, however much later, the bits that were there when it was woken, before anything was cleared, and they meet its condition |
| EventGroups.TimedOutReturns | FreeRTOS-Kernel/event_groups.c:423-451 | one whose time is up returns the bits of the moment it runs, and takes them exactly if its condition is met after all and it asked to |
| EventGroups.StepQuiet | FreeRTOS-Kernel/event_groups.c:778-812 | every call leaves nobody waiting whose condition is met |
| EventGroups.RunQuiet | FreeRTOS-Kernel/event_groups.c:312-455 | and so over every run of set, clear, wait, sync, time-out and return |
| EventGroups.EverybodyHere | FreeRTOS-Kernel/event_groups.c:205-248 | with distinct own bits, the rendezvous condition holds if and only if every other participant is waiting |
| EventGroups.LastArrives | FreeRTOS-Kernel/event_groups.c:205-222 | the last to arrive ends the round: everybody is woken and the bits are clear for the next |
| EventGroups.NobodyLeavesEarly | FreeRTOS-Kernel/event_groups.c:185-298 | xEventGroupSync is a reusable barrier: over any interleaving and number of rounds nobody has left a round that somebody has not entered |
| EventGroups.NobodyIsKept | FreeRTOS-Kernel/event_groups.c:185-298 | and once everybody has entered a round everybody may leave it |
| EventGroups.EventGroup.Set | FreeRTOS-Kernel/event_groups.c:547-642 | the removal loop refines the specification |
| EventGroups.EventGroup.Matches | FreeRTOS-Kernel/event_groups.c:778-812 | any of the bits, or all of them |
| EventGroups.EventGroup.Clear | FreeRTOS-Kernel/event_groups.c:472-496 | clears, and returns the bits before |
| EventGroups.EventGroup.Wait | FreeRTOS-Kernel/event_groups.c:312-404 | returns at once, clearing if asked to, or joins the list, or with no ticks does neither |
| EventGroups.EventGroup.Synchronize | FreeRTOS-Kernel/event_groups.c:185-248 | sets, and leaves at once if all are here, or joins the list |
| EventGroups.EventGroup.Resume | FreeRTOS-Kernel/event_groups.c:417-458 | a woken task returns the bits it was woken with; one that timed out looks again |
| MessageBuffers.DecodeEncode | FreeRTOS-Kernel/stream_buffer.c:1000-1050 | a length written as bytes reads back as that length |
| MessageBuffers.IndicesCount | FreeRTOS-Kernel/stream_buffer.c:1566-1584 | the wrapped index arithmetic counts stored bytes and free space exactly |
| MessageBuffers.StepInv | FreeRTOS-Kernel/stream_buffer.c:1000-1328 | every step of writer and reader, between sampling, copying and publishing, keeps the bytes between tail and head whole frames |
| MessageBuffers.RunInv | FreeRTOS-Kernel/stream_buffer.c:1000-1328 | and so every interleaving |
| MessageBuffers.EndWriteInv | FreeRTOS-Kernel/stream_buffer.c:1000-1050 | publishing the head adds one whole message and disturbs nothing the reader is copying |
| MessageBuffers.EndReadFinds | FreeRTOS-Kernel/stream_buffer.c:1276-1328 | a reader ends with a complete message, or, its memory being too small, with none |
| MessageBuffers.ReceivedArePrefixOfSent | FreeRTOS-Kernel/stream_buffer.c:1000-1328 | the messages received are exactly the first of those sent, in order and whole, and the stored bytes are exactly the frames of the rest |
| MessageBuffers.SamplesUnderReport | FreeRTOS-Kernel/stream_buffer.c:754-785 | a stale look at the other side's index only under-reports |
| MessageBuffers.OnlyWholeTransfersShow | FreeRTOS-Kernel/stream_buffer.c:1000-1328 | a failed, empty or too small transfer changes nothing visible, a successful one exactly one message |
| MessageBuffers.SendGoesThrough | FreeRTOS-Kernel/stream_buffer.c:1000-1050 | a message that fits into the space the writer has seen is sent, whatever the reader does meanwhile; one that does not is not begun |
| StreamBufferCode.KeptBehind | FreeRTOS-Kernel/stream_buffer.c:1476-1519 | writing from the head leaves the stored bytes, and appends once the head has moved |
| StreamBufferCode.FrameWritten | FreeRTOS-Kernel/stream_buffer.c:1000-1050 | a prefix and a message, each possibly split by the end of the storage, append one frame |
| StreamBufferCode.FrameRead | FreeRTOS-Kernel/stream_buffer.c:1276-1328 | and one frame comes off |
| StreamBufferCode.StreamBuffer.BytesInBuffer | FreeRTOS-Kernel/stream_buffer.c:1566-1584 | the number of stored bytes |
| StreamBufferCode.StreamBuffer.SpacesAvailable | FreeRTOS-Kernel/stream_buffer.c:754-785 | the number of bytes that still fit, one place staying free |
| StreamBufferCode.StreamBuffer.WriteBytes | FreeRTOS-Kernel/stream_buffer.c:1476-1519 | the two copies write the bytes from the index on, in bounds, and nothing else |
| StreamBufferCode.StreamBuffer.ReadBytes | FreeRTOS-Kernel/stream_buffer.c:1522-1563 | the two copies read the bytes from the index on, in bounds |
| StreamBufferCode.StreamBuffer.Send | FreeRTOS-Kernel/stream_buffer.c:808-940 | a message goes in whole, or not at all and the contents stay |
| StreamBufferCode.StreamBuffer.Receive | FreeRTOS-Kernel/stream_buffer.c:1276-1328 | the first message comes out whole, or stays if the memory is too small |

## Left out

- The port layer, context switching, stacks, MPU wrappers, thread-local storage, trace hooks and memory barriers; critical sections are atomic steps.
- Memory management: allocation is assumed to succeed, static and dynamic allocation are not told apart, and freeing a TCB is its removal from the table of tasks.
- Queue sets and the queue registry: lock counts are capped, so exact accounting for a set does not follow from the protocol.
- `xQueueGenericReset` while several senders are blocked (`FreeRTOS-Kernel/queue.c:334-336` wakes one of them only), and suspension or deletion of tasks that wait on a queue.
- Priority changes of tasks that are already on a queue's waiting list and inheritance across several holders, in the inheritance guarantee: the code does not keep the lists ordered there. The accounting lemmas do include `vTaskPrioritySet`.
- Deletion of mutex holders.
- Priorities in the scheduler for several cores are fixed (no `vTaskPrioritySet` there), its idle tasks are never blocked or deleted, the option to disable preemption per task is not modelled, and tasks waiting in delayed or event lists are simply not ready.
- The pended function calls of the daemon's queue, the freeing of a deleted timer's memory (deletion ends the timer, as stop does), and the creation of the daemon.
- The `#else` loop of `smp_test/main.c:172-199`, which is the modelled loop without pre-assigned cores and so a special case of it.
- Spa2Exactly: says nothing of starts that give every core away while tasks are stacked, because `get_min_core` then reads in front of its array.
- Rounding of floating point: utilizations and bounds are reals, and the bound is a parameter (`get_lighttask` only computes it).
- Stream buffers that are not message buffers, trigger levels, blocking and notifications in stream buffers, and their ISR variants.
- Event group deletion, event group calls from ISRs and the callbacks they pend. Event bits are sets of bit numbers, of any width.
- `CountersFit` is for at most 127 tasks, as the counters' type demands; the other lemmas about queues are for any fixed number of tasks.
- Overwriting in `QueueProtocol` is of queues of length one, as the code asserts; `QueueRing.Queue.CopyDataToQueue` has the case without data.
- Tick counts of 16 and 64 bits; the model is for 32.
- Timers.ReceiveRel: does not model pended function calls, which touch no timer.
- TimerDaemon.TimerTask.ProcessReceivedCommands: the same.
- TickKernel.Kernel.IncrementTick: does not model time slicing and yields, which are steps of the scheduler's model (`Scheduler.SliceAsks`).
- TickKernel.Kernel.ResumeAll: does not model the yield that may follow, which is a step of the scheduler's model.
- Mutexes.Kernel.PriorityInherit: does not model the ready list a raised task moves to; which task runs is the subject of the scheduler's model.
- Mutexes.Kernel.PriorityDisinherit: the same.
- Mutexes.Kernel.PriorityDisinheritAfterTimeout: the same.
- Mutexes.Kernel.SetTaskPriority: the same, and the yields.
- SchedulerCode.Kernel.DeleteTask: does not model the delayed and event lists and the recomputed unblock time, which are those of `TickKernel`, nor the task counters.
- PartitioningCode.Allocation.AssignTask: does not model the call that sets the affinity mask of the task.
- PartitioningCode.Allocation.TaskSplit: does not model the creation of the tail's kernel task.
- StreamBufferCode.StreamBuffer.SpacesAvailable: does not model the second read of a tail that moves meanwhile; `MessageBuffers.SamplesUnderReport` covers stale reads.
- StreamBufferCode.StreamBuffer.Send: does not model waiting for space and telling a waiting reader.
- `xTaskCatchUpTicks`, which suspends, adds to the pended ticks and resumes.
- Co-routines, run-time statistics, task listing, name search, `gcd`, `lcm`, the LED and busy-loop code, and the Pico SDK.
