# The TOPPERS/HRP3 kernel, modelled and proved

A model, in Dafny, of the parts of the HRP3 kernel that carry its hard invariants, and proofs about
every run of them.

**Scheduler, waiting and mutexes.** `KernelState` defines the abstract kernel: task records, ready and
wait queues as sequences, mutex chains, registered timeouts. `KernelCalls` gives each service call and
timeout callback as one atomic step, from the CPU lock to the dispatch. `KernelInvariant` and
`KernelProofs` carry the invariant through the elementary moves, up to what a call has taken apart for
the moment; `KernelRuns` does it for each call, `KernelTheorems` for every run, and says there what the
invariant means. `KernelTermination` adds that no termination request is left lying. `Kernel` is the
concrete kernel: a class with the bitmaps, the cached best task of each scheduling unit, the cached
choice and the linked mutex chains. Each of its methods is proved to take the abstract state to exactly
the specified one, caches included (`ReadyCaches`, `Bitmap`).

What the specified steps are good for is proved apart from how they are written. `KernelFairness`: what a
call may do to tasks it is not about, and that nobody overtakes another. `KernelAnswers`: what each answer
says of the task concerned, and when a call fails. `KernelCounts`: the units of semaphores, activations and
wake-ups are conserved over runs, and a task's states follow one another by the rules. `KernelOwners`: whose
each mutex is, and in which order a task holds its own. `KernelPlaces`: where a task stands in its queue.

**Time events.** `EventTime` relates 32-bit times to unbounded ones, `EventHeap` is the heap in its
array with back-pointers, `SystemClock` the clock words, `TimeEvents` the module as a whole: when the
modular order can be trusted, how early the timer is set, and what the timer interrupt does.

**Communication objects.** `MessageRing` and `MessageBuffer`, `DataQueue`, `PriDataQueue`, `FixedPool`
and `EventFlag`: for each, the protocol with its waiting tasks as a function on values with theorems
about all runs, and a class with the arrays, links and counters of the source that refines it.
`WaitQueue` holds what their queues share, `Turns` what it means that their waiting tasks are served in
turn; `FlagBits` says bit by bit what the calls of an event flag do. `Queue` stands alone: it proves the
operations on linked rings, which the other modules do not use; they have sequences.

**Time partitioning.** `TimePartition` is the state machine of cycles, windows and modes with the
switches that are put off, and a log of what started when. `WindowProgress` says that windows end: when,
what comes next, and that each gets its time.

**Parts joined.** `KernelWindows` runs the kernel and the time windows together: a task runs only when
its domain may. `KernelTimeouts` puts the kernel object and the timer object together: a task's block is
in the heap exactly while the task waits with a timeout. `MessageTasks` and `MessageRuns` run the kernel
and a message buffer together: the tasks waiting for the one are those waiting in the other.

**Serial driver.** `Serial` is the token protocol between tasks and the two interrupt callbacks, over
all interleavings of their atomic sections, and the ring buffers in memory. `SerialProgress` says that
characters get sent, received and read, by whom and in which order, and when the other side is stopped.

Unbounded times and histories are ghost state or values beside the words the program keeps. A service
call is one atomic step; a blocking call ends at the dispatch. The device, the counter and the
callbacks of events are parameters, or methods of which callers know only the contract.

Where comment and code part: the comment on signalling a message buffer (`kernel/messagebuf.c:275-282`)
lets senders in until the first message does not fit, but a message handed over directly from a waiting
sender (`kernel/messagebuf.c:320-326`) is not followed by signalling. The model does what the code does,
and `MessageBuffer.InVainExactly` gives the sizes and attributes for which no sender waits in vain all the
same. Three further orders of calls and interrupts the code does not guard against are stated with their exact
conditions: a block released twice between check and lock (`FixedPool.PoolRun`); a START or STOP that the
device takes directly while an earlier one still waits for a transmit interrupt, so that they go out in the
wrong order (`SerialProgress.FlowControl`; `syssvc/serial.c:533-541` and `671-779`); and a change of mode
before the first cycle event (`TimePartition.PartitionRun`). As for the last, the timer is set or its
interrupt raised before dispatching starts (`kernel/startup.c:123-129`), so whether a task gets to make that
early call depends on how late the interrupt is taken.

## Model

| member | source | states |
|---|---|---|
| KernelTheorems.Membership | kernel/wait.c:56-136 | in every reachable state each task is linked exactly once to the queue its state dictates and to no other, and its timeout block is registered iff it waits with a timeout |
| KernelTheorems.PriorityCeiling | kernel/mutex.c:145-248 | in every reachable state a task's priority is its base priority or the ceiling of a mutex it holds, every ceiling it holds lies between the two, and no mutex it waits for has a ceiling lower than its base priority |
| KernelTheorems.MutexOwnership | kernel/mutex.c:258-321 | in every reachable state a chain holds exactly the mutexes owned, once each; a mutex with waiters has an owner, who is not waiting for it; a dormant task owns none |
| KernelTheorems.PriorityOrder | kernel/wait.c:172-180 | in every reachable state a TA_TPRI wait queue is in order of current priority |
| KernelTheorems.RunsTheBest | kernel/task.h:362-382 | in every reachable state with dispatching enabled, no runnable task of the kernel domain or of the window is more urgent than the running one, and the kernel domain wins ties |
| KernelTheorems.BestNotBelow | kernel/task.c:199-205 | the best task of a unit is at least as urgent as any non-empty level |
| KernelTheorems.InitialSettled | kernel/task.c:78-106 | the state after initialisation satisfies the invariant |
| KernelTheorems.StepSettled | kernel/wait.c:56-227 | every service call and every timeout callback keeps the invariant: membership, timeouts, chains, ceilings, queue order, and the running task is the scheduler's choice |
| KernelTheorems.ReachableSettled | kernel/task.c:219-445 | the invariant holds in every state reachable by any sequence of calls, timeouts and window switches |
| KernelTheorems.ReleaseAllOwners | kernel/mutex.c:313-321 | mutex_release_all gives each mutex of the chain to its first waiter or to nobody and leaves every other owner alone |
| KernelTheorems.TerminationReleasesAll | kernel/task.c:428-445 | after a termination the task owns no mutex, has no timeout block registered, and is dormant unless a queued activation restarted it |
| KernelTheorems.UnlockIsLifo | kernel/mutex.c:488-517 | unl_mtx succeeds iff the mutex is the one its owner, the running task, locked last |
| KernelTermination.TerminationServed | kernel/task_term.c:159-263 | in every reachable state a task asked to terminate is runnable, and one that also allows termination is the running task and has disabled dispatching: no request is left lying |
| KernelTermination.StepServed | kernel/sys_manage.c:627-664 | every call keeps that: waits and suspensions are refused to such a task, and enabling termination or dispatching terminates it |
| KernelTermination.CalmTerminate | kernel/task.c:428-445 | a termination clears the task's request and makes, allows or stops nobody else's |
| MessageTasks.SignalTied | kernel/messagebuf.c:285-300 | signalling a message buffer lets the same tasks go on in the kernel's wait queue, and leaves the same, as the messages' sizes decide |
| MessageTasks.DequeueTied | kernel/wait.c:83-91 | when a sender leaves the queue, exactly the senders go on that the buffer then has room for |
| MessageTasks.RelWaiTied | kernel/task_sync.c:297-332 | rel_wai of a sender is, for the buffer, a sender that stops waiting |
| MessageTasks.TimeoutTied | kernel/wait.c:116-136 | so is a sender's timeout |
| MessageTasks.TerTskTied | kernel/task_term.c:296-324 | so is ter_tsk of a sender |
| MessageTasks.RasTerTied | kernel/task_term.c:159-204 | so is ras_ter of a sender, terminated or only released from its wait |
| MessageTasks.TerminateTied | kernel/task.c:428-445 | terminating a sender, with all the mutexes it hands over, lets exactly the senders go on that the buffer then has room for |
| MessageTasks.SamePlace | kernel/wait.h:62-74 | a sender enters both queues at the same place |
| MessageRuns.RunJoined | kernel/messagebuf.c:251-656 | in every joint run of the kernel and a message buffer, with any calls, timeouts and priority changes, the kernel's wait queues are the buffer's: the same senders in the same order with their current priorities, the same receivers; both invariants hold, and with safe sizes nobody waits in vain |
| MessageRuns.MoveJoined | kernel/messagebuf.c:251-656 | every call keeps that, the buffer's own and all others |
| MessageRuns.ServedJoined | kernel/wait.c:83-136 | calls that are not the buffer's: ends of waits, priority changes by chg_pri and ini_mtx, and what has nothing to do with it |
| MessageRuns.CallStill | kernel/wait.c:56-227 | a call whose task is not in a wait queue of the buffer, and whose object it is not, leaves queue and priorities there alone |
| MessageRuns.ReceiverLeaves | kernel/wait.c:83-136 | a call that ends a receiver's wait takes just this one out of the queue |
| MessageRuns.MovedTied | kernel/wait.h:257-263 | a sender whose priority changes moves to the same place in both queues |
| MessageRuns.SentJoined | kernel/messagebuf.c:251-273 | send_message and the waiting behind it do the same on both sides |
| MessageRuns.ReceivedJoined | kernel/messagebuf.c:310-330 | so does receive_message with the senders it lets go on |
| MessageRuns.MoveSettled | kernel/messagebuf.c:251-656 | the buffer's calls keep the kernel's invariant |
| MessageRuns.OneCall | kernel/messagebuf.c:251-656 | each call is at most one call on the buffer as a protocol of its own, whose theorems therefore hold of joint runs |
| KernelWindows.OnlyInItsWindow | kernel/domain.c:405-428 | in every joint run of the kernel and the time windows in which no chg_som comes too early, whenever dispatching is enabled the running task is of the kernel domain, of the domain whose window it is, or, with a mode active, of a domain without windows |
| KernelWindows.RunAgrees | kernel/domain.c:303-559 | in every joint run the kernel's scheduling units are those the windows dictate, and dispatching is disabled for both or for neither |
| KernelWindows.MoveAgrees | kernel/domain.c:355-559 | every call and interrupt keeps that: set_dspflg, ext_tsk and interrupts give the kernel the units the window switch chose |
| KernelWindows.PutOff | kernel/domain.c:355-494 | while dispatching is disabled no interrupt and no chg_som changes the units |
| KernelWindows.NeverRefused | kernel/domain.c:355-559 | what the windows allow the kernel can always carry out |
| KernelTimeouts.TimedByCaller | kernel/wait.c:56-74 | only a blocking call starts a timeout, and only its caller's; the callback of a timeout finds that one ended |
| KernelTimeouts.TimedKernel.Perform | kernel/wait.c:56-106 | after every call the block of each task is in the heap iff the task waits with a timeout; blocks of tasks that still wait keep their times, and the caller's is no earlier than asked for |
| KernelTimeouts.TimedKernel.ProcTop | kernel/time_event.c:626-646 | takes an earliest block that is due; if it is a task's, this task is waiting with a timeout, which the callback ends |
| KernelTimeouts.TimedKernel.CallBack | kernel/wait.c:116-161 | the callback keeps blocks and waits tied, the waits of others it ends included |
| KernelTimeouts.TimedKernel.Follow | kernel/wait.c:56-106 | brings the heap in line with the waits, leaving all other blocks alone |
| KernelRuns.LockNeedsNoDispatch | kernel/mutex.c:351-357 | acquiring a ceiling mutex leaves the running task the scheduler's choice, as the code asserts |
| KernelRuns.ChgPriInv | kernel/task_manage.c:250-297 | chg_pri keeps the invariant although it recomputes the priority only when no ceiling mutex is held |
| KernelRuns.UnlMtxInv | kernel/mutex.c:488-517 | unl_mtx keeps the invariant |
| KernelRuns.IniMtxInv | kernel/mutex.c:527-563 | ini_mtx keeps the invariant: waiters are released with E_DLT, the mutex leaves the middle of its owner's chain |
| KernelRuns.RasTerInv | kernel/task_term.c:159-204 | ras_ter keeps the invariant in all of its branches: immediate termination, wait released, suspension ended |
| KernelRuns.TerTskInv | kernel/task_term.c:296-324 | ter_tsk keeps the invariant |
| KernelRuns.RelWaiInv | kernel/task_sync.c:297-332 | rel_wai keeps the invariant whatever the task waits for |
| KernelRuns.SusTskInv | kernel/task_sync.c:342-396 | sus_tsk keeps the invariant |
| KernelRuns.RsmTskInv | kernel/task_sync.c:406-444 | rsm_tsk keeps the invariant |
| KernelRuns.WupTskInv | kernel/task_sync.c:204-248 | wup_tsk keeps the invariant |
| KernelRuns.TimeoutInv | kernel/wait.c:116-161 | the timeout callbacks keep the invariant |
| KernelRuns.ExpireIs | kernel/wait.c:116-136 | a timeout ends the wait just as any other forced end does, its block having left the heap first |
| KernelRuns.SigSemInv | kernel/semaphore.c:142-180 | sig_sem keeps the invariant, in which nobody waits for an available semaphore |
| KernelRuns.RotateInv | kernel/task.c:403-418 | rotating a ready queue keeps the invariant |
| KernelProofs.ChangePriorityInv | kernel/task.c:331-390 | changing a priority requeues the task where its new priority puts it, in a ready queue or in a TA_TPRI wait queue |
| KernelRuns.EnaDspInv | kernel/sys_manage.c:627-664 | ena_dsp keeps the invariant, the termination put off until then included |
| KernelProofs.WaitEndInv | kernel/wait.c:101-106 | completing a wait leaves no stale queue link or timeout block |
| KernelProofs.WaitDequeueWobjInv | kernel/wait.c:83-91 | taking a task out of its wait queue keeps every other task in place, whatever number of message buffer senders goes on then |
| KernelProofs.InitWaitQueueInv | kernel/wait.c:217-227 | init_wait_queue releases all waiters and keeps the invariant |
| KernelProofs.WobjMakeWaitInv | kernel/wait.c:188-207 | entering a wait queue keeps the invariant |
| KernelProofs.MutexAcquireInv | kernel/mutex.c:258-267 | acquiring a mutex keeps chains and ceilings right |
| KernelProofs.MutexDropPriorityInv | kernel/mutex.c:237-248 | dropping a priority restores the minimum of base priority and held ceilings, although only a mutex whose ceiling equals the priority triggers recomputation |
| KernelProofs.MutexHandOverInv | kernel/mutex.c:277-303 | handing a mutex over moves it from one chain to another |
| KernelProofs.MutexReleaseInv | kernel/mutex.c:277-303 | releasing a mutex wakes its first waiter as the new owner, at the ceiling |
| KernelProofs.TaskTerminateInv | kernel/task.c:428-445 | terminating a task from any state keeps the invariant |
| KernelObject.Kernel.constructor | kernel/task.c:78-106 | establishes the caches, chains and the initial abstract state |
| KernelObject.Kernel.UpdateSchedtsk | kernel/task.h:362-382 | p_schedtsk becomes the choice defined over the ready queues |
| KernelObject.Kernel.SearchPredtsk | kernel/task.c:199-205 | finds the head of the highest non-empty queue through the bitmap |
| KernelObject.Kernel.MakeRunnable | kernel/task.c:219-234 | links the task and repairs bitmap, p_predtsk and p_schedtsk; the state becomes the specified one |
| KernelObject.Kernel.MakeNonRunnable | kernel/task.c:249-274 | unlinks the task and repairs the caches |
| KernelObject.Kernel.ChangePriority | kernel/task.c:331-390 | refines the specified change, caches included |
| KernelObject.Kernel.RotateReadyQueue | kernel/task.c:403-418 | refines the specified rotation, caches included |
| KernelObject.Kernel.TaskTerminate | kernel/task.c:428-445 | refines the specified termination |
| KernelObject.Kernel.WobjChangePriority | kernel/wait.h:257-263 | moves a waiting task to the place its priority gives it |
| KernelObject.Kernel.TpriIndex | kernel/wait.h:62-74 | the place before the first task of a lower priority |
| KernelObject.Kernel.WaitDequeueWobj | kernel/wait.c:83-91 | takes the task out of its wait queue if it is in one; of a message buffer's senders as many go on as is said |
| KernelObject.Kernel.WobjMakeWait | kernel/wait.c:188-207 | puts the running task into the wait queue, with a timeout or not |
| KernelObject.Kernel.InitWaitQueue | kernel/wait.c:217-227 | releases every waiter with E_DLT; the loop ends |
| KernelObject.Kernel.MutexCheckCeilpri | kernel/mutex.c:152-183 | walks the chain and tells whether every held or awaited ceiling allows the new base priority |
| KernelObject.Kernel.MutexScanCeilmtx | kernel/mutex.c:193-205 | tells whether the chain holds a ceiling mutex |
| KernelObject.Kernel.MutexCalcPriority | kernel/mutex.c:215-229 | computes the minimum of base priority and held ceilings along the chain |
| KernelObject.Kernel.MutexDropPriority | kernel/mutex.c:237-248 | refines the specified drop of priority |
| KernelObject.Kernel.MutexAcquire | kernel/mutex.c:258-267 | puts the mutex at the end of the chain |
| KernelObject.Kernel.MutexRelease | kernel/mutex.c:277-303 | gives the mutex to its first waiter or to nobody |
| KernelObject.Kernel.MutexReleaseAll | kernel/mutex.c:313-321 | empties the chain; the loop ends |
| KernelObject.Kernel.ActTsk | kernel/task_manage.c:109-150 | refines the specified call: same new state, same error code |
| KernelObject.Kernel.ChgPri | kernel/task_manage.c:250-297 | refines the specified call |
| KernelObject.Kernel.SlpTsk | kernel/task_sync.c:125-194 | refines the specified call |
| KernelObject.Kernel.WupTsk | kernel/task_sync.c:204-248 | refines the specified call |
| KernelObject.Kernel.RelWai | kernel/task_sync.c:297-332 | refines the specified call, for any number of senders that go on |
| KernelObject.Kernel.SusTsk | kernel/task_sync.c:342-396 | refines the specified call |
| KernelObject.Kernel.RsmTsk | kernel/task_sync.c:406-444 | refines the specified call |
| KernelObject.Kernel.DlyTsk | kernel/task_sync.c:454-486 | refines the specified call |
| KernelObject.Kernel.ExtTsk | kernel/task_term.c:110-149 | refines the specified call |
| KernelObject.Kernel.RasTer | kernel/task_term.c:159-204 | refines the specified call, for any number of senders that go on |
| KernelObject.Kernel.EnaTer | kernel/task_term.c:240-263 | refines the specified call |
| KernelObject.Kernel.TerTsk | kernel/task_term.c:296-324 | refines the specified call, for any number of senders that go on |
| KernelObject.Kernel.LocMtx | kernel/mutex.c:331-374 | refines the specified call |
| KernelObject.Kernel.PlocMtx | kernel/mutex.c:384-420 | refines the specified call |
| KernelObject.Kernel.UnlMtx | kernel/mutex.c:488-517 | refines the specified call |
| KernelObject.Kernel.IniMtx | kernel/mutex.c:527-563 | refines the specified call, finding the mutex in the middle of its owner's chain |
| KernelObject.Kernel.WaiSem | kernel/semaphore.c:190-221 | refines the specified call, whose effect on the count `KernelCounts.SemConserved` gives over runs |
| KernelObject.Kernel.SigSem | kernel/semaphore.c:142-180 | refines the specified call, for which see `KernelCounts.SigSemAnswers` |
| KernelObject.Kernel.IniSem | kernel/semaphore.c:311-334 | refines the specified call |
| KernelObject.Kernel.Timeout | kernel/wait.c:116-161 | refines the specified callback, for any number of senders that go on |
| KernelObject.Kernel.RotRdq | kernel/sys_manage.c:197-291 | refines the specified call |
| KernelObject.Kernel.EnaDsp | kernel/sys_manage.c:627-664 | refines the specified call, the termination put off until then included |
| KernelObject.Kernel.SwitchWindow | kernel/domain.c:355-367 | refines the specified change of scheduling units |
| KernelObject.Kernel.CanAct | kernel/task_manage.c:160-184 | refines the specified call, and returns how many activations it took away |
| KernelObject.Kernel.CanWup | kernel/task_sync.c:258-287 | refines the specified call, and returns how many wake-ups it took away |
| KernelObject.Kernel.DisTer | kernel/task_term.c:213-230 | refines the specified call |
| KernelObject.Kernel.DisDsp | kernel/sys_manage.c:602-620 | refines the specified call; the choice is frozen |
| KernelObject.Kernel.ObjWait | kernel/wait.c:188-207 | what a blocking call on a message, data, flag or memory object does to its caller |
| KernelObject.Kernel.ObjWake | kernel/wait.c:101-106 | what the call that serves a waiting task does to it |
| KernelObject.Kernel.ObjInit | kernel/wait.c:217-227 | releases the tasks waiting in a queue of an object |
| KernelObject.Kernel.Do | kernel/wait.c:56-227 | whatever the step of the abstract kernel, the class does it: same new state, same result, invariant kept |
| ReadyCaches.UnlinkedOk | kernel/task.c:249-274 | after a task leaves its queue, bitmap and best task are right once bit and head are repaired |
| ReadyCaches.LinkedOk | kernel/task.c:219-234 | after a task joins its queue, bitmap and best task are right |
| ReadyCaches.RequeuedOk | kernel/task.c:331-390 | after a runnable task changes priority, bitmap and best task are right |
| ReadyCaches.RotatedOk | kernel/task.c:403-418 | after a rotation, bitmap and best task are right |
| Bitmap.BitmapSearch | kernel/task.c:139-153 | returns the lowest set bit of a non-zero bitmap |
| EventTime.OrderAgrees | kernel/time_event.c:121-123 | for times within one word of the boundary EVTTIM_LT and EVTTIM_LE agree with the order of the unbounded times |
| EventTime.DueTestExact | kernel/time_event.c:121-123 | the due test is right iff the event is overdue by no more than BOUNDARY_MARGIN |
| EventTime.OverdueLooksFuture | kernel/time_event.c:61-63 | one tick more than the margin, and an overdue event is taken for a future one |
| TimeEvents.WraparoundOrder | kernel/time_event.c:401-583 | in every run, at every reading at which no event is overdue by more than the margin, the modular order of any two events, and of an event and the clock, is the real one |
| TimeEvents.LatenessLimit | kernel/time_event.c:121-123 | in every run the margin is the exact limit of that |
| EventHeap.RootIsLeast | kernel/time_event.c:198-275 | the root of an ordered heap is a minimum |
| EventHeap.TimeEventHeap.Up | kernel/time_event.c:198-224 | ends at a slot where the time fits, keeping shape, order and back-pointers of the rest |
| EventHeap.TimeEventHeap.Down | kernel/time_event.c:238-275 | ends at a slot where the time fits, keeping shape, order and back-pointers of the rest |
| EventHeap.TimeEventHeap.Insert | kernel/time_event.c:286-301 | adds exactly the one block; order and back-pointers hold |
| EventHeap.TimeEventHeap.Delete | kernel/time_event.c:307-359 | removes exactly the one block from whatever slot it is in; order and back-pointers hold |
| EventHeap.TimeEventHeap.DeleteTop | kernel/time_event.c:365-393 | removes and returns a block no other precedes; order and back-pointers hold |
| EventHeap.TimeEventHeap.BoundaryMoves | kernel/time_event.c:401-427 | moving the boundary keeps the heap in order if both windows hold all its times |
| EventHeap.TimeEventHeap.RootIsEarliest | kernel/time_event.c:437-467 | the root has the least unbounded time |
| EventHeap.TimeEventHeap.Count | kernel/time_event.c:286-301 | as many blocks as occupied slots |
| SystemClock.ClockRuns | kernel/time_manage.c:94-190 | in every run the lag is bounded, the peak is the running maximum of the clock, and readings never decrease between two settings |
| SystemClock.ReadingsAscend | kernel/time_manage.c:121-139 | what get_tim returns never decreases between two settings, short of 2^64 |
| SystemClock.ReadTwice | kernel/time_manage.c:121-190 | the second of two calls of get_tim returns no less than the first, whatever advances and adjustments come between them |
| SystemClock.AdvanceRecovered | kernel/time_event.c:406-415 | two counter readings give the elapsed ticks iff the counter is read within one cycle, wraps at 32 bits or below included |
| SystemClock.SystemClock.UpdateCurrentEvttim | kernel/time_event.c:401-427 | the 32-bit words and the 64-bit offset keep standing for the unbounded clock and its maximum |
| SystemClock.SystemClock.GetTim | kernel/time_manage.c:121-139 | returns base plus running maximum, modulo 2^64 |
| SystemClock.SystemClock.SetTim | kernel/time_manage.c:94-111 | makes that sum the given time |
| SystemClock.SystemClock.Shift | kernel/time_manage.c:166-180 | the adjustment; going back leaves the maximum alone |
| TimeEvents.TimerModule.UpdateCurrentEvttim | kernel/time_event.c:401-427 | needs no change of the heap, which stays in order |
| TimeEvents.TimerModule.SetHrtEvent | kernel/time_event.c:437-467 | the interrupt is raised iff an event is due, and otherwise set no later than the earliest event and HRTCNT_BOUND |
| TimeEvents.TimerModule.EnqueueReltim | kernel/time_event.c:514-535 | registers the event the given time after the current tick's end; the timer stays set early enough |
| TimeEvents.TimerModule.Dequeue | kernel/time_event.c:545-563 | withdraws the event; the counter is read only if it was the earliest |
| TimeEvents.TimerModule.LeftTime | kernel/time_event.c:593-616 | returns the time left, zero if the event is due |
| TimeEvents.TimerModule.CheckAdjtim | kernel/time_event.c:573-583 | refuses a step ahead iff an event is late by TMAX_ADJTIM, a step back iff the lag is that of TMIN_ADJTIM |
| TimeEvents.TimerModule.AdjTim | kernel/time_manage.c:149-190 | returns each error exactly in its case, and otherwise adjusts; no event becomes too late |
| TimeEvents.TimerModule.ProcTop | kernel/time_event.c:626-646 | takes an earliest event iff one is due |
| TimeEvents.TimerModule.SignalTime | kernel/time_event.c:656-713 | what happens follows the callbacks, each called for an earliest registered event in the order of their times, a cyclic one entered again a period later, then what its handler asks for, and nothing else; on exit none is due at the last reading, and the timer is set |
| TimeEvents.TimerModule.Repeat | kernel/cyclic.c:244-268 | a cyclic event is registered one period after the time it was due |
| TimeEvents.TimerModule.StartOne | kernel/alarm.c:125-152 | a running alarm is withdrawn before it is registered anew |
| TimeEvents.OnceEach | kernel/time_event.c:656-713 | every registration ends exactly once, by its callback or a withdrawal, or is still there |
| MessageRing.ImageAppend | kernel/messagebuf.c:167-200 | storing one more message extends the image of memory by its record |
| MessageRing.FirstRecord | kernel/messagebuf.c:210-241 | the first record reads back as the message stored, and the rest is the image of the other messages |
| MessageRing.Appended | kernel/messagebuf.c:167-200 | putting down length and bytes behind the tail, across the end if need be, stores one record and harms none |
| MessageRing.WordRoundTrip | kernel/messagebuf.c:176-218 | the length word reads back |
| MessageRing.Ring.EnqueueMessage | kernel/messagebuf.c:167-200 | appends the message iff it fits with its header and rounding; the free size stays exact |
| MessageRing.Ring.StoreBody | kernel/messagebuf.c:182-195 | writes the message, split at the end of the area, and nothing else |
| MessageRing.Ring.DequeueMessage | kernel/messagebuf.c:210-241 | removes and returns the first message byte for byte |
| MessageRing.Ring.LoadBody | kernel/messagebuf.c:224-236 | gathers the message from one or two pieces |
| MessageBuffer.SignalKeepsOrder | kernel/messagebuf.c:285-300 | signalling never alters the sequence of stored and waiting messages, and goes on until the first waiting one does not fit |
| MessageBuffer.StepConsistent | kernel/messagebuf.c:251-343 | waiting receivers mean nothing stored and no waiting sender, after every call |
| MessageBuffer.FifoStep | kernel/messagebuf.c:251-343 | one call on a TA_TFIFO buffer appends at the end, removes at the front, or takes back one waiting message |
| MessageBuffer.FifoRun | kernel/messagebuf.c:251-343 | in every run of a TA_TFIFO buffer, received then stored then waiting messages are the accepted ones in order |
| MessageBuffer.InVainExactly | kernel/messagebuf.c:251-330 | for each attribute, in all runs the first waiting message never fits iff the area holds no message at all, or one of maximum size, and with TA_TPRI moreover all messages take the same room or no two fit together |
| MessageBuffer.LeftInVain | kernel/messagebuf.c:320-326 | the failing run for an area that holds some message but not the largest: a small message left waiting behind a large one handed over directly |
| MessageBuffer.OvertakerInVain | kernel/messagebuf.c:263-269 | the failing run for any TA_TPRI buffer with room for two messages, not all of the same size: a more urgent small message queued ahead of a large one is not tried |
| MessageBuffer.RunNotInVain | kernel/messagebuf.c:251-343 | with safe sizes no run leaves a sender waiting whose message fits |
| MessageBuffer.SendersInOrder | kernel/messagebuf.c:251-343 | in every run, priority changes included, a TA_TPRI queue of waiting tasks is in order of priority |
| MessageBuffer.MessageBuffer.ChangePriority | kernel/wait.h:257-263 | refines the specified change of place |
| MessageBuffer.MessageBuffer.MessagebufSignal | kernel/messagebuf.c:285-300 | the loop refines the specified signalling |
| MessageBuffer.MessageBuffer.SndMbf | kernel/messagebuf.c:251-480 | refines the specified sending: same state, same answer |
| MessageBuffer.MessageBuffer.RcvMbf | kernel/messagebuf.c:310-619 | refines the specified receiving |
| MessageBuffer.MessageBuffer.EndSenderWait | kernel/messagebuf.c:340-343 | a sender that stops waiting lets later ones in |
| MessageBuffer.MessageBuffer.IniMbf | kernel/messagebuf.c:629-656 | empties area and queues |
| DataQueue.StepConsistent | kernel/dataqueue.c:228-301 | waiting senders mean a full queue, waiting receivers an empty one without senders, after every call |
| DataQueue.FifoStep | kernel/dataqueue.c:228-301 | one call appends, removes at the front, takes back one waiting word; a forced sending to a full queue drops the oldest stored word and comes behind the stored ones, before the waiting ones |
| DataQueue.FifoRun | kernel/dataqueue.c:228-301 | in every run of a TA_TFIFO queue, received then stored then waiting data are the accepted ones in order |
| DataQueue.SendersInOrder | kernel/dataqueue.c:228-301 | in every run, priority changes included, a TA_TPRI queue of waiting tasks is in order of priority |
| DataQueue.DataQueue.ChangePriority | kernel/wait.h:257-263 | refines the specified change of place |
| DataQueue.DataQueue.EnqueueData | kernel/dataqueue.c:169-177 | appends to the ring |
| DataQueue.DataQueue.ForceEnqueueData | kernel/dataqueue.c:187-200 | appends, dropping exactly the oldest word of a full ring |
| DataQueue.DataQueue.DequeueData | kernel/dataqueue.c:210-218 | removes the oldest word |
| DataQueue.DataQueue.SndDtq | kernel/dataqueue.c:228-435 | refines the specified sending |
| DataQueue.DataQueue.FsndDtq | kernel/dataqueue.c:445-473 | refines the specified forced sending |
| DataQueue.DataQueue.RcvDtq | kernel/dataqueue.c:277-613 | refines the specified receiving |
| PriDataQueue.InsertIsStable | kernel/pridataq.c:179-189 | inserting before the first datum of a lower priority is what sorting stably after one more arrival comes to |
| PriDataQueue.HeadIsOldestBest | kernel/pridataq.c:200-213 | the head of the list is the oldest datum of the best priority |
| PriDataQueue.ArrivalStep | kernel/pridataq.c:223-278 | one call keeps the stored data the stable sort of the arrivals and receives the oldest datum of the best priority |
| PriDataQueue.StableRun | kernel/pridataq.c:223-278 | in every run the stored data are the stable sort of what arrived and was not received; queue lengths are consistent |
| PriDataQueue.SendersInOrder | kernel/pridataq.c:223-278 | in every run, priority changes included, a TA_TPRI queue of waiting tasks is in order of priority |
| PriDataQueue.PriDataQueue.ChangePriority | kernel/wait.h:257-263 | refines the specified change of place |
| PriDataQueue.ThreadIn | kernel/pridataq.c:179-189 | writing two links threads a node into the list at its place |
| PriDataQueue.PriDataQueue.TakeNode | kernel/pridataq.c:163-176 | takes a free or unused node, which is in neither list |
| PriDataQueue.PriDataQueue.FindPlace | kernel/pridataq.c:181-187 | finds the place in front of the first lower priority |
| PriDataQueue.PriDataQueue.EnqueuePridata | kernel/pridataq.c:163-190 | inserts the datum; used and free nodes still divide the nodes |
| PriDataQueue.PriDataQueue.DequeuePridata | kernel/pridataq.c:200-213 | removes the first datum and frees its node |
| PriDataQueue.PriDataQueue.SndPdq | kernel/pridataq.c:223-417 | refines the specified sending |
| PriDataQueue.PriDataQueue.RcvPdq | kernel/pridataq.c:251-562 | refines the specified receiving |
| FixedPool.StepConsistent | kernel/mempfix.c:151-348 | a call keeps the blocks used so far either on the free list, once, or given out, with tasks waiting only when none is free, iff it is not the locked part of a rel_mpf whose block was released or whose pool was initialised after its checks |
| FixedPool.FreeCountCounts | kernel/mempfix.c:151-167 | fblkcnt counts the blocks nobody has |
| FixedPool.GivenWasFree | kernel/mempfix.c:151-348 | a block given out was nobody's; a block changes hands only when it is released to the first waiter, and then it is the grant that was checked, unless the release was disturbed |
| FixedPool.GetThenRelease | kernel/mempfix.c:151-342 | get, check and release leave the same blocks free |
| FixedPool.PoolRun | kernel/mempfix.c:151-348 | every interleaving of calls with the unlocked checks of rel_mpf keeps the pool in order iff none of its releases was disturbed by another one of the same block or by an initialisation; then the free count is that of the blocks nobody has |
| FixedPool.DisturbedShows | kernel/mempfix.c:325-342 | a disturbed release breaks the pool at once |
| FixedPool.ReleasedTwice | kernel/mempfix.c:317-341 | the run in which two releases of a block pass the check: it is on the free list twice |
| FixedPool.GivenTwice | kernel/mempfix.c:317-336 | the run in which the block is then given to two waiting tasks |
| FixedPool.WaitersInOrder | kernel/mempfix.c:151-348 | in every run, priority changes included, a TA_TPRI queue of waiting tasks is in order of priority |
| FixedPool.FixedPool.ChangePriority | kernel/wait.h:257-263 | refines the specified change of place |
| FixedPool.FixedPool.GetMpfBlock | kernel/mempfix.c:151-167 | takes the specified block and marks it |
| FixedPool.FixedPool.GetMpf | kernel/mempfix.c:177-297 | refines the specified call and returns the block's address |
| FixedPool.FixedPool.CheckMpf | kernel/mempfix.c:317-323 | the checks before the CPU is locked accept exactly the addresses of blocks that are out |
| FixedPool.FixedPool.ReturnMpf | kernel/mempfix.c:325-342 | the locked part refines the specified return and leaves the links in order iff the release was not disturbed |
| FixedPool.FixedPool.RelMpf | kernel/mempfix.c:307-348 | with nothing in between, accepts exactly the addresses of blocks that are out and returns the block |
| FixedPool.FixedPool.AddressDivides | kernel/mempfix.c:194-323 | dividing the offset finds the block again |
| EventFlag.NobodyWaitsForWhatIsSet | kernel/eventflag.c:150-296 | in every run no waiting task's condition is met by the pattern |
| EventFlag.WaitersInOrder | kernel/eventflag.c:171-296 | in every run, priority changes included, a TA_TPRI queue of waiting tasks is in order of priority |
| EventFlag.EventFlag.ChangePriority | kernel/wait.h:257-263 | refines the specified change of place |
| EventFlag.StepNoneMet | kernel/eventflag.c:171-296 | every call keeps that |
| EventFlag.SiftSplits | kernel/eventflag.c:186-200 | every waiter is either released or kept |
| EventFlag.EventFlag.ReleaseMet | kernel/eventflag.c:184-200 | the loop releases, in queue order and with the pattern, all satisfied waiters without TA_CLR, and exactly the first one with it |
| EventFlag.EventFlag.SetFlg | kernel/eventflag.c:171-215 | refines the specified call, whose bits `FlagBits.SetBits` gives |
| EventFlag.EventFlag.CheckFlgCond | kernel/eventflag.c:150-161 | the AND or OR condition; clears the pattern with TA_CLR |
| EventFlag.EventFlag.WaiFlg | kernel/eventflag.c:254-393 | refines the specified call |
| TimePartition.PartitionRun | kernel/domain.c:303-651 | in every run, as long as and only as long as no chg_som to a mode comes before the boot-time cycle event: a window switch is pending iff a window is set with its timer disabled, pending switches mean dispatching disabled, mode and window determine the scheduling units, the cycle event is registered once iff a mode is active and no cycle switch pending |
| TimePartition.StepOk | kernel/domain.c:303-651 | a call or interrupt keeps that iff it is not such an early chg_som |
| TimePartition.EarlyChange | kernel/domain.c:569-651 | the input on which it fails, if a task gets to call chg_som before the boot-time cycle event comes: the cycle event is in the heap twice, or registered with a cycle switch pending |
| TimePartition.WindowsInOrder | kernel/domain.c:405-494 | between two cycle starts the mode stays and windows of its slice start in table order, each at most once |
| TimePartition.CyclesPeriodic | kernel/domain.c:329-333 | cycles are exactly one system cycle apart however late each starts |
| TimePartition.CycleStartedOk | kernel/domain.c:303-343 | starting a cycle, after an overrun too, restores the invariant |
| TimePartition.TimePartitioning.ScycStart | kernel/domain.c:303-343 | refines the specified start |
| TimePartition.TimePartitioning.ScycSwitch | kernel/domain.c:355-367 | starts the cycle or puts it off |
| TimePartition.TimePartitioning.TwdStart | kernel/domain.c:405-428 | starts the window or the idle window |
| TimePartition.TimePartitioning.TwdSwitch | kernel/domain.c:458-494 | refines the specified switch, of which `WindowProgress.WindowEnds`, `WindowPutOff` and `TooSoon` say what comes of it |
| TimePartition.TimePartitioning.SetDspflg | kernel/domain.c:507-559 | carries out what was put off; nothing is pending afterwards |
| TimePartition.TimePartitioning.ChgSom | kernel/domain.c:569-651 | starts or puts off the first cycle, or only sets the next mode; keeps the invariant iff it does not come too early |
| Serial.TokensConserved | syssvc/serial.c:424-779 | in every interleaving there is exactly one send token and one receive token, no sig_sem overflows, the buffers keep their bounds, and what was written is what was sent followed by what is buffered |
| Serial.ExclusiveRights | syssvc/serial.c:474-610 | at most one task may write, and then there is room; at most one may read, and then there is something to read |
| Serial.StepOk | syssvc/serial.c:424-779 | every step of a task or interrupt keeps that |
| Serial.SignalSndOk | kernel/semaphore.c:154-175 | passing the token on wakes the first waiter or raises the count to one, never beyond |
| Serial.SndInterruptOk | syssvc/serial.c:671-703 | the transmit interrupt frees the token exactly when the buffer stops being full |
| Serial.RcvInterruptOk | syssvc/serial.c:709-779 | the receive interrupt frees each token exactly on its edge |
| Serial.WriteOk | syssvc/serial.c:445-463 | a writer that fills the buffer leaves the token behind |
| Serial.ReadOk | syssvc/serial.c:525-545 | a reader that empties the buffer leaves the token behind, and an echo is another writing |
| Serial.SerialPort.SerialWriChr | syssvc/serial.c:445-463 | sends the character or buffers it, and tells whether the buffer is full now |
| Serial.SerialPort.SerialReaChr | syssvc/serial.c:519-550 | takes the oldest character, sends START when due, and tells whether the buffer is empty now |
| Serial.SerialPort.SioIrdySnd | syssvc/serial.c:671-703 | refines the specified interrupt, for which see `SerialProgress.InterruptSends`; signals exactly when the buffer was full |
| Serial.SerialPort.Resume | syssvc/serial.c:727-742 | the loop sends as many characters as the device takes, in order, and signals once if the buffer was full |
| Serial.SerialPort.SioIrdyRcv | syssvc/serial.c:709-779 | handles STOP, START and data; signals exactly on the edges |
| Serial.CharRing.Put | syssvc/serial.c:457-460 | appends to the ring |
| Serial.CharRing.Take | syssvc/serial.c:528-530 | removes the oldest character |
| Queue.InsertPrev | include/queue.h:90-96 | the ring gets the entry in front of the given one |
| Queue.InsertNext | include/queue.h:105-111 | the ring gets the entry behind the given one |
| Queue.Delete | include/queue.h:119-123 | the ring loses just the entry |
| Queue.DeleteNext | include/queue.h:134-143 | returns the first entry and leaves the rest |
| Queue.Empty | include/queue.h:151-158 | tells whether the queue is empty |
| Queue.Append | include/queue.h:90-96 | inserting in front of the header appends |
| WaitQueue.PlaceOf | kernel/wait.h:62-74 | the place before the first waiter of a lower priority, behind its equals |
| WaitQueue.StaysByPriority | kernel/wait.c:172-180 | entering and leaving keep the order of priorities |
| WaitQueue.ReorderedByPriority | kernel/wait.h:257-263 | so does a change of a waiting task's priority |
| WaitQueue.ReorderedFrom | kernel/wait.h:257-263 | which makes nobody come or go and leaves everybody what he carries |
| KernelFairness.CallFair | kernel/wait.c:56-227 | whatever is called but rot_rdq: of the tasks it is not about, some waits may end, with the call's result, and nothing else changes; and of those it does not move nobody overtakes another in any queue, and who becomes runnable comes behind who was |
| KernelFairness.RotateTurns | kernel/task.c:403-418 | each task of a level gets its turn by rotation, and after as many rotations as there are tasks all are back |
| KernelFairness.RunsFirst | kernel/task.c:219-234 | in every reachable state with dispatching enabled the running task is the first of its ready queue: among equals whoever came first runs first |
| KernelPlaces.RotatesOnce | kernel/sys_manage.c:197-291 | rot_rdq puts the first of the level behind all others of it and moves nothing else |
| KernelPlaces.BlockedPlace | kernel/wait.c:172-207 | a call that blocks on an object puts its caller last in the queue, or in order of priority behind its equals |
| KernelPlaces.WakesJust | kernel/wait.c:101-106 | serving a waiting task ends just its wait and takes just this task out of the queue |
| KernelPlaces.ChgPriBehind | kernel/task_manage.c:250-297 | chg_pri puts a runnable task behind all others of its new priority, unless a ceiling it holds decides |
| KernelPlaces.UnlockInFront | kernel/mutex.c:237-248 | if unl_mtx lowers the caller's priority, the caller stands first among its new equals |
| KernelAnswers.CallAnswered | kernel/task_sync.c:125-486 | whatever is called, an error leaves the kernel as it was, and any other answer says what has happened to the task the call is about: no more and no less |
| KernelAnswers.ErrorChangesNothing | kernel/task_manage.c:109-297 | a call that fails changes nothing; which calls may block and which may not come back |
| KernelAnswers.FailsExactly | kernel/task_sync.c:125-486 | a call fails iff there is a reason to refuse it, with the error that belongs to the reason; a ceiling is told from the mutexes held or waited for, not from the checks |
| KernelAnswers.EndedRecord | kernel/task.c:428-445 | a task that ends is reset, and started again iff an activation was queued |
| KernelCounts.SemConserved | kernel/semaphore.c:142-334 | in every run, from the start or an ini_sem up to the next: count + wai_sem answered E_OK + waiters woken by sig_sem = initial count + sig_sem answered E_OK |
| KernelCounts.SemStep | kernel/semaphore.c:142-334 | how one call, whichever, changes the count of a semaphore, told from its answer and from whose waits end |
| KernelCounts.SigSemAnswers | kernel/semaphore.c:142-180 | sig_sem answers E_QOVR iff nobody waits and the count is maxsem; otherwise it wakes the first waiter and nobody else, or counts one up; no other semaphore's count changes |
| KernelCounts.WaiSemAnswers | kernel/semaphore.c:190-301 | the caller gets a unit iff there is one, and otherwise waits unless it only polls; no other semaphore's count changes |
| KernelCounts.IniSemAnswers | kernel/semaphore.c:311-334 | the count is the initial one and everybody who waited is released |
| KernelCounts.InitReleases | kernel/wait.c:217-227 | ini_mtx, ini_sem and the like release with E_DLT everybody who waits, and nobody else |
| KernelCounts.ActivationsConserved | kernel/task_manage.c:109-184 | in every run each act_tsk answered E_OK has started the task, was cancelled by can_act, or is queued: none is lost, none made up |
| KernelCounts.WakeupsConserved | kernel/task_sync.c:125-287 | in every run each wup_tsk answered E_OK has ended a sleep or spared one, was cancelled by can_wup or the end of the task, or is queued |
| KernelCounts.BalanceStep | kernel/task_sync.c:125-287 | the same for one call, whichever |
| KernelCounts.AlwaysTidy | kernel/task.c:284-295 | in every run nobody sleeps while a wake-up is queued for him, and a dormant task has nothing queued, requested or disabled |
| KernelCounts.LifeCycle | kernel/task_sync.c:125-486 | whatever is called, every task goes from its state where, and only where, the call and its answer say, and a wait that is over has the result of what ended it |
| KernelOwners.CallHeld | kernel/mutex.c:258-563 | whatever is called, each mutex afterwards belongs to whom the answer says, and each chain ends, loses its last mutex or the one initialised, or gets longer at its end |
| KernelOwners.HeldByTime | kernel/mutex.c:258-303 | in every run a task holds its mutexes in the order in which it came to own them |
| KernelOwners.UnlockLatest | kernel/mutex.c:488-517 | in every run unl_mtx succeeds iff the caller owns the mutex and came to own no other one later |
| KernelOwners.TerminationOwners | kernel/mutex.c:313-321 | a task that ends gives each of its mutexes to the first waiter or to nobody, and no other mutex changes hands |
| Turns.ServedInTurn | kernel/wait.c:172-180 | in every run of a queue served from the front, those served so far and then those still waiting are all who came and did not leave unserved, in their order |
| Turns.DulyServed | kernel/wait.c:172-180 | the same for two queues of one object, and exactly those served have been woken |
| DataQueue.TurnStep | kernel/dataqueue.c:228-301 | a datum goes to the receiver who has waited longest, whose wait ends; when one is received, the first sender's wait ends; nobody else's does |
| DataQueue.InTurn | kernel/dataqueue.c:228-301 | in every run receivers and senders are served in turn and exactly those served are woken |
| PriDataQueue.TurnStep | kernel/pridataq.c:223-278 | the same for priority data queues |
| PriDataQueue.InTurn | kernel/pridataq.c:223-278 | in every run receivers and senders are served in turn and exactly those served are woken |
| PriDataQueue.StepInRange | kernel/pridataq.c:288-330 | a datum is refused iff its priority is out of range, and none out of range gets in |
| PriDataQueue.RunInRange | kernel/pridataq.c:288-330 | so in every run |
| MessageBuffer.TurnStep | kernel/messagebuf.c:251-343 | a message goes to the receiver who has waited longest; senders go on from the first; nobody else's wait ends |
| MessageBuffer.InTurn | kernel/messagebuf.c:251-343 | in every run receivers and senders are served in turn and exactly those served are woken |
| MessageBuffer.SignalWakes | kernel/messagebuf.c:285-300 | signalling wakes exactly those whose messages it stores |
| FixedPool.TurnStep | kernel/mempfix.c:177-342 | a block that is returned goes to the first waiting task, whose wait ends |
| FixedPool.InTurn | kernel/mempfix.c:177-342 | in every run the waiting tasks are served in turn and exactly those served are woken |
| FlagBits.MetBitwise | kernel/eventflag.c:150-161 | TWF_ANDW: every bit waited for is set; TWF_ORW: some bit is |
| FlagBits.SetBits | kernel/eventflag.c:171-215 | bit by bit, set_flg adds the bits to the pattern; with TA_CLR, if that satisfies anybody, no bit is left |
| FlagBits.ClearBits | kernel/eventflag.c:225-244 | clr_flg leaves the bits that are in both |
| FlagBits.WaitBits | kernel/eventflag.c:254-393 | wai_flg and pol_flg answer with the pattern iff the condition holds bit by bit; otherwise the task waits or is refused and the pattern stays |
| FlagBits.SetReleases | kernel/eventflag.c:184-200 | without TA_CLR exactly the tasks whose condition holds are released, in queue order, each with the new pattern |
| FlagBits.SetReleasesOne | kernel/eventflag.c:184-200 | with TA_CLR just the first such task is released, and takes the pattern with it |
| FlagBits.BitsOfRun | kernel/eventflag.c:171-423 | in every run of a flag without TA_CLR a bit is set iff the last call that names it set it |
| FlagBits.OnlySetServes | kernel/eventflag.c:225-423 | the other calls end no wait by serving it; they let tasks come, go and change places |
| WindowProgress.WindowEnds | kernel/domain.c:458-494 | with dispatching enabled the next window, or the idle window, starts when the time is used up, with its whole length on the running timer |
| WindowProgress.WindowPutOff | kernel/domain.c:458-494 | with dispatching disabled the switch is put off and nothing starts |
| WindowProgress.TooSoon | kernel/domain.c:458-494 | an interrupt that comes while time is left changes neither window nor log |
| WindowProgress.ComesLater | kernel/domain.c:507-559 | what was put off comes when dispatching is enabled: a cycle if one is due, or else the window after the one that is over |
| WindowProgress.CycleComes | kernel/domain.c:303-367 | the cycle event starts a cycle in the mode asked for, or makes one pending |
| WindowProgress.ChangeAsked | kernel/domain.c:569-651 | chg_som says which mode comes next; from no mode the first cycle starts at once or becomes pending |
| WindowProgress.WindowsOver | kernel/domain.c:405-494 | in every run, as long as no new cycle starts, as many windows are over as have used up their time |
| WindowProgress.TimeKept | kernel/domain.c:229-494 | in every run what a window has used up and what is left make up its length |
| WindowProgress.ModesAsked | kernel/domain.c:303-651 | in every run each cycle is in the mode that the last chg_som, or else the table entry of the last mode, asked for |
| TimeEvents.CyclicStays | kernel/cyclic.c:244-268 | through signal_time, whatever else is called, a cyclic event stays registered, as many periods after its old time as it was called |
| TimeEvents.TimerModule.CallBack | kernel/time_event.c:626-646 | an event's callback: the handler is called, a cyclic event is entered again one period after the time it was due, then come the happenings its requests ask for, and nothing else |
| SystemClock.TimeKept | kernel/time_manage.c:149-190 | in every run the clock is as much further as time has passed and as adj_tim corrected it |
| SystemClock.TimePasses | kernel/time_manage.c:121-139 | while nobody sets or corrects the time, what get_tim returns grows by the time that passes, less what the clock is behind its furthest point |
| SerialProgress.InterruptSends | syssvc/serial.c:671-703 | a transmit interrupt sends a pending START or STOP alone, or else the next character written unless transmission is stopped |
| SerialProgress.InterruptFrees | syssvc/serial.c:683-695 | it frees the send token iff the buffer was full and is not any more |
| SerialProgress.Drains | syssvc/serial.c:671-703 | k interrupts in a row send the next min(k, buffered) characters written |
| SerialProgress.PutWrites | syssvc/serial.c:445-463 | a character is written behind all others, and goes to the device at once iff nothing is before it, transmission is not stopped and the device takes it |
| SerialProgress.Receives | syssvc/serial.c:709-779 | STOP and START control transmission, if they are to; any other character is stored if there is room and lost if not |
| SerialProgress.Reads | syssvc/serial.c:519-550 | a reader takes the oldest character |
| SerialProgress.StopsAndStarts | syssvc/serial.c:533-779 | the receiver stops the other side when the buffer is three quarters full, and lets it go on when a reader has left it half full, and at no other time |
| SerialProgress.FlowControl | syssvc/serial.c:533-779 | in every run the last START or STOP says whether the receiver wants the other side to stop, as long as and only as long as none is overtaken: taken directly by the device while an earlier one still waits to go out |
| SerialProgress.TextsWritten | syssvc/serial.c:424-510 | in every run each task has written its texts and echoes, CR in front of LF as asked for, in order and up to what is left |
| SerialProgress.ExpandPlain | syssvc/serial.c:474-510 | without CR/LF conversion nothing changes |
| SerialProgress.ExpandUndone | syssvc/serial.c:474-510 | the conversion can be undone |
| SerialProgress.CrBeforeLf | syssvc/serial.c:474-510 | no LF goes out without a CR in front of it |
| SerialProgress.ReadStep1 | syssvc/serial.c:519-610 | a step reads the next character received for one task, or none |

## Left out

- Hardware and assembly: `dispatch` is "run the chosen task"; interrupt masks, memory protection, timer and serial registers are not part of this model.
- Context, identifier, access-right and memory checks of service calls (`CHECK_TSKCTX_UNL`, `CHECK_ID`, `CHECK_ACPTN`, `CHECK_MACV_*`), and the reference calls: single branches that change nothing.
- Parameter checks made before the CPU is locked belong to the atomic step here, except those of `rel_mpf`, which are a step of their own; the reads one such check makes are together.
- The resumption of a blocked call, which reads the error code left in `wercd`, is not a step of its own; the code left there is part of the task record.
- In the kernel model, messages, data and patterns are not kept: waiting for and waking from such an object are the steps `ObjWait`, `ObjWake` and `ObjInit`. `MessageRuns` joins message buffers to the tasks; data queues, priority data queues, memory pools and event flags are not joined to them.
- KernelProofs.WaitDequeueWobjInv: holds for any number of message-buffer senders that go on, not just the one their messages allow, which `MessageTasks.DequeueTied` gives.
- KernelObject.Kernel.WaitDequeueWobj: takes this number as an argument, since the class does not have the messages; `MessageTasks.DequeueTied` gives it.
- KernelObject.Kernel.RelWai: takes this number as an argument; `MessageTasks.RelWaiTied` gives it.
- KernelObject.Kernel.RasTer: takes this number as an argument; `MessageTasks.RasTerTied` gives it.
- KernelObject.Kernel.TerTsk: takes this number as an argument; `MessageTasks.TerTskTied` gives it.
- KernelObject.Kernel.Timeout: takes this number as an argument; `MessageTasks.TimeoutTied` gives it.
- `pol_sem`, which neither blocks nor checks for a termination request.
- KernelObject.Kernel.ExtTsk: takes the units that a switch put off selects as arguments; `KernelWindows.MoveAgrees` has them from the windows.
- KernelObject.Kernel.EnaDsp: takes these units as arguments too, and leaves out the branch with a closed interrupt mask, which only sets a flag; chg_ipm to an open mask does what ena_dsp does, and is not a step of its own.
- KernelObject.Kernel.SwitchWindow: is what the start of a cycle or window leaves to the scheduler, with the units as arguments; `KernelWindows.MoveAgrees` has them from the windows, `TimePartition` the start itself.
- KernelTimeouts.TimedKernel.Perform: brings the heap in line at the end of the call, while the code does it where the waits end and begin, with the CPU locked in between; the blocks are those of one heap.
- The several event heaps of user domains share one boundary; `TimeEvents.WraparoundOrder` covers the events of all of them, the class one heap.
- 64-bit high-resolution counters (`USE_64BIT_HRTCNT`) and systems without a 64-bit type.
- `tmevtb_enqueue` outside the timer interrupt, which sets the timer without reading the counter.
- Callbacks that adjust the clock while the timer interrupt is handled.
- MessageBuffer.FifoRun: speaks of TA_TFIFO buffers, because a TA_TPRI queue of senders is no FIFO by design.
- DataQueue.FifoRun: speaks of TA_TFIFO queues, for the same reason.
- MessageRing.Ring.EnqueueMessage: speaks of messages of at most 2^32 - 8 bytes, because beyond that the size computation wraps around; the length word is taken to be stored low byte first.
- TimePartition.TimePartitioning.TwdStart: leaves out the processing of the domain's own time events at the start of its window, and the handler called there with the CPU unlocked.
- TimePartition.TimePartitioning.ScycStart: reduces the exception handler for an overrun to an entry in the log.
- Systems without time partitioning, where `chg_som` only returns an error.
- In the serial model: forced release or termination of a task in mid-transfer, closing a port during transfers, the drain at shutdown; the loops of `_serial_wri_dat` and `_serial_rea_dat` appear as the steps between their semaphore calls, with the CR before each LF put in at the start of a transfer.
- Interrupt, exception and overrun handlers, domains' memory management, cyclic and alarm handlers' user code, the TECS versions of the drivers, the configurator and the extension packages.
