# blk-switch and Caladan, modelled in Dafny

Models of the parts of blk-switch and of its Caladan artifact that keep state under concurrency or in
place, and proofs of what they keep.  `dafny verify dfyconfig.toml` checks the project.

Protocols between parties that interleave are transition systems with one step per access that another
party can see (`RunQueue`, `Rcu`, `Handshake`) or per operation under a lock (`RwMutex`, `Tcache`,
`Scheduler`, `SimplePolicy`, `TimerSystem`); their results speak of every run.  Code that works in place is
a class.  Its fields are those of the code: arrays with remembered positions (`SchedulerCode`, `Timer`),
links stored in the items themselves (`Tcache`), counters whose meaning is who holds a lock (`RwMutex`),
rings and fixed arrays (`RunQueue`, `Caravan`, `Slab`), buffers that are filled chunk by chunk (`Receiver`).
Its methods are proved to make exactly the transitions of a specification on what the fields stand for, or
to have the effect they state outright (`Timer`, `RwMutex`, `Dispatch`, `Flows`, `Steering`, `Jenkins`).

| module | part of the system |
|---|---|
| `Prelude` | options, lists without repetition, counting, bits |
| `RunQueue` | a kthread's ring of 32 runnable uthreads, its overflow list, and work stealing |
| `Rcu` | grace periods from per-kthread generation counters |
| `Handshake` | run requests between the IOKernel and the kernel module, through shared memory |
| `SwapArray`, `Flows` | arrays with exact positions; the flow table of a process |
| `Scheduler`, `SchedulerCode` | which kthread is on which core |
| `SimplePolicy`, `PolicyLimits`, `PolicyCode` | the simple policy: which process owns which core, preemption, congestion, limits |
| `Timer`, `TimerSystem` | per-kthread timer heaps; all of them over whole runs |
| `RwMutex` | the reader/writer lock with hand-over |
| `Slab`, `Tcache` | slab pages; magazine caches |
| `Receiver`, `Caravan` | the i10 NVMe/TCP host: PDU receiver; PDU aggregation |
| `Dispatch`, `Steering` | the blk-mq dispatch loop; blk-switch request steering |
| `Jenkins` | the lookup3 hash and its three ways of reading a key |

What the models bring to light about the code.  Where it falls short of what it is for, there is a run that
shows it and the exact condition:

- A timer that fires stays armed.  Cancelling it then returns true and takes another timer out of the heap
  (`TimerSystem.CancelLosesAnother`, `TimerSystem.HoldsIff`); and it cannot be started again before it is
  initialised again.
- A task that is signalled while it parks parks again.  If by then another task is on record for the core, it
  goes on running unrecorded, and the interrupt that is to stop it goes to the other
  (`Handshake.ParkingTwiceMisdirects`, `Handshake.RunsNewestRequest`, `Handshake.InterruptsHitTheirTask`).
- The kernel module reports a parking core as not busy before it lets go of the task, so for that moment a
  core declared idle still has one on record (`Handshake.IdleWithTask`, `Handshake.IdleMeansNoTask`).
- An R2T for a request that is no write is accepted, and if its PDU takes more than one piece, only the first is
  sent (`Caravan.ReadIsCutShort`, `Caravan.StreamPreserved`).
- An R2T of length 0 is accepted, and the PDU sent for it is never done: the queue stays with it for good
  (`Caravan.SomeR2tHalts`, `Caravan.EmptyR2tHalts`, `Caravan.EmptyR2tStalls`); in all other cases every call of
  the sender makes progress (`Caravan.Progress`).
- The simple policy checks threads_max when a process asks for a core, but not when an idle core is given to a
  waiting process (`PolicyLimits.ExceedsMax`, `PolicyLimits.MaxInRuns`).
- Slab pages on the full list can have up to three free items, so an allocation can fail while items are free
  (`Slab.FailsWithFreeItem`, `Slab.AllocOk`).
- The WARN in simple_sched_poll cannot be reached (`SimplePolicy.AtIdleOk`).

## Model

| member | source | states |
|---|---|---|
| `RunQueue.SlotIsModulo` | osdi21_artifact/caladan/caladan-code/runtime/sched.c:146 | the unrolled slot function of the model is the index modulo 32 |
| `RunQueue.DrainAll` | osdi21_artifact/caladan/caladan-code/runtime/sched.c:136-148 | drain_overflow ends with an empty overflow list or a full ring, and moves exactly as many threads as the ring grows by |
| `RunQueue.DrainConserves` | osdi21_artifact/caladan/caladan-code/runtime/sched.c:136-148 | draining the overflow list keeps how often every thread is queued |
| `RunQueue.WriteKeepsUnread` | osdi21_artifact/caladan/caladan-code/runtime/sched.c:506 | writing the slot past the unread ones of a ring that is not full changes none of them |
| `RunQueue.CopySlotStep` | osdi21_artifact/caladan/caladan-code/runtime/sched.c:176-179 | one copied slot, into the thief's ring or onto its overflow list, keeps the invariant while the victim's owner may push |
| `RunQueue.PublishVictimTailStep` | osdi21_artifact/caladan/caladan-code/runtime/sched.c:180-181 | publishing the victim's tail hands the copied threads over: none is lost and none counted twice |
| `RunQueue.TakeOverflowStep` | osdi21_artifact/caladan/caladan-code/runtime/sched.c:190-216 | stealing one overflow thread keeps the invariant |
| `RunQueue.StepKeepsInv` | osdi21_artifact/caladan/caladan-code/runtime/sched.c:136-216 | every step of every kthread (push, spill, drain, pop, reset, and each access of a steal) keeps the global invariant |
| `RunQueue.RunKeepsInv` | osdi21_artifact/caladan/caladan-code/runtime/sched.c:481-509 | the invariant holds in every state of every interleaved run of any number of kthreads |
| `RunQueue.QueuesAreExact` | osdi21_artifact/caladan/caladan-code/runtime/sched.c:136-216 | in every run no ring holds more than 32 threads, and whenever nothing is mid-flight every runnable thread is queued exactly once, nothing else is queued, and q_ptrs head minus tail is ring occupancy plus overflow length |
| `RunQueue.UnreadSlotsSurvive` | osdi21_artifact/caladan/caladan-code/runtime/sched.c:494-507 | in every run, an owner's unlocked slot write leaves every unread slot of its ring alone, whatever thieves do |
| `RunQueue.WrapAround` | osdi21_artifact/caladan/caladan-code/runtime/sched.c:142-146 | with 32-bit indices, slot and occupancy are those of the unbounded ones |
| `RunQueue.CopyEnds` | osdi21_artifact/caladan/caladan-code/runtime/sched.c:168-188 | a finished steal leaves the two queues together with what they held before |
| `RunQueue.Queue.constructor` | osdi21_artifact/caladan/caladan-code/runtime/sched.c:283-284 | an empty queue in the state the runs start from |
| `RunQueue.Queue.DrainOverflow` | osdi21_artifact/caladan/caladan-code/runtime/sched.c:136-148 | the loop computes DrainAll |
| `RunQueue.Queue.PopHead` | osdi21_artifact/caladan/caladan-code/runtime/sched.c:391-393 | pops the oldest ring entry and counts it for the IOKernel |
| `RunQueue.Queue.CopyHalf` | osdi21_artifact/caladan/caladan-code/runtime/sched.c:173-179 | the two copying loops put the victim's first threads in the free slots and then on the overflow list, in order, and leave both accounts unchanged |
| `RunQueue.Queue.StealRing` | osdi21_artifact/caladan/caladan-code/runtime/sched.c:168-188 | takes half of the victim's ring, rounded up, and conserves the number of times every thread is queued in the two together |
| `Rcu.KthreadStep` | osdi21_artifact/caladan/caladan-code/runtime/sched.c:261-263 | counter switches, read sections and rcu_free keep the invariant |
| `Rcu.CheckStep` | osdi21_artifact/caladan/caladan-code/runtime/rcu.c:67-73 | a re-read counter that is even or has moved proves that no section to wait for is open on that kthread |
| `Rcu.FreeingIsSafe` | osdi21_artifact/caladan/caladan-code/runtime/rcu.c:75-84 | when the worker frees, no section open at a callback's rcu_free is still open |
| `Rcu.StepKeepsInv` | osdi21_artifact/caladan/caladan-code/runtime/rcu.c:39-104 | every step of worker and kthreads keeps the invariant |
| `Rcu.RunKeepsInv` | osdi21_artifact/caladan/caladan-code/runtime/rcu.c:39-104 | the invariant holds in every run |
| `Rcu.GracePeriod` | osdi21_artifact/caladan/caladan-code/runtime/rcu.c:4-11 | if step i queues a callback and step j runs it, no read section open at i is still open at j, for any number of kthreads and any schedule |
| `Rcu.CallbacksRunOnce` | osdi21_artifact/caladan/caladan-code/runtime/rcu.c:79-104 | every callback ever queued is in exactly one of: run, held by the worker, waiting; none is run twice |
| `Handshake.StepKeepsInv` | osdi21_artifact/caladan/caladan-code/ksched/ksched.c:166-297 | every step of the IOKernel and of the core, including a park by any task, keeps the invariant |
| `Handshake.RunKeepsInv` | osdi21_artifact/caladan/caladan-code/iokernel/ksched.h:58-86 | the invariant holds in every interleaving |
| `Handshake.OneOutstanding` | osdi21_artifact/caladan/caladan-code/iokernel/ksched.h:58-75 | at most one run request per core is unacknowledged |
| `Handshake.ConsumesInOrder` | osdi21_artifact/caladan/caladan-code/ksched/ksched.c:199-256 | the core consumes every generation once, in order, with exactly the tid posted for it |
| `Handshake.IdleMeansNoTask` | osdi21_artifact/caladan/caladan-code/iokernel/sched.c:436-448 | a core declared idle has no running thread; only between the two writes of a park under way has the kernel not let go of it yet; and no request is outstanding or pending |
| `Handshake.IdleWithTask` | osdi21_artifact/caladan/caladan-code/ksched/ksched.c:230-236 | a run in which a core declared idle still has a task on record: the IOKernel polls between the two writes of a park |
| `Handshake.StraysAreSteps` | osdi21_artifact/caladan/caladan-code/ksched/ksched.c:243-250 | the stray generations of a run are exactly those consumed by a task that parks while another one is on record |
| `Handshake.RunsNewestRequest` | osdi21_artifact/caladan/caladan-code/ksched/ksched.c:239-256 | between switches the core reports itself busy, and the task on record is that of the newest acknowledged request if and only if that request was not consumed by a task that parked while another was on record |
| `Handshake.InterruptsHitTheirTask` | osdi21_artifact/caladan/caladan-code/iokernel/ksched.h:108-130 | an interrupt enqueued for one generation is delivered to that generation's task if and only if the generation was not consumed that way |
| `Handshake.NoStrays` | osdi21_artifact/caladan/caladan-code/runtime/kthread.c:92-106 | in a run in which every task that parks and is woken is the one on record, or none is, both hold throughout |
| `Handshake.ParkingTwiceMisdirects` | osdi21_artifact/caladan/caladan-code/runtime/kthread.c:100-106 | a run in which a task parks twice: the newest request is for task 1, task 2 is on record, and the interrupt for generation 3 goes to task 2 instead of task 1 |
| `Flows.Target` | osdi21_artifact/caladan/caladan-code/iokernel/sched.c:79-91 | a flow index goes to an active kthread, and to the kthread of the same index if that is active |
| `Flows.SteerFlows` | osdi21_artifact/caladan/caladan-code/iokernel/sched.c:67-92 | the three loops fill the table with Target below thread_count and UINT_MAX above, and do nothing if no kthread is active |
| `Flows.TurnsAreEven` | osdi21_artifact/caladan/caladan-code/iokernel/sched.c:85-91 | dealing r turns round gives every place r divided by a, plus one for the first r mod a |
| `Flows.LoadIsTurns` | osdi21_artifact/caladan/caladan-code/iokernel/sched.c:79-91 | a kthread's entries are its own index and its turns |
| `Flows.Balanced` | osdi21_artifact/caladan/caladan-code/iokernel/sched.c:67-92 | each active kthread keeps its own index and the numbers of entries of any two differ by at most one |
| `SwapArray.SwapArray.Add` | osdi21_artifact/caladan/caladan-code/iokernel/defs.h:185-192 | adding at the end keeps positions exact and adds exactly that member |
| `SwapArray.SwapArray.Remove` | osdi21_artifact/caladan/caladan-code/iokernel/defs.h:198-206 | moving the last member into the gap keeps positions exact and removes exactly that member |
| `Scheduler.EnableInOk` | osdi21_artifact/caladan/caladan-code/iokernel/sched.c:94-105 | enabling a kthread keeps the split into active array and idle list, positions and flow table exact |
| `Scheduler.DisableInOk` | osdi21_artifact/caladan/caladan-code/iokernel/sched.c:107-119 | disabling one does too |
| `Scheduler.FirstOn` | osdi21_artifact/caladan/caladan-code/iokernel/sched.c:127-137 | finds the first idle kthread that last ran on a core, or shows there is none |
| `Scheduler.Pick` | osdi21_artifact/caladan/caladan-code/iokernel/sched.c:121-141 | picks an idle kthread: one that last ran on this core if there is any, else one that last ran on the sibling, else the one idle longest |
| `Scheduler.RunOnCore` | osdi21_artifact/caladan/caladan-code/iokernel/sched.c:181-202 | fails exactly if the process has no idle kthread or the core is not allowed |
| `Scheduler.Replace` | osdi21_artifact/caladan/caladan-code/iokernel/sched.c:143-170 | exchanging the kthread on a core keeps both tables consistent with each other |
| `Scheduler.SchedRunOk` | osdi21_artifact/caladan/caladan-code/iokernel/sched.c:143-170 | __sched_run keeps the invariant, with a request in flight or not |
| `Scheduler.RunOnCoreOk` | osdi21_artifact/caladan/caladan-code/iokernel/sched.c:181-202 | sched_run_on_core keeps the invariant |
| `Scheduler.RunOnCoreEffect` | osdi21_artifact/caladan/caladan-code/iokernel/sched.c:181-202 | it makes a kthread of the process the latest on that core and changes no other core |
| `Scheduler.IdleOnCoreOk` | osdi21_artifact/caladan/caladan-code/iokernel/sched.c:213-228 | sched_idle_on_core keeps the invariant |
| `Scheduler.FinishSwitchOk` | osdi21_artifact/caladan/caladan-code/iokernel/sched.c:417-434 | handling an acknowledgement, with or without a pending request, keeps the invariant |
| `Scheduler.CheckIdleOk` | osdi21_artifact/caladan/caladan-code/iokernel/sched.c:436-448 | handling a core that went idle, with or without fast rewake, keeps the invariant |
| `Scheduler.PollCoreEffect` | osdi21_artifact/caladan/caladan-code/iokernel/sched.c:413-449 | polling a core changes what was last requested on it only if it is reported idle, and no other core |
| `Scheduler.AttachProcOk` | osdi21_artifact/caladan/caladan-code/iokernel/sched.c:476-489 | attaching a process keeps the invariant |
| `Scheduler.UnpollOk` | osdi21_artifact/caladan/caladan-code/iokernel/defs.h:198-206 | unpolling an inactive kthread keeps the invariant |
| `Scheduler.Available` | osdi21_artifact/caladan/caladan-code/iokernel/sched.c:94-119 | active and idle kthreads of a process add up to its kthreads |
| `Scheduler.DoKeepsInv` | osdi21_artifact/caladan/caladan-code/iokernel/sched.c:67-228 | every scheduler operation keeps the invariant, whatever the policy asks for and the kernel answers |
| `Scheduler.RunKeepsInv` | osdi21_artifact/caladan/caladan-code/iokernel/sched.c:67-228 | the invariant holds in every run |
| `Scheduler.ActiveIsPlaced` | osdi21_artifact/caladan/caladan-code/iokernel/sched.c:94-202 | in every run a kthread is active if and only if it is cur_th or pending_th of some core, then only of the core it names, and active kthreads are polled |
| `Scheduler.IdleIsEmpty` | osdi21_artifact/caladan/caladan-code/iokernel/sched.c:413-449 | in every run an idle core has no kthread, no wait and no pending, and a kthread is never both current and pending on a core |
| `Scheduler.ThreadsAreSplit` | osdi21_artifact/caladan/caladan-code/iokernel/sched.c:94-119 | in every run active_threads (with exact at_idx) and idle_threads partition the kthreads of every process, and while any is active every flow entry names an active kthread, the one the steering gives it |
| `Scheduler.FlowsAreBalanced` | osdi21_artifact/caladan/caladan-code/iokernel/sched.c:67-92 | in every run each active kthread has its own flow entry, and the numbers of entries of any two differ by at most one |
| `SchedulerCode.AddedPositions` | osdi21_artifact/caladan/caladan-code/iokernel/sched.c:101-102 | writing at_idx of one more kthread gives exactly the positions of the array with it |
| `SchedulerCode.RemovedPositions` | osdi21_artifact/caladan/caladan-code/iokernel/sched.c:112-114 | writing at_idx of the kthread moved into the gap gives exactly the positions of the array without the other, whatever at_idx that one keeps |
| `SchedulerCode.ProcTable.constructor` | osdi21_artifact/caladan/caladan-code/iokernel/sched.c:476-489 | the loop makes a process with all kthreads idle, in order, and none active |
| `SchedulerCode.ProcTable.SteerAll` | osdi21_artifact/caladan/caladan-code/iokernel/sched.c:67-92 | the flow table array becomes the steering of the active kthreads, and stays if there are none |
| `SchedulerCode.ProcTable.AddActive` | osdi21_artifact/caladan/caladan-code/iokernel/sched.c:101-102 | appends to active_threads and remembers the position: the arrays stand for the array with that kthread |
| `SchedulerCode.ProcTable.RemoveActive` | osdi21_artifact/caladan/caladan-code/iokernel/sched.c:111-114 | moves the last active kthread into the place found by at_idx: the arrays stand for the array without that kthread, at_idx left stale |
| `SchedulerCode.ProcTable.Enable` | osdi21_artifact/caladan/caladan-code/iokernel/sched.c:94-103 | on arrays, list and flow table together, exactly EnableIn of what they stand for; and they stay in order |
| `SchedulerCode.ProcTable.Disable` | osdi21_artifact/caladan/caladan-code/iokernel/sched.c:107-116 | likewise DisableIn |
| `SchedulerCode.ProcTable.FindOn` | osdi21_artifact/caladan/caladan-code/iokernel/sched.c:127-137 | the list walk finds the first idle kthread that last ran on the core |
| `SchedulerCode.ProcTable.PickKthread` | osdi21_artifact/caladan/caladan-code/iokernel/sched.c:121-141 | the walks find the kthread that Pick says |
| `SchedulerCode.CoreScheduler.OneTable` | osdi21_artifact/caladan/caladan-code/iokernel/sched.c:94-119 | changing the arrays of one process changes what the tables stand for at that process only |
| `SchedulerCode.CoreScheduler.AttachTable` | osdi21_artifact/caladan/caladan-code/iokernel/sched.c:476-489 | a new process has tables of its own, in common with none other |
| `SchedulerCode.CoreScheduler.RunKthreadOn` | osdi21_artifact/caladan/caladan-code/iokernel/sched.c:181-202 | makes exactly the transition RunOnCore on what the arrays stand for, and reports its failure with nothing changed |
| `SchedulerCode.CoreScheduler.PollOne` | osdi21_artifact/caladan/caladan-code/iokernel/sched.c:413-449 | makes exactly the transition PollCore on what the arrays stand for |
| `SimplePolicy.CleanupOk` | osdi21_artifact/caladan/caladan-code/iokernel/simple.c:52-66 | taking a core from its owner keeps counts, history and lists exact and frees that core only |
| `SimplePolicy.MarkOk` | osdi21_artifact/caladan/caladan-code/iokernel/simple.c:68-74 | marking a process keeps the waiting list exactly the congested processes, each once |
| `SimplePolicy.UnmarkOk` | osdi21_artifact/caladan/caladan-code/iokernel/simple.c:76-82 | unmarking a process keeps it so too, and changes no owner |
| `SimplePolicy.AttachPolOk` | osdi21_artifact/caladan/caladan-code/iokernel/simple.c:84-103 | attaching a process keeps the policy in order |
| `SimplePolicy.DetachPolOk` | osdi21_artifact/caladan/caladan-code/iokernel/simple.c:105-122 | detaching a process removes it from owners, history and waiting list, and keeps all other counts |
| `SimplePolicy.IdleCore` | osdi21_artifact/caladan/caladan-code/iokernel/simple.c:192-195 | finds the lowest unowned core, if there is one |
| `SimplePolicy.ChooseCore` | osdi21_artifact/caladan/caladan-code/iokernel/simple.c:151-208 | a chosen core is allowed, not the process's own, and free or preemptible; it is a sibling of an own core if one can be had; none is chosen only if no core is unowned and none preemptible |
| `SimplePolicy.RunKthreadIff` | osdi21_artifact/caladan/caladan-code/iokernel/simple.c:124-149 | a core is given exactly if the process has a kthread to spare and the core is allowed |
| `SimplePolicy.RunKthreadOk` | osdi21_artifact/caladan/caladan-code/iokernel/simple.c:124-149 | giving a core keeps both layers in order and in agreement, and changes the owner of that core only |
| `SimplePolicy.AddKthreadOk` | osdi21_artifact/caladan/caladan-code/iokernel/simple.c:210-223 | adding a kthread keeps both layers in agreement |
| `SimplePolicy.ChosenCore` | osdi21_artifact/caladan/caladan-code/iokernel/simple.c:210-223 | a request that succeeds was below threads_max and got an allowed core that was not its own |
| `SimplePolicy.NotifyCongestedOk` | osdi21_artifact/caladan/caladan-code/iokernel/simple.c:251-284 | a congestion notice keeps both layers in agreement |
| `SimplePolicy.ChooseKthread` | osdi21_artifact/caladan/caladan-code/iokernel/simple.c:286-318 | picks a congested process with a kthread to spare, and none only if there is none |
| `SimplePolicy.AtIdleOk` | osdi21_artifact/caladan/caladan-code/iokernel/simple.c:328-342 | a process picked for an idle core always gets it (the WARN is unreachable), only that core changes hands, and it stays unowned only if no process was ready for it |
| `SimplePolicy.FastPassOk` | osdi21_artifact/caladan/caladan-code/iokernel/sched.c:413-449 | the fast pass reports only allowed cores and leaves the latest kthread of all other cores |
| `SimplePolicy.PollAllOk` | osdi21_artifact/caladan/caladan-code/iokernel/simple.c:320-344 | a whole poll ends in agreement, and takes a core from no process unless the core was reported idle |
| `SimplePolicy.DoKeepsOk` | osdi21_artifact/caladan/caladan-code/iokernel/simple.c:52-344 | every event keeps both layers in order and in agreement |
| `SimplePolicy.RunKeepsOk` | osdi21_artifact/caladan/caladan-code/iokernel/simple.c:52-344 | so does every run |
| `SimplePolicy.LayersAgree` | osdi21_artifact/caladan/caladan-code/iokernel/simple.c:124-149 | at the end of every event of every run, if the policy says a process owns a core, the latest thread requested there (pending_th if pending, else cur_th) is one of that process's |
| `SimplePolicy.CountsInRuns` | osdi21_artifact/caladan/caladan-code/iokernel/simple.c:52-66 | in every run threads_active is the number of cores owned, and threads_active <= active_thread_count <= thread_count |
| `SimplePolicy.AddKeepsGuarantee` | osdi21_artifact/caladan/caladan-code/iokernel/simple.c:37-43 | a preemption leaves its victim at or above threads_guaranteed |
| `SimplePolicy.GuaranteeKept` | osdi21_artifact/caladan/caladan-code/iokernel/simple.c:37-43 | in every run a process loses a core only if that core was reported idle, or if it is left with at least threads_guaranteed |
| `PolicyLimits.AtIdleCounts` | osdi21_artifact/caladan/caladan-code/iokernel/simple.c:328-342 | one turn of the loop over idle cores takes the core from its owner and gives it to the process chosen, and changes threads_active by exactly that |
| `PolicyLimits.PollCounts` | osdi21_artifact/caladan/caladan-code/iokernel/simple.c:320-344 | a poll changes threads_active by the number of idle cores at which the process is chosen, less the number of its own that were reported idle |
| `PolicyLimits.PollLimit` | osdi21_artifact/caladan/caladan-code/iokernel/simple.c:320-344 | a poll takes a process beyond threads_max only by choosing it at the limit, exactly then if none of its own cores is reported idle, and only if it was congested |
| `PolicyLimits.AddStaysWithinMax` | osdi21_artifact/caladan/caladan-code/iokernel/simple.c:210-223 | a request never takes a process beyond threads_max |
| `PolicyLimits.MaxInRuns` | osdi21_artifact/caladan/caladan-code/iokernel/simple.c:210-344 | in every run no event but a poll takes a process beyond threads_max; a poll does so if and only if it gives the process more idle cores than are left below the limit and are lost by the poll; only by choosing it when it has reached the limit, which is not looked at; and only if it was waiting |
| `PolicyLimits.ExceedsMax` | osdi21_artifact/caladan/caladan-code/iokernel/simple.c:320-344 | a run of five events from boot in which a process with a limit of one core owns two |
| `PolicyCode.Allocator.CleanupCore` | osdi21_artifact/caladan/caladan-code/iokernel/simple.c:52-66 | makes exactly the transition Cleanup, shifting the history in place |
| `PolicyCode.Allocator.EraseAll` | osdi21_artifact/caladan/caladan-code/iokernel/simple.c:113-120 | the loops wipe the process from both tables |
| `PolicyCode.Allocator.DetachProc` | osdi21_artifact/caladan/caladan-code/iokernel/simple.c:105-122 | makes exactly the transition DetachPol |
| `PolicyCode.Allocator.RunOn` | osdi21_artifact/caladan/caladan-code/iokernel/simple.c:124-149 | makes exactly the transition RunKthread, and fails with nothing changed |
| `PolicyCode.Allocator.FindHyper` | osdi21_artifact/caladan/caladan-code/iokernel/simple.c:157-169 | the sibling loop computes HyperCore |
| `PolicyCode.Allocator.FindPast` | osdi21_artifact/caladan/caladan-code/iokernel/simple.c:171-190 | the walk along the idle kthreads computes PastCore |
| `PolicyCode.Allocator.FindPreemptible` | osdi21_artifact/caladan/caladan-code/iokernel/simple.c:197-204 | the last loop computes PreemptCore |
| `PolicyCode.Allocator.FindCore` | osdi21_artifact/caladan/caladan-code/iokernel/simple.c:151-208 | computes ChooseCore |
| `PolicyCode.Allocator.AddOne` | osdi21_artifact/caladan/caladan-code/iokernel/simple.c:210-223 | makes exactly the transition AddKthread |
| `PolicyCode.Allocator.Notify` | osdi21_artifact/caladan/caladan-code/iokernel/simple.c:251-284 | makes exactly the transition NotifyCongested |
| `PolicyCode.Allocator.FindKthread` | osdi21_artifact/caladan/caladan-code/iokernel/simple.c:286-318 | computes ChooseKthread |
| `PolicyCode.Allocator.ServeIdle` | osdi21_artifact/caladan/caladan-code/iokernel/simple.c:328-342 | makes exactly the transition AtIdle |
| `PolicyCode.Allocator.PollPolicy` | osdi21_artifact/caladan/caladan-code/iokernel/simple.c:320-344 | the loop makes exactly the transition PolicyPoll |
| `PolicyCode.Allocator.PollAllCores` | osdi21_artifact/caladan/caladan-code/iokernel/sched.c:409-457 | makes exactly the transition PollAll |
| `Timer.UpStep` | osdi21_artifact/caladan/caladan-code/runtime/timer.c:58-67 | one exchange of sift_up moves the only disorder one level up |
| `Timer.DownStep` | osdi21_artifact/caladan/caladan-code/runtime/timer.c:76-94 | one exchange of sift_down with the least child moves the only disorder one level down |
| `Timer.RootIsLeast` | osdi21_artifact/caladan/caladan-code/runtime/timer.c:21-41 | the first slot of a heap, in order at every index, has the least deadline |
| `Timer.OtherHeapsStay` | osdi21_artifact/caladan/caladan-code/runtime/timer.c:53-68 | an operation on one heap leaves the idx of every timer in another heap exact |
| `Timer.Kthread.constructor` | osdi21_artifact/caladan/caladan-code/runtime/timer.c:344-361 | an empty heap with next_timer_tsc 0 |
| `Timer.Kthread.SiftUp` | osdi21_artifact/caladan/caladan-code/runtime/timer.c:53-68 | keeps the timers and their idx exact, makes a heap if only the given slot could be too low, and changes nothing if it is not |
| `Timer.Kthread.LeastChild` | osdi21_artifact/caladan/caladan-code/runtime/timer.c:77-88 | finds a child with the least deadline if that is less than its parent's, and otherwise shows that no child's is |
| `Timer.Kthread.SiftDown` | osdi21_artifact/caladan/caladan-code/runtime/timer.c:70-95 | keeps the timers and their idx exact, and restores the order from the given index on |
| `Timer.Kthread.UpdateQPtrs` | osdi21_artifact/caladan/caladan-code/runtime/timer.c:97-103 | next_timer_tsc becomes the image of the least deadline, or 0 |
| `Timer.Kthread.Start` | osdi21_artifact/caladan/caladan-code/runtime/timer.c:167-189 | arms and adds exactly that timer, with exact idx and localk, and keeps the heap |
| `Timer.Kthread.Cancel` | osdi21_artifact/caladan/caladan-code/runtime/timer.c:216-258 | false and nothing changed if the timer is not armed; if it is in the heap, exactly it is removed; if it has fired, and so is still armed, another timer is removed in its stead; the heap is kept |
| `Timer.Kthread.Expire` | osdi21_artifact/caladan/caladan-code/runtime/timer.c:317-326 | fires a due timer with the least deadline of all, and nothing only if none is due |
| `Timer.Kthread.Softirq` | osdi21_artifact/caladan/caladan-code/runtime/timer.c:307-337 | timers fire in order of deadline, each when due, and fewer than the budget only if no more are due |
| `Timer.Kthread.Heapify` | osdi21_artifact/caladan/caladan-code/runtime/timer.c:136-142 | the bottom-up loop makes a heap of any array and loses no timer |
| `Timer.Kthread.Merge` | osdi21_artifact/caladan/caladan-code/runtime/timer.c:109-147 | the merged heap holds exactly the timers of both, all naming this kthread, and the other heap is empty |
| `TimerSystem.StartsOk` | osdi21_artifact/caladan/caladan-code/runtime/timer.c:167-189 | a start keeps every kthread's heap, positions and next_timer_tsc, and holds one more timer |
| `TimerSystem.TakesOutOk` | osdi21_artifact/caladan/caladan-code/runtime/timer.c:241-257 | a cancellation or expiry keeps them too, and holds exactly that timer less |
| `TimerSystem.MergesOk` | osdi21_artifact/caladan/caladan-code/runtime/timer.c:109-147 | so does a merge, which empties the source and holds what was held |
| `TimerSystem.StepHolds` | osdi21_artifact/caladan/caladan-code/runtime/timer.c:53-337 | every step keeps the heaps in order and holding what is pending, unless it cancels a timer that is armed but in no heap |
| `TimerSystem.StaleBreaks` | osdi21_artifact/caladan/caladan-code/runtime/timer.c:239-257 | such a cancellation leaves the heaps short of what is pending |
| `TimerSystem.HeapsHoldPending` | osdi21_artifact/caladan/caladan-code/runtime/timer.c:53-337 | after any sequence of start, cancel, expiry and merge on any number of kthreads that cancels no timer after it fired, every array is a 4-ary heap at every index with exact idx and localk, the heaps hold exactly the timers started that have neither fired nor been cancelled, and the armed ones are those and the ones that fired |
| `TimerSystem.HoldsIff` | osdi21_artifact/caladan/caladan-code/runtime/timer.c:209-215 | as long as none was, the next event leaves the heaps holding what is pending if and only if it does not cancel a timer that has fired |
| `TimerSystem.NextIsEarliest` | osdi21_artifact/caladan/caladan-code/runtime/timer.c:97-103 | in such runs next_timer_tsc of every kthread is the image of its least deadline, or 0 if it has no timer |
| `TimerSystem.FireInOrder` | osdi21_artifact/caladan/caladan-code/runtime/timer.c:317-334 | in such runs timers of one kthread fire in the order of their deadlines, whatever handlers and other kthreads do in between, as long as none is added to its heap |
| `TimerSystem.CancelLosesAnother` | osdi21_artifact/caladan/caladan-code/runtime/timer.c:317-334 | a run of four events in which cancelling a timer that fired takes another, pending timer out of the heap |
| `RwMutex.RdLocksOk` | osdi21_artifact/caladan/caladan-code/runtime/sync.c:86-100 | taking or waiting for the read lock keeps the invariant |
| `RwMutex.WrLocksOk` | osdi21_artifact/caladan/caladan-code/runtime/sync.c:124-137 | so does the write lock |
| `RwMutex.UnlocksOk` | osdi21_artifact/caladan/caladan-code/runtime/sync.c:161-202 | unlocking, with hand-over to all readers or to the first writer, keeps the invariant, and the count is not 0 as the code asserts |
| `RwMutex.WakesOneOk` | osdi21_artifact/caladan/caladan-code/runtime/sync.c:179-184 | a woken thread is one that was let in, and goes on with the lock |
| `RwMutex.DoKeepsInv` | osdi21_artifact/caladan/caladan-code/runtime/sync.c:73-202 | every step keeps the invariant |
| `RwMutex.RunKeepsInv` | osdi21_artifact/caladan/caladan-code/runtime/sync.c:73-202 | so does every interleaved run |
| `RwMutex.Exclusion` | osdi21_artifact/caladan/caladan-code/runtime/sync.c:73-202 | in every run count -1 means one writer and no reader, n means n readers and no writer, so a writer excludes everyone |
| `RwMutex.WaitersInOrder` | osdi21_artifact/caladan/caladan-code/runtime/sync.c:92-98 | in every run read_waiter_count is the length of the read-waiter list, readers wait only under a writer, nobody waits when count is 0, and every waiting thread is on its list once |
| `RwMutex.NoLostWakeup` | osdi21_artifact/caladan/caladan-code/runtime/sync.c:161-202 | in every run, while any thread is parked, some thread holds the lock and is running, or is about to wake one |
| `RwMutex.CounterSays` | osdi21_artifact/caladan/caladan-code/runtime/sync.c:86-155 | count is at least 0 exactly if nobody holds the lock for writing, and 0 exactly if nobody holds it |
| `RwMutex.LastHolder` | osdi21_artifact/caladan/caladan-code/runtime/sync.c:161-202 | the holder that unlocks is the last one exactly if count is -1 or 1 |
| `RwMutex.Mutex.ReadLock` | osdi21_artifact/caladan/caladan-code/runtime/sync.c:86-100 | the lock is taken if and only if nobody holds it for writing; otherwise the caller waits behind the readers that wait |
| `RwMutex.Mutex.TryReadLock` | osdi21_artifact/caladan/caladan-code/runtime/sync.c:108-118 | the lock is taken if and only if nobody holds it for writing, else nothing changes |
| `RwMutex.Mutex.WriteLock` | osdi21_artifact/caladan/caladan-code/runtime/sync.c:124-137 | the lock is taken if and only if nobody holds it; otherwise the caller waits behind the writers that wait |
| `RwMutex.Mutex.TryWriteLock` | osdi21_artifact/caladan/caladan-code/runtime/sync.c:145-155 | the lock is taken if and only if nobody holds it, else nothing changes |
| `RwMutex.Mutex.ReleaseLock` | osdi21_artifact/caladan/caladan-code/runtime/sync.c:161-202 | if the caller was the last holder the lock is handed to all waiting readers, or if there are none to the writer waiting longest, else to nobody; exactly these are to be woken |
| `Slab.AtLeastEight` | osdi21_artifact/caladan/caladan-code/base/slab.c:172-189 | slab_create makes no page with fewer than eight items, whatever the item size and flags |
| `Slab.CountIsExact` | osdi21_artifact/caladan/caladan-code/base/slab.c:282-318 | item_count is nr_elems exactly if every slot is free, and 0 exactly if none is |
| `Slab.TakeSlotOk` | osdi21_artifact/caladan/caladan-code/base/slab.c:307-318 | the slot handed out was free, and only it stops being so |
| `Slab.AllocOk` | osdi21_artifact/caladan/caladan-code/base/slab.c:290-320 | an allocated item was in nobody's hands; allocation fails exactly if the current page is exhausted, the partial list empty and no page to be had |
| `Slab.FreeOk` | osdi21_artifact/caladan/caladan-code/base/slab.c:343-377 | freeing takes exactly that item out of users' hands; a page is released exactly if it is not current and has no item left in users' hands |
| `Slab.RunOk` | osdi21_artifact/caladan/caladan-code/base/slab.c:266-377 | the invariant holds in every run of allocations and frees |
| `Slab.NeverTwice` | osdi21_artifact/caladan/caladan-code/base/slab.c:290-320 | in every run no live item is handed out again |
| `Slab.PagesAccounted` | osdi21_artifact/caladan/caladan-code/base/slab.c:296-371 | in every run item_count is the free-list length plus, on cur_pg only, the items never handed out; other pages are on the full list iff below the threshold, and on the partial list iff from the threshold up to nr_elems |
| `Slab.FailsWithFreeItem` | osdi21_artifact/caladan/caladan-code/base/slab.c:290-304 | whatever nr_elems is, a run after which allocation fails although an item of a page on the full list is free |
| `Slab.SlabNode.NodeAlloc` | osdi21_artifact/caladan/caladan-code/base/slab.c:290-320 | makes exactly the transition Alloc and adds a new item to those in users' hands |
| `Slab.SlabNode.NodeFree` | osdi21_artifact/caladan/caladan-code/base/slab.c:343-377 | makes exactly the transition Free and removes the item |
| `Slab.SlabNode.TcacheAlloc` | osdi21_artifact/caladan/caladan-code/base/slab.c:391-413 | hands out nr distinct new items, or none: on failure what was taken is given back |
| `Slab.SlabNode.RollBack` | osdi21_artifact/caladan/caladan-code/base/slab.c:409-412 | gives back exactly the items taken so far |
| `Slab.SlabNode.TcacheFree` | osdi21_artifact/caladan/caladan-code/base/slab.c:415-424 | takes back exactly the given items |
| `Tcache.AllocOk` | osdi21_artifact/caladan/caladan-code/base/tcache.c:72-110 | an allocated item was in nobody's hands; allocation fails exactly if thread, pool and backing store are empty |
| `Tcache.FreeOk` | osdi21_artifact/caladan/caladan-code/base/tcache.c:113-142 | freeing takes exactly that item from users' hands and keeps every item in one place |
| `Tcache.TakePoolOk` | osdi21_artifact/caladan/caladan-code/base/tcache.c:206-209 | taking the pool keeps every item in one place |
| `Tcache.FreeMagOk` | osdi21_artifact/caladan/caladan-code/base/tcache.c:54-69 | the magazine given back is whole, as the code asserts, and the account stays balanced |
| `Tcache.RunOk` | osdi21_artifact/caladan/caladan-code/base/tcache.c:30-216 | the invariant holds in every run of any number of threads |
| `Tcache.OnePlace` | osdi21_artifact/caladan/caladan-code/base/tcache.c:30-216 | in every run each item held from the backing store is in exactly one place, and mags_allocated times mag_size is their number |
| `Tcache.FullMagazines` | osdi21_artifact/caladan/caladan-code/base/tcache.c:77-142 | in every run a loaded magazine has exactly `rounds` items, and previous, shared and reclaimed ones are full |
| `Tcache.InNoMagazine` | osdi21_artifact/caladan/caladan-code/inc/base/tcache.h:17-20 | an item with a user, or not held at all, is in no magazine, so its links are free to be written |
| `Tcache.PoolKept` | osdi21_artifact/caladan/caladan-code/inc/base/tcache.h:17-20 | writing either link of an item that is in no magazine disturbs no magazine and no list of magazines |
| `Tcache.MagCache.constructor` | osdi21_artifact/caladan/caladan-code/base/tcache.c:188-195 | handles without magazines and an empty pool |
| `Tcache.MagCache.AllocMag` | osdi21_artifact/caladan/caladan-code/base/tcache.c:30-52 | the loop chains the items up in order through their own next_item fields, and disturbs no magazine there is |
| `Tcache.MagCache.SlowAlloc` | osdi21_artifact/caladan/caladan-code/base/tcache.c:72-110 | following and moving head pointers makes exactly the transition Alloc on the magazines they lead to, when the loaded one is empty |
| `Tcache.MagCache.AllocItem` | osdi21_artifact/caladan/caladan-code/inc/base/tcache.h:68-78 | following next_item makes exactly the transition Alloc on the magazines |
| `Tcache.MagCache.MakeRoom` | osdi21_artifact/caladan/caladan-code/base/tcache.c:122-136 | linking the previous magazine into the pool through its first item's next_mag puts exactly it first there |
| `Tcache.MagCache.FreeItem` | osdi21_artifact/caladan/caladan-code/inc/base/tcache.h:85-95 | writing the freed item's own links makes exactly the transition Free on the magazines, and every other chain stays |
| `Tcache.MagCache.Unlink` | osdi21_artifact/caladan/caladan-code/base/tcache.c:61-64 | the walk along next_item ends, and lists the magazine's items in order, within the array of 64 |
| `Tcache.MagCache.FreeMagazine` | osdi21_artifact/caladan/caladan-code/base/tcache.c:54-69 | makes exactly the transition FreeMag; its assertion that the magazine is whole holds |
| `Tcache.MagCache.ReclaimPool` | osdi21_artifact/caladan/caladan-code/base/tcache.c:202-216 | the walk along next_mag empties the pool, gives back all its magazines, and touches no thread's |
| `Receiver.FeedAppend` | drivers/nvme/host/i10.c:825-856 | feeding two byte strings one after the other is feeding their concatenation |
| `Receiver.HostQueue.constructor` | drivers/nvme/host/i10.c:484-491 | a queue between PDUs |
| `Receiver.HostQueue.RecvPdu` | drivers/nvme/host/i10.c:651-699 | consumes at least one byte and computes Feed on what it consumes |
| `Receiver.HostQueue.RecvDdgst` | drivers/nvme/host/i10.c:786-823 | likewise for the data digest |
| `Receiver.HostQueue.RecvData` | drivers/nvme/host/i10.c:708-784 | the copying loop, bio by bio, consumes bytes or moves to another receive state, to the effect of Feed |
| `Receiver.HostQueue.RecvSkb` | drivers/nvme/host/i10.c:825-856 | terminates on every chunk and computes Feed |
| `Receiver.HostQueue.RecvAll` | drivers/nvme/host/i10.c:1207-1221 | handing the receiver chunk after chunk, until one is not taken whole, computes Feed on the stream they make up |
| `Receiver.SameStream` | drivers/nvme/host/i10.c:825-856 | two receivers in one state that are handed the same stream cut in two ways end in the same state, with the same data, completions, PDUs to send and first error |
| `Receiver.R2tArrives` | drivers/nvme/host/i10.c:577-649 | an R2T is accepted exactly if its tag is known, it asks for no more than is left, and not from before it; whichever way the data flow and for no data as for any; and then one PDU is queued, else none |
| `Receiver.DataArrives` | drivers/nvme/host/i10.c:708-784 | payload bytes are spread over the request's bios in order, whatever their sizes |
| `Receiver.HeaderArrives` | drivers/nvme/host/i10.c:651-699 | a well-formed data header is accepted, with or without header digest |
| `Receiver.DataPduDelivers` | drivers/nvme/host/i10.c:651-823 | round trip: a well-formed data PDU appends exactly its payload to its request, completes it if flagged, and changes no other request |
| `Caravan.CutIsShort` | drivers/nvme/host/i10.c:233-243 | what a PDU is sent with is a prefix of what its header announces, and all of it exactly if its request is a write or it takes one piece |
| `Caravan.AdvanceUnsent` | drivers/nvme/host/i10.c:272-283 | advancing a request over segments and bios drops exactly the bytes sent |
| `Caravan.AdvanceOk` | drivers/nvme/host/i10.c:272-283 | what was sent and what is left of a PDU are what was left before |
| `Caravan.SendDataOk` | drivers/nvme/host/i10.c:928-990 | the data loop, which takes the first piece for the last if the request is no write, moves bytes from the request to the end of the caravan and none else |
| `Caravan.LoadOk` | drivers/nvme/host/i10.c:1174-1197 | so does a whole pass over the current request |
| `Caravan.TrySendOk` | drivers/nvme/host/i10.c:1130-1205 | one call neither loses, adds, repeats nor reorders a byte, whatever timer and socket do, and sends whole caravans |
| `Caravan.RunOk` | drivers/nvme/host/i10.c:300-349 | the stream equation and the caravan's limits hold in every run |
| `Caravan.PromisesKept` | drivers/nvme/host/i10.c:233-243 | the bytes put on the wire for a list of requests are those their headers announce if and only if every PDU that takes more than one piece belongs to a write |
| `Caravan.StreamPreserved` | drivers/nvme/host/i10.c:1130-1205 | in every run bytes sent, then bytes in the caravan, then what is still to be sent, are what is put on the wire for the queued requests, in order; and the PDUs announced if and only if every one that takes more than one piece belongs to a write |
| `Caravan.ReadIsCutShort` | drivers/nvme/host/i10.c:233-243 | a run in which a PDU of a read is sent with one of its two bytes |
| `Caravan.CaravanFits` | drivers/nvme/host/i10.c:921-926 | in every run caravan_len is the sum of iov lengths, nr_iovs <= 32 and nr_mapped <= 16 |
| `Caravan.Progress` | drivers/nvme/host/i10.c:1130-1205 | with a free socket and no timer, every call that has something to send puts bytes in the caravan, or sends bytes, or decides to send, unless the current PDU has asked for no data |
| `Caravan.EmptyR2tStalls` | drivers/nvme/host/i10.c:944-969 | a request gets stuck with nothing left to send exactly if its PDU asks for no data |
| `Caravan.StallsForever` | drivers/nvme/host/i10.c:968-969 | such a request stays current in every continuation, and no request behind it is taken up |
| `Caravan.H2cHeaderReads` | drivers/nvme/host/i10.c:577-620 | round trip: read by the layout the receiver goes by, the header filled in for an R2T has its tag, ttag, offset and lengths |
| `Caravan.R2tBecomesPdu` | drivers/nvme/host/i10.c:623-649 | every R2T the receiver accepts becomes a request in order for the sender, also for no data and for a request that is no write; whether its PDU will be cut short is decided then |
| `Caravan.NothingIsNeverDone` | drivers/nvme/host/i10.c:944-969 | a PDU that asks for no data, once current, is so in every continuation of every run |
| `Caravan.EmptyR2tHalts` | drivers/nvme/host/i10.c:577-649 | an R2T for no data is accepted for every request that has data, also when all of it was sent, and once its PDU is current the queue never gets past it |
| `Caravan.SomeR2tHalts` | drivers/nvme/host/i10.c:577-649 | 24 bytes that the receiver accepts, and a run of two calls after which the sender is stalled |
| `Caravan.HostSender.constructor` | drivers/nvme/host/i10.c:1562-1571 | an empty caravan with arrays of 32 and 16 |
| `Caravan.HostSender.TrySendCmdPdu` | drivers/nvme/host/i10.c:992-1042 | makes exactly the transition SendCmdPdu |
| `Caravan.HostSender.TrySendDataPdu` | drivers/nvme/host/i10.c:1044-1087 | makes exactly the transition SendDataPdu |
| `Caravan.HostSender.SendPiece` | drivers/nvme/host/i10.c:932-988 | one turn of the data loop, within the bounds of both arrays, ends the request exactly when SendData does |
| `Caravan.HostSender.TrySendData` | drivers/nvme/host/i10.c:928-990 | makes exactly the transition SendData |
| `Caravan.HostSender.LoadRequest` | drivers/nvme/host/i10.c:1174-1197 | makes exactly the transition Load |
| `Caravan.HostSender.TrySendQueue` | drivers/nvme/host/i10.c:1130-1205 | makes exactly the transition TrySend |
| `Dispatch.ActiveUpdate` | block/blk-mq.h:212-222 | changing one request changes the number of active ones by that request's share |
| `Dispatch.LeftUpdate` | block/blk-mq.c:1581-1650 | the loop's invariant survives a change of tag of one of the requests left |
| `Dispatch.HwCtx.GetDriverTag` | block/blk-mq.c:1408-1436 | takes a tag if none is held and one is free, and counts it in nr_active if tags are shared |
| `Dispatch.HwCtx.PutDriverTag` | block/blk-mq.h:212-230 | gives the tag back if one is held and a scheduler is attached, and uncounts it |
| `Dispatch.HwCtx.MarkTagWait` | block/blk-mq.c:1465-1527 | tries once more, unless this context already waits; a failure changes nothing |
| `Dispatch.HwCtx.Offer` | block/blk-mq.c:1612-1649 | a request offered to the driver is accepted, ended with an error, or put back, and then the look-ahead tag of the next one is given back |
| `Dispatch.HwCtx.OneTurn` | block/blk-mq.c:1581-1650 | one turn serves the first request or stops with all that are left untouched |
| `Dispatch.HwCtx.DispatchRqList` | block/blk-mq.c:1563-1717 | a prefix of the list is accepted or ended with an error, in order; the rest is appended to hctx->dispatch in order, each request as it came, so that with a scheduler none holds a driver tag; nr_active moves with the requests; other requests are untouched; true is returned exactly if nothing is put back and the list was not empty |
| `Steering.PickEligible` | block/blk-mq.c:630-673 | among the eligible cores of the node, picks one that is lexicographically least in (batch minus nr_req, T_active), the local core if that is as good, whatever the random bits |
| `Steering.TwoChoices` | block/blk-mq.c:676-696 | the less loaded of two different cores of the node |
| `Steering.SteerRequest` | block/blk-mq.c:597-706 | stays local while the local queue is not busy; else the best eligible core of the same residue modulo nr_nodes, below nr_cpus; and only if there is none, the less loaded of two different ones |
| `Steering.BestIsUnique` | block/blk-mq.c:644-672 | any two outcomes over one snapshot are equally good, and local if the local core is among the best |
| `Jenkins.LineUndone` | osdi21_artifact/caladan/caladan-code/base/jenkins_hash.c:79-87 | each line of mix can be undone |
| `Jenkins.MixIsBijective` | osdi21_artifact/caladan/caladan-code/base/jenkins_hash.c:79-87 | mix has an inverse, on both sides, so it is a bijection on the state |
| `Jenkins.MaskedIsPart` | osdi21_artifact/caladan/caladan-code/base/jenkins_hash.c:164-181 | masking the last word leaves exactly the key's own bytes of it, whatever follows the key |
| `Jenkins.AddHalves` | osdi21_artifact/caladan/caladan-code/base/jenkins_hash.c:220-250 | half-words and odd bytes add up to the key's bytes |
| `Jenkins.AddBytes` | osdi21_artifact/caladan/caladan-code/base/jenkins_hash.c:255-292 | single bytes add up to the key's bytes, modulo 2^32 |
| `Jenkins.HashWords` | osdi21_artifact/caladan/caladan-code/base/jenkins_hash.c:137-181 | the word path computes Hash of the key's bytes |
| `Jenkins.HashHalves` | osdi21_artifact/caladan/caladan-code/base/jenkins_hash.c:205-250 | so does the half-word path |
| `Jenkins.HashBytes` | osdi21_artifact/caladan/caladan-code/base/jenkins_hash.c:252-293 | so does the byte path |
| `Jenkins.JenkinsHash` | osdi21_artifact/caladan/caladan-code/base/jenkins_hash.c:126-297 | the hash of every key of every length does not depend on alignment or on what follows the key |

## Left out

- Sockets, DPDK, SPDK, memory mapping, asynchronous crypto requests, context switches: foreign code; what they answer is an arbitrary parameter of the step or method that asks.
- Memory ordering weaker than program order: every access to shared memory is one atomic step in program order, as the acquire and release operations of the code promise for the fields modelled.
- iokernel/numa.c: its hyperthread path returns a sibling core without asking whether the core is allowed, so the results about chosen cores are about the simple policy only.
- Process reference counts, packet transmit and receive paths of the IOKernel, load averages and statistics: plumbing and floating-point averages that no modelled decision reads.
- Congestion detection in the slow pass of sched_poll: whether a process is congested is an arbitrary input to the policy.
- A detached process stays in the scheduler's table, and its kthreads on their cores, until they are taken off; freeing it is not modelled.
- SchedulerCode.CoreScheduler.AttachTable: at most 256 kthreads, the size of the code's tables; the array of polled kthreads has no limit, and a linked list of idle kthreads is a sequence.
- FIFO order of the uthread run queue: overflow threads can be overtaken, so only conservation holds.
- 32-bit wrap-around of generation counters and of rcu_gen: they are unbounded; for ring indices `RunQueue.WrapAround` covers it.
- RunQueue.TakeOverflowStep: a thread made by a stolen softirq is an arbitrary thread that was not runnable; softirq processing itself is not modelled.
- Timer.Kthread.Cancel: the retry loop that finds the kthread is not modelled, and the timer has been started before, since timer_init does not set localk.  Of a timer that has fired it asks that the position it remembers is still in use: beyond the heap, or with the heap empty, the code writes outside the heap or counts below zero.  `TimerSystem.StaleBreaks` needs only that one slot goes.
- Timer.Kthread.Start: asks for room, where the code stops the program when the heap is full.
- Timer.Kthread.Merge: likewise asks for room for both heaps.
- Timer.Kthread.Softirq: handlers start and cancel nothing; with handlers that do, each turn of the loop is Timer.Kthread.Expire, and the runs of TimerSystem have them.
- Mutexes, condition variables, wait groups and barriers of the runtime: smaller versions of the same hand-over.
- slab `nr_pages`: it is also counted up when a partial page is used again, so it is not a number of pages.
- Slab.SlabNode.TcacheAlloc: items are page and slot numbers; the byte offset pg_off is the number of slots handed out.
- Tcache.MagCache.AllocItem: one thread's operation at a time on the links; that operations of several threads are atomic is the lock's doing.
- nvme-tcp.h is not part of this model: PDU layouts are those of section 7.4 of NVMe over Fabrics 1.1.
- Receiver.HostQueue.RecvSkb: failures to copy out of a socket buffer are not modelled; after the first error the queue takes no more bytes.
- Caravan.TrySendOk: the delayed path with data digest off and whole-message sends; with data digests the digest goes out while earlier bytes may still be in the caravan.  The legacy and admin path, doorbell liveness, and what io_work does after a failed send are not modelled.
- Caravan.AdvanceOk: a bio's segments are its bytes; pages, kmap and header buffers shared between PDUs of one request are not modelled, and each PDU queued is a request record of its own.
- Caravan.R2tBecomesPdu: of a request that has data, and whose bios the receiver has not moved through; for one without data the code sets up its iterator from a bio that is not there.
- Controller setup, reconnect, teardown and configuration: I/O and glue.
- Handshake.StepKeepsInv: any task may park on the core at any time; which tasks the runtime lets park there is not modelled.
- Dispatch.HwCtx.DispatchRqList: requests of one hardware queue; dispatch budgets, queue re-runs and the busy average are not modelled, and tags are numbers the tag allocator answers with.
- RDMA steering, application steering and the byte counters of blk-switch: the field that tells RDMA from TCP is a bool, and completion skips tag 0.
- Steering.SteerRequest: the second random core is drawn from a given list of random bytes that holds a different one, where the code draws until it gets one.
- Jenkins.JenkinsHash: the little-endian form; the reads of the word path beyond the key's end, within its last word, are part of the model.
- Jenkins.AddBytes: in whole blocks the code adds the bytes in the opposite order, to the same sum.
