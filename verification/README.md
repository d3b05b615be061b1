# The TOPPERS/ASP kernel and its serial driver, verified

A Dafny model of the part of TOPPERS/ASP 1.9.2 that decides which task runs, who holds what,
and when time runs out, and of the serial interface driver built on its semaphores.

## How it is built

The kernel appears twice.

* **As a value.** `KernelState` describes the kernel by what is not derived: task records, mutex
  queues, wait queues, ready queues, flags, and a timer with unbounded times. Current priorities,
  the highest-precedence task and the dispatch-enabled flag are functions of these. `KernelCalls`
  gives each service call, timer callback and the interrupt exit as one atomic step, error cases
  included. The system invariant is in `KernelInv`. `KernelRuns` shows that every step, from
  every context that may take it, keeps it, and `KernelTheorems` draws the consequences for every
  state the kernel can reach from its start. Besides mutexes and semaphores the state has objects of
  a generic kind, `Other`: one wait queue from which any waiters may be released. A flag, a mailbox, a
  pool is one such object, a data queue two (senders; receivers, always FIFO), as far as tasks are concerned.
* **As the code does it.** Class `Kernel` has the fields the C code has: the ready bitmap, the
  cached `p_schedtsk`, the cached `priority` of each task, the cached `dspflg`, and the array heap on
  wrapping 32-bit times with its back-pointers. Its methods update them incrementally, and each is
  proved to do to the value `K()` exactly what the step does; `Valid()` says that every cached value
  equals its definition. `StartUp` reaches the start of the runs, `Serve` takes any call and
  `SignalTime` a whole tick from a state in order to a state in order. So what is proved about all runs
  of the value holds for the code's form.

| file | what it is |
|---|---|
| `Prelude`, `RingBuffer`, `WaitList` | sequences without duplicates, rings, waiters with their data |
| `EventTime`, `Timer`, `HeapOrder`, `TimeEvent` | wrapping times, the timer as a value, the array heap refining it |
| `Firing` | runs of the timer: when events fire |
| `KernelState`, `KernelCalls` | the kernel as a value and its steps |
| `KernelInv`, `KernelSteps`, `KernelPriority`, `KernelSystem`, `KernelRuns` | the invariant and why every step keeps it |
| `KernelTheorems` | what holds in every reachable state |
| `KernelEffects`, `CallEffects`, `MutexEffects` | what each service call does, said of records, queues, events and flags, with every error code, without naming the step |
| `ReleaseOrder` | several waits ended by one call, in order |
| `KernelTiming`, `KernelTimeouts` | every run of the kernel is a run of its timer, so timeouts are punctual; timed waits end with E_TMOUT |
| `CeilingProtocol` | no task ever waits for a ceiling mutex |
| `SemaphoreRuns` | semaphore resources are conserved over runs |
| `Primap`, `KernelCache`, `Kernel` | the kernel with its caches, as the code updates them |
| `Queue` | the intrusive linked list at the level of its pointers |
| `MemPool`, `PriDataQueue`, `DataQueue`, `EventFlag` | objects with buffers or allocators of their own |
| `Serial`, `SerialRuns` | the driver's locked sections, and its token protocol under every interleaving |
| `FlowControl` | START and STOP in both directions, and what writers and readers get |

`dafny verify dfyconfig.toml` checks everything.

## Assumptions

* Parameters of the configuration: the heap has room for every task, cyclic handler and alarm; the
  send semaphore of a port starts at 1, the receive semaphore at 0, both with maximum 1.
* The tick is positive and short enough for pending times to stay within one wrap of `min_time`
  (`Timer.ValidTick`). EVTTIM is 32 bits wide and TMAX_RELTIM is 2^31 - 1.
* A ceiling mutex has its ceiling in internal form, as `kernel/mutex.h:59` says; `acre_mtx`
  (`kernel/mutex.c:413`) stores it unconverted.
* What the user handlers and nested interrupts do while a tick is being processed is a parameter of
  `Kernel.SignalTime`: any service calls they may make, after each callback. In the runs of the value such calls
  may come between any two firings.
* The ceiling protocol needs its discipline: all mutexes have ceilings, dispatching stays enabled, and a
  task keeps its base priority and neither waits for anything, is suspended nor is rotated away while it holds a mutex
  (`CeilingProtocol.Allowed`). `ter_tsk` and `ini_mtx` need no restriction.

## Where the code differs from what one might expect

* `mutex_release_all` (`kernel/mutex.c:371-385`) does not maintain the `priority` field of the task that
  ends. The ghost field `stale` of class `Kernel` names that task; it is in no queue, and
  the field is set again when the task becomes dormant.
* `initialize_cyclic` (`kernel/cyclic.c:138-164`) enters the handlers of TA_STA at the absolute time
  `cycphs`, not relative to the next tick as `sta_cyc` does.
* An error of `wai_sem` in the echo of `serial_rea_dat` (`syssvc/serial.c:581-589`) returns without giving
  back the receive semaphore. `SerialRuns.ReceiveSide` states exactly when the receive side is intact.
* When START resumes sending and the device takes the first buffered character at once
  (`syssvc/serial.c:710-728`), the send callback stays disabled if it was; the characters behind it are then sent only after
  another STOP and START. `FlowControl.GoingKept` states exactly when, `FlowControl.StartStrandsCharacters` gives a run.
* `serial_rea_chr` and `sio_irdy_rcv` (`syssvc/serial.c:522-531`, `752-762`) may hand START to the device while a STOP still waits
  for it in `rcv_fc_chr`, which then goes out last, and the other way round. `FlowControl.AgreementKept` states exactly when,
  `FlowControl.StartOvertakesStop` gives a run.

## Model

| member | source | states |
|---|---|---|
| `KernelRuns.StepOk` | asp-1.9.2-utf8/kernel/task.c:262-439 | every service call, timer callback, tick and interrupt exit, taken from any context that may take it, keeps the whole system invariant: each task linked where its state says, wait queues sorted, ownership, ceilings, heap contents, running task |
| `KernelTheorems.BootOk` | asp-1.9.2-utf8/kernel/task.c:113-150 | the kernel starts in order, with any TA_ACT tasks activated and any TA_STA cyclic handlers pending |
| `KernelTheorems.RunOk` | asp-1.9.2-utf8/kernel/task.h:215-237 | the invariant holds after any run of calls and interrupts of any length |
| `KernelTheorems.OnePlace` | asp-1.9.2-utf8/kernel/wait.h:81-141 | in every reachable state a task is in a ready queue exactly if it can run, and then in that of its current priority; in the wait queue of an object of any kind (mutex, semaphore, or one queue of a flag, data queue or pool) exactly if it waits for that object; nowhere twice |
| `KernelTheorems.QueuesSorted` | asp-1.9.2-utf8/kernel/wait.h:271-278 | the TA_TPRI wait queue of an object of any kind (mutex, semaphore, or one queue of a flag, data queue or pool) is sorted by current priority in every reachable state, also after priorities of waiters have changed |
| `KernelTheorems.NoLostDispatch` | asp-1.9.2-utf8/kernel/task.c:242-310 | in every reachable state outside interrupts with dispatching enabled the running task is the head of the first non-empty ready queue and no runnable task has a higher priority; nothing runs only if nothing can |
| `KernelTheorems.RunningCanRun` | asp-1.9.2-utf8/kernel/task_sync.c:417-465 | while dispatching is disabled there is a running task and it can run |
| `KernelTheorems.Ownership` | asp-1.9.2-utf8/kernel/mutex.c:319-385 | the mutex queue of a task is exactly the set of mutexes whose owner it is; a mutex with waiters has a live owner; nobody waits for a mutex it holds |
| `KernelTheorems.PriorityRule` | asp-1.9.2-utf8/kernel/mutex.c:266-314 | the current priority is the minimum of the base priority and all ceilings held; every ceiling held or waited for is at least as high as the base priority |
| `KernelTheorems.HeapExact` | asp-1.9.2-utf8/kernel/wait.c:55-141 | the heap holds one event for each task in a timed wait, each started alarm and each started cyclic handler, and nothing else; the union of a waiting task never holds a result code |
| `KernelTheorems.HeapFits` | asp-1.9.2-utf8/kernel/time_event.c:213-229 | a heap with room for tasks + cyclic handlers + alarms never overflows |
| `KernelPriority.LowestIsMinimum` | asp-1.9.2-utf8/kernel/mutex.c:266-283 | what the loop over the mutex queue computes is the minimum: a lower bound that is attained |
| `KernelPriority.LowestIgnoresBase` | asp-1.9.2-utf8/kernel/task_manage.c:530-545 | a task holding a ceiling mutex keeps its current priority when its base priority changes within the allowed range, which is why `chg_pri` then moves nothing |
| `KernelPriority.AcquireOk` | asp-1.9.2-utf8/kernel/mutex.c:319-328 | locking a free mutex keeps every link, with the locker moved to where its raised priority says |
| `KernelPriority.DropOk` | asp-1.9.2-utf8/kernel/mutex.c:302-314 | giving up a mutex moves its holder to where the remaining ceilings say, in front of its equals, and loses no link |
| `KernelPriority.HandOverOk` | asp-1.9.2-utf8/kernel/mutex.c:335-362 | handing a mutex to its first waiter ends that wait, cancels its timeout, raises nobody wrongly and keeps every link |
| `KernelPriority.ReleaseAllOk` | asp-1.9.2-utf8/kernel/mutex.c:371-385 | a terminating task gives up every mutex, each freed or handed over; only waits end, and its mutex queue is empty afterwards |
| `KernelRuns.AcquireKeepsTop` | asp-1.9.2-utf8/kernel/mutex.c:477-520 | locking a mutex never calls for a dispatch: the highest-precedence task stays the one it was |
| `KernelRuns.ChgPriOk` | asp-1.9.2-utf8/kernel/task_manage.c:513-556 | changing a base priority keeps the invariant, error cases included |
| `KernelRuns.IniMtxOk` | asp-1.9.2-utf8/kernel/mutex.c:683-717 | initializing a mutex in use keeps the invariant |
| `KernelRuns.TerTskOk` | asp-1.9.2-utf8/kernel/task_manage.c:449-504 | terminating another task in any state keeps the invariant |
| `KernelRuns.ExtTskOk` | asp-1.9.2-utf8/kernel/task_manage.c:389-440 | a task ending itself keeps the invariant, also when its activation is queued and also from a state with dispatching disabled |
| `KernelRuns.WakeAllOk` | asp-1.9.2-utf8/kernel/eventflag.c:314-330 | releasing any of the tasks waiting for an object, in any order, keeps the invariant and stops nobody |
| `KernelInv.InsertKeepsSorted` | asp-1.9.2-utf8/kernel/wait.h:59-74 | insertion by priority keeps a queue sorted |
| `KernelInv.InsertPosition` | asp-1.9.2-utf8/kernel/wait.h:59-74 | a task goes in behind every task of the same or a higher priority and before every lower one |
| `KernelEffects.ErrorsChangeNothing` | asp-1.9.2-utf8/kernel/mutex.c:635-674 | a call that returns an error code leaves the whole state as it was |
| `KernelEffects.RelWaiEnds` | asp-1.9.2-utf8/kernel/task_sync.c:341-408 | a forced release ends any wait with E_RLWAI and does nothing else: the task, unless suspended, is last in its ready queue, out of the queue of its object, its timeout cancelled |
| `KernelEffects.WupTskEnds` | asp-1.9.2-utf8/kernel/task_sync.c:215-296 | a wakeup ends a sleep with E_OK and does nothing else |
| `KernelEffects.WakeupAhead` | asp-1.9.2-utf8/kernel/task_sync.c:140-251 | a wakeup ahead of the sleep is remembered once and makes the sleep return at once, the state being as before |
| `KernelEffects.TimeoutEnds` | asp-1.9.2-utf8/kernel/wait.c:93-125 | a timeout ends exactly that wait, with E_TMOUT, or E_OK for a delay, and does nothing else |
| `KernelEffects.SignalEnds` | asp-1.9.2-utf8/kernel/semaphore.c:266-345 | a signal with waiters ends the wait of the first one only and leaves the count alone |
| `KernelEffects.SuspendResume` | asp-1.9.2-utf8/kernel/task_sync.c:417-516 | suspending and resuming a waiting task leaves no trace |
| `KernelEffects.SuspendResumeReady` | asp-1.9.2-utf8/kernel/task_sync.c:417-516 | suspending and resuming a task that can run only moves it behind its equals |
| `CallEffects.ActTskEffect` | asp-1.9.2-utf8/kernel/task_manage.c:272-305 | a dormant task can run, last in the ready queue of its initial priority; of any other one activation is remembered; a second one is E_QOVR; the highest-precedence task runs |
| `CallEffects.IactTskEffect` | asp-1.9.2-utf8/kernel/task_manage.c:314-347 | the same from a handler, which asks for a dispatch if the highest-precedence task is another one |
| `CallEffects.WupTskEffect` | asp-1.9.2-utf8/kernel/task_sync.c:215-251 | E_OBJ for a dormant task; a sleep ends; ahead of a sleep one wakeup is remembered; a second one is E_QOVR |
| `CallEffects.IwupTskEffect` | asp-1.9.2-utf8/kernel/task_sync.c:260-296 | the same from a handler |
| `CallEffects.RelWaiEffect` | asp-1.9.2-utf8/kernel/task_sync.c:341-370 | E_OBJ exactly if the task does not wait; else its wait ends with E_RLWAI |
| `CallEffects.IrelWaiEffect` | asp-1.9.2-utf8/kernel/task_sync.c:379-408 | the same from a handler |
| `CallEffects.SusTskEffect` | asp-1.9.2-utf8/kernel/task_sync.c:417-465 | which tasks can be suspended, with the error codes; a task that can run leaves its ready queue, a waiting one goes on waiting |
| `CallEffects.RsmTskEffect` | asp-1.9.2-utf8/kernel/task_sync.c:474-516 | the reverse; the task is last in its ready queue |
| `CallEffects.SlpTskEffect` | asp-1.9.2-utf8/kernel/task_sync.c:140-206 | a remembered wakeup is used up; polling never waits; otherwise the caller sleeps, with its event due the timeout after the origin of relative times if there is one |
| `CallEffects.DlyTskEffect` | asp-1.9.2-utf8/kernel/task_sync.c:525-550 | the caller waits, always with an event, also for 0 ms |
| `CallEffects.WaiSemEffect` | asp-1.9.2-utf8/kernel/semaphore.c:354-467 | a resource at once if there is one; polling never waits; otherwise the caller takes its place in the queue, by priority or last, with its timeout |
| `CallEffects.WaitOtherEffect` | asp-1.9.2-utf8/kernel/wait.c:167-187 | the caller takes its place in the queue of a flag, data queue or pool, with its timeout |
| `CallEffects.RotRdqEffect` | asp-1.9.2-utf8/kernel/sys_manage.c:179-200 | the first task of that ready queue goes to its end, every other place is as it was; if it was running the second one runs |
| `CallEffects.IrotRdqEffect` | asp-1.9.2-utf8/kernel/sys_manage.c:209-228 | the same from a handler |
| `CallEffects.DisDspEffect` | asp-1.9.2-utf8/kernel/sys_manage.c:395-412 | dispatching is off, nothing else changes |
| `CallEffects.EnaDspEffect` | asp-1.9.2-utf8/kernel/sys_manage.c:421-443 | dispatching is on and, unless the interrupt mask forbids it, the highest-precedence task runs |
| `CallEffects.ChgIpmEffect` | asp-1.9.2-utf8/kernel/interrupt.c:434-467 | the same for the interrupt mask |
| `CallEffects.IntExitEffect` | asp-1.9.2-utf8/arch/arm_gcc/common/core_support.S:360-400 | after the outermost handler the highest-precedence task runs, unless dispatching is off |
| `CallEffects.SigSemEffect` | asp-1.9.2-utf8/kernel/semaphore.c:266-301 | E_OK exactly if somebody waits or the count is below its maximum: the first waiter goes on, or the count rises by one; else E_QOVR |
| `CallEffects.IsigSemEffect` | asp-1.9.2-utf8/kernel/semaphore.c:310-345 | the same from a handler |
| `CallEffects.StaCycEffect` | asp-1.9.2-utf8/kernel/cyclic.c:270-300 | a handler, started or not, is started, due its phase after the origin of relative times |
| `CallEffects.StpCycEffect` | asp-1.9.2-utf8/kernel/cyclic.c:309-336 | the handler is stopped and has no event |
| `CallEffects.StaAlmEffect` | asp-1.9.2-utf8/kernel/alarm.c:258-331 | an alarm, started or not, is due the time asked for after the origin |
| `CallEffects.StpAlmEffect` | asp-1.9.2-utf8/kernel/alarm.c:340-403 | the alarm is stopped and has no event |
| `CallEffects.HandlerFires` | asp-1.9.2-utf8/kernel/cyclic.c:384-412 | a fired cyclic handler is due again one period after the time that was due; a fired alarm is stopped |
| `CallEffects.WakeOtherEffect` | asp-1.9.2-utf8/kernel/wait.c:78-84 | exactly the waits of the released tasks end, with E_OK, in that order; the tasks join the ready queues in that order |
| `CallEffects.IwakeOtherEffect` | asp-1.9.2-utf8/kernel/wait.c:78-84 | the same from a handler |
| `CallEffects.IniOtherEffect` | asp-1.9.2-utf8/kernel/wait.c:196-211 | exactly the waits for the object end, with E_DLT, in the order of its queue |
| `CallEffects.IniSemEffect` | asp-1.9.2-utf8/kernel/semaphore.c:476-505 | the same, and the count is the initial one |
| `CallEffects.BootEffect` | asp-1.9.2-utf8/kernel/task.c:113-150 | every record, queue, event and flag after the start: the TA_ACT tasks in their ready queues in table order, the TA_STA handlers due at their phase, counts initial, the highest-precedence task running |
| `ReleaseOrder.WakeAllEnds` | asp-1.9.2-utf8/kernel/eventflag.c:314-330 | several waits ended by one call: exactly those, and the tasks join each ready queue in the order in which they were released |
| `ReleaseOrder.InitQueueEnds` | asp-1.9.2-utf8/kernel/wait.c:196-211 | everyone in a wait queue is released in the order of the queue; nobody else is concerned |
| `MutexEffects.LocMtxEffect` | asp-1.9.2-utf8/kernel/mutex.c:477-626 | E_ILUSE exactly if the base priority is above the ceiling; a free mutex goes to the caller, first in its mutex queue, with the priority of the ceiling and the first place among its equals; E_OBJ for its owner; polling never waits; otherwise the caller waits in its place, with its timeout |
| `MutexEffects.UnlMtxEffect` | asp-1.9.2-utf8/kernel/mutex.c:635-674 | E_OBJ for anybody but the owner; the caller goes in front of its equals at the priority its remaining ceilings give; the first waiter owns the mutex, its wait over with E_OK, last in its ready queue at its raised priority; or the mutex is free |
| `MutexEffects.IniMtxEffect` | asp-1.9.2-utf8/kernel/mutex.c:683-717 | everyone waiting gets E_DLT in the order of the queue, the mutex is free, and its holder stands where its remaining ceilings put it, also in a queue in which it waits |
| `MutexEffects.ChgPriEffect` | asp-1.9.2-utf8/kernel/task_manage.c:513-556 | E_OBJ for a dormant task, E_ILUSE exactly if a ceiling held or waited for is below; a ceiling held hides the change; else the task is behind its equals, in its ready queue or in the queue in which it waits if that is ordered by priority |
| `MutexEffects.ReleaseAllHands` | asp-1.9.2-utf8/kernel/mutex.c:371-385 | all mutexes of a task go to their first waiters, in the order of its mutex queue, in which these join the ready queues at their raised priorities; or they are free |
| `MutexEffects.TerTskEffect` | asp-1.9.2-utf8/kernel/task_manage.c:449-504 | the task leaves every queue, gives up all its mutexes, and is new: dormant, or started again if an activation was remembered |
| `MutexEffects.ExtTskEffect` | asp-1.9.2-utf8/kernel/task_manage.c:389-440 | the same for the caller, with dispatching enabled again |
| `KernelTimeouts.StepSameWaits` | asp-1.9.2-utf8/kernel/wait.h:81-141 | no step turns one wait into another: a task that waits before and after a step waits for the same, with its union untouched |
| `KernelTimeouts.TimedWaitEnds` | asp-1.9.2-utf8/kernel/wait.c:55-107 | a wait with a timeout that nothing else ends is ended by that timeout, with E_TMOUT, no earlier than asked and less than 1 ms and two ticks later |
| `CeilingProtocol.StepProtocol` | asp-1.9.2-utf8/kernel/mutex.c:493-514 | under the discipline of the ceiling protocol every step keeps the holders of mutexes a stack, each first in its ready queue and each base priority above the current priority of the holders below |
| `CeilingProtocol.NeverOwnedByAnother` | asp-1.9.2-utf8/kernel/mutex.c:493-514 | a mutex a running task may lock is free or its own |
| `CeilingProtocol.NeverBlocks` | asp-1.9.2-utf8/kernel/mutex.c:493-514 | no lock call of any kind reaches its waiting branch |
| `CeilingProtocol.NobodyWaits` | asp-1.9.2-utf8/kernel/mutex.c:477-520 | over every disciplined run from the start no task ever waits for a mutex, so there is no deadlock over mutexes |
| `SemaphoreRuns.StepConserves` | asp-1.9.2-utf8/kernel/semaphore.c:266-467 | every step of the system but `ini_sem` conserves the resources of a semaphore; signals go to the first waiter or the count; timeouts and forced releases take nothing |
| `SemaphoreRuns.Conservation` | asp-1.9.2-utf8/kernel/semaphore.c:266-467 | over every run: count + successful acquisitions == initial count + successful signals; the count stays within its maximum; waiters exist only at count 0 |
| `EventTime.ComparisonsAgree` | asp-1.9.2-utf8/kernel/time_event.c:60-65 | EVTTIM_LT and EVTTIM_LE decide the order of the unbounded times within one wrap of the origin |
| `EventTime.SubWrapExact` | asp-1.9.2-utf8/kernel/time_event.c:60-65 | the unsigned difference is the true distance if and only if the time lies in the window |
| `EventTime.ComparisonFailsBeyondWindow` | asp-1.9.2-utf8/kernel/time_event.c:60-65 | a time lies in the window if and only if it compares rightly with every time in the window; for every time outside there is one inside with which the comparison errs |
| `EventTime.MovingOriginKeepsOrder` | asp-1.9.2-utf8/kernel/time_event.c:388-397 | moving `min_time` changes no comparison between times in both windows |
| `Timer.PendingInWindow` | asp-1.9.2-utf8/kernel/time_event.h:113-123 | every pending time, the current and the next time always lie in the window |
| `Timer.LefttimAfterEnqueue` | asp-1.9.2-utf8/kernel/time_event.c:327-342 | the remaining time asked for right after an enqueue is the time asked for |
| `HeapOrder.MoveUpKeepsOrder` | asp-1.9.2-utf8/kernel/time_event.c:124-151 | one step of the upward search keeps order and back-pointers |
| `HeapOrder.MoveDownKeepsOrder` | asp-1.9.2-utf8/kernel/time_event.c:164-201 | one step of the downward search keeps order and back-pointers |
| `HeapOrder.PlaceCompletes` | asp-1.9.2-utf8/kernel/time_event.c:213-229 | filling the vacancy where the search stopped makes a heap of the old events and the new one |
| `HeapOrder.RootIsMinimum` | asp-1.9.2-utf8/kernel/time_event.c:351-397 | the root is due no later than anything pending |
| `TimeEvent.TimeEventHeap.constructor` | asp-1.9.2-utf8/kernel/time_event.c:101-111 | the empty heap at time zero |
| `TimeEvent.TimeEventHeap.TmevtUp` | asp-1.9.2-utf8/kernel/time_event.c:124-151 | finds where an event belongs above a vacancy, keeping order and back-pointers |
| `TimeEvent.TimeEventHeap.TmevtDown` | asp-1.9.2-utf8/kernel/time_event.c:164-201 | finds where an event belongs below a vacancy, keeping order and back-pointers |
| `TimeEvent.TimeEventHeap.TmevtbInsert` | asp-1.9.2-utf8/kernel/time_event.c:213-229 | the heap refines a map from events to unbounded times: exactly the old events and the new one |
| `TimeEvent.TimeEventHeap.TmevtbDelete` | asp-1.9.2-utf8/kernel/time_event.c:238-287 | deleting any node, the last one and the one that moves its replacement up included, leaves exactly the other events, in heap order with right back-pointers |
| `TimeEvent.TimeEventHeap.TmevtbDeleteTop` | asp-1.9.2-utf8/kernel/time_event.c:294-320 | the same for the root |
| `TimeEvent.TimeEventHeap.TmevtbEnqueue` | asp-1.9.2-utf8/kernel/time_event.h:158-167 | due the relative time after the next tick rounded up, in unbounded time |
| `TimeEvent.TimeEventHeap.TmevtbEnqueueEvttim` | asp-1.9.2-utf8/kernel/time_event.h:174-181 | due at the given time |
| `TimeEvent.TimeEventHeap.TmevtLefttim` | asp-1.9.2-utf8/kernel/time_event.c:327-342 | the true remaining time, although computed on wrapped times |
| `TimeEvent.TimeEventHeap.AdvanceClock` | asp-1.9.2-utf8/kernel/time_event.c:356-378 | the wrapped clock follows the unbounded one, fraction included |
| `TimeEvent.TimeEventHeap.NextDue` | asp-1.9.2-utf8/kernel/time_event.c:380-386 | picks an event that is due, no later than any other, exactly if there is one |
| `TimeEvent.TimeEventHeap.CloseTick` | asp-1.9.2-utf8/kernel/time_event.c:388-397 | the heap stays a heap when the origin moves |
| `Firing.FiringDiscipline` | asp-1.9.2-utf8/kernel/time_event.c:351-397 | over every run of the timer: an event fires when due and not before, on the first tick that reaches it; fired times never decrease; no event fires twice for the same time |
| `Firing.FiredByThen` | asp-1.9.2-utf8/kernel/time_event.c:380-386 | every pending event that is not cancelled has fired once the tick that reaches it is over |
| `Firing.TimeoutAccuracy` | asp-1.9.2-utf8/kernel/time_event.c:364-394 | a relative time is never cut short and is exceeded by less than 1 ms and two ticks |
| `Firing.NoDrift` | asp-1.9.2-utf8/kernel/time_event.c:364-378 | after n ticks next_time * TIC_DENO + next_subtime == (n + 1) * TIC_NUME exactly |
| `Firing.FiringTerminates` | asp-1.9.2-utf8/kernel/time_event.c:380-386 | each firing uses up work although cyclic events re-arm themselves, and handlers add none, so the loop of one tick ends |
| `KernelTiming.CallCancels` | asp-1.9.2-utf8/kernel/wait.c:78-141 | no service call but those that wait or start a handler registers an event or moves the clock |
| `KernelTiming.CallStarts` | asp-1.9.2-utf8/kernel/wait.c:55-69 | a call that waits or starts a handler registers at most one event, whose block is free by then |
| `KernelTiming.FireTimer` | asp-1.9.2-utf8/kernel/cyclic.c:384-412 | the callbacks re-arm exactly the cyclic events, one period after the time that was due |
| `KernelTiming.TimersKeepDiscipline` | asp-1.9.2-utf8/kernel/time_event.c:351-397 | the firing discipline and the exact clock hold over every run of the whole kernel |
| `KernelTiming.NobodyOverdue` | asp-1.9.2-utf8/kernel/wait.c:93-125 | outside the timer interrupt no timeout, alarm or cyclic handler whose time has come is still pending |
| `KernelTiming.FiredByThen` | asp-1.9.2-utf8/kernel/time_event.c:380-386 | over every run of the whole kernel: an event pending with a due time, which no call cancels or starts anew, has fired for that time, and only once, when the tick that reaches it is over |
| `KernelTiming.DelayEnds` | asp-1.9.2-utf8/kernel/task_sync.c:525-550 | a delay that nobody cuts short does fire, no earlier than asked and less than 1 ms and two ticks later, whatever the system does meanwhile |
| `KernelTiming.DelayAccuracy` | asp-1.9.2-utf8/kernel/task_sync.c:525-550 | whenever a delay fires, it is no earlier than asked and less than 1 ms and two ticks later |
| `Queue.QueueEmpty` | asp-1.9.2-utf8/include/queue.h:147-151 | true exactly for the empty queue |
| `Queue.QueueInsertPrev` | asp-1.9.2-utf8/include/queue.h:86-93 | relinking keeps the circle and inserts before the given entry |
| `Queue.QueueInsertNext` | asp-1.9.2-utf8/include/queue.h:101-108 | on a header: the entry comes first |
| `Queue.QueueDelete` | asp-1.9.2-utf8/include/queue.h:115-120 | the circle without the entry: removal from the sequence of members |
| `Queue.QueueDeleteNext` | asp-1.9.2-utf8/include/queue.h:130-139 | takes out the first member |
| `Queue.QueueInsertTpri` | asp-1.9.2-utf8/kernel/wait.h:59-74 | the pointer loop does what insertion by priority does to the sequence of members |
| `Primap.BitmapSearch` | asp-1.9.2-utf8/kernel/task.c:182-197 | the table-driven search finds the lowest bit of every non-zero bitmap |
| `Primap.ReadyPrimap.Empty` | asp-1.9.2-utf8/kernel/task.c:204-208 | true exactly if no priority is marked |
| `Primap.ReadyPrimap.Search` | asp-1.9.2-utf8/kernel/task.c:213-217 | the highest marked priority |
| `Primap.ReadyPrimap.Set` | asp-1.9.2-utf8/kernel/task.c:222-226 | marks that priority and no other |
| `Primap.ReadyPrimap.Clear` | asp-1.9.2-utf8/kernel/task.c:231-235 | clears that priority and no other |
| `KernelCache.MovedTop` | asp-1.9.2-utf8/kernel/task.c:363-412 | the cached highest-precedence task after a priority change, case by case as the code updates it, is the head of the first non-empty queue |
| `KernelCache.LowestOfMore` | asp-1.9.2-utf8/kernel/mutex.c:290-297 | comparing one ceiling with the cached priority gives the same as recomputing the minimum |
| `KernelCache.LowestOfLess` | asp-1.9.2-utf8/kernel/mutex.c:302-314 | recomputing is only needed if the ceiling given up was the current priority |
| `Kernel.Kernel.constructor` | asp-1.9.2-utf8/kernel/task.c:113-130 | bitmap, cached task and cached priorities agree with their definitions before any task is activated |
| `Kernel.Kernel.StartUp` | asp-1.9.2-utf8/kernel/task.c:131-140 | the TA_ACT tasks activated in table order, the TA_STA handlers entered and dispatching begun: the state `KernelTheorems.Boot`, and from then on the system invariant |
| `Kernel.Kernel.Serve` | asp-1.9.2-utf8/kernel/task.h:215-237 | every call and the interrupt entry and exit, taken in a state in order, does what its step does and leaves a state in order; so runs of the class are runs of the value |
| `Kernel.Kernel.MakeRunnable` | asp-1.9.2-utf8/kernel/task.c:262-275 | queues, bitmap and `p_schedtsk` updated incrementally; the result is whether a dispatch is needed |
| `Kernel.Kernel.MakeNonRunnable` | asp-1.9.2-utf8/kernel/task.c:289-310 | the same for a task that leaves |
| `Kernel.Kernel.ChangePriority` | asp-1.9.2-utf8/kernel/task.c:363-412 | the same for a task whose priority changes, in any state |
| `Kernel.Kernel.RotateReadyQueue` | asp-1.9.2-utf8/kernel/task.c:424-439 | the same for a rotation |
| `Kernel.Kernel.MakeNonWait` | asp-1.9.2-utf8/kernel/wait.h:106-127 | ends a wait, into the suspended state if suspended |
| `Kernel.Kernel.MakeWaitTmout` | asp-1.9.2-utf8/kernel/wait.c:55-69 | a timed wait registers its time event block in the union, an untimed one does not |
| `Kernel.Kernel.WaitComplete` | asp-1.9.2-utf8/kernel/wait.c:78-84 | cancels the timeout before the result code overwrites the union |
| `Kernel.Kernel.WaitTmout` | asp-1.9.2-utf8/kernel/wait.c:93-107 | a timeout ends the wait with E_TMOUT and asks for a dispatch |
| `Kernel.Kernel.WaitTmoutOk` | asp-1.9.2-utf8/kernel/wait.c:112-125 | a delay ends with E_OK |
| `Kernel.Kernel.WaitRelease` | asp-1.9.2-utf8/kernel/wait.c:134-141 | a forced release leaves the queue and cancels the timeout |
| `Kernel.Kernel.WobjQueueInsert` | asp-1.9.2-utf8/kernel/wait.c:151-160 | joins the wait queue by its attribute |
| `Kernel.Kernel.InitWaitQueue` | asp-1.9.2-utf8/kernel/wait.c:196-211 | drains a wait queue; the accumulated request covers every change of the highest-precedence task |
| `Kernel.Kernel.MutexCheckCeilpri` | asp-1.9.2-utf8/kernel/mutex.c:199-233 | false exactly if some mutex held or waited for has a ceiling below the priority |
| `Kernel.Kernel.MutexScanCeilmtx` | asp-1.9.2-utf8/kernel/mutex.c:242-257 | whether a ceiling mutex is held |
| `Kernel.Kernel.MutexCalcPriority` | asp-1.9.2-utf8/kernel/mutex.c:266-283 | the loop computes the priority rule |
| `Kernel.Kernel.MutexDropPriority` | asp-1.9.2-utf8/kernel/mutex.c:302-314 | the cached priority follows the rule when a mutex is given up |
| `Kernel.Kernel.MutexAcquire` | asp-1.9.2-utf8/kernel/mutex.c:319-328 | inserts at the front and raises, once |
| `Kernel.Kernel.MutexHandOver` | asp-1.9.2-utf8/kernel/mutex.c:335-362 | the owner changes to the first waiter, whose wait ends with E_OK |
| `Kernel.Kernel.MutexReleaseAll` | asp-1.9.2-utf8/kernel/mutex.c:371-385 | the loop empties the mutex queue |
| `Kernel.Kernel.ActTsk` | asp-1.9.2-utf8/kernel/task_manage.c:272-305 | refines the step ActTsk; what that step does is `CallEffects.ActTskEffect` |
| `Kernel.Kernel.IactTsk` | asp-1.9.2-utf8/kernel/task_manage.c:314-347 | refines the step IactTsk; what that step does is `CallEffects.IactTskEffect` |
| `Kernel.Kernel.ExtTsk` | asp-1.9.2-utf8/kernel/task_manage.c:389-440 | refines the step ExtTsk; what that step does is `MutexEffects.ExtTskEffect` |
| `Kernel.Kernel.TerTsk` | asp-1.9.2-utf8/kernel/task_manage.c:449-504 | refines the step TerTsk; what that step does is `MutexEffects.TerTskEffect` |
| `Kernel.Kernel.ChgPri` | asp-1.9.2-utf8/kernel/task_manage.c:513-556 | refines the step ChgPri, with its error codes; what that step does is `MutexEffects.ChgPriEffect` |
| `Kernel.Kernel.SlpTsk` | asp-1.9.2-utf8/kernel/task_sync.c:140-206 | refines the step SlpTsk with and without timeout; what that step does is `CallEffects.SlpTskEffect` |
| `Kernel.Kernel.WupTsk` | asp-1.9.2-utf8/kernel/task_sync.c:215-251 | refines the step WupTsk; what that step does is `CallEffects.WupTskEffect` |
| `Kernel.Kernel.IwupTsk` | asp-1.9.2-utf8/kernel/task_sync.c:260-296 | refines the step IwupTsk; what that step does is `CallEffects.IwupTskEffect` |
| `Kernel.Kernel.RelWai` | asp-1.9.2-utf8/kernel/task_sync.c:341-370 | refines the step RelWai; what that step does is `CallEffects.RelWaiEffect` |
| `Kernel.Kernel.IrelWai` | asp-1.9.2-utf8/kernel/task_sync.c:379-408 | refines the step IrelWai; what that step does is `CallEffects.IrelWaiEffect` |
| `Kernel.Kernel.SusTsk` | asp-1.9.2-utf8/kernel/task_sync.c:417-465 | refines the step SusTsk; what that step does is `CallEffects.SusTskEffect` |
| `Kernel.Kernel.RsmTsk` | asp-1.9.2-utf8/kernel/task_sync.c:474-516 | refines the step RsmTsk; what that step does is `CallEffects.RsmTskEffect` |
| `Kernel.Kernel.DlyTsk` | asp-1.9.2-utf8/kernel/task_sync.c:525-550 | refines the step DlyTsk; what that step does is `CallEffects.DlyTskEffect` |
| `Kernel.Kernel.RotRdq` | asp-1.9.2-utf8/kernel/sys_manage.c:179-200 | refines the step RotRdq; what that step does is `CallEffects.RotRdqEffect` |
| `Kernel.Kernel.IrotRdq` | asp-1.9.2-utf8/kernel/sys_manage.c:209-228 | refines the step IrotRdq; what that step does is `CallEffects.IrotRdqEffect` |
| `Kernel.Kernel.DisDsp` | asp-1.9.2-utf8/kernel/sys_manage.c:395-412 | refines the step DisDsp; the cached flag stays the conjunction of its two conditions; what that step does is `CallEffects.DisDspEffect` |
| `Kernel.Kernel.EnaDsp` | asp-1.9.2-utf8/kernel/sys_manage.c:421-443 | refines the step EnaDsp: a dispatch held back is made up for; what that step does is `CallEffects.EnaDspEffect` |
| `Kernel.Kernel.ChgIpm` | asp-1.9.2-utf8/kernel/interrupt.c:434-467 | refines the step ChgIpm; what that step does is `CallEffects.ChgIpmEffect` |
| `Kernel.Kernel.LocMtx` | asp-1.9.2-utf8/kernel/mutex.c:477-626 | refines the step LocMtx, with its error codes and all three ways of waiting; what that step does is `MutexEffects.LocMtxEffect` |
| `Kernel.Kernel.UnlMtx` | asp-1.9.2-utf8/kernel/mutex.c:635-674 | refines the step UnlMtx; what that step does is `MutexEffects.UnlMtxEffect` |
| `Kernel.Kernel.IniMtx` | asp-1.9.2-utf8/kernel/mutex.c:683-717 | refines the step IniMtx; what that step does is `MutexEffects.IniMtxEffect` |
| `Kernel.Kernel.SigSem` | asp-1.9.2-utf8/kernel/semaphore.c:266-301 | refines the step SigSem; what that step does is `CallEffects.SigSemEffect` |
| `Kernel.Kernel.IsigSem` | asp-1.9.2-utf8/kernel/semaphore.c:310-345 | refines the step IsigSem; what that step does is `CallEffects.IsigSemEffect` |
| `Kernel.Kernel.WaiSem` | asp-1.9.2-utf8/kernel/semaphore.c:354-467 | refines the step WaiSem in its three forms; what that step does is `CallEffects.WaiSemEffect` |
| `Kernel.Kernel.IniSem` | asp-1.9.2-utf8/kernel/semaphore.c:476-505 | refines the step IniSem; what that step does is `CallEffects.IniSemEffect` |
| `Kernel.Kernel.WaitOther` | asp-1.9.2-utf8/kernel/wait.c:167-187 | refines the step WaitOther: a task waits for a flag, data queue or pool, with and without timeout; what that step does is `CallEffects.WaitOtherEffect` |
| `Kernel.Kernel.WakeOther` | asp-1.9.2-utf8/kernel/wait.c:78-84 | refines the step WakeOther: the released tasks and one dispatch for all of them; what that step does is `CallEffects.WakeOtherEffect` |
| `Kernel.Kernel.IwakeOther` | asp-1.9.2-utf8/kernel/wait.c:78-84 | refines the step IwakeOther, from a handler; what that step does is `CallEffects.IwakeOtherEffect` |
| `Kernel.Kernel.IniOther` | asp-1.9.2-utf8/kernel/wait.c:196-211 | refines the step IniOther: all its waiters released; what that step does is `CallEffects.IniOtherEffect` |
| `Kernel.Kernel.StaCyc` | asp-1.9.2-utf8/kernel/cyclic.c:270-300 | refines the step StaCyc: a started handler starts anew; what that step does is `CallEffects.StaCycEffect` |
| `Kernel.Kernel.StpCyc` | asp-1.9.2-utf8/kernel/cyclic.c:309-336 | refines the step StpCyc; what that step does is `CallEffects.StpCycEffect` |
| `Kernel.Kernel.CallCychdr` | asp-1.9.2-utf8/kernel/cyclic.c:384-412 | re-armed one period after the time that was due, on wrapped times |
| `Kernel.Kernel.StaAlm` | asp-1.9.2-utf8/kernel/alarm.c:258-331 | refines the step StaAlm from tasks and from handlers; what that step does is `CallEffects.StaAlmEffect` |
| `Kernel.Kernel.StpAlm` | asp-1.9.2-utf8/kernel/alarm.c:340-403 | refines the step StpAlm; what that step does is `CallEffects.StpAlmEffect` |
| `Kernel.Kernel.CallAlmhdr` | asp-1.9.2-utf8/kernel/alarm.c:451-475 | a fired alarm is stopped |
| `Kernel.Kernel.IntExit` | asp-1.9.2-utf8/arch/arm_gcc/common/core_support.S:360-400 | the exit of the outermost handler makes up for every dispatch asked for; what that step does is `CallEffects.IntExitEffect` |
| `Kernel.Kernel.SignalTime` | asp-1.9.2-utf8/kernel/time_event.c:351-397 | one tick: a run of the kernel that begins a tick, fires everything due by single steps, with any permitted calls of handlers and interrupts after each of them, and ends it, keeping the invariant; the loop terminates |
| `MemPool.BlockCount` | asp-1.9.2-utf8/kernel/mempfix.c:181-198 | used cells are exactly those free and those owned, once each |
| `MemPool.Mpf.NothingLost` | asp-1.9.2-utf8/kernel/mempfix.c:181-512 | free blocks + owned blocks == blocks of the pool |
| `MemPool.Mpf.GetMpfBlock` | asp-1.9.2-utf8/kernel/mempfix.c:181-198 | a block nobody owns |
| `MemPool.Mpf.GetMpf` | asp-1.9.2-utf8/kernel/mempfix.c:336-455 | a block at once if there is one; waiting only if there is none, in a queue that holds a task once and stays sorted |
| `MemPool.Mpf.RelMpf` | asp-1.9.2-utf8/kernel/mempfix.c:464-512 | accepts exactly the addresses of allocated blocks; the block goes to the first waiter or back to the pool |
| `MemPool.Mpf.IniMpf` | asp-1.9.2-utf8/kernel/mempfix.c:521-552 | everything free again |
| `MemPool.Mpf.FindBlock` | asp-1.9.2-utf8/kernel/mempfix.c:483-489 | an address is accepted exactly if it is that of an allocated block, and which one |
| `MemPool.Mpf.ChangePriority` | asp-1.9.2-utf8/kernel/wait.h:271-278 | a waiter whose priority changes is queued anew; the queue stays sorted and its other members keep their order |
| `PriDataQueue.InsertKeepsSorted` | asp-1.9.2-utf8/kernel/pridataq.c:201-229 | the buffer stays sorted by data priority |
| `PriDataQueue.InsertIsFifo` | asp-1.9.2-utf8/kernel/pridataq.c:201-229 | first in, first out within one priority |
| `PriDataQueue.Pdq.EnqueuePridata` | asp-1.9.2-utf8/kernel/pridataq.c:201-229 | a cell inside the area is linked in behind the equals; data list and free list partition the used cells |
| `PriDataQueue.Pdq.DequeuePridata` | asp-1.9.2-utf8/kernel/pridataq.c:238-252 | takes the first datum |
| `PriDataQueue.Pdq.SendPridata` | asp-1.9.2-utf8/kernel/pridataq.c:261-281 | to the first waiting receiver, which gets this datum, else into the buffer, else not at all |
| `PriDataQueue.Pdq.ReceivePridata` | asp-1.9.2-utf8/kernel/pridataq.c:290-322 | remove the first, then insert the datum of the first waiting sender |
| `PriDataQueue.Pdq.SndPdq` | asp-1.9.2-utf8/kernel/pridataq.c:443-624 | the sending calls with their error codes; a woken receiver gets the datum sent |
| `PriDataQueue.Pdq.RcvPdq` | asp-1.9.2-utf8/kernel/pridataq.c:633-768 | the receiving calls |
| `PriDataQueue.Pdq.IniPdq` | asp-1.9.2-utf8/kernel/pridataq.c:777-812 | empty again; everyone waiting is told |
| `PriDataQueue.Pdq.ChangePriority` | asp-1.9.2-utf8/kernel/wait.h:271-278 | a waiting sender whose priority changes is queued anew with its datum; the queue stays sorted |
| `DataQueue.Dtq.EnqueueData` | asp-1.9.2-utf8/kernel/dataqueue.c:215-224 | the ring gains a last element |
| `DataQueue.Dtq.ForceEnqueueData` | asp-1.9.2-utf8/kernel/dataqueue.c:233-247 | a full ring loses its oldest element |
| `DataQueue.Dtq.DequeueData` | asp-1.9.2-utf8/kernel/dataqueue.c:256-265 | the ring loses its first element |
| `DataQueue.Dtq.SendData` | asp-1.9.2-utf8/kernel/dataqueue.c:274-293 | appends to the one sequence of everything pending, or hands this datum to a waiting receiver |
| `DataQueue.Dtq.ReceiveData` | asp-1.9.2-utf8/kernel/dataqueue.c:325-353 | takes the head of everything pending, whether it is in the ring or with a waiting sender; capacity 0 included |
| `DataQueue.Dtq.SndDtq` | asp-1.9.2-utf8/kernel/dataqueue.c:471-634 | the sending calls; a woken receiver gets the datum sent |
| `DataQueue.Dtq.FsndDtq` | asp-1.9.2-utf8/kernel/dataqueue.c:302-316 | forced sending: to a receiver, which gets this datum, or replaces the oldest; refused at capacity 0 |
| `DataQueue.Dtq.RcvDtq` | asp-1.9.2-utf8/kernel/dataqueue.c:719-852 | the receiving calls |
| `DataQueue.Dtq.IniDtq` | asp-1.9.2-utf8/kernel/dataqueue.c:861-895 | nothing pending any more; everyone waiting is told |
| `DataQueue.Dtq.ChangePriority` | asp-1.9.2-utf8/kernel/wait.h:271-278 | a waiting sender whose priority changes is queued anew with its datum; the queue stays sorted |
| `WaitList.JoinIsEnqueued` | asp-1.9.2-utf8/kernel/wait.c:151-160 | waiters with their data stand in the order in which the kernel queues tasks |
| `WaitList.EnqueuedOk` | asp-1.9.2-utf8/kernel/wait.c:151-160 | joining keeps a queue sorted by priority if it is TA_TPRI, and each task in it once |
| `WaitList.EnqueuedAt` | asp-1.9.2-utf8/kernel/wait.h:59-74 | where a task joins: behind every task of the same or a higher priority and before every lower one, or last |
| `WaitList.RequeuedAt` | asp-1.9.2-utf8/kernel/wait.h:271-278 | where a task is after its priority has changed; a queue not ordered by priority stays as it is |
| `WaitList.RejoinIsRequeued` | asp-1.9.2-utf8/kernel/wait.h:271-278 | waiters with their data are moved as the kernel moves tasks |
| `WaitList.RequeuedOk` | asp-1.9.2-utf8/kernel/wait.h:271-278 | after a priority change, moving the task makes the queue sorted by the new priorities; it has the same members |
| `EventFlag.Flg.Scan` | asp-1.9.2-utf8/kernel/eventflag.c:314-330 | one pass that deletes while it walks releases, without TA_CLR, everyone whose condition holds, in order, and with it exactly the first; each gets the pattern the flag had |
| `EventFlag.PassedLeavesUnmet` | asp-1.9.2-utf8/kernel/eventflag.c:293-339 | after a pass nobody is left waiting whose condition holds |
| `EventFlag.NoneMetIsUnmet` | asp-1.9.2-utf8/kernel/eventflag.c:188-200 | released and kept tasks partition the queue by whether their condition holds |
| `EventFlag.MetSplits` | asp-1.9.2-utf8/kernel/eventflag.c:314-330 | released and kept tasks are in the order of the queue |
| `EventFlag.HoldsBits` | asp-1.9.2-utf8/kernel/eventflag.c:188-200 | TWF_ANDW asks for all the bits waited for, TWF_ORW for one of them |
| `EventFlag.Flg.CheckFlgCond` | asp-1.9.2-utf8/kernel/eventflag.c:188-200 | the release condition and the clearing |
| `EventFlag.Flg.SetFlg` | asp-1.9.2-utf8/kernel/eventflag.c:293-339 | no waiter is left whose condition holds; each released task is given the pattern at its release: the old one with the new bits |
| `EventFlag.Flg.ClrFlg` | asp-1.9.2-utf8/kernel/eventflag.c:400-424 | clearing bits makes no condition true |
| `EventFlag.Flg.WaiFlg` | asp-1.9.2-utf8/kernel/eventflag.c:433-571 | the waiting calls; without TA_WMUL at most one task waits; the queue holds a task once and stays sorted |
| `EventFlag.Flg.IniFlg` | asp-1.9.2-utf8/kernel/eventflag.c:580-609 | the initial pattern; everyone waiting is told |
| `EventFlag.Flg.ChangePriority` | asp-1.9.2-utf8/kernel/wait.h:271-278 | a waiter whose priority changes is queued anew with its condition, still unmet; the queue stays sorted |
| `Serial.IrdySndKeeps` | asp-1.9.2-utf8/syssvc/serial.c:658-691 | the send semaphore is signalled exactly when a full buffer stops being full |
| `Serial.IrdyRcvKeeps` | asp-1.9.2-utf8/syssvc/serial.c:696-764 | the semaphores are signalled exactly when the send buffer stops being full and the receive buffer stops being empty; nothing is lost or reordered |
| `Serial.WriChrKeeps` | asp-1.9.2-utf8/syssvc/serial.c:410-456 | the result is true exactly when the buffer has become full |
| `Serial.ReaChrKeeps` | asp-1.9.2-utf8/syssvc/serial.c:506-538 | what has been stored is what has been read and what is still there |
| `Serial.Spcb.SerialWriChr` | asp-1.9.2-utf8/syssvc/serial.c:410-456 | refines writing one character on the ring buffer |
| `Serial.Spcb.SerialReaChr` | asp-1.9.2-utf8/syssvc/serial.c:506-538 | refines reading one character, with the request to go on sending |
| `Serial.Spcb.SioIrdySnd` | asp-1.9.2-utf8/syssvc/serial.c:658-691 | refines the send callback |
| `Serial.Spcb.SioIrdyRcv` | asp-1.9.2-utf8/syssvc/serial.c:696-764 | refines the receive callback with flow control in both directions |
| `FlowControl.ReceivedEffect` | asp-1.9.2-utf8/syssvc/serial.c:696-764 | STOP stops sending, START or with IOCTL_FCANY any character resumes it; the first buffered character goes with the resumption if the device takes it; exactly data is stored, while there is room; START and STOP for a port that heeds them never are |
| `FlowControl.StoppedIsSilent` | asp-1.9.2-utf8/syssvc/serial.c:658-691 | nothing but such a character stops or resumes sending, and while it is stopped no data goes to the device |
| `FlowControl.WrittenEffect` | asp-1.9.2-utf8/syssvc/serial.c:432-450 | a character goes straight to a device that takes it if nothing is in front, else to the end of the buffer |
| `FlowControl.CallbackEffect` | asp-1.9.2-utf8/syssvc/serial.c:658-691 | a pending START or STOP first, then data unless stopped; with nothing to send the callback is disabled |
| `FlowControl.ReadEffect` | asp-1.9.2-utf8/syssvc/serial.c:522-531 | START is sent exactly when the peer was stopped and the buffer has emptied to a half |
| `FlowControl.StopEffect` | asp-1.9.2-utf8/syssvc/serial.c:752-762 | STOP is sent exactly when reception is controlled and the buffer has filled to three quarters |
| `FlowControl.AgreementKept` | asp-1.9.2-utf8/syssvc/serial.c:522-531 | what the peer was told last is what rcv_stopped says; of all steps exactly those break that in which one of START and STOP goes to the device at once while the other still waits for it |
| `FlowControl.GoingKept` | asp-1.9.2-utf8/syssvc/serial.c:710-728 | while there is something to send the callback is enabled; of all steps exactly those break that in which sending resumes with one of several characters taken at once and the callback disabled |
| `FlowControl.FlowKept` | asp-1.9.2-utf8/syssvc/serial.c:395-764 | over every run from the opening of a port: both hold at every moment if and only if the run has no such step |
| `FlowControl.StartStrandsCharacters` | asp-1.9.2-utf8/syssvc/serial.c:710-728 | such a run: START comes in, one character goes out, the next stays in the buffer with nothing to send it |
| `FlowControl.StrandedStays` | asp-1.9.2-utf8/syssvc/serial.c:432-450 | writing more does not help |
| `FlowControl.StartOvertakesStop` | asp-1.9.2-utf8/syssvc/serial.c:522-531 | such a run: START and STOP go out in the wrong order, and the peer stays stopped |
| `FlowControl.WriteTakesNext` | asp-1.9.2-utf8/syssvc/serial.c:410-456 | a write step takes the next character, with a carriage return before a line feed if IOCTL_CRLF is set |
| `FlowControl.WriterInOrder` | asp-1.9.2-utf8/syssvc/serial.c:461-501 | over any run within a call: what has been accepted of a writer and what it still has to write make up its data, in order, whatever others do |
| `FlowControl.ReadTakesNext` | asp-1.9.2-utf8/syssvc/serial.c:543-598 | a read step takes the oldest stored character, and with echo the task writes that one |
| `SerialRuns.StepOk` | asp-1.9.2-utf8/syssvc/serial.c:410-764 | every step of any writer, reader or callback keeps the number of tokens and all queues in order, wherever priorities place a waiter and whenever they move it |
| `SerialRuns.SendSide` | asp-1.9.2-utf8/syssvc/serial.c:461-501 | under every interleaving and every order of serving waiters: one send token; the buffer never overruns, no semaphore overflows, characters leave in the order in which they were accepted; a task waits only while another has the token or the buffer is full |
| `SerialRuns.ReceiveSide` | asp-1.9.2-utf8/syssvc/serial.c:543-598 | the dual, which holds if and only if no abort hits the wait of an echo whose reader has the receive token; else the token is gone for good |
| `SerialRuns.LostExactly` | asp-1.9.2-utf8/syssvc/serial.c:581-589 | tokens are lost exactly by such aborts |
| `SerialRuns.EchoAbortLosesToken` | asp-1.9.2-utf8/syssvc/serial.c:581-589 | a concrete run from the port as it is opened, with echo on, that loses the receive token |

## Left out

- `KernelState`: task and object tables are sequences of records, so aliasing of control blocks is only in `Queue`
  and `TimeEvent`; the two levels of queue are tied by `Queue`'s contracts, which use the same sequence functions.
- `TimeEvent.TimeEventHeap`: time event blocks are names with a map to their heap index; the callback and its
  argument are what the name stands for.
- `Kernel.Kernel.CallCychdr`: the copy of the time in CYCCB is not a field of its own; the time of the deleted node is used.
- `Kernel.Kernel.ChgIpm`: does not call `call_texrtn`, since task exceptions are not modelled.
- `Kernel.Kernel.IntExit`: does not check for a task exception after the dispatch (`ret_int_4`), for the same reason.
- `Kernel.Kernel.constructor`: stops before the first activation; `Kernel.Kernel.StartUp` does the rest.
- `KernelTiming.DelayAccuracy`: supposes that the delay fires; that it does is `KernelTiming.DelayEnds`.
- Delivery of the result of a wait: a blocked call returns `Blocked`; the code it later returns is the
  result in its WINFO.
- The task's context switch, stack and register save; an idle processor is a state in which no task runs.
- Nested interrupts: one level of interrupt context is modelled; calls of nested handlers are steps in it.
- CPU lock calls, task exceptions (also the call of `call_texrtn` in `chg_ipm`), interrupt service routines.
- Checks of context and ids in `check.h`, E_NOEXS, and calls that may wait while dispatching is disabled: preconditions.
- `KernelCalls.LocMtx`: `loc_mtx`, `ploc_mtx` and `tloc_mtx` are one call with a timeout; so are the forms of the
  other waiting calls.
- Creating and deleting objects (`acre_*`, `del_*`, free control blocks); hence also `del_mtx` on a locked mutex.
- `can_act`, `can_wup`, the `get_*`, `ref_*` and `sns_*` calls: they read, or clear one flag.
- `iset_flg`, `ifsnd_dtq`, `ipsnd_dtq`, `ipsnd_pdq`: they differ from the task forms only in how the dispatch is requested.
- `MemPool`, `PriDataQueue`, `DataQueue`, `EventFlag`: each has its wait queues and the priorities it sorts them by as
  fields of its own, and a task woken is a result of the method. The same queues as part of the system, with task
  states, timeouts and priority changes, are the generic objects of `KernelState`; the two are not joined in one state.
- Mailboxes, system log, histogram, `get_utm`: no harder than what is here.
- `Serial`: the UART is a flag saying whether it takes a character; `serial_opn_por` is the initial state;
  `serial_cls_por` during a transfer, `serial_get_chr` and termination of a task inside the driver are not modelled.
- `SerialRuns`: the driver's semaphores are modelled in the run itself as counts with queues, maximum 1.
