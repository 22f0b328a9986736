# Verified models of the UCX/OS ARINC 653 kernel

The kernel runs partitions in a fixed cycle of windows, and inside each partition schedules
processes by priority under the services of section 3 of ARINC 653 Part 1. This project models its
stateful cores and proves what they promise. `dafny verify dfyconfig.toml` checks everything.

**One partition.** `Apex` holds the state: the process list, the wait queues of all objects with
their WAITING_PROCESSES counters, mutexes, semaphores, events, blackboards and buffers. `Services`
gives every service as one step, cut where the C code yields, and `Event` names the 27 kinds of
step. `Invariant`, `Protocol` and `Exact` prove what each step keeps; `Runs` puts steps together
into arbitrary interleavings. On top of that stand `Priorities` (nominal priorities),
`PreemptionLock` and `LockHolder` (the lock really locks), `Conservation` (buffers),
`Communication` (semaphores, events, blackboards), `ReturnCodes` (what a blocked caller returns),
`RoundRobin` (TIMED_WAIT(0)) and `ReleasePoints` (periodic processes); `Timing` and `Bystanders` say
what the steps of others leave alone. `Counterexamples` holds reachable states in which the code
breaks one of these promises. `Codes` gives for every service the exact condition of every return
code, `Effects` what each code does to the partition and that nothing else changes, both without
naming the step, and `WaitingOrder` who is served first over whole runs. `Partition` is the partition
as an object whose fields the services update in place: every service keeps it valid, returns what
`Codes` says and does what `Effects` says. `BufferStore` is the byte array
behind the buffers, and `StoredBuffers` proves that over whole runs it holds what `Conservation`
counts.

**The rest.** `ModuleScheduler` is the window walker and the first release point;
`WeightedScheduler` the native round robin of tasks; `Allocator` the first-fit heap; `SoftFloat`
and `IntegerArithmetic` the software arithmetic; `LinkedList` and `RingQueue` the data structures
and the kernel semaphore. `Sequences`, `Arithmetic` and `Bits` hold shared facts.

## How to read the claims

- A *good* state satisfies `Invariant.Inv`: the process list has no duplicates; at most the current
  process is RUNNING; queued processes are WAITING and stand in one place of one queue; a waiting
  pointer names the object whose queue holds the process; counters equal queue lengths; an OWNED
  mutex has one owner that names it, can run, and runs at the ceiling, with 1 to 16 locks; nobody
  waits for what is available; semaphore and buffer bounds hold.
- The wish that every run stays good is false of the code. `Runs.StepExact` says exactly when a step
  keeps it: the conditions `StopSafe`, `ResumeSafe` and `TickSafe` are tests on the state before the
  call. Where a theorem speaks of a *safe* run, each of its events meets that condition.
- Three places where the code does not do what its comments announce: the time-out check
  (arinc/arinc_time.c:39-40) declares the removal function instead of calling it, so an expired
  waiter stays queued; RESUME (arinc/arinc_process.c:382-385) tests a time counter it has just
  cleared; `__divsf3` (arch/common/ieee754.c:246-247) returns the numbers 2^32 and 2^31 where it
  announces NaN. The model follows the code.
- History fields (`initial`, `signals`, `grants` of a semaphore; `sent`, `delivered`, `withdrawn` of
  a buffer) are kept by the model only; `HistoryIsRun` and `SemaphoreLaw` tie them to the calls.
- A blocked caller that is served finds its message, unit or mutex, but need not return NO_ERROR: a
  RESUME between service and dispatch clears the time counter that the service then reads as a
  time-out. *Delivered* and *granted* therefore mean handed to the process; `ReturnCodes.ReturnedCode`
  says exactly when it also returns NO_ERROR.
- Environment: the time of a clock update, the first release point passed to START, partition modes
  and idle signals are parameters of the steps. Time, ticks and counters are unbounded integers; the
  16-, 32- and 64-bit words of the allocator, the weighted scheduler, the ring queue and the
  arithmetic wrap explicitly.
- The partition is in NORMAL mode, has no error handler process, and no process has a real-time
  priority word. A process and its list node are identified, so the services' updates of
  process_current after relinking leave the current process the same.

## Model

| member | source | states |
|---|---|---|
| Runs.StepExact | kernel/mutex.c:8-155 | from a good state, each of the 27 kinds of step (every service, process_schedule, the clock) leads to a good state if and only if it is not one of three named cases: STOP of an owner or of a waiter without its waiting pointer, RESUME of a suspended process still queued, a clock update that releases or expires a queued process |
| Runs.RunExact | include/kernel/process.h:13-17 | over any interleaving of services cut at yield_to_partition with process_schedule and the clock, every state is good exactly when every event meets its condition |
| Runs.InitialInv | arinc/arinc_process.c:128-206 | the state in which NORMAL mode starts is good: nothing owned, nobody queued, all pointers null |
| Runs.MutexGuarantees | kernel/mutex.c:45-103 | in every state of every safe run from the start of NORMAL mode: an owned mutex has exactly one process that names it and that process is its MUTEX_OWNER, with 1 to 16 locks, able to run, at the ceiling; waiters own nothing; every chain of processes waiting for one another ends after one step, so no wait cycle exists |
| Runs.OwnerNeverStuck | kernel/process.c:92-119 | while a mutex is owned, process_schedule finds a process at least as urgent as its ceiling, so a mutex cannot stop the partition |
| Runs.AliveNeverStuck | kernel/process.c:92-119 | if some process is READY or RUNNING, the next dispatch selects a process of at least its priority |
| Runs.NoLostWakeups | arinc/arinc_intrapartition_communication.c:158-269 | in every state of every safe run from the start of NORMAL mode: semaphore value above 0, event UP, blackboard OCCUPIED, mutex AVAILABLE, ring not empty, ring not full: each implies that nobody waits for it; WAITING_PROCESSES equals the queue lengths; the semaphore balance holds |
| Exact.SelectFirstBest | kernel/process.c:92-112 | the walk with a running maximum selects the first READY process of the highest priority, and nothing if none is READY |
| Exact.ScheduleInv | kernel/process.c:66-120 | process_schedule keeps every invariant, at most one process is RUNNING and it is the current one |
| Exact.TickExact | arinc/arinc_time.c:3-49 | a clock update keeps the invariants if and only if no queued process is released or timed out by it |
| Exact.ResumeExact | arinc/arinc_process.c:344-393 | RESUME keeps the invariants if and only if its target is not suspended and queued at once |
| Exact.StopExact | arinc/arinc_process.c:449-488 | STOP keeps the invariants if and only if its target owns no mutex and, when queued, its waiting pointer names the object |
| Exact.LeaveOne | arinc/arinc_process.c:60-126 | for a queued process with its pointer set, the five paragraphs of remove_process_from_waiting_queue amount to one departure from one queue |
| Counterexamples.StopLeavesMutex | arinc/arinc_process.c:472-479 | a reachable state in which STOP leaves a mutex owned by a DORMANT process |
| Counterexamples.StopLeavesWaiter | arinc/arinc_intrapartition_communication.c:704-714 | a reachable state in which STOP leaves a DORMANT process in a semaphore queue, because an infinite wait does not set waiting_semaphore |
| Counterexamples.ExpiryLeavesWaiter | arinc/arinc_time.c:36-46 | a reachable state in which an expired time-out makes a process READY and leaves it queued |
| Counterexamples.ResumeLeavesWaiter | arinc/arinc_process.c:376-388 | a reachable state in which RESUME makes a queued process READY |
| Counterexamples.DemotedLockerLoses | arinc/arinc_process.c:240-253 | a reachable state in which another process executes while the preemption lock is held: its owner called SET_PRIORITY on itself |
| Counterexamples.ServedButTimedOut | arinc/arinc_process.c:376-379 | a reachable state in which a process was granted its semaphore, no time has passed, and WAIT_SEMAPHORE will return TIMED_OUT: it was suspended and resumed between grant and dispatch |
| Counterexamples.TimedWaitRunsEarly | arinc/arinc_time.c:10-21 | a reachable state in which a periodic process is READY before its release point: its TIMED_WAIT was cut short with the time-out still pending |
| Protocol.AcquireInv | kernel/mutex.c:8-104 | krnl_acquire_mutex keeps all invariants on every path: grant, nesting up to 16, refusal, blocking |
| Protocol.ReleaseInv | kernel/mutex.c:106-155 | krnl_release_mutex keeps all invariants, direct hand-off to the first waiter included |
| Protocol.ResetInv | arinc/arinc_intrapartition_communication.c:1094-1175 | RESET_MUTEX keeps all invariants |
| Protocol.LockInv | arinc/arinc_process.c:654-677 | LOCK_PREEMPTION keeps all invariants |
| Protocol.UnlockInv | arinc/arinc_process.c:679-706 | UNLOCK_PREEMPTION keeps all invariants |
| Protocol.SetPriorityInv | arinc/arinc_process.c:208-255 | SET_PRIORITY keeps all invariants although it does not re-sort wait queues |
| Protocol.SuspendInv | arinc/arinc_process.c:299-341 | SUSPEND keeps all invariants: it cannot stop an owner or a mutex waiter |
| Protocol.SuspendSelfInv | arinc/arinc_process.c:257-297 | SUSPEND_SELF keeps all invariants |
| Protocol.StartInv | arinc/arinc_process.c:491-559 | START keeps all invariants: a DORMANT process is neither queued nor an owner |
| Protocol.StopSelfInv | arinc/arinc_process.c:395-447 | STOP_SELF keeps all invariants and hands its mutex over |
| Protocol.TimedWaitInv | arinc/arinc_time.c:101-143 | TIMED_WAIT keeps all invariants |
| Protocol.PeriodicWaitInv | arinc/arinc_time.c:145-176 | PERIODIC_WAIT keeps all invariants |
| Protocol.WaitSemaphoreInv | arinc/arinc_intrapartition_communication.c:675-735 | WAIT_SEMAPHORE keeps all invariants, the semaphore balance included |
| Protocol.SignalSemaphoreInv | arinc/arinc_intrapartition_communication.c:737-772 | SIGNAL_SEMAPHORE keeps all invariants, the semaphore balance included |
| Protocol.SetEventInv | arinc/arinc_intrapartition_communication.c:840-874 | SET_EVENT drains the queue and keeps all invariants |
| Protocol.ResetEventInv | arinc/arinc_intrapartition_communication.c:876-887 | RESET_EVENT keeps all invariants |
| Protocol.WaitEventInv | arinc/arinc_intrapartition_communication.c:889-938 | WAIT_EVENT keeps all invariants |
| Protocol.DisplayInv | arinc/arinc_intrapartition_communication.c:158-208 | DISPLAY_BLACKBOARD drains the queue and keeps all invariants |
| Protocol.ReadInv | arinc/arinc_intrapartition_communication.c:210-269 | READ_BLACKBOARD keeps all invariants |
| Protocol.ClearInv | arinc/arinc_intrapartition_communication.c:272-285 | CLEAR_BLACKBOARD keeps all invariants |
| Protocol.SendInv | arinc/arinc_intrapartition_communication.c:376-483 | SEND_BUFFER keeps all invariants: store, hand-off to a blocked reader, blocking |
| Protocol.ReceiveInv | arinc/arinc_intrapartition_communication.c:485-585 | RECEIVE_BUFFER keeps all invariants: fetch, refill from a blocked sender, blocking |
| Invariant.AliveNotQueued | kernel/mutex.c:71-103 | in a good state a process that is not WAITING is in no queue and has no waiting pointer |
| Invariant.SurrenderFrame | kernel/mutex.c:123-152 | giving up a mutex changes only that mutex and its queue, and the mutex stays owned while anybody waits for it |
| Priorities.NominalPreserved | kernel/mutex.c:45-57 | acquire, nested acquire, release, hand-off, RESET_MUTEX, STOP_SELF and all other steps leave every nominal priority (saved_owner_priority of an owner, else CURRENT_PRIORITY) alone; SET_PRIORITY and START change only their target's, to the given value and to BASE_PRIORITY |
| Priorities.NominalOverRun | kernel/mutex.c:123-151 | over every safe run without SET_PRIORITY or START of a process its nominal priority is the same at the end |
| Priorities.SurrenderNominal | arinc/arinc_process.c:402-440 | releasing a mutex and handing it over keeps every nominal priority |
| Priorities.SetPriorityNominal | arinc/arinc_process.c:231-238 | SET_PRIORITY gives its target exactly the requested nominal priority, owner or not, and nobody else a new one |
| PreemptionLock.LockStep | arinc/arinc_process.c:654-706 | every step but SET_PRIORITY of the lock's owner on itself keeps the owner of the preemption lock at the head of the process list and the only one to execute services |
| PreemptionLock.ScheduleSelectsLocker | kernel/process.c:66-120 | while the preemption lock is held every process_schedule selects its owner |
| PreemptionLock.LockOverRun | arinc/arinc_process.c:654-677 | the same at every point of every safe run, through any number of acquisitions and hand-offs, whatever SET_PRIORITY on others, START, signals and clock updates happen |
| LockHolder.HolderStep | kernel/mutex.c:45-57 | from any state in which a process holds the lock at the head of the list, every step of whatever kind, safe or not, keeps it there, except the last UNLOCK_PREEMPTION, STOP_SELF and SET_PRIORITY of the holder on itself |
| LockHolder.LockerKeepsProcessor | arinc/arinc_process.c:654-706 | over every run without those three, with any clock updates, expiries in queues, STOPs and RESUMEs: the lock stays with its owner, nobody else executes a service, and any dispatch selects it |
| LockHolder.ClockHolder | arinc/arinc_time.c:3-49 | no clock update takes the processor from the holder, whomever it makes READY |
| LockHolder.ScheduleSelectsHolder | kernel/process.c:66-120 | every process_schedule selects the holder, whatever the queues and mutexes of the others look like |
| LockHolder.WaitRefused | arinc/arinc_time.c:101-176 | a process that owns a mutex is refused every service that would block it |
| PreemptionLock.DemotionExact | arinc/arinc_process.c:240-253 | after SET_PRIORITY on itself the owner is selected next if and only if no other READY process has priority 239 |
| Communication.SemaphoreLaw | arinc/arinc_intrapartition_communication.c:675-772 | over any run, CURRENT_VALUE plus granted waits equals the initial value plus accepted signals, both counted from the calls |
| Communication.AsideEvent | arinc/arinc_intrapartition_communication.c:158-938 | no service of another kind touches a semaphore, an event or a blackboard |
| Communication.DisplayedIsRead | arinc/arinc_intrapartition_communication.c:158-269 | a displayed message is what any READ_BLACKBOARD call returns, without blocking, until the next display or clear |
| Communication.BlockedReaderCopies | arinc/arinc_intrapartition_communication.c:245-267 | a blocked reader that a display woke copies that message however late it resumes, even if the blackboard was cleared meanwhile, unless another message was displayed |
| Communication.BlackboardStep | arinc/arinc_intrapartition_communication.c:181-183 | the message kept is the last one displayed; clearing touches only the indicator |
| Communication.SetStaysUp | arinc/arinc_intrapartition_communication.c:840-938 | an event set stays UP until it is reset, and no WAIT_EVENT blocks meanwhile |
| ReturnCodes.ReturnedCode | arinc/arinc_intrapartition_communication.c:725-733 | over every safe run from a call that blocks with a time-out to the caller's next dispatch: the caller was served, and it returns NO_ERROR if and only if no RESUME found it suspended between service and dispatch; otherwise TIMED_OUT |
| ReturnCodes.ServedOnly | arinc/arinc_intrapartition_communication.c:158-772 | whoever leaves a wait queue, other than by STOP, got what it waited for in that step: the mutex, a unit of the semaphore, the raised event, the displayed message, the sent message, a place in the ring for its own |
| ReturnCodes.TimedOutExactly | arinc/arinc_intrapartition_communication.c:725-733 | over any run whatsoever a waiting caller returns TIMED_OUT if and only if an expiry, a RESUME of the suspended caller or a STOP zeroed its time counter |
| ReturnCodes.WaitEndsExactly | arinc/arinc_intrapartition_communication.c:715-733 | over any run during which a caller goes on waiting, a clock update makes it READY if and only if the time of its call plus its time-out has come, or the release point of a periodic process or start of a delayed one; SUSPEND_SELF and TIMED_WAIT included |
| ReturnCodes.ArmedUntil | kernel/mutex.c:91-96 | a caller that waits with a time-out has the present time plus the time-out in its time counter |
| ReturnCodes.TimerStays | arinc/arinc_time.c:32-49 | the time counter of a process does not change while it goes on waiting |
| ReturnCodes.ParkArms | arinc/arinc_intrapartition_communication.c:715-724 | a caller that blocks with a time-out stands in a queue with its time counter running |
| Conservation.BufferConservation | arinc/arinc_intrapartition_communication.c:376-585 | over every safe run each message sent is handed to a reader, in the ring, held by a blocked sender or withdrawn with a stopped one, exactly once; with FIFO queues the order is that of the calls, and without withdrawals delivered ++ ring ++ blocked is the sequence sent |
| Conservation.FifoDelivery | arinc/arinc_intrapartition_communication.c:376-585 | the same in terms of calls: the messages handed to readers, then the ring, then the blocked senders' messages are what SEND_BUFFER accepted or blocked, in order; a reader that had to wait also returns NO_ERROR exactly as ReturnCodes.ReturnedCode says |
| Conservation.HistoryIsRun | arinc/arinc_intrapartition_communication.c:410-433 | the histories the model keeps are exactly the accepted SEND_BUFFER calls and the messages handed to readers, that is returned by RECEIVE_BUFFER or put into a blocked reader's record |
| Conservation.TrafficStep | arinc/arinc_intrapartition_communication.c:376-585 | every kind of step keeps the ledger of every buffer |
| Conservation.SendTraffic | arinc/arinc_intrapartition_communication.c:410-482 | SEND_BUFFER enters its message into the ledger on each path: ring, blocked reader, blocked sender |
| Conservation.ReceiveTraffic | arinc/arinc_intrapartition_communication.c:510-536 | RECEIVE_BUFFER takes the oldest message and refills from the first blocked sender without changing the ledger |
| Conservation.StopTraffic | arinc/arinc_process.c:81-95 | STOP of a blocked sender withdraws exactly its message |
| BufferStore.StoredRing | arinc/arinc_intrapartition_communication.c:412-416 | storing at write_index appends to that ring and changes no other buffer's contents, across index wrap-around |
| BufferStore.DrainedRing | arinc/arinc_intrapartition_communication.c:511-515 | advancing read_index removes the oldest message of that ring and changes no other |
| BufferStore.SlotsApart | arinc/arinc_intrapartition_communication.c:391-392 | slots of different buffers, and different slots of one buffer, share no byte and no size entry |
| BufferStore.SharedEntryExact | arinc/arinc_intrapartition_communication.c:391-392 | two buffers share a size entry if and only if their ranges index * MAX_NB_MESSAGE overlap |
| BufferStore.SameCountApart | arinc/arinc_intrapartition_communication.c:391-392 | buffers with the same MAX_NB_MESSAGE never share a size entry |
| BufferStore.DifferentCountsCollide | arinc/arinc_intrapartition_communication.c:391-392 | a first buffer of two messages and a second of one keep the size where the first writes next and the second reads next in the same entry |
| BufferStore.NotApartClobbers | arinc/arinc_intrapartition_communication.c:412-416 | any two buffers whose entries overlap have two slots such that storing a message in the one cuts a longer message waiting in the other to its own length |
| BufferStore.PutRing | arinc/arinc_intrapartition_communication.c:412-416 | a store appends to a ring with room and keeps limits and other rings |
| BufferStore.TakeRing | arinc/arinc_intrapartition_communication.c:511-515 | a fetch reads the oldest message and removes it |
| BufferStore.Buffers.Put | arinc/arinc_intrapartition_communication.c:412-416 | the in-place store writes the bytes at index * max_buffer_data_size + write_index * MAX_MESSAGE_SIZE and the length at index * MAX_NB_MESSAGE + write_index, advances write_index cyclically, appends to its ring and keeps every other ring |
| BufferStore.Buffers.Get | arinc/arinc_intrapartition_communication.c:511-515 | the in-place fetch returns the bytes at read_index, which are the oldest message, advances read_index cyclically and keeps every other ring |
| BufferStore.Buffers.constructor | arinc/arinc_intrapartition_communication.c:319-374 | fresh buffers are empty and keep the layout invariant |
| StoredBuffers.ArraysConserve | arinc/arinc_intrapartition_communication.c:376-585 | over every safe run the slots of the byte and size arrays, index wrap-around included, hold exactly the rings; so messages handed over, then those in the arrays, then those of blocked senders are the messages accepted, in order for FIFO, and none is lost or invented |
| StoredBuffers.HoldsStep | arinc/arinc_intrapartition_communication.c:410-536 | each step does to the arrays what it does to the rings: store, fetch, refill by an unblocked sender, or nothing |
| StoredBuffers.FetchHolds | arinc/arinc_intrapartition_communication.c:510-536 | the bytes RECEIVE_BUFFER copies are the oldest message, and the refill fits its slot |
| StoredBuffers.PendingSized | arinc/arinc_intrapartition_communication.c:394-402 | a blocked sender's message passed the length checks when it was sent |
| StoredBuffers.Find | arinc/arinc_intrapartition_communication.c:33-41 | the position found holds the identifier, and -1 means that none does |
| RoundRobin.RoundRobinExact | arinc/arinc_time.c:126-136 | with n READY processes at the top priority, selection number k runs process k mod n of their line, for every k |
| RoundRobin.RoundRobinOverRun | arinc/arinc_time.c:126-136 | over every run of dispatches, TIMED_WAIT(0) calls and clock updates that wake nobody, in any order: after k calls the next dispatch runs process k mod n of the line |
| RoundRobin.OncePerRound | kernel/process.c:92-119 | any n consecutive selections run each of the n processes exactly once |
| RoundRobin.TurnRotates | lib/list.c:80-99 | TIMED_WAIT(0) moves the caller to the end of the line of its priority and nobody else |
| RoundRobin.RedispatchKeepsTurn | kernel/process.c:78-83 | a dispatch without TIMED_WAIT(0) selects the same process again |
| ReleasePoints.NoDrift | arinc/arinc_time.c:170-172 | after any run with k successful PERIODIC_WAITs the release point is first + k * PERIOD, and the deadline is the release point plus TIME_CAPACITY (or infinite) |
| ReleasePoints.NeverEarly | arinc/arinc_time.c:3-30 | over every safe run with any number of waits, a process that blocks only through PERIODIC_WAIT is not READY in any state before its release point |
| ReleasePoints.PeriodicPace | arinc/arinc_time.c:145-176 | both together: after k waits it can run only from first + k * PERIOD on, with the deadline of that release point |
| ReleasePoints.EarlyExact | arinc/arinc_time.c:10-46 | some clock update before the release point makes a waiting periodic process READY if and only if a time-out is pending that ends before it |
| ReleasePoints.ReleasedExactly | arinc/arinc_time.c:10-21 | a clock update makes a process that waits for its release point READY if and only if that point or a pending time-out has come |
| Bystanders.ServiceBeside | arinc/arinc_time.c:145-176 | no service of another process but SUSPEND, RESUME, START and STOP of it changes more than the priority of a process that stands in no queue |
| ReleasePoints.WaitRests | arinc/arinc_time.c:145-176 | PERIODIC_WAIT adds one period to the last release point, however late it is called, and its caller then waits for that point alone if and only if no time-out is pending |
| ReleasePoints.StartRests | arinc/arinc_process.c:541-550 | START of a periodic process makes it wait for the first release point, with its deadline from there, and for that alone if and only if no time-out is pending |
| ModuleScheduler.Scheduler.FirstReleasePoint | arinc/arinc_time.c:74-99 | the result is the earliest release time, in milliseconds, of a periodic-start window of the partition from the current window on, and there is none exactly when the partition has no such window |
| ModuleScheduler.ReleaseOrder | arinc/arinc_time.c:84-96 | release times follow the cyclic order of windows |
| PartitionObject.Partition.InsertSorted | lib/list.c:284-296 | list_insert_sorted puts a process behind everybody at least as urgent and before the first one of strictly lower priority |
| PartitionObject.Partition.Park | kernel/mutex.c:71-103 | blocking: the caller is WAITING in its place of the queue, last in a FIFO queue and by priority in a PRIORITY queue; its time counter is the present time plus the time-out, or unchanged for an infinite one; its pointer is set if asked for; nothing else changes |
| PartitionObject.Partition.DrainQueue | arinc/arinc_intrapartition_communication.c:185-202 | the draining loop leaves the queue empty and everybody who stood in it READY, pointer cleared and time-out cancelled |
| PartitionObject.Partition.AcquireKernelMutex | kernel/mutex.c:8-104 | keeps the partition valid; the exact condition of each code: refusal to an owner of another mutex and above the ceiling, nesting up to 16, NOT_AVAILABLE exactly for a poll of a taken mutex; on success the caller owns it at the ceiling and the head of the list with its priority saved; otherwise it waits in its place of the FIFO or PRIORITY queue until now + time-out |
| PartitionObject.Partition.ReleaseKernelMutex | kernel/mutex.c:106-155 | keeps the partition valid; NO_ERROR exactly for the owner; the last release leaves the caller at its nominal priority and makes the process that waits first the READY owner at the ceiling and the head of the list, or the mutex AVAILABLE; an inner one only counts down; nothing else changes |
| PartitionObject.Partition.AcquireMutexService | arinc/arinc_intrapartition_communication.c:1070-1081 | the preemption lock is refused without effect; any other mutex is acquired with those codes and effects |
| PartitionObject.Partition.ReleaseMutexService | arinc/arinc_intrapartition_communication.c:1083-1092 | the preemption lock is refused without effect; any other mutex is given back with those codes and effects |
| PartitionObject.Partition.ResetMutexService | arinc/arinc_intrapartition_communication.c:1094-1175 | keeps the partition valid; NO_ERROR exactly for the owner itself, at any lock count, and the mutex then passes on as by a last release |
| PartitionObject.Partition.LockPreemptionService | arinc/arinc_process.c:654-677 | keeps the partition valid; codes and effects of acquiring the lock without a time-out, and unless the caller waits LOCK_LEVEL is then the lock count |
| PartitionObject.Partition.UnlockPreemptionService | arinc/arinc_process.c:679-706 | keeps the partition valid; NO_ACTION exactly at level 0, NO_ERROR exactly for the owner above it; the last unlock passes the lock on, an inner one leaves LOCK_LEVEL the lock count |
| PartitionObject.Partition.SetPriorityService | arinc/arinc_process.c:208-255 | keeps the partition valid; NO_ERROR exactly for a started process and a priority from 1 to 239; the target's nominal priority is then the one given, in the mutex it owns or in its record, nobody else's moved, and a target that can run goes to the end of the list |
| PartitionObject.Partition.SuspendSelfService | arinc/arinc_process.c:257-297 | keeps the partition valid; refused exactly to owners, periodic processes and bad time-outs; otherwise the caller sleeps until now + time-out or for ever |
| PartitionObject.Partition.SuspendService | arinc/arinc_process.c:299-341 | keeps the partition valid; NO_ERROR exactly for another started aperiodic process without fault that neither owns nor awaits a mutex and is not suspended; it is then suspended and WAITING |
| PartitionObject.Partition.ResumeService | arinc/arinc_process.c:344-393 | keeps the partition valid if and only if the target is not suspended and queued at once; NO_ERROR exactly for another suspended or faulted process, which is then READY with its time-out cleared |
| PartitionObject.Partition.StopSelfService | arinc/arinc_process.c:395-447 | keeps the partition valid; the caller is DORMANT without deadline and time-out and owns nothing; its mutex has passed on as by a last release, and with the preemption lock LOCK_LEVEL is 0 |
| PartitionObject.Partition.StopService | arinc/arinc_process.c:449-488 | keeps the partition valid if and only if the target owns no mutex and, when queued, points at its object; the exact codes; the target is DORMANT and has left the queue of the object it points at, the others keeping their order, with its message if it was sending |
| PartitionObject.Partition.StartService | arinc/arinc_process.c:491-559 | keeps the partition valid; NO_ERROR exactly for a DORMANT process whose TIME_CAPACITY ends in representable time; it is READY, or waits for the given release point, at BASE_PRIORITY with the deadline from there |
| PartitionObject.Partition.TimedWaitService | arinc/arinc_time.c:101-143 | keeps the partition valid; refused exactly to owners and bad or infinite delays; the caller waits until now + delay, or stands READY at the end of the list for delay 0 |
| PartitionObject.Partition.PeriodicWaitService | arinc/arinc_time.c:145-176 | keeps the partition valid; refused exactly to owners, aperiodic processes and release points beyond representable time; the caller waits for its last release point plus one period, with the deadline of that point |
| PartitionObject.Partition.WaitSemaphoreService | arinc/arinc_intrapartition_communication.c:675-735 | keeps the partition valid; NO_ERROR exactly if there is a unit, which is then taken; NOT_AVAILABLE exactly for a poll, INVALID_MODE exactly for an owner of a mutex; otherwise the caller waits in its place until now + time-out |
| PartitionObject.Partition.SignalSemaphoreService | arinc/arinc_intrapartition_communication.c:737-772 | keeps the partition valid; refused exactly at the maximum; the unit is stored, or handed to the process at the head of the queue, which leaves it READY |
| PartitionObject.Partition.SetEventService | arinc/arinc_intrapartition_communication.c:840-874 | keeps the partition valid; the event is UP, and everybody who waited for it is READY; nothing else changes |
| PartitionObject.Partition.ResetEventService | arinc/arinc_intrapartition_communication.c:876-887 | keeps the partition valid; the event is DOWN and nothing else changed, or the event is unknown |
| PartitionObject.Partition.WaitEventService | arinc/arinc_intrapartition_communication.c:889-938 | keeps the partition valid; NO_ERROR exactly if the event is UP, NOT_AVAILABLE exactly for a poll, INVALID_MODE exactly for an owner; otherwise the caller waits, last in line without a time-out and by priority with one |
| PartitionObject.Partition.DisplayBlackboardService | arinc/arinc_intrapartition_communication.c:158-208 | keeps the partition valid; NO_ERROR exactly for a message of 1 to MAX_MESSAGE_SIZE bytes, which is then displayed, and everybody who waited is READY |
| PartitionObject.Partition.ReadBlackboardService | arinc/arinc_intrapartition_communication.c:210-269 | keeps the partition valid; NO_ERROR exactly if a message is displayed, and that is the result; NOT_AVAILABLE exactly for a poll, INVALID_MODE exactly for an owner; otherwise the caller waits at the end of the line |
| PartitionObject.Partition.ClearBlackboardService | arinc/arinc_intrapartition_communication.c:272-285 | keeps the partition valid; the blackboard is EMPTY with its last message kept and nothing else changed, or the blackboard is unknown |
| PartitionObject.Partition.SendBufferService | arinc/arinc_intrapartition_communication.c:376-483 | keeps the partition valid; NO_ERROR exactly if there is room: the message is then last in the ring, or in the record of the reader that waits first; NOT_AVAILABLE exactly for a poll of a full buffer, INVALID_MODE exactly for an owner; otherwise the caller waits in its place with its message |
| PartitionObject.Partition.ReceiveBufferService | arinc/arinc_intrapartition_communication.c:485-585 | keeps the partition valid; NO_ERROR exactly if the ring is not empty, whatever the time-out: the result is its oldest message and the first blocked sender's takes the free place; NOT_AVAILABLE exactly for a poll of an empty buffer, INVALID_MODE exactly for an owner; otherwise the caller waits in its place |
| PartitionObject.Partition.ScheduleService | kernel/process.c:66-120 | keeps the partition valid; the first of the most urgent processes that are READY, or RUNNING and current, becomes RUNNING and current, a RUNNING one it replaces READY, and nothing else changes; nobody is current exactly when nobody can run |
| PartitionObject.Partition.ReleasePass | arinc/arinc_time.c:3-30 | one pass over the process list releases exactly the processes due |
| PartitionObject.Partition.TimeoutPass | arinc/arinc_time.c:32-49 | one pass over the process list expires exactly the time-outs due |
| PartitionObject.Partition.TickService | arinc/arinc_time.c:67-71 | keeps the partition valid if and only if no queued process is released or timed out; each process past its release point or delayed start is READY, each past its time-out READY, not suspended, with the counter zero, and all others stay |
| PartitionObject.Partition.constructor | arinc/arinc_process.c:128-206 | a partition entering NORMAL mode is valid |
| Effects.SurrenderPasses | kernel/mutex.c:123-152 | giving up a mutex returns its owner to its nominal priority at the head of the list and makes the process that waits first the READY owner at the ceiling in front of it, or leaves the mutex AVAILABLE; nothing else changes |
| Effects.Drained | arinc/arinc_intrapartition_communication.c:185-202 | draining empties the queue, serves everybody in it and changes nobody else |
| Effects.BlockIs | kernel/mutex.c:71-103 | a process that blocks stands in its place of the queue until now + time-out, and nothing else changes |
| Effects.EnqueuedIs | kernel/mutex.c:76-90 | a FIFO queue gets the process at its end; a PRIORITY queue behind everybody at least as urgent and before the first less urgent one |
| Effects.WakeIs | kernel/mutex.c:132-150 | the first waiter is READY with its pointer cleared and a running time-out cancelled, and the others move up |
| Effects.StopEffect | arinc/arinc_process.c:449-488 | STOP leaves its target DORMANT, out of the queue it points at, and everybody else alone |
| Effects.ScheduledFirst | kernel/process.c:66-120 | process_schedule selects the first of the most urgent processes that can run and changes only its state and that of the one it replaces |
| Effects.TickEffect | arinc/arinc_time.c:3-49 | what a clock update does to every process, field by field |
| Codes.AcquireCode | kernel/mutex.c:8-104 | the exact condition of each return code of krnl_acquire_mutex |
| Codes.SuspendCode | arinc/arinc_process.c:299-341 | the exact condition of each return code of SUSPEND |
| Codes.ResumeCode | arinc/arinc_process.c:344-393 | the exact condition of each return code of RESUME |
| Codes.StopCode | arinc/arinc_process.c:449-488 | the exact condition of each return code of STOP; INVALID_MODE is reported after the target was stopped |
| Codes.StartCode | arinc/arinc_process.c:491-559 | the exact condition of each return code of START |
| Codes.WaitSemaphoreCode | arinc/arinc_intrapartition_communication.c:675-735 | the exact condition of each return code of WAIT_SEMAPHORE |
| Codes.SignalSemaphoreCode | arinc/arinc_intrapartition_communication.c:737-772 | the exact condition of each return code of SIGNAL_SEMAPHORE |
| Codes.WaitEventCode | arinc/arinc_intrapartition_communication.c:889-938 | the exact condition of each return code of WAIT_EVENT |
| Codes.SendCode | arinc/arinc_intrapartition_communication.c:376-483 | the exact condition of each return code of SEND_BUFFER |
| Codes.ReceiveCode | arinc/arinc_intrapartition_communication.c:485-585 | the exact condition of each return code of RECEIVE_BUFFER |
| Codes.TimeoutExact | arinc/arinc_intrapartition_communication.c:404-407 | a time-out is accepted if and only if it is infinite or ends in representable time |
| Codes.WakeCodeExact | arinc/arinc_intrapartition_communication.c:725-733 | after a wait the code is TIMED_OUT if and only if the time-out was finite and the time counter is zero |
| WaitingOrder.QueueStep | lib/list.c:284-296 | every kind of step: in each queue some processes leave, the others keeping their order, or one joins in its place |
| WaitingOrder.MostUrgentFirst | kernel/mutex.c:76-90 | over every safe run in which nobody in the queue is given another priority, the process a PRIORITY queue serves next is one of the most urgent in it |
| WaitingOrder.NoOvertaking | lib/list.c:284-296 | over every such run a process that waits since before another came is not overtaken by it, in a FIFO queue never, in a PRIORITY queue unless the other is more urgent; so among equals the first come is served first |
| WaitingOrder.SortedStep | lib/list.c:284-296 | every step but SET_PRIORITY on somebody in it keeps a PRIORITY queue sorted |
| WaitingOrder.RerankExact | arinc/arinc_process.c:231-238 | SET_PRIORITY leaves a waiter where it stands, so the queue stays sorted if and only if the new priority lies between those of its neighbours |
| Invariant.WakeCore | kernel/mutex.c:132-150 | taking the first waiter off a queue and clearing its pointer keeps queues, pointers and counters consistent |
| ModuleScheduler.IsolationOverRun | arinc/module_scheduler.c:84-127 | if the tick advances by at most one per call, then after every call of every run, with any mode changes and idle signals, the walker stands in the span of the present position and only its owner may be current |
| ModuleScheduler.IsolationMeans | arinc/module_scheduler.c:84-127 | the current partition is none or the owner of a window containing tick mod frame; gaps and the frame tail are idle |
| ModuleScheduler.IsolatedStep | arinc/module_scheduler.c:98-124 | one call keeps that |
| ModuleScheduler.StartedIsolated | arinc/module_scheduler.c:44-76 | scheduling starts in that state with the owner of the first window current if that partition is in the list and not in IDLE mode, and panics otherwise |
| ModuleScheduler.CatchUp | arinc/module_scheduler.c:104-126 | after any stall, frames behind + number of windows calls at one tick reach the window a table lookup gives, and further calls stay there; if any window was passed or the position is in a gap, the partition is the one looked up, IDLE-mode partitions counting as idle, and otherwise it is unchanged |
| ModuleScheduler.CatchUpRuns | arinc/module_scheduler.c:104-126 | in terms of table and modes: a walker that had to move or stands in a gap ends with a partition if and only if that partition owns a window containing the position, is in the list and is not in IDLE mode |
| ModuleScheduler.LookupExact | arinc/module_scheduler.c:104-126 | the table lookup gives a partition under exactly that condition |
| ModuleScheduler.SwitchExact | kernel/partition.c:225-253 | a switch makes a partition current if and only if the first entry of that identifier in the list is not in IDLE mode, and panics if and only if there is none |
| ModuleScheduler.LagStep | arinc/module_scheduler.c:104-124 | each call of a lagging walker reduces its lag by exactly one |
| ModuleScheduler.IdleUntilNextWindow | arinc/module_scheduler.c:99-102 | for any table and any calls inside the window: once its partition went idle nobody is current until the window ends, whatever the modes say meanwhile |
| ModuleScheduler.LookupInWindow | arinc/module_scheduler.c:104-126 | at each of those calls a table lookup would name the owner of the window if it is in the list and not in IDLE mode |
| ModuleScheduler.SignalTakesEffect | arinc/module_scheduler.c:78-102 | a partition that signals idle gives up the rest of its window |
| ModuleScheduler.Scheduler.PartitionScheduler | arinc/module_scheduler.c:84-127 | the in-place walker does what the step says; the exact identifier it returns, in particular the owner of a later window even if that partition is in IDLE mode |
| ModuleScheduler.Scheduler.PartitionSwitch | kernel/partition.c:225-253 | over the partition list: the first entry of the identifier is made current if it is not in IDLE mode, otherwise nobody; the idle identifier makes nobody current; a missing identifier panics and changes nothing else |
| ModuleScheduler.Scheduler.StartScheduling | arinc/module_scheduler.c:44-76 | makes the owner of the first window current, and panics if and only if there is no window or that partition is in IDLE mode or missing |
| WeightedScheduler.FairnessLaw | kernel/ucx.c:202-263 | while all tasks stay ready and non-RT, low_j + V = P_j * (1 + runs_j) with 0 <= low_j <= P_j, for every run |
| WeightedScheduler.FairShares | kernel/ucx.c:202-263 | runs_i * P_i - runs_j * P_j <= P_j for all i and j |
| WeightedScheduler.BoundedWait | kernel/ucx.c:202-263 | a task not selected for n rounds, from any state: n <= (number of other tasks) * (P + 1) |
| WeightedScheduler.RoundExact | kernel/ucx.c:226-259 | one round takes the least counter off every counter without borrow into the weights and reloads the selected one |
| WeightedScheduler.RoundAny | kernel/ucx.c:202-263 | for any mix of ready, blocked and real-time tasks: the selected task is RUNNING with its counter back at its weight; every other READY one without real-time priority keeps its weight and pays the selected counter; anybody else keeps its word and state |
| WeightedScheduler.PanicMeans | kernel/ucx.c:237-239 | the panic in terms of the tasks before the round |
| WeightedScheduler.ChoiceMin | kernel/ucx.c:217-235 | the selection is the last eligible task of least counter, provided one is not behind the head of the list |
| WeightedScheduler.PanicExact | kernel/ucx.c:237-239 | the scheduler panics if and only if every eligible task has a counter above the head's |
| WeightedScheduler.PanicDespiteReady | kernel/ucx.c:237-239 | a suspended head with a lower counter makes it panic although a task is READY |
| WeightedScheduler.ChargeExact | kernel/ucx.c:250-251 | the 16-bit subtraction leaves the weight byte alone |
| WeightedScheduler.ReloadExact | kernel/ucx.c:259-259 | the or of the weight into an empty low byte restores the full counter |
| WeightedScheduler.Native.Schedule | kernel/ucx.c:202-263 | the two list passes in place do that round for any mix of states, or panic exactly when no task that takes part is at or below the counter of the head |
| WeightedScheduler.Native.Pick | kernel/ucx.c:226-235 | the first pass finds the selection |
| WeightedScheduler.Native.Subtract | kernel/ucx.c:247-252 | the second pass takes the amount off exactly the READY tasks without real-time priority |
| Allocator.Heap.Malloc | lib/malloc.c:142-189 | for every request: returns 0 if and only if no free run from last_free on has room for the 32-bit sum of rounded size and header; otherwise it takes the first such run, and for requests up to 2^32 - 12 and those that round to 0, the live blocks gain exactly one of the rounded size, every other stays where it is, and the chain still tiles the heap with a free block before the sentinel; for rounded size 2^32 - 8 the block handed out stays free, and exactly for 2^32 - 4 the chain is lost, its new header lying inside the old one |
| Allocator.Heap.Release | lib/malloc.c:131-141 | only the freed block dies, and the next search starts at the bottom |
| Allocator.Heap.constructor | lib/malloc.c:191-203 | the fresh heap is one free block, and its chain is well formed if and only if the length is even |
| Allocator.Heap.Scan | lib/malloc.c:153-171 | the nested scan terminates, merges only free blocks, loses no live one, never reaches past the sentinel, and finds a fitting run exactly when there is one |
| Allocator.Heap.SkipUsed | lib/malloc.c:157-160 | skipping used blocks ends at a free one before the sentinel |
| Allocator.Heap.SkipFree | lib/malloc.c:161-162 | skipping free blocks ends at a used one or at the sentinel |
| Allocator.Heap.Carve | lib/malloc.c:179-185 | the in-place split writes the two headers of the split chain, in 32-bit addresses and for any rounded size |
| Allocator.CarvedExact | lib/malloc.c:179-185 | the split adds one live block although the stored size of the remainder is meaningless; it keeps the chain if and only if the rounded size is not 2^32 - 4 |
| Allocator.NeedExact | lib/malloc.c:167-167 | the sum of rounded size and header wraps around exactly for the rounded sizes 2^32 - 8 and 2^32 - 4 |
| Allocator.OddHeapSticks | lib/malloc.c:163-166 | on a heap of odd length the first failing request marks the whole heap used |
| Allocator.Tiles | lib/malloc.c:142-189 | every byte of the heap lies in exactly one block of the chain |
| Allocator.LiveDisjoint | lib/malloc.c:188-188 | live payloads lie in bounds and share no byte |
| Allocator.WholeHeap | lib/malloc.c:138-138 | after a free the search covers the whole heap |
| Allocator.EmptyHeapServes | lib/malloc.c:153-171 | with everything freed, a request succeeds if and only if it fits the initial heap |
| Allocator.SaneExact | lib/malloc.c:149-149 | rounding yields a payload as large as requested, and adding a header does not wrap, if and only if the request is at most 2^32 - 12 |
| SoftFloat.CorrectlyRounded | arch/common/ieee754.c:229-287 | for normal operands and a normal result the value returned is nearer to the exact quotient than any other finite number, zeros and denormals included: correct rounding in the sense of section 4.3.1 of IEEE 754-2019 |
| SoftFloat.Divsf3 | arch/common/ieee754.c:229-287 | for all operands, the significand is the nearest to the quotient of the significands, the exponent the difference modulo 256, the sign that of the quotient unless the exponent is out of range; 0 for a zero dividend, 2^31 or 2^32 for a zero divisor |
| SoftFloat.PackAny | arch/common/ieee754.c:285-285 | packing an exponent out of range keeps its low byte and puts the ninth bit on the sign |
| SoftFloat.Restore | arch/common/ieee754.c:262-273 | the 25-step restoring loop yields floor(n * 2^24 / d) |
| SoftFloat.RoundedNearest | arch/common/ieee754.c:275-280 | adding one and dropping a bit is strictly within half a unit of the exact quotient: ties cannot occur |
| SoftFloat.RoundedRange | arch/common/ieee754.c:275-282 | the rounding increment never carries out of 24 bits |
| SoftFloat.PackFields | arch/common/ieee754.c:285-285 | packing keeps sign, exponent and significand |
| SoftFloat.NearestScaled | arch/common/ieee754.c:229-287 | the same statement in integers, for both signs and across binades |
| IntegerArithmetic.Mulsi3 | arch/common/muldiv.c:11-23 | shift-add gives a * b mod 2^32 |
| IntegerArithmetic.Muldsi3 | arch/common/muldiv.c:25-38 | the 64-bit product of 32-bit factors is exact |
| IntegerArithmetic.Muldi3 | arch/common/muldiv.c:40-52 | three partial products give a * b mod 2^64 |
| IntegerArithmetic.Udivmodsi4 | arch/common/muldiv.c:54-79 | restoring division gives quotient and remainder for every nonzero divisor, and 0 for zero |
| IntegerArithmetic.Udivmoddi4 | arch/common/muldiv.c:175-200 | num = q * den + r with 0 <= r < den for every nonzero divisor; nothing is written for zero |
| IntegerArithmetic.Divmodsi4 | arch/common/muldiv.c:81-102 | the signed quotient truncates toward zero except for INT_MIN / -1; the remainder is that of the truncated division if and only if the divisor is positive or divides evenly |
| IntegerArithmetic.SignedDivide | arch/common/muldiv.c:202-226 | the same on 64-bit words: two's complement negation is right even for INT_MIN |
| IntegerArithmetic.QuotientFits | arch/common/muldiv.c:81-102 | the truncated quotient fits its word if and only if the operands are not INT_MIN and -1 |
| IntegerArithmetic.RemainderExact | arch/common/muldiv.c:81-102 | the sign rule of the code gives the remainder of the truncated quotient if and only if the divisor is positive or divides evenly |
| IntegerArithmetic.NegativeDivisorFails | arch/common/muldiv.c:81-102 | the signed division gives 7 mod -2 as -1, where the remainder of the truncated quotient is 1 |
| LinkedList.Create | lib/list.c:12-49 | null if and only if one of the three allocations fails; otherwise two fresh sentinels and no values |
| LinkedList.List.Push | lib/list.c:63-78 | null without effect if and only if malloc fails; otherwise prepends, and all old nodes keep their identity and order |
| LinkedList.List.PushBack | lib/list.c:80-99 | null without effect if and only if malloc fails; otherwise appends by filling the old tail sentinel, which is the node returned |
| LinkedList.List.Pop | lib/list.c:101-118 | removes the first value and its node |
| LinkedList.List.PopBack | lib/list.c:120-142 | removes the last value; the sentinel stays the same node |
| LinkedList.List.Rotate | lib/list.c:185-203 | moves the first value to the end, turning its node into the sentinel |
| LinkedList.List.Insert | lib/list.c:205-228 | null without effect if and only if malloc fails or the given node is the tail sentinel; otherwise inserts behind the given node |
| LinkedList.List.Remove | lib/list.c:230-249 | removes exactly the given node, and refuses the sentinels |
| LinkedList.List.InsertSorted | lib/list.c:284-296 | inserts before the first value of strictly lower priority |
| LinkedList.List.Index | lib/list.c:251-264 | finds the node by position, the sentinel included |
| LinkedList.Move | lib/list.c:157-183 | moves a value to the end of another list or of the same one; its node becomes the destination's sentinel |
| LinkedList.SortedInsertion | lib/list.c:284-296 | a descending list stays descending, and the new value stands after all of its own priority |
| RingQueue.NextPowerOf2Exact | lib/queue.c:14-25 | bit smearing gives the least power of two not below n, and 0 where that does not fit 32 bits |
| RingQueue.PowerOfTwoExact | lib/queue.c:9-12 | x & (x - 1) is zero exactly for powers of two |
| RingQueue.SizeForExact | lib/queue.c:31-35 | the size is the least power of two not below max(n, 2) up to 2^30, and -2^31 beyond |
| RingQueue.CapacityExact | lib/queue.c:77-79 | a queue asked to hold n has room for n if and only if n is not a power of two above one and not above 2^30 |
| RingQueue.CreateQueue | lib/queue.c:27-54 | null if and only if an allocation fails; otherwise an empty queue, well formed if and only if n <= 2^29 |
| RingQueue.SlotsExact | lib/queue.c:44-44 | the 32-bit product of size and pointer size allocates all slots up to n = 2^29 and none at all beyond |
| RingQueue.Queue.Enqueue | lib/queue.c:73-86 | appends, and refuses exactly when size - 1 elements are stored |
| RingQueue.Queue.Dequeue | lib/queue.c:88-100 | removes the oldest element |
| RingQueue.CreateSemaphore | kernel/semaphore.c:9-31 | null if and only if the value is negative or an allocation fails; otherwise count is the initial value and nobody waits |
| RingQueue.Semaphore.Wait | kernel/semaphore.c:44-66 | queue length stays max(0, -count); the call blocks exactly when count was not positive and panics exactly when the queue is full |
| RingQueue.Semaphore.TryWait | kernel/semaphore.c:68-80 | never blocks and keeps the queue |
| RingQueue.Semaphore.Signal | kernel/semaphore.c:82-95 | wakes the task blocked longest; the panic for an empty queue is unreachable |

## Left out

- Error handler process, health monitor, COLD_START and WARM_START modes: recovery actions are placeholders in the source.
- DELAYED_START, REPLENISH, APERIODIC_WAIT_EVENT, CREATE_* and GET_* services: variants or single-branch checks that would add only easy members.
- Queuing and sampling ports, including their paragraph of remove_process_from_waiting_queue: the blocking paths recheck nothing after a wake-up.
- setjmp, longjmp, interrupts, memory protection and printing: they appear only as the points where a step ends.
- Multicore variants, CONFIG_ALT_ALLOCATOR, CONFIG_POWER_ALLOC, CONFIG_SCHED_SIMPLE, ucx_realloc and the doubly linked list: they repeat the chosen forms.
- Wrap-around of ticks, frame counters and time at 2^32 or 2^64, and overflow of the kernel semaphore's count.
- Return codes of SUSPEND_SELF after it wakes: RESUME clears the counter that is read as a time-out.
- List nodes of the process list: a process whose state a clock update changes to READY while it executes keeps a stale process_current in RESET_MUTEX and STOP_SELF; the model has no such pointer.
- The value of the float division for denormal, infinite and NaN operands and results out of range, which the code treats as if normal; float addition, multiplication, comparison and conversions.
- 64-bit shifts, and `__divmoddi4`'s handling of the remainder pointer for a zero divisor.
- Allocator.Heap.constructor: the length holds at least two headers; for less, the code computes a wrapped size.
- Allocator.Heap.Release: the pointer comes from an earlier allocation whose header is still on the chain.
- LinkedList.List.InsertSorted: allocation succeeds; the code does not test it.
- Addresses and pointers have 32 bits, in the allocator and in the size of a queue's slots.
- ReturnCodes.ReturnedCode: covers callers that block with a finite time-out; an infinite wait always returns NO_ERROR.
- LockHolder.LockerKeepsProcessor: starts from a good state; how the lock was acquired before is the subject of `PreemptionLock.LockOverRun`.
