/** The partition as the kernel keeps it: fields updated in place. Every service keeps the partition valid, gives
    its caller what `Effects` says, and does to the fields what its step in `Services` does to the state. */
module PartitionObject {
  import opened Apex
  import opened Sequences
  import opened Services
  import opened Invariant
  import opened Protocol
  import opened Exact
  import opened Runs
  import opened Codes
  import opened Effects

  class Partition {
    var procs: map<Pid, Proc>
    var order: seq<Pid>
    var current: Option<Pid>
    var yielded: bool
    var waits: Waits
    var objects: Objects
    var lockLevel: int
    var now: int

    function View(): State
      reads this
    {
      State(procs, order, current, yielded, waits, objects, lockLevel, now)
    }

    /** Everything `Inv` says of the process list, the queues, the mutexes and the objects. */
    ghost predicate Valid()
      reads this
    {
      Inv(View())
    }

    /** The current process executes. */
    predicate Executing()
      reads this
    {
      current.Some? && !yielded
    }

    /** SET_PARTITION_MODE(NORMAL) leaves a valid partition. */
    constructor (s: State)
      ensures View() == s && (Initial(s) ==> Valid())
    {
      procs, order, current, yielded := s.procs, s.order, s.current, s.yielded;
      waits, objects, lockLevel, now := s.waits, s.objects, s.lockLevel, s.now;
      new;
      if Initial(s) {
        InitialInv(s);
      }
    }

    function At(p: Pid): Proc
      reads this
    {
      View().At(p)
    }

    // -------------------------------------------------------------- waiting and waking

    /** list_insert_sorted */
    method InsertSorted(q: seq<Pid>, p: Pid) returns (r: seq<Pid>)
      ensures exists i :: LinedAt(View(), q, r, p, i)
      ensures r == InsertByPriority(procs, q, p, At(p).priority)
    {
      var i := 0;
      while i < |q| && At(q[i]).priority >= At(p).priority
        invariant 0 <= i <= |q|
        invariant forall j :: 0 <= j < i ==> At(q[j]).priority >= At(p).priority
      {
        i := i + 1;
      }
      InsertedAt(procs, q, p, At(p).priority, i);
      r := q[..i] + [p] + q[i..];
      assert LinedAt(View(), q, r, p, i);
    }

    /** The queue with the process in its place. */
    method Enlist(q: QueueId, p: Pid, d: Discipline) returns (queue: seq<Pid>)
      ensures queue == Enqueued(View(), q, p, d)
    {
      if d == ByPriority {
        queue := InsertSorted(View().Queue(q), p);
      } else {
        queue := View().Queue(q) + [p];
      }
    }

    /** The common tail of the blocking services. */
    method Park(q: QueueId, d: Discipline, record: bool, timeout: int)
      requires current.Some?
      modifies this
      ensures old(current.value in procs) ==>
                JoinsQueue(old(View()), View(), old(current.value), q, d, record, timeout,
                           old(At(current.value).message))
      ensures View() == Block(old(View()), q, old(current.value), d, record, timeout)
    {
      if current.value in procs {
        BlockIs(View(), q, current.value, d, record, timeout);
      }
      Enter(q, d, record, timeout);
    }

    /** The updates of a caller that blocks. */
    method Enter(q: QueueId, d: Discipline, record: bool, timeout: int)
      requires current.Some?
      modifies this
      ensures View() == Block(old(View()), q, old(current.value), d, record, timeout)
    {
      var p := current.value;
      var x := At(p).(state := Waiting);
      if record {
        x := x.(waitingOn := x.waitingOn.Set(q.obj.kind, Some(q.obj.id)));
      }
      if timeout != INFINITE {
        x := x.(timer := now + timeout);
      }
      var queue := Enlist(q, p, d);
      waits := Waits(waits.queues[q := queue], waits.counts[q.obj := View().Count(q.obj) + 1]);
      procs := procs[p := x];
      yielded := true;
    }

    /** Takes the first waiter off a queue and makes it READY. */
    method WakeFirst(q: QueueId)
      requires View().Queue(q) != []
      modifies this`waits, this`procs
      ensures View() == Wake(old(View()), q)
    {
      var queue := View().Queue(q);
      var w := queue[0];
      waits := Waits(waits.queues[q := queue[1..]], waits.counts[q.obj := View().Count(q.obj) - 1]);
      var x := At(w);
      if x.timer != 0 {
        x := x.(timer := INFINITE);
      }
      x := x.(state := Ready, waitingOn := x.waitingOn.Set(q.obj.kind, None));
      procs := procs[w := x];
    }

    /** The draining loop of SET_EVENT and DISPLAY_BLACKBOARD. */
    method DrainQueue(q: QueueId)
      modifies this`waits, this`procs
      ensures old(QueueOk(View())) ==> Drains(old(View()), View(), q) && objects == old(objects)
      ensures View() == WakeAll(old(View()), q)
    {
      if QueueOk(View()) {
        Drained(View(), q);
      }
      while View().Queue(q) != []
        invariant WakeAll(View(), q) == WakeAll(old(View()), q)
        decreases |View().Queue(q)|
      {
        WakeFirst(q);
      }
    }

    // -------------------------------------------------------------- mutexes

    /** The process becomes the owner and moves to the head of the list at the ceiling. */
    method Own(id: int, p: Pid)
      modifies this`objects, this`procs, this`order
      ensures View() == Grant(old(View()), id, p)
    {
      var m, x := View().MutexAt(id), At(p);
      m := m.(owned := true, owner := p);
      x := x.(owned := Some(id));
      m := m.(locks := m.locks + 1, saved := x.priority);
      x := x.(priority := m.ceiling);
      objects := objects.(mutexes := objects.mutexes[id := m]);
      procs := procs[p := x];
      order := [p] + Remove(order, p);
    }

    /** The work of krnl_acquire_mutex. */
    method Claim(id: int, timeout: int) returns (code: Code)
      requires current.Some?
      modifies this
      ensures (View(), code) == KernelAcquire(old(View()), id, timeout)
    {
      if id !in objects.mutexes {
        return InvalidParam;
      }
      if timeout < INFINITE || (timeout >= 0 && Overflow(now + timeout)) {
        return InvalidParam;
      }
      var p := current.value;
      if At(p).owned.Some? && At(p).owned != Some(id) {
        return InvalidMode;
      }
      var m := objects.mutexes[id];
      if At(p).priority > m.ceiling {
        return InvalidMode;
      }
      if !m.owned {
        Own(id, p);
        code := NoError;
      } else if m.owner == p {
        if m.locks == MAX_LOCK_LEVEL {
          return InvalidConfig;
        }
        objects := objects.(mutexes := objects.mutexes[id := m.(locks := m.locks + 1)]);
        code := NoError;
      } else if timeout == 0 {
        code := NotAvailable;
      } else {
        Park(Waiters(Obj(MutexKind, id)), m.discipline, true, timeout);
        code := Parked;
      }
    }

    /** krnl_acquire_mutex */
    method AcquireKernelMutex(id: int, timeout: int) returns (code: Code)
      requires Valid() && Executing()
      modifies this
      ensures Valid()
      ensures AcquireCodes(old(View()), id, timeout, old(current.value), code)
      ensures Acquired(old(View()), View(), code, id, timeout, old(current.value))
      ensures (View(), code) == KernelAcquire(old(View()), id, timeout)
    {
      AcquireInv(View(), id, timeout);
      AcquireCode(View(), id, timeout, current.value);
      AcquireEffect(View(), id, timeout, current.value);
      code := Claim(id, timeout);
    }

    /** The owner gives the mutex up and the first waiter, if any, becomes the owner. */
    method GiveUp(id: int, p: Pid)
      modifies this`objects, this`procs, this`order, this`waits
      ensures View() == Surrender(old(View()), id, p)
    {
      var m := View().MutexAt(id);
      objects := objects.(mutexes := objects.mutexes[id := m.(owned := false, owner := 0, locks := 0)]);
      procs := procs[p := At(p).(owned := None, priority := m.saved)];
      order := [p] + Remove(order, p);
      assert View() == Free(old(View()), id, p);
      var q := Waiters(Obj(MutexKind, id));
      if View().Queue(q) != [] {
        var w := View().Queue(q)[0];
        WakeFirst(q);
        Own(id, w);
      }
    }

    /** The work of krnl_release_mutex. */
    method Unclaim(id: int) returns (code: Code)
      requires current.Some?
      modifies this
      ensures (View(), code) == KernelRelease(old(View()), id)
    {
      if id !in objects.mutexes {
        return InvalidParam;
      }
      var p := current.value;
      if At(p).owned != Some(id) {
        return InvalidMode;
      }
      var m := objects.mutexes[id];
      if m.locks - 1 == 0 {
        GiveUp(id, p);
        yielded := true;
      } else {
        objects := objects.(mutexes := objects.mutexes[id := m.(locks := m.locks - 1)]);
      }
      code := NoError;
    }

    /** krnl_release_mutex */
    method ReleaseKernelMutex(id: int) returns (code: Code)
      requires Valid() && Executing()
      modifies this
      ensures Valid()
      ensures ReleaseCodes(old(View()), id, old(current.value), code)
      ensures GaveBack(old(View()), View(), code, id, old(current.value))
      ensures (View(), code) == KernelRelease(old(View()), id)
    {
      ReleaseInv(View(), id);
      ReleaseCode(View(), id, current.value);
      ReleaseEffect(View(), id, current.value);
      code := Unclaim(id);
    }

    method AcquireMutexService(id: int, timeout: int) returns (code: Code)
      requires Valid() && Executing()
      modifies this
      ensures Valid()
      ensures if id == PREEMPTION_LOCK then code == InvalidParam && View() == old(View())
              else AcquireCodes(old(View()), id, timeout, old(current.value), code)
                   && Acquired(old(View()), View(), code, id, timeout, old(current.value))
      ensures (View(), code) == AcquireMutex(old(View()), id, timeout)
    {
      if id == PREEMPTION_LOCK {
        return InvalidParam;
      }
      code := AcquireKernelMutex(id, timeout);
    }

    method ReleaseMutexService(id: int) returns (code: Code)
      requires Valid() && Executing()
      modifies this
      ensures Valid()
      ensures if id == PREEMPTION_LOCK then code == InvalidParam && View() == old(View())
              else ReleaseCodes(old(View()), id, old(current.value), code)
                   && GaveBack(old(View()), View(), code, id, old(current.value))
      ensures (View(), code) == ReleaseMutex(old(View()), id)
    {
      if id == PREEMPTION_LOCK {
        return InvalidParam;
      }
      code := ReleaseKernelMutex(id);
    }

    method ResetMutexService(id: int, target: Pid) returns (code: Code)
      requires Valid() && Executing()
      modifies this
      ensures Valid()
      ensures ResetCodes(old(View()), id, target, code)
      ensures ResetMeans(old(View()), View(), code, id, target)
      ensures (View(), code) == ResetMutex(old(View()), id, target)
    {
      ResetInv(View(), id, target);
      ResetCode(View(), id, target);
      ResetEffect(View(), id, target);
      if id !in objects.mutexes || id == PREEMPTION_LOCK || target !in order {
        return InvalidParam;
      }
      if At(target).owned != Some(id) || current.value != target {
        return InvalidMode;
      }
      GiveUp(id, target);
      yielded := true;
      code := NoError;
    }

    method LockPreemptionService() returns (code: Code)
      requires Valid() && Executing()
      modifies this
      ensures Valid()
      ensures AcquireCodes(old(View()), PREEMPTION_LOCK, INFINITE, old(current.value), code)
      ensures LockMeans(old(View()), View(), code, old(current.value))
      ensures (View(), code) == LockPreemption(old(View()))
    {
      LockInv(View());
      AcquireCode(View(), PREEMPTION_LOCK, INFINITE, current.value);
      LockEffect(View(), current.value);
      code := AcquireKernelMutex(PREEMPTION_LOCK, INFINITE);
      if !yielded && PREEMPTION_LOCK in objects.mutexes {
        lockLevel := objects.mutexes[PREEMPTION_LOCK].locks;
      }
    }

    method UnlockPreemptionService() returns (code: Code)
      requires Valid() && Executing()
      modifies this
      ensures Valid()
      ensures UnlockCodes(old(View()), old(current.value), code)
      ensures UnlockMeans(old(View()), View(), code, old(current.value))
      ensures (View(), code) == UnlockPreemption(old(View()))
    {
      UnlockInv(View());
      UnlockCode(View(), current.value);
      UnlockEffect(View(), current.value);
      if lockLevel == 0 {
        return NoAction;
      }
      if At(current.value).owned != Some(PREEMPTION_LOCK) {
        return InvalidMode;
      }
      code := ReleaseKernelMutex(PREEMPTION_LOCK);
      if !yielded && PREEMPTION_LOCK in objects.mutexes {
        lockLevel := objects.mutexes[PREEMPTION_LOCK].locks;
      }
    }

    // -------------------------------------------------------------- processes

    /** The work of SET_PRIORITY. */
    method Rank(target: Pid, priority: int) returns (code: Code)
      requires current.Some?
      modifies this
      ensures (View(), code) == SetPriority(old(View()), target, priority)
    {
      if target !in order || priority < MIN_PRIORITY || priority > MAX_PRIORITY {
        return InvalidParam;
      }
      var x := At(target);
      if x.state == Dormant {
        return InvalidMode;
      }
      if x.owned.Some? {
        var id := x.owned.value;
        objects := objects.(mutexes := objects.mutexes[id := View().MutexAt(id).(saved := priority)]);
      } else {
        procs := procs[target := x.(priority := priority)];
      }
      if x.state == Ready || x.state == Running {
        order := Remove(order, target) + [target];
        if x.state == Running {
          current := Some(target);
        }
        yielded := true;
      }
      code := NoError;
    }

    method SetPriorityService(target: Pid, priority: int) returns (code: Code)
      requires Valid() && Executing()
      modifies this
      ensures Valid()
      ensures SetPriorityCodes(old(View()), target, priority, code)
      ensures SetPriorityMeans(old(View()), View(), code, target, priority)
      ensures (View(), code) == SetPriority(old(View()), target, priority)
    {
      SetPriorityInv(View(), target, priority);
      SetPriorityCode(View(), target, priority);
      SetPriorityEffect(View(), target, priority);
      code := Rank(target, priority);
    }

    /** The work of SUSPEND_SELF. */
    method Sleep(timeout: int) returns (code: Code)
      requires current.Some?
      modifies this
      ensures (View(), code) == SuspendSelf(old(View()), timeout)
    {
      var p := current.value;
      var x := At(p);
      if x.owned.Some? {
        return InvalidMode;
      }
      if timeout < INFINITE || (timeout >= 0 && Overflow(now + timeout)) {
        return InvalidParam;
      }
      if x.period != INFINITE {
        return InvalidMode;
      }
      if timeout == 0 {
        return NoError;
      }
      x := x.(state := Waiting, suspended := true);
      if timeout != INFINITE {
        x := x.(timer := now + timeout);
      }
      procs := procs[p := x];
      yielded := true;
      code := Parked;
    }

    method SuspendSelfService(timeout: int) returns (code: Code)
      requires Valid() && Executing()
      modifies this
      ensures Valid()
      ensures SuspendSelfCodes(old(View()), timeout, old(current.value), code)
      ensures SuspendSelfMeans(old(View()), View(), code, timeout, old(current.value))
      ensures (View(), code) == SuspendSelf(old(View()), timeout)
    {
      SuspendSelfInv(View(), timeout);
      SuspendSelfCode(View(), timeout, current.value);
      SuspendSelfEffect(View(), timeout, current.value);
      code := Sleep(timeout);
    }

    method SuspendService(target: Pid) returns (code: Code)
      requires Valid() && Executing()
      modifies this
      ensures Valid()
      ensures SuspendCodes(old(View()), target, code)
      ensures SuspendMeans(old(View()), View(), code, target)
      ensures (View(), code) == Suspend(old(View()), target)
    {
      SuspendInv(View(), target);
      SuspendCode(View(), target);
      SuspendEffect(View(), target);
      if target !in order || target == current.value {
        return InvalidParam;
      }
      var x := At(target);
      if x.owned.Some? || x.waitingOn.mutex.Some? || x.state == Dormant || x.state == Faulted || x.period != INFINITE {
        return InvalidMode;
      }
      if x.suspended {
        return NoAction;
      }
      procs := procs[target := x.(suspended := true, state := Waiting)];
      code := NoError;
    }

    method ResumeService(target: Pid) returns (code: Code)
      requires Valid() && Executing()
      modifies this
      ensures Valid() <==> old(ResumeSafe(View(), target))
      ensures ResumeCodes(old(View()), target, code)
      ensures ResumeMeans(old(View()), View(), code, target)
      ensures (View(), code) == Resume(old(View()), target)
    {
      ResumeExact(View(), target);
      ResumeCode(View(), target);
      ResumeEffect(View(), target);
      if target !in order || target == current.value {
        return InvalidParam;
      }
      var x := At(target);
      if x.state == Dormant || (x.period != INFINITE && x.state != Faulted) {
        return InvalidMode;
      }
      if !x.suspended && x.state != Faulted {
        return NoAction;
      }
      if x.suspended {
        x := x.(suspended := false, timer := 0);
      }
      if x.timer == 0 || x.waitingOn == NO_POINTERS {
        x := x.(state := Ready);
        yielded := true;
      }
      procs := procs[target := x];
      code := NoError;
    }

    /** The work of STOP_SELF. */
    method End()
      requires current.Some?
      modifies this
      ensures View() == StopSelf(old(View()))
    {
      var p := current.value;
      procs := procs[p := At(p).(deadline := INFINITE)];
      var owned := At(p).owned;
      if owned.Some? {
        if owned.value == PREEMPTION_LOCK {
          lockLevel := 0;
        }
        GiveUp(owned.value, p);
      }
      procs := procs[p := At(p).(state := Dormant, timer := 0, suspended := false)];
      yielded := true;
    }

    method StopSelfService()
      requires Valid() && Executing()
      modifies this
      ensures Valid()
      ensures StopSelfMeans(old(View()), View(), old(current.value))
      ensures View() == StopSelf(old(View()))
    {
      StopSelfInv(View());
      StopSelfEffect(View(), current.value);
      End();
    }

    /** Takes a process out of one queue. */
    method TakeOut(p: Pid, q: QueueId)
      modifies this`waits, this`objects
      ensures View() == Withdraw(old(View()), p, q)
    {
      var queue := View().Queue(q);
      if p in queue {
        waits := Waits(waits.queues[q := Remove(queue, p)], waits.counts[q.obj := View().Count(q.obj) - 1]);
        if q.Writers? && q.obj.id in objects.buffers {
          var b := objects.buffers[q.obj.id];
          objects := objects.(buffers := objects.buffers[q.obj.id :=
                                b.(withdrawn := b.withdrawn + multiset{At(p).message})]);
        }
      }
    }

    method LeaveKind(p: Pid, k: Kind)
      modifies this`waits, this`objects, this`procs
      ensures View() == Leave(old(View()), p, k)
    {
      if At(p).waitingOn.Get(k).Some? {
        var o := Obj(k, At(p).waitingOn.Get(k).value);
        TakeOut(p, Waiters(o));
        if k == BufferKind {
          TakeOut(p, Writers(o));
        }
        procs := procs[p := At(p).(waitingOn := At(p).waitingOn.Set(k, None))];
      }
    }

    /** remove_process_from_waiting_queue */
    method LeaveQueues(p: Pid)
      modifies this`waits, this`objects, this`procs
      ensures View() == LeaveAll(old(View()), p)
    {
      LeaveKind(p, BlackboardKind);
      LeaveKind(p, BufferKind);
      LeaveKind(p, SemaphoreKind);
      LeaveKind(p, EventKind);
      LeaveKind(p, MutexKind);
    }

    /** The work of STOP. */
    method Kill(target: Pid) returns (code: Code)
      requires current.Some?
      modifies this
      ensures (View(), code) == Stop(old(View()), target)
    {
      if target !in order || target == current.value {
        return InvalidParam;
      }
      if At(target).state == Dormant {
        return NoAction;
      }
      code := if At(current.value).owned.Some? then InvalidMode else NoError;
      LeaveQueues(target);
      procs := procs[target := At(target).(state := Dormant, timer := 0, suspended := false, deadline := INFINITE)];
      yielded := true;
    }

    method StopService(target: Pid) returns (code: Code)
      requires Valid() && Executing()
      modifies this
      ensures Valid() <==> old(StopSafe(View(), target))
      ensures StopCodes(old(View()), target, code)
      ensures StopMeans(old(View()), View(), code, target)
      ensures (View(), code) == Stop(old(View()), target)
    {
      StopExact(View(), target);
      StopCode(View(), target);
      StopEffect(View(), target);
      code := Kill(target);
    }

    /** The work of START. */
    method Launch(target: Pid, first: int) returns (code: Code)
      requires current.Some?
      modifies this
      ensures (View(), code) == Start(old(View()), target, first)
    {
      if target !in order {
        return InvalidParam;
      }
      var x := At(target);
      if x.state != Dormant {
        return NoAction;
      }
      if x.capacity < INFINITE || (x.capacity >= 0 && Overflow(now + x.capacity)) {
        return InvalidConfig;
      }
      x := x.(priority := x.base);
      if x.period == INFINITE {
        x := x.(state := Ready, deadline := DeadlineFrom(x, now));
        yielded := true;
      } else {
        x := x.(state := Waiting, release := first);
        x := x.(deadline := DeadlineFrom(x, x.release));
      }
      procs := procs[target := x];
      code := NoError;
    }

    method StartService(target: Pid, first: int) returns (code: Code)
      requires Valid() && Executing()
      modifies this
      ensures Valid()
      ensures StartCodes(old(View()), target, code)
      ensures StartMeans(old(View()), View(), code, target, first)
      ensures (View(), code) == Start(old(View()), target, first)
    {
      StartInv(View(), target, first);
      StartCode(View(), target, first);
      StartEffect(View(), target, first);
      code := Launch(target, first);
    }

    // -------------------------------------------------------------- time

    /** The work of TIMED_WAIT. */
    method Delay(delay: int) returns (code: Code)
      requires current.Some?
      modifies this
      ensures (View(), code) == TimedWait(old(View()), delay)
    {
      var p := current.value;
      if At(p).owned.Some? {
        return InvalidMode;
      }
      if delay < INFINITE || (delay >= 0 && Overflow(now + delay)) || delay == INFINITE {
        return InvalidParam;
      }
      if delay == 0 {
        procs := procs[p := At(p).(state := Ready)];
        order := Remove(order, p) + [p];
      } else {
        procs := procs[p := At(p).(state := Waiting, timer := now + delay)];
      }
      yielded := true;
      code := NoError;
    }

    method TimedWaitService(delay: int) returns (code: Code)
      requires Valid() && Executing()
      modifies this
      ensures Valid()
      ensures TimedWaitCodes(old(View()), delay, old(current.value), code)
      ensures TimedWaitMeans(old(View()), View(), code, delay, old(current.value))
      ensures (View(), code) == TimedWait(old(View()), delay)
    {
      TimedWaitInv(View(), delay);
      TimedWaitCode(View(), delay, current.value);
      TimedWaitEffect(View(), delay, current.value);
      code := Delay(delay);
    }

    /** The work of PERIODIC_WAIT. */
    method AwaitRelease() returns (code: Code)
      requires current.Some?
      modifies this
      ensures (View(), code) == PeriodicWait(old(View()))
    {
      var p := current.value;
      var x := At(p);
      if x.owned.Some? || x.period == INFINITE {
        return InvalidMode;
      }
      var capacity := if x.capacity == INFINITE then 0 else x.capacity;
      if Overflow(x.period + x.release + capacity) {
        return InvalidParam;
      }
      x := x.(state := Waiting, release := x.release + x.period);
      x := x.(deadline := DeadlineFrom(x, x.release));
      procs := procs[p := x];
      yielded := true;
      code := NoError;
    }

    method PeriodicWaitService() returns (code: Code)
      requires Valid() && Executing()
      modifies this
      ensures Valid()
      ensures PeriodicWaitCodes(old(View()), old(current.value), code)
      ensures PeriodicWaitMeans(old(View()), View(), code, old(current.value))
      ensures (View(), code) == PeriodicWait(old(View()))
    {
      PeriodicWaitInv(View());
      PeriodicWaitCode(View(), current.value);
      PeriodicWaitEffect(View(), current.value);
      code := AwaitRelease();
    }

    // -------------------------------------------------------------- communication

    /** The work of WAIT_SEMAPHORE. */
    method TakeUnit(id: int, timeout: int) returns (code: Code)
      requires current.Some?
      modifies this
      ensures (View(), code) == WaitSemaphore(old(View()), id, timeout)
    {
      if id !in objects.semaphores || BadTimeout(now, timeout) {
        return InvalidParam;
      }
      var m := objects.semaphores[id];
      if m.value > 0 {
        objects := objects.(semaphores := objects.semaphores[id := m.(value := m.value - 1, grants := m.grants + 1)]);
        code := NoError;
      } else if timeout == 0 {
        code := NotAvailable;
      } else if At(current.value).owned.Some? {
        code := InvalidMode;
      } else {
        Park(Waiters(Obj(SemaphoreKind, id)), m.discipline, timeout != INFINITE, timeout);
        code := Parked;
      }
    }

    method WaitSemaphoreService(id: int, timeout: int) returns (code: Code)
      requires Valid() && Executing()
      modifies this
      ensures Valid()
      ensures WaitSemaphoreCodes(old(View()), id, timeout, old(current.value), code)
      ensures WaitSemaphoreMeans(old(View()), View(), code, id, timeout, old(current.value))
      ensures (View(), code) == WaitSemaphore(old(View()), id, timeout)
    {
      WaitSemaphoreInv(View(), id, timeout);
      WaitSemaphoreCode(View(), id, timeout, current.value);
      WaitSemaphoreEffect(View(), id, timeout, current.value);
      code := TakeUnit(id, timeout);
    }

    method SignalSemaphoreService(id: int) returns (code: Code)
      requires Valid() && Executing()
      modifies this
      ensures Valid()
      ensures SignalSemaphoreCodes(old(View()), id, code)
      ensures SignalSemaphoreMeans(old(View()), View(), code, id)
      ensures (View(), code) == SignalSemaphore(old(View()), id)
    {
      SignalSemaphoreInv(View(), id);
      SignalSemaphoreCode(View(), id);
      SignalSemaphoreEffect(View(), id);
      code := PassUnit(id);
    }

    method PassUnit(id: int) returns (code: Code)
      requires current.Some?
      modifies this
      ensures (View(), code) == SignalSemaphore(old(View()), id)
    {
      if id !in objects.semaphores {
        return InvalidParam;
      }
      var m, q := objects.semaphores[id], Waiters(Obj(SemaphoreKind, id));
      if m.value == m.maximum {
        return InvalidConfig;
      }
      if View().Queue(q) == [] {
        objects := objects.(semaphores := objects.semaphores[id := m.(value := m.value + 1, signals := m.signals + 1)]);
      } else {
        WakeFirst(q);
        m := m.(signals := m.signals + 1, grants := m.grants + 1);
        objects := objects.(semaphores := objects.semaphores[id := m]);
        yielded := true;
      }
      code := NoError;
    }

    /** The work of SET_EVENT. */
    method Signal(id: int) returns (code: Code)
      requires current.Some?
      modifies this
      ensures (View(), code) == SetEvent(old(View()), id)
    {
      if id !in objects.events {
        return InvalidParam;
      }
      objects := objects.(events := objects.events[id := true]);
      if View().Queue(Waiters(Obj(EventKind, id))) != [] {
        DrainQueue(Waiters(Obj(EventKind, id)));
        yielded := true;
      }
      code := NoError;
    }

    method SetEventService(id: int) returns (code: Code)
      requires Valid() && Executing()
      modifies this
      ensures Valid()
      ensures EventCodes(old(View()), id, code)
      ensures SetEventMeans(old(View()), View(), code, id)
      ensures (View(), code) == SetEvent(old(View()), id)
    {
      SetEventInv(View(), id);
      SetEventCode(View(), id);
      SetEventEffect(View(), id);
      code := Signal(id);
    }

    method ResetEventService(id: int) returns (code: Code)
      requires Valid()
      modifies this`objects
      ensures Valid()
      ensures EventCodes(old(View()), id, code)
      ensures ResetEventMeans(old(View()), View(), code, id)
      ensures (View(), code) == ResetEvent(old(View()), id)
    {
      ResetEventInv(View(), id);
      ResetEventCode(View(), id);
      ResetEventEffect(View(), id);
      if id !in objects.events {
        return InvalidParam;
      }
      objects := objects.(events := objects.events[id := false]);
      code := NoError;
    }

    method WaitEventService(id: int, timeout: int) returns (code: Code)
      requires Valid() && Executing()
      modifies this
      ensures Valid()
      ensures WaitEventCodes(old(View()), id, timeout, old(current.value), code)
      ensures WaitEventMeans(old(View()), View(), code, id, timeout, old(current.value))
      ensures (View(), code) == WaitEvent(old(View()), id, timeout)
    {
      WaitEventInv(View(), id, timeout);
      WaitEventCode(View(), id, timeout, current.value);
      WaitEventEffect(View(), id, timeout, current.value);
      if id !in objects.events || BadTimeout(now, timeout) {
        return InvalidParam;
      }
      if objects.events[id] {
        code := NoError;
      } else if timeout == 0 {
        code := NotAvailable;
      } else if At(current.value).owned.Some? {
        code := InvalidMode;
      } else {
        Park(Waiters(Obj(EventKind, id)), if timeout == INFINITE then Fifo else ByPriority, true, timeout);
        code := Parked;
      }
    }

    /** The work of DISPLAY_BLACKBOARD. */
    method Show(id: int, m: Message) returns (code: Code)
      requires current.Some?
      modifies this
      ensures (View(), code) == DisplayBlackboard(old(View()), id, m)
    {
      if id !in objects.blackboards {
        return InvalidConfig;
      }
      var b, q := objects.blackboards[id], Waiters(Obj(BlackboardKind, id));
      if |m| > b.maxSize || |m| <= 0 {
        return InvalidParam;
      }
      objects := objects.(blackboards := objects.blackboards[id := b.(occupied := true, message := m)]);
      var waited := View().Count(q.obj) > 0;
      DrainQueue(q);
      if waited {
        yielded := true;
      }
      code := NoError;
    }

    method DisplayBlackboardService(id: int, m: Message) returns (code: Code)
      requires Valid() && Executing()
      modifies this
      ensures Valid()
      ensures DisplayCodes(old(View()), id, m, code)
      ensures DisplayMeans(old(View()), View(), code, id, m)
      ensures (View(), code) == DisplayBlackboard(old(View()), id, m)
    {
      DisplayInv(View(), id, m);
      DisplayCode(View(), id, m);
      DisplayEffect(View(), id, m);
      code := Show(id, m);
    }

    method ReadBlackboardService(id: int, timeout: int) returns (code: Code, m: Message)
      requires Valid() && Executing()
      modifies this
      ensures Valid()
      ensures ReadCodes(old(View()), id, timeout, old(current.value), code)
      ensures ReadMeans(old(View()), View(), code, m, id, timeout, old(current.value))
      ensures (View(), code, m) == ReadBlackboard(old(View()), id, timeout)
    {
      ReadInv(View(), id, timeout);
      ReadCode(View(), id, timeout, current.value);
      ReadEffect(View(), id, timeout, current.value);
      m := [];
      if id !in objects.blackboards {
        code := InvalidConfig;
      } else if BadTimeout(now, timeout) {
        code := InvalidParam;
      } else if objects.blackboards[id].occupied {
        code, m := NoError, objects.blackboards[id].message;
      } else if timeout == 0 {
        code := NotAvailable;
      } else if At(current.value).owned.Some? {
        code := InvalidMode;
      } else {
        Park(Waiters(Obj(BlackboardKind, id)), Fifo, timeout != INFINITE, timeout);
        code := Parked;
      }
    }

    method ClearBlackboardService(id: int) returns (code: Code)
      requires Valid()
      modifies this`objects
      ensures Valid()
      ensures ClearCodes(old(View()), id, code)
      ensures ClearMeans(old(View()), View(), code, id)
      ensures (View(), code) == ClearBlackboard(old(View()), id)
    {
      ClearInv(View(), id);
      ClearCode(View(), id);
      ClearEffect(View(), id);
      if id !in objects.blackboards {
        return InvalidConfig;
      }
      objects := objects.(blackboards := objects.blackboards[id := objects.blackboards[id].(occupied := false)]);
      code := NoError;
    }

    /** The work of SEND_BUFFER. */
    method Transmit(id: int, m: Message, timeout: int) returns (code: Code)
      requires current.Some?
      modifies this
      ensures (View(), code) == SendBuffer(old(View()), id, m, timeout)
    {
      if id !in objects.buffers {
        return InvalidParam;
      }
      var b, o, p := objects.buffers[id], Obj(BufferKind, id), current.value;
      if |m| >= b.maxSize {
        return InvalidConfig;
      }
      if |m| <= 0 || BadTimeout(now, timeout) {
        return InvalidParam;
      }
      if |b.ring| < b.maxMessages {
        if View().Queue(Waiters(o)) == [] {
          b := b.(ring := b.ring + [m], sent := b.sent + [m]);
        } else {
          var r := View().Queue(Waiters(o))[0];
          WakeFirst(Waiters(o));
          procs := procs[r := At(r).(message := m)];
          b := b.(sent := b.sent + [m], delivered := b.delivered + [m]);
          yielded := true;
        }
        objects := objects.(buffers := objects.buffers[id := b]);
        code := NoError;
      } else if timeout == 0 {
        code := NotAvailable;
      } else if At(p).owned.Some? {
        code := InvalidMode;
      } else {
        procs := procs[p := At(p).(message := m)];
        Park(Writers(o), b.discipline, true, timeout);
        objects := objects.(buffers := objects.buffers[id := b.(sent := b.sent + [m])]);
        code := Parked;
      }
    }

    method SendBufferService(id: int, m: Message, timeout: int) returns (code: Code)
      requires Valid() && Executing()
      modifies this
      ensures Valid()
      ensures SendCodes(old(View()), id, m, timeout, old(current.value), code)
      ensures SendMeans(old(View()), View(), code, id, m, timeout, old(current.value))
      ensures (View(), code) == SendBuffer(old(View()), id, m, timeout)
    {
      SendInv(View(), id, m, timeout);
      SendCode(View(), id, m, timeout, current.value);
      SendEffect(View(), id, m, timeout, current.value);
      code := Transmit(id, m, timeout);
    }

    /** The work of RECEIVE_BUFFER. */
    method Fetch(id: int, timeout: int) returns (code: Code, m: Message)
      requires current.Some?
      modifies this
      ensures (View(), code, m) == ReceiveBuffer(old(View()), id, timeout)
    {
      m := [];
      if id !in objects.buffers || BadTimeout(now, timeout) {
        code := InvalidParam;
        return;
      }
      var b, o := objects.buffers[id], Obj(BufferKind, id);
      if |b.ring| > 0 {
        m := b.ring[0];
        b := b.(ring := b.ring[1..], delivered := b.delivered + [m]);
        if View().Queue(Writers(o)) != [] {
          var w := View().Queue(Writers(o))[0];
          b := b.(ring := b.ring + [At(w).message]);
          WakeFirst(Writers(o));
          yielded := true;
        }
        objects := objects.(buffers := objects.buffers[id := b]);
        code := NoError;
      } else if timeout == 0 {
        code := NotAvailable;
      } else if At(current.value).owned.Some? {
        code := InvalidMode;
      } else {
        Park(Waiters(o), b.discipline, true, timeout);
        code := Parked;
      }
    }

    method ReceiveBufferService(id: int, timeout: int) returns (code: Code, m: Message)
      requires Valid() && Executing()
      modifies this
      ensures Valid()
      ensures ReceiveCodes(old(View()), id, timeout, old(current.value), code)
      ensures ReceiveMeans(old(View()), View(), code, m, id, timeout, old(current.value))
      ensures (View(), code, m) == ReceiveBuffer(old(View()), id, timeout)
    {
      ReceiveInv(View(), id, timeout);
      ReceiveCode(View(), id, timeout, current.value);
      ReceiveEffect(View(), id, timeout, current.value);
      code, m := Fetch(id, timeout);
    }

    // -------------------------------------------------------------- process_schedule and the clock

    /** The walk along the process list with its running maximum. */
    method SelectReady() returns (select: Option<Pid>)
      ensures select == Select(procs, order)
    {
      var highest, i := -1, 0;
      select := None;
      while i < |order|
        invariant 0 <= i <= |order|
        invariant select == Select(procs, order[..i])
        invariant highest == if select.Some? && select.value in procs then procs[select.value].priority else -1
      {
        var p := order[i];
        assert order[..i + 1][..i] == order[..i];
        if p in procs && procs[p].state == Ready && procs[p].priority > highest {
          highest, select := procs[p].priority, Some(p);
        }
        i := i + 1;
      }
      assert order[..i] == order;
    }

    method SwitchProcess()
      modifies this
      ensures View() == Schedule(old(View()))
    {
      if current.Some? && At(current.value).state == Running {
        procs := procs[current.value := At(current.value).(state := Ready)];
      }
      var select := SelectReady();
      current := select;
      if select.Some? {
        procs := procs[select.value := At(select.value).(state := Running)];
      }
      yielded := false;
    }

    /** process_schedule */
    method ScheduleService()
      requires Valid()
      modifies this
      ensures Valid() && Dispatched(old(View()), View())
      ensures View() == Schedule(old(View()))
    {
      ghost var s := View();
      ScheduleInv(s);
      ScheduledFirst(s);
      SwitchProcess();
    }

    /** check_and_release_periodic_waiting_processes over the process list. */
    method ReleasePass()
      requires NoDup(order) && forall p :: p in order <==> p in procs
      modifies this`procs
      ensures procs == map p | p in old(procs) :: Released(old(procs)[p], now)
    {
      ghost var before := procs;
      var i := 0;
      while i < |order|
        invariant 0 <= i <= |order| && procs.Keys == before.Keys
        invariant forall j :: 0 <= j < i && order[j] in before ==> procs[order[j]] == Released(before[order[j]], now)
        invariant forall j :: i <= j < |order| && order[j] in before ==> procs[order[j]] == before[order[j]]
      {
        var p := order[i];
        assert p in order;
        var x := procs[p];
        if x.state == Waiting && (x.period != INFINITE || x.initDelay != 0) && now >= x.release {
          x := x.(state := Ready);
          if x.period == INFINITE {
            x := x.(release := 0, initDelay := 0);
          }
          procs := procs[p := x];
        }
        i := i + 1;
      }
      forall p | p in before ensures procs[p] == Released(before[p], now) {
        assert p in order;
        var j :| 0 <= j < |order| && order[j] == p;
      }
    }

    /** check_timeouts over the process list. */
    method TimeoutPass()
      requires NoDup(order) && forall p :: p in order <==> p in procs
      modifies this`procs
      ensures procs == map p | p in old(procs) :: TimedOutProc(old(procs)[p], now)
    {
      ghost var before := procs;
      var i := 0;
      while i < |order|
        invariant 0 <= i <= |order| && procs.Keys == before.Keys
        invariant forall j :: 0 <= j < i && order[j] in before ==>
                  procs[order[j]] == TimedOutProc(before[order[j]], now)
        invariant forall j :: i <= j < |order| && order[j] in before ==> procs[order[j]] == before[order[j]]
      {
        var p := order[i];
        assert p in order;
        var x := procs[p];
        if x.timer != 0 && now >= x.timer && x.timer != INFINITE {
          procs := procs[p := x.(suspended := false, timer := 0, state := Ready)];
        }
        i := i + 1;
      }
      forall p | p in before ensures procs[p] == TimedOutProc(before[p], now) {
        assert p in order;
        var j :| 0 <= j < |order| && order[j] == p;
      }
    }

    /** arinc_time_update_partition */
    method TickService(time: int)
      requires Valid()
      modifies this`now, this`procs
      ensures Valid() <==> old(TickSafe(View(), time))
      ensures now == time && procs.Keys == old(procs.Keys)
      ensures forall p :: p in procs ==> Updated(old(procs)[p], procs[p], time)
      ensures View() == Tick(old(View()), time)
    {
      TickExact(View(), time);
      TickEffect(View(), time);
      UpdateTime(time);
    }

    method UpdateTime(time: int)
      requires NoDup(order) && forall p :: p in order <==> p in procs
      modifies this`now, this`procs
      ensures View() == Tick(old(View()), time)
    {
      now := time;
      ReleasePass();
      TimeoutPass();
    }
  }
}
