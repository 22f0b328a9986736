/** Every service keeps the invariant; STOP, RESUME and the clock do so exactly when stated. */
module Protocol {
  import opened Apex
  import opened Sequences
  import opened Services
  import opened Invariant

  // ---------------------------------------------------------------- shared steps

  lemma {:induction false} Unserved(s: State, q: QueueId)
    requires WakeOk(s)
    ensures !Unavailable(s, q) ==> s.Queue(q) == []
  {
  }

  lemma {:induction false} WakeFrame(s: State, t: State)
    requires WakeOk(s) && t.queues == s.queues && t.mutexes == s.mutexes && t.semaphores == s.semaphores
    requires t.events == s.events && t.blackboards == s.blackboards && t.buffers == s.buffers
    ensures WakeOk(t)
  {
    forall q | t.Queue(q) != [] ensures Unavailable(t, q) {
      assert s.Queue(q) == t.Queue(q);
      assert Unavailable(s, q);
    }
  }

  /** A process record changes in place, and the service may yield. */
  lemma {:induction false} RecordInv(s: State, p: Pid, x: Proc, leaves: bool)
    requires Inv(s) && p in s.procs
    requires x.owned == s.procs[p].owned && x.waitingOn == s.procs[p].waitingOn
    requires x.owned.Some? ==> Alive(x) && x.priority == s.procs[p].priority
    requires Queued(s, p) ==> x.state == Waiting
    requires x.state == Running ==> s.current == Some(p)
    requires s.current == Some(p) && !s.yielded && !leaves ==> Alive(x)
    ensures Inv(s.With(p, x).(yielded := s.yielded || leaves))
  {
    var t := s.(yielded := s.yielded || leaves);
    SameWaitsOk(s, t);
    UpdateCore(t, p, x);
    WakeFrame(s, t.With(p, x));
  }

  /** The caller owns no mutex, changes its own record, and yields. */
  lemma {:induction false} CallerInv(s: State, p: Pid, x: Proc)
    requires Inv(s) && s.current == Some(p) && !s.yielded
    requires s.procs[p].owned.None? && x.owned.None? && x.waitingOn == s.procs[p].waitingOn && x.state != Running
    ensures Inv(s.With(p, x).(yielded := true))
  {
    AliveNotQueued(s, p);
    RecordInv(s, p, x, true);
  }

  lemma {:induction false} LeaveInv(s: State, p: Pid, x: Proc, t: State)
    requires Inv(s) && s.current == Some(p) && !s.yielded
    requires s.procs[p].owned.None? && x.owned.None? && x.waitingOn == s.procs[p].waitingOn && x.state != Running
    requires t == s.With(p, x).(yielded := true)
    ensures Inv(t)
  {
    CallerInv(s, p, x);
  }

  /** The process list may be rearranged. */
  lemma {:induction false} ReorderInv(s: State, order: seq<Pid>)
    requires Inv(s) && NoDup(order) && forall p :: p in order <==> p in s.order
    ensures Inv(s.(order := order, yielded := true))
  {
    var t := s.(order := order, yielded := true);
    SameWaitsOk(s, t);
    WakeFrame(s, t);
  }

  /** A caller that owns no mutex parks on an object that cannot serve it. */
  lemma {:induction false} BlockInv(s: State, q: QueueId, p: Pid, d: Discipline, record: bool, timeout: int)
    requires Inv(s) && s.current == Some(p) && s.procs[p].owned.None? && Alive(s.procs[p])
    requires record || !AlwaysPoints(q.obj.kind)
    requires Unavailable(s, q)
    ensures Inv(Block(s, q, p, d, record, timeout))
  {
    BlockCore(s, q, p, d, record, timeout);
    BlockWake(s, q, p, d, record, timeout);
  }

  // ---------------------------------------------------------------- mutexes

  lemma {:induction false} AcquireInv(s: State, id: int, timeout: int)
    requires Inv(s) && s.current.Some? && !s.yielded
    ensures Inv(KernelAcquire(s, id, timeout).0)
  {
    var p := s.current.value;
    var me, m := s.At(p), s.MutexAt(id);
    var r := KernelAcquire(s, id, timeout);
    if r.1 == Parked {
      ParkInv(s, Waiters(Obj(MutexKind, id)), p, m.discipline, true, timeout, r.0);
    } else if r.1 == NoError && !m.owned {
      GrantInv(s, id, p, r.0);
    } else if r.1 == NoError {
      LocksInv(s, id, m.locks + 1, r.0);
    } else {
      assert r.0 == s;
    }
  }

  lemma {:induction false} ParkInv(s: State, q: QueueId, p: Pid, d: Discipline, record: bool, timeout: int, t: State)
    requires Inv(s) && s.current == Some(p) && s.procs[p].owned.None? && Alive(s.procs[p])
    requires record || !AlwaysPoints(q.obj.kind)
    requires Unavailable(s, q) && t == Block(s, q, p, d, record, timeout)
    ensures Inv(t)
  {
    BlockInv(s, q, p, d, record, timeout);
  }

  lemma {:induction false} LocksInv(s: State, id: int, locks: int, t: State)
    requires Inv(s) && id in s.mutexes && s.mutexes[id].owned && 1 <= locks <= MAX_LOCK_LEVEL
    requires t == s.PutMutex(id, s.mutexes[id].(locks := locks))
    ensures Inv(t)
  {
    NestInv(s, id, locks);
  }

  lemma {:induction false} GrantInv(s: State, id: int, p: Pid, t: State)
    requires Inv(s) && id in s.mutexes && !s.mutexes[id].owned && s.current == Some(p) && !s.yielded
    requires s.procs[p].owned.None? && t == Grant(s, id, p)
    ensures Inv(t)
  {
    GrantCore(s, id, p);
    GrantWake(s, id, p);
  }

  lemma {:induction false} GrantWake(s: State, id: int, p: Pid)
    requires WakeOk(s) && id in s.mutexes
    ensures WakeOk(Grant(s, id, p))
  {
    var t := Grant(s, id, p);
    forall q | t.Queue(q) != [] ensures Unavailable(t, q) {
      assert s.Queue(q) == t.Queue(q);
      assert Unavailable(s, q);
    }
  }

  /** A nested acquire or release, or a new saved priority: the mutex stays with its owner. */
  lemma {:induction false} NestInv(s: State, id: int, locks: int)
    requires Inv(s) && id in s.mutexes && s.mutexes[id].owned && 1 <= locks <= MAX_LOCK_LEVEL
    ensures Inv(s.PutMutex(id, s.mutexes[id].(locks := locks)))
  {
    var t := s.PutMutex(id, s.mutexes[id].(locks := locks));
    SameWaitsOk(s, t);
    forall q | t.Queue(q) != [] ensures Unavailable(t, q) {
      assert s.Queue(q) == t.Queue(q);
      assert Unavailable(s, q);
    }
  }

  lemma {:induction false} SurrenderInv(s: State, id: int, p: Pid)
    requires Inv(s) && p in s.procs && s.procs[p].owned == Some(id)
    ensures Inv(Surrender(s, id, p).(yielded := true))
  {
    var t := Surrender(s, id, p);
    SurrenderCore(s, id, p);
    SurrenderWake(s, id, p);
    ReorderInv(t, t.order);
    assert t.(order := t.order, yielded := true) == t.(yielded := true);
  }

  lemma {:induction false} ReleaseInv(s: State, id: int)
    requires Inv(s) && s.current.Some?
    ensures Inv(KernelRelease(s, id).0)
  {
    var p := s.current.value;
    if id in s.mutexes && s.At(p).owned == Some(id) {
      if s.MutexAt(id).locks - 1 != 0 {
        NestInv(s, id, s.MutexAt(id).locks - 1);
      } else {
        SurrenderInv(s, id, p);
      }
    }
  }

  lemma {:induction false} LockLevelInv(s: State, level: int)
    requires Inv(s)
    ensures Inv(s.(lockLevel := level))
  {
    SameWaitsOk(s, s.(lockLevel := level));
    WakeFrame(s, s.(lockLevel := level));
  }

  lemma {:induction false} LockCallInv(r: Reply)
    requires Inv(r.0)
    ensures Inv(AfterLockCall(r).0) && Inv(RefreshLockLevel(r.0))
  {
    LockLevelInv(r.0, r.0.MutexAt(PREEMPTION_LOCK).locks);
  }

  lemma {:induction false} LockInv(s: State)
    requires Inv(s) && s.current.Some? && !s.yielded
    ensures Inv(LockPreemption(s).0)
  {
    AcquireInv(s, PREEMPTION_LOCK, INFINITE);
    LockCallInv(KernelAcquire(s, PREEMPTION_LOCK, INFINITE));
  }

  lemma {:induction false} UnlockInv(s: State)
    requires Inv(s) && s.current.Some?
    ensures Inv(UnlockPreemption(s).0)
  {
    ReleaseInv(s, PREEMPTION_LOCK);
    LockCallInv(KernelRelease(s, PREEMPTION_LOCK));
  }

  lemma {:induction false} ResetInv(s: State, id: int, target: Pid)
    requires Inv(s) && s.current.Some?
    ensures Inv(ResetMutex(s, id, target).0)
  {
    if ResetMutex(s, id, target).1 == NoError {
      SurrenderInv(s, id, target);
    }
  }

  // ---------------------------------------------------------------- processes

  lemma {:induction false} SavedInv(s: State, id: int, saved: int)
    requires Inv(s) && id in s.mutexes
    ensures Inv(s.PutMutex(id, s.mutexes[id].(saved := saved)))
  {
    var t := s.PutMutex(id, s.mutexes[id].(saved := saved));
    SameWaitsOk(s, t);
    forall q | t.Queue(q) != [] ensures Unavailable(t, q) {
      assert s.Queue(q) == t.Queue(q);
      assert Unavailable(s, q);
    }
  }

  lemma {:induction false} SetPriorityInv(s: State, target: Pid, priority: int)
    requires Inv(s) && s.current.Some?
    ensures Inv(SetPriority(s, target, priority).0)
  {
    var x := s.At(target);
    if target in s.order && MIN_PRIORITY <= priority <= MAX_PRIORITY && x.state != Dormant {
      var t := if x.owned.Some?
               then s.PutMutex(x.owned.value, s.MutexAt(x.owned.value).(saved := priority))
               else s.With(target, x.(priority := priority));
      if x.owned.Some? {
        SavedInv(s, x.owned.value, priority);
      } else {
        RecordInv(s, target, x.(priority := priority), false);
        assert t == t.(yielded := s.yielded);
      }
      MoveBackMembers(s.order, target);
      ReorderInv(t, Remove(s.order, target) + [target]);
    }
  }

  lemma {:induction false} SuspendInv(s: State, target: Pid)
    requires Inv(s) && s.current.Some?
    ensures Inv(Suspend(s, target).0)
  {
    if Suspend(s, target).1 == NoError {
      RecordInv(s, target, s.At(target).(suspended := true, state := Waiting), false);
      var t := s.With(target, s.At(target).(suspended := true, state := Waiting));
      assert t == t.(yielded := s.yielded);
    }
  }

  lemma {:induction false} SuspendSelfInv(s: State, timeout: int)
    requires Inv(s) && s.current.Some? && !s.yielded
    ensures Inv(SuspendSelf(s, timeout).0)
  {
    var p := s.current.value;
    var me := s.At(p);
    var r := SuspendSelf(s, timeout);
    if r.1 == Parked {
      LeaveInv(s, p, me.(state := Waiting, suspended := true,
                         timer := if timeout == INFINITE then me.timer else s.now + timeout), r.0);
    } else {
      assert r.0 == s;
    }
  }

  lemma {:induction false} StartInv(s: State, target: Pid, first: int)
    requires Inv(s) && s.current.Some? && !s.yielded
    ensures Inv(Start(s, target, first).0)
  {
    var x := s.At(target);
    if Start(s, target, first).1 == NoError {
      assert target in s.order;
      LaunchInv(s, target, x.(priority := x.base, state := Ready, deadline := DeadlineFrom(x, s.now)), true);
      LaunchInv(s, target, x.(priority := x.base, state := Waiting, release := first,
                              deadline := DeadlineFrom(x, first)), false);
    }
  }

  /** A dormant process is neither queued nor an owner, so it may be started. */
  lemma {:induction false} LaunchInv(s: State, p: Pid, x: Proc, leaves: bool)
    requires Inv(s) && p in s.procs && s.procs[p].state == Dormant && s.current.Some? && !s.yielded
    requires x.owned == s.procs[p].owned && x.waitingOn == s.procs[p].waitingOn && x.state != Running
    ensures Inv(if leaves then s.With(p, x).(yielded := true) else s.With(p, x))
  {
    AliveNotQueued(s, p);
    RecordInv(s, p, x, leaves);
    assert s.With(p, x).(yielded := s.yielded || leaves) == if leaves then s.With(p, x).(yielded := true)
           else s.With(p, x);
  }

  lemma {:induction false} StopSelfInv(s: State)
    requires Inv(s) && s.current.Some? && !s.yielded
    ensures Inv(StopSelf(s))
  {
    var p := s.current.value;
    var x := s.At(p).(deadline := INFINITE);
    var t := s.With(p, x);
    EndDeadlineInv(s, p);
    if x.owned.Some? {
      var v := if x.owned.value == PREEMPTION_LOCK then t.(lockLevel := 0) else t;
      LockLevelInv(t, 0);
      DieOwning(v, x.owned.value, p);
    } else {
      CallerInv(t, p, x.(state := Dormant, timer := 0, suspended := false));
    }
  }

  lemma {:induction false} EndDeadlineInv(s: State, p: Pid)
    requires Inv(s) && s.current == Some(p) && !s.yielded
    ensures Inv(s.With(p, s.At(p).(deadline := INFINITE)))
  {
    AliveNotQueued(s, p);
    RecordInv(s, p, s.At(p).(deadline := INFINITE), false);
    var t := s.With(p, s.At(p).(deadline := INFINITE));
    assert t == t.(yielded := s.yielded);
  }

  lemma {:induction false} DieOwning(s: State, id: int, p: Pid)
    requires Inv(s) && s.current == Some(p) && !s.yielded && s.procs[p].owned == Some(id)
    ensures var u := Surrender(s, id, p);
            Inv(u.With(p, u.At(p).(state := Dormant, timer := 0, suspended := false)).(yielded := true))
  {
    var u := Surrender(s, id, p);
    SurrenderCore(s, id, p);
    SurrenderWake(s, id, p);
    SurrenderFrame(s, id, p);
    CallerInv(u, p, u.At(p).(state := Dormant, timer := 0, suspended := false));
  }

  // ---------------------------------------------------------------- time

  lemma {:induction false} TimedWaitInv(s: State, delay: int)
    requires Inv(s) && s.current.Some? && !s.yielded
    ensures Inv(TimedWait(s, delay).0)
  {
    var p := s.current.value;
    var r := TimedWait(s, delay);
    if r.1 != NoError {
      assert r.0 == s;
    } else if delay == 0 {
      RotateInv(s, p, s.At(p).(state := Ready), r.0);
    } else {
      LeaveInv(s, p, s.At(p).(state := Waiting, timer := s.now + delay), r.0);
    }
  }

  lemma {:induction false} RotateInv(s: State, p: Pid, x: Proc, u: State)
    requires Inv(s) && s.current == Some(p) && !s.yielded
    requires s.procs[p].owned.None? && x.owned.None? && x.waitingOn == s.procs[p].waitingOn && x.state != Running
    requires u == s.With(p, x).(order := Remove(s.order, p) + [p], yielded := true)
    ensures Inv(u)
  {
    CallerInv(s, p, x);
    var t := s.With(p, x).(yielded := true);
    MoveBackMembers(s.order, p);
    ReorderInv(t, Remove(s.order, p) + [p]);
  }

  lemma {:induction false} PeriodicWaitInv(s: State)
    requires Inv(s) && s.current.Some? && !s.yielded
    ensures Inv(PeriodicWait(s).0)
  {
    var p := s.current.value;
    var me := s.At(p);
    if PeriodicWait(s).1 == NoError {
      LeaveInv(s, p, me.(state := Waiting, release := me.release + me.period,
                         deadline := DeadlineFrom(me, me.release + me.period)), PeriodicWait(s).0);
    } else {
      assert PeriodicWait(s).0 == s;
    }
  }

  // ---------------------------------------------------------------- semaphores, events, blackboards

  lemma {:induction false} TakeUnitInv(s: State, id: int, t: State)
    requires Inv(s) && id in s.semaphores && s.semaphores[id].value > 0
    requires var m := s.semaphores[id]; t == s.PutSemaphore(id, m.(value := m.value - 1, grants := m.grants + 1))
    ensures Inv(t)
  {
    var m := s.semaphores[id];
    var x := m.(value := m.value - 1, grants := m.grants + 1);
    SemaphorePut(s.semaphores, id, x);
    SameWaitsOk(s, t);
    Unserved(s, Waiters(Obj(SemaphoreKind, id)));
    CreditWake(s, id, x);
  }

  lemma {:induction false} WaitSemaphoreInv(s: State, id: int, timeout: int)
    requires Inv(s) && s.current.Some? && !s.yielded
    ensures Inv(WaitSemaphore(s, id, timeout).0)
  {
    var r := WaitSemaphore(s, id, timeout);
    if r.1 == NoError {
      TakeUnitInv(s, id, r.0);
    } else if r.1 == Parked {
      var m := s.semaphores[id];
      BlockInv(s, Waiters(Obj(SemaphoreKind, id)), s.current.value, m.discipline, timeout != INFINITE, timeout);
    }
  }

  lemma {:induction false} SignalSemaphoreInv(s: State, id: int)
    requires Inv(s) && s.current.Some?
    ensures Inv(SignalSemaphore(s, id).0)
  {
    var r := SignalSemaphore(s, id);
    if r.1 != NoError {
      assert r.0 == s;
    } else if s.Queue(Waiters(Obj(SemaphoreKind, id))) == [] {
      CreditInv(s, id, r.0);
    } else {
      GrantSemaphoreInv(s, id, r.0);
    }
  }

  lemma {:induction false} SemaphorePut(semaphores: map<int, Semaphore>, id: int, m: Semaphore)
    requires SemaphoresOk(semaphores)
    requires 0 <= m.value <= m.maximum && 0 < m.maximum && m.value + m.grants == m.initial + m.signals
    ensures SemaphoresOk(semaphores[id := m])
  {
  }

  lemma {:induction false} CreditInv(s: State, id: int, t: State)
    requires Inv(s) && id in s.semaphores && s.Queue(Waiters(Obj(SemaphoreKind, id))) == []
    requires s.semaphores[id].value != s.semaphores[id].maximum
    requires var m := s.semaphores[id]; t == s.PutSemaphore(id, m.(value := m.value + 1, signals := m.signals + 1))
    ensures Inv(t)
  {
    var m := s.semaphores[id];
    var x := m.(value := m.value + 1, signals := m.signals + 1);
    SemaphorePut(s.semaphores, id, x);
    CreditFrame(s, t);
    CreditWake(s, id, x);
  }

  lemma {:induction false} CreditFrame(s: State, t: State)
    requires OrderOk(s) && RunOk(s) && QueueOk(s) && PointerOk(s) && CountOk(s) && MutexOk(s)
    requires t == s.(objects := s.objects.(semaphores := t.semaphores))
    ensures OrderOk(t) && RunOk(t) && QueueOk(t) && PointerOk(t) && CountOk(t) && MutexOk(t)
  {
    SameWaitsOk(s, t);
  }

  lemma {:induction false} CreditWake(s: State, id: int, x: Semaphore)
    requires WakeOk(s) && (x.value == 0 || s.Queue(Waiters(Obj(SemaphoreKind, id))) == [])
    ensures WakeOk(s.PutSemaphore(id, x))
  {
    var t := s.PutSemaphore(id, x);
    forall k | t.Queue(k) != [] ensures Unavailable(t, k) {
      assert s.Queue(k) == t.Queue(k);
      assert Unavailable(s, k);
    }
  }

  /** A signal passes straight to the first waiter. */
  lemma {:induction false} GrantSemaphoreInv(s: State, id: int, t: State)
    requires Inv(s) && id in s.semaphores && s.Queue(Waiters(Obj(SemaphoreKind, id))) != []
    requires var m := s.semaphores[id];
             t == Wake(s, Waiters(Obj(SemaphoreKind, id)))
                   .PutSemaphore(id, m.(signals := m.signals + 1, grants := m.grants + 1)).(yielded := true)
    ensures Inv(t)
  {
    var m := s.semaphores[id];
    var x := m.(signals := m.signals + 1, grants := m.grants + 1);
    SemaphorePut(s.semaphores, id, x);
    SameValue(s, id, x);
    PassInv(s, Waiters(Obj(SemaphoreKind, id)), s.PutSemaphore(id, x).objects);
  }

  lemma {:induction false} SameValue(s: State, id: int, x: Semaphore)
    requires id in s.semaphores && x.value == s.semaphores[id].value
    ensures forall k :: Unavailable(s, k) ==> Unavailable(s.(objects := s.PutSemaphore(id, x).objects), k)
  {
  }

  /** Waking one waiter while the object stays as unavailable as it was. */
  lemma {:induction false} PassInv(s: State, q: QueueId, objects: Objects)
    requires Inv(s) && s.Queue(q) != []
    requires objects.mutexes == s.mutexes && SemaphoresOk(objects.semaphores) && BuffersOk(objects.buffers)
    requires forall k :: Unavailable(s, k) ==> Unavailable(s.(objects := objects), k)
    ensures Inv(Wake(s, q).(objects := objects, yielded := true))
    ensures s.Queue(q)[0] in s.procs
  {
    var t := Wake(s, q);
    var u := t.(objects := objects, yielded := true);
    WakeCore(s, q);
    SameWaitsOk(t, u);
    PassWake(s, q, objects);
  }

  lemma {:induction false} PassWake(s: State, q: QueueId, objects: Objects)
    requires WakeOk(s) && s.Queue(q) != []
    requires forall k :: Unavailable(s, k) ==> Unavailable(s.(objects := objects), k)
    ensures WakeOk(Wake(s, q).(objects := objects, yielded := true))
  {
    var u := Wake(s, q).(objects := objects, yielded := true);
    var t := s.(objects := objects);
    forall k | u.Queue(k) != [] ensures Unavailable(u, k) {
      assert s.Queue(k) != [];
      assert Unavailable(s, k) && Unavailable(t, k);
    }
  }

  /** Setting an object available and draining its queue. */
  lemma {:induction false} DrainInv(s: State, t: State, q: QueueId)
    requires Inv(s) && Core(t) && t.queues == s.queues
    requires forall r :: r != q && Unavailable(s, r) ==> Unavailable(t, r)
    ensures Inv(WakeAll(t, q)) && Inv(WakeAll(t, q).(yielded := true))
  {
    WakeAllCore(t, q);
    var u := WakeAll(t, q);
    forall r | u.Queue(r) != [] ensures Unavailable(u, r) {
      assert s.Queue(r) == t.Queue(r);
      assert Unavailable(s, r) && Unavailable(t, r);
    }
    ReorderInv(u, u.order);
    assert u.(order := u.order, yielded := true) == u.(yielded := true);
  }

  lemma {:induction false} OtherEvents(s: State, id: int)
    ensures forall q :: q != Waiters(Obj(EventKind, id)) && Unavailable(s, q) ==> Unavailable(s.PutEvent(id, true), q)
  {
  }

  lemma {:induction false} OtherBlackboards(s: State, id: int, b: Blackboard)
    ensures forall q :: q != Waiters(Obj(BlackboardKind, id)) && Unavailable(s, q) ==>
              Unavailable(s.PutBlackboard(id, b), q)
  {
  }

  lemma {:induction false} RaisedInv(s: State, id: int)
    requires Inv(s)
    ensures var u := WakeAll(s.PutEvent(id, true), Waiters(Obj(EventKind, id)));
            Inv(u) && Inv(u.(yielded := true))
  {
    var t := s.PutEvent(id, true);
    SameWaitsOk(s, t);
    OtherEvents(s, id);
    DrainInv(s, t, Waiters(Obj(EventKind, id)));
  }

  lemma {:induction false} SetEventInv(s: State, id: int)
    requires Inv(s) && s.current.Some?
    ensures Inv(SetEvent(s, id).0)
  {
    if id in s.events {
      RaisedInv(s, id);
    } else {
      assert SetEvent(s, id).0 == s;
    }
  }

  lemma {:induction false} ResetEventInv(s: State, id: int)
    requires Inv(s)
    ensures Inv(ResetEvent(s, id).0)
  {
    var t := ResetEvent(s, id).0;
    SameWaitsOk(s, t);
    forall q | t.Queue(q) != [] ensures Unavailable(t, q) {
      assert s.Queue(q) == t.Queue(q);
      assert Unavailable(s, q);
    }
  }

  lemma {:induction false} WaitEventInv(s: State, id: int, timeout: int)
    requires Inv(s) && s.current.Some? && !s.yielded
    ensures Inv(WaitEvent(s, id, timeout).0)
  {
    if WaitEvent(s, id, timeout).1 == Parked {
      BlockInv(s, Waiters(Obj(EventKind, id)), s.current.value,
               if timeout == INFINITE then Fifo else ByPriority, true, timeout);
    }
  }

  lemma {:induction false} DisplayInv(s: State, id: int, m: Message)
    requires Inv(s) && s.current.Some?
    ensures Inv(DisplayBlackboard(s, id, m).0)
  {
    if DisplayBlackboard(s, id, m).1 == NoError {
      ShowInv(s, id, s.blackboards[id].(occupied := true, message := m));
    } else {
      assert DisplayBlackboard(s, id, m).0 == s;
    }
  }

  lemma {:induction false} ShowInv(s: State, id: int, b: Blackboard)
    requires Inv(s)
    ensures var u := WakeAll(s.PutBlackboard(id, b), Waiters(Obj(BlackboardKind, id)));
            Inv(u) && Inv(u.(yielded := true))
  {
    var t := s.PutBlackboard(id, b);
    SameWaitsOk(s, t);
    OtherBlackboards(s, id, b);
    DrainInv(s, t, Waiters(Obj(BlackboardKind, id)));
  }

  lemma {:induction false} ReadInv(s: State, id: int, timeout: int)
    requires Inv(s) && s.current.Some? && !s.yielded
    ensures Inv(ReadBlackboard(s, id, timeout).0)
  {
    if ReadBlackboard(s, id, timeout).1 == Parked {
      BlockInv(s, Waiters(Obj(BlackboardKind, id)), s.current.value, Fifo, timeout != INFINITE, timeout);
    }
  }

  lemma {:induction false} ClearInv(s: State, id: int)
    requires Inv(s)
    ensures Inv(ClearBlackboard(s, id).0)
  {
    var t := ClearBlackboard(s, id).0;
    SameWaitsOk(s, t);
    forall q | t.Queue(q) != [] ensures Unavailable(t, q) {
      assert s.Queue(q) == t.Queue(q);
      assert Unavailable(s, q);
    }
  }

  // ---------------------------------------------------------------- buffers

  lemma {:induction false} SendInv(s: State, id: int, m: Message, timeout: int)
    requires Inv(s) && s.current.Some? && !s.yielded
    ensures Inv(SendBuffer(s, id, m, timeout).0)
  {
    var r := SendBuffer(s, id, m, timeout);
    var o := Obj(BufferKind, id);
    if r.1 == NoError && s.Queue(Waiters(o)) == [] {
      SameWaitsOk(s, r.0);
      forall q | r.0.Queue(q) != [] ensures Unavailable(r.0, q) {
        assert s.Queue(q) == r.0.Queue(q);
        assert Unavailable(s, q);
      }
    } else if r.1 == NoError {
      DeliverInv(s, id, m);
    } else if r.1 == Parked {
      SendParkInv(s, id, m, timeout);
    }
  }

  /** Direct hand-off of a message to the first blocked reader. */
  lemma {:induction false} DeliverInv(s: State, id: int, m: Message)
    requires Inv(s) && id in s.buffers && s.Queue(Waiters(Obj(BufferKind, id))) != []
    ensures var b, q := s.buffers[id], Waiters(Obj(BufferKind, id));
            var t, w := Wake(s, q), s.Queue(q)[0];
            Inv(t.With(w, t.At(w).(message := m))
                 .PutBuffer(id, b.(sent := b.sent + [m], delivered := b.delivered + [m])).(yielded := true))
  {
    var b, q := s.buffers[id], Waiters(Obj(BufferKind, id));
    var w := s.Queue(q)[0];
    var objects := s.PutBuffer(id, b.(sent := b.sent + [m], delivered := b.delivered + [m])).objects;
    PassInv(s, q, objects);
    WakeCore(s, q);
    var t := Wake(s, q).(objects := objects, yielded := true);
    RecordInv(t, w, t.At(w).(message := m), true);
  }

  lemma {:induction false} SendParkInv(s: State, id: int, m: Message, timeout: int)
    requires Inv(s) && s.current.Some? && !s.yielded && SendBuffer(s, id, m, timeout).1 == Parked
    ensures Inv(SendBuffer(s, id, m, timeout).0)
  {
    var p, o := s.current.value, Obj(BufferKind, id);
    var b := s.buffers[id];
    var t := s.With(p, s.At(p).(message := m));
    AliveNotQueued(s, p);
    RecordInv(s, p, s.At(p).(message := m), false);
    assert t == t.(yielded := s.yielded);
    BlockInv(t, Writers(o), p, b.discipline, true, timeout);
    SentInv(Block(t, Writers(o), p, b.discipline, true, timeout), id, b.sent + [m]);
  }

  /** The history of a buffer plays no part in the invariant. */
  lemma {:induction false} SentInv(s: State, id: int, sent: seq<Message>)
    requires Inv(s) && id in s.buffers
    ensures Inv(s.PutBuffer(id, s.buffers[id].(sent := sent)))
  {
    var t := s.PutBuffer(id, s.buffers[id].(sent := sent));
    SameWaitsOk(s, t);
    forall q | t.Queue(q) != [] ensures Unavailable(t, q) {
      assert s.Queue(q) == t.Queue(q);
      assert Unavailable(s, q);
    }
  }

  lemma {:induction false} ReceiveInv(s: State, id: int, timeout: int)
    requires Inv(s) && s.current.Some? && !s.yielded
    ensures Inv(ReceiveBuffer(s, id, timeout).0)
  {
    var o := Obj(BufferKind, id);
    if id in s.buffers && !BadTimeout(s.now, timeout) {
      if |s.buffers[id].ring| == 0 {
        if timeout != 0 && s.At(s.current.value).owned.None? {
          BlockInv(s, Waiters(o), s.current.value, s.buffers[id].discipline, true, timeout);
        }
      } else if s.Queue(Writers(o)) == [] {
        TakeInv(s, id);
      } else {
        RefillInv(s, id);
      }
    }
  }

  /** A message leaves the ring and the first blocked sender's takes its place. */
  lemma {:induction false} RefillInv(s: State, id: int)
    requires Inv(s) && id in s.buffers && |s.buffers[id].ring| > 0 && s.Queue(Writers(Obj(BufferKind, id))) != []
    ensures var b, q := s.buffers[id], Writers(Obj(BufferKind, id));
            Inv(Wake(s, q).PutBuffer(id, b.(ring := b.ring[1..] + [s.At(s.Queue(q)[0]).message],
                                                          delivered := b.delivered + [b.ring[0]])).(yielded := true))
  {
    var b, q := s.buffers[id], Writers(Obj(BufferKind, id));
    PassInv(s, q, s.PutBuffer(id, b.(ring := b.ring[1..] + [s.At(s.Queue(q)[0]).message],
                                     delivered := b.delivered + [b.ring[0]])).objects);
  }

  lemma {:induction false} TakeInv(s: State, id: int)
    requires Inv(s) && id in s.buffers && |s.buffers[id].ring| > 0 && s.Queue(Writers(Obj(BufferKind, id))) == []
    ensures var b := s.buffers[id];
            Inv(s.PutBuffer(id, b.(ring := b.ring[1..], delivered := b.delivered + [b.ring[0]])))
  {
    var b := s.buffers[id];
    var t := s.PutBuffer(id, b.(ring := b.ring[1..], delivered := b.delivered + [b.ring[0]]));
    SameWaitsOk(s, t);
    forall q | t.Queue(q) != [] ensures Unavailable(t, q) {
      assert s.Queue(q) == t.Queue(q);
      assert Unavailable(s, q);
    }
  }
}
