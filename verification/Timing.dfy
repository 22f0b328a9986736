/** What the steps of others do to a process's release point, deadline and time counter. */
module Timing {
  import opened Apex
  import opened Sequences
  import opened Services
  import opened Invariant
  import opened Exact
  import opened Runs

  function Pace(s: State, p: Pid): (int, int, int, int) {
    var x := s.At(p);
    (x.release, x.deadline, x.period, x.capacity)
  }

  /** The release point and the deadline stay, `p` does not become FAULTED, and time does not go back. */
  predicate Kept(s: State, t: State, p: Pid) {
    Pace(t, p) == Pace(s, p) && (t.At(p).state == Faulted ==> s.At(p).state == Faulted) && s.now <= t.now
  }

  /** The time counter of `p` stays, or an armed one is cancelled because `p` was served. */
  predicate Ticks(s: State, t: State, p: Pid) {
    t.At(p).timer == s.At(p).timer
    || (s.At(p).timer != 0 && t.At(p).timer == INFINITE && t.At(p).state == Ready)
  }

  lemma {:induction false} BlockKept(s: State, q: QueueId, w: Pid, d: Discipline, record: bool, timeout: int, p: Pid)
    ensures Kept(s, Block(s, q, w, d, record, timeout), p)
    ensures p != w ==> Ticks(s, Block(s, q, w, d, record, timeout), p)
  {
  }

  lemma {:induction false} WakeKept(s: State, q: QueueId, p: Pid)
    requires s.Queue(q) != []
    ensures Kept(s, Wake(s, q), p) && Ticks(s, Wake(s, q), p)
    ensures s.At(p).state == Ready ==> Wake(s, q).At(p).state == Ready
  {
  }

  lemma {:induction false} WakeAllKept(s: State, q: QueueId, p: Pid)
    ensures Kept(s, WakeAll(s, q), p) && Ticks(s, WakeAll(s, q), p)
    ensures s.At(p).state == Ready ==> WakeAll(s, q).At(p).state == Ready
    decreases |s.Queue(q)|
  {
    if s.Queue(q) != [] {
      WakeKept(s, q, p);
      WakeAllKept(Wake(s, q), q, p);
    }
  }

  lemma {:induction false} GrantKept(s: State, id: int, w: Pid, p: Pid)
    ensures Kept(s, Grant(s, id, w), p) && Kept(s, Free(s, id, w), p)
    ensures Grant(s, id, w).At(p).timer == s.At(p).timer && Grant(s, id, w).At(p).state == s.At(p).state
    ensures Free(s, id, w).At(p).timer == s.At(p).timer && Free(s, id, w).At(p).state == s.At(p).state
  {
  }

  lemma {:induction false} SurrenderKept(s: State, id: int, w: Pid, p: Pid)
    ensures Kept(s, Surrender(s, id, w), p) && Ticks(s, Surrender(s, id, w), p)
  {
    var t, q := Free(s, id, w), Waiters(Obj(MutexKind, id));
    GrantKept(s, id, w, p);
    if t.Queue(q) != [] {
      WakeKept(t, q, p);
      GrantKept(Wake(t, q), id, t.Queue(q)[0], p);
    }
  }

  lemma {:induction false} LeaveKept(s: State, w: Pid, k: Kind, p: Pid)
    ensures Kept(s, Leave(s, w, k), p) && Leave(s, w, k).At(p).timer == s.At(p).timer
  {
    if s.At(w).waitingOn.Get(k).Some? {
      var o := Obj(k, s.At(w).waitingOn.Get(k).value);
      WithdrawKept(s, w, Waiters(o));
      WithdrawKept(Withdraw(s, w, Waiters(o)), w, Writers(o));
    }
  }

  lemma {:induction false} WithdrawKept(s: State, w: Pid, q: QueueId)
    ensures Withdraw(s, w, q).procs == s.procs && Withdraw(s, w, q).now == s.now
  {
  }

  lemma {:induction false} StopKept(s: State, target: Pid, p: Pid)
    requires s.current.Some? && target != p
    ensures Kept(s, Stop(s, target).0, p) && Ticks(s, Stop(s, target).0, p)
  {
    var a := Leave(s, target, BlackboardKind);
    var b := Leave(a, target, BufferKind);
    var c := Leave(b, target, SemaphoreKind);
    LeaveKept(s, target, BlackboardKind, p);
    LeaveKept(a, target, BufferKind, p);
    LeaveKept(b, target, SemaphoreKind, p);
    LeaveKept(c, target, EventKind, p);
    LeaveKept(Leave(c, target, EventKind), target, MutexKind, p);
  }

  lemma {:induction false} StopSelfKept(s: State, p: Pid)
    requires s.current.Some? && s.current != Some(p)
    ensures Kept(s, StopSelf(s), p) && Ticks(s, StopSelf(s), p)
  {
    var c := s.current.value;
    var t := s.With(c, s.At(c).(deadline := INFINITE));
    var owned := s.At(c).owned;
    if owned.Some? {
      SurrenderKept(if owned.value == PREEMPTION_LOCK then t.(lockLevel := 0) else t, owned.value, c, p);
    }
  }

  // ---------------------------------------------------------------- events

  /** The code with which a service returns or parks. */
  function CodeOf(s: State, e: Event): Code
    requires Enabled(s, e)
  {
    match e
    case Acquire(id, t) => AcquireMutex(s, id, t).1
    case Release(id) => ReleaseMutex(s, id).1
    case Reset(id, p) => ResetMutex(s, id, p).1
    case Lock => LockPreemption(s).1
    case Unlock => UnlockPreemption(s).1
    case Prioritize(p, n) => SetPriority(s, p, n).1
    case SleepSelf(t) => SuspendSelf(s, t).1
    case Sleep(p) => Suspend(s, p).1
    case Rouse(p) => Resume(s, p).1
    case Quit(p) => Stop(s, p).1
    case Launch(p, f) => Start(s, p, f).1
    case Delay(t) => TimedWait(s, t).1
    case NextPeriod => PeriodicWait(s).1
    case Take(id, t) => WaitSemaphore(s, id, t).1
    case Give(id) => SignalSemaphore(s, id).1
    case Raise(id) => SetEvent(s, id).1
    case Lower(id) => ResetEvent(s, id).1
    case Await(id, t) => WaitEvent(s, id, t).1
    case Display(id, m) => DisplayBlackboard(s, id, m).1
    case Read(id, t) => ReadBlackboard(s, id, t).1
    case Clear(id) => ClearBlackboard(s, id).1
    case Send(id, m, t) => SendBuffer(s, id, m, t).1
    case Receive(id, t) => ReceiveBuffer(s, id, t).1
    case _ => NoError
  }

  /** `p` itself executes a service that may set its time counter: one that parks it, TIMED_WAIT or STOP_SELF. */
  predicate Rearms(s: State, e: Event, p: Pid)
    requires Enabled(s, e)
  {
    s.current == Some(p) && !e.Dispatch? && !e.Clock?
    && (CodeOf(s, e) == Parked || e.QuitSelf? || (e.Delay? && e.timeout != 0 && CodeOf(s, e) == NoError))
  }

  /** RESUME finds `p` suspended. */
  predicate Resumes(s: State, e: Event, p: Pid)
    requires Enabled(s, e)
  {
    e == Rouse(p) && s.At(p).suspended && CodeOf(s, e) == NoError
  }

  /** `e` sets the time counter of `p` to zero from outside: expiry, RESUME of a suspended `p`, or STOP. */
  predicate Zeroes(s: State, e: Event, p: Pid)
    requires Enabled(s, e)
  {
    match e
    case Clock(t) => Expired(s.At(p), t)
    case Rouse(_) => Resumes(s, e, p)
    case Quit(r) => r == p && Stop(s, r).1 != InvalidParam && Stop(s, r).1 != NoAction
    case _ => false
  }

  lemma {:induction false} AcquireKept(s: State, id: int, timeout: int, p: Pid)
    requires s.current.Some?
    ensures Kept(s, KernelAcquire(s, id, timeout).0, p)
    ensures s.current != Some(p) || KernelAcquire(s, id, timeout).1 != Parked ==>
              Ticks(s, KernelAcquire(s, id, timeout).0, p)
  {
    var r := KernelAcquire(s, id, timeout);
    if r.1 == Parked {
      BlockKept(s, Waiters(Obj(MutexKind, id)), s.current.value, s.mutexes[id].discipline, true, timeout, p);
    } else if r.1 == NoError && !s.mutexes[id].owned {
      GrantKept(s, id, s.current.value, p);
    }
  }

  lemma {:induction false} ReleaseKept(s: State, id: int, p: Pid)
    requires s.current.Some?
    ensures Kept(s, KernelRelease(s, id).0, p) && Ticks(s, KernelRelease(s, id).0, p)
  {
    var r := KernelRelease(s, id);
    if r.1 == NoError && s.MutexAt(id).locks == 1 {
      SurrenderKept(s, id, s.current.value, p);
    } else {
      assert r.0.procs == s.procs;
    }
  }

  lemma {:induction false} MutexKept(s: State, e: Event, p: Pid)
    requires Enabled(s, e) && (e.Acquire? || e.Release? || e.Reset? || e.Lock? || e.Unlock?)
    ensures Kept(s, Next(s, e), p) && (!Rearms(s, e, p) ==> Ticks(s, Next(s, e), p))
  {
    if e.Lock? || e.Unlock? {
      LockKept(s, e, p);
    } else {
      match e
      case Acquire(id, t) => AcquireKept(s, id, t, p);
      case Release(id) => ReleaseKept(s, id, p);
      case Reset(id, r) => SurrenderKept(s, id, r, p);
    }
  }

  lemma {:induction false} LockKept(s: State, e: Event, p: Pid)
    requires Enabled(s, e) && (e.Lock? || e.Unlock?)
    ensures Kept(s, Next(s, e), p) && (!Rearms(s, e, p) ==> Ticks(s, Next(s, e), p))
  {
    if e.Lock? {
      AcquireKept(s, PREEMPTION_LOCK, INFINITE, p);
      RefreshKept(KernelAcquire(s, PREEMPTION_LOCK, INFINITE));
    } else {
      ReleaseKept(s, PREEMPTION_LOCK, p);
      RefreshKept(KernelRelease(s, PREEMPTION_LOCK));
    }
  }

  lemma {:induction false} RefreshKept(r: Reply)
    ensures AfterLockCall(r).0.procs == r.0.procs && AfterLockCall(r).0.now == r.0.now && AfterLockCall(r).1 == r.1
  {
  }

  lemma {:induction false} TakeKept(s: State, id: int, n: int, p: Pid)
    requires s.current.Some?
    ensures Kept(s, WaitSemaphore(s, id, n).0, p)
    ensures s.current != Some(p) || WaitSemaphore(s, id, n).1 != Parked ==> Ticks(s, WaitSemaphore(s, id, n).0, p)
  {
    var r := WaitSemaphore(s, id, n);
    if r.1 == Parked {
      BlockKept(s, Waiters(Obj(SemaphoreKind, id)), s.current.value, s.semaphores[id].discipline, n != INFINITE, n, p);
    } else {
      assert r.0.procs == s.procs;
    }
  }

  lemma {:induction false} GiveKept(s: State, id: int, p: Pid)
    requires s.current.Some?
    ensures Kept(s, SignalSemaphore(s, id).0, p) && Ticks(s, SignalSemaphore(s, id).0, p)
  {
    var r, q := SignalSemaphore(s, id), Waiters(Obj(SemaphoreKind, id));
    if r.1 == NoError && s.Queue(q) != [] {
      WakeKept(s, q, p);
    } else {
      assert r.0.procs == s.procs;
    }
  }

  lemma {:induction false} AwaitKept(s: State, id: int, n: int, p: Pid)
    requires s.current.Some?
    ensures Kept(s, WaitEvent(s, id, n).0, p)
    ensures s.current != Some(p) || WaitEvent(s, id, n).1 != Parked ==> Ticks(s, WaitEvent(s, id, n).0, p)
  {
    BlockKept(s, Waiters(Obj(EventKind, id)), s.current.value, if n == INFINITE then Fifo else ByPriority, true, n, p);
  }

  lemma {:induction false} ReadKept(s: State, id: int, n: int, p: Pid)
    requires s.current.Some?
    ensures Kept(s, ReadBlackboard(s, id, n).0, p)
    ensures s.current != Some(p) || ReadBlackboard(s, id, n).1 != Parked ==> Ticks(s, ReadBlackboard(s, id, n).0, p)
  {
    BlockKept(s, Waiters(Obj(BlackboardKind, id)), s.current.value, Fifo, n != INFINITE, n, p);
  }

  lemma {:induction false} WaitKept(s: State, e: Event, p: Pid)
    requires Enabled(s, e) && (e.Take? || e.Give? || e.Await? || e.Read?)
    ensures Kept(s, Next(s, e), p) && (!Rearms(s, e, p) ==> Ticks(s, Next(s, e), p))
  {
    if e.Take? || e.Give? {
      SemaphoreKept(s, e, p);
    } else if e.Await? {
      AwaitKept(s, e.id, e.timeout, p);
    } else {
      ReadKept(s, e.id, e.timeout, p);
    }
  }

  lemma {:induction false} SemaphoreKept(s: State, e: Event, p: Pid)
    requires Enabled(s, e) && (e.Take? || e.Give?)
    ensures Kept(s, Next(s, e), p) && (!Rearms(s, e, p) ==> Ticks(s, Next(s, e), p))
  {
    if e.Take? {
      TakeKept(s, e.id, e.timeout, p);
    } else {
      GiveKept(s, e.id, p);
    }
  }

  lemma {:induction false} DrainKept(s: State, e: Event, p: Pid)
    requires Enabled(s, e) && (e.Raise? || e.Display?)
    ensures Kept(s, Next(s, e), p) && Ticks(s, Next(s, e), p)
  {
    if e.Raise? {
      RaiseKept(s, e.id, p);
    } else {
      DisplayKept(s, e.id, e.message, p);
    }
  }

  lemma {:induction false} RaiseKept(s: State, id: int, p: Pid)
    requires s.current.Some?
    ensures Kept(s, SetEvent(s, id).0, p) && Ticks(s, SetEvent(s, id).0, p)
  {
    WakeAllKept(s.PutEvent(id, true), Waiters(Obj(EventKind, id)), p);
  }

  lemma {:induction false} DisplayKept(s: State, id: int, m: Message, p: Pid)
    requires s.current.Some?
    ensures Kept(s, DisplayBlackboard(s, id, m).0, p) && Ticks(s, DisplayBlackboard(s, id, m).0, p)
  {
    if id in s.blackboards {
      WakeAllKept(s.PutBlackboard(id, s.blackboards[id].(occupied := true, message := m)),
                  Waiters(Obj(BlackboardKind, id)), p);
    }
  }

  lemma {:induction false} SendKept(s: State, id: int, m: Message, n: int, p: Pid)
    requires s.current.Some?
    ensures Kept(s, SendBuffer(s, id, m, n).0, p)
    ensures s.current != Some(p) || SendBuffer(s, id, m, n).1 != Parked ==> Ticks(s, SendBuffer(s, id, m, n).0, p)
  {
    var r, o := SendBuffer(s, id, m, n), Obj(BufferKind, id);
    if r.1 == Parked {
      SendParkKept(s, id, m, n, p);
    } else if r.1 == NoError && s.Queue(Waiters(o)) != [] {
      WakeKept(s, Waiters(o), p);
    } else {
      assert r.0.procs == s.procs;
    }
  }

  lemma {:induction false} SendParkKept(s: State, id: int, m: Message, n: int, p: Pid)
    requires s.current.Some? && SendBuffer(s, id, m, n).1 == Parked
    ensures Kept(s, SendBuffer(s, id, m, n).0, p)
    ensures s.current != Some(p) ==> Ticks(s, SendBuffer(s, id, m, n).0, p)
  {
    var w := s.current.value;
    BlockKept(s.With(w, s.At(w).(message := m)), Writers(Obj(BufferKind, id)), w, s.buffers[id].discipline, true, n, p);
  }

  lemma {:induction false} ReceiveKept(s: State, id: int, n: int, p: Pid)
    requires s.current.Some?
    ensures Kept(s, ReceiveBuffer(s, id, n).0, p)
    ensures s.current != Some(p) || ReceiveBuffer(s, id, n).1 != Parked ==> Ticks(s, ReceiveBuffer(s, id, n).0, p)
  {
    var r, o := ReceiveBuffer(s, id, n), Obj(BufferKind, id);
    if r.1 == Parked {
      BlockKept(s, Waiters(o), s.current.value, s.buffers[id].discipline, true, n, p);
    } else if r.1 == NoError && s.Queue(Writers(o)) != [] {
      WakeKept(s, Writers(o), p);
    } else {
      assert r.0.procs == s.procs;
    }
  }

  lemma {:induction false} BufferKept(s: State, e: Event, p: Pid)
    requires Enabled(s, e) && (e.Send? || e.Receive?)
    ensures Kept(s, Next(s, e), p) && (!Rearms(s, e, p) ==> Ticks(s, Next(s, e), p))
  {
    if e.Send? {
      SendKept(s, e.id, e.message, e.timeout, p);
    } else {
      ReceiveKept(s, e.id, e.timeout, p);
    }
  }

  lemma {:induction false} ProcessKept(s: State, e: Event, p: Pid)
    requires Enabled(s, e) && (e.Prioritize? || e.SleepSelf? || e.Sleep? || e.Rouse? || e.Delay?)
    ensures Kept(s, Next(s, e), p)
    ensures !Rearms(s, e, p) && !Zeroes(s, e, p) ==> Ticks(s, Next(s, e), p)
  {
    if e.Prioritize? {
      PrioritizeKept(s, e.pid, e.priority, p);
    } else if e.Sleep? || e.Rouse? {
      SuspensionKept(s, e, p);
    }
  }

  lemma {:induction false} PrioritizeKept(s: State, r: Pid, n: int, p: Pid)
    requires s.current.Some?
    ensures Kept(s, SetPriority(s, r, n).0, p) && SetPriority(s, r, n).0.At(p).timer == s.At(p).timer
  {
  }

  lemma {:induction false} SuspensionKept(s: State, e: Event, p: Pid)
    requires Enabled(s, e) && (e.Sleep? || e.Rouse?)
    ensures Kept(s, Next(s, e), p) && (!Zeroes(s, e, p) ==> Ticks(s, Next(s, e), p))
  {
  }

  lemma {:induction false} ClockKept(s: State, e: Event, p: Pid)
    requires Enabled(s, e) && (e.Dispatch? || e.Clock?)
    ensures e.Dispatch? || s.At(p).period != INFINITE ==> Kept(s, Next(s, e), p)
    ensures !Zeroes(s, e, p) ==> Ticks(s, Next(s, e), p)
  {
    if e.Dispatch? {
      ScheduleKept(s, p);
    } else {
      TickKept(s, e.time, p);
    }
  }

  lemma {:induction false} ScheduleKept(s: State, p: Pid)
    ensures Kept(s, Schedule(s), p) && Schedule(s).At(p).timer == s.At(p).timer
  {
    var t := Preempted(s);
    assert Kept(s, t, p) && t.At(p).timer == s.At(p).timer;
  }

  lemma {:induction false} TickKept(s: State, now: int, p: Pid)
    requires s.now <= now
    ensures s.At(p).period != INFINITE ==> Kept(s, Tick(s, now), p)
    ensures !Expired(s.At(p), now) ==> Tick(s, now).At(p).timer == s.At(p).timer
  {
  }

  /** The events that start or end an activation of `p`. */
  predicate Restarts(s: State, e: Event, p: Pid) {
    match e
    case Launch(r, _) => r == p
    case Quit(r) => r == p
    case QuitSelf => s.current == Some(p)
    case _ => false
  }

  /** How many release points `e` moves `p` forward: one for a successful PERIODIC_WAIT of its own. */
  function Advance(s: State, e: Event, p: Pid): nat
    requires Enabled(s, e)
  {
    if e.NextPeriod? && s.current == Some(p) && PeriodicWait(s).1 == NoError then 1 else 0
  }

  lemma {:induction false} KeptEvent(s: State, e: Event, p: Pid)
    requires Enabled(s, e) && !Restarts(s, e, p) && s.At(p).period != INFINITE && Advance(s, e, p) == 0
    ensures Kept(s, Next(s, e), p)
  {
    if e.Acquire? || e.Release? || e.Reset? || e.Lock? || e.Unlock? {
      MutexKept(s, e, p);
    } else if e.Take? || e.Give? || e.Await? || e.Read? {
      WaitKept(s, e, p);
    } else if e.Raise? || e.Display? {
      DrainKept(s, e, p);
    } else if e.Send? || e.Receive? {
      BufferKept(s, e, p);
    } else if e.Dispatch? || e.Clock? {
      ClockKept(s, e, p);
    } else {
      OtherKept(s, e, p);
    }
  }

  lemma {:induction false} OtherKept(s: State, e: Event, p: Pid)
    requires Enabled(s, e) && !Restarts(s, e, p) && Advance(s, e, p) == 0
    requires e.Prioritize? || e.SleepSelf? || e.Sleep? || e.Rouse? || e.Delay? || e.Quit? || e.QuitSelf? || e.Launch?
             || e.NextPeriod? || e.Refresh? || e.Lower? || e.Clear?
    ensures Kept(s, Next(s, e), p)
  {
    match e
    case Quit(r) => StopKept(s, r, p);
    case QuitSelf => StopSelfKept(s, p);
    case Launch(_, _) =>
    case NextPeriod =>
    case Refresh =>
    case Lower(_) =>
    case Clear(_) =>
    case _ => ProcessKept(s, e, p);
  }

  /** Unless `p` sets it itself or one of three steps zeroes it, the time counter stays or is cancelled. */
  lemma {:induction false} TicksEvent(s: State, e: Event, p: Pid)
    requires Enabled(s, e) && !Rearms(s, e, p) && !Zeroes(s, e, p)
    ensures Ticks(s, Next(s, e), p)
  {
    if e.Acquire? || e.Release? || e.Reset? || e.Lock? || e.Unlock? {
      MutexKept(s, e, p);
    } else if e.Take? || e.Give? || e.Await? || e.Read? {
      WaitKept(s, e, p);
    } else if e.Raise? || e.Display? {
      DrainKept(s, e, p);
    } else if e.Send? || e.Receive? {
      BufferKept(s, e, p);
    } else if e.Dispatch? || e.Clock? {
      ClockKept(s, e, p);
    } else {
      OtherTicks(s, e, p);
    }
  }

  lemma {:induction false} OtherTicks(s: State, e: Event, p: Pid)
    requires Enabled(s, e) && !Rearms(s, e, p) && !Zeroes(s, e, p)
    requires e.Prioritize? || e.SleepSelf? || e.Sleep? || e.Rouse? || e.Delay? || e.Quit? || e.QuitSelf? || e.Launch?
             || e.NextPeriod? || e.Refresh? || e.Lower? || e.Clear?
    ensures Ticks(s, Next(s, e), p)
  {
    match e
    case Quit(r) =>
      if r != p {
        StopKept(s, r, p);
      }
    case QuitSelf => StopSelfKept(s, p);
    case Launch(_, _) =>
    case NextPeriod =>
    case Refresh =>
    case Lower(_) =>
    case Clear(_) =>
    case _ => ProcessKept(s, e, p);
  }

  /** Each of the three steps does zero it. */
  lemma {:induction false} ZeroesEvent(s: State, e: Event, p: Pid)
    requires Enabled(s, e) && Zeroes(s, e, p)
    ensures Next(s, e).At(p).timer == 0
  {
  }
}
