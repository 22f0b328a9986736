/** Processes that neither execute nor wait in a queue are left alone. */
module Bystanders {
  import opened Apex
  import opened Sequences
  import opened Services
  import opened Invariant
  import opened Exact
  import opened Runs

  /** The record of `p` differs at most in its priority, and no queue gained `p`. */
  ghost predicate Undisturbed(s: State, t: State, p: Pid) {
    && p in s.procs && p in t.procs && t.procs[p] == s.procs[p].(priority := t.procs[p].priority)
    && !Queued(t, p) && t.now == s.now
  }

  lemma {:induction false} UndisturbedTrans(s: State, t: State, u: State, p: Pid)
    requires Undisturbed(s, t, p) && Undisturbed(t, u, p)
    ensures Undisturbed(s, u, p)
  {
  }

  lemma {:induction false} OtherRecord(s: State, t: State, p: Pid, w: Pid, x: Proc)
    requires Undisturbed(s, t, p) && w != p
    ensures Undisturbed(s, t.With(w, x), p)
  {
    assert forall q :: t.With(w, x).Queue(q) == t.Queue(q);
  }

  lemma {:induction false} BlockOther(s: State, q: QueueId, w: Pid, d: Discipline, record: bool, timeout: int, p: Pid)
    requires QueueOk(s) && p in s.procs && !Queued(s, p) && w in s.procs && !Queued(s, w) && w != p
    ensures Undisturbed(s, Block(s, q, w, d, record, timeout), p)
  {
    BlockQueues(s, q, w, d, record, timeout);
    var t := Block(s, q, w, d, record, timeout);
    forall r ensures p !in t.Queue(r) {
      if r != q {
        assert t.Queue(r) == s.Queue(r);
      }
    }
  }

  lemma {:induction false} WakeOther(s: State, q: QueueId, p: Pid)
    requires p in s.procs && !Queued(s, p) && s.Queue(q) != []
    ensures Undisturbed(s, Wake(s, q), p)
  {
    var t := Wake(s, q);
    assert s.Queue(q)[0] in s.Queue(q);
    forall r ensures p !in t.Queue(r) {
      assert p !in s.Queue(r);
      if r == q {
        assert forall x :: x in t.Queue(r) ==> x in s.Queue(r);
      }
    }
  }

  lemma {:induction false} WakeAllOther(s: State, q: QueueId, p: Pid)
    requires p in s.procs && !Queued(s, p)
    ensures Undisturbed(s, WakeAll(s, q), p)
    decreases |s.Queue(q)|
  {
    if s.Queue(q) != [] {
      WakeOther(s, q, p);
      WakeAllOther(Wake(s, q), q, p);
      UndisturbedTrans(s, Wake(s, q), WakeAll(s, q), p);
    }
  }

  lemma {:induction false} SameQueues(s: State, t: State, p: Pid)
    requires p in s.procs && !Queued(s, p) && t.waits == s.waits && p in t.procs && t.now == s.now
    requires t.procs[p] == s.procs[p].(priority := t.procs[p].priority)
    ensures Undisturbed(s, t, p)
  {
    assert forall q :: t.Queue(q) == s.Queue(q);
  }

  lemma {:induction false} SurrenderOther(s: State, id: int, w: Pid, p: Pid)
    requires p in s.procs && !Queued(s, p) && w != p
    ensures Undisturbed(s, Surrender(s, id, w), p)
  {
    var t, q := Free(s, id, w), Waiters(Obj(MutexKind, id));
    SameQueues(s, t, p);
    if t.Queue(q) != [] {
      var u, h := Wake(t, q), t.Queue(q)[0];
      assert h in t.Queue(q);
      WakeOther(t, q, p);
      SameQueues(u, Grant(u, id, h), p);
      UndisturbedTrans(s, t, u, p);
      UndisturbedTrans(s, u, Grant(u, id, h), p);
    }
  }

  lemma {:induction false} WithdrawOther(s: State, w: Pid, q: QueueId, p: Pid)
    requires p in s.procs && !Queued(s, p)
    ensures Undisturbed(s, Withdraw(s, w, q), p)
  {
    var t := Withdraw(s, w, q);
    RemoveKeeps(s.Queue(q), w);
    forall r ensures p !in t.Queue(r) {
      assert p !in s.Queue(r);
    }
  }

  lemma {:induction false} LeaveOther(s: State, w: Pid, k: Kind, p: Pid)
    requires p in s.procs && !Queued(s, p) && w != p
    ensures Undisturbed(s, Leave(s, w, k), p)
  {
    if s.At(w).waitingOn.Get(k).Some? {
      var o := Obj(k, s.At(w).waitingOn.Get(k).value);
      var t := Withdraw(s, w, Waiters(o));
      WithdrawOther(s, w, Waiters(o), p);
      WithdrawOther(t, w, Writers(o), p);
      var u := if k == BufferKind then Withdraw(t, w, Writers(o)) else t;
      UndisturbedTrans(s, t, Withdraw(t, w, Writers(o)), p);
      OtherRecord(s, u, p, w, u.At(w).(waitingOn := u.At(w).waitingOn.Set(k, None)));
    }
  }

  lemma {:induction false} StopOther(s: State, w: Pid, p: Pid)
    requires p in s.procs && !Queued(s, p) && w != p && s.current.Some?
    ensures Undisturbed(s, Stop(s, w).0, p)
  {
    var a := Leave(s, w, BlackboardKind);
    var b := Leave(a, w, BufferKind);
    var c := Leave(b, w, SemaphoreKind);
    var d := Leave(c, w, EventKind);
    var e := LeaveAll(s, w);
    LeaveOther(s, w, BlackboardKind, p);
    LeaveOther(a, w, BufferKind, p);
    LeaveOther(b, w, SemaphoreKind, p);
    LeaveOther(c, w, EventKind, p);
    LeaveOther(d, w, MutexKind, p);
    UndisturbedTrans(s, a, b, p);
    UndisturbedTrans(s, b, c, p);
    UndisturbedTrans(s, c, d, p);
    UndisturbedTrans(s, d, e, p);
    OtherRecord(s, e, p, w, Killed(e.At(w)));
    SameQueues(s, s, p);
    if Stop(s, w).0 != s {
      EndUndisturbed(s, e.With(w, Killed(e.At(w))), p);
    }
  }

  lemma {:induction false} EndUndisturbed(s: State, t: State, p: Pid)
    requires Undisturbed(s, t, p)
    ensures Undisturbed(s, t.(yielded := true), p)
  {
    assert forall q :: t.(yielded := true).Queue(q) == t.Queue(q);
  }

  /** `p` stands in no queue while another process executes. */
  ghost predicate Beside(s: State, p: Pid) {
    && p in s.procs && !Queued(s, p)
    && s.current.Some? && s.current != Some(p) && s.current.value in s.procs && !Queued(s, s.current.value)
    && QueueOk(s)
  }

  lemma {:induction false} AcquireBeside(s: State, id: int, timeout: int, p: Pid)
    requires Beside(s, p)
    ensures Undisturbed(s, KernelAcquire(s, id, timeout).0, p)
  {
    var w, r := s.current.value, KernelAcquire(s, id, timeout);
    if r.1 == Parked {
      BlockOther(s, Waiters(Obj(MutexKind, id)), w, s.mutexes[id].discipline, true, timeout, p);
    } else if r.1 == NoError && !s.mutexes[id].owned {
      SameQueues(s, Grant(s, id, w), p);
    } else {
      SameQueues(s, r.0, p);
    }
  }

  lemma {:induction false} ReleaseBeside(s: State, id: int, p: Pid)
    requires Beside(s, p)
    ensures Undisturbed(s, KernelRelease(s, id).0, p)
  {
    var w, r := s.current.value, KernelRelease(s, id);
    if r.1 == NoError && s.mutexes[id].locks == 1 {
      SurrenderOther(s, id, w, p);
      EndUndisturbed(s, Surrender(s, id, w), p);
    } else {
      SameQueues(s, r.0, p);
    }
  }

  lemma {:induction false} LevelUndisturbed(s: State, t: State, level: int, p: Pid)
    requires Undisturbed(s, t, p)
    ensures Undisturbed(s, t.(lockLevel := level), p)
  {
    assert forall q :: t.(lockLevel := level).Queue(q) == t.Queue(q);
  }

  lemma {:induction false} LockBeside(s: State, e: Event, p: Pid)
    requires Beside(s, p) && Enabled(s, e) && (e.Lock? || e.Unlock?)
    ensures Undisturbed(s, Next(s, e), p)
  {
    AcquireBeside(s, PREEMPTION_LOCK, INFINITE, p);
    ReleaseBeside(s, PREEMPTION_LOCK, p);
    SameQueues(s, s, p);
    var r := if e.Lock? then KernelAcquire(s, PREEMPTION_LOCK, INFINITE).0 else KernelRelease(s, PREEMPTION_LOCK).0;
    LevelUndisturbed(s, r, r.MutexAt(PREEMPTION_LOCK).locks, p);
  }

  lemma {:induction false} MutexBeside(s: State, e: Event, p: Pid)
    requires Beside(s, p) && Enabled(s, e) && (e.Acquire? || e.Release? || e.Reset?)
    ensures Undisturbed(s, Next(s, e), p)
  {
    SameQueues(s, s, p);
    if e.Acquire? {
      AcquireBeside(s, e.id, e.timeout, p);
    } else if e.Release? {
      ReleaseBeside(s, e.id, p);
    } else if ResetMutex(s, e.id, e.pid).1 == NoError {
      SurrenderOther(s, e.id, e.pid, p);
      EndUndisturbed(s, Surrender(s, e.id, e.pid), p);
    }
  }

  lemma {:induction false} TakeBeside(s: State, id: int, n: int, p: Pid)
    requires Beside(s, p)
    ensures Undisturbed(s, WaitSemaphore(s, id, n).0, p)
  {
    var w, r := s.current.value, WaitSemaphore(s, id, n);
    if r.1 == Parked {
      BlockOther(s, Waiters(Obj(SemaphoreKind, id)), w, s.semaphores[id].discipline, n != INFINITE, n, p);
    } else {
      SameQueues(s, r.0, p);
    }
  }

  /** A queue changes like that of `t`, and objects do not matter. */
  lemma {:induction false} ObjectsUndisturbed(s: State, t: State, u: State, p: Pid)
    requires Undisturbed(s, t, p) && u.waits == t.waits && u.now == t.now && p in u.procs
    requires u.procs[p] == t.procs[p]
    ensures Undisturbed(s, u, p)
  {
    assert forall q :: u.Queue(q) == t.Queue(q);
  }

  lemma {:induction false} GiveBeside(s: State, id: int, p: Pid)
    requires Beside(s, p)
    ensures Undisturbed(s, SignalSemaphore(s, id).0, p)
  {
    var q, r := Waiters(Obj(SemaphoreKind, id)), SignalSemaphore(s, id);
    SameQueues(s, s, p);
    if r.1 == NoError && s.Queue(q) != [] {
      WakeOther(s, q, p);
      ObjectsUndisturbed(s, Wake(s, q), r.0, p);
    } else {
      ObjectsUndisturbed(s, s, r.0, p);
    }
  }

  lemma {:induction false} AwaitBeside(s: State, id: int, n: int, p: Pid)
    requires Beside(s, p)
    ensures Undisturbed(s, WaitEvent(s, id, n).0, p)
  {
    SameQueues(s, s, p);
    var d := if n == INFINITE then Fifo else ByPriority;
    BlockOther(s, Waiters(Obj(EventKind, id)), s.current.value, d, true, n, p);
  }

  lemma {:induction false} ReadBeside(s: State, id: int, n: int, p: Pid)
    requires Beside(s, p)
    ensures Undisturbed(s, ReadBlackboard(s, id, n).0, p)
  {
    SameQueues(s, s, p);
    BlockOther(s, Waiters(Obj(BlackboardKind, id)), s.current.value, Fifo, n != INFINITE, n, p);
  }

  lemma {:induction false} WaitBeside(s: State, e: Event, p: Pid)
    requires Beside(s, p) && Enabled(s, e) && (e.Await? || e.Read?)
    ensures Undisturbed(s, Next(s, e), p)
  {
    if e.Await? {
      AwaitBeside(s, e.id, e.timeout, p);
    } else {
      ReadBeside(s, e.id, e.timeout, p);
    }
  }

  lemma {:induction false} DrainOther(s: State, t: State, q: QueueId, p: Pid)
    requires Beside(s, p) && Undisturbed(s, t, p)
    ensures Undisturbed(s, WakeAll(t, q), p) && Undisturbed(s, WakeAll(t, q).(yielded := true), p)
  {
    WakeAllOther(t, q, p);
    UndisturbedTrans(s, t, WakeAll(t, q), p);
    EndUndisturbed(s, WakeAll(t, q), p);
  }

  lemma {:induction false} DrainBeside(s: State, e: Event, p: Pid)
    requires Beside(s, p) && Enabled(s, e) && (e.Raise? || e.Display?)
    ensures Undisturbed(s, Next(s, e), p)
  {
    SameQueues(s, s, p);
    if e.Raise? {
      var t := s.PutEvent(e.id, true);
      ObjectsUndisturbed(s, s, t, p);
      DrainOther(s, t, Waiters(Obj(EventKind, e.id)), p);
    } else if e.id in s.blackboards {
      var t := s.PutBlackboard(e.id, s.blackboards[e.id].(occupied := true, message := e.message));
      ObjectsUndisturbed(s, s, t, p);
      DrainOther(s, t, Waiters(Obj(BlackboardKind, e.id)), p);
    }
  }

  lemma {:induction false} SendBeside(s: State, id: int, m: Message, n: int, p: Pid)
    requires Beside(s, p)
    ensures Undisturbed(s, SendBuffer(s, id, m, n).0, p)
  {
    var w, r, o := s.current.value, SendBuffer(s, id, m, n), Obj(BufferKind, id);
    SameQueues(s, s, p);
    if r.1 == Parked {
      SendParkBeside(s, id, m, n, p);
    } else if r.1 == NoError && s.Queue(Waiters(o)) != [] {
      var h, t := s.Queue(Waiters(o))[0], Wake(s, Waiters(o));
      assert h in s.Queue(Waiters(o));
      WakeOther(s, Waiters(o), p);
      ObjectsUndisturbed(s, t, r.0, p);
    } else {
      ObjectsUndisturbed(s, s, r.0, p);
    }
  }

  lemma {:induction false} SendParkBeside(s: State, id: int, m: Message, n: int, p: Pid)
    requires Beside(s, p) && SendBuffer(s, id, m, n).1 == Parked
    ensures Undisturbed(s, SendBuffer(s, id, m, n).0, p)
  {
    var w, q, d := s.current.value, Writers(Obj(BufferKind, id)), s.buffers[id].discipline;
    var t := s.With(w, s.At(w).(message := m));
    SameQueues(s, t, p);
    MessageBeside(s, m, p);
    BlockOther(t, q, w, d, true, n, p);
    var u := Block(t, q, w, d, true, n);
    UndisturbedTrans(s, t, u, p);
    ObjectsUndisturbed(s, u, SendBuffer(s, id, m, n).0, p);
  }

  lemma {:induction false} MessageBeside(s: State, m: Message, p: Pid)
    requires Beside(s, p)
    ensures var w := s.current.value; Beside(s.With(w, s.At(w).(message := m)), p)
  {
    var w := s.current.value;
    assert forall r :: s.With(w, s.At(w).(message := m)).Queue(r) == s.Queue(r);
  }

  lemma {:induction false} ReceiveBeside(s: State, id: int, n: int, p: Pid)
    requires Beside(s, p)
    ensures Undisturbed(s, ReceiveBuffer(s, id, n).0, p)
  {
    var w, r, o := s.current.value, ReceiveBuffer(s, id, n), Obj(BufferKind, id);
    SameQueues(s, s, p);
    if r.1 == Parked {
      BlockOther(s, Waiters(o), w, s.buffers[id].discipline, true, n, p);
    } else if r.1 == NoError && s.Queue(Writers(o)) != [] {
      WakeOther(s, Writers(o), p);
      ObjectsUndisturbed(s, Wake(s, Writers(o)), r.0, p);
    } else {
      ObjectsUndisturbed(s, s, r.0, p);
    }
  }

  /** `e` is a call of SUSPEND, RESUME, START or STOP on `p`. */
  predicate Targets(e: Event, p: Pid) {
    (e.Sleep? || e.Rouse? || e.Launch? || e.Quit?) && e.pid == p
  }

  lemma {:induction false} ProcessBeside(s: State, e: Event, p: Pid)
    requires Beside(s, p) && Enabled(s, e) && !Targets(e, p)
    requires e.Prioritize? || e.SleepSelf? || e.Sleep? || e.Rouse? || e.Launch?
    ensures Undisturbed(s, Next(s, e), p)
  {
    SameQueues(s, Next(s, e), p);
  }

  lemma {:induction false} TimeBeside(s: State, e: Event, p: Pid)
    requires Beside(s, p) && Enabled(s, e) && (e.Delay? || e.NextPeriod? || e.Lower? || e.Clear? || e.Refresh?)
    ensures Undisturbed(s, Next(s, e), p)
  {
    SameQueues(s, Next(s, e), p);
  }

  lemma {:induction false} StopSelfBeside(s: State, p: Pid)
    requires Beside(s, p)
    ensures Undisturbed(s, StopSelf(s), p)
  {
    var w := s.current.value;
    var t := s.With(w, s.At(w).(deadline := INFINITE));
    SameQueues(s, t, p);
    var owned := s.At(w).owned;
    if owned.None? {
      OtherRecord(s, t, p, w, t.At(w).(state := Dormant, timer := 0, suspended := false));
      EndUndisturbed(s, t.With(w, t.At(w).(state := Dormant, timer := 0, suspended := false)), p);
    } else {
      var v := if owned.value == PREEMPTION_LOCK then t.(lockLevel := 0) else t;
      ObjectsUndisturbed(s, t, v, p);
      SurrenderOther(v, owned.value, w, p);
      var u := Surrender(v, owned.value, w);
      UndisturbedTrans(s, v, u, p);
      OtherRecord(s, u, p, w, u.At(w).(state := Dormant, timer := 0, suspended := false));
      EndUndisturbed(s, u.With(w, u.At(w).(state := Dormant, timer := 0, suspended := false)), p);
    }
  }

  lemma {:induction false} CommunicationBeside(s: State, e: Event, p: Pid)
    requires Beside(s, p) && Enabled(s, e) && (e.Take? || e.Give? || e.Send? || e.Receive?)
    ensures Undisturbed(s, Next(s, e), p)
  {
    match e
    case Take(id, n) => TakeBeside(s, id, n, p);
    case Give(id) => GiveBeside(s, id, p);
    case Send(id, m, n) => SendBeside(s, id, m, n, p);
    case Receive(id, n) => ReceiveBeside(s, id, n, p);
  }

  /** No service called by another process disturbs a process that stands in no queue, unless it is aimed at it. */
  lemma {:induction false} ServiceBeside(s: State, e: Event, p: Pid)
    requires Beside(s, p) && Enabled(s, e) && !e.Dispatch? && !e.Clock? && !Targets(e, p)
    ensures Undisturbed(s, Next(s, e), p)
  {
    if e.Acquire? || e.Release? || e.Reset? {
      MutexBeside(s, e, p);
    } else if e.Lock? || e.Unlock? {
      LockBeside(s, e, p);
    } else if e.Take? || e.Give? || e.Send? || e.Receive? {
      CommunicationBeside(s, e, p);
    } else if e.Await? || e.Read? {
      WaitBeside(s, e, p);
    } else if e.Raise? || e.Display? {
      DrainBeside(s, e, p);
    } else if e.Quit? {
      StopOther(s, e.pid, p);
    } else if e.QuitSelf? {
      StopSelfBeside(s, p);
    } else if e.Prioritize? || e.SleepSelf? || e.Sleep? || e.Rouse? || e.Launch? {
      ProcessBeside(s, e, p);
    } else {
      TimeBeside(s, e, p);
    }
  }
}
