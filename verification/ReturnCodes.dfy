/** Who leaves a wait queue got what it waited for, and what its service then returns. */
module ReturnCodes {
  import opened Apex
  import opened Sequences
  import opened Services
  import opened Invariant
  import opened Exact
  import opened Runs
  import opened Timing
  import opened Bystanders
  import Effects

  // ---------------------------------------------------------------- leaving a queue

  /** After `e`, `p` has what a waiter of `q` waits for, and can run. */
  ghost predicate Obtained(s: State, e: Event, t: State, p: Pid, q: QueueId)
    requires Enabled(s, e)
  {
    && t.At(p).state == Ready && t.At(p).timer == (if s.At(p).timer != 0 then INFINITE else 0)
    && match q
       case Waiters(Obj(MutexKind, id)) =>
         t.At(p).owned == Some(id) && t.MutexAt(id).owned && t.MutexAt(id).owner == p
       case Waiters(Obj(SemaphoreKind, id)) => e == Give(id) && CodeOf(s, e) == NoError
       case Waiters(Obj(EventKind, id)) => e == Raise(id) && id in t.events && t.events[id]
       case Waiters(Obj(BlackboardKind, id)) =>
         e.Display? && e.id == id && id in t.blackboards && t.blackboards[id].message == e.message
       case Waiters(Obj(BufferKind, id)) => e.Send? && e.id == id && t.At(p).message == e.message
       case Writers(Obj(BufferKind, id)) =>
         && e.Receive? && e.id == id && id in t.buffers && t.buffers[id].ring != []
         && t.buffers[id].ring[|t.buffers[id].ring| - 1] == s.At(p).message
       case Writers(_) => false
  }

  lemma {:induction false} WakeServes(s: State, r: QueueId, p: Pid, q: QueueId)
    requires s.Queue(r) != [] && p in s.Queue(q)
    ensures p in Wake(s, r).Queue(q) || (q == r && p == s.Queue(r)[0])
    ensures p == s.Queue(r)[0] ==> Wake(s, r).At(p) == Woken(s.At(p), r.obj.kind)
    ensures p != s.Queue(r)[0] ==> Wake(s, r).At(p) == s.At(p)
  {
    var waiting := s.Queue(r);
    assert waiting == [waiting[0]] + waiting[1..];
  }

  lemma {:induction false} WakeAllSpares(s: State, r: QueueId, p: Pid)
    requires p !in s.Queue(r)
    ensures WakeAll(s, r).At(p) == s.At(p)
    decreases |s.Queue(r)|
  {
    if s.Queue(r) != [] {
      assert s.Queue(r)[0] in s.Queue(r);
      assert forall x :: x in Wake(s, r).Queue(r) ==> x in s.Queue(r);
      WakeAllSpares(Wake(s, r), r, p);
    }
  }

  lemma {:induction false} WakeAllServes(s: State, r: QueueId, p: Pid, q: QueueId)
    requires QueueOk(s) && p in s.Queue(q)
    ensures q != r ==> p in WakeAll(s, r).Queue(q)
    ensures q == r ==> WakeAll(s, r).At(p) == Woken(s.At(p), r.obj.kind)
    decreases |s.Queue(r)|
  {
    if s.Queue(r) != [] {
      var t, w := Wake(s, r), s.Queue(r)[0];
      WakeServes(s, r, p, q);
      WakeQueueOk(s, r);
      if p == w && q == r {
        assert p !in t.Queue(r);
        WakeAllSpares(t, r, p);
      } else {
        assert w in s.Queue(r);
        WakeAllServes(t, r, p, q);
      }
    }
  }

  predicate HandedOver(s: State, t: State, id: int, p: Pid, q: QueueId) {
    && q == Waiters(Obj(MutexKind, id)) && t.At(p).state == Ready && t.At(p).owned == Some(id)
    && t.At(p).timer == (if s.At(p).timer != 0 then INFINITE else 0)
    && t.MutexAt(id).owned && t.MutexAt(id).owner == p
  }

  /** Whoever leaves the queue of a surrendered mutex owns it. */
  lemma {:induction false} SurrenderServes(s: State, id: int, w: Pid, p: Pid, q: QueueId)
    requires p in s.Queue(q) && p != w
    ensures p in Surrender(s, id, w).Queue(q) || HandedOver(s, Surrender(s, id, w), id, p, q)
  {
    var t, r := Free(s, id, w), Waiters(Obj(MutexKind, id));
    assert t.At(p) == s.At(p) && t.Queue(q) == s.Queue(q);
    if t.Queue(r) != [] {
      WakeServes(t, r, p, q);
      var u, h := Wake(t, r), t.Queue(r)[0];
      assert Grant(u, id, h).Queue(q) == u.Queue(q);
    }
  }

  lemma {:induction false} WithdrawSpares(s: State, w: Pid, r: QueueId, p: Pid, q: QueueId)
    requires p in s.Queue(q) && p != w
    ensures p in Withdraw(s, w, r).Queue(q)
  {
    if q == r && w in s.Queue(r) {
      RemoveSpares(s.Queue(r), w, p);
    }
  }

  lemma {:induction false} LeaveSpares(s: State, w: Pid, k: Kind, p: Pid, q: QueueId)
    requires p in s.Queue(q) && p != w
    ensures p in Leave(s, w, k).Queue(q)
  {
    if s.At(w).waitingOn.Get(k).Some? {
      var o := Obj(k, s.At(w).waitingOn.Get(k).value);
      WithdrawSpares(s, w, Waiters(o), p, q);
      WithdrawSpares(Withdraw(s, w, Waiters(o)), w, Writers(o), p, q);
    }
  }

  lemma {:induction false} StopSpares(s: State, w: Pid, p: Pid, q: QueueId)
    requires s.current.Some? && p in s.Queue(q) && p != w
    ensures p in Stop(s, w).0.Queue(q)
  {
    var a := Leave(s, w, BlackboardKind);
    var b := Leave(a, w, BufferKind);
    var c := Leave(b, w, SemaphoreKind);
    var d := Leave(c, w, EventKind);
    LeaveSpares(s, w, BlackboardKind, p, q);
    LeaveSpares(a, w, BufferKind, p, q);
    LeaveSpares(b, w, SemaphoreKind, p, q);
    LeaveSpares(c, w, EventKind, p, q);
    LeaveSpares(d, w, MutexKind, p, q);
  }

  /** Either `p` stays in `q`, or it got what it waited for. */
  ghost predicate Dealt(s: State, e: Event, p: Pid, q: QueueId)
    requires Enabled(s, e)
  {
    p in Next(s, e).Queue(q) || Obtained(s, e, Next(s, e), p, q)
  }

  lemma {:induction false} BlockSpares(s: State, r: QueueId, w: Pid, d: Discipline, record: bool, n: int, p: Pid,
      q: QueueId)
    requires QueueOk(s) && w in s.procs && !Queued(s, w) && p in s.Queue(q)
    ensures p in Block(s, r, w, d, record, n).Queue(q)
  {
    BlockQueues(s, r, w, d, record, n);
  }

  lemma {:induction false} MutexDeals(s: State, e: Event, p: Pid, q: QueueId)
    requires QueueOk(s) && Enabled(s, e) && (e.Acquire? || e.Release? || e.Reset? || e.Lock? || e.Unlock?)
    requires p in s.Queue(q) && s.current.value in s.procs && !Queued(s, s.current.value)
    ensures Dealt(s, e, p, q)
  {
    match e
    case Acquire(id, n) => AcquireSpares(s, id, n, p, q);
    case Lock => AcquireSpares(s, PREEMPTION_LOCK, INFINITE, p, q);
    case Release(id) => ReleaseDeals(s, id, p, q);
    case Unlock => ReleaseDeals(s, PREEMPTION_LOCK, p, q);
    case Reset(id, r) => ResetDeals(s, id, r, p, q);
  }

  lemma {:induction false} ReleaseDeals(s: State, id: int, p: Pid, q: QueueId)
    requires s.current.Some? && p in s.Queue(q) && p != s.current.value
    ensures var t := KernelRelease(s, id).0; p in t.Queue(q) || HandedOver(s, t, id, p, q)
  {
    SurrenderServes(s, id, s.current.value, p, q);
  }

  lemma {:induction false} ResetDeals(s: State, id: int, r: Pid, p: Pid, q: QueueId)
    requires s.current.Some? && p in s.Queue(q) && p != s.current.value
    ensures var t := ResetMutex(s, id, r).0; p in t.Queue(q) || HandedOver(s, t, id, p, q)
  {
    SurrenderServes(s, id, s.current.value, p, q);
  }

  lemma {:induction false} AcquireSpares(s: State, id: int, n: int, p: Pid, q: QueueId)
    requires QueueOk(s) && s.current.Some? && s.current.value in s.procs && !Queued(s, s.current.value)
             && p in s.Queue(q)
    ensures p in KernelAcquire(s, id, n).0.Queue(q)
  {
    var r := KernelAcquire(s, id, n);
    if r.1 == Parked {
      BlockSpares(s, Waiters(Obj(MutexKind, id)), s.current.value, s.mutexes[id].discipline, true, n, p, q);
    } else {
      assert r.0.waits == s.waits;
    }
  }

  lemma {:induction false} GiveDeals(s: State, id: int, p: Pid, q: QueueId)
    requires Enabled(s, Give(id)) && p in s.Queue(q)
    ensures Dealt(s, Give(id), p, q)
  {
    var r := Waiters(Obj(SemaphoreKind, id));
    if s.Queue(r) != [] {
      WakeServes(s, r, p, q);
    }
  }

  lemma {:induction false} RaiseDeals(s: State, id: int, p: Pid, q: QueueId)
    requires QueueOk(s) && Enabled(s, Raise(id)) && p in s.Queue(q)
    ensures Dealt(s, Raise(id), p, q)
  {
    SetDeals(s, id, p, q);
  }

  lemma {:induction false} SetDeals(s: State, id: int, p: Pid, q: QueueId)
    requires QueueOk(s) && s.current.Some? && p in s.Queue(q)
    ensures var t, r := SetEvent(s, id).0, Waiters(Obj(EventKind, id));
            p in t.Queue(q) || (q == r && t.At(p) == Woken(s.At(p), EventKind) && id in t.events && t.events[id])
  {
    var r, t := Waiters(Obj(EventKind, id)), s.PutEvent(id, true);
    if id in s.events && s.Queue(r) != [] {
      SameQueuesOk(s, t);
      WakeAllServes(t, r, p, q);
      WakeAllObjects(t, r);
    } else {
      assert SetEvent(s, id).0.waits == s.waits;
    }
  }

  lemma {:induction false} SameQueuesOk(s: State, t: State)
    requires QueueOk(s) && t.waits == s.waits && t.procs == s.procs
    ensures QueueOk(t) && forall k :: t.Queue(k) == s.Queue(k)
  {
    assert forall k :: t.Queue(k) == s.Queue(k);
  }

  lemma {:induction false} WakeAllObjects(s: State, q: QueueId)
    ensures WakeAll(s, q).objects == s.objects
    decreases |s.Queue(q)|
  {
    if s.Queue(q) != [] {
      WakeAllObjects(Wake(s, q), q);
    }
  }

  lemma {:induction false} DisplayDeals(s: State, id: int, m: Message, p: Pid, q: QueueId)
    requires QueueOk(s) && Enabled(s, Display(id, m)) && p in s.Queue(q)
    ensures Dealt(s, Display(id, m), p, q)
  {
    PostDeals(s, id, m, p, q);
  }

  lemma {:induction false} PostDeals(s: State, id: int, m: Message, p: Pid, q: QueueId)
    requires QueueOk(s) && s.current.Some? && p in s.Queue(q)
    ensures var t, r := DisplayBlackboard(s, id, m).0, Waiters(Obj(BlackboardKind, id));
            p in t.Queue(q)
            || (q == r && t.At(p) == Woken(s.At(p), BlackboardKind)
                && id in t.blackboards && t.blackboards[id].message == m)
  {
    if DisplayBlackboard(s, id, m).1 == NoError {
      var b := s.blackboards[id].(occupied := true, message := m);
      ShowDeals(s, id, b, p, q);
    }
  }

  lemma {:induction false} ShowDeals(s: State, id: int, b: Blackboard, p: Pid, q: QueueId)
    requires QueueOk(s) && p in s.Queue(q)
    ensures var r := Waiters(Obj(BlackboardKind, id));
            var u := WakeAll(s.PutBlackboard(id, b), r);
            && id in u.blackboards && u.blackboards[id] == b
            && (q == r ==> u.At(p) == Woken(s.At(p), BlackboardKind)) && (q != r ==> p in u.Queue(q))
  {
    var r, t := Waiters(Obj(BlackboardKind, id)), s.PutBlackboard(id, b);
    SameQueuesOk(s, t);
    WakeAllServes(t, r, p, q);
    WakeAllObjects(t, r);
  }

  /** A SEND_BUFFER that wakes a reader. */
  lemma {:induction false} HandDeals(s: State, id: int, m: Message, n: int, p: Pid, q: QueueId)
    requires s.current.Some? && p in s.Queue(q) && SendBuffer(s, id, m, n).1 == NoError
    requires s.Queue(Waiters(Obj(BufferKind, id))) != []
    ensures var t, r := SendBuffer(s, id, m, n).0, Waiters(Obj(BufferKind, id));
            p in t.Queue(q) || (q == r && t.At(p) == Woken(s.At(p), BufferKind).(message := m))
  {
    var r := Waiters(Obj(BufferKind, id));
    var u, h := Wake(s, r), s.Queue(r)[0];
    WakeServes(s, r, p, q);
    assert SendBuffer(s, id, m, n).0.waits == u.waits;
    assert SendBuffer(s, id, m, n).0.At(h) == u.At(h).(message := m);
  }

  /** A SEND_BUFFER that blocks its caller. */
  lemma {:induction false} SendParkSpares(s: State, id: int, m: Message, n: int, p: Pid, q: QueueId)
    requires QueueOk(s) && s.current.Some? && p in s.Queue(q) && SendBuffer(s, id, m, n).1 == Parked
    requires s.current.value in s.procs && !Queued(s, s.current.value)
    ensures p in SendBuffer(s, id, m, n).0.Queue(q)
  {
    var w, o := s.current.value, Obj(BufferKind, id);
    var t := s.With(w, s.At(w).(message := m));
    SameWaits(s, t);
    BlockSpares(t, Writers(o), w, s.buffers[id].discipline, true, n, p, q);
  }

  lemma {:induction false} SameWaits(s: State, t: State)
    requires QueueOk(s) && t.waits == s.waits
    requires forall x :: x in s.procs ==> x in t.procs && t.At(x).state == s.At(x).state
    ensures QueueOk(t) && forall k :: t.Queue(k) == s.Queue(k)
  {
    assert forall k :: t.Queue(k) == s.Queue(k);
  }

  lemma {:induction false} SendDeals(s: State, id: int, m: Message, n: int, p: Pid, q: QueueId)
    requires QueueOk(s) && Enabled(s, Send(id, m, n)) && p in s.Queue(q)
    requires s.current.value in s.procs && !Queued(s, s.current.value)
    ensures Dealt(s, Send(id, m, n), p, q)
  {
    var r := SendBuffer(s, id, m, n);
    if r.1 == Parked {
      SendParkSpares(s, id, m, n, p, q);
    } else if r.1 == NoError && s.Queue(Waiters(Obj(BufferKind, id))) != [] {
      HandDeals(s, id, m, n, p, q);
    } else {
      assert r.0.waits == s.waits;
    }
  }

  /** A RECEIVE_BUFFER that wakes a sender. */
  lemma {:induction false} RefillDeals(s: State, id: int, n: int, p: Pid, q: QueueId)
    requires s.current.Some? && p in s.Queue(q) && ReceiveBuffer(s, id, n).1 == NoError
    requires s.Queue(Writers(Obj(BufferKind, id))) != []
    ensures var t, r := ReceiveBuffer(s, id, n).0, Writers(Obj(BufferKind, id));
            p in t.Queue(q)
            || (q == r && t.At(p) == Woken(s.At(p), BufferKind) && id in t.buffers && t.buffers[id].ring != []
                && t.buffers[id].ring[|t.buffers[id].ring| - 1] == s.At(p).message)
  {
    WakeServes(s, Writers(Obj(BufferKind, id)), p, q);
    assert ReceiveBuffer(s, id, n).0.waits == Wake(s, Writers(Obj(BufferKind, id))).waits;
  }

  lemma {:induction false} ReceiveParkSpares(s: State, id: int, n: int, p: Pid, q: QueueId)
    requires QueueOk(s) && s.current.Some? && p in s.Queue(q) && ReceiveBuffer(s, id, n).1 == Parked
    requires s.current.value in s.procs && !Queued(s, s.current.value)
    ensures p in ReceiveBuffer(s, id, n).0.Queue(q)
  {
    BlockSpares(s, Waiters(Obj(BufferKind, id)), s.current.value, s.buffers[id].discipline, true, n, p, q);
  }

  lemma {:induction false} ReceiveDeals(s: State, id: int, n: int, p: Pid, q: QueueId)
    requires QueueOk(s) && Enabled(s, Receive(id, n)) && p in s.Queue(q)
    requires s.current.value in s.procs && !Queued(s, s.current.value)
    ensures Dealt(s, Receive(id, n), p, q)
  {
    var r, o := ReceiveBuffer(s, id, n), Obj(BufferKind, id);
    if r.1 == Parked {
      ReceiveParkSpares(s, id, n, p, q);
    } else if r.1 == NoError && s.Queue(Writers(o)) != [] {
      RefillDeals(s, id, n, p, q);
    } else {
      assert r.0.waits == s.waits;
    }
  }

  lemma {:induction false} TakeSpares(s: State, id: int, n: int, p: Pid, q: QueueId)
    requires QueueOk(s) && s.current.Some? && s.current.value in s.procs && !Queued(s, s.current.value)
             && p in s.Queue(q)
    ensures p in WaitSemaphore(s, id, n).0.Queue(q)
  {
    var r := WaitSemaphore(s, id, n);
    if r.1 == Parked {
      BlockSpares(s, Waiters(Obj(SemaphoreKind, id)), s.current.value, s.semaphores[id].discipline, n != INFINITE,
          n, p, q);
    } else {
      assert r.0.waits == s.waits;
    }
  }

  lemma {:induction false} AwaitSpares(s: State, id: int, n: int, p: Pid, q: QueueId)
    requires QueueOk(s) && s.current.Some? && s.current.value in s.procs && !Queued(s, s.current.value)
             && p in s.Queue(q)
    ensures p in WaitEvent(s, id, n).0.Queue(q)
  {
    var d := if n == INFINITE then Fifo else ByPriority;
    BlockSpares(s, Waiters(Obj(EventKind, id)), s.current.value, d, true, n, p, q);
  }

  lemma {:induction false} ReadSpares(s: State, id: int, n: int, p: Pid, q: QueueId)
    requires QueueOk(s) && s.current.Some? && s.current.value in s.procs && !Queued(s, s.current.value)
             && p in s.Queue(q)
    ensures p in ReadBlackboard(s, id, n).0.Queue(q)
  {
    BlockSpares(s, Waiters(Obj(BlackboardKind, id)), s.current.value, Fifo, n != INFINITE, n, p, q);
  }

  lemma {:induction false} WaitDeals(s: State, e: Event, p: Pid, q: QueueId)
    requires QueueOk(s) && Enabled(s, e) && (e.Take? || e.Await? || e.Read?) && p in s.Queue(q)
    requires s.current.value in s.procs && !Queued(s, s.current.value)
    ensures p in Next(s, e).Queue(q)
  {
    if e.Take? {
      TakeSpares(s, e.id, e.timeout, p, q);
    } else if e.Await? {
      AwaitSpares(s, e.id, e.timeout, p, q);
    } else {
      ReadSpares(s, e.id, e.timeout, p, q);
    }
  }

  lemma {:induction false} ProcessDeals(s: State, e: Event, p: Pid, q: QueueId)
    requires Enabled(s, e) && p in s.Queue(q)
    requires e.Prioritize? || e.SleepSelf? || e.Sleep? || e.Rouse? || e.Launch? || e.Delay?
    ensures p in Next(s, e).Queue(q)
  {
    assert Next(s, e).waits == s.waits;
  }

  lemma {:induction false} OtherDeals(s: State, e: Event, p: Pid, q: QueueId)
    requires Enabled(s, e) && p in s.Queue(q)
    requires e.NextPeriod? || e.Refresh? || e.Lower? || e.Clear? || e.Dispatch? || e.Clock?
    ensures p in Next(s, e).Queue(q)
  {
    assert Next(s, e).waits == s.waits;
  }

  lemma {:induction false} StopSelfDeals(s: State, p: Pid, q: QueueId)
    requires Enabled(s, QuitSelf) && p in s.Queue(q) && p != s.current.value
    ensures Dealt(s, QuitSelf, p, q)
  {
    var w := s.current.value;
    var t := s.With(w, s.At(w).(deadline := INFINITE));
    var owned := s.At(w).owned;
    if owned.Some? {
      var v := if owned.value == PREEMPTION_LOCK then t.(lockLevel := 0) else t;
      assert v.Queue(q) == s.Queue(q) && v.At(p) == s.At(p);
      SurrenderServes(v, owned.value, w, p, q);
    }
  }

  /** A step by anybody that does not STOP `p` leaves it in its queue or gives it what it waited for. */
  lemma {:induction false} ServedOnly(s: State, e: Event, p: Pid, q: QueueId)
    requires Inv(s) && Enabled(s, e) && p in s.Queue(q) && e != Quit(p)
    ensures Dealt(s, e, p, q)
  {
    if e.NextPeriod? || e.Refresh? || e.Lower? || e.Clear? || e.Dispatch? || e.Clock? {
      OtherDeals(s, e, p, q);
    } else {
      AliveNotQueued(s, s.current.value);
      if e.Acquire? || e.Release? || e.Reset? || e.Lock? || e.Unlock? {
        MutexDeals(s, e, p, q);
      } else if e.Take? || e.Await? || e.Read? {
        WaitDeals(s, e, p, q);
      } else if e.Quit? {
        StopSpares(s, e.pid, p, q);
      } else if e.QuitSelf? {
        StopSelfDeals(s, p, q);
      } else if e.Prioritize? || e.SleepSelf? || e.Sleep? || e.Rouse? || e.Launch? || e.Delay? {
        ProcessDeals(s, e, p, q);
      } else {
        ObjectDeals(s, e, p, q);
      }
    }
  }

  lemma {:induction false} ObjectDeals(s: State, e: Event, p: Pid, q: QueueId)
    requires QueueOk(s) && Enabled(s, e) && (e.Give? || e.Raise? || e.Display? || e.Send? || e.Receive?)
             && p in s.Queue(q)
    requires s.current.value in s.procs && !Queued(s, s.current.value)
    ensures Dealt(s, e, p, q)
  {
    match e
    case Give(id) => GiveDeals(s, id, p, q);
    case Raise(id) => RaiseDeals(s, id, p, q);
    case Display(id, m) => DisplayDeals(s, id, m, p, q);
    case Send(id, m, n) => SendDeals(s, id, m, n, p, q);
    case Receive(id, n) => ReceiveDeals(s, id, n, p, q);
  }

  // ---------------------------------------------------------------- parking

  predicate Executes(s: State, e: Event, p: Pid) {
    s.current == Some(p) && !e.Dispatch? && !e.Clock?
  }

  /** The services that park a caller on an object, with a time-out. */
  predicate TimedCall(e: Event) {
    (e.Acquire? || e.Take? || e.Await? || e.Read? || e.Send? || e.Receive?) && e.timeout != INFINITE
  }

  lemma {:induction false} BlockArms(s: State, q: QueueId, p: Pid, d: Discipline, record: bool, timeout: int)
    requires QueueOk(s) && p in s.procs && !Queued(s, p) && s.now >= 0 && timeout > 0
    ensures var t := Block(s, q, p, d, record, timeout); p in t.Queue(q) && t.At(p).timer != 0
  {
    BlockQueues(s, q, p, d, record, timeout);
  }

  /** A caller parked with a time-out stands in a queue with its time counter running. */
  lemma {:induction false} ParkArms(s: State, e: Event, p: Pid)
    requires Inv(s) && Enabled(s, e) && Executes(s, e, p) && TimedCall(e) && CodeOf(s, e) == Parked && s.now >= 0
    ensures Queued(Next(s, e), p) && Next(s, e).At(p).timer != 0
  {
    AliveNotQueued(s, p);
    if e.Acquire? || e.Take? || e.Await? {
      WaitArms(s, e, p);
    } else {
      MessageArms(s, e, p);
    }
  }

  lemma {:induction false} WaitArms(s: State, e: Event, p: Pid)
    requires QueueOk(s) && Enabled(s, e) && Executes(s, e, p) && p in s.procs && !Queued(s, p) && s.now >= 0
    requires TimedCall(e) && CodeOf(s, e) == Parked && (e.Acquire? || e.Take? || e.Await?)
    ensures Queued(Next(s, e), p) && Next(s, e).At(p).timer != 0
  {
    if e.Acquire? {
      AcquireArms(s, e.id, e.timeout, p);
    } else if e.Take? {
      TakeArms(s, e.id, e.timeout, p);
    } else {
      BlockArms(s, Waiters(Obj(EventKind, e.id)), p, ByPriority, true, e.timeout);
    }
  }

  lemma {:induction false} AcquireArms(s: State, id: int, n: int, p: Pid)
    requires QueueOk(s) && s.current == Some(p) && p in s.procs && !Queued(s, p) && s.now >= 0 && n != INFINITE
    requires AcquireMutex(s, id, n).1 == Parked
    ensures var t := AcquireMutex(s, id, n).0; Queued(t, p) && t.At(p).timer != 0
  {
    BlockArms(s, Waiters(Obj(MutexKind, id)), p, s.mutexes[id].discipline, true, n);
  }

  lemma {:induction false} TakeArms(s: State, id: int, n: int, p: Pid)
    requires QueueOk(s) && s.current == Some(p) && p in s.procs && !Queued(s, p) && s.now >= 0 && n != INFINITE
    requires WaitSemaphore(s, id, n).1 == Parked
    ensures var t := WaitSemaphore(s, id, n).0; Queued(t, p) && t.At(p).timer != 0
  {
    BlockArms(s, Waiters(Obj(SemaphoreKind, id)), p, s.semaphores[id].discipline, true, n);
  }

  lemma {:induction false} MessageArms(s: State, e: Event, p: Pid)
    requires QueueOk(s) && Enabled(s, e) && Executes(s, e, p) && p in s.procs && !Queued(s, p) && s.now >= 0
    requires TimedCall(e) && CodeOf(s, e) == Parked && (e.Read? || e.Send? || e.Receive?)
    ensures Queued(Next(s, e), p) && Next(s, e).At(p).timer != 0
  {
    if e.Read? {
      BlockArms(s, Waiters(Obj(BlackboardKind, e.id)), p, Fifo, true, e.timeout);
    } else if e.Receive? {
      BlockArms(s, Waiters(Obj(BufferKind, e.id)), p, s.buffers[e.id].discipline, true, e.timeout);
    } else {
      SendArms(s, e.id, e.message, e.timeout, p);
    }
  }

  lemma {:induction false} SendArms(s: State, id: int, m: Message, n: int, p: Pid)
    requires QueueOk(s) && s.current == Some(p) && p in s.procs && !Queued(s, p) && s.now >= 0 && n != INFINITE
    requires SendBuffer(s, id, m, n).1 == Parked
    ensures var t := SendBuffer(s, id, m, n).0; Queued(t, p) && t.At(p).timer != 0
  {
    var u, q := s.With(p, s.At(p).(message := m)), Writers(Obj(BufferKind, id));
    SameWaits(s, u);
    BlockArms(u, q, p, s.buffers[id].discipline, true, n);
    assert p in SendBuffer(s, id, m, n).0.Queue(q);
  }

  // ---------------------------------------------------------------- until the next dispatch

  /** `p` executes nothing and is not stopped. */
  ghost predicate Away(s: State, run: seq<Event>, p: Pid)
    requires Feasible(s, run)
    decreases |run|
  {
    run != [] ==> !Executes(s, run[0], p) && run[0] != Quit(p) && Away(Next(s, run[0]), run[1..], p)
  }

  /** Some step of the run serves `p`: it leaves the queue with what it waited for. */
  ghost predicate ServedIn(s: State, run: seq<Event>, p: Pid)
    requires Feasible(s, run)
    decreases |run|
  {
    run != [] &&
      (|| (exists q :: p in s.Queue(q) && p !in Next(s, run[0]).Queue(q) && Obtained(s, run[0], Next(s, run[0]), p, q))
       || ServedIn(Next(s, run[0]), run[1..], p))
  }

  /** Some RESUME of the run finds `p` suspended when it no longer waits in a queue. */
  ghost predicate ResumedIn(s: State, run: seq<Event>, p: Pid)
    requires Feasible(s, run)
    decreases |run|
  {
    run != [] && ((!Queued(s, p) && Resumes(s, run[0], p)) || ResumedIn(Next(s, run[0]), run[1..], p))
  }

  /** While `p` is queued its time counter runs; afterwards it is cancelled or zero. */
  ghost predicate Phase(s: State, p: Pid) {
    p in s.procs && if Queued(s, p) then s.At(p).timer != 0 else s.At(p).timer == 0 || s.At(p).timer == INFINITE
  }

  lemma {:induction false} QueuedStep(s: State, e: Event, p: Pid, q: QueueId)
    requires Inv(s) && Enabled(s, e) && Safe(s, e) && !Executes(s, e, p) && e != Quit(p)
    requires p in s.Queue(q) && s.At(p).timer != 0
    ensures Phase(Next(s, e), p) && (Queued(Next(s, e), p) || Next(s, e).At(p).timer == INFINITE)
    ensures !Queued(Next(s, e), p) ==> p !in Next(s, e).Queue(q) && Obtained(s, e, Next(s, e), p, q)
  {
    var t := Next(s, e);
    StepExact(s, e);
    ServedOnly(s, e, p, q);
    if p in t.Queue(q) {
      NotZeroed(s, e, p, q);
      TicksEvent(s, e, p);
    } else {
      AliveNotQueued(t, p);
    }
  }

  lemma {:induction false} NotZeroed(s: State, e: Event, p: Pid, q: QueueId)
    requires Inv(s) && Enabled(s, e) && Safe(s, e) && !Executes(s, e, p) && e != Quit(p) && p in s.Queue(q)
    ensures !Zeroes(s, e, p)
  {
    assert p in s.procs && s.procs[p].state == Waiting && p in s.order;
  }

  lemma {:induction false} FreeStep(s: State, e: Event, p: Pid)
    requires Inv(s) && Enabled(s, e) && !Executes(s, e, p) && e != Quit(p) && !Queued(s, p) && Phase(s, p)
    ensures Phase(Next(s, e), p) && !Queued(Next(s, e), p)
    ensures Next(s, e).At(p).timer == 0 <==> s.At(p).timer == 0 || Resumes(s, e, p)
  {
    FreeStays(s, e, p);
    if Zeroes(s, e, p) {
      ZeroesEvent(s, e, p);
    } else {
      TicksEvent(s, e, p);
    }
  }

  lemma {:induction false} FreeStays(s: State, e: Event, p: Pid)
    requires Inv(s) && Enabled(s, e) && !Executes(s, e, p) && e != Quit(p) && !Queued(s, p) && p in s.procs
    ensures p in Next(s, e).procs && !Queued(Next(s, e), p)
  {
    var t := Next(s, e);
    if e.Dispatch? || e.Clock? || Targets(e, p) {
      TargetStays(s, e, p);
    } else {
      AliveNotQueued(s, s.current.value);
      ServiceBeside(s, e, p);
    }
  }

  lemma {:induction false} TargetStays(s: State, e: Event, p: Pid)
    requires Enabled(s, e) && (e.Dispatch? || e.Clock? || Targets(e, p)) && e != Quit(p) && !Queued(s, p)
             && p in s.procs
    ensures p in Next(s, e).procs && !Queued(Next(s, e), p)
  {
    var t := Next(s, e);
    assert t.waits == s.waits;
    assert forall q :: t.Queue(q) == s.Queue(q);
  }

  lemma {:induction false} CodeRun(s: State, run: seq<Event>, p: Pid)
    requires Inv(s) && Phase(s, p) && Feasible(s, run) && AllSafe(s, run) && Away(s, run, p)
    ensures var t := Exec(s, run);
            && Inv(t) && Phase(t, p)
            && (!Queued(t, p) ==> (t.At(p).timer == 0
               <==> (!Queued(s, p) && s.At(p).timer == 0) || ResumedIn(s, run, p)))
            && (Queued(s, p) && !Queued(t, p) ==> ServedIn(s, run, p))
    decreases |run|
  {
    if run != [] {
      var e, t := run[0], Next(s, run[0]);
      StepExact(s, e);
      if Queued(s, p) {
        var q :| p in s.Queue(q);
        QueuedStep(s, e, p, q);
      } else {
        FreeStep(s, e, p);
      }
      CodeRun(t, run[1..], p);
    }
  }

  /** From parking to the caller's next dispatch, over every safe run: the caller was served, and its service
      returns NO_ERROR exactly when no RESUME found it suspended between that service and the dispatch;
      otherwise it returns TIMED_OUT. */
  lemma {:induction false} ReturnedCode(s: State, e: Event, run: seq<Event>, p: Pid)
    requires Inv(s) && s.now >= 0 && Enabled(s, e) && Executes(s, e, p) && TimedCall(e) && CodeOf(s, e) == Parked
    requires Feasible(Next(s, e), run) && AllSafe(Next(s, e), run) && Away(Next(s, e), run, p)
    requires var t := Exec(Next(s, e), run); t.current == Some(p) && !t.yielded
    ensures ServedIn(Next(s, e), run, p)
    ensures WakeCode(Exec(Next(s, e), run).At(p), e.timeout)
         == if ResumedIn(Next(s, e), run, p) then TimedOut else NoError
  {
    var u := Next(s, e);
    var t := Exec(u, run);
    ParkedGood(s, e, p);
    CodeRun(u, run, p);
    AliveNotQueued(t, p);
  }

  lemma {:induction false} ParkedGood(s: State, e: Event, p: Pid)
    requires Inv(s) && Enabled(s, e) && Executes(s, e, p) && TimedCall(e) && CodeOf(s, e) == Parked && s.now >= 0
    ensures Inv(Next(s, e)) && Queued(Next(s, e), p) && Next(s, e).At(p).timer != 0
  {
    ParkArms(s, e, p);
    StepExact(s, e);
  }

  /** Without any condition on the run: TIMED_OUT exactly when an expiry, a RESUME of the suspended caller or
      a STOP zeroed the time counter. */
  ghost predicate ZeroedIn(s: State, run: seq<Event>, p: Pid)
    requires Feasible(s, run)
    decreases |run|
  {
    run != [] && (Zeroes(s, run[0], p) || ZeroedIn(Next(s, run[0]), run[1..], p))
  }

  ghost predicate NotExecuting(s: State, run: seq<Event>, p: Pid)
    requires Feasible(s, run)
    decreases |run|
  {
    run != [] ==> !Executes(s, run[0], p) && NotExecuting(Next(s, run[0]), run[1..], p)
  }

  lemma {:induction false} TimedOutExactly(s: State, run: seq<Event>, p: Pid, timeout: int)
    requires Feasible(s, run) && NotExecuting(s, run, p) && p in s.procs && s.At(p).timer != 0 && timeout != INFINITE
    requires p in Exec(s, run).procs
    ensures WakeCode(Exec(s, run).At(p), timeout) == TimedOut <==> ZeroedIn(s, run, p)
  {
    ZeroRun(s, run, p);
  }

  lemma {:induction false} ZeroRun(s: State, run: seq<Event>, p: Pid)
    requires Feasible(s, run) && NotExecuting(s, run, p)
    ensures Exec(s, run).At(p).timer == 0 <==> s.At(p).timer == 0 || ZeroedIn(s, run, p)
    decreases |run|
  {
    if run != [] {
      var e := run[0];
      if Zeroes(s, e, p) {
        ZeroesEvent(s, e, p);
      } else {
        TicksEvent(s, e, p);
      }
      ZeroRun(Next(s, e), run[1..], p);
    }
  }

  // ---------------------------------------------------------------- when a wait ends

  /** `p` calls a service that makes it wait for a given time at most. */
  predicate WaitsFor(s: State, e: Event, p: Pid)
    requires Enabled(s, e)
  {
    && Executes(s, e, p)
    && (((TimedCall(e) || (e.SleepSelf? && e.timeout != INFINITE)) && CodeOf(s, e) == Parked)
        || (e.Delay? && e.timeout != 0 && CodeOf(s, e) == NoError))
  }

  /** Its time counter is then the present time plus that time. */
  lemma {:induction false} ArmedUntil(s: State, e: Event, p: Pid)
    requires Inv(s) && Enabled(s, e) && WaitsFor(s, e, p)
    ensures Next(s, e).At(p).timer == s.now + e.timeout && Next(s, e).At(p).state == Waiting && e.timeout > 0
  {
    if e.Acquire? || e.SleepSelf? || e.Delay? {
      ArmedByMutex(s, e, p);
    } else if e.Take? || e.Await? || e.Read? {
      ArmedByWait(s, e, p);
    } else {
      ArmedByBuffer(s, e, p);
    }
  }

  lemma {:induction false} ArmedByMutex(s: State, e: Event, p: Pid)
    requires Inv(s) && Enabled(s, e) && WaitsFor(s, e, p) && (e.Acquire? || e.SleepSelf? || e.Delay?)
    ensures Next(s, e).At(p).timer == s.now + e.timeout && Next(s, e).At(p).state == Waiting && e.timeout > 0
  {
    if e.Acquire? {
      Effects.AcquireEffect(s, e.id, e.timeout, p);
    } else if e.SleepSelf? {
      Effects.SuspendSelfEffect(s, e.timeout, p);
    } else {
      Effects.TimedWaitEffect(s, e.timeout, p);
    }
  }

  lemma {:induction false} ArmedByWait(s: State, e: Event, p: Pid)
    requires Inv(s) && Enabled(s, e) && WaitsFor(s, e, p) && (e.Take? || e.Await? || e.Read?)
    ensures Next(s, e).At(p).timer == s.now + e.timeout && Next(s, e).At(p).state == Waiting && e.timeout > 0
  {
    if e.Take? {
      ArmedByTake(s, e.id, e.timeout, p);
    } else if e.Await? {
      ArmedByAwait(s, e.id, e.timeout, p);
    } else {
      ArmedByRead(s, e.id, e.timeout, p);
    }
  }

  lemma {:induction false} ArmedByTake(s: State, id: int, n: int, p: Pid)
    requires Inv(s) && s.current == Some(p) && !s.yielded && WaitSemaphore(s, id, n).1 == Parked && n != INFINITE
    ensures var t := WaitSemaphore(s, id, n).0; t.At(p).timer == s.now + n && t.At(p).state == Waiting && n > 0
  {
    Effects.WaitSemaphoreEffect(s, id, n, p);
  }

  lemma {:induction false} ArmedByAwait(s: State, id: int, n: int, p: Pid)
    requires Inv(s) && s.current == Some(p) && !s.yielded && WaitEvent(s, id, n).1 == Parked && n != INFINITE
    ensures var t := WaitEvent(s, id, n).0; t.At(p).timer == s.now + n && t.At(p).state == Waiting && n > 0
  {
    Effects.WaitEventEffect(s, id, n, p);
  }

  lemma {:induction false} ArmedByRead(s: State, id: int, n: int, p: Pid)
    requires Inv(s) && s.current == Some(p) && !s.yielded && ReadBlackboard(s, id, n).1 == Parked && n != INFINITE
    ensures var t := ReadBlackboard(s, id, n).0; t.At(p).timer == s.now + n && t.At(p).state == Waiting && n > 0
  {
    Effects.ReadEffect(s, id, n, p);
  }

  lemma {:induction false} ArmedByBuffer(s: State, e: Event, p: Pid)
    requires Inv(s) && Enabled(s, e) && WaitsFor(s, e, p) && (e.Send? || e.Receive?)
    ensures Next(s, e).At(p).timer == s.now + e.timeout && Next(s, e).At(p).state == Waiting && e.timeout > 0
  {
    if e.Send? {
      Effects.SendEffect(s, e.id, e.message, e.timeout, p);
    } else {
      Effects.ReceiveEffect(s, e.id, e.timeout, p);
    }
  }

  /** `p` is WAITING in every state of the run: nobody served, resumed, released or stopped it. */
  ghost predicate StaysWaiting(s: State, run: seq<Event>, p: Pid)
    requires Feasible(s, run)
    decreases |run|
  {
    && s.At(p).state == Waiting
    && (run != [] ==> !Executes(s, run[0], p) && StaysWaiting(Next(s, run[0]), run[1..], p))
  }

  /** Whatever zeroes the counter of a waiting process ends its wait. */
  lemma {:induction false} ZeroedWakes(s: State, e: Event, p: Pid)
    requires Enabled(s, e) && Zeroes(s, e, p) && p in s.procs
    ensures Next(s, e).At(p).state != Waiting
  {
  }

  lemma {:induction false} TimerStays(s: State, run: seq<Event>, p: Pid)
    requires Feasible(s, run) && StaysWaiting(s, run, p)
    ensures Exec(s, run).At(p).timer == s.At(p).timer && Exec(s, run).At(p).state == Waiting
    decreases |run|
  {
    if run != [] {
      WaitingStep(s, run[0], p);
      TimerStays(Next(s, run[0]), run[1..], p);
    }
  }

  lemma {:induction false} WaitingStep(s: State, e: Event, p: Pid)
    requires Enabled(s, e) && !Executes(s, e, p) && s.At(p).state == Waiting && Next(s, e).At(p).state == Waiting
    ensures Next(s, e).At(p).timer == s.At(p).timer
  {
    if Zeroes(s, e, p) {
      ZeroedWakes(s, e, p);
    } else {
      TicksEvent(s, e, p);
    }
  }

  /** Over any run during which the caller goes on waiting: a clock update ends the wait exactly from the time of
      the call plus the time-out on, or at the release point of a periodic process or the start of a delayed one. */
  lemma {:induction false} WaitEndsExactly(s: State, e: Event, run: seq<Event>, p: Pid, now: int)
    requires Inv(s) && s.now >= 0 && Enabled(s, e) && WaitsFor(s, e, p)
    requires Feasible(Next(s, e), run) && StaysWaiting(Next(s, e), run, p) && Exec(Next(s, e), run).now <= now
    ensures var u := Exec(Next(s, e), run);
            && u.At(p).timer == s.now + e.timeout
            && (Tick(u, now).At(p).state == Ready <==>
                  s.now + e.timeout <= now
                  || ((u.At(p).period != -1 || u.At(p).initDelay != 0) && u.At(p).release <= now))
  {
    ArmedUntil(s, e, p);
    TimerStays(Next(s, e), run, p);
    TickWakes(Exec(Next(s, e), run), p, now);
  }

  lemma {:induction false} TickWakes(s: State, p: Pid, now: int)
    requires s.At(p).state == Waiting && s.At(p).timer > 0
    ensures Tick(s, now).At(p).state == Ready <==>
              || s.At(p).timer <= now
              || ((s.At(p).period != -1 || s.At(p).initDelay != 0) && s.At(p).release <= now)
  {
    assert p in s.procs;
    Effects.TickEffect(s, now);
  }
}
