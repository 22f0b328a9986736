/** Nominal priorities survive every change of ceiling, owner and list position. */
module Priorities {
  import opened Apex
  import opened Sequences
  import opened Services
  import opened Invariant
  import opened Protocol
  import opened Exact
  import opened Runs

  /** What a process would run at without its mutex. */
  function Nominal(s: State, p: Pid): int {
    if s.At(p).owned.Some? then s.MutexAt(s.At(p).owned.value).saved else s.At(p).priority
  }

  predicate SameClaim(x: Proc, y: Proc) {
    x.priority == y.priority && x.base == y.base && x.owned == y.owned
  }

  predicate SameHolder(m: Mutex, n: Mutex) {
    m.owned == n.owned && m.owner == n.owner && m.ceiling == n.ceiling && m.saved == n.saved
  }

  /** Nobody's priority and no ownership differs between `s` and `t`. */
  ghost predicate SameClaims(s: State, t: State) {
    && t.procs.Keys == s.procs.Keys
    && (forall p :: p in s.procs ==> SameClaim(s.procs[p], t.procs[p]))
    && t.mutexes.Keys == s.mutexes.Keys
    && (forall id :: id in s.mutexes ==> SameHolder(s.mutexes[id], t.mutexes[id]))
  }

  lemma {:induction false} WithClaims(s: State, p: Pid, x: Proc)
    requires p in s.procs && SameClaim(s.procs[p], x)
    ensures SameClaims(s, s.With(p, x))
  {
  }

  lemma {:induction false} ClaimsTrans(s: State, t: State, u: State)
    requires SameClaims(s, t) && SameClaims(t, u)
    ensures SameClaims(s, u)
  {
  }

  lemma {:induction false} WakeClaims(s: State, q: QueueId)
    requires s.Queue(q) != [] && s.Queue(q)[0] in s.procs
    ensures SameClaims(s, Wake(s, q)) && Wake(s, q).order == s.order
  {
  }

  lemma {:induction false} WakeAllClaims(s: State, q: QueueId)
    requires forall p :: p in s.Queue(q) ==> p in s.procs
    ensures SameClaims(s, WakeAll(s, q)) && WakeAll(s, q).order == s.order
    decreases |s.Queue(q)|
  {
    if s.Queue(q) != [] {
      var t := Wake(s, q);
      assert s.Queue(q)[0] in s.Queue(q);
      WakeClaims(s, q);
      forall p | p in t.Queue(q) ensures p in t.procs {
        assert p in s.Queue(q);
      }
      WakeAllClaims(t, q);
      ClaimsTrans(s, t, WakeAll(t, q));
    }
  }

  lemma {:induction false} WithdrawClaims(s: State, p: Pid, q: QueueId)
    ensures var t := Withdraw(s, p, q);
            t.procs == s.procs && t.mutexes == s.mutexes && t.order == s.order && t.current == s.current
  {
  }

  lemma {:induction false} LeaveClaims(s: State, p: Pid, k: Kind)
    requires p in s.procs
    ensures SameClaims(s, Leave(s, p, k)) && Leave(s, p, k).order == s.order && Leave(s, p, k).current == s.current
  {
    if s.At(p).waitingOn.Get(k).Some? {
      var o := Obj(k, s.At(p).waitingOn.Get(k).value);
      var t := Withdraw(s, p, Waiters(o));
      WithdrawClaims(s, p, Waiters(o));
      WithdrawClaims(t, p, Writers(o));
      var u := if k == BufferKind then Withdraw(t, p, Writers(o)) else t;
      WithClaims(u, p, u.At(p).(waitingOn := u.At(p).waitingOn.Set(k, None)));
    }
  }

  lemma {:induction false} LeaveAllClaims(s: State, p: Pid)
    requires p in s.procs
    ensures SameClaims(s, LeaveAll(s, p)) && LeaveAll(s, p).order == s.order && LeaveAll(s, p).current == s.current
  {
    var a := Leave(s, p, BlackboardKind);
    var b := Leave(a, p, BufferKind);
    var c := Leave(b, p, SemaphoreKind);
    var d := Leave(c, p, EventKind);
    LeaveClaims(s, p, BlackboardKind);
    LeaveClaims(a, p, BufferKind);
    LeaveClaims(b, p, SemaphoreKind);
    LeaveClaims(c, p, EventKind);
    LeaveClaims(d, p, MutexKind);
    ClaimsTrans(s, a, b);
    ClaimsTrans(s, b, c);
    ClaimsTrans(s, c, d);
    ClaimsTrans(s, d, LeaveAll(s, p));
  }

  /** Events that may move priorities, ownership or the head of the process list. */
  predicate Moves(e: Event) {
    e.Acquire? || e.Release? || e.Reset? || e.Lock? || e.Unlock? || e.Prioritize? || e.QuitSelf? || e.Launch?
    || e.Delay? || e.Dispatch?
  }

  ghost predicate Still(s: State, t: State) {
    SameClaims(s, t) && t.order == s.order && (t.yielded || (t.current == s.current && t.yielded == s.yielded))
  }

  /** Everyone mentioned exists. */
  ghost predicate Closed(s: State) {
    && (forall q, p :: p in s.Queue(q) ==> p in s.procs)
    && (forall p :: p in s.order ==> p in s.procs)
    && (s.current.Some? ==> s.current.value in s.procs)
  }

  lemma {:induction false} BlockStill(s: State, q: QueueId, p: Pid, d: Discipline, record: bool, timeout: int)
    requires p in s.procs
    ensures Still(s, Block(s, q, p, d, record, timeout))
  {
  }

  lemma {:induction false} HeadExists(s: State, q: QueueId)
    requires Closed(s) && s.Queue(q) != []
    ensures s.Queue(q)[0] in s.procs
  {
    var w := s.Queue(q)[0];
    assert w in s.Queue(q);
  }

  lemma {:induction false} StillTake(s: State, id: int, t: int)
    requires s.current.Some? && s.current.value in s.procs
    ensures Still(s, WaitSemaphore(s, id, t).0)
  {
    var r := WaitSemaphore(s, id, t);
    if r.1 == Parked {
      BlockStill(s, Waiters(Obj(SemaphoreKind, id)), s.current.value, s.semaphores[id].discipline, t != INFINITE, t);
    } else if r.1 == NoError {
      assert r.0 == s.(objects := r.0.objects);
    } else {
      assert r.0 == s;
    }
  }

  lemma {:induction false} StillAwait(s: State, id: int, t: int)
    requires s.current.Some? && s.current.value in s.procs
    ensures Still(s, WaitEvent(s, id, t).0)
  {
    BlockStill(s, Waiters(Obj(EventKind, id)), s.current.value, if t == INFINITE then Fifo else ByPriority, true, t);
  }

  lemma {:induction false} StillRead(s: State, id: int, t: int)
    requires s.current.Some? && s.current.value in s.procs
    ensures Still(s, ReadBlackboard(s, id, t).0)
  {
    BlockStill(s, Waiters(Obj(BlackboardKind, id)), s.current.value, Fifo, t != INFINITE, t);
  }

  lemma {:induction false} StillReceive(s: State, id: int, t: int)
    requires s.current.Some? && s.current.value in s.procs
    requires var q := Writers(Obj(BufferKind, id)); s.Queue(q) != [] ==> s.Queue(q)[0] in s.procs
    ensures Still(s, ReceiveBuffer(s, id, t).0)
  {
    if id in s.buffers {
      var o := Obj(BufferKind, id);
      BlockStill(s, Waiters(o), s.current.value, s.buffers[id].discipline, true, t);
      if s.Queue(Writers(o)) != [] {
        WakeClaims(s, Writers(o));
      }
    }
  }

  lemma {:induction false} StillSend(s: State, id: int, m: Message, t: int)
    requires s.current.Some? && s.current.value in s.procs
    requires var q := Waiters(Obj(BufferKind, id)); s.Queue(q) != [] ==> s.Queue(q)[0] in s.procs
    ensures Still(s, SendBuffer(s, id, m, t).0)
  {
    if SendBuffer(s, id, m, t).1 == Parked {
      StillSendPark(s, id, m, t);
    } else if SendBuffer(s, id, m, t).1 == NoError {
      StillSendDone(s, id, m, t);
    }
  }

  lemma {:induction false} StillSendDone(s: State, id: int, m: Message, t: int)
    requires s.current.Some? && SendBuffer(s, id, m, t).1 == NoError
    requires var q := Waiters(Obj(BufferKind, id)); s.Queue(q) != [] ==> s.Queue(q)[0] in s.procs
    ensures Still(s, SendBuffer(s, id, m, t).0)
  {
    if s.Queue(Waiters(Obj(BufferKind, id))) != [] {
      DeliverStill(s, id, m);
    }
  }

  lemma {:induction false} DeliverStill(s: State, id: int, m: Message)
    requires var q := Waiters(Obj(BufferKind, id)); s.Queue(q) != [] && s.Queue(q)[0] in s.procs
    ensures var q := Waiters(Obj(BufferKind, id));
            var u, w := Wake(s, q), s.Queue(q)[0];
            Still(s, u.With(w, u.At(w).(message := m)))
  {
    var q := Waiters(Obj(BufferKind, id));
    var u, w := Wake(s, q), s.Queue(q)[0];
    WakeClaims(s, q);
    WithClaims(u, w, u.At(w).(message := m));
    ClaimsTrans(s, u, u.With(w, u.At(w).(message := m)));
  }

  lemma {:induction false} StillSendPark(s: State, id: int, m: Message, t: int)
    requires s.current.Some? && s.current.value in s.procs && id in s.buffers
    ensures var p := s.current.value;
            Still(s, Block(s.With(p, s.At(p).(message := m)), Writers(Obj(BufferKind, id)), p,
                s.buffers[id].discipline, true, t))
  {
    var p := s.current.value;
    var u := s.With(p, s.At(p).(message := m));
    WithClaims(s, p, s.At(p).(message := m));
    BlockStill(u, Writers(Obj(BufferKind, id)), p, s.buffers[id].discipline, true, t);
    ClaimsTrans(s, u, Block(u, Writers(Obj(BufferKind, id)), p, s.buffers[id].discipline, true, t));
  }

  lemma {:induction false} StillGive(s: State, id: int)
    requires s.current.Some?
    requires var q := Waiters(Obj(SemaphoreKind, id)); s.Queue(q) != [] ==> s.Queue(q)[0] in s.procs
    ensures Still(s, SignalSemaphore(s, id).0)
  {
    if s.Queue(Waiters(Obj(SemaphoreKind, id))) != [] {
      WakeClaims(s, Waiters(Obj(SemaphoreKind, id)));
    }
  }

  lemma {:induction false} StillRaise(s: State, id: int)
    requires Closed(s) && s.current.Some?
    ensures Still(s, SetEvent(s, id).0)
  {
    var t, q := s.PutEvent(id, true), Waiters(Obj(EventKind, id));
    assert t.Queue(q) == s.Queue(q);
    WakeAllClaims(t, q);
    WakeAllFrame(t, q);
  }

  lemma {:induction false} StillDisplay(s: State, id: int, m: Message)
    requires Closed(s) && s.current.Some?
    ensures Still(s, DisplayBlackboard(s, id, m).0)
  {
    if id in s.blackboards {
      var t := s.PutBlackboard(id, s.blackboards[id].(occupied := true, message := m));
      var q := Waiters(Obj(BlackboardKind, id));
      assert t.Queue(q) == s.Queue(q);
      WakeAllClaims(t, q);
      WakeAllFrame(t, q);
    }
  }

  lemma {:induction false} StillStop(s: State, target: Pid)
    requires s.current.Some? && (target in s.order ==> target in s.procs)
    ensures Still(s, Stop(s, target).0)
  {
    if target in s.order {
      var t := LeaveAll(s, target);
      LeaveAllClaims(s, target);
      WithClaims(t, target, Killed(t.At(target)));
      ClaimsTrans(s, t, t.With(target, Killed(t.At(target))));
    }
  }

  lemma {:induction false} RecordStill(s: State, p: Pid, x: Proc)
    requires p in s.procs && SameClaim(s.procs[p], x)
    ensures Still(s, s.With(p, x)) && Still(s, s.With(p, x).(yielded := true))
  {
  }

  lemma {:induction false} StillResume(s: State, target: Pid)
    requires s.current.Some? && (target in s.order ==> target in s.procs)
    ensures Still(s, Resume(s, target).0)
  {
    if Resume(s, target).1 == NoError {
      var x := s.At(target);
      var y := if x.suspended then x.(suspended := false, timer := 0) else x;
      RecordStill(s, target, y.(state := Ready));
      RecordStill(s, target, y);
    }
  }

  lemma {:induction false} StillSuspend(s: State, target: Pid)
    requires s.current.Some? && (target in s.order ==> target in s.procs)
    ensures Still(s, Suspend(s, target).0)
  {
    if Suspend(s, target).1 == NoError {
      RecordStill(s, target, s.At(target).(suspended := true, state := Waiting));
    }
  }

  lemma {:induction false} StillSelf(s: State, t: int)
    requires s.current.Some? && s.current.value in s.procs
    ensures Still(s, SuspendSelf(s, t).0)
  {
    var p := s.current.value;
    var r := SuspendSelf(s, t);
    if r.1 == Parked {
      RecordStill(s, p, r.0.At(p));
      assert r.0 == s.With(p, r.0.At(p)).(yielded := true);
    } else {
      assert r.0 == s;
    }
  }

  lemma {:induction false} StillPeriod(s: State)
    requires s.current.Some? && s.current.value in s.procs
    ensures Still(s, PeriodicWait(s).0)
  {
    var p := s.current.value;
    var r := PeriodicWait(s);
    if r.1 == NoError {
      RecordStill(s, p, r.0.At(p));
      assert r.0 == s.With(p, r.0.At(p)).(yielded := true);
    } else {
      assert r.0 == s;
    }
  }

  lemma {:induction false} StillTick(s: State, now: int)
    ensures Still(s, Tick(s, now))
  {
  }

  /** All other events leave them alone. */
  lemma {:induction false} StillEvent(s: State, e: Event)
    requires Closed(s) && Enabled(s, e) && !Moves(e)
    ensures Still(s, Next(s, e))
  {
    if e.Raise? || e.Display? || e.Quit? || e.Rouse? {
      StillOthers(s, e);
    } else if e.Sleep? || e.SleepSelf? || e.NextPeriod? || e.Clock? {
      StillTimes(s, e);
    } else if e.Take? || e.Await? || e.Read? {
      StillWaits(s, e);
    } else if e.Receive? || e.Send? || e.Give? {
      StillHeads(s, e);
    }
  }

  lemma {:induction false} StillOthers(s: State, e: Event)
    requires Closed(s) && Enabled(s, e) && (e.Raise? || e.Display? || e.Quit? || e.Rouse?)
    ensures Still(s, Next(s, e))
  {
    match e
    case Raise(id) => StillRaise(s, id);
    case Display(id, m) => StillDisplay(s, id, m);
    case Quit(p) => StillStop(s, p);
    case Rouse(p) => StillResume(s, p);
  }

  lemma {:induction false} StillTimes(s: State, e: Event)
    requires Closed(s) && Enabled(s, e) && (e.Sleep? || e.SleepSelf? || e.NextPeriod? || e.Clock?)
    ensures Still(s, Next(s, e))
  {
    match e
    case Sleep(p) => StillSuspend(s, p);
    case SleepSelf(t) => StillSelf(s, t);
    case NextPeriod => StillPeriod(s);
    case Clock(t) => StillTick(s, t);
  }

  lemma {:induction false} StillWaits(s: State, e: Event)
    requires Closed(s) && Enabled(s, e) && (e.Take? || e.Await? || e.Read?)
    ensures Still(s, Next(s, e))
  {
    match e
    case Take(id, t) => StillTake(s, id, t);
    case Await(id, t) => StillAwait(s, id, t);
    case Read(id, t) => StillRead(s, id, t);
  }

  lemma {:induction false} StillHeads(s: State, e: Event)
    requires Closed(s) && Enabled(s, e) && (e.Receive? || e.Send? || e.Give?)
    ensures Still(s, Next(s, e))
  {
    var q := if e.Receive? then Writers(Obj(BufferKind, e.id))
             else Waiters(Obj(if e.Give? then SemaphoreKind else BufferKind, e.id));
    if s.Queue(q) != [] {
      HeadExists(s, q);
    }
    match e
    case Receive(id, t) => StillReceive(s, id, t);
    case Send(id, m, t) => StillSend(s, id, m, t);
    case Give(id) => StillGive(s, id);
  }

  lemma {:induction false} WakeAllFrame(s: State, q: QueueId)
    ensures WakeAll(s, q).current == s.current && WakeAll(s, q).yielded == s.yielded
    decreases |s.Queue(q)|
  {
    if s.Queue(q) != [] {
      WakeAllFrame(Wake(s, q), q);
    }
  }

  // ---------------------------------------------------------------- nominal priority

  ghost predicate SameNominal(s: State, t: State) {
    t.procs.Keys == s.procs.Keys && forall r :: r in s.procs ==> Nominal(t, r) == Nominal(s, r)
  }

  lemma {:induction false} ClaimsNominal(s: State, t: State)
    requires SameClaims(s, t) && MutexOk(s)
    ensures SameNominal(s, t)
  {
  }

  lemma {:induction false} GrantNominal(s: State, id: int, p: Pid)
    requires MutexOk(s) && id in s.mutexes && !s.mutexes[id].owned && p in s.procs && s.procs[p].owned.None?
    ensures SameNominal(s, Grant(s, id, p))
  {
  }

  lemma {:induction false} FreeNominal(s: State, id: int, p: Pid)
    requires MutexOk(s) && p in s.procs && s.procs[p].owned == Some(id)
    ensures SameNominal(s, Free(s, id, p))
  {
  }

  lemma {:induction false} SurrenderNominal(s: State, id: int, p: Pid)
    requires Core(s) && p in s.procs && s.procs[p].owned == Some(id)
    ensures SameNominal(s, Surrender(s, id, p))
  {
    var q := Waiters(Obj(MutexKind, id));
    var t := Free(s, id, p);
    FreeCore(s, id, p);
    FreeNominal(s, id, p);
    if t.Queue(q) != [] {
      var w := t.Queue(q)[0];
      WakeCore(t, q);
      WakeClaims(t, q);
      ClaimsNominal(t, Wake(t, q));
      GrantNominal(Wake(t, q), id, w);
    }
  }

  lemma {:induction false} AcquireNominal(s: State, id: int, timeout: int)
    requires Inv(s) && s.current.Some?
    ensures SameNominal(s, KernelAcquire(s, id, timeout).0)
  {
    var p, r := s.current.value, KernelAcquire(s, id, timeout);
    if r.1 == Parked {
      BlockStill(s, Waiters(Obj(MutexKind, id)), p, s.mutexes[id].discipline, true, timeout);
      ClaimsNominal(s, r.0);
    } else if r.1 == NoError && !s.mutexes[id].owned {
      GrantNominal(s, id, p);
    } else {
      ClaimsNominal(s, r.0);
    }
  }

  lemma {:induction false} ReleaseNominal(s: State, id: int)
    requires Inv(s) && s.current.Some?
    ensures SameNominal(s, KernelRelease(s, id).0)
  {
    var p := s.current.value;
    if id in s.mutexes && s.At(p).owned == Some(id) {
      if s.MutexAt(id).locks == 1 {
        SurrenderNominal(s, id, p);
      } else {
        ClaimsNominal(s, KernelRelease(s, id).0);
      }
    }
  }

  lemma {:induction false} StopSelfNominal(s: State)
    requires Inv(s) && s.current.Some? && !s.yielded
    ensures SameNominal(s, StopSelf(s))
  {
    var p := s.current.value;
    var x := s.At(p).(deadline := INFINITE);
    var t := s.With(p, x);
    EndDeadlineInv(s, p);
    WithClaims(s, p, x);
    ClaimsNominal(s, t);
    if x.owned.Some? {
      LockLevelInv(t, 0);
      DieOwningNominal(s, if x.owned.value == PREEMPTION_LOCK then t.(lockLevel := 0) else t, x.owned.value, p);
    } else {
      DieNominal(s, t, p);
    }
  }

  lemma {:induction false} DieOwningNominal(s: State, v: State, id: int, p: Pid)
    requires SameNominal(s, v) && Core(v) && p in v.procs && v.procs[p].owned == Some(id)
    ensures var u := Surrender(v, id, p);
            SameNominal(s, u.With(p, u.At(p).(state := Dormant, timer := 0, suspended := false)).(yielded := true))
  {
    SurrenderCore(v, id, p);
    SurrenderNominal(v, id, p);
    DieNominal(s, Surrender(v, id, p), p);
  }

  lemma {:induction false} DieNominal(s: State, u: State, p: Pid)
    requires SameNominal(s, u) && p in u.procs
    ensures SameNominal(s, u.With(p, u.At(p).(state := Dormant, timer := 0, suspended := false)).(yielded := true))
  {
  }

  /** SET_PRIORITY gives its target exactly the requested nominal priority. */
  lemma {:induction false} SetPriorityNominal(s: State, target: Pid, n: int)
    requires MutexOk(s) && s.current.Some? && target in s.procs && SetPriority(s, target, n).1 == NoError
    ensures var t := SetPriority(s, target, n).0;
            && t.procs.Keys == s.procs.Keys && Nominal(t, target) == n
            && forall r :: r in s.procs && r != target ==> Nominal(t, r) == Nominal(s, r)
  {
    var x := s.At(target);
    var t := SetPriority(s, target, n).0;
    if x.owned.Some? {
      var id := x.owned.value;
      assert t.procs == s.procs && t.mutexes == s.mutexes[id := s.mutexes[id].(saved := n)];
    } else {
      assert t.procs == s.procs[target := x.(priority := n)] && t.mutexes == s.mutexes;
    }
  }

  lemma {:induction false} StartNominal(s: State, target: Pid, first: int)
    requires MutexOk(s) && s.current.Some? && target in s.procs && Start(s, target, first).1 == NoError
    ensures var t := Start(s, target, first).0;
            && t.procs.Keys == s.procs.Keys && Nominal(t, target) == s.procs[target].base
            && forall r :: r in s.procs && r != target ==> Nominal(t, r) == Nominal(s, r)
  {
  }

  lemma {:induction false} PreemptedClaims(s: State)
    requires s.current.Some? ==> s.current.value in s.procs
    ensures SameClaims(s, Preempted(s)) && Preempted(s).order == s.order && Preempted(s).mutexes == s.mutexes
  {
    if s.current.Some? {
      RecordStill(s, s.current.value, s.At(s.current.value).(state := Ready));
    }
  }

  lemma {:induction false} ScheduleClaims(s: State)
    requires s.current.Some? ==> s.current.value in s.procs
    ensures SameClaims(s, Schedule(s)) && Schedule(s).order == s.order
  {
    var t := Preempted(s);
    PreemptedClaims(s);
    var c := Select(t.procs, t.order);
    if c.Some? {
      SelectFirstBest(t.procs, t.order);
      var x := t.At(c.value).(state := Running);
      WithClaims(t, c.value, x);
      ClaimsTrans(s, t, t.With(c.value, x));
    }
  }

  lemma {:induction false} TimedWaitClaims(s: State, delay: int)
    requires s.current.Some? && s.current.value in s.procs
    ensures SameClaims(s, TimedWait(s, delay).0)
  {
    var p := s.current.value;
    if TimedWait(s, delay).1 == NoError {
      RecordStill(s, p, s.At(p).(state := Ready));
      RecordStill(s, p, s.At(p).(state := Waiting, timer := s.now + delay));
    }
  }

  /** The nominal priority the services promise `r` after `e`. */
  function NominalAfter(s: State, e: Event, r: Pid): int
    requires Enabled(s, e)
  {
    match e
    case Prioritize(p, n) => if p == r && SetPriority(s, p, n).1 == NoError then n else Nominal(s, r)
    case Launch(p, f) => if p == r && Start(s, p, f).1 == NoError then s.At(p).base else Nominal(s, r)
    case _ => Nominal(s, r)
  }

  ghost predicate NominalKept(s: State, e: Event)
    requires Enabled(s, e)
  {
    Next(s, e).procs.Keys == s.procs.Keys && forall r :: r in s.procs ==>
        Nominal(Next(s, e), r) == NominalAfter(s, e, r)
  }

  /** Only SET_PRIORITY and START touch a nominal priority, and only their target's. */
  lemma {:induction false} NominalPreserved(s: State, e: Event)
    requires Inv(s) && Enabled(s, e)
    ensures NominalKept(s, e)
  {
    if !Moves(e) {
      StillEvent(s, e);
      ClaimsNominal(s, Next(s, e));
    } else if e.Prioritize? || e.Launch? {
      AssignedNominal(s, e);
    } else if e.Acquire? || e.Release? || e.Reset? {
      MutexNominal(s, e);
    } else if e.Lock? || e.Unlock? || e.QuitSelf? {
      LockNominal(s, e);
    } else {
      ClaimsOnlyNominal(s, e);
    }
  }

  lemma {:induction false} AssignedNominal(s: State, e: Event)
    requires Inv(s) && Enabled(s, e) && (e.Prioritize? || e.Launch?)
    ensures NominalKept(s, e)
  {
    if e.Prioritize? {
      if SetPriority(s, e.pid, e.priority).1 == NoError {
        SetPriorityNominal(s, e.pid, e.priority);
      }
    } else if Start(s, e.pid, e.first).1 == NoError {
      StartNominal(s, e.pid, e.first);
    }
  }

  lemma {:induction false} MutexNominal(s: State, e: Event)
    requires Inv(s) && Enabled(s, e) && (e.Acquire? || e.Release? || e.Reset?)
    ensures SameNominal(s, Next(s, e))
  {
    if e.Acquire? {
      AcquireNominal(s, e.id, e.timeout);
    } else if e.Release? {
      ReleaseNominal(s, e.id);
    } else if ResetMutex(s, e.id, e.pid).1 == NoError {
      SurrenderNominal(s, e.id, e.pid);
    }
  }

  lemma {:induction false} LockNominal(s: State, e: Event)
    requires Inv(s) && Enabled(s, e) && (e.Lock? || e.Unlock? || e.QuitSelf?)
    ensures SameNominal(s, Next(s, e))
  {
    if e.Lock? {
      AcquireNominal(s, PREEMPTION_LOCK, INFINITE);
    } else if e.Unlock? {
      ReleaseNominal(s, PREEMPTION_LOCK);
    } else {
      StopSelfNominal(s);
    }
  }

  lemma {:induction false} ClaimsOnlyNominal(s: State, e: Event)
    requires Inv(s) && Enabled(s, e) && (e.Delay? || e.Dispatch?)
    ensures SameNominal(s, Next(s, e))
  {
    if e.Delay? {
      TimedWaitClaims(s, e.timeout);
    } else {
      ScheduleClaims(s);
    }
    ClaimsNominal(s, Next(s, e));
  }

  predicate Assigns(e: Event, p: Pid) {
    (e.Prioritize? || e.Launch?) && e.pid == p
  }

  /** Over a whole safe run nobody's nominal priority drifts, whatever is locked and handed over. */
  lemma {:induction false} NominalOverRun(s: State, run: seq<Event>, p: Pid)
    requires Inv(s) && Feasible(s, run) && AllSafe(s, run) && p in s.procs
    requires forall e :: e in run ==> !Assigns(e, p)
    ensures p in Exec(s, run).procs && Nominal(Exec(s, run), p) == Nominal(s, p)
    decreases |run|
  {
    if run != [] {
      assert run[0] in run;
      StepExact(s, run[0]);
      NominalPreserved(s, run[0]);
      NominalOverRun(Next(s, run[0]), run[1..], p);
    }
  }
}
