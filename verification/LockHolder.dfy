/** The preemption lock over any run: whatever the other processes and the clock do, safe or not, its
    owner keeps the processor. */
module LockHolder {
  import opened Apex
  import opened Sequences
  import opened Services
  import opened Invariant
  import opened Exact
  import opened Runs
  import opened PreemptionLock

  /** `p` holds the preemption lock: it heads the list at the top priority, stands in no queue, and
      no other process executes. Nothing is said about the queues and mutexes of the others. */
  ghost predicate Holder(s: State, p: Pid) {
    && OrderOk(s) && s.order != [] && s.order[0] == p
    && Locked(s) && Locker(s) == p
    && p in s.procs && s.procs[p].owned == Some(PREEMPTION_LOCK) && s.procs[p].priority == MAX_PRIORITY
    && Alive(s.procs[p])
    && (s.current.Some? && !s.yielded ==> s.current == Some(p))
    && (forall r :: r in s.procs ==> s.procs[r].priority <= MAX_PRIORITY && s.procs[r].base <= MAX_PRIORITY)
    && (forall r :: r in s.procs && s.procs[r].state == Running ==> s.current == Some(r))
    && (forall q, r :: r in s.Queue(q) ==> r in s.procs && r != p)
  }

  lemma {:induction false} InvHolder(s: State)
    requires Inv(s) && LockOk(s) && Locked(s)
    ensures Holder(s, Locker(s))
  {
    var p := Locker(s);
    forall q, r | r in s.Queue(q) ensures r in s.procs && r != p {
      assert s.At(r).state == Waiting;
    }
  }

  /** A record that may replace that of a process other than the holder. */
  predicate Harmless(x: Proc, y: Proc) {
    && y.state != Running && y.base == x.base && (y.priority == x.priority || y.priority <= MAX_PRIORITY)
  }

  /** Nobody new runs or waits, the list stays, and so does what makes `p` the holder. */
  ghost predicate Calm(s: State, t: State, p: Pid) {
    && t.procs.Keys == s.procs.Keys && t.order == s.order && t.current == s.current
    && (forall r :: r in s.procs && r != p ==> t.procs[r] == s.procs[r] || Harmless(s.procs[r], t.procs[r]))
    && p in s.procs && t.procs[p] == s.procs[p]
    && (forall q, r :: r in t.Queue(q) ==> r in s.Queue(q))
    && t.MutexAt(PREEMPTION_LOCK).owned == s.MutexAt(PREEMPTION_LOCK).owned
    && t.MutexAt(PREEMPTION_LOCK).owner == s.MutexAt(PREEMPTION_LOCK).owner
  }

  lemma {:induction false} CalmTrans(s: State, t: State, u: State, p: Pid)
    requires Calm(s, t, p) && Calm(t, u, p)
    ensures Calm(s, u, p)
  {
  }

  lemma {:induction false} CalmHolder(s: State, t: State, p: Pid)
    requires Holder(s, p) && s.current == Some(p) && Calm(s, t, p)
    ensures Holder(t, p)
  {
  }

  // ---------------------------------------------------------------- building blocks

  /** Objects, LOCK_LEVEL and the yield do not matter. */
  lemma {:induction false} SameCalm(s: State, t: State, u: State, p: Pid)
    requires Calm(s, t, p) && u.procs == t.procs && u.waits == t.waits && u.order == t.order && u.current == t.current
    requires u.MutexAt(PREEMPTION_LOCK).owned == t.MutexAt(PREEMPTION_LOCK).owned
    requires u.MutexAt(PREEMPTION_LOCK).owner == t.MutexAt(PREEMPTION_LOCK).owner
    ensures Calm(s, u, p)
  {
    assert forall q :: u.Queue(q) == t.Queue(q);
  }

  lemma {:induction false} RecordCalm(s: State, r: Pid, x: Proc, p: Pid)
    requires r in s.procs && p in s.procs && r != p && Harmless(s.procs[r], x)
    ensures Calm(s, s.With(r, x), p)
  {
    assert forall q :: s.With(r, x).Queue(q) == s.Queue(q);
  }

  lemma {:induction false} QueueCalm(s: State, q: QueueId, queue: seq<Pid>, delta: int, p: Pid)
    requires p in s.procs && forall r :: r in queue ==> r in s.Queue(q)
    ensures Calm(s, s.WithQueue(q, queue, delta), p)
  {
  }

  lemma {:induction false} WakeCalm(s: State, q: QueueId, p: Pid)
    requires p in s.procs && s.Queue(q) != [] && s.Queue(q)[0] in s.procs && s.Queue(q)[0] != p
    ensures Calm(s, Wake(s, q), p)
  {
    var w, t := s.Queue(q)[0], s.WithQueue(q, s.Queue(q)[1..], -1);
    QueueCalm(s, q, s.Queue(q)[1..], -1, p);
    RecordCalm(t, w, Woken(s.At(w), q.obj.kind), p);
    CalmTrans(s, t, Wake(s, q), p);
  }

  lemma {:induction false} WakeAllCalm(s: State, q: QueueId, p: Pid)
    requires p in s.procs && forall r :: r in s.Queue(q) ==> r in s.procs && r != p
    ensures Calm(s, WakeAll(s, q), p)
    decreases |s.Queue(q)|
  {
    if s.Queue(q) != [] {
      var t := Wake(s, q);
      assert s.Queue(q)[0] in s.Queue(q);
      WakeCalm(s, q, p);
      WakeAllCalm(t, q, p);
      CalmTrans(s, t, WakeAll(t, q), p);
    }
  }

  lemma {:induction false} WithdrawCalm(s: State, r: Pid, q: QueueId, p: Pid)
    requires p in s.procs
    ensures Calm(s, Withdraw(s, r, q), p)
  {
    if r in s.Queue(q) {
      var t := s.WithQueue(q, Remove(s.Queue(q), r), -1);
      RemoveKeeps(s.Queue(q), r);
      QueueCalm(s, q, Remove(s.Queue(q), r), -1, p);
      SameCalm(s, t, Withdraw(s, r, q), p);
    }
  }

  lemma {:induction false} LeaveCalm(s: State, r: Pid, k: Kind, p: Pid)
    requires p in s.procs && r in s.procs && r != p && s.procs[r].state != Running
    ensures Calm(s, Leave(s, r, k), p) && Leave(s, r, k).procs[r].state == s.procs[r].state
  {
    if s.At(r).waitingOn.Get(k).Some? {
      var o := Obj(k, s.At(r).waitingOn.Get(k).value);
      var t := Withdraw(s, r, Waiters(o));
      var u := if k == BufferKind then Withdraw(t, r, Writers(o)) else t;
      WithdrawCalm(s, r, Waiters(o), p);
      WithdrawCalm(t, r, Writers(o), p);
      CalmTrans(s, t, Withdraw(t, r, Writers(o)), p);
      RecordCalm(u, r, u.At(r).(waitingOn := u.At(r).waitingOn.Set(k, None)), p);
      CalmTrans(s, u, Leave(s, r, k), p);
    }
  }

  lemma {:induction false} LeaveAllCalm(s: State, r: Pid, p: Pid)
    requires p in s.procs && r in s.procs && r != p && s.procs[r].state != Running
    ensures Calm(s, LeaveAll(s, r), p)
  {
    var a := Leave(s, r, BlackboardKind);
    var b := Leave(a, r, BufferKind);
    var c := Leave(b, r, SemaphoreKind);
    var d := Leave(c, r, EventKind);
    LeaveCalm(s, r, BlackboardKind, p);
    LeaveCalm(a, r, BufferKind, p);
    LeaveCalm(b, r, SemaphoreKind, p);
    LeaveCalm(c, r, EventKind, p);
    LeaveCalm(d, r, MutexKind, p);
    CalmTrans(s, a, b, p);
    CalmTrans(s, b, c, p);
    CalmTrans(s, c, d, p);
    CalmTrans(s, d, LeaveAll(s, r), p);
  }

  // ---------------------------------------------------------------- the holder calls a service

  /** The holder executes. */
  ghost predicate Executes(s: State, p: Pid) {
    Holder(s, p) && s.current == Some(p) && !s.yielded
  }

  lemma {:induction false} SelfCalm(s: State, p: Pid)
    requires p in s.procs
    ensures Calm(s, s, p)
  {
  }

  /** A process that owns a mutex is refused every other mutex and every service that would block it. */
  lemma {:induction false} MutexRefused(s: State, e: Event, p: Pid)
    requires Executes(s, p) && Enabled(s, e) && (e.Acquire? || e.Release? || e.Reset?)
    ensures Next(s, e) == s
  {
  }

  lemma {:induction false} WaitRefused(s: State, e: Event, p: Pid)
    requires Executes(s, p) && Enabled(s, e) && (e.SleepSelf? || e.Delay? || e.NextPeriod? || e.Await? || e.Read?)
    ensures Next(s, e) == s
  {
  }

  lemma {:induction false} LockCalm(s: State, p: Pid)
    requires Executes(s, p)
    ensures Calm(s, LockPreemption(s).0, p)
  {
    SelfCalm(s, p);
    SameCalm(s, s, LockPreemption(s).0, p);
  }

  /** An inner UNLOCK_PREEMPTION only counts down. */
  lemma {:induction false} UnlockCalm(s: State, p: Pid)
    requires Executes(s, p) && s.MutexAt(PREEMPTION_LOCK).locks != 1
    ensures Calm(s, UnlockPreemption(s).0, p)
  {
    SelfCalm(s, p);
    SameCalm(s, s, UnlockPreemption(s).0, p);
  }

  lemma {:induction false} ObjectCalm(s: State, e: Event, p: Pid)
    requires Executes(s, p) && Enabled(s, e) && (e.Lower? || e.Clear? || e.Refresh? || e.Take?)
    ensures Calm(s, Next(s, e), p)
  {
    SelfCalm(s, p);
    SameCalm(s, s, Next(s, e), p);
  }

  lemma {:induction false} TargetCalm(s: State, e: Event, p: Pid)
    requires Executes(s, p) && Enabled(s, e) && (e.Sleep? || e.Rouse? || e.Launch?)
    ensures Calm(s, Next(s, e), p)
  {
    var t, r := Next(s, e), e.pid;
    SelfCalm(s, p);
    if t != s {
      RecordCalm(s, r, t.At(r), p);
      SameCalm(s, s.With(r, t.At(r)), t, p);
    }
  }

  lemma {:induction false} StopCalm(s: State, r: Pid, p: Pid)
    requires Executes(s, p)
    ensures Calm(s, Stop(s, r).0, p)
  {
    SelfCalm(s, p);
    if Stop(s, r).0 != s {
      var t := LeaveAll(s, r);
      LeaveAllCalm(s, r, p);
      RecordCalm(t, r, Killed(t.At(r)), p);
      CalmTrans(s, t, t.With(r, Killed(t.At(r))), p);
      SameCalm(s, t.With(r, Killed(t.At(r))), Stop(s, r).0, p);
    }
  }

  lemma {:induction false} GiveCalm(s: State, id: int, p: Pid)
    requires Executes(s, p)
    ensures Calm(s, SignalSemaphore(s, id).0, p)
  {
    var q, r := Waiters(Obj(SemaphoreKind, id)), SignalSemaphore(s, id);
    SelfCalm(s, p);
    if r.1 == NoError && s.Queue(q) != [] {
      assert s.Queue(q)[0] in s.Queue(q);
      WakeCalm(s, q, p);
      SameCalm(s, Wake(s, q), r.0, p);
    } else {
      SameCalm(s, s, r.0, p);
    }
  }

  /** Waking everybody in `q` after a change of objects. */
  lemma {:induction false} DrainCalm(s: State, t: State, q: QueueId, p: Pid)
    requires Executes(s, p) && t.procs == s.procs && t.waits == s.waits && t.order == s.order && t.current == s.current
    requires t.mutexes == s.mutexes
    ensures Calm(s, WakeAll(t, q), p) && Calm(s, WakeAll(t, q).(yielded := true), p)
  {
    var u := WakeAll(t, q);
    SelfCalm(s, p);
    SameCalm(s, s, t, p);
    assert t.Queue(q) == s.Queue(q);
    WakeAllCalm(t, q, p);
    CalmTrans(s, t, u, p);
    SameCalm(s, u, u.(yielded := true), p);
  }

  lemma {:induction false} RaiseCalm(s: State, e: Event, p: Pid)
    requires Executes(s, p) && Enabled(s, e) && (e.Raise? || e.Display?)
    ensures Calm(s, Next(s, e), p)
  {
    SelfCalm(s, p);
    if Next(s, e) == s {
    } else if e.Raise? {
      DrainCalm(s, s.PutEvent(e.id, true), Waiters(Obj(EventKind, e.id)), p);
    } else {
      DrainCalm(s, s.PutBlackboard(e.id, s.blackboards[e.id].(occupied := true, message := e.message)),
                Waiters(Obj(BlackboardKind, e.id)), p);
    }
  }

  lemma {:induction false} SendCalm(s: State, id: int, m: Message, n: int, p: Pid)
    requires Executes(s, p)
    ensures Calm(s, SendBuffer(s, id, m, n).0, p)
  {
    var q, r := Waiters(Obj(BufferKind, id)), SendBuffer(s, id, m, n);
    SelfCalm(s, p);
    if r.1 == NoError && s.Queue(q) != [] {
      var h, t := s.Queue(q)[0], Wake(s, q);
      assert h in s.Queue(q);
      WakeCalm(s, q, p);
      RecordCalm(t, h, t.At(h).(message := m), p);
      CalmTrans(s, t, t.With(h, t.At(h).(message := m)), p);
      SameCalm(s, t.With(h, t.At(h).(message := m)), r.0, p);
    } else {
      SameCalm(s, s, r.0, p);
    }
  }

  lemma {:induction false} ReceiveCalm(s: State, id: int, n: int, p: Pid)
    requires Executes(s, p)
    ensures Calm(s, ReceiveBuffer(s, id, n).0, p)
  {
    var q, r := Writers(Obj(BufferKind, id)), ReceiveBuffer(s, id, n);
    SelfCalm(s, p);
    if r.1 == NoError && s.Queue(q) != [] {
      assert s.Queue(q)[0] in s.Queue(q);
      WakeCalm(s, q, p);
      SameCalm(s, Wake(s, q), r.0, p);
    } else {
      SameCalm(s, s, r.0, p);
    }
  }

  /** The events with which the holder gives the lock up, or its place at the head of the list. */
  predicate GivesUp(s: State, e: Event) {
    e.QuitSelf? || (e.Unlock? && s.MutexAt(PREEMPTION_LOCK).locks == 1) || Demotes(s, e)
  }

  lemma {:induction false} CallCalm(s: State, e: Event, p: Pid)
    requires Executes(s, p) && Enabled(s, e) && !GivesUp(s, e)
    requires e.Give? || e.Send? || e.Receive? || e.Quit? || e.Lock? || e.Unlock?
    ensures Calm(s, Next(s, e), p)
  {
    match e
    case Give(id) => GiveCalm(s, id, p);
    case Send(id, m, n) => SendCalm(s, id, m, n, p);
    case Receive(id, n) => ReceiveCalm(s, id, n, p);
    case Quit(r) => StopCalm(s, r, p);
    case Lock => LockCalm(s, p);
    case Unlock => UnlockCalm(s, p);
  }

  lemma {:induction false} ServiceCalm(s: State, e: Event, p: Pid)
    requires Executes(s, p) && Enabled(s, e) && !GivesUp(s, e) && !e.Prioritize? && !e.Dispatch? && !e.Clock?
    ensures Calm(s, Next(s, e), p)
  {
    SelfCalm(s, p);
    if e.Acquire? || e.Release? || e.Reset? {
      MutexRefused(s, e, p);
    } else if e.SleepSelf? || e.Delay? || e.NextPeriod? || e.Await? || e.Read? {
      WaitRefused(s, e, p);
    } else if e.Lower? || e.Clear? || e.Refresh? || e.Take? {
      ObjectCalm(s, e, p);
    } else if e.Sleep? || e.Rouse? || e.Launch? {
      TargetCalm(s, e, p);
    } else if e.Raise? || e.Display? {
      RaiseCalm(s, e, p);
    } else {
      CallCalm(s, e, p);
    }
  }

  // ---------------------------------------------------------------- the other steps

  lemma {:induction false} PrioritizeHolder(s: State, r: Pid, n: int, p: Pid)
    requires Executes(s, p) && r != p
    ensures Holder(SetPriority(s, r, n).0, p)
  {
    var t := SetPriority(s, r, n).0;
    PrioritizeOrder(s, r, n, p);
    assert forall q :: t.Queue(q) == s.Queue(q);
    assert t.current == s.current && t.procs.Keys == s.procs.Keys && t.procs[p] == s.procs[p];
    assert t.MutexAt(PREEMPTION_LOCK).owned && t.MutexAt(PREEMPTION_LOCK).owner == p;
  }

  lemma {:induction false} PrioritizeOrder(s: State, r: Pid, n: int, p: Pid)
    requires Executes(s, p) && r != p
    ensures var t := SetPriority(s, r, n).0;
            t.order != [] && t.order[0] == p && NoDup(t.order) && forall x :: x in t.order <==> x in s.order
  {
    if SetPriority(s, r, n).0.order != s.order {
      MoveBackMembers(s.order, r);
      RemoveKeepsHead(s.order, r);
    }
  }

  /** A dispatch selects the holder. */
  lemma {:induction false} ScheduleSelectsHolder(s: State, p: Pid)
    requires Holder(s, p)
    ensures Schedule(s).current == Some(p)
  {
    var t := Preempted(s);
    PreemptedReady(s, p);
    assert forall r :: r in t.procs ==> t.procs[r].priority == s.procs[r].priority;
    HeadWins(t.procs, t.order);
    ScheduledAs(s, Some(p));
  }

  lemma {:induction false} ScheduleHolder(s: State, p: Pid)
    requires Holder(s, p)
    ensures Holder(Schedule(s), p)
  {
    var t := Schedule(s);
    ScheduleSelectsHolder(s, p);
    assert forall q :: t.Queue(q) == s.Queue(q);
    assert t.procs.Keys == s.procs.Keys && t.order == s.order && t.mutexes == s.mutexes;
  }

  /** Any update of the clock, whoever it wakes. */
  lemma {:induction false} ClockHolder(s: State, now: int, p: Pid)
    requires Holder(s, p)
    ensures Holder(Tick(s, now), p)
  {
    var t := Tick(s, now);
    assert forall q :: t.Queue(q) == s.Queue(q);
    assert t.procs.Keys == s.procs.Keys;
  }

  /** Only UNLOCK_PREEMPTION, STOP_SELF and SET_PRIORITY on itself take the processor from the holder. */
  lemma {:induction false} HolderStep(s: State, e: Event, p: Pid)
    requires Holder(s, p) && Enabled(s, e) && !GivesUp(s, e)
    ensures Holder(Next(s, e), p)
  {
    if e.Dispatch? {
      ScheduleHolder(s, p);
    } else if e.Clock? {
      ClockHolder(s, e.time, p);
    } else if e.Prioritize? {
      PrioritizeHolder(s, e.pid, e.priority, p);
    } else {
      ServiceCalm(s, e, p);
      CalmHolder(s, Next(s, e), p);
    }
  }

  ghost predicate NeverGivesUp(s: State, run: seq<Event>)
    requires Feasible(s, run)
    decreases |run|
  {
    run != [] ==> !GivesUp(s, run[0]) && NeverGivesUp(Next(s, run[0]), run[1..])
  }

  lemma {:induction false} HolderOverRun(s: State, run: seq<Event>, p: Pid)
    requires Holder(s, p) && Feasible(s, run) && NeverGivesUp(s, run)
    ensures Holder(Exec(s, run), p)
    decreases |run|
  {
    if run != [] {
      HolderStep(s, run[0], p);
      HolderOverRun(Next(s, run[0]), run[1..], p);
    }
  }

  /** From a good state in which the lock is held, over every run whatsoever in which the owner does
      not give it up: the lock stays with it, nobody else executes, and any dispatch selects it. */
  lemma {:induction false} LockerKeepsProcessor(s: State, run: seq<Event>)
    requires Inv(s) && LockOk(s) && Locked(s) && Feasible(s, run) && NeverGivesUp(s, run)
    ensures var t := Exec(s, run);
            && Locked(t) && Locker(t) == Locker(s) && Schedule(t).current == Some(Locker(s))
            && (t.current.Some? && !t.yielded ==> t.current == Some(Locker(s)))
  {
    InvHolder(s);
    HolderOverRun(s, run, Locker(s));
    ScheduleSelectsHolder(Exec(s, run), Locker(s));
  }
}
