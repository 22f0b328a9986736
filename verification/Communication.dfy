/** Semaphores, events and blackboards over whole runs, in terms of the calls made. */
module Communication {
  import opened Apex
  import opened Sequences
  import opened Services
  import opened Invariant
  import opened Exact
  import opened Runs

  // ---------------------------------------------------------------- who touches which object

  predicate Aside(s: State, t: State) {
    t.semaphores == s.semaphores && t.events == s.events && t.blackboards == s.blackboards
  }

  lemma {:induction false} WakeAllAside(s: State, q: QueueId)
    ensures WakeAll(s, q).objects == s.objects
    decreases |s.Queue(q)|
  {
    if s.Queue(q) != [] {
      WakeAllAside(Wake(s, q), q);
    }
  }

  lemma {:induction false} SurrenderAside(s: State, id: int, p: Pid)
    ensures Aside(s, Surrender(s, id, p))
  {
    var t, q := Free(s, id, p), Waiters(Obj(MutexKind, id));
    assert Aside(s, t);
    if t.Queue(q) != [] {
      assert Wake(t, q).objects == t.objects;
    }
  }

  lemma {:induction false} AcquireAside(s: State, id: int, timeout: int)
    requires s.current.Some?
    ensures Aside(s, KernelAcquire(s, id, timeout).0)
  {
    var r := KernelAcquire(s, id, timeout);
    if r.1 == Parked {
      assert r.0.objects == s.objects;
    } else if r.1 == NoError {
      assert r.0.objects == s.objects.(mutexes := r.0.mutexes);
    } else {
      assert r.0 == s;
    }
  }

  lemma {:induction false} ReleaseAside(s: State, id: int)
    requires s.current.Some?
    ensures Aside(s, KernelRelease(s, id).0)
  {
    SurrenderAside(s, id, s.current.value);
  }

  lemma {:induction false} StopSelfAside(s: State)
    requires s.current.Some?
    ensures Aside(s, StopSelf(s))
  {
    var p := s.current.value;
    var t := s.With(p, s.At(p).(deadline := INFINITE));
    var owned := s.At(p).owned;
    if owned.Some? {
      SurrenderAside(if owned.value == PREEMPTION_LOCK then t.(lockLevel := 0) else t, owned.value, p);
    }
  }

  lemma {:induction false} LeaveAside(s: State, p: Pid, k: Kind)
    ensures Aside(s, Leave(s, p, k))
  {
    if s.At(p).waitingOn.Get(k).Some? {
      var o := Obj(k, s.At(p).waitingOn.Get(k).value);
      WithdrawAside(s, p, Waiters(o));
      WithdrawAside(Withdraw(s, p, Waiters(o)), p, Writers(o));
    }
  }

  lemma {:induction false} WithdrawAside(s: State, p: Pid, q: QueueId)
    ensures Aside(s, Withdraw(s, p, q))
  {
  }

  lemma {:induction false} StopAside(s: State, target: Pid)
    requires s.current.Some?
    ensures Aside(s, Stop(s, target).0)
  {
    var a := Leave(s, target, BlackboardKind);
    var b := Leave(a, target, BufferKind);
    var c := Leave(b, target, SemaphoreKind);
    LeaveAside(s, target, BlackboardKind);
    LeaveAside(a, target, BufferKind);
    LeaveAside(b, target, SemaphoreKind);
    LeaveAside(c, target, EventKind);
    LeaveAside(Leave(c, target, EventKind), target, MutexKind);
  }

  lemma {:induction false} MutexAside(s: State, e: Event)
    requires Enabled(s, e) && (e.Acquire? || e.Release? || e.Reset? || e.Lock? || e.Unlock?)
    ensures Aside(s, Next(s, e))
  {
    match e
    case Acquire(id, t) => AcquireAside(s, id, t);
    case Release(id) => ReleaseAside(s, id);
    case Reset(id, p) => SurrenderAside(s, id, p);
    case Lock => AcquireAside(s, PREEMPTION_LOCK, INFINITE);
    case Unlock => ReleaseAside(s, PREEMPTION_LOCK);
  }

  lemma {:induction false} SendAside(s: State, id: int, m: Message, n: int)
    requires s.current.Some?
    ensures Aside(s, SendBuffer(s, id, m, n).0)
  {
    var r := SendBuffer(s, id, m, n);
    if r.1 == Parked {
      assert r.0.objects == s.objects.(buffers := r.0.buffers);
    } else if r.1 == NoError {
      var q := Waiters(Obj(BufferKind, id));
      assert s.Queue(q) != [] ==> Wake(s, q).objects == s.objects;
      assert r.0.objects == s.objects.(buffers := r.0.buffers);
    }
  }

  lemma {:induction false} ReceiveAside(s: State, id: int, n: int)
    requires s.current.Some?
    ensures Aside(s, ReceiveBuffer(s, id, n).0)
  {
    var r := ReceiveBuffer(s, id, n);
    if r.1 == Parked {
      assert r.0.objects == s.objects;
    } else if r.1 == NoError {
      var q := Writers(Obj(BufferKind, id));
      assert s.Queue(q) != [] ==> Wake(s, q).objects == s.objects;
      assert r.0.objects == s.objects.(buffers := r.0.buffers);
    }
  }

  lemma {:induction false} BufferAside(s: State, e: Event)
    requires Enabled(s, e) && (e.Send? || e.Receive? || e.Await? || e.Read?)
    ensures Aside(s, Next(s, e))
  {
    if e.Send? {
      SendAside(s, e.id, e.message, e.timeout);
    } else if e.Receive? {
      ReceiveAside(s, e.id, e.timeout);
    } else {
      ParkAside(s, e);
    }
  }

  lemma {:induction false} ParkAside(s: State, e: Event)
    requires Enabled(s, e) && (e.Await? || e.Read?)
    ensures Aside(s, Next(s, e))
  {
  }

  lemma {:induction false} ProcessAside(s: State, e: Event)
    requires Enabled(s, e) && (e.Prioritize? || e.SleepSelf? || e.Sleep? || e.Rouse? || e.Launch?)
    ensures Aside(s, Next(s, e))
  {
  }

  lemma {:induction false} TimeAside(s: State, e: Event)
    requires Enabled(s, e) && (e.Delay? || e.NextPeriod? || e.Refresh? || e.Dispatch? || e.Clock?)
    ensures Aside(s, Next(s, e))
  {
  }

  predicate Communicates(e: Event) {
    e.Take? || e.Give? || e.Raise? || e.Lower? || e.Display? || e.Clear?
  }

  /** Only its own services touch a semaphore, an event or a blackboard. */
  lemma {:induction false} AsideEvent(s: State, e: Event)
    requires Enabled(s, e) && !Communicates(e)
    ensures Aside(s, Next(s, e))
  {
    if e.Acquire? || e.Release? || e.Reset? || e.Lock? || e.Unlock? {
      MutexAside(s, e);
    } else if e.Send? || e.Receive? || e.Await? || e.Read? {
      BufferAside(s, e);
    } else if e.Prioritize? || e.SleepSelf? || e.Sleep? || e.Rouse? || e.Launch? {
      ProcessAside(s, e);
    } else if e.Quit? {
      StopAside(s, e.pid);
    } else if e.QuitSelf? {
      StopSelfAside(s);
    } else {
      TimeAside(s, e);
    }
  }

  // ---------------------------------------------------------------- semaphores

  /** Accepted SIGNAL_SEMAPHORE calls. */
  function Signalled(s: State, e: Event, id: int): nat
    requires Enabled(s, e)
  {
    if e.Give? && e.id == id && SignalSemaphore(s, id).1 == NoError then 1 else 0
  }

  /** Waits granted: at once by WAIT_SEMAPHORE, or to the first waiter by SIGNAL_SEMAPHORE. */
  function Granted(s: State, e: Event, id: int): nat
    requires Enabled(s, e)
  {
    if e.Take? && e.id == id && WaitSemaphore(s, id, e.timeout).1 == NoError then 1
    else if Signalled(s, e, id) == 1 && s.Queue(Waiters(Obj(SemaphoreKind, id))) != [] then 1
    else 0
  }

  /** The value of semaphore `id` moved by `e` as its calls say. */
  ghost predicate ValueMoved(s: State, e: Event, t: State, id: int)
    requires Enabled(s, e) && id in s.semaphores
  {
    && id in t.semaphores && t.semaphores[id].maximum == s.semaphores[id].maximum
    && t.semaphores[id].value == s.semaphores[id].value + Signalled(s, e, id) - Granted(s, e, id)
  }

  lemma {:induction false} TakeMoves(s: State, e: Event, id: int)
    requires Enabled(s, e) && id in s.semaphores && e.Take?
    ensures ValueMoved(s, e, WaitSemaphore(s, e.id, e.timeout).0, id)
  {
    var r := WaitSemaphore(s, e.id, e.timeout);
    if r.1 == Parked {
      assert r.0.objects == s.objects;
    } else if r.1 == NoError {
      assert e.id != id ==> r.0.semaphores[id] == s.semaphores[id];
    } else {
      assert r.0 == s;
    }
  }

  lemma {:induction false} GiveMoves(s: State, e: Event, id: int)
    requires Enabled(s, e) && id in s.semaphores && e.Give?
    ensures ValueMoved(s, e, SignalSemaphore(s, e.id).0, id)
  {
    var r := SignalSemaphore(s, e.id);
    if r.1 == NoError {
      assert e.id != id ==> r.0.semaphores[id] == s.semaphores[id];
    } else {
      assert r.0 == s;
    }
  }

  /** Semaphore calls touch semaphores only. */
  lemma {:induction false} SemaphoreCalls(s: State, e: Event)
    requires Enabled(s, e) && (e.Take? || e.Give?)
    ensures Next(s, e).events == s.events && Next(s, e).blackboards == s.blackboards
  {
    if e.Take? {
      var r := WaitSemaphore(s, e.id, e.timeout);
      assert r.1 == Parked ==> r.0.objects == s.objects;
    }
  }

  /** Event calls touch events only. */
  lemma {:induction false} EventCalls(s: State, e: Event)
    requires Enabled(s, e) && (e.Raise? || e.Lower?)
    ensures Next(s, e).semaphores == s.semaphores && Next(s, e).blackboards == s.blackboards
    ensures Next(s, e).events == if e.id in s.events then s.events[e.id := e.Raise?] else s.events
  {
    if e.Raise? {
      WakeAllAside(s.PutEvent(e.id, true), Waiters(Obj(EventKind, e.id)));
    }
  }

  /** Blackboard calls touch blackboards only. */
  lemma {:induction false} BlackboardCalls(s: State, e: Event)
    requires Enabled(s, e) && (e.Display? || e.Clear?)
    ensures Next(s, e).semaphores == s.semaphores && Next(s, e).events == s.events
  {
    if e.Display? {
      DisplayAside(s, e.id, e.message);
    }
  }

  lemma {:induction false} SemaphoreStep(s: State, e: Event, id: int)
    requires Enabled(s, e) && id in s.semaphores
    ensures ValueMoved(s, e, Next(s, e), id)
  {
    if e.Take? {
      TakeMoves(s, e, id);
    } else if e.Give? {
      GiveMoves(s, e, id);
    } else if e.Raise? || e.Lower? {
      EventCalls(s, e);
    } else if e.Display? || e.Clear? {
      BlackboardCalls(s, e);
    } else {
      AsideEvent(s, e);
    }
  }

  lemma {:induction false} DisplayAside(s: State, id: int, m: Message)
    requires s.current.Some?
    ensures var t := DisplayBlackboard(s, id, m).0;
            && t.semaphores == s.semaphores && t.events == s.events
            && t.blackboards == if DisplayBlackboard(s, id, m).1 == NoError
                                then s.blackboards[id := s.blackboards[id].(occupied := true, message := m)]
                                else s.blackboards
  {
    if id in s.blackboards {
      WakeAllAside(s.PutBlackboard(id, s.blackboards[id].(occupied := true, message := m)),
          Waiters(Obj(BlackboardKind, id)));
    }
  }

  function AllSignalled(s: State, run: seq<Event>, id: int): nat
    requires Feasible(s, run)
    decreases |run|
  {
    if run == [] then 0 else Signalled(s, run[0], id) + AllSignalled(Next(s, run[0]), run[1..], id)
  }

  function AllGranted(s: State, run: seq<Event>, id: int): nat
    requires Feasible(s, run)
    decreases |run|
  {
    if run == [] then 0 else Granted(s, run[0], id) + AllGranted(Next(s, run[0]), run[1..], id)
  }

  /** CURRENT_VALUE + grants = initial value + accepted signals, counted over the calls of any run. */
  lemma {:induction false} SemaphoreLaw(s: State, run: seq<Event>, id: int)
    requires Feasible(s, run) && id in s.semaphores
    ensures id in Exec(s, run).semaphores
    ensures Exec(s, run).semaphores[id].value + AllGranted(s, run, id) == s.semaphores[id].value
            + AllSignalled(s, run, id)
    decreases |run|
  {
    if run != [] {
      SemaphoreStep(s, run[0], id);
      SemaphoreLaw(Next(s, run[0]), run[1..], id);
    }
  }

  // ---------------------------------------------------------------- events and blackboards

  /** The state of an event after `e`: what the last accepted SET_EVENT or RESET_EVENT made it. */
  function Latched(e: Event, id: int, up: bool): bool {
    if e.Raise? && e.id == id then true else if e.Lower? && e.id == id then false else up
  }

  lemma {:induction false} EventStep(s: State, e: Event, id: int)
    requires Enabled(s, e) && id in s.events
    ensures id in Next(s, e).events && Next(s, e).events[id] == Latched(e, id, s.events[id])
  {
    if e.Raise? || e.Lower? {
      EventCalls(s, e);
    } else if e.Take? || e.Give? {
      SemaphoreCalls(s, e);
    } else if e.Display? || e.Clear? {
      BlackboardCalls(s, e);
    } else {
      AsideEvent(s, e);
    }
  }

  /** The blackboard after `e`: DISPLAY_BLACKBOARD sets the message, CLEAR_BLACKBOARD only the indicator. */
  function Shown(s: State, e: Event, id: int, b: Blackboard): Blackboard
    requires Enabled(s, e)
  {
    if e.Display? && e.id == id && DisplayBlackboard(s, id, e.message).1 == NoError
    then b.(occupied := true, message := e.message)
    else if e.Clear? && e.id == id then b.(occupied := false)
    else b
  }

  lemma {:induction false} BlackboardStep(s: State, e: Event, id: int)
    requires Enabled(s, e) && id in s.blackboards
    ensures id in Next(s, e).blackboards && Next(s, e).blackboards[id] == Shown(s, e, id, s.blackboards[id])
  {
    if e.Display? {
      DisplayAside(s, e.id, e.message);
    } else if e.Raise? || e.Lower? {
      EventCalls(s, e);
    } else if e.Take? || e.Give? {
      SemaphoreCalls(s, e);
    } else if !e.Clear? {
      AsideEvent(s, e);
    }
  }

  predicate Rewrites(e: Event, id: int) {
    (e.Display? || e.Clear?) && e.id == id
  }

  ghost predicate Shows(s: State, id: int, m: Message) {
    id in s.blackboards && s.blackboards[id].occupied && s.blackboards[id].message == m
  }

  lemma {:induction false} ShownStays(s: State, run: seq<Event>, id: int, m: Message)
    requires Feasible(s, run) && Shows(s, id, m) && forall e :: e in run ==> !Rewrites(e, id)
    ensures Shows(Exec(s, run), id, m)
    decreases |run|
  {
    if run != [] {
      assert run[0] in run;
      BlackboardStep(s, run[0], id);
      ShownStays(Next(s, run[0]), run[1..], id, m);
    }
  }

  lemma {:induction false} ShownIsRead(s: State, id: int, m: Message, n: int)
    requires Shows(s, id, m) && s.current.Some? && !BadTimeout(s.now, n)
    ensures ReadBlackboard(s, id, n) == (s, NoError, m)
  {
  }

  /** A displayed message stays readable, by anybody and without blocking, until the blackboard is
      displayed or cleared again. */
  lemma {:induction false} DisplayedIsRead(s: State, run: seq<Event>, id: int, m: Message, n: int)
    requires Feasible(s, run) && Shows(s, id, m) && forall e :: e in run ==> !Rewrites(e, id)
    ensures var t := Exec(s, run);
            t.current.Some? && !BadTimeout(t.now, n) ==> ReadBlackboard(t, id, n) == (t, NoError, m)
  {
    ShownStays(s, run, id, m);
    if Exec(s, run).current.Some? && !BadTimeout(Exec(s, run).now, n) {
      ShownIsRead(Exec(s, run), id, m, n);
    }
  }

  /** What a reader copies when it resumes after having been blocked. */
  function CopiedOnResume(s: State, id: int): Message {
    if id in s.blackboards then s.blackboards[id].message else []
  }

  /** A reader that a display woke copies the message displayed, however late it resumes and even if the
      blackboard was cleared meanwhile, unless another message was displayed. */
  lemma {:induction false} BlockedReaderCopies(s: State, run: seq<Event>, id: int, m: Message)
    requires Enabled(s, Display(id, m)) && DisplayBlackboard(s, id, m).1 == NoError
    requires Feasible(Next(s, Display(id, m)), run) && forall e :: e in run ==> !(e.Display? && e.id == id)
    ensures CopiedOnResume(Exec(Next(s, Display(id, m)), run), id) == m
  {
    BlackboardStep(s, Display(id, m), id);
    MessageStays(Next(s, Display(id, m)), run, id, m);
  }

  lemma {:induction false} MessageStays(s: State, run: seq<Event>, id: int, m: Message)
    requires Feasible(s, run) && id in s.blackboards && s.blackboards[id].message == m
    requires forall e :: e in run ==> !(e.Display? && e.id == id)
    ensures CopiedOnResume(Exec(s, run), id) == m
    decreases |run|
  {
    if run != [] {
      assert run[0] in run;
      assert forall e :: e in run[1..] ==> e in run;
      BlackboardStep(s, run[0], id);
      MessageStays(Next(s, run[0]), run[1..], id, m);
    }
  }

  /** An event set stays UP, and nobody waits for it, until it is reset. */
  lemma {:induction false} SetStaysUp(s: State, run: seq<Event>, id: int)
    requires Feasible(s, run) && id in s.events && s.events[id]
    requires forall e :: e in run ==> e != Lower(id)
    ensures var t := Exec(s, run);
            id in t.events && t.events[id]
            && (t.current.Some? ==> forall n :: !BadTimeout(t.now, n) ==> WaitEvent(t, id, n) == (t, NoError))
    decreases |run|
  {
    if run != [] {
      assert run[0] in run;
      assert forall e :: e in run[1..] ==> e in run;
      EventStep(s, run[0], id);
      SetStaysUp(Next(s, run[0]), run[1..], id);
    }
  }
}
