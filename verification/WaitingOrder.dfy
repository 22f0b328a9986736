/** Who is served first: queues keep the order their discipline promises, over whole runs. */
module WaitingOrder {
  import opened Apex
  import opened Sequences
  import opened Services
  import opened Invariant
  import opened Protocol
  import opened Exact
  import opened Runs
  import opened Priorities
  import opened Effects

  // ---------------------------------------------------------------- order in a line

  ghost predicate Before(a: seq<Pid>, x: Pid, y: Pid) {
    exists i, j :: 0 <= i < j < |a| && a[i] == x && a[j] == y
  }

  /** `b` is `a` with some left out: whoever is left stood in `a`, in the same order. */
  ghost predicate Thinned(a: seq<Pid>, b: seq<Pid>) {
    && (forall x :: x in b ==> x in a)
    && (forall i, j :: 0 <= i < j < |b| ==> Before(a, b[i], b[j]))
  }

  lemma {:induction false} ThinnedSame(a: seq<Pid>)
    ensures Thinned(a, a)
  {
  }

  lemma {:induction false} ThinnedTail(a: seq<Pid>)
    requires a != []
    ensures Thinned(a, a[1..])
  {
    var b := a[1..];
    forall i, j | 0 <= i < j < |b| ensures Before(a, b[i], b[j]) {
      assert a[i + 1] == b[i] && a[j + 1] == b[j];
    }
  }

  lemma {:induction false} ThinnedWithout(a: seq<Pid>, b: seq<Pid>, x: Pid)
    requires Without(a, b, x)
    ensures Thinned(a, b)
  {
    var k :| WithoutAt(a, b, x, k);
    forall i, j | 0 <= i < j < |b| ensures Before(a, b[i], b[j]) {
      assert a[if i < k then i else i + 1] == b[i] && a[if j < k then j else j + 1] == b[j];
    }
  }

  lemma {:induction false} ThinnedBefore(a: seq<Pid>, b: seq<Pid>, x: Pid, y: Pid)
    requires Thinned(a, b) && NoDup(a) && NoDup(b) && x in b && y in b && Before(a, x, y)
    ensures Before(b, x, y)
  {
    var i :| 0 <= i < |b| && b[i] == x;
    var j :| 0 <= j < |b| && b[j] == y;
    if j < i {
      assert Before(a, y, x);
      NotBoth(a, x, y);
    } else if i == j {
      NotBoth(a, x, y);
    }
  }

  lemma {:induction false} NotBoth(a: seq<Pid>, x: Pid, y: Pid)
    requires NoDup(a) && Before(a, x, y)
    ensures !Before(a, y, x) && x != y
  {
  }

  // ---------------------------------------------------------------- one step

  /** The discipline of a queue; the queue of an event mixes both. */
  function Rank(o: Objects, q: QueueId): Option<Discipline> {
    match q
    case Waiters(Obj(MutexKind, id)) => if id in o.mutexes then Some(o.mutexes[id].discipline) else None
    case Waiters(Obj(SemaphoreKind, id)) => if id in o.semaphores then Some(o.semaphores[id].discipline) else None
    case Waiters(Obj(BufferKind, id)) => if id in o.buffers then Some(o.buffers[id].discipline) else None
    case Writers(Obj(BufferKind, id)) => if id in o.buffers then Some(o.buffers[id].discipline) else None
    case Waiters(Obj(BlackboardKind, id)) => Some(Fifo)
    case _ => None
  }

  ghost predicate SameRanks(a: Objects, b: Objects) {
    forall q :: Rank(b, q) == Rank(a, q)
  }

  /** The line of `q` keeps its discipline; some leave it, or one joins it in its place. */
  ghost predicate OrderStep(s: State, t: State, q: QueueId) {
    && Rank(t.objects, q) == Rank(s.objects, q)
    && (Rank(s.objects, q).Some? ==>
          Thinned(s.Queue(q), t.Queue(q)) || exists p :: Joins(s, t, q, p, Rank(s.objects, q).value))
  }

  ghost predicate Joins(s: State, t: State, q: QueueId, p: Pid, d: Discipline) {
    p !in s.Queue(q) && Lined(s, s.Queue(q), t.Queue(q), p, d) && t.At(p).priority == s.At(p).priority
  }

  lemma {:induction false} SameOrder(s: State, t: State, q: QueueId)
    requires Rank(t.objects, q) == Rank(s.objects, q) && t.Queue(q) == s.Queue(q)
    ensures OrderStep(s, t, q)
  {
    ThinnedSame(s.Queue(q));
  }

  lemma {:induction false} JoinOrder(
    s: State, t: State, q: QueueId, p: Pid, k: QueueId, d: Discipline, record: bool, n: int, m: Message)
    requires JoinsQueue(s, t, p, k, d, record, n, m) && !Queued(s, p) && SameRanks(s.objects, t.objects)
    requires Rank(s.objects, k) == Some(d) || Rank(s.objects, k) == None
    ensures OrderStep(s, t, q)
  {
    if q == k {
      assert Rank(s.objects, q).Some? ==> Joins(s, t, q, p, d);
    } else {
      SameOrder(s, t, q);
    }
  }

  /** The first of `k` leaves. */
  lemma {:induction false} ServeOrder(s: State, t: State, q: QueueId, k: QueueId, ps: set<Pid>)
    requires s.Queue(k) != [] && t.Queue(k) == s.Queue(k)[1..] && Confined(s, t, ps, {k})
    requires SameRanks(s.objects, t.objects)
    ensures OrderStep(s, t, q)
  {
    if q == k {
      ThinnedTail(s.Queue(k));
    } else {
      SameOrder(s, t, q);
    }
  }

  lemma {:induction false} DrainOrder(s: State, t: State, q: QueueId, k: QueueId)
    requires Drains(s, t, k) && SameRanks(s.objects, t.objects)
    ensures OrderStep(s, t, q)
  {
    if q != k {
      SameOrder(s, t, q);
    }
  }

  // ---------------------------------------------------------------- the services

  lemma {:induction false} MutexRanks(s: State, t: State, id: int, m: Mutex)
    requires id in s.mutexes && OneMutex(s, t, id, m) && m.discipline == s.mutexes[id].discipline
    ensures SameRanks(s.objects, t.objects)
  {
  }

  lemma {:induction false} AcquiredOrder(s: State, t: State, c: Code, id: int, n: int, p: Pid, q: QueueId)
    requires Acquired(s, t, c, id, n, p) && !Queued(s, p) && (c == NoError || c == Parked ==> id in s.mutexes)
    ensures OrderStep(s, t, q)
  {
    if c == Parked {
      JoinOrder(s, t, q, p, Waiters(Obj(MutexKind, id)), s.MutexAt(id).discipline, true, n, s.At(p).message);
    } else {
      if c == NoError {
        MutexRanks(s, t, id, t.MutexAt(id));
      }
      SameOrder(s, t, q);
    }
  }

  lemma {:induction false} AcquireOrder(s: State, id: int, n: int, q: QueueId)
    requires Inv(s) && s.current.Some? && !s.yielded
    ensures OrderStep(s, KernelAcquire(s, id, n).0, q)
  {
    var r, p := KernelAcquire(s, id, n), s.current.value;
    AliveNotQueued(s, p);
    AcquireEffect(s, id, n, p);
    AcquiredOrder(s, r.0, r.1, id, n, p, q);
  }

  lemma {:induction false} PassOrder(s: State, t: State, id: int, p: Pid, q: QueueId)
    requires id in s.mutexes && PassedOn(s, t, id, p)
    ensures OrderStep(s, t, q)
  {
    var k := Waiters(Obj(MutexKind, id));
    MutexRanks(s, t, id, t.MutexAt(id));
    if s.Queue(k) == [] {
      SameOrder(s, t, q);
    } else {
      ServeOrder(s, t, q, k, {p, s.Queue(k)[0]});
    }
  }

  lemma {:induction false} GaveBackOrder(s: State, t: State, c: Code, id: int, p: Pid, q: QueueId)
    requires GaveBack(s, t, c, id, p) && (c == NoError ==> id in s.mutexes)
    ensures OrderStep(s, t, q)
  {
    if c == NoError && s.MutexAt(id).locks == 1 {
      PassOrder(s, t, id, p, q);
    } else {
      if c == NoError {
        MutexRanks(s, t, id, t.MutexAt(id));
      }
      SameOrder(s, t, q);
    }
  }

  lemma {:induction false} ReleaseOrder(s: State, id: int, q: QueueId)
    requires Inv(s) && s.current.Some?
    ensures OrderStep(s, KernelRelease(s, id).0, q)
  {
    var r, p := KernelRelease(s, id), s.current.value;
    ReleaseEffect(s, id, p);
    GaveBackOrder(s, r.0, r.1, id, p, q);
  }

  lemma {:induction false} LevelOrder(s: State, r: Reply, q: QueueId)
    requires OrderStep(s, r.0, q)
    ensures OrderStep(s, AfterLockCall(r).0, q)
  {
    var t := AfterLockCall(r).0;
    assert t.objects == r.0.objects && t.Queue(q) == r.0.Queue(q);
    if Rank(s.objects, q).Some? && !Thinned(s.Queue(q), t.Queue(q)) {
      var p :| Joins(s, r.0, q, p, Rank(s.objects, q).value);
      assert Joins(s, t, q, p, Rank(s.objects, q).value);
    }
  }

  lemma {:induction false} MutexOrder(s: State, e: Event, q: QueueId)
    requires Inv(s) && Enabled(s, e) && (e.Acquire? || e.Release? || e.Reset? || e.Lock? || e.Unlock?)
    ensures OrderStep(s, Next(s, e), q)
  {
    SameOrder(s, s, q);
    match e
    case Acquire(id, n) => AcquireOrder(s, id, n, q);
    case Release(id) => ReleaseOrder(s, id, q);
    case Reset(id, p) =>
      ResetEffect(s, id, p);
      if ResetMutex(s, id, p).1 == NoError {
        PassOrder(s, ResetMutex(s, id, p).0, id, p, q);
      }
    case Lock =>
      AcquireOrder(s, PREEMPTION_LOCK, INFINITE, q);
      LevelOrder(s, KernelAcquire(s, PREEMPTION_LOCK, INFINITE), q);
    case Unlock =>
      ReleaseOrder(s, PREEMPTION_LOCK, q);
      LevelOrder(s, KernelRelease(s, PREEMPTION_LOCK), q);
  }

  lemma {:induction false} StopSelfOrder(s: State, q: QueueId)
    requires Inv(s) && s.current.Some? && !s.yielded
    ensures OrderStep(s, StopSelf(s), q)
  {
    var p := s.current.value;
    StopSelfEffect(s, p);
    match s.At(p).owned
    case None => SameOrder(s, StopSelf(s), q);
    case Some(id) => PassOrder(s, StopSelf(s), id, p, q);
  }

  lemma {:induction false} StopOrder(s: State, p: Pid, q: QueueId)
    requires Inv(s) && s.current.Some?
    ensures OrderStep(s, Stop(s, p).0, q)
  {
    var t, c := Stop(s, p).0, Stop(s, p).1;
    StopEffect(s, p);
    if c == InvalidParam || c == NoAction || !Queued(s, p) || s.At(p).waitingOn == NO_POINTERS {
      SameOrder(s, t, q);
    } else {
      var k :| p in s.Queue(k);
      PointsThere(s, p, k);
      assert Left(s, t, p, k);
      LeftOrder(s, t, p, k, q);
    }
  }

  lemma {:induction false} LeftOrder(s: State, t: State, p: Pid, k: QueueId, q: QueueId)
    requires Left(s, t, p, k)
    ensures OrderStep(s, t, q)
  {
    assert Rank(t.objects, q) == Rank(s.objects, q);
    if q == k {
      ThinnedWithout(s.Queue(k), t.Queue(k), p);
    } else {
      SameOrder(s, t, q);
    }
  }

  lemma {:induction false} SemaphoreOrder(s: State, e: Event, q: QueueId)
    requires Inv(s) && Enabled(s, e) && (e.Take? || e.Give?)
    ensures OrderStep(s, Next(s, e), q)
  {
    if e.Take? {
      var r, p := WaitSemaphore(s, e.id, e.timeout), s.current.value;
      AliveNotQueued(s, p);
      WaitSemaphoreEffect(s, e.id, e.timeout, p);
      TakeOrder(s, r.0, r.1, e.id, e.timeout, p, q);
    } else {
      SignalSemaphoreEffect(s, e.id);
      GiveOrder(s, SignalSemaphore(s, e.id).0, SignalSemaphore(s, e.id).1, e.id, q);
    }
  }

  /** Only fields of one semaphore, or of one buffer, other than its discipline differ. */
  lemma {:induction false} SemaphoreRanks(a: Objects, b: Objects, id: int)
    requires id in a.semaphores && id in b.semaphores && b == a.(semaphores := a.semaphores[id := b.semaphores[id]])
    requires b.semaphores[id].discipline == a.semaphores[id].discipline
    ensures SameRanks(a, b)
  {
  }

  lemma {:induction false} BufferRanks(a: Objects, b: Objects, id: int)
    requires id in a.buffers && id in b.buffers && b == a.(buffers := a.buffers[id := b.buffers[id]])
    requires b.buffers[id].discipline == a.buffers[id].discipline
    ensures SameRanks(a, b)
  {
  }

  lemma {:induction false} TakeOrder(s: State, t: State, c: Code, id: int, n: int, p: Pid, q: QueueId)
    requires WaitSemaphoreMeans(s, t, c, id, n, p) && !Queued(s, p)
    ensures OrderStep(s, t, q)
  {
    if c == Parked {
      JoinOrder(s, t, q, p, Waiters(Obj(SemaphoreKind, id)), s.semaphores[id].discipline, n != -1, n, s.At(p).message);
    } else {
      if c == NoError {
        SemaphoreRanks(s.objects, t.objects, id);
      }
      SameOrder(s, t, q);
    }
  }

  /** The first of `k` is served, with the objects as given. */
  lemma {:induction false} PassesOrder(s: State, t: State, k: QueueId, m: Message, o: Objects, q: QueueId)
    requires s.Queue(k) != [] && Passes(s, t, k, m, o) && SameRanks(s.objects, o)
    ensures OrderStep(s, t, q)
  {
    ServeOrder(s, t, q, k, {s.Queue(k)[0]});
  }

  lemma {:induction false} GiveOrder(s: State, t: State, c: Code, id: int, q: QueueId)
    requires SignalSemaphoreMeans(s, t, c, id)
    ensures OrderStep(s, t, q)
  {
    var k := Waiters(Obj(SemaphoreKind, id));
    if c == NoError {
      SemaphoreRanks(s.objects, t.objects, id);
    }
    if c == NoError && s.Queue(k) != [] {
      PassesOrder(s, t, k, s.At(s.Queue(k)[0]).message, t.objects, q);
    } else {
      SameOrder(s, t, q);
    }
  }

  lemma {:induction false} AwaitOrder(s: State, t: State, c: Code, id: int, n: int, p: Pid, q: QueueId)
    requires WaitEventMeans(s, t, c, id, n, p) && !Queued(s, p)
    ensures OrderStep(s, t, q)
  {
    if c == Parked {
      var d := if n == -1 then Fifo else ByPriority;
      JoinOrder(s, t, q, p, Waiters(Obj(EventKind, id)), d, true, n, s.At(p).message);
    } else {
      SameOrder(s, t, q);
    }
  }

  lemma {:induction false} ReadOrder(s: State, t: State, c: Code, m: Message, id: int, n: int, p: Pid, q: QueueId)
    requires ReadMeans(s, t, c, m, id, n, p) && !Queued(s, p)
    ensures OrderStep(s, t, q)
  {
    if c == Parked {
      JoinOrder(s, t, q, p, Waiters(Obj(BlackboardKind, id)), Fifo, n != -1, n, s.At(p).message);
    } else {
      SameOrder(s, t, q);
    }
  }

  lemma {:induction false} WaitOrder(s: State, e: Event, q: QueueId)
    requires Inv(s) && Enabled(s, e) && (e.Await? || e.Read?)
    ensures OrderStep(s, Next(s, e), q)
  {
    var p, n := s.current.value, e.timeout;
    AliveNotQueued(s, p);
    if e.Await? {
      WaitEventEffect(s, e.id, n, p);
      AwaitOrder(s, Next(s, e), WaitEvent(s, e.id, n).1, e.id, n, p, q);
    } else {
      var r := ReadBlackboard(s, e.id, n);
      ReadEffect(s, e.id, n, p);
      ReadOrder(s, r.0, r.1, r.2, e.id, n, p, q);
    }
  }

  lemma {:induction false} SetOrder(s: State, t: State, c: Code, id: int, q: QueueId)
    requires SetEventMeans(s, t, c, id)
    ensures OrderStep(s, t, q)
  {
    if c == NoError {
      DrainOrder(s, t, q, Waiters(Obj(EventKind, id)));
    } else {
      SameOrder(s, t, q);
    }
  }

  lemma {:induction false} DisplayOrder(s: State, t: State, c: Code, id: int, m: Message, q: QueueId)
    requires DisplayMeans(s, t, c, id, m)
    ensures OrderStep(s, t, q)
  {
    if c == NoError {
      DrainOrder(s, t, q, Waiters(Obj(BlackboardKind, id)));
    } else {
      SameOrder(s, t, q);
    }
  }

  lemma {:induction false} RaiseOrder(s: State, e: Event, q: QueueId)
    requires Inv(s) && Enabled(s, e) && (e.Raise? || e.Display?)
    ensures OrderStep(s, Next(s, e), q)
  {
    if e.Raise? {
      SetEventEffect(s, e.id);
      SetOrder(s, Next(s, e), SetEvent(s, e.id).1, e.id, q);
    } else {
      DisplayEffect(s, e.id, e.message);
      DisplayOrder(s, Next(s, e), DisplayBlackboard(s, e.id, e.message).1, e.id, e.message, q);
    }
  }

  lemma {:induction false} SendOrder(s: State, t: State, c: Code, id: int, m: Message, n: int, p: Pid, q: QueueId)
    requires SendMeans(s, t, c, id, m, n, p) && !Queued(s, p)
    ensures OrderStep(s, t, q)
  {
    var o := Obj(BufferKind, id);
    if c == NoError || c == Parked {
      BufferRanks(s.objects, t.objects, id);
    }
    if c == Parked {
      JoinOrder(s, t, q, p, Writers(o), s.buffers[id].discipline, true, n, m);
    } else if c == NoError && s.Queue(Waiters(o)) != [] {
      PassesOrder(s, t, Waiters(o), m, t.objects, q);
    } else {
      SameOrder(s, t, q);
    }
  }

  lemma {:induction false} ReceiveOrder(s: State, t: State, c: Code, m: Message, id: int, n: int, p: Pid, q: QueueId)
    requires ReceiveMeans(s, t, c, m, id, n, p) && !Queued(s, p)
    ensures OrderStep(s, t, q)
  {
    var o := Obj(BufferKind, id);
    if c == NoError {
      BufferRanks(s.objects, t.objects, id);
    }
    if c == Parked {
      JoinOrder(s, t, q, p, Waiters(o), s.buffers[id].discipline, true, n, s.At(p).message);
    } else if c == NoError && s.Queue(Writers(o)) != [] {
      PassesOrder(s, t, Writers(o), s.At(s.Queue(Writers(o))[0]).message, t.objects, q);
    } else {
      SameOrder(s, t, q);
    }
  }

  lemma {:induction false} BufferOrder(s: State, e: Event, q: QueueId)
    requires Inv(s) && Enabled(s, e) && (e.Send? || e.Receive?)
    ensures OrderStep(s, Next(s, e), q)
  {
    var p := s.current.value;
    AliveNotQueued(s, p);
    if e.Send? {
      SendEffect(s, e.id, e.message, e.timeout, p);
      SendOrder(s, Next(s, e), SendBuffer(s, e.id, e.message, e.timeout).1, e.id, e.message, e.timeout, p, q);
    } else {
      var r := ReceiveBuffer(s, e.id, e.timeout);
      ReceiveEffect(s, e.id, e.timeout, p);
      ReceiveOrder(s, r.0, r.1, r.2, e.id, e.timeout, p, q);
    }
  }

  lemma {:induction false} ProcessOrder(s: State, e: Event, q: QueueId)
    requires Enabled(s, e)
    requires e.SleepSelf? || e.Sleep? || e.Rouse? || e.Launch? || e.Delay? || e.NextPeriod? || e.Refresh?
    ensures OrderStep(s, Next(s, e), q)
  {
    assert Next(s, e).waits == s.waits;
    assert Next(s, e).objects == s.objects;
    SameOrder(s, Next(s, e), q);
  }

  lemma {:induction false} PrioritizeOrder(s: State, t: State, c: Code, p: Pid, n: int, q: QueueId)
    requires MutexOk(s) && p in s.procs && SetPriorityMeans(s, t, c, p, n)
    ensures OrderStep(s, t, q)
  {
    if c == NoError && s.At(p).owned.Some? {
      MutexRanks(s, t, s.At(p).owned.value, t.MutexAt(s.At(p).owned.value));
    }
    SameOrder(s, t, q);
  }

  lemma {:induction false} RankOrder(s: State, p: Pid, n: int, q: QueueId)
    requires Inv(s) && s.current.Some?
    ensures OrderStep(s, SetPriority(s, p, n).0, q)
  {
    var r := SetPriority(s, p, n);
    if p in s.procs {
      SetPriorityEffect(s, p, n);
      PrioritizeOrder(s, r.0, r.1, p, n, q);
    } else {
      SameOrder(s, r.0, q);
    }
  }

  lemma {:induction false} ClockOrder(s: State, e: Event, q: QueueId)
    requires Enabled(s, e) && (e.Lower? || e.Clear? || e.Dispatch? || e.Clock?)
    ensures OrderStep(s, Next(s, e), q)
  {
    assert Next(s, e).waits == s.waits;
    SameOrder(s, Next(s, e), q);
  }

  /** Every kind of step: in each queue some leave, or one joins in its place. */
  lemma {:induction false} QueueStep(s: State, e: Event, q: QueueId)
    requires Inv(s) && Enabled(s, e)
    ensures OrderStep(s, Next(s, e), q)
  {
    if e.Acquire? || e.Release? || e.Reset? || e.Lock? || e.Unlock? {
      MutexOrder(s, e, q);
    } else if e.Take? || e.Give? {
      SemaphoreOrder(s, e, q);
    } else if e.Await? || e.Read? {
      WaitOrder(s, e, q);
    } else if e.Raise? || e.Display? {
      RaiseOrder(s, e, q);
    } else if e.Lower? || e.Clear? || e.Dispatch? || e.Clock? {
      ClockOrder(s, e, q);
    } else if e.Send? || e.Receive? {
      BufferOrder(s, e, q);
    } else {
      OtherOrder(s, e, q);
    }
  }

  lemma {:induction false} OtherOrder(s: State, e: Event, q: QueueId)
    requires Inv(s) && Enabled(s, e)
    requires e.SleepSelf? || e.Sleep? || e.Rouse? || e.Launch? || e.Delay? || e.NextPeriod? || e.Refresh?
             || e.Prioritize? || e.Quit? || e.QuitSelf?
    ensures OrderStep(s, Next(s, e), q)
  {
    if e.Prioritize? {
      RankOrder(s, e.pid, e.priority, q);
    } else if e.Quit? {
      StopOrder(s, e.pid, q);
    } else if e.QuitSelf? {
      StopSelfOrder(s, q);
    } else {
      ProcessOrder(s, e, q);
    }
  }

  // ---------------------------------------------------------------- the most urgent first

  /** Urgency never increases along the line. */
  ghost predicate Descending(s: State, a: seq<Pid>) {
    forall i, j :: 0 <= i < j < |a| ==> s.At(a[i]).priority >= s.At(a[j]).priority
  }

  /** SET_PRIORITY on somebody in `q`: the queue is not sorted again. */
  predicate Reranks(s: State, e: Event, q: QueueId) {
    e.Prioritize? && e.pid in s.Queue(q)
  }

  lemma {:induction false} QueuedPriority(s: State, e: Event, p: Pid, q: QueueId, k: QueueId)
    requires Inv(s) && Enabled(s, e) && Inv(Next(s, e)) && p in s.Queue(q) && !Reranks(s, e, q)
    requires p in Next(s, e).Queue(k)
    ensures Next(s, e).At(p).priority == s.At(p).priority
  {
    NominalPreserved(s, e);
    WaiterNominal(s, p, q);
    WaiterNominal(Next(s, e), p, k);
    NotStarted(s, e, p);
  }

  lemma {:induction false} WaiterNominal(s: State, p: Pid, q: QueueId)
    requires QueueOk(s) && MutexOk(s) && p in s.Queue(q)
    ensures p in s.procs && s.procs[p].state == Waiting && Nominal(s, p) == s.At(p).priority
  {
  }

  lemma {:induction false} NotStarted(s: State, e: Event, p: Pid)
    requires Enabled(s, e) && p in s.procs && s.procs[p].state == Waiting && !(e.Prioritize? && e.pid == p)
    ensures NominalAfter(s, e, p) == Nominal(s, p)
  {
  }

  /** Everybody queued before and after `e` is as urgent as before. */
  ghost predicate SameUrgency(s: State, t: State, q: QueueId) {
    forall p :: p in s.Queue(q) && p in t.Queue(q) ==> t.At(p).priority == s.At(p).priority
  }

  lemma {:induction false} UrgencyStep(s: State, e: Event, q: QueueId)
    requires Inv(s) && Enabled(s, e) && Inv(Next(s, e)) && !Reranks(s, e, q)
    ensures SameUrgency(s, Next(s, e), q)
  {
    forall p | p in s.Queue(q) && p in Next(s, e).Queue(q) ensures Next(s, e).At(p).priority == s.At(p).priority {
      QueuedPriority(s, e, p, q, q);
    }
  }

  lemma {:induction false} ThinnedDescending(s: State, t: State, q: QueueId)
    requires Descending(s, s.Queue(q)) && Thinned(s.Queue(q), t.Queue(q)) && SameUrgency(s, t, q)
    ensures Descending(t, t.Queue(q))
  {
    var a, b := s.Queue(q), t.Queue(q);
    forall i, j | 0 <= i < j < |b| ensures t.At(b[i]).priority >= t.At(b[j]).priority {
      assert Before(a, b[i], b[j]) && b[i] in b && b[j] in b;
    }
  }

  lemma {:induction false} LinedMember(a: seq<Pid>, p: Pid, k: int, i: int)
    requires 0 <= k <= |a| && 0 <= i <= |a|
    ensures (a[..k] + [p] + a[k..])[i] == if i < k then a[i] else if i == k then p else a[i - 1]
  {
  }

  lemma {:induction false} LinedPair(s: State, a: seq<Pid>, b: seq<Pid>, p: Pid, k: int, i: int, j: int)
    requires Descending(s, a) && LinedAt(s, a, b, p, k) && 0 <= i < j < |b|
    ensures s.At(b[i]).priority >= s.At(b[j]).priority
  {
    LinedMember(a, p, k, i);
    LinedMember(a, p, k, j);
    if i < k {
      assert j == k || (if j < k then j else j - 1) > i;
    } else if i == k && j > k + 1 {
      assert s.At(a[k]).priority >= s.At(a[j - 1]).priority;
    }
  }

  lemma {:induction false} JoinedDescending(s: State, t: State, q: QueueId, p: Pid)
    requires Descending(s, s.Queue(q)) && Joins(s, t, q, p, ByPriority) && SameUrgency(s, t, q)
    ensures Descending(t, t.Queue(q))
  {
    var a, b := s.Queue(q), t.Queue(q);
    var k :| LinedAt(s, a, b, p, k);
    forall i | 0 <= i < |b| ensures t.At(b[i]).priority == s.At(b[i]).priority {
      LinedMember(a, p, k, i);
      assert b[i] in b;
      assert i != k ==> b[i] in a;
    }
    forall i, j | 0 <= i < j < |b| ensures t.At(b[i]).priority >= t.At(b[j]).priority {
      LinedPair(s, a, b, p, k, i, j);
    }
  }

  /** A PRIORITY queue stays sorted unless somebody in it is given another priority. */
  lemma {:induction false} SortedStep(s: State, e: Event, q: QueueId)
    requires Inv(s) && Enabled(s, e) && Inv(Next(s, e)) && !Reranks(s, e, q)
    requires Rank(s.objects, q) == Some(ByPriority) && Descending(s, s.Queue(q))
    ensures Descending(Next(s, e), Next(s, e).Queue(q)) && Rank(Next(s, e).objects, q) == Some(ByPriority)
  {
    var t := Next(s, e);
    QueueStep(s, e, q);
    UrgencyStep(s, e, q);
    if Thinned(s.Queue(q), t.Queue(q)) {
      ThinnedDescending(s, t, q);
    } else {
      var p :| Joins(s, t, q, p, ByPriority);
      JoinedDescending(s, t, q, p);
    }
  }

  /** SET_PRIORITY leaves its target where it stands, so the queue stays sorted exactly when the new priority
      lies between those of its neighbours. */
  lemma {:induction false} RerankExact(s: State, p: Pid, n: int, q: QueueId, i: int)
    requires Inv(s) && s.current.Some? && Descending(s, s.Queue(q)) && SetPriority(s, p, n).1 == NoError
    requires 0 <= i < |s.Queue(q)| && s.Queue(q)[i] == p
    ensures var a, t := s.Queue(q), SetPriority(s, p, n).0;
            && t.Queue(q) == a
            && (Descending(t, a) <==>
                  && (i > 0 ==> s.At(a[i - 1]).priority >= n)
                  && (i + 1 < |a| ==> n >= s.At(a[i + 1]).priority))
  {
    var a, t := s.Queue(q), SetPriority(s, p, n).0;
    assert p in a && t.Queue(q) == a;
    WaiterNominal(s, p, q);
    SetPriorityEffect(s, p, n);
    RerankAt(s, t, a, i, n);
  }

  lemma {:induction false} RerankAt(s: State, t: State, a: seq<Pid>, i: int, n: int)
    requires Descending(s, a) && NoDup(a) && 0 <= i < |a| && t.At(a[i]).priority == n
    requires forall r :: r != a[i] ==> t.At(r).priority == s.At(r).priority
    ensures Descending(t, a) <==>
              (i > 0 ==> s.At(a[i - 1]).priority >= n) && (i + 1 < |a| ==> n >= s.At(a[i + 1]).priority)
  {
    assert forall k :: 0 <= k < |a| && k != i ==> t.At(a[k]).priority == s.At(a[k]).priority;
    if Descending(t, a) {
      assert i > 0 ==> t.At(a[i - 1]).priority >= t.At(a[i]).priority;
    }
  }

  ghost predicate NeverReranks(s: State, run: seq<Event>, q: QueueId)
    requires Feasible(s, run)
    decreases |run|
  {
    run != [] ==> !Reranks(s, run[0], q) && NeverReranks(Next(s, run[0]), run[1..], q)
  }

  lemma {:induction false} SortedOverRun(s: State, run: seq<Event>, q: QueueId)
    requires Inv(s) && Feasible(s, run) && AllSafe(s, run) && NeverReranks(s, run, q)
    requires Rank(s.objects, q) == Some(ByPriority) && Descending(s, s.Queue(q))
    ensures Descending(Exec(s, run), Exec(s, run).Queue(q))
    decreases |run|
  {
    if run != [] {
      StepExact(s, run[0]);
      SortedStep(s, run[0], q);
      SortedOverRun(Next(s, run[0]), run[1..], q);
    }
  }

  /** Over every safe run in which nobody in the queue is given another priority: the process a PRIORITY queue
      serves next is one of the most urgent in it. */
  lemma {:induction false} MostUrgentFirst(s: State, run: seq<Event>, q: QueueId, p: Pid)
    requires Initial(s) && Feasible(s, run) && AllSafe(s, run) && NeverReranks(s, run, q)
    requires Rank(s.objects, q) == Some(ByPriority) && p in Exec(s, run).Queue(q)
    ensures var t := Exec(s, run); t.At(p).priority <= t.At(t.Queue(q)[0]).priority
  {
    InitialInv(s);
    assert s.Queue(q) == [];
    SortedOverRun(s, run, q);
    var t := Exec(s, run);
    var i :| 0 <= i < |t.Queue(q)| && t.Queue(q)[i] == p;
  }

  // ---------------------------------------------------------------- nobody is overtaken

  /** `x` is ahead of `y`, should `y` stand in the line and, in a PRIORITY queue, not be more urgent. */
  ghost predicate Ahead(s: State, q: QueueId, d: Discipline, x: Pid, y: Pid) {
    && x in s.Queue(q)
    && (y in s.Queue(q) && (d == ByPriority ==> s.At(x).priority >= s.At(y).priority) ==> Before(s.Queue(q), x, y))
  }

  lemma {:induction false} AheadThinned(s: State, t: State, q: QueueId, d: Discipline, x: Pid, y: Pid)
    requires Ahead(s, q, d, x, y) && Thinned(s.Queue(q), t.Queue(q)) && SameUrgency(s, t, q) && x in t.Queue(q)
    requires NoDup(s.Queue(q)) && NoDup(t.Queue(q))
    ensures Ahead(t, q, d, x, y)
  {
    if y in t.Queue(q) && (d == ByPriority ==> t.At(x).priority >= t.At(y).priority) {
      assert y in s.Queue(q);
      ThinnedBefore(s.Queue(q), t.Queue(q), x, y);
    }
  }

  lemma {:induction false} AheadFifo(s: State, t: State, q: QueueId, x: Pid, y: Pid, p: Pid)
    requires Ahead(s, q, Fifo, x, y) && Joins(s, t, q, p, Fifo)
    ensures Ahead(t, q, Fifo, x, y)
  {
    var a, b := s.Queue(q), t.Queue(q);
    var i :| 0 <= i < |a| && a[i] == x;
    assert b[i] == x && b[|a|] == p;
    if y in a {
      var j, k :| 0 <= j < k < |a| && a[j] == x && a[k] == y;
      assert b[j] == x && b[k] == y;
    } else if y in b {
      assert y == p;
    }
  }

  lemma {:induction false} InsertedKeeps(a: seq<Pid>, n: int, p: Pid, x: Pid, y: Pid)
    requires 0 <= n <= |a|
    ensures x in a ==> x in a[..n] + [p] + a[n..]
    ensures Before(a, x, y) ==> Before(a[..n] + [p] + a[n..], x, y)
  {
    var b := a[..n] + [p] + a[n..];
    assert forall i :: 0 <= i < |a| ==> b[if i < n then i else i + 1] == a[i];
    if Before(a, x, y) {
      var j, k :| 0 <= j < k < |a| && a[j] == x && a[k] == y;
      assert b[if j < n then j else j + 1] == x && b[if k < n then k else k + 1] == y;
    }
  }

  lemma {:induction false} InsertedBehind(a: seq<Pid>, n: int, p: Pid, i: int)
    requires 0 <= i < n <= |a|
    ensures Before(a[..n] + [p] + a[n..], a[i], p)
  {
    var b := a[..n] + [p] + a[n..];
    assert b[i] == a[i] && b[n] == p;
  }

  lemma {:induction false} PlacedBehind(s: State, a: seq<Pid>, b: seq<Pid>, p: Pid, n: int, i: int)
    requires LinedAt(s, a, b, p, n) && Descending(s, a) && 0 <= i < |a| && s.At(a[i]).priority >= s.At(p).priority
    ensures i < n
  {
  }

  lemma {:induction false} AheadOfJoiner(s: State, a: seq<Pid>, b: seq<Pid>, p: Pid, x: Pid)
    requires x in a && (exists n :: LinedAt(s, a, b, p, n)) && Descending(s, a)
    requires s.At(x).priority >= s.At(p).priority
    ensures Before(b, x, p)
  {
    var n :| LinedAt(s, a, b, p, n);
    var i :| 0 <= i < |a| && a[i] == x;
    PlacedBehind(s, a, b, p, n, i);
    InsertedBehind(a, n, p, i);
  }

  lemma {:induction false} AheadRanked(s: State, t: State, q: QueueId, x: Pid, y: Pid, p: Pid)
    requires Ahead(s, q, ByPriority, x, y) && Joins(s, t, q, p, ByPriority) && SameUrgency(s, t, q)
    requires Descending(s, s.Queue(q))
    ensures Ahead(t, q, ByPriority, x, y)
  {
    var a, b := s.Queue(q), t.Queue(q);
    var n :| LinedAt(s, a, b, p, n);
    InsertedKeeps(a, n, p, x, y);
    assert x in b && t.At(x).priority == s.At(x).priority;
    if y in b && t.At(x).priority >= t.At(y).priority {
      if y in a {
        assert t.At(y).priority == s.At(y).priority;
      } else {
        OnlyJoiner(a, n, p, y);
        AheadOfJoiner(s, a, b, p, x);
      }
    }
  }

  lemma {:induction false} OnlyJoiner(a: seq<Pid>, n: int, p: Pid, y: Pid)
    requires 0 <= n <= |a| && y in a[..n] + [p] + a[n..] && y !in a
    ensures y == p
  {
  }

  lemma {:induction false} AheadStep(s: State, e: Event, q: QueueId, d: Discipline, x: Pid, y: Pid)
    requires Inv(s) && Enabled(s, e) && Inv(Next(s, e)) && !Reranks(s, e, q) && Rank(s.objects, q) == Some(d)
    requires Ahead(s, q, d, x, y) && (d == ByPriority ==> Descending(s, s.Queue(q))) && x in Next(s, e).Queue(q)
    ensures Ahead(Next(s, e), q, d, x, y) && Rank(Next(s, e).objects, q) == Some(d)
    ensures d == ByPriority ==> Descending(Next(s, e), Next(s, e).Queue(q))
  {
    var t := Next(s, e);
    QueueStep(s, e, q);
    UrgencyStep(s, e, q);
    if d == ByPriority {
      SortedStep(s, e, q);
    }
    if Thinned(s.Queue(q), t.Queue(q)) {
      AheadThinned(s, t, q, d, x, y);
    } else {
      var p :| Joins(s, t, q, p, d);
      if d == Fifo {
        AheadFifo(s, t, q, x, y, p);
      } else {
        AheadRanked(s, t, q, x, y, p);
      }
    }
  }

  /** `x` stands in `q` in every state of the run. */
  ghost predicate StaysIn(s: State, run: seq<Event>, q: QueueId, x: Pid)
    requires Feasible(s, run)
    decreases |run|
  {
    x in s.Queue(q) && (run != [] ==> StaysIn(Next(s, run[0]), run[1..], q, x))
  }

  lemma {:induction false} AheadOverRun(s: State, run: seq<Event>, q: QueueId, d: Discipline, x: Pid, y: Pid)
    requires Inv(s) && Feasible(s, run) && AllSafe(s, run) && NeverReranks(s, run, q) && StaysIn(s, run, q, x)
    requires Rank(s.objects, q) == Some(d) && (d == ByPriority ==> Descending(s, s.Queue(q)))
    requires Ahead(s, q, d, x, y)
    ensures Ahead(Exec(s, run), q, d, x, y)
    decreases |run|
  {
    if run != [] {
      StepExact(s, run[0]);
      AheadStep(s, run[0], q, d, x, y);
      AheadOverRun(Next(s, run[0]), run[1..], q, d, x, y);
    }
  }

  /** Whoever waits since before `y` came is not overtaken by it: never in a FIFO queue, and in a PRIORITY queue
      not unless `y` is more urgent. So among equals the one that came first is served first. */
  lemma {:induction false} NoOvertaking(s: State, run: seq<Event>, q: QueueId, d: Discipline, x: Pid, y: Pid)
    requires Inv(s) && Feasible(s, run) && AllSafe(s, run) && NeverReranks(s, run, q) && StaysIn(s, run, q, x)
    requires Rank(s.objects, q) == Some(d) && (d == ByPriority ==> Descending(s, s.Queue(q)))
    requires y !in s.Queue(q) && y in Exec(s, run).Queue(q)
    ensures var t := Exec(s, run);
            && (d == Fifo || t.At(x).priority >= t.At(y).priority ==> Before(t.Queue(q), x, y))
            && (t.Queue(q)[0] == y ==> d == ByPriority && t.At(y).priority > t.At(x).priority)
  {
    var t := Exec(s, run);
    AheadOverRun(s, run, q, d, x, y);
    StaysInv(s, run);
    if t.Queue(q)[0] == y && Before(t.Queue(q), x, y) {
      NotFirst(t.Queue(q), x, y);
    }
  }

  lemma {:induction false} StaysInv(s: State, run: seq<Event>)
    requires Inv(s) && Feasible(s, run) && AllSafe(s, run)
    ensures Inv(Exec(s, run))
  {
    RunExact(s, run);
  }

  lemma {:induction false} NotFirst(a: seq<Pid>, x: Pid, y: Pid)
    requires NoDup(a) && Before(a, x, y)
    ensures a[0] != y
  {
  }
}
