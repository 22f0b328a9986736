/** Buffers neither lose, invent nor reorder messages. */
module Conservation {
  import opened Apex
  import opened Sequences
  import opened Services
  import opened Invariant
  import opened Protocol
  import opened Exact
  import opened Runs

  // ---------------------------------------------------------------- subsequences

  /** `a` is `b` with some elements left out. */
  ghost predicate Sub<T>(a: seq<T>, b: seq<T>)
    decreases |b|
  {
    a == [] || (b != [] &&
      ((a[|a| - 1] == b[|b| - 1] && Sub(a[..|a| - 1], b[..|b| - 1])) || Sub(a, b[..|b| - 1])))
  }

  lemma {:induction false} SubAppend<T>(a: seq<T>, b: seq<T>, x: T)
    requires Sub(a, b)
    ensures Sub(a + [x], b + [x])
  {
    assert (a + [x])[..|a|] == a && (b + [x])[..|b|] == b;
  }

  lemma {:induction false} SubDrop<T>(a: seq<T>, x: T, c: seq<T>, b: seq<T>)
    requires Sub(a + [x] + c, b)
    ensures Sub(a + c, b)
    decreases |b|
  {
    var all := a + [x] + c;
    var d := b[..|b| - 1];
    if Sub(all, d) {
      SubDrop(a, x, c, d);
    } else if c == [] {
      assert all[..|all| - 1] == a && a + c == a;
    } else {
      var e := c[..|c| - 1];
      assert all[..|all| - 1] == a + [x] + e;
      SubDrop(a, x, e, d);
      assert (a + c)[..|a + c| - 1] == a + e;
    }
  }

  lemma {:induction false} SubFull<T>(a: seq<T>, b: seq<T>)
    requires Sub(a, b)
    ensures |a| <= |b| && (|a| == |b| ==> a == b)
    decreases |b|
  {
    if a != [] {
      if Sub(a, b[..|b| - 1]) {
        SubFull(a, b[..|b| - 1]);
      } else {
        SubFull(a[..|a| - 1], b[..|b| - 1]);
        assert a == a[..|a| - 1] + [a[|a| - 1]] && b == b[..|b| - 1] + [b[|b| - 1]];
      }
    }
  }

  // ---------------------------------------------------------------- messages of blocked senders

  function TextOf(procs: map<Pid, Proc>, p: Pid): Message {
    (if p in procs then procs[p] else NO_PROC).message
  }

  function Texts(procs: map<Pid, Proc>, q: seq<Pid>): seq<Message> {
    if q == [] then [] else [TextOf(procs, q[0])] + Texts(procs, q[1..])
  }

  function Pending(s: State, id: int): seq<Message> {
    Texts(s.procs, s.Queue(Writers(Obj(BufferKind, id))))
  }

  lemma {:induction false} TextsSame(a: map<Pid, Proc>, b: map<Pid, Proc>, q: seq<Pid>)
    requires forall p :: p in q ==> TextOf(a, p) == TextOf(b, p)
    ensures Texts(a, q) == Texts(b, q)
  {
    if q != [] {
      assert q[0] in q;
      TextsSame(a, b, q[1..]);
    }
  }

  lemma {:induction false} TextsAppend(procs: map<Pid, Proc>, q: seq<Pid>, p: Pid)
    ensures Texts(procs, q + [p]) == Texts(procs, q) + [TextOf(procs, p)]
  {
    if q == [] {
      assert q + [p] == [p];
    } else {
      assert (q + [p])[1..] == q[1..] + [p];
      TextsAppend(procs, q[1..], p);
    }
  }

  lemma {:induction false} TextsInsert(keys: map<Pid, Proc>, procs: map<Pid, Proc>, q: seq<Pid>, p: Pid, n: int)
    ensures multiset(Texts(procs, InsertByPriority(keys, q, p, n))) == multiset(Texts(procs, q))
            + multiset{TextOf(procs, p)}
  {
    if q == [] || (if q[0] in keys then keys[q[0]] else NO_PROC).priority < n {
      assert ([p] + q)[1..] == q;
    } else {
      var rest := InsertByPriority(keys, q[1..], p, n);
      TextsInsert(keys, procs, q[1..], p, n);
      assert ([q[0]] + rest)[1..] == rest;
    }
  }

  /** Removing one sender removes one message, and the others keep their order. */
  lemma {:induction false} TextsRemove(procs: map<Pid, Proc>, q: seq<Pid>, p: Pid)
      returns (before: seq<Message>, after: seq<Message>)
    requires p in q
    ensures Texts(procs, q) == before + [TextOf(procs, p)] + after
    ensures Texts(procs, Remove(q, p)) == before + after
  {
    if q[0] == p {
      before, after := [], Texts(procs, q[1..]);
    } else {
      before, after := TextsRemove(procs, q[1..], p);
      before := [TextOf(procs, q[0])] + before;
      assert ([q[0]] + Remove(q[1..], p))[1..] == Remove(q[1..], p);
    }
  }

  // ---------------------------------------------------------------- the ledger

  /** Every message sent is delivered, in the ring, held by a blocked sender or withdrawn; and with
      FIFO queues these appear in the order they were sent. */
  ghost predicate LedgerOk(b: Buffer, pending: seq<Message>) {
    && multiset(b.delivered) + multiset(b.ring) + multiset(pending) + b.withdrawn == multiset(b.sent)
    && (b.discipline == Fifo ==> Sub(b.delivered + b.ring + pending, b.sent))
  }

  ghost predicate Traffic(s: State) {
    forall id :: id in s.buffers ==> LedgerOk(s.buffers[id], Pending(s, id))
  }

  /** Without withdrawals a FIFO buffer's traffic is exactly what was sent, in order. */
  lemma {:induction false} LedgerExact(b: Buffer, pending: seq<Message>)
    requires LedgerOk(b, pending) && b.discipline == Fifo && b.withdrawn == multiset{}
    ensures b.delivered + b.ring + pending == b.sent
  {
    var a := b.delivered + b.ring + pending;
    assert multiset(a) == multiset(b.sent);
    assert |multiset(a)| == |a| && |multiset(b.sent)| == |b.sent|;
    SubFull(a, b.sent);
  }

  lemma {:induction false} LedgerEnter(b: Buffer, c: Buffer, pending: seq<Message>, queued: seq<Message>, m: Message)
    requires LedgerOk(b, pending) && c.discipline == b.discipline && c.withdrawn == b.withdrawn
             && c.sent == b.sent + [m]
    requires c.delivered + c.ring + queued == b.delivered + b.ring + pending + [m]
    ensures LedgerOk(c, queued)
  {
    if b.discipline == Fifo {
      SubAppend(b.delivered + b.ring + pending, b.sent, m);
    }
    assert multiset(c.delivered + c.ring + queued) == multiset(b.delivered + b.ring + pending + [m]);
  }

  lemma {:induction false} LedgerMove(b: Buffer, c: Buffer, pending: seq<Message>, queued: seq<Message>)
    requires LedgerOk(b, pending) && c.discipline == b.discipline && c.withdrawn == b.withdrawn && c.sent == b.sent
    requires c.delivered + c.ring + queued == b.delivered + b.ring + pending
    ensures LedgerOk(c, queued)
  {
    assert multiset(c.delivered + c.ring + queued) == multiset(b.delivered + b.ring + pending);
  }

  lemma {:induction false} LedgerWithdraw(b: Buffer, before: seq<Message>, m: Message, after: seq<Message>)
    requires LedgerOk(b, before + [m] + after)
    ensures LedgerOk(b.(withdrawn := b.withdrawn + multiset{m}), before + after)
  {
    if b.discipline == Fifo {
      var head := b.delivered + b.ring;
      assert head + (before + [m] + after) == (head + before) + [m] + after;
      SubDrop(head + before, m, after, b.sent);
      assert head + (before + after) == (head + before) + after;
    }
    assert multiset(before + [m] + after) == multiset(before + after) + multiset{m};
  }

  // ---------------------------------------------------------------- steps that move no message

  /** Buffers, blocked senders and their messages are the same in `s` and `t`. */
  ghost predicate Quiet(s: State, t: State) {
    && t.buffers == s.buffers
    && (forall p :: t.At(p).message == s.At(p).message)
    && (forall id :: t.Queue(Writers(Obj(BufferKind, id))) == s.Queue(Writers(Obj(BufferKind, id))))
  }

  lemma {:induction false} QuietTraffic(s: State, t: State)
    requires Traffic(s) && Quiet(s, t)
    ensures Traffic(t)
  {
    forall id | id in t.buffers ensures LedgerOk(t.buffers[id], Pending(t, id)) {
      var q := s.Queue(Writers(Obj(BufferKind, id)));
      forall p ensures TextOf(s.procs, p) == TextOf(t.procs, p) {
        assert t.At(p).message == s.At(p).message;
      }
      TextsSame(s.procs, t.procs, q);
      assert Pending(t, id) == Pending(s, id);
    }
  }

  lemma {:induction false} QuietTrans(s: State, t: State, u: State)
    requires Quiet(s, t) && Quiet(t, u)
    ensures Quiet(s, u)
  {
    forall p ensures u.At(p).message == s.At(p).message {
      assert t.At(p).message == s.At(p).message;
    }
  }

  lemma {:induction false} RecordQuiet(s: State, p: Pid, x: Proc)
    requires x.message == s.At(p).message
    ensures Quiet(s, s.With(p, x)) && Quiet(s, s.With(p, x).(yielded := true))
  {
  }

  predicate Silent(q: QueueId) {
    q.Waiters? || q.obj.kind != BufferKind
  }

  lemma {:induction false} BlockQuiet(s: State, q: QueueId, p: Pid, d: Discipline, record: bool, timeout: int)
    requires Silent(q)
    ensures Quiet(s, Block(s, q, p, d, record, timeout))
  {
  }

  lemma {:induction false} WakeQuiet(s: State, q: QueueId)
    requires Silent(q) && s.Queue(q) != []
    ensures Quiet(s, Wake(s, q))
  {
  }

  lemma {:induction false} WakeAllQuiet(s: State, q: QueueId)
    requires Silent(q)
    ensures Quiet(s, WakeAll(s, q)) && Quiet(s, WakeAll(s, q).(yielded := true))
    decreases |s.Queue(q)|
  {
    if s.Queue(q) != [] {
      WakeQuiet(s, q);
      WakeAllQuiet(Wake(s, q), q);
      QuietTrans(s, Wake(s, q), WakeAll(s, q));
    }
  }

  lemma {:induction false} GrantQuiet(s: State, id: int, p: Pid)
    ensures Quiet(s, Grant(s, id, p))
  {
  }

  lemma {:induction false} FreeQuiet(s: State, id: int, p: Pid)
    ensures Quiet(s, Free(s, id, p))
  {
  }

  lemma {:induction false} SurrenderQuiet(s: State, id: int, p: Pid)
    ensures Quiet(s, Surrender(s, id, p)) && Quiet(s, Surrender(s, id, p).(yielded := true))
  {
    var t, q := Free(s, id, p), Waiters(Obj(MutexKind, id));
    FreeQuiet(s, id, p);
    if t.Queue(q) != [] {
      var u := Wake(t, q);
      WakeQuiet(t, q);
      GrantQuiet(u, id, t.Queue(q)[0]);
      QuietTrans(s, t, u);
      QuietTrans(s, u, Grant(u, id, t.Queue(q)[0]));
    }
  }

  lemma {:induction false} AcquireQuiet(s: State, id: int, timeout: int)
    requires s.current.Some?
    ensures Quiet(s, KernelAcquire(s, id, timeout).0)
  {
    var p, r := s.current.value, KernelAcquire(s, id, timeout);
    if r.1 == Parked {
      BlockQuiet(s, Waiters(Obj(MutexKind, id)), p, s.mutexes[id].discipline, true, timeout);
    } else if r.1 == NoError && !s.mutexes[id].owned {
      GrantQuiet(s, id, p);
    }
  }

  lemma {:induction false} ReleaseQuiet(s: State, id: int)
    requires s.current.Some?
    ensures Quiet(s, KernelRelease(s, id).0)
  {
    if id in s.mutexes && s.MutexAt(id).locks == 1 {
      SurrenderQuiet(s, id, s.current.value);
    }
  }

  lemma {:induction false} StopSelfQuiet(s: State)
    requires s.current.Some?
    ensures Quiet(s, StopSelf(s))
  {
    var p := s.current.value;
    var t := s.With(p, s.At(p).(deadline := INFINITE));
    RecordQuiet(s, p, s.At(p).(deadline := INFINITE));
    var owned := s.At(p).owned;
    if owned.None? {
      EndQuiet(s, t, p);
    } else {
      var v := if owned.value == PREEMPTION_LOCK then t.(lockLevel := 0) else t;
      assert Quiet(s, v);
      SurrenderQuiet(v, owned.value, p);
      QuietTrans(s, v, Surrender(v, owned.value, p));
      EndQuiet(s, Surrender(v, owned.value, p), p);
    }
  }

  lemma {:induction false} EndQuiet(s: State, u: State, p: Pid)
    requires Quiet(s, u)
    ensures Quiet(s, u.With(p, u.At(p).(state := Dormant, timer := 0, suspended := false)).(yielded := true))
  {
    var x := u.At(p).(state := Dormant, timer := 0, suspended := false);
    RecordQuiet(u, p, x);
    QuietTrans(s, u, u.With(p, x).(yielded := true));
  }

  lemma {:induction false} ScheduleQuiet(s: State)
    ensures Quiet(s, Schedule(s))
  {
  }

  lemma {:induction false} TickQuiet(s: State, now: int)
    ensures Quiet(s, Tick(s, now))
  {
    forall p ensures Tick(s, now).At(p).message == s.At(p).message {
    }
  }

  lemma {:induction false} MutexQuiet(s: State, e: Event)
    requires Enabled(s, e) && (e.Acquire? || e.Release? || e.Reset? || e.Lock? || e.Unlock?)
    ensures Quiet(s, Next(s, e))
  {
    match e
    case Acquire(id, t) => AcquireQuiet(s, id, t);
    case Release(id) => ReleaseQuiet(s, id);
    case Reset(id, p) => SurrenderQuiet(s, id, p);
    case Lock =>
      AcquireQuiet(s, PREEMPTION_LOCK, INFINITE);
      RefreshQuiet(s, KernelAcquire(s, PREEMPTION_LOCK, INFINITE));
    case Unlock =>
      ReleaseQuiet(s, PREEMPTION_LOCK);
      RefreshQuiet(s, KernelRelease(s, PREEMPTION_LOCK));
  }

  lemma {:induction false} RefreshQuiet(s: State, r: Reply)
    requires Quiet(s, r.0)
    ensures Quiet(s, AfterLockCall(r).0)
  {
  }

  lemma {:induction false} SelfQuiet(s: State, e: Event)
    requires Enabled(s, e) && (e.QuitSelf? || e.SleepSelf? || e.Delay? || e.NextPeriod? || e.Refresh?)
    ensures Quiet(s, Next(s, e))
  {
    match e
    case QuitSelf => StopSelfQuiet(s);
    case SleepSelf(n) => SuspendSelfQuiet(s, n);
    case Delay(n) => TimedWaitQuiet(s, n);
    case NextPeriod => PeriodicWaitQuiet(s);
    case Refresh =>
  }

  lemma {:induction false} SuspendSelfQuiet(s: State, n: int)
    requires s.current.Some?
    ensures Quiet(s, SuspendSelf(s, n).0)
  {
    RecordQuiet(s, s.current.value, SuspendSelf(s, n).0.At(s.current.value));
  }

  lemma {:induction false} TimedWaitQuiet(s: State, n: int)
    requires s.current.Some?
    ensures Quiet(s, TimedWait(s, n).0)
  {
    RecordQuiet(s, s.current.value, TimedWait(s, n).0.At(s.current.value));
  }

  lemma {:induction false} PeriodicWaitQuiet(s: State)
    requires s.current.Some?
    ensures Quiet(s, PeriodicWait(s).0)
  {
    RecordQuiet(s, s.current.value, PeriodicWait(s).0.At(s.current.value));
  }

  lemma {:induction false} TargetQuiet(s: State, e: Event)
    requires Enabled(s, e) && (e.Prioritize? || e.Sleep? || e.Rouse? || e.Launch?)
    ensures Quiet(s, Next(s, e))
  {
    match e
    case Prioritize(p, n) => PrioritizeQuiet(s, p, n);
    case Sleep(p) => SuspendQuiet(s, p);
    case Rouse(p) => RouseQuiet(s, p);
    case Launch(p, f) => StartQuiet(s, p, f);
  }

  lemma {:induction false} SuspendQuiet(s: State, p: Pid)
    requires s.current.Some?
    ensures Quiet(s, Suspend(s, p).0)
  {
    RecordQuiet(s, p, s.At(p).(suspended := true, state := Waiting));
  }

  lemma {:induction false} StartQuiet(s: State, p: Pid, first: int)
    requires s.current.Some?
    ensures Quiet(s, Start(s, p, first).0)
  {
    RecordQuiet(s, p, Start(s, p, first).0.At(p));
  }

  lemma {:induction false} PrioritizeQuiet(s: State, p: Pid, n: int)
    requires s.current.Some?
    ensures Quiet(s, SetPriority(s, p, n).0)
  {
    RecordQuiet(s, p, s.At(p).(priority := n));
  }

  lemma {:induction false} RouseQuiet(s: State, p: Pid)
    requires s.current.Some?
    ensures Quiet(s, Resume(s, p).0)
  {
  }

  lemma {:induction false} SemaphoreQuiet(s: State, e: Event)
    requires Enabled(s, e) && (e.Take? || e.Give? || e.Dispatch? || e.Clock?)
    ensures Quiet(s, Next(s, e))
  {
    match e
    case Take(id, n) => TakeQuiet(s, id, n);
    case Give(id) => GiveQuiet(s, id);
    case Dispatch => ScheduleQuiet(s);
    case Clock(t) => TickQuiet(s, t);
  }

  lemma {:induction false} TakeQuiet(s: State, id: int, n: int)
    requires s.current.Some?
    ensures Quiet(s, WaitSemaphore(s, id, n).0)
  {
    if WaitSemaphore(s, id, n).1 == Parked {
      BlockQuiet(s, Waiters(Obj(SemaphoreKind, id)), s.current.value, s.semaphores[id].discipline, n != INFINITE, n);
    }
  }

  lemma {:induction false} GiveQuiet(s: State, id: int)
    requires s.current.Some?
    ensures Quiet(s, SignalSemaphore(s, id).0)
  {
    if s.Queue(Waiters(Obj(SemaphoreKind, id))) != [] {
      WakeQuiet(s, Waiters(Obj(SemaphoreKind, id)));
    }
  }

  lemma {:induction false} DrainQuiet(s: State, t: State, q: QueueId)
    requires Quiet(s, t) && Silent(q)
    ensures Quiet(s, WakeAll(t, q)) && Quiet(s, WakeAll(t, q).(yielded := true))
  {
    WakeAllQuiet(t, q);
    QuietTrans(s, t, WakeAll(t, q));
    QuietTrans(s, t, WakeAll(t, q).(yielded := true));
  }

  lemma {:induction false} EventQuiet(s: State, e: Event)
    requires Enabled(s, e) && (e.Raise? || e.Lower? || e.Await?)
    ensures Quiet(s, Next(s, e))
  {
    match e
    case Raise(id) => RaiseQuiet(s, id);
    case Lower(id) =>
    case Await(id, n) => AwaitQuiet(s, id, n);
  }

  lemma {:induction false} RaiseQuiet(s: State, id: int)
    requires s.current.Some?
    ensures Quiet(s, SetEvent(s, id).0)
  {
    DrainQuiet(s, s.PutEvent(id, true), Waiters(Obj(EventKind, id)));
  }

  lemma {:induction false} AwaitQuiet(s: State, id: int, n: int)
    requires s.current.Some?
    ensures Quiet(s, WaitEvent(s, id, n).0)
  {
    BlockQuiet(s, Waiters(Obj(EventKind, id)), s.current.value, if n == INFINITE then Fifo else ByPriority, true, n);
  }

  lemma {:induction false} BlackboardQuiet(s: State, e: Event)
    requires Enabled(s, e) && (e.Display? || e.Read? || e.Clear?)
    ensures Quiet(s, Next(s, e))
  {
    match e
    case Display(id, m) => DisplayQuiet(s, id, m);
    case Clear(id) =>
    case Read(id, n) => ReadQuiet(s, id, n);
  }

  lemma {:induction false} DisplayQuiet(s: State, id: int, m: Message)
    requires s.current.Some?
    ensures Quiet(s, DisplayBlackboard(s, id, m).0)
  {
    if id in s.blackboards {
      var t := s.PutBlackboard(id, s.blackboards[id].(occupied := true, message := m));
      DrainQuiet(s, t, Waiters(Obj(BlackboardKind, id)));
    }
  }

  lemma {:induction false} ReadQuiet(s: State, id: int, n: int)
    requires s.current.Some?
    ensures Quiet(s, ReadBlackboard(s, id, n).0)
  {
    BlockQuiet(s, Waiters(Obj(BlackboardKind, id)), s.current.value, Fifo, n != INFINITE, n);
  }

  lemma {:induction false} QuietEvent(s: State, e: Event)
    requires Enabled(s, e) && !e.Send? && !e.Receive? && !e.Quit?
    ensures Quiet(s, Next(s, e))
  {
    if e.Acquire? || e.Release? || e.Reset? || e.Lock? || e.Unlock? {
      MutexQuiet(s, e);
    } else if e.QuitSelf? || e.SleepSelf? || e.Delay? || e.NextPeriod? || e.Refresh? {
      SelfQuiet(s, e);
    } else if e.Prioritize? || e.Sleep? || e.Rouse? || e.Launch? {
      TargetQuiet(s, e);
    } else if e.Take? || e.Give? || e.Dispatch? || e.Clock? {
      SemaphoreQuiet(s, e);
    } else if e.Raise? || e.Lower? || e.Await? {
      EventQuiet(s, e);
    } else {
      BlackboardQuiet(s, e);
    }
  }

  // ---------------------------------------------------------------- steps that do

  function SendersOf(id: int): QueueId {
    Writers(Obj(BufferKind, id))
  }

  /** Senders blocked on other buffers than `id`, and their messages, are the same. */
  ghost predicate OthersQuiet(s: State, t: State, id: int) {
    forall i :: i != id ==>
      && t.Queue(SendersOf(i)) == s.Queue(SendersOf(i))
      && forall p :: p in s.Queue(SendersOf(i)) ==> TextOf(t.procs, p) == TextOf(s.procs, p)
  }

  lemma {:induction false} OneLedger(s: State, t: State, id: int, b: Buffer)
    requires Traffic(s) && t.buffers == s.buffers[id := b] && OthersQuiet(s, t, id) && LedgerOk(b, Pending(t, id))
    ensures Traffic(t)
  {
    forall i | i in t.buffers && i != id ensures LedgerOk(t.buffers[i], Pending(t, i)) {
      assert t.Queue(SendersOf(i)) == s.Queue(SendersOf(i));
      TextsSame(s.procs, t.procs, s.Queue(SendersOf(i)));
    }
  }

  /** With room in the ring nobody is blocked sending. */
  lemma {:induction false} NobodySending(s: State, id: int)
    requires WakeOk(s) && id in s.buffers && |s.buffers[id].ring| < s.buffers[id].maxMessages
    ensures s.Queue(SendersOf(id)) == [] && Pending(s, id) == []
  {
    Unserved(s, SendersOf(id));
  }

  lemma {:induction false} StoreTraffic(s: State, id: int, m: Message)
    requires Inv(s) && Traffic(s) && id in s.buffers && |s.buffers[id].ring| < s.buffers[id].maxMessages
    ensures var b := s.buffers[id]; Traffic(s.PutBuffer(id, b.(ring := b.ring + [m], sent := b.sent + [m])))
  {
    var b := s.buffers[id];
    var c := b.(ring := b.ring + [m], sent := b.sent + [m]);
    var t := s.PutBuffer(id, c);
    NobodySending(s, id);
    assert Pending(t, id) == Pending(s, id);
    assert c.delivered + c.ring + [] == b.delivered + b.ring + [] + [m];
    LedgerEnter(b, c, [], [], m);
    OneLedger(s, t, id, c);
  }

  /** The message of a process outside every sender queue may be overwritten. */
  lemma {:induction false} ReaderQuiet(s: State, w: Pid, m: Message, q: QueueId)
    requires QueueOk(s) && s.Queue(q) != [] && s.Queue(q)[0] == w && q.Waiters?
    ensures var t := Wake(s, q).With(w, Wake(s, q).At(w).(message := m));
            forall i :: t.Queue(SendersOf(i)) == s.Queue(SendersOf(i))
                     && forall p :: p in s.Queue(SendersOf(i)) ==> TextOf(t.procs, p) == TextOf(s.procs, p)
  {
    assert w in s.Queue(q);
  }

  lemma {:induction false} DeliverTraffic(s: State, id: int, m: Message)
    requires Inv(s) && Traffic(s) && id in s.buffers && s.Queue(Waiters(Obj(BufferKind, id))) != []
    ensures var b, q := s.buffers[id], Waiters(Obj(BufferKind, id));
            var t, w := Wake(s, q), s.Queue(q)[0];
            Traffic(t.With(w, t.At(w).(message := m))
                     .PutBuffer(id, b.(sent := b.sent + [m], delivered := b.delivered + [m])).(yielded := true))
  {
    var b, q := s.buffers[id], Waiters(Obj(BufferKind, id));
    var w := s.Queue(q)[0];
    var c := b.(sent := b.sent + [m], delivered := b.delivered + [m]);
    var u := Wake(s, q).With(w, Wake(s, q).At(w).(message := m));
    var t := u.PutBuffer(id, c).(yielded := true);
    assert Unavailable(s, q);
    NobodySending(s, id);
    ReaderQuiet(s, w, m, q);
    assert t.Queue(SendersOf(id)) == u.Queue(SendersOf(id)) == [];
    assert Pending(t, id) == [];
    assert c.delivered + c.ring + [] == b.delivered + b.ring + [] + [m];
    LedgerEnter(b, c, [], [], m);
    assert OthersQuiet(s, t, id);
    OneLedger(s, t, id, c);
  }

  lemma {:induction false} LedgerBag(b: Buffer, c: Buffer, pending: seq<Message>, queued: seq<Message>, m: Message)
    requires LedgerOk(b, pending) && c == b.(sent := b.sent + [m]) && b.discipline != Fifo
    requires multiset(queued) == multiset(pending) + multiset{m}
    ensures LedgerOk(c, queued)
  {
  }

  /** A blocked sender's message joins the pending ones, at the end under FIFO. */
  lemma {:induction false} ParkLedger(s: State, id: int, p: Pid, m: Message, procs: map<Pid, Proc>)
    requires Traffic(s) && id in s.buffers && TextOf(procs, p) == m
    requires forall w :: w in s.Queue(SendersOf(id)) ==> TextOf(procs, w) == TextOf(s.procs, w)
    ensures var b := s.buffers[id];
            forall u: State :: u.Queue(SendersOf(id)) == s.Queue(SendersOf(id)) ==>
              LedgerOk(b.(sent := b.sent + [m]), Texts(procs, Enqueued(u, SendersOf(id), p, b.discipline)))
  {
    var b, q := s.buffers[id], s.Queue(SendersOf(id));
    var c := b.(sent := b.sent + [m]);
    var pending := Pending(s, id);
    TextsSame(s.procs, procs, q);
    forall u: State | u.Queue(SendersOf(id)) == q
      ensures LedgerOk(c, Texts(procs, Enqueued(u, SendersOf(id), p, b.discipline)))
    {
      if b.discipline == Fifo {
        TextsAppend(procs, q, p);
        assert c.delivered + c.ring + (pending + [m]) == b.delivered + b.ring + pending + [m];
        LedgerEnter(b, c, pending, pending + [m], m);
      } else {
        TextsInsert(u.procs, procs, q, p, u.At(p).priority);
        LedgerBag(b, c, pending, Texts(procs, Enqueued(u, SendersOf(id), p, b.discipline)), m);
      }
    }
  }

  lemma {:induction false} ParkTraffic(s: State, id: int, p: Pid, m: Message, timeout: int)
    requires Inv(s) && Traffic(s) && id in s.buffers && s.current == Some(p) && !s.yielded
    ensures var b := s.buffers[id];
            Traffic(Block(s.With(p, s.At(p).(message := m)), SendersOf(id), p, b.discipline, true, timeout)
                     .PutBuffer(id, b.(sent := b.sent + [m])))
  {
    var b := s.buffers[id];
    var c := b.(sent := b.sent + [m]);
    AliveNotQueued(s, p);
    var u := s.With(p, s.At(p).(message := m));
    var v := Block(u, SendersOf(id), p, b.discipline, true, timeout);
    assert forall i :: p !in s.Queue(SendersOf(i));
    ParkTexts(s, id, p, m, timeout);
    ParkLedger(s, id, p, m, v.procs);
    OneLedger(s, v.PutBuffer(id, c), id, c);
  }

  lemma {:induction false} ParkTexts(s: State, id: int, p: Pid, m: Message, timeout: int)
    requires id in s.buffers && (forall i :: p !in s.Queue(SendersOf(i)))
    ensures var b, u := s.buffers[id], s.With(p, s.At(p).(message := m));
            var v := Block(u, SendersOf(id), p, b.discipline, true, timeout);
            var t := v.PutBuffer(id, b.(sent := b.sent + [m]));
            && (forall x :: x != p ==> TextOf(v.procs, x) == TextOf(s.procs, x))
            && u.Queue(SendersOf(id)) == s.Queue(SendersOf(id))
            && t.Queue(SendersOf(id)) == Enqueued(u, SendersOf(id), p, b.discipline)
            && OthersQuiet(s, t, id)
  {
  }

  lemma {:induction false} SendTraffic(s: State, id: int, m: Message, timeout: int)
    requires Inv(s) && Traffic(s) && s.current.Some? && !s.yielded
    ensures Traffic(SendBuffer(s, id, m, timeout).0)
  {
    var r := SendBuffer(s, id, m, timeout);
    if r.1 == NoError && s.Queue(Waiters(Obj(BufferKind, id))) == [] {
      StoreTraffic(s, id, m);
    } else if r.1 == NoError {
      DeliverTraffic(s, id, m);
    } else if r.1 == Parked {
      ParkTraffic(s, id, s.current.value, m, timeout);
    }
  }

  lemma {:induction false} TakeTraffic(s: State, id: int)
    requires Traffic(s) && id in s.buffers && |s.buffers[id].ring| > 0
    ensures var b := s.buffers[id];
            Traffic(s.PutBuffer(id, b.(ring := b.ring[1..], delivered := b.delivered + [b.ring[0]])))
  {
    var b := s.buffers[id];
    var c := b.(ring := b.ring[1..], delivered := b.delivered + [b.ring[0]]);
    var t := s.PutBuffer(id, c);
    assert Pending(t, id) == Pending(s, id);
    assert c.delivered + c.ring + Pending(s, id) == b.delivered + b.ring + Pending(s, id) by {
      assert b.ring == [b.ring[0]] + b.ring[1..];
    }
    LedgerMove(b, c, Pending(s, id), Pending(s, id));
    OneLedger(s, t, id, c);
  }

  lemma {:induction false} RefillLedger(b: Buffer, first: Message, rest: seq<Message>)
    requires LedgerOk(b, [first] + rest) && |b.ring| > 0
    ensures LedgerOk(b.(ring := b.ring[1..] + [first], delivered := b.delivered + [b.ring[0]]), rest)
  {
    var c := b.(ring := b.ring[1..] + [first], delivered := b.delivered + [b.ring[0]]);
    assert c.delivered + c.ring + rest == b.delivered + b.ring + ([first] + rest) by {
      assert b.ring == [b.ring[0]] + b.ring[1..];
    }
    LedgerMove(b, c, [first] + rest, rest);
  }

  lemma {:induction false} RefillTraffic(s: State, id: int)
    requires Traffic(s) && id in s.buffers && |s.buffers[id].ring| > 0 && s.Queue(SendersOf(id)) != []
    ensures var b, q := s.buffers[id], SendersOf(id);
            Traffic(Wake(s, q).PutBuffer(id, b.(ring := b.ring[1..] + [s.At(s.Queue(q)[0]).message],
                                                delivered := b.delivered + [b.ring[0]])).(yielded := true))
  {
    var b, q := s.buffers[id], SendersOf(id);
    var first, rest := s.At(s.Queue(q)[0]).message, Texts(s.procs, s.Queue(q)[1..]);
    var c := b.(ring := b.ring[1..] + [first], delivered := b.delivered + [b.ring[0]]);
    var u := Wake(s, q);
    var t := u.PutBuffer(id, c).(yielded := true);
    RefillLedger(b, first, rest);
    RefillTexts(s, id, c);
    TextsSame(s.procs, u.procs, s.Queue(q)[1..]);
    assert Pending(t, id) == rest;
    OneLedger(s, t, id, c);
  }

  lemma {:induction false} RefillTexts(s: State, id: int, c: Buffer)
    requires id in s.buffers && s.Queue(SendersOf(id)) != []
    ensures var q := SendersOf(id);
            var u := Wake(s, q);
            var t := u.PutBuffer(id, c).(yielded := true);
            && (forall x :: TextOf(u.procs, x) == TextOf(s.procs, x))
            && t.Queue(q) == s.Queue(q)[1..] && OthersQuiet(s, t, id)
  {
  }

  lemma {:induction false} ReceiveTraffic(s: State, id: int, timeout: int)
    requires Traffic(s) && s.current.Some?
    ensures Traffic(ReceiveBuffer(s, id, timeout).0)
  {
    var r := ReceiveBuffer(s, id, timeout);
    if r.1 == Parked {
      BlockQuiet(s, Waiters(Obj(BufferKind, id)), s.current.value, s.buffers[id].discipline, true, timeout);
      QuietTraffic(s, r.0);
    } else if r.1 == NoError {
      if s.Queue(SendersOf(id)) == [] {
        TakeTraffic(s, id);
      } else {
        RefillTraffic(s, id);
      }
    }
  }

  // ---------------------------------------------------------------- STOP

  ghost predicate NotSending(s: State, p: Pid) {
    forall id :: p !in s.Queue(Writers(Obj(BufferKind, id)))
  }

  lemma {:induction false} WithdrawQuiet(s: State, p: Pid, o: Obj)
    ensures Quiet(s, Withdraw(s, p, Waiters(o)))
  {
  }

  lemma {:induction false} LeaveQuiet(s: State, p: Pid, k: Kind)
    requires NotSending(s, p)
    ensures Quiet(s, Leave(s, p, k)) && NotSending(Leave(s, p, k), p)
  {
    if s.At(p).waitingOn.Get(k).Some? {
      var o := Obj(k, s.At(p).waitingOn.Get(k).value);
      var t := Withdraw(s, p, Waiters(o));
      WithdrawQuiet(s, p, o);
      assert k == BufferKind ==> p !in t.Queue(Writers(Obj(BufferKind, o.id)));
      var x := t.At(p).(waitingOn := t.At(p).waitingOn.Set(k, None));
      RecordQuiet(t, p, x);
      QuietTrans(s, t, t.With(p, x));
    }
  }

  lemma {:induction false} LeaveAllQuiet(s: State, p: Pid)
    requires NotSending(s, p)
    ensures Quiet(s, LeaveAll(s, p))
  {
    var a := Leave(s, p, BlackboardKind);
    var b := Leave(a, p, BufferKind);
    var c := Leave(b, p, SemaphoreKind);
    var d := Leave(c, p, EventKind);
    LeaveQuiet(s, p, BlackboardKind);
    LeaveQuiet(a, p, BufferKind);
    LeaveQuiet(b, p, SemaphoreKind);
    LeaveQuiet(c, p, EventKind);
    LeaveQuiet(d, p, MutexKind);
    QuietTrans(s, a, b);
    QuietTrans(s, b, c);
    QuietTrans(s, c, d);
    QuietTrans(s, d, LeaveAll(s, p));
  }

  lemma {:induction false} KilledQuiet(s: State, p: Pid)
    ensures Quiet(s, s.With(p, Killed(s.At(p))).(yielded := true))
  {
  }

  lemma {:induction false} DepartedTraffic(s: State, p: Pid, id: int)
    requires QueueOk(s) && Traffic(s) && id in s.buffers && p in s.Queue(SendersOf(id))
    ensures Traffic(Departed(s, p, SendersOf(id)))
  {
    var t, q, b := Departed(s, p, SendersOf(id)), s.Queue(SendersOf(id)), s.buffers[id];
    var c := b.(withdrawn := b.withdrawn + multiset{s.At(p).message});
    var before, after := TextsRemove(s.procs, q, p);
    LedgerWithdraw(b, before, s.At(p).message, after);
    DepartedTexts(s, p, id);
    TextsSame(s.procs, t.procs, Remove(q, p));
    OneLedger(s, t, id, c);
  }

  lemma {:induction false} DepartedTexts(s: State, p: Pid, id: int)
    requires id in s.buffers && p in s.Queue(SendersOf(id))
    ensures var t := Departed(s, p, SendersOf(id));
            && (forall x :: TextOf(t.procs, x) == TextOf(s.procs, x))
            && t.Queue(SendersOf(id)) == Remove(s.Queue(SendersOf(id)), p) && OthersQuiet(s, t, id)
  {
  }

  lemma {:induction false} StopSender(s: State, p: Pid, id: int)
    requires Inv(s) && Traffic(s) && p in s.Queue(SendersOf(id))
    ensures Traffic(LeaveAll(s, p))
  {
    assert Points(s, p, SendersOf(id).obj);
    OnePointer(s, p, SendersOf(id));
    LeaveOne(s, p, SendersOf(id));
    assert Unavailable(s, SendersOf(id));
    DepartedTraffic(s, p, id);
  }

  lemma {:induction false} StopTraffic(s: State, target: Pid)
    requires Inv(s) && Traffic(s) && s.current.Some?
    ensures Traffic(Stop(s, target).0)
  {
    if target in s.order && target != s.current.value && s.At(target).state != Dormant {
      var t := LeaveAll(s, target);
      if NotSending(s, target) {
        LeaveAllQuiet(s, target);
        QuietTraffic(s, t);
      } else {
        var id :| target in s.Queue(Writers(Obj(BufferKind, id)));
        StopSender(s, target, id);
      }
      KilledQuiet(t, target);
      QuietTraffic(t, t.With(target, Killed(t.At(target))).(yielded := true));
    }
  }

  // ---------------------------------------------------------------- whole runs

  /** Every event keeps every buffer's ledger. */
  lemma {:induction false} TrafficStep(s: State, e: Event)
    requires Inv(s) && Traffic(s) && Enabled(s, e)
    ensures Traffic(Next(s, e))
  {
    if e.Send? || e.Receive? || e.Quit? {
      BufferStep(s, e);
    } else {
      QuietEvent(s, e);
      QuietTraffic(s, Next(s, e));
    }
  }

  lemma {:induction false} BufferStep(s: State, e: Event)
    requires Inv(s) && Traffic(s) && Enabled(s, e) && (e.Send? || e.Receive? || e.Quit?)
    ensures Traffic(Next(s, e))
  {
    match e
    case Send(id, m, t) => SendTraffic(s, id, m, t);
    case Receive(id, t) => ReceiveTraffic(s, id, t);
    case Quit(p) => StopTraffic(s, p);
  }

  lemma {:induction false} InitialTraffic(s: State)
    requires Initial(s)
    ensures Traffic(s)
  {
    assert forall id :: Pending(s, id) == [];
  }

  lemma {:induction false} TrafficOverRun(s: State, run: seq<Event>)
    requires Inv(s) && Traffic(s) && Feasible(s, run) && AllSafe(s, run)
    ensures Traffic(Exec(s, run))
    decreases |run|
  {
    if run != [] {
      StepExact(s, run[0]);
      TrafficStep(s, run[0]);
      TrafficOverRun(Next(s, run[0]), run[1..]);
    }
  }

  /** Over every safe run: no message is lost or invented; a FIFO buffer never reorders; and if
      no sender was stopped, delivered ++ ring ++ blocked is the sequence sent. */
  lemma {:induction false} BufferConservation(s: State, run: seq<Event>, id: int)
    requires Initial(s) && Feasible(s, run) && AllSafe(s, run) && id in Exec(s, run).buffers
    ensures var t := Exec(s, run);
            var b := t.buffers[id];
            && multiset(b.delivered) + multiset(b.ring) + multiset(Pending(t, id)) + b.withdrawn == multiset(b.sent)
            && (b.discipline == Fifo ==> Sub(b.delivered + b.ring + Pending(t, id), b.sent))
            && (b.discipline == Fifo && b.withdrawn == multiset{} ==> b.delivered + b.ring + Pending(t, id) == b.sent)
  {
    InitialInv(s);
    InitialTraffic(s);
    TrafficOverRun(s, run);
    var t := Exec(s, run);
    if t.buffers[id].discipline == Fifo && t.buffers[id].withdrawn == multiset{} {
      LedgerExact(t.buffers[id], Pending(t, id));
    }
  }

  // ---------------------------------------------------------------- the histories are the calls

  /** The message `e` puts into circulation on buffer `id`: a SEND_BUFFER that succeeds or blocks. */
  function Accepts(s: State, e: Event, id: int): seq<Message>
    requires Enabled(s, e)
  {
    if e.Send? && e.id == id && (var c := SendBuffer(s, id, e.message, e.timeout).1; c == NoError || c == Parked)
    then [e.message] else []
  }

  /** The message `e` puts into a reader's hands: RECEIVE_BUFFER's result, or what a blocked reader
      finds in its record after a SEND_BUFFER. */
  function Hands(s: State, e: Event, id: int): seq<Message>
    requires Enabled(s, e)
  {
    var readers := s.Queue(Waiters(Obj(BufferKind, id)));
    if e.Receive? && e.id == id && ReceiveBuffer(s, id, e.timeout).1 == NoError then [ReceiveBuffer(s, id, e.timeout).2]
    else if e.Send? && e.id == id && SendBuffer(s, id, e.message, e.timeout).1 == NoError && readers != []
    then [Next(s, e).At(readers[0]).message]
    else []
  }

  ghost predicate SameHistory(b: Buffer, c: Buffer) {
    c == b.(withdrawn := c.withdrawn)
  }

  /** `t` records on buffer `id` exactly the messages `accepted` and `handed`. */
  ghost predicate Records(s: State, t: State, id: int, accepted: seq<Message>, handed: seq<Message>) {
    id in s.buffers && id in t.buffers && t.buffers[id].sent == s.buffers[id].sent + accepted
    && t.buffers[id].delivered == s.buffers[id].delivered + handed
  }

  ghost predicate KeepsHistory(s: State, t: State, id: int) {
    (id in t.buffers <==> id in s.buffers) && (id in s.buffers ==> SameHistory(s.buffers[id], t.buffers[id]))
  }

  lemma {:induction false} WithdrawHistory(s: State, p: Pid, q: QueueId, id: int)
    ensures KeepsHistory(s, Withdraw(s, p, q), id)
  {
  }

  lemma {:induction false} LeaveHistory(s: State, p: Pid, k: Kind, id: int)
    ensures KeepsHistory(s, Leave(s, p, k), id)
  {
    if s.At(p).waitingOn.Get(k).Some? {
      var o := Obj(k, s.At(p).waitingOn.Get(k).value);
      WithdrawHistory(s, p, Waiters(o), id);
      WithdrawHistory(Withdraw(s, p, Waiters(o)), p, Writers(o), id);
    }
  }

  lemma {:induction false} LeaveAllHistory(s: State, p: Pid, id: int)
    ensures KeepsHistory(s, LeaveAll(s, p), id)
  {
    var a := Leave(s, p, BlackboardKind);
    var b := Leave(a, p, BufferKind);
    var c := Leave(b, p, SemaphoreKind);
    LeaveHistory(s, p, BlackboardKind, id);
    LeaveHistory(a, p, BufferKind, id);
    LeaveHistory(b, p, SemaphoreKind, id);
    LeaveHistory(c, p, EventKind, id);
    LeaveHistory(Leave(c, p, EventKind), p, MutexKind, id);
  }

  lemma {:induction false} StopHistory(s: State, target: Pid, id: int)
    requires s.current.Some?
    ensures KeepsHistory(s, Stop(s, target).0, id)
  {
    LeaveAllHistory(s, target, id);
  }

  /** What SEND_BUFFER does to the buffers, by its return code. */
  lemma {:induction false} SentBuffers(s: State, id: int, m: Message, timeout: int, t: State, c: Code)
    requires s.current.Some? && (t, c) == SendBuffer(s, id, m, timeout)
    ensures c == NoError || c == Parked ==> id in s.buffers && 0 < |m| < s.buffers[id].maxSize
    ensures c == NoError ==>
              var b := s.buffers[id];
              && |b.ring| < b.maxMessages
              && t.buffers == s.buffers[id := if s.Queue(Waiters(Obj(BufferKind, id))) == []
                                              then b.(ring := b.ring + [m], sent := b.sent + [m])
                                              else b.(sent := b.sent + [m], delivered := b.delivered + [m])]
    ensures c == Parked ==> t.buffers == s.buffers[id := s.buffers[id].(sent := s.buffers[id].sent + [m])]
    ensures c != NoError && c != Parked ==> t == s
  {
  }

  /** The first blocked reader finds the message in its record. */
  lemma {:induction false} HandedMessage(s: State, id: int, m: Message, timeout: int, t: State, c: Code)
    requires s.current.Some? && (t, c) == SendBuffer(s, id, m, timeout) && c == NoError
    requires s.Queue(Waiters(Obj(BufferKind, id))) != []
    ensures t.At(s.Queue(Waiters(Obj(BufferKind, id)))[0]).message == m
  {
  }

  lemma {:induction false} SendHistory(s: State, e: Event, id: int)
    requires Enabled(s, e) && e.Send? && id in s.buffers
    ensures Records(s, Next(s, e), id, Accepts(s, e, id), Hands(s, e, id))
  {
    var r := SendBuffer(s, e.id, e.message, e.timeout);
    SentBuffers(s, e.id, e.message, e.timeout, r.0, r.1);
    if r.1 == NoError && s.Queue(Waiters(Obj(BufferKind, e.id))) != [] {
      HandedMessage(s, e.id, e.message, e.timeout, r.0, r.1);
    }
  }

  /** What RECEIVE_BUFFER does to the buffers, by its return code. */
  lemma {:induction false} ReceivedBuffers(s: State, id: int, timeout: int, t: State, c: Code, m: Message)
    requires s.current.Some? && (t, c, m) == ReceiveBuffer(s, id, timeout)
    ensures c == NoError ==> id in s.buffers && s.buffers[id].ring != [] && m == s.buffers[id].ring[0]
    ensures c == NoError ==>
              var b, q := s.buffers[id], s.Queue(Writers(Obj(BufferKind, id)));
              var ring := if q == [] then b.ring[1..] else b.ring[1..] + [s.At(q[0]).message];
              t.buffers == s.buffers[id := b.(ring := ring, delivered := b.delivered + [m])]
    ensures c != NoError ==> t.buffers == s.buffers
  {
  }

  lemma {:induction false} ReceiveHistory(s: State, e: Event, id: int)
    requires Enabled(s, e) && e.Receive? && id in s.buffers
    ensures Records(s, Next(s, e), id, Accepts(s, e, id), Hands(s, e, id))
  {
    var r := ReceiveBuffer(s, e.id, e.timeout);
    ReceivedBuffers(s, e.id, e.timeout, r.0, r.1, r.2);
  }

  lemma {:induction false} HistoryStep(s: State, e: Event, id: int)
    requires Enabled(s, e) && id in s.buffers
    ensures Records(s, Next(s, e), id, Accepts(s, e, id), Hands(s, e, id))
  {
    if e.Send? {
      SendHistory(s, e, id);
    } else if e.Receive? {
      ReceiveHistory(s, e, id);
    } else if e.Quit? {
      StopHistory(s, e.pid, id);
    } else {
      QuietEvent(s, e);
    }
  }

  function AllAccepted(s: State, run: seq<Event>, id: int): seq<Message>
    requires Feasible(s, run)
    decreases |run|
  {
    if run == [] then [] else Accepts(s, run[0], id) + AllAccepted(Next(s, run[0]), run[1..], id)
  }

  function AllHanded(s: State, run: seq<Event>, id: int): seq<Message>
    requires Feasible(s, run)
    decreases |run|
  {
    if run == [] then [] else Hands(s, run[0], id) + AllHanded(Next(s, run[0]), run[1..], id)
  }

  /** The histories kept in a buffer are the accepted calls and the handed-over results of the run. */
  lemma {:induction false} HistoryIsRun(s: State, run: seq<Event>, id: int)
    requires Feasible(s, run) && id in s.buffers
    ensures Records(s, Exec(s, run), id, AllAccepted(s, run, id), AllHanded(s, run, id))
    decreases |run|
  {
    if run != [] {
      var t := Next(s, run[0]);
      HistoryStep(s, run[0], id);
      HistoryIsRun(t, run[1..], id);
      RecordsTrans(s, t, Exec(s, run), id, Accepts(s, run[0], id), Hands(s, run[0], id),
                   AllAccepted(t, run[1..], id), AllHanded(t, run[1..], id));
    }
  }

  lemma {:induction false} RecordsTrans(s: State, t: State, u: State, id: int,
                     a: seq<Message>, h: seq<Message>, b: seq<Message>, i: seq<Message>)
    requires id in s.buffers && Records(s, t, id, a, h) && Records(t, u, id, b, i)
    ensures Records(s, u, id, a + b, h + i)
  {
  }

  /** In terms of calls alone: over every safe run in which no blocked sender is stopped, what the
      readers of a FIFO buffer got, then the ring, then the blocked senders' messages, is what was
      sent, in order. */
  lemma {:induction false} FifoDelivery(s: State, run: seq<Event>, id: int)
    requires Initial(s) && Feasible(s, run) && AllSafe(s, run) && id in s.buffers
    ensures var t := Exec(s, run);
            && id in t.buffers
            && (t.buffers[id].discipline == Fifo && t.buffers[id].withdrawn == multiset{} ==>
                  AllHanded(s, run, id) + t.buffers[id].ring + Pending(t, id) == AllAccepted(s, run, id))
  {
    HistoryIsRun(s, run, id);
    FreshRecords(s, Exec(s, run), id, AllAccepted(s, run, id), AllHanded(s, run, id));
    BufferConservation(s, run, id);
  }

  lemma {:induction false} FreshRecords(s: State, t: State, id: int, a: seq<Message>, h: seq<Message>)
    requires Initial(s) && id in s.buffers && Records(s, t, id, a, h)
    ensures t.buffers[id].sent == a && t.buffers[id].delivered == h
  {
  }
}
