/** What each service does to the partition, said without its step: who waits where and until when, who is
    served, and that nothing else changes. */
module Effects {
  import opened Apex
  import opened Sequences
  import opened Services
  import opened Invariant
  import opened Protocol
  import opened Exact
  import opened Priorities

  // ---------------------------------------------------------------- what does not change

  /** Only the records of `ps` and the queues `qs` differ, and objects, the list and the yield may. */
  ghost predicate Confined(s: State, t: State, ps: set<Pid>, qs: set<QueueId>) {
    && t.procs.Keys == s.procs.Keys
    && (forall r :: r !in ps ==> t.At(r) == s.At(r))
    && (forall q :: q !in qs ==> t.Queue(q) == s.Queue(q))
    && t.current == s.current && t.now == s.now
  }

  /** The list and LOCK_LEVEL stay. */
  predicate Steady(s: State, t: State) {
    t.order == s.order && t.lockLevel == s.lockLevel
  }

  /** `b` is `a` without one occurrence of `x`. */
  ghost predicate Without(a: seq<Pid>, b: seq<Pid>, x: Pid) {
    exists i :: WithoutAt(a, b, x, i)
  }

  ghost predicate WithoutAt(a: seq<Pid>, b: seq<Pid>, x: Pid, i: int) {
    0 <= i < |a| && a[i] == x && b == a[..i] + a[i + 1..]
  }

  lemma {:induction false} RemoveIs(a: seq<Pid>, x: Pid)
    requires x in a
    ensures Without(a, Remove(a, x), x)
  {
    if a[0] == x {
      assert WithoutAt(a, Remove(a, x), x, 0);
    } else {
      RemoveIs(a[1..], x);
      var i :| WithoutAt(a[1..], Remove(a[1..], x), x, i);
      WithoutNext(a, Remove(a[1..], x), x, i);
    }
  }

  lemma {:induction false} WithoutNext(a: seq<Pid>, b: seq<Pid>, x: Pid, i: int)
    requires a != [] && WithoutAt(a[1..], b, x, i)
    ensures WithoutAt(a, [a[0]] + b, x, i + 1)
  {
    assert a[1..][i + 1..] == a[i + 2..] && [a[0]] + a[1..][..i] == a[..i + 1];
  }

  /** `x` moves to the head of the list, or to its end; the others keep their order. */
  ghost predicate ToFront(a: seq<Pid>, b: seq<Pid>, x: Pid) {
    b != [] && b[0] == x && Without(a, b[1..], x)
  }

  ghost predicate ToBack(a: seq<Pid>, b: seq<Pid>, x: Pid) {
    b != [] && b[|b| - 1] == x && Without(a, b[..|b| - 1], x)
  }

  lemma {:induction false} MovedIs(a: seq<Pid>, x: Pid)
    requires x in a
    ensures ToFront(a, [x] + Remove(a, x), x) && ToBack(a, Remove(a, x) + [x], x)
  {
    RemoveIs(a, x);
    assert ([x] + Remove(a, x))[1..] == Remove(a, x);
    assert (Remove(a, x) + [x])[..|Remove(a, x)|] == Remove(a, x);
  }

  // ---------------------------------------------------------------- waiting and being served

  /** `p` joined the line `a`: at its end in a FIFO line; in a PRIORITY line behind everybody at least as urgent
      and before the first one that is less urgent. */
  ghost predicate Lined(s: State, a: seq<Pid>, b: seq<Pid>, p: Pid, d: Discipline) {
    if d == Fifo then b == a + [p] else exists i :: LinedAt(s, a, b, p, i)
  }

  ghost predicate LinedAt(s: State, a: seq<Pid>, b: seq<Pid>, p: Pid, i: int) {
    && 0 <= i <= |a| && b == a[..i] + [p] + a[i..]
    && (forall j :: 0 <= j < i ==> s.At(a[j]).priority >= s.At(p).priority)
    && (i < |a| ==> s.At(a[i]).priority < s.At(p).priority)
  }

  lemma {:induction false} InsertedAt(procs: map<Pid, Proc>, q: seq<Pid>, p: Pid, n: int, i: int)
    requires 0 <= i <= |q|
    requires forall j :: 0 <= j < i ==> (if q[j] in procs then procs[q[j]] else NO_PROC).priority >= n
    requires i < |q| ==> (if q[i] in procs then procs[q[i]] else NO_PROC).priority < n
    ensures InsertByPriority(procs, q, p, n) == q[..i] + [p] + q[i..]
  {
    if i > 0 {
      InsertedAt(procs, q[1..], p, n, i - 1);
      assert q[..i] == [q[0]] + q[1..][..i - 1] && q[1..][i - 1..] == q[i..];
    }
  }

  /** How many of the line are at least as urgent, from its head on. */
  lemma {:induction false} PlaceInLine(s: State, a: seq<Pid>, n: int) returns (i: int)
    ensures 0 <= i <= |a| && (forall j :: 0 <= j < i ==> s.At(a[j]).priority >= n)
    ensures i < |a| ==> s.At(a[i]).priority < n
  {
    i := 0;
    while i < |a| && s.At(a[i]).priority >= n
      invariant 0 <= i <= |a| && (forall j :: 0 <= j < i ==> s.At(a[j]).priority >= n)
    {
      i := i + 1;
    }
  }

  lemma {:induction false} EnqueuedIs(s: State, q: QueueId, p: Pid, d: Discipline)
    ensures Lined(s, s.Queue(q), Enqueued(s, q, p, d), p, d)
  {
    if d == ByPriority {
      var i := PlaceInLine(s, s.Queue(q), s.At(p).priority);
      InsertedAt(s.procs, s.Queue(q), p, s.At(p).priority, i);
      assert LinedAt(s, s.Queue(q), Enqueued(s, q, p, d), p, i);
    }
  }

  /** `p` waits in the queue `q` in its place, until `timeout` from now or for ever; `record` tells whether it
      points at the object. Its message may be `m`; nothing else of the processes and queues changed. */
  ghost predicate JoinsQueue(
    s: State, t: State, p: Pid, q: QueueId, d: Discipline, record: bool, timeout: int, m: Message)
  {
    var x, y := s.At(p), t.At(p);
    && Lined(s, s.Queue(q), t.Queue(q), p, d)
    && y == x.(state := Waiting, timer := y.timer, waitingOn := y.waitingOn, message := m)
    && y.timer == (if timeout == -1 then x.timer else s.now + timeout)
    && (forall k :: y.waitingOn.Get(k) == if record && k == q.obj.kind then Some(q.obj.id) else x.waitingOn.Get(k))
    && Confined(s, t, {p}, {q}) && Steady(s, t) && t.yielded
  }

  lemma {:induction false} BlockIs(s: State, q: QueueId, p: Pid, d: Discipline, record: bool, timeout: int)
    requires p in s.procs
    ensures JoinsQueue(s, Block(s, q, p, d, record, timeout), p, q, d, record, timeout, s.At(p).message)
  {
    EnqueuedIs(s, q, p, d);
  }

  /** A waiter became READY: its pointer is cleared and a running time-out cancelled. */
  ghost predicate Served(x: Proc, y: Proc, k: Kind) {
    && y == x.(state := Ready, timer := y.timer, waitingOn := y.waitingOn)
    && y.timer == (if x.timer == 0 then 0 else -1)
    && (forall j :: y.waitingOn.Get(j) == if j == k then None else x.waitingOn.Get(j))
  }

  lemma {:induction false} WokenIs(x: Proc, k: Kind)
    ensures Served(x, Woken(x, k), k)
  {
  }

  /** The first waiter of `q` is served and the others move up. */
  lemma {:induction false} WakeIs(s: State, q: QueueId)
    requires s.Queue(q) != [] && s.Queue(q)[0] in s.procs
    ensures var t, w := Wake(s, q), s.Queue(q)[0];
            && Served(s.At(w), t.At(w), q.obj.kind) && t.Queue(q) == s.Queue(q)[1..]
            && Confined(s, t, {w}, {q}) && Steady(s, t) && t.objects == s.objects && t.yielded == s.yielded
  {
    WokenIs(s.At(s.Queue(q)[0]), q.obj.kind);
  }

  // ---------------------------------------------------------------- mutexes

  /** Only the mutex `id` differs. */
  predicate OneMutex(s: State, t: State, id: int, m: Mutex) {
    t.objects == s.objects.(mutexes := s.mutexes[id := m])
  }

  /** NO_ERROR: the caller holds the mutex once more; a first time it moves to the head of the list at the
      ceiling, and its priority is saved. Parked: somebody else holds it and the caller waits for it. Any other
      code: nothing happened. */
  ghost predicate Acquired(s: State, t: State, code: Code, id: int, timeout: int, p: Pid) {
    var m := s.MutexAt(id);
    match code
    case NoError => if m.owned then Nested(s, t, id, p, m) else Granted(s, t, id, p, m)
    case Parked =>
      && m.owned && m.owner != p && t.At(p).owned.None? && t.objects == s.objects
      && JoinsQueue(s, t, p, Waiters(Obj(MutexKind, id)), m.discipline, true, timeout, s.At(p).message)
    case _ => t == s
  }

  ghost predicate Granted(s: State, t: State, id: int, p: Pid, m: Mutex) {
    && OneMutex(s, t, id, m.(owned := true, owner := p, locks := 1, saved := s.At(p).priority))
    && t.At(p) == s.At(p).(owned := Some(id), priority := m.ceiling) && ToFront(s.order, t.order, p)
    && Confined(s, t, {p}, {}) && t.lockLevel == s.lockLevel && t.yielded == s.yielded
  }

  ghost predicate Nested(s: State, t: State, id: int, p: Pid, m: Mutex) {
    && m.owner == p && s.At(p).owned == Some(id) && OneMutex(s, t, id, m.(locks := m.locks + 1))
    && Confined(s, t, {}, {}) && Steady(s, t) && t.yielded == s.yielded
  }

  lemma {:induction false} AcquireEffect(s: State, id: int, timeout: int, p: Pid)
    requires Inv(s) && s.current == Some(p) && !s.yielded
    ensures var r := KernelAcquire(s, id, timeout); Acquired(s, r.0, r.1, id, timeout, p)
  {
    var r := KernelAcquire(s, id, timeout);
    if r.1 == Parked {
      AcquireParks(s, id, timeout, p);
    } else if r.1 == NoError && !s.mutexes[id].owned {
      GrantIs(s, id, p);
    } else if r.1 != NoError {
      assert r.0 == s;
    }
  }

  lemma {:induction false} AcquireParks(s: State, id: int, timeout: int, p: Pid)
    requires Inv(s) && s.current == Some(p) && KernelAcquire(s, id, timeout).1 == Parked
    ensures Acquired(s, KernelAcquire(s, id, timeout).0, Parked, id, timeout, p)
  {
    BlockIs(s, Waiters(Obj(MutexKind, id)), p, s.mutexes[id].discipline, true, timeout);
  }

  lemma {:induction false} GrantIs(s: State, id: int, p: Pid)
    requires id in s.mutexes && p in s.procs && p in s.order && s.mutexes[id].locks == 0
    ensures Granted(s, Grant(s, id, p), id, p, s.mutexes[id])
  {
    MovedIs(s.order, p);
  }

  /** The mutex left `p`, which moved to the head of the list: it is AVAILABLE if nobody waited, and otherwise
      belongs to the process that waited first, served, at the ceiling and at the head of the list. */
  ghost predicate PassedOn(s: State, t: State, id: int, p: Pid) {
    var m, q := s.MutexAt(id), Waiters(Obj(MutexKind, id));
    && t.yielded && t.At(p).owned.None? && t.At(p).priority == m.saved
    && if s.Queue(q) == [] then
         && OneMutex(s, t, id, m.(owned := false, owner := 0, locks := 0))
         && ToFront(s.order, t.order, p) && Confined(s, t, {p}, {})
       else
         var w := s.Queue(q)[0];
         && OneMutex(s, t, id, m.(owned := true, owner := w, locks := 1, saved := s.At(w).priority))
         && Served(s.At(w).(owned := Some(id), priority := m.ceiling), t.At(w), MutexKind)
         && t.Queue(q) == s.Queue(q)[1..] && Confined(s, t, {p, w}, {q})
         && exists mid :: ToFront(s.order, mid, p) && ToFront(mid, t.order, w)
  }

  lemma {:induction false} SurrenderPasses(s: State, id: int, p: Pid)
    requires Inv(s) && p in s.procs && s.procs[p].owned == Some(id)
    ensures var t := Surrender(s, id, p).(yielded := true);
            && PassedOn(s, t, id, p) && t.lockLevel == s.lockLevel
            && t.At(p) == s.At(p).(owned := None, priority := s.MutexAt(id).saved)
            && t.At(p).priority == Nominal(s, p)
  {
    var q, t := Waiters(Obj(MutexKind, id)), Free(s, id, p);
    FreeIs(s, id, p);
    assert t.Queue(q) == s.Queue(q);
    if s.Queue(q) != [] {
      WaiterIsAnother(s, id, p);
      MoveFrontMembers(s.order, p);
      HandOffIs(t, id);
      HandedOver(s, t, HandOff(t, id), id, p);
    }
  }

  lemma {:induction false} WaiterIsAnother(s: State, id: int, p: Pid)
    requires Inv(s) && p in s.procs && s.procs[p].owned == Some(id) && s.Queue(Waiters(Obj(MutexKind, id))) != []
    ensures var w := s.Queue(Waiters(Obj(MutexKind, id)))[0]; w != p && w in s.procs && w in s.order
  {
    var q := Waiters(Obj(MutexKind, id));
    assert s.Queue(q)[0] in s.Queue(q);
  }

  lemma {:induction false} FreeIs(s: State, id: int, p: Pid)
    requires id in s.mutexes && p in s.procs && p in s.order
    ensures var t := Free(s, id, p);
            && OneMutex(s, t, id, s.mutexes[id].(owned := false, owner := 0, locks := 0))
            && ToFront(s.order, t.order, p) && Confined(s, t, {p}, {}) && t.lockLevel == s.lockLevel
            && t.At(p) == s.At(p).(owned := None, priority := s.mutexes[id].saved)
  {
    MovedIs(s.order, p);
  }

  /** The first waiter gets the mutex. */
  ghost predicate Handed(s: State, t: State, id: int, m: Mutex)
    requires s.Queue(Waiters(Obj(MutexKind, id))) != []
  {
    var q := Waiters(Obj(MutexKind, id));
    var w := s.Queue(q)[0];
    && OneMutex(s, t, id, m.(owned := true, owner := w, locks := 1, saved := s.At(w).priority))
    && Served(s.At(w).(owned := Some(id), priority := m.ceiling), t.At(w), MutexKind)
    && t.Queue(q) == s.Queue(q)[1..] && Confined(s, t, {w}, {q}) && ToFront(s.order, t.order, w)
    && t.lockLevel == s.lockLevel
  }

  lemma {:induction false} HandOffIs(s: State, id: int)
    requires var q := Waiters(Obj(MutexKind, id));
             s.Queue(q) != [] && s.Queue(q)[0] in s.procs && s.Queue(q)[0] in s.order
    requires id in s.mutexes && s.mutexes[id].locks == 0
    ensures Handed(s, HandOff(s, id), id, s.mutexes[id])
  {
    var q := Waiters(Obj(MutexKind, id));
    WakeIs(s, q);
    GrantIs(Wake(s, q), id, s.Queue(q)[0]);
  }

  lemma {:induction false} HandedOver(s: State, t: State, u: State, id: int, p: Pid)
    requires var q, m := Waiters(Obj(MutexKind, id)), s.MutexAt(id);
             var free := m.(owned := false, owner := 0, locks := 0);
             && s.Queue(q) != [] && s.Queue(q)[0] != p && id in s.mutexes
             && OneMutex(s, t, id, free) && ToFront(s.order, t.order, p) && Confined(s, t, {p}, {})
             && t.At(p).owned.None? && t.At(p).priority == m.saved
             && t.Queue(q) == s.Queue(q) && Handed(t, u, id, free)
    ensures PassedOn(s, u.(yielded := true), id, p) && u.At(p) == t.At(p)
  {
    var w, v := s.Queue(Waiters(Obj(MutexKind, id)))[0], u.(yielded := true);
    assert ToFront(s.order, t.order, p) && ToFront(t.order, v.order, w);
    assert forall k :: v.Queue(k) == u.Queue(k);
  }

  /** NO_ERROR: one lock less, and the mutex passed on with the last one. */
  ghost predicate GaveBack(s: State, t: State, code: Code, id: int, p: Pid) {
    var m := s.MutexAt(id);
    if code != NoError then t == s
    else if m.locks == 1 then
      && PassedOn(s, t, id, p) && t.lockLevel == s.lockLevel
      && t.At(p) == s.At(p).(owned := None, priority := Nominal(s, p))
    else
      && OneMutex(s, t, id, m.(locks := m.locks - 1)) && Confined(s, t, {}, {}) && Steady(s, t)
      && t.yielded == s.yielded
  }

  lemma {:induction false} ReleaseEffect(s: State, id: int, p: Pid)
    requires Inv(s) && s.current == Some(p)
    ensures var r := KernelRelease(s, id); GaveBack(s, r.0, r.1, id, p)
  {
    var r := KernelRelease(s, id);
    if r.1 == NoError && s.MutexAt(id).locks == 1 {
      SurrenderPasses(s, id, p);
    }
  }

  ghost predicate ResetMeans(s: State, t: State, code: Code, id: int, target: Pid) {
    if code == NoError then
      && PassedOn(s, t, id, target) && t.lockLevel == s.lockLevel
      && t.At(target) == s.At(target).(owned := None, priority := Nominal(s, target))
    else t == s
  }

  lemma {:induction false} ResetEffect(s: State, id: int, target: Pid)
    requires Inv(s) && s.current.Some?
    ensures var r := ResetMutex(s, id, target); ResetMeans(s, r.0, r.1, id, target)
  {
    if ResetMutex(s, id, target).1 == NoError {
      SurrenderPasses(s, id, target);
    }
  }

  /** As for any mutex; unless the caller waits, LOCK_LEVEL is then the lock count. */
  ghost predicate LockMeans(s: State, t: State, code: Code, p: Pid) {
    && Acquired(s, t.(lockLevel := s.lockLevel), code, 1, -1, p)
    && (code == Parked || 1 !in s.mutexes ==> t.lockLevel == s.lockLevel)
    && (code != Parked && 1 in s.mutexes ==> t.lockLevel == t.MutexAt(1).locks)
  }

  lemma {:induction false} LockEffect(s: State, p: Pid)
    requires Inv(s) && s.current == Some(p) && !s.yielded
    ensures var r := LockPreemption(s); LockMeans(s, r.0, r.1, p)
  {
    AcquireEffect(s, PREEMPTION_LOCK, INFINITE, p);
  }

  /** As for any mutex; the last unlock yields before it refreshes LOCK_LEVEL. */
  ghost predicate UnlockMeans(s: State, t: State, code: Code, p: Pid) {
    && GaveBack(s, t.(lockLevel := s.lockLevel), code, 1, p)
    && t.lockLevel == if code == NoError && !t.yielded then t.MutexAt(1).locks else s.lockLevel
  }

  lemma {:induction false} UnlockEffect(s: State, p: Pid)
    requires Inv(s) && s.current == Some(p) && !s.yielded
    ensures var r := UnlockPreemption(s); UnlockMeans(s, r.0, r.1, p)
  {
    ReleaseEffect(s, PREEMPTION_LOCK, p);
  }

  // ---------------------------------------------------------------- processes

  /** NO_ERROR: the target's nominal priority is the one given, kept in the mutex it owns or in its record; a
      target that can run moves to the end of the list, and the caller yields. */
  ghost predicate SetPriorityMeans(s: State, t: State, code: Code, target: Pid, n: int) {
    var x := s.At(target);
    if code != NoError then t == s
    else
      && Nominal(t, target) == n && (forall p :: p in s.procs && p != target ==> Nominal(t, p) == Nominal(s, p))
      && (match x.owned
          case None => t.objects == s.objects && t.At(target) == x.(priority := n)
          case Some(id) => OneMutex(s, t, id, s.MutexAt(id).(saved := n)) && t.At(target) == x)
      && (if Alive(x) then ToBack(s.order, t.order, target) && t.yielded
          else t.order == s.order && t.yielded == s.yielded)
      && Confined(s, t, {target}, {}) && t.lockLevel == s.lockLevel
  }

  lemma {:induction false} SetPriorityEffect(s: State, target: Pid, n: int)
    requires Inv(s) && s.current.Some?
    ensures var r := SetPriority(s, target, n); SetPriorityMeans(s, r.0, r.1, target, n)
  {
    if SetPriority(s, target, n).1 == NoError {
      SetPriorityNominal(s, target, n);
      MovedIs(s.order, target);
    }
  }

  /** The record of `p` became `x`; the caller yields or goes on. */
  ghost predicate OneRecord(s: State, t: State, p: Pid, x: Proc, leaves: bool) {
    && t.At(p) == x && t.objects == s.objects && Confined(s, t, {p}, {}) && Steady(s, t)
    && t.yielded == (s.yielded || leaves)
  }

  /** Parked: the caller sleeps until `timeout` from now, or for ever. */
  ghost predicate SuspendSelfMeans(s: State, t: State, code: Code, timeout: int, p: Pid) {
    var x := s.At(p);
    if code == Parked
    then OneRecord(s, t, p, x.(state := Waiting, suspended := true,
                               timer := if timeout == -1 then x.timer else s.now + timeout), true)
    else t == s
  }

  lemma {:induction false} SuspendSelfEffect(s: State, timeout: int, p: Pid)
    requires Inv(s) && s.current == Some(p) && !s.yielded
    ensures var r := SuspendSelf(s, timeout); SuspendSelfMeans(s, r.0, r.1, timeout, p)
  {
  }

  ghost predicate SuspendMeans(s: State, t: State, code: Code, target: Pid) {
    if code == NoError then OneRecord(s, t, target, s.At(target).(state := Waiting, suspended := true), false)
    else t == s
  }

  lemma {:induction false} SuspendEffect(s: State, target: Pid)
    requires Inv(s) && s.current.Some?
    ensures var r := Suspend(s, target); SuspendMeans(s, r.0, r.1, target)
  {
  }

  /** NO_ERROR: the target is READY; the time-out of a suspended one is cleared. */
  ghost predicate ResumeMeans(s: State, t: State, code: Code, target: Pid) {
    var x := s.At(target);
    if code == NoError
    then OneRecord(s, t, target, x.(state := Ready, suspended := false,
                                    timer := if x.suspended then 0 else x.timer), true)
    else t == s
  }

  lemma {:induction false} ResumeEffect(s: State, target: Pid)
    requires Inv(s) && s.current.Some?
    ensures var r := Resume(s, target); ResumeMeans(s, r.0, r.1, target)
  {
    var x := s.At(target);
    if Resume(s, target).1 == NoError && !x.suspended {
      AliveNotQueued(s, target);
    }
  }

  /** A process that ended. */
  ghost predicate Ended(x: Proc, y: Proc) {
    y == x.(state := Dormant, timer := 0, suspended := false, deadline := -1)
  }

  /** The caller is DORMANT and owns nothing; a mutex it owned passed on, with the preemption lock LOCK_LEVEL
      goes to zero. */
  ghost predicate StopSelfMeans(s: State, t: State, p: Pid) {
    var x := s.At(p);
    match x.owned
    case None => Ended(x, t.At(p)) && t.objects == s.objects && Confined(s, t, {p}, {}) && Steady(s, t) && t.yielded
    case Some(id) =>
      && PassedOn(s, t, id, p) && Ended(x.(owned := None, priority := Nominal(s, p)), t.At(p))
      && t.lockLevel == if id == 1 then 0 else s.lockLevel
  }

  lemma {:induction false} StopSelfEffect(s: State, p: Pid)
    requires Inv(s) && s.current == Some(p) && !s.yielded
    ensures StopSelfMeans(s, StopSelf(s), p)
  {
    var x := s.At(p).(deadline := INFINITE);
    var u := s.With(p, x);
    EndDeadlineInv(s, p);
    AliveNotQueued(s, p);
    if x.owned.Some? {
      var id := x.owned.value;
      var v := if id == PREEMPTION_LOCK then u.(lockLevel := 0) else u;
      LockLevelInv(u, 0);
      SurrenderPasses(v, id, p);
      EndPasses(s, v, Surrender(v, id, p).(yielded := true), id, p);
    }
  }

  lemma {:induction false} EndPasses(s: State, v: State, u: State, id: int, p: Pid)
    requires PassedOn(v, u, id, p) && v == s.With(p, v.At(p)).(lockLevel := v.lockLevel)
    requires v.At(p) == s.At(p).(deadline := INFINITE) && p in s.procs && !Queued(s, p)
    ensures PassedOn(s, u.With(p, u.At(p).(state := Dormant, timer := 0, suspended := false)), id, p)
  {
    var q := Waiters(Obj(MutexKind, id));
    var t := u.With(p, u.At(p).(state := Dormant, timer := 0, suspended := false));
    assert forall k :: v.Queue(k) == s.Queue(k) && t.Queue(k) == u.Queue(k);
    if s.Queue(q) != [] {
      assert s.Queue(q)[0] in s.Queue(q);
      var mid :| ToFront(v.order, mid, p) && ToFront(mid, u.order, s.Queue(q)[0]);
      assert ToFront(s.order, mid, p) && ToFront(mid, t.order, s.Queue(q)[0]);
    }
  }

  /** Any code but INVALID_PARAM and NO_ACTION: the target is DORMANT; if it stood in a queue and pointed at the
      object it left that queue, the others keeping their order, and a blocked sender's message went with it. */
  ghost predicate StopMeans(s: State, t: State, code: Code, target: Pid) {
    if code == InvalidParam || code == NoAction then t == s
    else
      && t.yielded && Steady(s, t) && Ended(s.At(target).(waitingOn := NO_POINTERS), t.At(target))
      && (!Queued(s, target) || s.At(target).waitingOn == NO_POINTERS ==>
            Confined(s, t, {target}, {}) && t.objects == s.objects)
      && (forall q :: target in s.Queue(q) && Points(s, target, q.obj) ==> Left(s, t, target, q))
  }

  ghost predicate Left(s: State, t: State, p: Pid, q: QueueId) {
    && Without(s.Queue(q), t.Queue(q), p) && Confined(s, t, {p}, {q})
    && t.objects == if q.Writers? then s.objects.(buffers := Withdrawn(s.buffers, q.obj.id, s.At(p).message))
                    else s.objects
  }

  function Withdrawn(buffers: map<int, Buffer>, id: int, m: Message): map<int, Buffer> {
    if id in buffers then buffers[id := buffers[id].(withdrawn := buffers[id].withdrawn + multiset{m})] else buffers
  }

  lemma {:induction false} StopEffect(s: State, target: Pid)
    requires Inv(s) && s.current.Some?
    ensures var r := Stop(s, target); StopMeans(s, r.0, r.1, target)
  {
    var r := Stop(s, target);
    if r.1 == NoError || r.1 == InvalidMode {
      if Queued(s, target) && s.At(target).waitingOn != NO_POINTERS {
        StopLeaves(s, target);
      } else {
        if !Queued(s, target) {
          NotQueuedNoPointer(s, target);
        }
        LeaveNothing(s, target);
        StopIs(s, target, s);
        StopsOutright(s, target);
      }
    }
  }

  lemma {:induction false} NotQueuedNoPointer(s: State, p: Pid)
    requires PointerOk(s) && p in s.procs && !Queued(s, p)
    ensures s.procs[p].waitingOn == NO_POINTERS
  {
    var w := s.procs[p].waitingOn;
    forall k ensures w.Get(k).None? {
      if w.Get(k).Some? {
        assert Points(s, p, Obj(k, w.Get(k).value));
      }
    }
    NoneSet(w);
  }

  lemma {:induction false} StopsOutright(s: State, p: Pid)
    requires p in s.procs && s.At(p).waitingOn == NO_POINTERS
    requires s.current.Some? && Stop(s, p).0 == s.With(p, Killed(s.At(p))).(yielded := true)
    ensures var t := Stop(s, p).0;
            && t.yielded && Steady(s, t) && Ended(s.At(p).(waitingOn := NO_POINTERS), t.At(p))
            && Confined(s, t, {p}, {}) && t.objects == s.objects
    ensures forall o :: !Points(s, p, o)
  {
  }

  lemma {:induction false} StopLeaves(s: State, p: Pid)
    requires Inv(s) && s.current.Some? && s.current != Some(p) && p in s.order && s.At(p).state != Dormant
    requires Queued(s, p) && s.At(p).waitingOn != NO_POINTERS
    ensures StopMeans(s, Stop(s, p).0, NoError, p)
  {
    var q :| p in s.Queue(q);
    PointsThere(s, p, q);
    OnePointer(s, p, q);
    assert Unavailable(s, q);
    LeaveOne(s, p, q);
    StopIs(s, p, Departed(s, p, q));
    DepartedIs(s, p, q);
  }

  lemma {:induction false} PointsThere(s: State, p: Pid, q: QueueId)
    requires QueueOk(s) && PointerOk(s) && p in s.Queue(q) && s.At(p).waitingOn != NO_POINTERS
    ensures Points(s, p, q.obj)
  {
    if forall k :: s.At(p).waitingOn.Get(k).None? {
      NoneSet(s.At(p).waitingOn);
    }
    var k :| s.At(p).waitingOn.Get(k).Some?;
    assert Points(s, p, Obj(k, s.At(p).waitingOn.Get(k).value));
  }

  lemma {:induction false} DepartedIs(s: State, p: Pid, q: QueueId)
    requires Inv(s) && p in s.Queue(q) && s.At(p).waitingOn == NO_POINTERS.Set(q.obj.kind, Some(q.obj.id))
    ensures var u := Departed(s, p, q);
            var t := u.With(p, Killed(u.At(p))).(yielded := true);
            && Steady(s, t) && Ended(s.At(p).(waitingOn := NO_POINTERS), t.At(p)) && Left(s, t, p, q)
            && (forall k :: p in s.Queue(k) ==> k == q)
  {
    RemoveIs(s.Queue(q), p);
    assert s.At(p).waitingOn.Set(q.obj.kind, None) == NO_POINTERS;
  }

  /** NO_ERROR: the target runs at its base priority from now on, or waits for `first`, with its deadline. */
  ghost predicate StartMeans(s: State, t: State, code: Code, target: Pid, first: int) {
    var x := s.At(target).(priority := s.At(target).base);
    if code != NoError then t == s
    else if x.period == -1
    then OneRecord(s, t, target, x.(state := Ready,
                                    deadline := if x.capacity == -1 then -1 else s.now + x.capacity), true)
    else OneRecord(s, t, target, x.(state := Waiting, release := first,
                                    deadline := if x.capacity == -1 then -1 else first + x.capacity), false)
  }

  lemma {:induction false} StartEffect(s: State, target: Pid, first: int)
    requires Inv(s) && s.current.Some?
    ensures var r := Start(s, target, first); StartMeans(s, r.0, r.1, target, first)
  {
  }

  // ---------------------------------------------------------------- time

  /** NO_ERROR: the caller waits until `delay` from now; with no delay it goes to the end of the list, READY. */
  ghost predicate TimedWaitMeans(s: State, t: State, code: Code, delay: int, p: Pid) {
    var x := s.At(p);
    if code != NoError then t == s
    else if delay == 0 then
      && t.At(p) == x.(state := Ready) && ToBack(s.order, t.order, p) && t.yielded && t.objects == s.objects
      && Confined(s, t, {p}, {}) && t.lockLevel == s.lockLevel
    else OneRecord(s, t, p, x.(state := Waiting, timer := s.now + delay), true)
  }

  lemma {:induction false} TimedWaitEffect(s: State, delay: int, p: Pid)
    requires Inv(s) && s.current == Some(p) && !s.yielded
    ensures var r := TimedWait(s, delay); TimedWaitMeans(s, r.0, r.1, delay, p)
  {
    MovedIs(s.order, p);
  }

  /** NO_ERROR: the caller waits for its last release point plus one period, with the deadline from there. */
  ghost predicate PeriodicWaitMeans(s: State, t: State, code: Code, p: Pid) {
    var x := s.At(p);
    var next := x.release + x.period;
    if code != NoError then t == s
    else OneRecord(s, t, p, x.(state := Waiting, release := next,
                               deadline := if x.capacity == -1 then -1 else next + x.capacity), true)
  }

  lemma {:induction false} PeriodicWaitEffect(s: State, p: Pid)
    requires Inv(s) && s.current == Some(p) && !s.yielded
    ensures var r := PeriodicWait(s); PeriodicWaitMeans(s, r.0, r.1, p)
  {
  }

  /** What a clock update does to one process: past its release point, or the start of a delayed one, a waiting
      process is READY; past its time-out any process is READY, no longer suspended, and the counter zero. */
  ghost predicate Updated(x: Proc, y: Proc, now: int) {
    var released := x.state == Waiting && (x.period != -1 || x.initDelay != 0) && x.release <= now;
    var expired := x.timer != 0 && x.timer != -1 && x.timer <= now;
    && y.state == (if released || expired then Ready else x.state)
    && y.timer == (if expired then 0 else x.timer) && y.suspended == (x.suspended && !expired)
    && (y.release, y.initDelay) == (if released && x.period == -1 then (0, 0) else (x.release, x.initDelay))
    && y == x.(state := y.state, timer := y.timer, suspended := y.suspended, release := y.release,
               initDelay := y.initDelay)
  }

  lemma {:induction false} TickEffect(s: State, now: int)
    ensures var t := Tick(s, now);
            && t.now == now && t.procs.Keys == s.procs.Keys
            && (forall p :: p in s.procs ==> Updated(s.procs[p], t.procs[p], now))
            && t == s.(procs := t.procs, now := now)
  {
  }

  // ---------------------------------------------------------------- communication

  /** Only the objects differ. */
  predicate OnlyObjects(s: State, t: State, objects: Objects) {
    t == s.(objects := objects)
  }

  /** NO_ERROR: the caller took one unit. Parked: it waits for one. */
  ghost predicate WaitSemaphoreMeans(s: State, t: State, code: Code, id: int, timeout: int, p: Pid) {
    match code
    case NoError =>
      && id in s.semaphores
      && var m := s.semaphores[id];
         OnlyObjects(s, t, s.objects.(semaphores :=
                       s.semaphores[id := m.(value := m.value - 1, grants := m.grants + 1)]))
    case Parked =>
      && id in s.semaphores && t.objects == s.objects
      && JoinsQueue(s, t, p, Waiters(Obj(SemaphoreKind, id)), s.semaphores[id].discipline, timeout != -1, timeout,
                    s.At(p).message)
    case _ => t == s
  }

  lemma {:induction false} WaitSemaphoreEffect(s: State, id: int, timeout: int, p: Pid)
    requires Inv(s) && s.current == Some(p) && !s.yielded
    ensures var r := WaitSemaphore(s, id, timeout); WaitSemaphoreMeans(s, r.0, r.1, id, timeout, p)
  {
    var r := WaitSemaphore(s, id, timeout);
    if r.1 == Parked {
      BlockIs(s, Waiters(Obj(SemaphoreKind, id)), p, s.semaphores[id].discipline, timeout != INFINITE, timeout);
    }
  }

  /** NO_ERROR: the unit goes to the process that waited first, or is kept if nobody waited. */
  ghost predicate SignalSemaphoreMeans(s: State, t: State, code: Code, id: int) {
    var q := Waiters(Obj(SemaphoreKind, id));
    if code != NoError then t == s
    else
      && id in s.semaphores
      && var m := s.semaphores[id];
         if s.Queue(q) == []
         then OnlyObjects(s, t, s.objects.(semaphores :=
                            s.semaphores[id := m.(value := m.value + 1, signals := m.signals + 1)]))
         else Passes(s, t, q, s.At(s.Queue(q)[0]).message, s.objects.(semaphores :=
                       s.semaphores[id := m.(signals := m.signals + 1, grants := m.grants + 1)]))
  }

  /** The first waiter of `q` is served with the message `m`, the objects become `objects`, and the caller yields. */
  ghost predicate Passes(s: State, t: State, q: QueueId, m: Message, objects: Objects)
    requires s.Queue(q) != []
  {
    var w := s.Queue(q)[0];
    && Served(s.At(w).(message := m), t.At(w), q.obj.kind) && t.Queue(q) == s.Queue(q)[1..] && t.objects == objects
    && Confined(s, t, {w}, {q}) && Steady(s, t) && t.yielded
  }

  lemma {:induction false} SignalSemaphoreEffect(s: State, id: int)
    requires Inv(s) && s.current.Some?
    ensures var r := SignalSemaphore(s, id); SignalSemaphoreMeans(s, r.0, r.1, id)
  {
    var q := Waiters(Obj(SemaphoreKind, id));
    if s.Queue(q) != [] {
      HeadKnown(s, q);
      WakeIs(s, q);
    }
  }

  lemma {:induction false} HeadKnown(s: State, q: QueueId)
    requires QueueOk(s) && s.Queue(q) != []
    ensures s.Queue(q)[0] in s.procs
  {
    var w := s.Queue(q)[0];
    assert w in s.Queue(q);
  }

  /** Everybody in `q` is served. */
  ghost predicate Drains(s: State, t: State, q: QueueId) {
    && t.Queue(q) == [] && (forall p :: p in s.Queue(q) ==> Served(s.At(p), t.At(p), q.obj.kind))
    && Confined(s, t, set p | p in s.Queue(q), {q}) && Steady(s, t)
  }

  lemma {:induction false} Drained(s: State, q: QueueId)
    requires QueueOk(s)
    ensures Drains(s, WakeAll(s, q), q) && WakeAll(s, q).objects == s.objects && WakeAll(s, q).yielded == s.yielded
    decreases |s.Queue(q)|
  {
    if s.Queue(q) != [] {
      var t, w := Wake(s, q), s.Queue(q)[0];
      assert w in s.Queue(q);
      WakeQueueOk(s, q);
      WakeQueues(s, q);
      WakeIs(s, q);
      Drained(t, q);
      DrainsOn(s, t, WakeAll(t, q), q);
    }
  }

  lemma {:induction false} DrainsOn(s: State, t: State, u: State, q: QueueId)
    requires s.Queue(q) != [] && Drains(t, u, q) && Confined(s, t, {s.Queue(q)[0]}, {q}) && Steady(s, t)
    requires var w := s.Queue(q)[0]; Served(s.At(w), t.At(w), q.obj.kind) && w !in t.Queue(q)
    requires forall x :: x in t.Queue(q) <==> x != s.Queue(q)[0] && x in s.Queue(q)
    ensures Drains(s, u, q)
  {
    var w := s.Queue(q)[0];
    assert u.At(w) == t.At(w);
    forall p | p in s.Queue(q) ensures Served(s.At(p), u.At(p), q.obj.kind) {
      assert p != w ==> p in t.Queue(q) && t.At(p) == s.At(p);
    }
  }

  /** NO_ERROR: the event is UP and everybody who waited for it is served; the caller yields if somebody was. */
  ghost predicate SetEventMeans(s: State, t: State, code: Code, id: int) {
    var q := Waiters(Obj(EventKind, id));
    if code != NoError then t == s
    else
      && Drains(s, t, q) && t.objects == s.objects.(events := s.events[id := true])
      && t.yielded == (s.yielded || s.Queue(q) != [])
  }

  lemma {:induction false} SetEventEffect(s: State, id: int)
    requires Inv(s) && s.current.Some?
    ensures var r := SetEvent(s, id); SetEventMeans(s, r.0, r.1, id)
  {
    if id in s.events {
      var t, q := s.PutEvent(id, true), Waiters(Obj(EventKind, id));
      SameWaitsOk(s, t);
      Drained(t, q);
      DrainsFrom(s, t, WakeAll(t, q), q);
    }
  }

  lemma {:induction false} DrainsFrom(s: State, t: State, u: State, q: QueueId)
    requires Drains(t, u, q) && t.procs == s.procs && t.waits == s.waits && Steady(s, t)
    requires t.current == s.current && t.now == s.now
    ensures Drains(s, u, q) && Drains(s, u.(yielded := true), q)
  {
    assert forall k :: t.Queue(k) == s.Queue(k) && u.(yielded := true).Queue(k) == u.Queue(k);
  }

  ghost predicate ResetEventMeans(s: State, t: State, code: Code, id: int) {
    if code == NoError then OnlyObjects(s, t, s.objects.(events := s.events[id := false])) else t == s
  }

  lemma {:induction false} ResetEventEffect(s: State, id: int)
    ensures var r := ResetEvent(s, id); ResetEventMeans(s, r.0, r.1, id)
  {
  }

  /** Parked: the caller waits; without a time-out at the end of the line, with one by its priority. */
  ghost predicate WaitEventMeans(s: State, t: State, code: Code, id: int, timeout: int, p: Pid) {
    if code == Parked then
      && t.objects == s.objects
      && JoinsQueue(s, t, p, Waiters(Obj(EventKind, id)), if timeout == -1 then Fifo else ByPriority, true, timeout,
                    s.At(p).message)
    else t == s
  }

  lemma {:induction false} WaitEventEffect(s: State, id: int, timeout: int, p: Pid)
    requires Inv(s) && s.current == Some(p) && !s.yielded
    ensures var r := WaitEvent(s, id, timeout); WaitEventMeans(s, r.0, r.1, id, timeout, p)
  {
    BlockIs(s, Waiters(Obj(EventKind, id)), p, if timeout == INFINITE then Fifo else ByPriority, true, timeout);
  }

  /** NO_ERROR: the message is on display and everybody who waited is served. */
  ghost predicate DisplayMeans(s: State, t: State, code: Code, id: int, m: Message) {
    var q := Waiters(Obj(BlackboardKind, id));
    if code != NoError then t == s
    else
      && id in s.blackboards && Drains(s, t, q) && t.yielded == (s.yielded || s.Queue(q) != [])
      && t.objects == s.objects.(blackboards :=
           s.blackboards[id := s.blackboards[id].(occupied := true, message := m)])
  }

  lemma {:induction false} DisplayEffect(s: State, id: int, m: Message)
    requires Inv(s) && s.current.Some?
    ensures var r := DisplayBlackboard(s, id, m); DisplayMeans(s, r.0, r.1, id, m)
  {
    if DisplayBlackboard(s, id, m).1 == NoError {
      var t := s.PutBlackboard(id, s.blackboards[id].(occupied := true, message := m));
      var q := Waiters(Obj(BlackboardKind, id));
      SameWaitsOk(s, t);
      Drained(t, q);
      DrainsFrom(s, t, WakeAll(t, q), q);
      NobodyCounted(s, id);
    }
  }

  lemma {:induction false} NobodyCounted(s: State, id: int)
    requires Inv(s)
    ensures s.Count(Obj(BlackboardKind, id)) > 0 <==> s.Queue(Waiters(Obj(BlackboardKind, id))) != []
  {
    assert !Unavailable(s, Writers(Obj(BlackboardKind, id)));
  }

  /** NO_ERROR: the message on display. Parked: the caller waits at the end of the line. */
  ghost predicate ReadMeans(s: State, t: State, code: Code, m: Message, id: int, timeout: int, p: Pid) {
    match code
    case NoError => t == s && id in s.blackboards && m == s.blackboards[id].message
    case Parked =>
      && t.objects == s.objects && m == []
      && JoinsQueue(s, t, p, Waiters(Obj(BlackboardKind, id)), Fifo, timeout != -1, timeout, s.At(p).message)
    case _ => t == s && m == []
  }

  lemma {:induction false} ReadEffect(s: State, id: int, timeout: int, p: Pid)
    requires Inv(s) && s.current == Some(p) && !s.yielded
    ensures var r := ReadBlackboard(s, id, timeout); ReadMeans(s, r.0, r.1, r.2, id, timeout, p)
  {
    BlockIs(s, Waiters(Obj(BlackboardKind, id)), p, Fifo, timeout != INFINITE, timeout);
  }

  ghost predicate ClearMeans(s: State, t: State, code: Code, id: int) {
    if code != NoError then t == s
    else
      && id in s.blackboards
      && OnlyObjects(s, t, s.objects.(blackboards := s.blackboards[id := s.blackboards[id].(occupied := false)]))
  }

  lemma {:induction false} ClearEffect(s: State, id: int)
    ensures var r := ClearBlackboard(s, id); ClearMeans(s, r.0, r.1, id)
  {
  }

  /** NO_ERROR: the message is last in the ring, or in the hands of the reader that waited first.
      Parked: the caller waits with its message. */
  ghost predicate SendMeans(s: State, t: State, code: Code, id: int, m: Message, timeout: int, p: Pid) {
    var q := Waiters(Obj(BufferKind, id));
    if code != NoError && code != Parked then t == s
    else
      && id in s.buffers
      && var b := s.buffers[id];
         var c := b.(sent := b.sent + [m]);
         if code == Parked then
           && t.objects == s.objects.(buffers := s.buffers[id := c])
           && JoinsQueue(s, t, p, Writers(Obj(BufferKind, id)), b.discipline, true, timeout, m)
         else if s.Queue(q) == []
         then OnlyObjects(s, t, s.objects.(buffers := s.buffers[id := c.(ring := b.ring + [m])]))
         else b.ring == []
              && Passes(s, t, q, m, s.objects.(buffers := s.buffers[id := c.(delivered := b.delivered + [m])]))
  }

  lemma {:induction false} SendEffect(s: State, id: int, m: Message, timeout: int, p: Pid)
    requires Inv(s) && s.current == Some(p) && !s.yielded
    ensures var r := SendBuffer(s, id, m, timeout); SendMeans(s, r.0, r.1, id, m, timeout, p)
  {
    var r, o := SendBuffer(s, id, m, timeout), Obj(BufferKind, id);
    if r.1 == Parked {
      SendParks(s, id, m, timeout, p);
    } else if r.1 == NoError && s.Queue(Waiters(o)) != [] {
      SendHands(s, id, m, timeout, p);
    }
  }

  lemma {:induction false} SendHands(s: State, id: int, m: Message, timeout: int, p: Pid)
    requires Inv(s) && s.current == Some(p) && SendBuffer(s, id, m, timeout).1 == NoError
    requires s.Queue(Waiters(Obj(BufferKind, id))) != []
    ensures SendMeans(s, SendBuffer(s, id, m, timeout).0, NoError, id, m, timeout, p)
  {
    var q := Waiters(Obj(BufferKind, id));
    assert Unavailable(s, q);
    HeadKnown(s, q);
    WakeIs(s, q);
    ServedWith(s.At(s.Queue(q)[0]), Wake(s, q).At(s.Queue(q)[0]), q.obj.kind, m);
  }

  lemma {:induction false} ServedWith(x: Proc, y: Proc, k: Kind, m: Message)
    requires Served(x, y, k)
    ensures Served(x.(message := m), y.(message := m), k)
  {
  }

  lemma {:induction false} SendParks(s: State, id: int, m: Message, timeout: int, p: Pid)
    requires s.current == Some(p) && p in s.procs && SendBuffer(s, id, m, timeout).1 == Parked
    ensures SendMeans(s, SendBuffer(s, id, m, timeout).0, Parked, id, m, timeout, p)
  {
    var u, q := s.With(p, s.At(p).(message := m)), Writers(Obj(BufferKind, id));
    assert forall k :: u.Queue(k) == s.Queue(k);
    BlockIs(u, q, p, s.buffers[id].discipline, true, timeout);
    var t := Block(u, q, p, s.buffers[id].discipline, true, timeout);
    LinedFrom(s, u, s.Queue(q), t.Queue(q), p, s.buffers[id].discipline);
  }

  lemma {:induction false} LinedFrom(s: State, u: State, a: seq<Pid>, b: seq<Pid>, p: Pid, d: Discipline)
    requires Lined(u, a, b, p, d) && forall x :: u.At(x).priority == s.At(x).priority
    ensures Lined(s, a, b, p, d)
  {
    if d == ByPriority {
      var i :| LinedAt(u, a, b, p, i);
      assert LinedAt(s, a, b, p, i);
    }
  }

  /** NO_ERROR: the oldest message; the first blocked sender's takes the free place. Parked: the caller waits. */
  ghost predicate ReceiveMeans(s: State, t: State, code: Code, m: Message, id: int, timeout: int, p: Pid) {
    var q := Writers(Obj(BufferKind, id));
    match code
    case NoError =>
      && id in s.buffers && s.buffers[id].ring != [] && m == s.buffers[id].ring[0]
      && var b := s.buffers[id];
         var c := b.(ring := b.ring[1..], delivered := b.delivered + [m]);
         if s.Queue(q) == [] then OnlyObjects(s, t, s.objects.(buffers := s.buffers[id := c]))
         else
           var sent := s.At(s.Queue(q)[0]).message;
           Passes(s, t, q, sent, s.objects.(buffers := s.buffers[id := c.(ring := b.ring[1..] + [sent])]))
    case Parked =>
      && id in s.buffers && t.objects == s.objects && m == []
      && JoinsQueue(s, t, p, Waiters(Obj(BufferKind, id)), s.buffers[id].discipline, true, timeout, s.At(p).message)
    case _ => t == s && m == []
  }

  lemma {:induction false} ReceiveEffect(s: State, id: int, timeout: int, p: Pid)
    requires Inv(s) && s.current == Some(p) && !s.yielded
    ensures var r := ReceiveBuffer(s, id, timeout); ReceiveMeans(s, r.0, r.1, r.2, id, timeout, p)
  {
    var r, o := ReceiveBuffer(s, id, timeout), Obj(BufferKind, id);
    if r.1 == Parked {
      BlockIs(s, Waiters(o), p, s.buffers[id].discipline, true, timeout);
    } else if r.1 == NoError && s.Queue(Writers(o)) != [] {
      HeadKnown(s, Writers(o));
      WakeIs(s, Writers(o));
    }
  }

  // ---------------------------------------------------------------- process_schedule

  /** `p` could run: it is READY, or is the current process and RUNNING. */
  predicate CanRun(s: State, p: Pid) {
    p in s.procs && (s.procs[p].state == Ready || (s.procs[p].state == Running && s.current == Some(p)))
  }

  /** Position `i` of the list holds the first of the most urgent processes that can run. */
  ghost predicate MostUrgent(s: State, i: int) {
    && 0 <= i < |s.order| && CanRun(s, s.order[i]) && 0 <= s.procs[s.order[i]].priority
    && (forall j :: 0 <= j < i && CanRun(s, s.order[j]) ==>
          s.procs[s.order[j]].priority < s.procs[s.order[i]].priority)
    && (forall j :: i < j < |s.order| && CanRun(s, s.order[j]) ==>
          s.procs[s.order[j]].priority <= s.procs[s.order[i]].priority)
  }

  /** That process is RUNNING and current, a RUNNING one it replaces is READY, and nothing else changes; if
      nobody can run nobody is current. */
  ghost predicate Dispatched(s: State, t: State) {
    && (match t.current
        case None => forall p :: p in s.order && CanRun(s, p) ==> s.procs[p].priority < 0
        case Some(c) => exists i :: MostUrgent(s, i) && s.order[i] == c)
    && t.procs.Keys == s.procs.Keys
    && (forall p :: p in s.procs ==>
          t.procs[p] == s.procs[p].(
            state := if t.current == Some(p) then Running
                     else if s.current == Some(p) && s.procs[p].state == Running then Ready
                     else s.procs[p].state))
    && t == s.(procs := t.procs, current := t.current, yielded := false)
  }

  lemma {:induction false} ScheduledFirst(s: State)
    requires OrderOk(s)
    ensures Dispatched(s, Schedule(s))
  {
    var ready, t := Preempted(s).procs, Schedule(s);
    PreemptedCanRun(s);
    SelectFirstBest(ready, s.order);
    if t.current.Some? {
      var i :| FirstBest(ready, s.order, i) && s.order[i] == t.current.value;
      FirstBestIs(s, ready, i);
    }
    SwitchIs(s);
  }

  lemma {:induction false} PreemptedCanRun(s: State)
    ensures var ready := Preempted(s).procs;
            && (forall p :: p in s.procs ==> p in ready && ready[p].priority == s.procs[p].priority)
            && (forall p :: p in s.procs ==> (IsReady(ready, p) <==> CanRun(s, p)))
  {
  }

  lemma {:induction false} FirstBestIs(s: State, ready: map<Pid, Proc>, i: int)
    requires FirstBest(ready, s.order, i) && forall p :: p in s.order ==> p in s.procs && p in ready
    requires forall p :: p in s.procs ==> p in ready && ready[p].priority == s.procs[p].priority
    requires forall p :: p in s.procs ==> (IsReady(ready, p) <==> CanRun(s, p))
    ensures MostUrgent(s, i)
  {
  }

  lemma {:induction false} SwitchIs(s: State)
    requires OrderOk(s) && (Schedule(s).current.Some? ==> Schedule(s).current.value in s.procs)
    ensures var t := Schedule(s);
            && t.procs.Keys == s.procs.Keys && t == s.(procs := t.procs, current := t.current, yielded := false)
            && (forall p :: p in s.procs ==>
                  t.procs[p] == s.procs[p].(
                    state := if t.current == Some(p) then Running
                             else if s.current == Some(p) && s.procs[p].state == Running then Ready
                             else s.procs[p].state))
  {
  }
}
