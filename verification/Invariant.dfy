/** What every state of a run satisfies, and the building blocks of the services that keep it. */
module Invariant {
  import opened Apex
  import opened Sequences
  import opened Services

  predicate Alive(x: Proc) {
    x.state == Ready || x.state == Running
  }

  ghost predicate OrderOk(s: State) {
    && NoDup(s.order)
    && (forall p :: p in s.order <==> p in s.procs)
    && (s.current.Some? ==> s.current.value in s.procs)
  }

  /** At most the current process runs, and while it executes it is not blocked. */
  ghost predicate RunOk(s: State) {
    && (forall p :: p in s.procs && s.procs[p].state == Running ==> s.current == Some(p))
    && (s.current.Some? && !s.yielded ==> Alive(s.At(s.current.value)))
  }

  /** Queued processes exist, are WAITING, and stand in exactly one place of one queue. */
  ghost predicate QueueOk(s: State) {
    && (forall q, p :: p in s.Queue(q) ==> p in s.procs && s.At(p).state == Waiting)
    && (forall q :: NoDup(s.Queue(q)))
    && (forall q1, q2, p :: p in s.Queue(q1) && p in s.Queue(q2) ==> q1 == q2)
  }

  ghost predicate QueuedOn(s: State, p: Pid, o: Obj) {
    p in s.Queue(Waiters(o)) || p in s.Queue(Writers(o))
  }

  /** A waiting_* pointer of `p` names `o`. */
  predicate Points(s: State, p: Pid, o: Obj) {
    p in s.procs && s.procs[p].waitingOn.Get(o.kind) == Some(o.id)
  }

  predicate AlwaysPoints(k: Kind) {
    k == MutexKind || k == EventKind || k == BufferKind
  }

  /** A waiting_* pointer names the object whose queue holds the process; mutexes, events and
      buffers always set it. */
  ghost predicate PointerOk(s: State) {
    && (forall p, o :: Points(s, p, o) ==> QueuedOn(s, p, o))
    && (forall q, p :: p in s.Queue(q) && AlwaysPoints(q.obj.kind) ==> Points(s, p, q.obj))
  }

  ghost predicate CountOk(s: State) {
    forall o :: s.Count(o) == |s.Queue(Waiters(o))| + |s.Queue(Writers(o))|
  }

  /** Ownership agrees on both sides, and owners are never blocked and run at the ceiling. */
  ghost predicate MutexOk(s: State) {
    && (forall id :: id in s.mutexes && s.mutexes[id].owned ==>
          var m := s.mutexes[id];
          && m.owner in s.procs
          && s.procs[m.owner].owned == Some(id)
          && 1 <= m.locks <= MAX_LOCK_LEVEL
          && Alive(s.procs[m.owner])
          && s.procs[m.owner].priority == m.ceiling)
    && (forall id :: id in s.mutexes && !s.mutexes[id].owned ==> s.mutexes[id].locks == 0)
    && (forall p :: p in s.procs && s.procs[p].owned.Some? ==>
          var id := s.procs[p].owned.value;
          id in s.mutexes && s.mutexes[id].owned && s.mutexes[id].owner == p)
  }

  /** The object of `q` exists and cannot serve a waiter of `q` at once. */
  predicate Unavailable(s: State, q: QueueId) {
    match q
    case Waiters(Obj(MutexKind, id)) => id in s.mutexes && s.mutexes[id].owned
    case Waiters(Obj(SemaphoreKind, id)) => id in s.semaphores && s.semaphores[id].value == 0
    case Waiters(Obj(EventKind, id)) => id in s.events && !s.events[id]
    case Waiters(Obj(BlackboardKind, id)) => id in s.blackboards && !s.blackboards[id].occupied
    case Waiters(Obj(BufferKind, id)) => id in s.buffers && s.buffers[id].ring == []
    case Writers(Obj(BufferKind, id)) => id in s.buffers && |s.buffers[id].ring| == s.buffers[id].maxMessages
    case Writers(_) => false
  }

  /** No lost wake-up: whoever waits, waits for something that is not there. */
  ghost predicate WakeOk(s: State) {
    forall q :: s.Queue(q) != [] ==> Unavailable(s, q)
  }

  /** A semaphore's value is its initial value plus accepted signals minus grants, within bounds. */
  ghost predicate SemaphoresOk(semaphores: map<int, Semaphore>) {
    forall id :: id in semaphores ==>
      var m := semaphores[id];
      0 <= m.value <= m.maximum && 0 < m.maximum && m.value + m.grants == m.initial + m.signals
  }

  ghost predicate BuffersOk(buffers: map<int, Buffer>) {
    forall id :: id in buffers ==> 0 < buffers[id].maxMessages && |buffers[id].ring| <= buffers[id].maxMessages
  }

  ghost predicate BoundsOk(s: State) {
    SemaphoresOk(s.semaphores) && BuffersOk(s.buffers)
  }

  ghost predicate Inv(s: State) {
    && OrderOk(s) && RunOk(s) && QueueOk(s) && PointerOk(s) && CountOk(s) && MutexOk(s)
    && WakeOk(s) && BoundsOk(s)
  }

  /** Inv without WakeOk: what holds in the middle of a service. */
  ghost predicate Core(s: State) {
    && OrderOk(s) && RunOk(s) && QueueOk(s) && PointerOk(s) && CountOk(s) && MutexOk(s) && BoundsOk(s)
  }

  ghost predicate Queued(s: State, p: Pid) {
    exists q :: p in s.Queue(q)
  }

  lemma {:induction false} NoneSet(x: Pointers)
    requires forall k :: x.Get(k).None?
    ensures x == NO_POINTERS
  {
    assert x.Get(BlackboardKind).None? && x.Get(BufferKind).None? && x.Get(SemaphoreKind).None?
        && x.Get(EventKind).None? && x.Get(MutexKind).None?;
  }

  /** The process `p` may run on its own account: it is not in any queue. */
  lemma {:induction false} AliveNotQueued(s: State, p: Pid)
    requires QueueOk(s) && PointerOk(s) && p in s.procs && s.procs[p].state != Waiting
    ensures !Queued(s, p) && s.procs[p].waitingOn == NO_POINTERS
  {
    var w := s.procs[p].waitingOn;
    forall k ensures w.Get(k).None? {
      if w.Get(k).Some? {
        assert Points(s, p, Obj(k, w.Get(k).value));
      }
    }
    NoneSet(w);
  }

  // ---------------------------------------------------------------- blocking

  lemma {:induction false} InsertMembers(procs: map<Pid, Proc>, s: seq<Pid>, p: Pid, n: int)
    requires NoDup(s) && p !in s
    ensures var r := InsertByPriority(procs, s, p, n);
            NoDup(r) && |r| == |s| + 1 && forall x :: x in r <==> x == p || x in s
  {
    if s != [] {
      assert s == [s[0]] + s[1..];
      assert s[0] !in s[1..];
      assert forall x :: x in s <==> x == s[0] || x in s[1..];
      InsertMembers(procs, s[1..], p, n);
      var rest := InsertByPriority(procs, s[1..], p, n);
      assert forall x :: x in [s[0]] + rest <==> x == s[0] || x in rest;
    }
  }

  lemma {:induction false} BlockQueues(s: State, q: QueueId, p: Pid, d: Discipline, record: bool, timeout: int)
    requires QueueOk(s) && p in s.procs && !Queued(s, p)
    ensures var t := Block(s, q, p, d, record, timeout);
            && NoDup(t.Queue(q)) && |t.Queue(q)| == |s.Queue(q)| + 1
            && (forall x :: x in t.Queue(q) <==> x == p || x in s.Queue(q))
            && (forall q' :: q' != q ==> t.Queue(q') == s.Queue(q'))
  {
    assert p !in s.Queue(q);
    InsertMembers(s.procs, s.Queue(q), p, s.At(p).priority);
  }

  lemma {:induction false} BlockQueueOk(s: State, q: QueueId, p: Pid, d: Discipline, record: bool, timeout: int)
    requires QueueOk(s) && p in s.procs && !Queued(s, p)
    ensures QueueOk(Block(s, q, p, d, record, timeout))
  {
    BlockQueues(s, q, p, d, record, timeout);
    var t := Block(s, q, p, d, record, timeout);
    forall r ensures NoDup(t.Queue(r)) && forall x :: x in t.Queue(r) ==> x in t.procs && t.At(x).state == Waiting {
      if r != q {
        assert t.Queue(r) == s.Queue(r);
      }
    }
    forall q1, q2, x | x in t.Queue(q1) && x in t.Queue(q2) ensures q1 == q2 {
      assert x != p ==> x in s.Queue(q1) && x in s.Queue(q2);
    }
  }

  lemma {:induction false} BlockPointerOk(s: State, q: QueueId, p: Pid, d: Discipline, record: bool, timeout: int)
    requires QueueOk(s) && PointerOk(s) && p in s.procs && !Queued(s, p) && s.procs[p].waitingOn == NO_POINTERS
    requires record || !AlwaysPoints(q.obj.kind)
    ensures PointerOk(Block(s, q, p, d, record, timeout))
  {
    BlockQueues(s, q, p, d, record, timeout);
    var t := Block(s, q, p, d, record, timeout);
    forall r, o | Points(t, r, o) ensures QueuedOn(t, r, o) {
      assert r != p ==> Points(s, r, o);
    }
    forall r, x | x in t.Queue(r) && AlwaysPoints(r.obj.kind) ensures Points(t, x, r.obj) {
      if x != p {
        assert x in s.Queue(r);
        assert Points(s, x, r.obj);
      }
    }
  }

  lemma {:induction false} BlockCountOk(s: State, q: QueueId, p: Pid, d: Discipline, record: bool, timeout: int)
    requires QueueOk(s) && CountOk(s) && p in s.procs && !Queued(s, p)
    ensures CountOk(Block(s, q, p, d, record, timeout))
  {
    BlockQueues(s, q, p, d, record, timeout);
    var t := Block(s, q, p, d, record, timeout);
    forall o ensures t.Count(o) == |t.Queue(Waiters(o))| + |t.Queue(Writers(o))| {
      assert s.Count(o) == |s.Queue(Waiters(o))| + |s.Queue(Writers(o))|;
    }
  }

  lemma {:induction false} BlockMutexOk(s: State, q: QueueId, p: Pid, d: Discipline, record: bool, timeout: int)
    requires MutexOk(s) && p in s.procs && s.procs[p].owned.None?
    ensures MutexOk(Block(s, q, p, d, record, timeout))
  {
  }

  /** A caller that owns no mutex may park. */
  lemma {:induction false} BlockCore(s: State, q: QueueId, p: Pid, d: Discipline, record: bool, timeout: int)
    requires Core(s) && s.current == Some(p) && s.procs[p].owned.None? && Alive(s.procs[p])
    requires record || !AlwaysPoints(q.obj.kind)
    ensures Core(Block(s, q, p, d, record, timeout))
  {
    AliveNotQueued(s, p);
    BlockQueueOk(s, q, p, d, record, timeout);
    BlockPointerOk(s, q, p, d, record, timeout);
    BlockCountOk(s, q, p, d, record, timeout);
    BlockMutexOk(s, q, p, d, record, timeout);
  }

  lemma {:induction false} BlockWake(s: State, q: QueueId, p: Pid, d: Discipline, record: bool, timeout: int)
    requires WakeOk(s) && Unavailable(s, q)
    ensures WakeOk(Block(s, q, p, d, record, timeout))
  {
    var t := Block(s, q, p, d, record, timeout);
    forall r | t.Queue(r) != [] ensures Unavailable(t, r) {
      if r != q {
        assert t.Queue(r) == s.Queue(r);
      }
    }
  }

  // ---------------------------------------------------------------- waking

  lemma {:induction false} WakeQueues(s: State, q: QueueId)
    requires QueueOk(s) && s.Queue(q) != []
    ensures var t, w := Wake(s, q), s.Queue(q)[0];
            && NoDup(t.Queue(q)) && |t.Queue(q)| == |s.Queue(q)| - 1
            && (forall x :: x in t.Queue(q) <==> x != w && x in s.Queue(q))
            && (forall q' :: q' != q ==> t.Queue(q') == s.Queue(q') && w !in s.Queue(q'))
  {
    var waiting := s.Queue(q);
    assert waiting == [waiting[0]] + waiting[1..];
    assert NoDup(waiting);
    assert waiting[0] in waiting;
  }

  lemma {:induction false} WakeQueueOk(s: State, q: QueueId)
    requires QueueOk(s) && s.Queue(q) != []
    ensures QueueOk(Wake(s, q)) && s.Queue(q)[0] in s.procs && !Queued(Wake(s, q), s.Queue(q)[0])
  {
    var t, w := Wake(s, q), s.Queue(q)[0];
    WakeQueues(s, q);
    assert w in s.Queue(q);
    forall r
      ensures NoDup(t.Queue(r))
      ensures forall x :: x in t.Queue(r) ==> x != w && x in t.procs && t.At(x).state == Waiting
    {
      if r != q {
        assert t.Queue(r) == s.Queue(r);
      }
    }
  }

  lemma {:induction false} WakePointerOk(s: State, q: QueueId)
    requires QueueOk(s) && PointerOk(s) && s.Queue(q) != []
    ensures PointerOk(Wake(s, q))
  {
    var t, w := Wake(s, q), s.Queue(q)[0];
    WakeQueues(s, q);
    assert w in s.Queue(q);
    forall r, o | Points(t, r, o) ensures QueuedOn(t, r, o) {
      assert Points(s, r, o);
    }
    forall r, x | x in t.Queue(r) && AlwaysPoints(r.obj.kind) ensures Points(t, x, r.obj) {
      assert x in s.Queue(r);
      assert Points(s, x, r.obj);
    }
  }

  lemma {:induction false} WakeCountOk(s: State, q: QueueId)
    requires QueueOk(s) && CountOk(s) && s.Queue(q) != []
    ensures CountOk(Wake(s, q))
  {
    var t := Wake(s, q);
    WakeQueues(s, q);
    forall o ensures t.Count(o) == |t.Queue(Waiters(o))| + |t.Queue(Writers(o))| {
      assert s.Count(o) == |s.Queue(Waiters(o))| + |s.Queue(Writers(o))|;
    }
  }

  lemma {:induction false} WakeCore(s: State, q: QueueId)
    requires Core(s) && s.Queue(q) != []
    ensures Core(Wake(s, q)) && s.Queue(q)[0] in s.procs && !Queued(Wake(s, q), s.Queue(q)[0])
    ensures Wake(s, q).At(s.Queue(q)[0]).waitingOn == NO_POINTERS
    ensures s.At(s.Queue(q)[0]).owned.None? && s.At(s.Queue(q)[0]).state == Waiting
  {
    var w := s.Queue(q)[0];
    assert w in s.Queue(q);
    WakeQueueOk(s, q);
    WakePointerOk(s, q);
    WakeCountOk(s, q);
    AliveNotQueued(Wake(s, q), w);
  }

  lemma {:induction false} WakeAllCore(s: State, q: QueueId)
    requires Core(s)
    ensures var t := WakeAll(s, q);
            && Core(t) && t.Queue(q) == []
            && (forall r :: r != q ==> t.Queue(r) == s.Queue(r))
            && t.(procs := s.procs, waits := s.waits) == s
    decreases |s.Queue(q)|
  {
    if s.Queue(q) != [] {
      WakeCore(s, q);
      WakeAllCore(Wake(s, q), q);
    }
  }

  // ---------------------------------------------------------------- one process

  /** `t` has the wait queues of `s`, and every queued process still waits. */
  ghost predicate SameWaits(s: State, t: State) {
    && t.waits == s.waits && t.procs.Keys == s.procs.Keys
    && (forall p :: p in s.procs ==>
          && t.procs[p].waitingOn == s.procs[p].waitingOn
          && (s.procs[p].state == Waiting && Queued(s, p) ==> t.procs[p].state == Waiting))
  }

  lemma {:induction false} SameWaitsOk(s: State, t: State)
    requires QueueOk(s) && PointerOk(s) && CountOk(s) && SameWaits(s, t)
    ensures QueueOk(t) && PointerOk(t) && CountOk(t)
  {
    assert forall r :: t.Queue(r) == s.Queue(r);
    assert forall o :: t.Count(o) == s.Count(o);
    assert forall r, o :: Points(t, r, o) == Points(s, r, o);
    assert forall r, o :: QueuedOn(t, r, o) == QueuedOn(s, r, o);
  }

  /** A process may change its own record as long as owners stay alive and waiters keep waiting. */
  lemma {:induction false} UpdateCore(s: State, p: Pid, x: Proc)
    requires Core(s) && p in s.procs
    requires x.owned == s.procs[p].owned && x.waitingOn == s.procs[p].waitingOn
    requires x.owned.Some? ==> Alive(x) && x.priority == s.procs[p].priority
    requires Queued(s, p) ==> x.state == Waiting
    requires x.state == Running ==> s.current == Some(p)
    requires s.current == Some(p) && !s.yielded ==> Alive(x)
    ensures Core(s.With(p, x))
  {
    var t := s.With(p, x);
    SameWaitsOk(s, t);
  }

  // ---------------------------------------------------------------- ownership

  lemma {:induction false} GrantCore(s: State, id: int, p: Pid)
    requires Core(s) && id in s.mutexes && !s.mutexes[id].owned
    requires p in s.procs && s.procs[p].owned.None? && Alive(s.procs[p])
    ensures Core(Grant(s, id, p))
  {
    var t := Grant(s, id, p);
    MoveFrontMembers(s.order, p);
    GrantMutexOk(s, id, p);
    AliveNotQueued(s, p);
    SameWaitsOk(s, t);
  }

  lemma {:induction false} GrantMutexOk(s: State, id: int, p: Pid)
    requires MutexOk(s) && id in s.mutexes && !s.mutexes[id].owned
    requires p in s.procs && s.procs[p].owned.None? && Alive(s.procs[p])
    ensures MutexOk(Grant(s, id, p))
  {
  }

  lemma {:induction false} FreeCore(s: State, id: int, p: Pid)
    requires Core(s) && p in s.procs && s.procs[p].owned == Some(id)
    ensures Core(Free(s, id, p))
  {
    var t := Free(s, id, p);
    MoveFrontMembers(s.order, p);
    FreeMutexOk(s, id, p);
    AliveNotQueued(s, p);
    SameWaitsOk(s, t);
  }

  lemma {:induction false} FreeMutexOk(s: State, id: int, p: Pid)
    requires MutexOk(s) && p in s.procs && s.procs[p].owned == Some(id)
    ensures MutexOk(Free(s, id, p))
  {
  }

  lemma {:induction false} SurrenderCore(s: State, id: int, p: Pid)
    requires Core(s) && p in s.procs && s.procs[p].owned == Some(id)
    ensures Core(Surrender(s, id, p))
    ensures var t := Surrender(s, id, p);
            p in t.procs && t.procs[p].owned.None? && t.procs[p].state == s.procs[p].state
  {
    var q := Waiters(Obj(MutexKind, id));
    var t := Free(s, id, p);
    FreeCore(s, id, p);
    if t.Queue(q) != [] {
      WakeCore(t, q);
      GrantCore(Wake(t, q), id, t.Queue(q)[0]);
    }
  }

  /** Neither the communication objects nor the point of execution differ. */
  predicate SameObjects(s: State, t: State) {
    && t.semaphores == s.semaphores && t.events == s.events && t.blackboards == s.blackboards
    && t.buffers == s.buffers && t.current == s.current && t.yielded == s.yielded
    && t.lockLevel == s.lockLevel && t.now == s.now
  }

  /** Only the surrendered mutex and its queue change, and it stays owned while anyone waits. */
  lemma {:induction false} SurrenderFrame(s: State, id: int, p: Pid)
    requires id in s.mutexes
    ensures var t, q := Surrender(s, id, p), Waiters(Obj(MutexKind, id));
            && SameObjects(s, t)
            && t.mutexes.Keys == s.mutexes.Keys
            && (forall i :: i in s.mutexes && i != id ==> t.mutexes[i] == s.mutexes[i])
            && (t.Queue(q) != [] ==> t.mutexes[id].owned)
            && (forall r :: r != q ==> t.Queue(r) == s.Queue(r))
  {
    var q := Waiters(Obj(MutexKind, id));
    var t := Free(s, id, p);
    FreeFrame(s, id, p);
    if t.Queue(q) != [] {
      HandOffFrame(t, id);
    }
  }

  lemma {:induction false} FreeFrame(s: State, id: int, p: Pid)
    ensures var t := Free(s, id, p);
            SameObjects(s, t) && t.queues == s.queues && t.mutexes == s.mutexes[id := t.MutexAt(id)]
  {
  }

  lemma {:induction false} HandOffFrame(s: State, id: int)
    requires s.Queue(Waiters(Obj(MutexKind, id))) != []
    ensures var t, q := HandOff(s, id), Waiters(Obj(MutexKind, id));
            && SameObjects(s, t) && t.mutexes == s.mutexes[id := t.MutexAt(id)] && t.MutexAt(id).owned
            && (forall r :: r != q ==> t.Queue(r) == s.Queue(r))
  {
    var q := Waiters(Obj(MutexKind, id));
    var u := Wake(s, q);
    assert SameObjects(s, u) && u.mutexes == s.mutexes;
    assert forall r :: r != q ==> u.Queue(r) == s.Queue(r);
    var v := Grant(u, id, s.Queue(q)[0]);
    assert SameObjects(u, v) && v.queues == u.queues;
  }

  lemma {:induction false} SurrenderWake(s: State, id: int, p: Pid)
    requires WakeOk(s) && id in s.mutexes
    ensures WakeOk(Surrender(s, id, p))
  {
    var t := Surrender(s, id, p);
    SurrenderFrame(s, id, p);
    forall r | t.Queue(r) != [] ensures Unavailable(t, r) {
      if r != Waiters(Obj(MutexKind, id)) {
        assert Unavailable(s, r);
      }
    }
  }
}
