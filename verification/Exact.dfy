/** The scheduler, and the three steps that keep the invariant only under a condition. */
module Exact {
  import opened Apex
  import opened Sequences
  import opened Services
  import opened Invariant
  import opened Protocol

  // ---------------------------------------------------------------- process_schedule

  /** Position `i` holds the first READY process of the highest priority. */
  ghost predicate FirstBest(procs: map<Pid, Proc>, order: seq<Pid>, i: int) {
    && 0 <= i < |order| && IsReady(procs, order[i]) && procs[order[i]].priority > -1
    && (forall j :: 0 <= j < i && IsReady(procs, order[j]) ==> procs[order[j]].priority < procs[order[i]].priority)
    && (forall j :: i < j < |order| && IsReady(procs, order[j]) ==>
       procs[order[j]].priority <= procs[order[i]].priority)
  }

  lemma {:induction false} SelectFirstBest(procs: map<Pid, Proc>, order: seq<Pid>)
    ensures var c := Select(procs, order);
            && (c.Some? ==> exists i :: FirstBest(procs, order, i) && order[i] == c.value)
            && (c.None? ==> forall j :: 0 <= j < |order| && IsReady(procs, order[j]) ==> procs[order[j]].priority <= -1)
  {
    if order != [] {
      var n := |order| - 1;
      var before := order[..n];
      SelectFirstBest(procs, before);
      var best := Select(procs, before);
      assert forall j :: 0 <= j < n ==> before[j] == order[j];
      if Select(procs, order) != best {
        assert FirstBest(procs, order, n);
      } else if best.Some? {
        var i :| FirstBest(procs, before, i) && before[i] == best.value;
        assert FirstBest(procs, order, i);
      }
    }
  }

  lemma {:induction false} FirstBestUnique(procs: map<Pid, Proc>, order: seq<Pid>, i: int, j: int)
    requires FirstBest(procs, order, i) && FirstBest(procs, order, j)
    ensures i == j
  {
  }

  lemma {:induction false} SelectCovers(procs: map<Pid, Proc>, order: seq<Pid>, p: Pid)
    requires p in order && IsReady(procs, p) && procs[p].priority >= 0
    ensures var c := Select(procs, order);
            c.Some? && c.value in procs && procs[p].priority <= procs[c.value].priority
  {
    SelectFirstBest(procs, order);
    var j :| 0 <= j < |order| && order[j] == p;
    var c := Select(procs, order);
    if c.Some? {
      var i :| FirstBest(procs, order, i) && order[i] == c.value;
    }
  }

  /** What can run is READY when the list is walked. */
  lemma {:induction false} PreemptedReady(s: State, p: Pid)
    requires p in s.procs && Alive(s.procs[p]) && (s.procs[p].state == Running ==> s.current == Some(p))
    ensures IsReady(Preempted(s).procs, p) && Preempted(s).procs[p].priority == s.procs[p].priority
  {
  }

  lemma {:induction false} ScheduledAs(s: State, c: Option<Pid>)
    requires Select(Preempted(s).procs, Preempted(s).order) == c && c.Some?
    ensures Schedule(s).current == c && Schedule(s).At(c.value).priority == Preempted(s).At(c.value).priority
  {
  }

  lemma {:induction false} PreemptedInv(s: State)
    requires Inv(s)
    ensures Inv(Preempted(s)) && forall p :: p in Preempted(s).procs ==> Preempted(s).procs[p].state != Running
  {
    if s.current.Some? && s.At(s.current.value).state == Running {
      var p := s.current.value;
      var x := s.At(p).(state := Ready);
      AliveNotQueued(s, p);
      RecordInv(s, p, x, false);
      assert s.With(p, x) == s.With(p, x).(yielded := s.yielded);
    }
  }

  lemma {:induction false} ScheduleInv(s: State)
    requires Inv(s)
    ensures Inv(Schedule(s))
  {
    var t := Preempted(s);
    PreemptedInv(s);
    SelectFirstBest(t.procs, t.order);
    var choice := Select(t.procs, t.order);
    if choice.Some? {
      RunInv(t, choice.value);
    } else {
      var u := t.(current := None, yielded := false);
      SameWaitsOk(t, u);
      WakeFrame(t, u);
    }
  }

  lemma {:induction false} RunInv(s: State, c: Pid)
    requires Inv(s) && c in s.procs && s.procs[c].state == Ready
    requires forall p :: p in s.procs ==> s.procs[p].state != Running
    ensures Inv(s.With(c, s.At(c).(state := Running)).(current := Some(c), yielded := false))
  {
    var t := s.(current := Some(c), yielded := false);
    SameWaitsOk(s, t);
    WakeFrame(s, t);
    AliveNotQueued(t, c);
    RecordInv(t, c, s.At(c).(state := Running), false);
    assert t.With(c, s.At(c).(state := Running)).(yielded := false) ==
           s.With(c, s.At(c).(state := Running)).(current := Some(c), yielded := false);
  }

  // ---------------------------------------------------------------- the clock

  /** No process is released or timed out while it stands in a queue. */
  ghost predicate TickSafe(s: State, now: int) {
    forall q, p :: p in s.Queue(q) ==> !Releasable(s.At(p), now) && !Expired(s.At(p), now)
  }

  lemma {:induction false} TickKeeps(s: State, now: int)
    requires Inv(s) && TickSafe(s, now)
    ensures Inv(Tick(s, now))
  {
    var t := Tick(s, now);
    forall p | p in s.procs && s.procs[p].state == Waiting && Queued(s, p) ensures t.procs[p].state == Waiting {
      var q :| p in s.Queue(q);
      assert !Releasable(s.At(p), now) && !Expired(s.At(p), now);
    }
    SameWaitsOk(s, t);
    TickMutexOk(s, now);
    WakeFrame(s, t);
  }

  lemma {:induction false} TickMutexOk(s: State, now: int)
    requires MutexOk(s)
    ensures MutexOk(Tick(s, now))
  {
  }

  lemma {:induction false} TickBreaks(s: State, now: int)
    requires QueueOk(s) && !TickSafe(s, now)
    ensures !QueueOk(Tick(s, now))
  {
    var q, p :| p in s.Queue(q) && (Releasable(s.At(p), now) || Expired(s.At(p), now));
    var t := Tick(s, now);
    assert p in t.Queue(q) && t.At(p).state == Ready;
  }

  lemma {:induction false} TickExact(s: State, now: int)
    requires Inv(s)
    ensures Inv(Tick(s, now)) <==> TickSafe(s, now)
  {
    if TickSafe(s, now) {
      TickKeeps(s, now);
    } else {
      TickBreaks(s, now);
    }
  }

  // ---------------------------------------------------------------- RESUME

  /** RESUME must not find its target suspended and still in a queue. */
  ghost predicate ResumeSafe(s: State, target: Pid) {
    !(target in s.order && s.current != Some(target) && s.At(target).period == INFINITE
      && s.At(target).suspended && Queued(s, target))
  }

  lemma {:induction false} ResumeExact(s: State, target: Pid)
    requires Inv(s) && s.current.Some?
    ensures Inv(Resume(s, target).0) <==> ResumeSafe(s, target)
  {
    var x := s.At(target);
    var r := Resume(s, target);
    if r.1 == NoError {
      var y := if x.suspended then x.(suspended := false, timer := 0) else x;
      if Queued(s, target) {
        var q :| target in s.Queue(q);
        assert target in r.0.Queue(q) && r.0.At(target).state == Ready;
      } else {
        NotQueuedNoPointer(s, target);
        RecordInv(s, target, y.(state := Ready), true);
      }
    }
  }

  lemma {:induction false} NotQueuedNoPointer(s: State, p: Pid)
    requires PointerOk(s) && p in s.procs && !Queued(s, p)
    ensures s.procs[p].waitingOn == NO_POINTERS
  {
    var w := s.procs[p].waitingOn;
    forall k ensures w.Get(k).None? {
      if w.Get(k).Some? {
        assert Points(s, p, Obj(k, w.Get(k).value));
      }
    }
    NoneSet(w);
  }

  // ---------------------------------------------------------------- STOP

  /** STOP must not hit an owner, nor a waiter whose service left its waiting_* pointer null. */
  ghost predicate StopSafe(s: State, target: Pid) {
    target in s.order && s.current != Some(target) && s.At(target).state != Dormant ==>
      && s.At(target).owned.None?
      && forall q :: target in s.Queue(q) ==> Points(s, target, q.obj)
  }

  /** `p` leaves `q`, its pointer is cleared, and a blocked sender's message is withdrawn. */
  function Departed(s: State, p: Pid, q: QueueId): State {
    var b := s.buffers;
    var t := s.WithQueue(q, Remove(s.Queue(q), p), -1)
              .With(p, s.At(p).(waitingOn := s.At(p).waitingOn.Set(q.obj.kind, None)));
    if q.Writers? && q.obj.id in b
    then t.PutBuffer(q.obj.id, b[q.obj.id].(withdrawn := b[q.obj.id].withdrawn + multiset{s.At(p).message}))
    else t
  }

  lemma {:induction false} DepartedQueues(s: State, p: Pid, q: QueueId)
    requires QueueOk(s) && p in s.Queue(q)
    ensures var t := Departed(s, p, q);
            && NoDup(t.Queue(q)) && |t.Queue(q)| == |s.Queue(q)| - 1
            && (forall x :: x in t.Queue(q) <==> x != p && x in s.Queue(q))
            && (forall r :: r != q ==> t.Queue(r) == s.Queue(r) && p !in s.Queue(r))
  {
    assert NoDup(s.Queue(q));
    RemoveMembers(s.Queue(q), p);
  }

  lemma {:induction false} DepartedQueueOk(s: State, p: Pid, q: QueueId)
    requires QueueOk(s) && p in s.Queue(q)
    ensures QueueOk(Departed(s, p, q)) && !Queued(Departed(s, p, q), p)
  {
    var t := Departed(s, p, q);
    DepartedQueues(s, p, q);
    forall r
      ensures NoDup(t.Queue(r))
      ensures forall x :: x in t.Queue(r) ==> x != p && x in t.procs && t.At(x).state == Waiting
    {
      if r != q {
        assert t.Queue(r) == s.Queue(r);
      }
    }
  }

  lemma {:induction false} DepartedPointerOk(s: State, p: Pid, q: QueueId)
    requires QueueOk(s) && PointerOk(s) && p in s.Queue(q)
    ensures PointerOk(Departed(s, p, q))
  {
    var t := Departed(s, p, q);
    DepartedQueues(s, p, q);
    forall r, o | Points(t, r, o) ensures QueuedOn(t, r, o) {
      assert Points(s, r, o);
    }
    forall r, x | x in t.Queue(r) && AlwaysPoints(r.obj.kind) ensures Points(t, x, r.obj) {
      assert x in s.Queue(r) && x != p;
      assert Points(s, x, r.obj) && t.procs[x] == s.procs[x];
    }
  }

  lemma {:induction false} DepartedCountOk(s: State, p: Pid, q: QueueId)
    requires QueueOk(s) && CountOk(s) && p in s.Queue(q)
    ensures CountOk(Departed(s, p, q))
  {
    var t := Departed(s, p, q);
    DepartedQueues(s, p, q);
    forall o ensures t.Count(o) == |t.Queue(Waiters(o))| + |t.Queue(Writers(o))| {
      assert s.Count(o) == |s.Queue(Waiters(o))| + |s.Queue(Writers(o))|;
    }
  }

  lemma {:induction false} DepartedWake(s: State, p: Pid, q: QueueId)
    requires QueueOk(s) && WakeOk(s) && p in s.Queue(q)
    ensures WakeOk(Departed(s, p, q))
  {
    var t := Departed(s, p, q);
    DepartedQueues(s, p, q);
    forall r | t.Queue(r) != [] ensures Unavailable(t, r) {
      if r == q {
        assert p in s.Queue(r);
      }
      assert s.Queue(r) != [];
      assert Unavailable(s, r);
    }
  }

  lemma {:induction false} DepartedInv(s: State, p: Pid, q: QueueId)
    requires Inv(s) && p in s.Queue(q)
    ensures Inv(Departed(s, p, q)) && !Queued(Departed(s, p, q), p)
  {
    DepartedQueueOk(s, p, q);
    DepartedPointerOk(s, p, q);
    DepartedCountOk(s, p, q);
    DepartedWake(s, p, q);
  }

  lemma {:induction false} LeaveNothing(s: State, p: Pid)
    requires s.At(p).waitingOn == NO_POINTERS
    ensures LeaveAll(s, p) == s
  {
  }

  /** With one pointer set, the whole of remove_process_from_waiting_queue is one departure. */
  lemma {:induction false} LeaveOne(s: State, p: Pid, q: QueueId)
    requires QueueOk(s) && p in s.Queue(q) && s.At(p).waitingOn == NO_POINTERS.Set(q.obj.kind, Some(q.obj.id))
    requires q.Writers? ==> q.obj.kind == BufferKind
    ensures LeaveAll(s, p) == Departed(s, p, q)
  {
    LeaveStep(s, p, q);
    LeaveOnly(s, p, q.obj.kind);
  }

  lemma {:induction false} LeaveOnly(s: State, p: Pid, k: Kind)
    requires s.At(p).waitingOn.Get(k).Some? && (forall j :: j != k ==> s.At(p).waitingOn.Get(j).None?)
             && Leave(s, p, k).At(p).waitingOn == NO_POINTERS
    ensures LeaveAll(s, p) == Leave(s, p, k)
  {
  }

  lemma {:induction false} LeaveStep(s: State, p: Pid, q: QueueId)
    requires QueueOk(s) && p in s.Queue(q) && s.At(p).waitingOn == NO_POINTERS.Set(q.obj.kind, Some(q.obj.id))
    requires q.Writers? ==> q.obj.kind == BufferKind
    ensures Leave(s, p, q.obj.kind) == Departed(s, p, q)
  {
    assert p in s.procs;
    if q.Waiters? {
      assert p !in s.Queue(Writers(q.obj));
      var u := Withdraw(s, p, q);
      assert u.Queue(Writers(q.obj)) == s.Queue(Writers(q.obj));
    } else {
      assert p !in s.Queue(Waiters(q.obj));
      assert Withdraw(s, p, Waiters(q.obj)) == s;
    }
  }

  /** The process holds at most one waiting_* pointer. */
  lemma {:induction false} OnePointer(s: State, p: Pid, q: QueueId)
    requires QueueOk(s) && PointerOk(s) && p in s.Queue(q) && Points(s, p, q.obj)
    ensures s.At(p).waitingOn == NO_POINTERS.Set(q.obj.kind, Some(q.obj.id))
  {
    var v := s.At(p).waitingOn.Set(q.obj.kind, None);
    forall k ensures v.Get(k).None? {
      if v.Get(k).Some? {
        assert Points(s, p, Obj(k, v.Get(k).value));
        assert false;
      }
    }
    NoneSet(v);
  }

  /** A queued process without a pointer to its object holds no pointer at all. */
  lemma {:induction false} NoPointer(s: State, p: Pid, q: QueueId)
    requires QueueOk(s) && PointerOk(s) && p in s.Queue(q) && !Points(s, p, q.obj)
    ensures s.At(p).waitingOn == NO_POINTERS
  {
    var w := s.At(p).waitingOn;
    forall k ensures w.Get(k).None? {
      if w.Get(k).Some? {
        assert Points(s, p, Obj(k, w.Get(k).value));
      }
    }
    NoneSet(w);
  }

  function Killed(x: Proc): Proc {
    x.(state := Dormant, timer := 0, suspended := false, deadline := INFINITE)
  }

  lemma {:induction false} KillInv(s: State, p: Pid)
    requires Inv(s) && p in s.procs && s.procs[p].owned.None? && !Queued(s, p) && s.current != Some(p)
    ensures Inv(s.With(p, Killed(s.At(p))).(yielded := true))
  {
    RecordInv(s, p, Killed(s.At(p)), true);
  }

  lemma {:induction false} StopQueued(s: State, target: Pid, q: QueueId)
    requires Inv(s) && s.current.Some? && s.current != Some(target) && target in s.Queue(q)
    ensures Inv(Stop(s, target).0) <==> Points(s, target, q.obj)
  {
    assert s.At(target).owned.None? && target in s.order;
    if Points(s, target, q.obj) {
      StopPointing(s, target, q);
    } else {
      NoPointer(s, target, q);
      LeaveNothing(s, target);
      assert target in Stop(s, target).0.Queue(q) && Stop(s, target).0.At(target).state == Dormant;
    }
  }

  lemma {:induction false} StopPointing(s: State, target: Pid, q: QueueId)
    requires Inv(s) && s.current.Some? && s.current != Some(target) && target in s.Queue(q) && Points(s, target, q.obj)
    ensures Inv(Stop(s, target).0)
  {
    var t := Departed(s, target, q);
    OnePointer(s, target, q);
    assert Unavailable(s, q);
    LeaveOne(s, target, q);
    DepartedGood(s, target, q);
    StopIs(s, target, t);
    KillInv(t, target);
  }

  lemma {:induction false} DepartedGood(s: State, p: Pid, q: QueueId)
    requires Inv(s) && p in s.Queue(q) && s.current != Some(p)
    requires s.At(p).waitingOn == NO_POINTERS.Set(q.obj.kind, Some(q.obj.id))
    ensures var t := Departed(s, p, q);
            Inv(t) && p in t.procs && t.procs[p].owned.None? && !Queued(t, p) && t.current != Some(p)
  {
    DepartedInv(s, p, q);
  }

  lemma {:induction false} StopIs(s: State, target: Pid, t: State)
    requires s.current.Some? && s.current != Some(target) && target in s.order && s.At(target).state != Dormant
    requires t == LeaveAll(s, target)
    ensures Stop(s, target).0 == t.With(target, Killed(t.At(target))).(yielded := true)
  {
  }

  lemma {:induction false} StopExact(s: State, target: Pid)
    requires Inv(s) && s.current.Some?
    ensures Inv(Stop(s, target).0) <==> StopSafe(s, target)
  {
    if target in s.order && s.current != Some(target) && s.At(target).state != Dormant {
      if Queued(s, target) {
        var q :| target in s.Queue(q);
        StopQueued(s, target, q);
        assert forall r :: target in s.Queue(r) ==> r == q;
        assert s.At(target).owned.None?;
      } else {
        NotQueuedNoPointer(s, target);
        LeaveNothing(s, target);
        if s.At(target).owned.None? {
          KillInv(s, target);
        } else {
          StopOwnerBreaks(s, target);
        }
      }
    }
  }

  lemma {:induction false} StopOwnerBreaks(s: State, target: Pid)
    requires MutexOk(s) && target in s.procs && s.procs[target].owned.Some?
    ensures !MutexOk(s.With(target, Killed(s.At(target))).(yielded := true))
  {
  }
}
