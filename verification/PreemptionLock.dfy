/** The preemption lock really locks: its owner is the process every dispatch selects. */
module PreemptionLock {
  import opened Apex
  import opened Sequences
  import opened Services
  import opened Invariant
  import opened Protocol
  import opened Exact
  import opened Runs
  import opened Priorities

  /** Configured priorities are in range, and the lock's ceiling is the top one. */
  ghost predicate Limits(s: State) {
    && (forall p :: p in s.procs ==> 0 <= s.procs[p].priority <= MAX_PRIORITY && 0 <= s.procs[p].base <= MAX_PRIORITY)
    && (forall id :: id in s.mutexes ==> 0 <= s.mutexes[id].ceiling <= MAX_PRIORITY)
    && (forall id :: id in s.mutexes && s.mutexes[id].owned ==> 0 <= s.mutexes[id].saved <= MAX_PRIORITY)
    && PREEMPTION_LOCK in s.mutexes && s.mutexes[PREEMPTION_LOCK].ceiling == MAX_PRIORITY
  }

  predicate Locked(s: State) {
    s.MutexAt(PREEMPTION_LOCK).owned
  }

  function Locker(s: State): Pid {
    s.MutexAt(PREEMPTION_LOCK).owner
  }

  /** While the lock is held its owner heads the process list, and only it executes services. */
  predicate HeadOk(s: State) {
    Locked(s) ==>
      && s.order != [] && s.order[0] == Locker(s)
      && (s.current.Some? && !s.yielded ==> s.current == Some(Locker(s)))
  }

  ghost predicate LockOk(s: State) {
    Limits(s) && HeadOk(s)
  }

  // ---------------------------------------------------------------- priorities stay in range

  lemma {:induction false} ClaimsLimits(s: State, t: State)
    requires Limits(s) && SameClaims(s, t)
    ensures Limits(t)
  {
  }

  lemma {:induction false} GrantLimits(s: State, id: int, p: Pid)
    requires Limits(s) && id in s.mutexes && p in s.procs
    ensures Limits(Grant(s, id, p))
  {
  }

  lemma {:induction false} FreeLimits(s: State, id: int, p: Pid)
    requires Limits(s) && id in s.mutexes && s.mutexes[id].owned && p in s.procs
    ensures Limits(Free(s, id, p))
  {
  }

  lemma {:induction false} SurrenderLimits(s: State, id: int, p: Pid)
    requires Limits(s) && Core(s) && p in s.procs && s.procs[p].owned == Some(id)
    ensures Limits(Surrender(s, id, p))
  {
    var q := Waiters(Obj(MutexKind, id));
    var t := Free(s, id, p);
    FreeLimits(s, id, p);
    FreeCore(s, id, p);
    if t.Queue(q) != [] {
      WakeCore(t, q);
      WakeClaims(t, q);
      ClaimsLimits(t, Wake(t, q));
      GrantLimits(Wake(t, q), id, t.Queue(q)[0]);
    }
  }

  /** A surrendered lock is free, or its new owner heads the list. */
  lemma {:induction false} SurrenderHead(s: State, id: int, p: Pid)
    requires id in s.mutexes
    ensures var t := Surrender(s, id, p);
            if id == PREEMPTION_LOCK then Locked(t) ==> t.order != [] && t.order[0] == Locker(t)
            else t.MutexAt(PREEMPTION_LOCK) == s.MutexAt(PREEMPTION_LOCK)
  {
    var t := Free(s, id, p);
    if t.Queue(Waiters(Obj(MutexKind, id))) != [] {
      var u := Wake(t, Waiters(Obj(MutexKind, id)));
      assert u.mutexes == t.mutexes;
    }
  }

  // ---------------------------------------------------------------- one step

  lemma {:induction false} StillLock(s: State, t: State)
    requires LockOk(s) && Still(s, t)
    ensures LockOk(t)
  {
    ClaimsLimits(s, t);
  }

  lemma {:induction false} ClaimsUnlocked(s: State, t: State)
    requires LockOk(s) && SameClaims(s, t) && !Locked(s)
    ensures LockOk(t)
  {
    ClaimsLimits(s, t);
  }

  /** The executing owner of the lock owns that mutex and no other. */
  lemma {:induction false} LockerOwns(s: State, p: Pid)
    requires Inv(s) && HeadOk(s) && Locked(s) && s.current == Some(p) && !s.yielded
    ensures p in s.procs && s.procs[p].owned == Some(PREEMPTION_LOCK) && Locker(s) == p
  {
  }

  lemma {:induction false} AcquireLock(s: State, id: int, timeout: int)
    requires Inv(s) && LockOk(s) && s.current.Some? && !s.yielded
    ensures LockOk(KernelAcquire(s, id, timeout).0)
  {
    var p, r := s.current.value, KernelAcquire(s, id, timeout);
    if r.1 == Parked {
      BlockStill(s, Waiters(Obj(MutexKind, id)), p, s.mutexes[id].discipline, true, timeout);
      StillLock(s, r.0);
    } else if r.1 == NoError && !s.mutexes[id].owned {
      GrantLimits(s, id, p);
      if Locked(s) {
        LockerOwns(s, p);
      }
    } else {
      StillLock(s, r.0);
    }
  }

  lemma {:induction false} SurrenderLock(s: State, id: int, p: Pid)
    requires Inv(s) && LockOk(s) && s.current == Some(p) && !s.yielded && s.procs[p].owned == Some(id)
    ensures LockOk(Surrender(s, id, p).(yielded := true))
  {
    var t := Surrender(s, id, p);
    SurrenderLimits(s, id, p);
    ClaimsLimits(t, t.(yielded := true));
    SurrenderHead(s, id, p);
    if id != PREEMPTION_LOCK && Locked(s) {
      LockerOwns(s, p);
    }
  }

  lemma {:induction false} ReleaseLock(s: State, id: int)
    requires Inv(s) && LockOk(s) && s.current.Some? && !s.yielded
    ensures LockOk(KernelRelease(s, id).0)
  {
    var p := s.current.value;
    if id in s.mutexes && s.At(p).owned == Some(id) {
      if s.MutexAt(id).locks == 1 {
        SurrenderLock(s, id, p);
      } else {
        StillLock(s, KernelRelease(s, id).0);
      }
    }
  }

  lemma {:induction false} StopSelfLock(s: State)
    requires Inv(s) && LockOk(s) && s.current.Some? && !s.yielded
    ensures LockOk(StopSelf(s))
  {
    var p := s.current.value;
    var x := s.At(p).(deadline := INFINITE);
    var t := s.With(p, x);
    EndDeadlineInv(s, p);
    RecordStill(s, p, x);
    StillLock(s, t);
    if x.owned.Some? {
      var v := if x.owned.value == PREEMPTION_LOCK then t.(lockLevel := 0) else t;
      LockLevelInv(t, 0);
      StillLock(t, v);
      DieOwningLock(v, x.owned.value, p);
    } else {
      RecordStill(t, p, x.(state := Dormant, timer := 0, suspended := false));
      StillLock(t, StopSelf(s));
    }
  }

  lemma {:induction false} DieOwningLock(s: State, id: int, p: Pid)
    requires Inv(s) && LockOk(s) && s.current == Some(p) && !s.yielded && s.procs[p].owned == Some(id)
    ensures var u := Surrender(s, id, p);
            LockOk(u.With(p, u.At(p).(state := Dormant, timer := 0, suspended := false)).(yielded := true))
  {
    var u := Surrender(s, id, p);
    SurrenderCore(s, id, p);
    SurrenderLock(s, id, p);
    var v := u.(yielded := true);
    RecordStill(v, p, u.At(p).(state := Dormant, timer := 0, suspended := false));
    StillLock(v, v.With(p, u.At(p).(state := Dormant, timer := 0, suspended := false)));
  }

  lemma {:induction false} StartLock(s: State, target: Pid, first: int)
    requires Inv(s) && LockOk(s) && s.current.Some? && !s.yielded
    ensures LockOk(Start(s, target, first).0)
  {
  }

  lemma {:induction false} RemoveKeepsHead(s: seq<Pid>, p: Pid)
    requires s != [] && s[0] != p
    ensures (Remove(s, p) + [p])[0] == s[0]
  {
  }

  lemma {:induction false} SetPriorityLimits(s: State, target: Pid, n: int)
    requires Inv(s) && Limits(s) && s.current.Some?
    ensures Limits(SetPriority(s, target, n).0)
  {
    var x, t := s.At(target), SetPriority(s, target, n).0;
    if t == s {
    } else if x.owned.Some? {
      var id := x.owned.value;
      assert t.procs == s.procs && t.mutexes == s.mutexes[id := s.mutexes[id].(saved := n)];
    } else {
      assert t.procs == s.procs[target := x.(priority := n)] && t.mutexes == s.mutexes;
    }
  }

  lemma {:induction false} SetPriorityLock(s: State, target: Pid, n: int)
    requires Inv(s) && LockOk(s) && s.current.Some? && !s.yielded && !(Locked(s) && target == Locker(s))
    ensures LockOk(SetPriority(s, target, n).0)
  {
    SetPriorityLimits(s, target, n);
    if Locked(s) {
      RemoveKeepsHead(s.order, target);
    }
  }

  lemma {:induction false} TimedWaitLock(s: State, delay: int)
    requires Inv(s) && LockOk(s) && s.current.Some? && !s.yielded
    ensures LockOk(TimedWait(s, delay).0)
  {
    if Locked(s) {
      LockerOwns(s, s.current.value);
    } else {
      TimedWaitClaims(s, delay);
      ClaimsUnlocked(s, TimedWait(s, delay).0);
    }
  }

  /** The head of the list at the highest possible priority wins every selection. */
  lemma {:induction false} HeadWins(procs: map<Pid, Proc>, order: seq<Pid>)
    requires order != [] && IsReady(procs, order[0]) && procs[order[0]].priority == MAX_PRIORITY
    requires forall p :: p in procs ==> procs[p].priority <= MAX_PRIORITY
    ensures Select(procs, order) == Some(order[0])
  {
    SelectFirstBest(procs, order);
    var c := Select(procs, order);
    if c.Some? {
      var i :| FirstBest(procs, order, i) && order[i] == c.value;
      assert i == 0;
    }
  }

  /** Whatever happened since, process_schedule selects the owner of the lock. */
  lemma {:induction false} ScheduleSelectsLocker(s: State)
    requires Inv(s) && LockOk(s) && Locked(s)
    ensures Schedule(s).current == Some(Locker(s)) && Locker(Schedule(s)) == Locker(s) && Locked(Schedule(s))
  {
    var t := Preempted(s);
    PreemptedClaims(s);
    ClaimsLimits(s, t);
    PreemptedReady(s, Locker(s));
    HeadWins(t.procs, t.order);
    ScheduledAs(s, Some(Locker(s)));
  }

  lemma {:induction false} ScheduleLock(s: State)
    requires Inv(s) && LockOk(s)
    ensures LockOk(Schedule(s))
  {
    ScheduleClaims(s);
    ClaimsLimits(s, Schedule(s));
    if Locked(s) {
      ScheduleSelectsLocker(s);
    }
  }

  /** SET_PRIORITY of the lock's owner on itself. */
  predicate Demotes(s: State, e: Event) {
    Locked(s) && e.Prioritize? && e.pid == Locker(s)
  }

  /** Every event but SET_PRIORITY of the lock's owner on itself keeps the lock effective. */
  lemma {:induction false} LockStep(s: State, e: Event)
    requires Inv(s) && LockOk(s) && Enabled(s, e) && !Demotes(s, e)
    ensures LockOk(Next(s, e))
  {
    if !Moves(e) {
      StillEvent(s, e);
      StillLock(s, Next(s, e));
    } else if e.Acquire? || e.Release? || e.Reset? {
      MutexLock(s, e);
    } else if e.Lock? || e.Unlock? || e.QuitSelf? {
      CallLock(s, e);
    } else {
      OtherLock(s, e);
    }
  }

  lemma {:induction false} MutexLock(s: State, e: Event)
    requires Inv(s) && LockOk(s) && Enabled(s, e) && (e.Acquire? || e.Release? || e.Reset?)
    ensures LockOk(Next(s, e))
  {
    if e.Acquire? {
      AcquireLock(s, e.id, e.timeout);
    } else if e.Release? {
      ReleaseLock(s, e.id);
    } else if ResetMutex(s, e.id, e.pid).1 == NoError {
      SurrenderLock(s, e.id, e.pid);
    }
  }

  lemma {:induction false} CallLock(s: State, e: Event)
    requires Inv(s) && LockOk(s) && Enabled(s, e) && (e.Lock? || e.Unlock? || e.QuitSelf?)
    ensures LockOk(Next(s, e))
  {
    if e.Lock? {
      AcquireLock(s, PREEMPTION_LOCK, INFINITE);
      RefreshLock(KernelAcquire(s, PREEMPTION_LOCK, INFINITE));
    } else if e.Unlock? {
      ReleaseLock(s, PREEMPTION_LOCK);
      RefreshLock(KernelRelease(s, PREEMPTION_LOCK));
    } else {
      StopSelfLock(s);
    }
  }

  lemma {:induction false} RefreshLock(r: Reply)
    requires LockOk(r.0)
    ensures LockOk(AfterLockCall(r).0)
  {
  }

  lemma {:induction false} OtherLock(s: State, e: Event)
    requires Inv(s) && LockOk(s) && Enabled(s, e) && !Demotes(s, e)
    requires e.Prioritize? || e.Launch? || e.Delay? || e.Dispatch?
    ensures LockOk(Next(s, e))
  {
    match e
    case Prioritize(p, n) => SetPriorityLock(s, p, n);
    case Launch(p, f) => StartLock(s, p, f);
    case Delay(t) => TimedWaitLock(s, t);
    case Dispatch => ScheduleLock(s);
  }

  // ---------------------------------------------------------------- whole runs

  ghost predicate NeverDemotes(s: State, run: seq<Event>)
    requires Feasible(s, run)
    decreases |run|
  {
    run != [] ==> !Demotes(s, run[0]) && NeverDemotes(Next(s, run[0]), run[1..])
  }

  /** At every point of the run where the lock is held, a dispatch selects its owner and no other
      process executes a service. */
  ghost predicate AlwaysLocked(s: State, run: seq<Event>)
    requires Feasible(s, run)
    decreases |run|
  {
    && (Locked(s) ==> Schedule(s).current == Some(Locker(s)) && s.order[..1] == [Locker(s)]
                      && (s.current.Some? && !s.yielded ==> s.current == Some(Locker(s))))
    && (run != [] ==> AlwaysLocked(Next(s, run[0]), run[1..]))
  }

  /** From acquisition to release, over every safe run, nobody else gets the processor. */
  lemma {:induction false} LockOverRun(s: State, run: seq<Event>)
    requires Inv(s) && LockOk(s) && Feasible(s, run) && AllSafe(s, run) && NeverDemotes(s, run)
    ensures AlwaysLocked(s, run)
    decreases |run|
  {
    if Locked(s) {
      ScheduleSelectsLocker(s);
    }
    if run != [] {
      StepExact(s, run[0]);
      LockStep(s, run[0]);
      LockOverRun(Next(s, run[0]), run[1..]);
    }
  }

  // ---------------------------------------------------------------- the one exception

  /** Some other process could run at the top priority. */
  ghost predicate TopRival(s: State, p: Pid) {
    exists r :: r in s.procs && r != p && s.procs[r].state == Ready && s.procs[r].priority == MAX_PRIORITY
  }

  lemma {:induction false} LastLoses(procs: map<Pid, Proc>, order: seq<Pid>, p: Pid, r: Pid)
    requires NoDup(order + [p]) && r in order && IsReady(procs, r) && IsReady(procs, p)
    requires procs[r].priority >= procs[p].priority
    ensures Select(procs, order + [p]) != Some(p)
  {
    var all := order + [p];
    SelectFirstBest(procs, all);
    var j :| 0 <= j < |order| && order[j] == r;
    assert all[j] == r && all[|order|] == p;
  }

  lemma {:induction false} OnlyTopWins(procs: map<Pid, Proc>, order: seq<Pid>, p: Pid)
    requires p in order && IsReady(procs, p) && procs[p].priority == MAX_PRIORITY
    requires forall r :: r in procs && r != p && procs[r].state == Ready ==> procs[r].priority < MAX_PRIORITY
    ensures Select(procs, order) == Some(p)
  {
    SelectCovers(procs, order, p);
    SelectFirstBest(procs, order);
  }

  lemma {:induction false} DemotedState(s: State, n: int)
    requires Inv(s) && LockOk(s) && Locked(s) && s.current == Some(Locker(s)) && !s.yielded
    requires MIN_PRIORITY <= n <= MAX_PRIORITY
    ensures var p, t := Locker(s), SetPriority(s, Locker(s), n).0;
            t.procs == s.procs && t.order == Remove(s.order, p) + [p] && t.current == s.current
  {
  }

  /** After SET_PRIORITY on itself, the owner of the lock is selected next exactly when no other
      READY process stands at the top priority. */
  lemma {:induction false} DemotionExact(s: State, n: int)
    requires Inv(s) && LockOk(s) && Locked(s) && s.current == Some(Locker(s)) && !s.yielded
    requires MIN_PRIORITY <= n <= MAX_PRIORITY
    ensures Schedule(SetPriority(s, Locker(s), n).0).current == Some(Locker(s)) <==> !TopRival(s, Locker(s))
  {
    var p := Locker(s);
    var t := SetPriority(s, p, n).0;
    DemotedState(s, n);
    var u := Preempted(t);
    assert u.procs == Preempted(s).procs && u.order == t.order;
    MoveBackMembers(s.order, p);
    PreemptedReady(s, p);
    if TopRival(s, p) {
      var r :| r in s.procs && r != p && s.procs[r].state == Ready && s.procs[r].priority == MAX_PRIORITY;
      assert u.procs[r] == s.procs[r] && r in Remove(s.order, p) + [p];
      LastLoses(u.procs, Remove(s.order, p), p, r);
    } else {
      assert forall r :: r in u.procs && r != p ==> u.procs[r] == s.procs[r];
      OnlyTopWins(u.procs, u.order, p);
      ScheduledAs(t, Some(p));
    }
  }
}
