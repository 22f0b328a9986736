/** Runs: any interleaving of service calls with process_schedule and the clock. */
module Runs {
  import opened Apex
  import opened Sequences
  import opened Services
  import opened Invariant
  import opened Protocol
  import opened Exact

  /** The state SET_PARTITION_MODE(NORMAL) leaves: nothing owned, nobody queued, no process chosen yet. */
  ghost predicate Initial(s: State) {
    && NoDup(s.order) && (forall p :: p in s.order <==> p in s.procs)
    && s.current.None? && s.waits == Waits(map[], map[])
    && (forall p :: p in s.procs ==>
          s.procs[p].state != Running && s.procs[p].owned.None? && s.procs[p].waitingOn == NO_POINTERS)
    && (forall id :: id in s.mutexes ==> !s.mutexes[id].owned && s.mutexes[id].locks == 0)
    && (forall id :: id in s.semaphores ==>
          var m := s.semaphores[id];
          0 <= m.value <= m.maximum && 0 < m.maximum && m.initial == m.value && m.signals == 0 && m.grants == 0)
    && (forall id :: id in s.buffers ==>
          var b := s.buffers[id];
          0 < b.maxMessages && b.ring == [] && b.sent == [] && b.delivered == [] && b.withdrawn == multiset{})
  }

  lemma {:induction false} InitialInv(s: State)
    requires Initial(s)
    ensures Inv(s)
  {
    assert forall q :: s.Queue(q) == [];
    assert forall p, o :: !Points(s, p, o);
  }

  /** The condition under which an event keeps the invariant; most events need none. */
  ghost predicate Safe(s: State, e: Event) {
    match e
    case Quit(p) => StopSafe(s, p)
    case Rouse(p) => ResumeSafe(s, p)
    case Clock(t) => TickSafe(s, t)
    case _ => true
  }

  /** One step: the invariant survives exactly when the event is safe. */
  lemma {:induction false} StepExact(s: State, e: Event)
    requires Inv(s) && Enabled(s, e)
    ensures Inv(Next(s, e)) <==> Safe(s, e)
  {
    if e.Quit? || e.Rouse? || e.Clock? {
      match e
      case Quit(p) => StopExact(s, p);
      case Rouse(p) => ResumeExact(s, p);
      case Clock(t) => TickExact(s, t);
    } else {
      StepKeeps(s, e);
    }
  }

  lemma {:induction false} StepKeeps(s: State, e: Event)
    requires Inv(s) && Enabled(s, e) && !e.Quit? && !e.Rouse? && !e.Clock?
    ensures Inv(Next(s, e))
  {
    if e.Acquire? || e.Release? || e.Reset? || e.Lock? || e.Unlock? || e.Refresh? || e.Dispatch? {
      MutexKeeps(s, e);
    } else if e.Prioritize? || e.SleepSelf? || e.Sleep? || e.QuitSelf? || e.Launch? || e.Delay? || e.NextPeriod? {
      ProcessKeeps(s, e);
    } else if e.Take? || e.Give? || e.Send? || e.Receive? {
      TransferKeeps(s, e);
    } else if e.Raise? || e.Lower? || e.Await? {
      EventKeeps(s, e);
    } else {
      BlackboardKeeps(s, e);
    }
  }

  lemma {:induction false} MutexKeeps(s: State, e: Event)
    requires Inv(s) && Enabled(s, e)
    requires e.Acquire? || e.Release? || e.Reset? || e.Lock? || e.Unlock? || e.Refresh? || e.Dispatch?
    ensures Inv(Next(s, e))
  {
    match e
    case Acquire(id, t) => AcquireInv(s, id, t);
    case Release(id) => ReleaseInv(s, id);
    case Reset(id, p) => ResetInv(s, id, p);
    case Lock => LockInv(s);
    case Unlock => UnlockInv(s);
    case Refresh => LockCallInv((s, NoError));
    case Dispatch => ScheduleInv(s);
  }

  lemma {:induction false} ProcessKeeps(s: State, e: Event)
    requires Inv(s) && Enabled(s, e)
    requires e.Prioritize? || e.SleepSelf? || e.Sleep? || e.QuitSelf? || e.Launch? || e.Delay? || e.NextPeriod?
    ensures Inv(Next(s, e))
  {
    match e
    case Prioritize(p, n) => SetPriorityInv(s, p, n);
    case SleepSelf(t) => SuspendSelfInv(s, t);
    case Sleep(p) => SuspendInv(s, p);
    case QuitSelf => StopSelfInv(s);
    case Launch(p, f) => StartInv(s, p, f);
    case Delay(t) => TimedWaitInv(s, t);
    case NextPeriod => PeriodicWaitInv(s);
  }

  lemma {:induction false} TransferKeeps(s: State, e: Event)
    requires Inv(s) && Enabled(s, e) && (e.Take? || e.Give? || e.Send? || e.Receive?)
    ensures Inv(Next(s, e))
  {
    match e
    case Take(id, t) => WaitSemaphoreInv(s, id, t);
    case Give(id) => SignalSemaphoreInv(s, id);
    case Send(id, m, t) => SendInv(s, id, m, t);
    case Receive(id, t) => ReceiveInv(s, id, t);
  }

  lemma {:induction false} EventKeeps(s: State, e: Event)
    requires Inv(s) && Enabled(s, e) && (e.Raise? || e.Lower? || e.Await?)
    ensures Inv(Next(s, e))
  {
    match e
    case Raise(id) => SetEventInv(s, id);
    case Lower(id) => ResetEventInv(s, id);
    case Await(id, t) => WaitEventInv(s, id, t);
  }

  lemma {:induction false} BlackboardKeeps(s: State, e: Event)
    requires Inv(s) && Enabled(s, e) && (e.Display? || e.Read? || e.Clear?)
    ensures Inv(Next(s, e))
  {
    match e
    case Display(id, m) => DisplayInv(s, id, m);
    case Read(id, t) => ReadInv(s, id, t);
    case Clear(id) => ClearInv(s, id);
  }

  // ---------------------------------------------------------------- whole runs

  /** Every event of the run can happen when its turn comes. */
  ghost predicate Feasible(s: State, run: seq<Event>)
    decreases |run|
  {
    run != [] ==> Enabled(s, run[0]) && Feasible(Next(s, run[0]), run[1..])
  }

  function Exec(s: State, run: seq<Event>): State
    requires Feasible(s, run)
    decreases |run|
  {
    if run == [] then s else Exec(Next(s, run[0]), run[1..])
  }

  ghost predicate AllSafe(s: State, run: seq<Event>)
    requires Feasible(s, run)
    decreases |run|
  {
    run != [] ==> Safe(s, run[0]) && AllSafe(Next(s, run[0]), run[1..])
  }

  ghost predicate AlwaysInv(s: State, run: seq<Event>)
    requires Feasible(s, run)
    decreases |run|
  {
    Inv(s) && (run != [] ==> AlwaysInv(Next(s, run[0]), run[1..]))
  }

  /** A run from a good state stays good throughout exactly when each of its events is safe. */
  lemma {:induction false} RunExact(s: State, run: seq<Event>)
    requires Inv(s) && Feasible(s, run)
    ensures AlwaysInv(s, run) <==> AllSafe(s, run)
    ensures AllSafe(s, run) ==> Inv(Exec(s, run))
    decreases |run|
  {
    if run != [] {
      var t := Next(s, run[0]);
      StepExact(s, run[0]);
      if Safe(s, run[0]) {
        RunExact(t, run[1..]);
      } else {
        NotAlways(t, run[1..]);
      }
    }
  }

  /** A run goes on by one event. */
  lemma {:induction false} Extend(s: State, run: seq<Event>, e: Event)
    requires Feasible(s, run) && Enabled(Exec(s, run), e)
    ensures Feasible(s, run + [e]) && Exec(s, run + [e]) == Next(Exec(s, run), e)
    ensures AllSafe(s, run) && Safe(Exec(s, run), e) ==> AllSafe(s, run + [e])
    decreases |run|
  {
    if run == [] {
      assert run + [e] == [e];
      assert [e][1..] == [];
    } else {
      assert (run + [e])[1..] == run[1..] + [e];
      Extend(Next(s, run[0]), run[1..], e);
    }
  }

  lemma {:induction false} NotAlways(s: State, run: seq<Event>)
    requires !Inv(s) && Feasible(s, run)
    ensures !AlwaysInv(s, run)
  {
  }

  // ---------------------------------------------------------------- what the invariant gives

  /** Every state of a safe run from an initial state is good. */
  lemma {:induction false} ReachedInv(s: State, run: seq<Event>)
    requires Initial(s) && Feasible(s, run) && AllSafe(s, run)
    ensures Inv(Exec(s, run))
  {
    InitialInv(s);
    RunExact(s, run);
  }

  /** `p` is queued on a mutex owned by `q`. */
  ghost predicate WaitsFor(s: State, p: Pid, q: Pid) {
    exists id ::
      id in s.mutexes && p in s.Queue(Waiters(Obj(MutexKind, id))) && s.mutexes[id].owned && s.mutexes[id].owner == q
  }

  /** Each process of the chain waits for the next. */
  ghost predicate WaitChain(s: State, chain: seq<Pid>) {
    forall i :: 0 <= i < |chain| - 1 ==> ChainLink(s, chain, i)
  }

  ghost predicate ChainLink(s: State, chain: seq<Pid>, i: int)
    requires 0 <= i < |chain| - 1
  {
    WaitsFor(s, chain[i], chain[i + 1])
  }

  lemma {:induction false} OwnersDoNotWait(s: State, p: Pid, q: Pid)
    requires Inv(s) && WaitsFor(s, p, q)
    ensures q in s.procs && Alive(s.procs[q]) && !Queued(s, q) && p != q && forall r :: !WaitsFor(s, q, r)
  {
    AliveNotQueued(s, q);
  }

  /** An owned mutex has one owner, which names it, holds 1 to 16 locks, can run, and runs at the ceiling;
      waiters own nothing. */
  ghost predicate Ownership(t: State) {
    && (forall id, p :: id in t.mutexes && p in t.procs ==>
          (t.procs[p].owned == Some(id) <==> t.mutexes[id].owned && t.mutexes[id].owner == p))
    && (forall id :: id in t.mutexes && t.mutexes[id].owned ==>
          && t.mutexes[id].owner in t.procs && 1 <= t.mutexes[id].locks <= MAX_LOCK_LEVEL
          && Alive(t.procs[t.mutexes[id].owner]) && t.procs[t.mutexes[id].owner].priority == t.mutexes[id].ceiling)
    && (forall id, p :: p in t.Queue(Waiters(Obj(MutexKind, id))) ==>
          id in t.mutexes && t.mutexes[id].owned && t.mutexes[id].owner != p && t.At(p).owned.None?)
  }

  lemma {:induction false} GoodOwnership(t: State)
    requires Inv(t)
    ensures Ownership(t)
  {
    forall id, p | p in t.Queue(Waiters(Obj(MutexKind, id)))
      ensures id in t.mutexes && t.mutexes[id].owned && t.mutexes[id].owner != p && t.At(p).owned.None?
    {
      WaiterOwnsNothing(t, id, p);
    }
  }

  lemma {:induction false} WaiterOwnsNothing(t: State, id: int, p: Pid)
    requires QueueOk(t) && MutexOk(t) && WakeOk(t) && p in t.Queue(Waiters(Obj(MutexKind, id)))
    ensures id in t.mutexes && t.mutexes[id].owned && t.mutexes[id].owner != p && t.At(p).owned.None?
  {
    assert Unavailable(t, Waiters(Obj(MutexKind, id)));
  }

  /** Every chain of waits ends after one step, so none closes to a cycle. */
  ghost predicate NoCycle(t: State) {
    forall chain :: WaitChain(t, chain) && |chain| > 1 ==> |chain| == 2 && chain[0] != chain[|chain| - 1]
  }

  lemma {:induction false} GoodNoCycle(t: State)
    requires Inv(t)
    ensures NoCycle(t)
  {
    forall chain | WaitChain(t, chain) && |chain| > 1
      ensures |chain| == 2 && chain[0] != chain[|chain| - 1]
    {
      assert ChainLink(t, chain, 0);
      OwnersDoNotWait(t, chain[0], chain[1]);
      assert |chain| == 2 || ChainLink(t, chain, 1);
    }
  }

  /** The mutex protocol in every state of every safe run. */
  lemma {:induction false} MutexGuarantees(s: State, run: seq<Event>)
    requires Initial(s) && Feasible(s, run) && AllSafe(s, run)
    ensures Ownership(Exec(s, run)) && NoCycle(Exec(s, run))
  {
    ReachedInv(s, run);
    GoodOwnership(Exec(s, run));
    GoodNoCycle(Exec(s, run));
  }

  /** The scheduler finds somebody to run, at least as urgent, whenever some process can. */
  lemma {:induction false} AliveNeverStuck(s: State, p: Pid)
    requires OrderOk(s) && RunOk(s) && p in s.procs && Alive(s.procs[p]) && s.procs[p].priority >= 0
    ensures Schedule(s).current.Some?
    ensures s.procs[p].priority <= Schedule(s).At(Schedule(s).current.value).priority
  {
    var t := Preempted(s);
    PreemptedReady(s, p);
    SelectCovers(t.procs, t.order, p);
    ScheduledAs(s, Select(t.procs, t.order));
  }

  /** An owner can always be dispatched, so a mutex cannot stop the partition. */
  lemma {:induction false} OwnerNeverStuck(s: State, id: int)
    requires Inv(s) && id in s.mutexes && s.mutexes[id].owned && s.mutexes[id].ceiling >= 0
    ensures Schedule(s).current.Some?
    ensures s.mutexes[id].ceiling <= Schedule(s).At(Schedule(s).current.value).priority
  {
    AliveNeverStuck(s, s.mutexes[id].owner);
  }

  /** What is available has no waiters, the counters are exact, and the semaphore's value is what
      signals and grants make it. */
  ghost predicate NobodyForgotten(s: State, id: int) {
    && (id in s.mutexes && !s.mutexes[id].owned ==> s.Queue(Waiters(Obj(MutexKind, id))) == [])
    && (id in s.semaphores && s.semaphores[id].value > 0 ==> s.Queue(Waiters(Obj(SemaphoreKind, id))) == [])
    && (id in s.semaphores ==>
          s.semaphores[id].value + s.semaphores[id].grants == s.semaphores[id].initial + s.semaphores[id].signals)
    && (id in s.events && s.events[id] ==> s.Queue(Waiters(Obj(EventKind, id))) == [])
    && (id in s.blackboards && s.blackboards[id].occupied ==> s.Queue(Waiters(Obj(BlackboardKind, id))) == [])
    && (id in s.buffers && |s.buffers[id].ring| > 0 ==> s.Queue(Waiters(Obj(BufferKind, id))) == [])
    && (id in s.buffers && |s.buffers[id].ring| < s.buffers[id].maxMessages ==>
          s.Queue(Writers(Obj(BufferKind, id))) == [])
    && (forall k :: s.Count(Obj(k, id)) == |s.Queue(Waiters(Obj(k, id)))| + |s.Queue(Writers(Obj(k, id)))|)
  }

  lemma {:induction false} GoodForgetsNobody(s: State, id: int)
    requires Inv(s)
    ensures NobodyForgotten(s, id)
  {
    Unserved(s, Waiters(Obj(MutexKind, id)));
    Unserved(s, Waiters(Obj(SemaphoreKind, id)));
    Unserved(s, Waiters(Obj(EventKind, id)));
    Unserved(s, Waiters(Obj(BlackboardKind, id)));
    Unserved(s, Waiters(Obj(BufferKind, id)));
    Unserved(s, Writers(Obj(BufferKind, id)));
  }

  /** No lost wake-up in any state of any safe run. */
  lemma {:induction false} NoLostWakeups(s: State, run: seq<Event>, id: int)
    requires Initial(s) && Feasible(s, run) && AllSafe(s, run)
    ensures NobodyForgotten(Exec(s, run), id)
  {
    ReachedInv(s, run);
    GoodForgetsNobody(Exec(s, run), id);
  }
}
