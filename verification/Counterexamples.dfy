/** Short concrete runs on which the code leaves the invariant, one per exact condition. */
module Counterexamples {
  import opened Apex
  import opened Sequences
  import opened Services
  import opened Invariant
  import opened Exact
  import opened Runs
  import opened PreemptionLock

  function Task(state: ProcState, priority: int): Proc {
    NO_PROC.(state := state, priority := priority, base := priority)
  }

  predicate Step(s: State, e: Event, t: State) {
    Enabled(s, e) && Next(s, e) == t
  }

  /** Some safe run from an initial state ends in `s`. */
  ghost predicate Reachable(s: State) {
    exists start, run :: ReachedBy(start, run, s)
  }

  ghost predicate ReachedBy(start: State, run: seq<Event>, s: State) {
    Initial(start) && LockOk(start) && Feasible(start, run) && AllSafe(start, run) && Exec(start, run) == s
  }

  lemma {:induction false} Begin(s: State)
    requires Initial(s) && LockOk(s)
    ensures Reachable(s)
  {
    assert ReachedBy(s, [], s);
  }

  lemma {:induction false} Proceed(s: State, e: Event, t: State)
    requires Reachable(s) && Step(s, e, t) && Safe(s, e)
    ensures Reachable(t)
  {
    var start, run :| ReachedBy(start, run, s);
    Extend(start, run, e);
    assert ReachedBy(start, run + [e], t);
  }

  /** Two READY processes at the top priority, and the preemption lock. */
  function Pair(x: Proc, y: Proc, order: seq<Pid>, current: Option<Pid>, yielded: bool, lock: Mutex,
      level: int): State {
    State(map[1 := x, 2 := y], order, current, yielded, Waits(map[], map[]),
          Objects(map[1 := lock], map[], map[], map[], map[]), level, 0)
  }

  const FREE_LOCK := Mutex(false, 0, 0, 239, 0, Fifo)
  const TOP := Task(Ready, 239)
  const HOLDER := Task(Running, 239).(owned := Some(1))

  const P0 := Pair(TOP, TOP, [1, 2], None, false, FREE_LOCK, 0)
  const P1 := Pair(Task(Running, 239), TOP, [1, 2], Some(1), false, FREE_LOCK, 0)
  const P2 := Pair(HOLDER, TOP, [1, 2], Some(1), false, Mutex(true, 1, 1, 239, 239, Fifo), 1)
  const P3 := Pair(HOLDER, TOP, [2, 1], Some(1), true, Mutex(true, 1, 1, 239, 10, Fifo), 1)
  const P4 := Pair(HOLDER.(state := Ready), Task(Running, 239), [2, 1], Some(2), false,
      Mutex(true, 1, 1, 239, 10, Fifo), 1)

  lemma {:induction false} SelectTwo(procs: map<Pid, Proc>, p: Pid, q: Pid)
    requires IsReady(procs, p) && IsReady(procs, q) && procs[p].priority == procs[q].priority >= 0
    ensures Select(procs, [p, q]) == Some(p)
  {
    assert [p, q][..1] == [p];
    assert [p][..0] == [];
    assert Select(procs, [p]) == Some(p);
  }

  lemma {:induction false} PairDispatch()
    ensures Step(P0, Dispatch, P1)
  {
    SelectTwo(P0.procs, 1, 2);
  }

  lemma {:induction false} PairLock()
    ensures Step(P1, Lock, P2)
  {
    assert Remove([1, 2], 1) == [2];
  }

  lemma {:induction false} PairDemote()
    ensures Step(P2, Prioritize(1, 10), P3)
  {
    assert Remove([1, 2], 1) == [2];
  }

  lemma {:induction false} PairRedispatch()
    ensures Step(P3, Dispatch, P4)
  {
    SelectTwo(Preempted(P3).procs, 2, 1);
  }

  lemma {:induction false} PairStarts()
    ensures Initial(P0) && LockOk(P0)
  {
  }

  lemma {:induction false} PairReachable()
    ensures Reachable(P4)
  {
    PairStarts();
    Begin(P0);
    PairDispatch();
    Proceed(P0, Dispatch, P1);
    PairLock();
    Proceed(P1, Lock, P2);
    PairDemote();
    Proceed(P2, Prioritize(1, 10), P3);
    PairRedispatch();
    Proceed(P3, Dispatch, P4);
  }

  /** LOCK_PREEMPTION, then SET_PRIORITY on itself: the next dispatch runs the other process. */
  lemma {:induction false} DemotedLockerLoses()
    ensures exists s :: Reachable(s) && Locked(s) && s.current.Some? && !s.yielded && s.current != Some(Locker(s))
  {
    PairReachable();
  }

  /** A mutex belongs to a process that is not started. */
  predicate OwnedByDormant(s: State, id: int, p: Pid) {
    id in s.mutexes && s.mutexes[id].owned && s.mutexes[id].owner == p && p in s.procs && s.procs[p].state == Dormant
  }

  /** That other process may then STOP the owner, and the mutex is left to a DORMANT process. */
  lemma {:induction false} StopLeavesMutex()
    ensures exists s, id, p :: Reachable(s) && Enabled(s, Quit(p)) && OwnedByDormant(Next(s, Quit(p)), id, p)
  {
    PairReachable();
    StopOutright(P4, 1);
    assert OwnedByDormant(Next(P4, Quit(1)), 1, 1);
  }

  /** STOP of a process that points at no object only marks it DORMANT. */
  lemma {:induction false} StopOutright(s: State, p: Pid)
    requires s.current.Some? && !s.yielded && s.current != Some(p) && p in s.order
    requires s.At(p).state != Dormant && s.At(p).waitingOn == NO_POINTERS
    ensures Enabled(s, Quit(p)) && Next(s, Quit(p)) == s.With(p, Killed(s.At(p))).(yielded := true)
  {
    LeaveNothing(s, p);
    StopIs(s, p, s);
  }

  // ---------------------------------------------------------------- a semaphore waiter

  const QUEUE := Waiters(Obj(SemaphoreKind, 1))

  /** Process 1 and process 2 share an empty semaphore; process 1 may stand in its queue. */
  function Sharing(x: Proc, y: Proc, current: Option<Pid>, yielded: bool, waits: Waits): State {
    State(map[1 := x, 2 := y], [1, 2], current, yielded, waits,
          Objects(map[1 := FREE_LOCK], map[1 := Semaphore(0, 1, Fifo, 0, 0, 0)], map[], map[], map[]), 0, 0)
  }

  function Sleeper(timeout: int): Proc {
    Task(Waiting, 20).(
      timer := if timeout == INFINITE then 0 else timeout,
      waitingOn := if timeout == INFINITE then NO_POINTERS else NO_POINTERS.(semaphore := Some(1)))
  }

  const ONE_WAITS := Waits(map[QUEUE := [1]], map[Obj(SemaphoreKind, 1) := 1])
  const W0 := Sharing(Task(Ready, 20), Task(Ready, 20), None, false, Waits(map[], map[]))
  const W1 := Sharing(Task(Running, 20), Task(Ready, 20), Some(1), false, Waits(map[], map[]))

  function W2(timeout: int): State {
    Sharing(Sleeper(timeout), Task(Ready, 20), Some(1), true, ONE_WAITS)
  }

  function W3(timeout: int): State {
    Sharing(Sleeper(timeout), Task(Running, 20), Some(2), false, ONE_WAITS)
  }

  const W4 := Sharing(Sleeper(INFINITE).(suspended := true), Task(Running, 20), Some(2), false, ONE_WAITS)

  lemma {:induction false} WaitStarts()
    ensures Initial(W0) && LockOk(W0)
  {
  }

  lemma {:induction false} WaitDispatch()
    ensures Step(W0, Dispatch, W1)
  {
    SelectTwo(W0.procs, 1, 2);
  }

  lemma {:induction false} WaitTake(timeout: int)
    requires timeout == INFINITE || timeout == 5
    ensures Step(W1, Take(1, timeout), W2(timeout))
  {
    assert W1.Queue(QUEUE) + [1] == [1];
    var t := Next(W1, Take(1, timeout));
    assert t.waits == ONE_WAITS;
    assert t.procs == W2(timeout).procs;
  }

  lemma {:induction false} WaitRedispatch(timeout: int)
    ensures Step(W2(timeout), Dispatch, W3(timeout))
  {
    var procs := Preempted(W2(timeout)).procs;
    assert [1, 2][..1] == [1];
    assert [1][..0] == [];
    assert Select(procs, [1]) == None;
    assert Select(procs, [1, 2]) == Some(2);
  }

  lemma {:induction false} WaitSleep()
    ensures Step(W3(INFINITE), Sleep(1), W4)
  {
  }

  lemma {:induction false} WaiterReachable(timeout: int)
    requires timeout == INFINITE || timeout == 5
    ensures Reachable(W3(timeout))
  {
    WaitStarts();
    Begin(W0);
    WaitDispatch();
    Proceed(W0, Dispatch, W1);
    WaitTake(timeout);
    Proceed(W1, Take(1, timeout), W2(timeout));
    WaitRedispatch(timeout);
    Proceed(W2(timeout), Dispatch, W3(timeout));
  }

  /** `p` stands in a queue without waiting. */
  predicate QueuedAs(s: State, q: QueueId, p: Pid, state: ProcState) {
    p in s.Queue(q) && p in s.procs && s.procs[p].state == state
  }

  /** STOP does not find a process that waits for a semaphore without a time-out. */
  lemma {:induction false} StopLeavesWaiter()
    ensures exists s, id, p :: Reachable(s) && Enabled(s, Quit(p))
              && QueuedAs(Next(s, Quit(p)), Waiters(Obj(SemaphoreKind, id)), p, Dormant)
  {
    var s := W3(INFINITE);
    WaiterReachable(INFINITE);
    StopOutright(s, 1);
    assert QueuedAs(Next(s, Quit(1)), Waiters(Obj(SemaphoreKind, 1)), 1, Dormant);
  }

  /** A time-out makes a process READY and leaves it in the queue. */
  lemma {:induction false} ExpiryLeavesWaiter()
    ensures exists s, id, p, now :: Reachable(s) && Enabled(s, Clock(now))
              && QueuedAs(Next(s, Clock(now)), Waiters(Obj(SemaphoreKind, id)), p, Ready)
  {
    var s := W3(5);
    WaiterReachable(5);
    assert Expired(s.At(1), 5);
    assert Enabled(s, Clock(5)) && QueuedAs(Next(s, Clock(5)), Waiters(Obj(SemaphoreKind, 1)), 1, Ready);
  }

  lemma {:induction false} SuspendedReachable()
    ensures Reachable(W4)
  {
    WaiterReachable(INFINITE);
    WaitSleep();
    Proceed(W3(INFINITE), Sleep(1), W4);
  }

  /** SUSPEND then RESUME makes a queued process READY before its semaphore is signalled. */
  lemma {:induction false} ResumeLeavesWaiter()
    ensures exists s, id, p :: Reachable(s) && Enabled(s, Rouse(p))
              && QueuedAs(Next(s, Rouse(p)), Waiters(Obj(SemaphoreKind, id)), p, Ready)
              && Next(s, Rouse(p)).semaphores == s.semaphores
  {
    SuspendedReachable();
    assert Enabled(W4, Rouse(1)) && QueuedAs(Next(W4, Rouse(1)), Waiters(Obj(SemaphoreKind, 1)), 1, Ready);
  }

  // ---------------------------------------------------------------- a served caller that reports a time-out

  /** Process 1, now at priority 10, was granted the semaphore and waits for the processor. */
  function Served(x: Proc, current: Option<Pid>, yielded: bool): State {
    State(map[1 := x, 2 := Task(Running, 20)], [1, 2], current, yielded,
          Waits(map[QUEUE := []], map[Obj(SemaphoreKind, 1) := 0]),
          Objects(map[1 := FREE_LOCK], map[1 := Semaphore(0, 1, Fifo, 0, 1, 1)], map[], map[], map[]), 0, 0)
  }

  const LOW_SLEEPER := Sleeper(5).(priority := 10)
  const GRANTED := Task(Ready, 20).(priority := 10, timer := INFINITE)
  const V4 := Sharing(LOW_SLEEPER, Task(Running, 20), Some(2), false, ONE_WAITS)
  const V5 := Served(GRANTED, Some(2), true)
  const V6 := Served(GRANTED, Some(2), false)
  const V7 := Served(GRANTED.(state := Waiting, suspended := true), Some(2), false)
  const V8 := Served(GRANTED.(timer := 0), Some(2), true)

  lemma {:induction false} ServeLower()
    ensures Step(W3(5), Prioritize(1, 10), V4)
  {
  }

  lemma {:induction false} ServeGive()
    ensures Step(V4, Give(1), V5)
  {
    var t := Next(V4, Give(1));
    assert V4.Queue(QUEUE) == [1] && [1][1..] == [];
    assert t.waits == V5.waits;
    assert t.procs == V5.procs;
  }

  lemma {:induction false} ServeDispatch()
    ensures Step(V5, Dispatch, V6)
  {
    var procs := Preempted(V5).procs;
    assert [1, 2][..1] == [1];
    assert [1][..0] == [];
    assert Select(procs, [1]) == Some(1);
    assert Select(procs, [1, 2]) == Some(2);
  }

  lemma {:induction false} ServeSleep()
    ensures Step(V6, Sleep(1), V7)
  {
  }

  lemma {:induction false} ServeRouse()
    ensures Step(V7, Rouse(1), V8) && Safe(V7, Rouse(1))
  {
    assert forall q :: 1 !in V7.Queue(q);
  }

  lemma {:induction false} GrantedReachable()
    ensures Reachable(V6)
  {
    WaiterReachable(5);
    ServeLower();
    Proceed(W3(5), Prioritize(1, 10), V4);
    ServeGive();
    Proceed(V4, Give(1), V5);
    ServeDispatch();
    Proceed(V5, Dispatch, V6);
  }

  lemma {:induction false} ResumedReachable()
    ensures Reachable(V8)
  {
    GrantedReachable();
    ServeSleep();
    Proceed(V6, Sleep(1), V7);
    ServeRouse();
    Proceed(V7, Rouse(1), V8);
  }

  predicate ReportsTimeout(s: State, p: Pid, timeout: int) {
    p in s.procs && s.procs[p].state == Ready && WakeCode(s.procs[p], timeout) == TimedOut
  }

  /** SUSPEND and RESUME between the grant and the dispatch: a caller that would wait up to 5 was served at
      once, no time has passed, and WAIT_SEMAPHORE will return TIMED_OUT. */
  lemma {:induction false} ServedButTimedOut()
    ensures exists s, p :: Reachable(s) && ReportsTimeout(s, p, 5) && s.now == 0
              && 1 in s.semaphores && s.semaphores[1].grants == 1
  {
    ResumedReachable();
    assert ReportsTimeout(V8, 1, 5);
  }

  // ---------------------------------------------------------------- a periodic process that runs early

  /** One process of period 100. */
  function Periodic(state: ProcState, release: int, timer: int, current: Option<Pid>, yielded: bool, now: int): State {
    State(map[1 := Task(state, 20).(period := 100, release := release, timer := timer)], [1], current, yielded,
          Waits(map[], map[]), Objects(map[1 := FREE_LOCK], map[], map[], map[], map[]), 0, now)
  }

  lemma {:induction false} PeriodicStarts()
    ensures Initial(Periodic(Ready, 0, 0, None, false, 0)) && LockOk(Periodic(Ready, 0, 0, None, false, 0))
  {
  }

  lemma {:induction false} PeriodicDispatch(timer: int, current: Option<Pid>, yielded: bool, now: int)
    requires current == None || current == Some(1)
    ensures Step(Periodic(Ready, 0, timer, current, yielded, now), Dispatch,
            Periodic(Running, 0, timer, Some(1), false, now))
  {
    var s := Periodic(Ready, 0, timer, current, yielded, now);
    assert [1][..0] == [];
    assert Select(s.procs, [1]) == Some(1);
  }

  lemma {:induction false} PeriodicDelay()
    ensures Step(Periodic(Running, 0, 0, Some(1), false, 0), Delay(50), Periodic(Waiting, 0, 50, Some(1), true, 0))
  {
  }

  lemma {:induction false} PeriodicClock(release: int, now: int, next: int, timer: int)
    requires (release, now, next, timer) == (0, 0, 10, 50) || (release, now, next, timer) == (100, 10, 60, 0)
    ensures Step(Periodic(Waiting, release, 50, Some(1), true, now), Clock(next),
                 Periodic(Ready, release, timer, Some(1), true, next))
    ensures Safe(Periodic(Waiting, release, 50, Some(1), true, now), Clock(next))
  {
    var s := Periodic(Waiting, release, 50, Some(1), true, now);
    assert forall q :: s.Queue(q) == [];
  }

  lemma {:induction false} PeriodicNext()
    ensures Step(Periodic(Running, 0, 50, Some(1), false, 10), NextPeriod,
            Periodic(Waiting, 100, 50, Some(1), true, 10))
  {
  }

  /** TIMED_WAIT past the release point is cut short with its time-out still pending, and that time-out makes
      the process READY before the release point PERIODIC_WAIT set. */
  lemma {:induction false} TimedWaitRunsEarly()
    ensures exists s, p :: Reachable(s) && p in s.procs && s.procs[p].state == Ready && s.procs[p].period != INFINITE
              && s.now < s.procs[p].release
  {
    PeriodicStarts();
    Begin(Periodic(Ready, 0, 0, None, false, 0));
    PeriodicDispatch(0, None, false, 0);
    Proceed(Periodic(Ready, 0, 0, None, false, 0), Dispatch, Periodic(Running, 0, 0, Some(1), false, 0));
    PeriodicDelay();
    Proceed(Periodic(Running, 0, 0, Some(1), false, 0), Delay(50), Periodic(Waiting, 0, 50, Some(1), true, 0));
    PeriodicClock(0, 0, 10, 50);
    Proceed(Periodic(Waiting, 0, 50, Some(1), true, 0), Clock(10), Periodic(Ready, 0, 50, Some(1), true, 10));
    PeriodicDispatch(50, Some(1), true, 10);
    Proceed(Periodic(Ready, 0, 50, Some(1), true, 10), Dispatch, Periodic(Running, 0, 50, Some(1), false, 10));
    PeriodicNext();
    Proceed(Periodic(Running, 0, 50, Some(1), false, 10), NextPeriod, Periodic(Waiting, 100, 50, Some(1), true, 10));
    PeriodicClock(100, 10, 60, 0);
    Proceed(Periodic(Waiting, 100, 50, Some(1), true, 10), Clock(60), Periodic(Ready, 100, 0, Some(1), true, 60));
    assert Periodic(Ready, 100, 0, Some(1), true, 60).procs[1].state == Ready;
  }
}
