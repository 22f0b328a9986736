/** Release points of periodic processes: no drift, never early, deadlines in step. */
module ReleasePoints {
  import opened Apex
  import opened Sequences
  import opened Services
  import opened Invariant
  import opened Exact
  import opened Runs
  import opened Timing
  import opened Bystanders

  // ---------------------------------------------------------------- no drift

  predicate DeadlineInStep(x: Proc) {
    x.deadline == DeadlineFrom(x, x.release)
  }

  /** `y` is `x` with its release point moved on by `k` periods, and the deadline with it. */
  predicate Moved(x: Proc, y: Proc, k: nat) {
    y.release == x.release + k * x.period && y.period == x.period && y.capacity == x.capacity && DeadlineInStep(y)
  }

  lemma {:induction false} MovedTrans(x: Proc, y: Proc, z: Proc, j: nat, k: nat)
    requires Moved(x, y, j) && Moved(y, z, k)
    ensures Moved(x, z, j + k)
  {
    Distribute(j, k, x.period);
  }

  /** Each successful PERIODIC_WAIT moves the release point on by one period from the last release
      point, not from the time of the call, and the deadline with it. */
  lemma {:induction false} PaceStep(s: State, e: Event, p: Pid)
    requires Enabled(s, e) && !Restarts(s, e, p) && s.At(p).period != INFINITE && DeadlineInStep(s.At(p))
    ensures Moved(s.At(p), Next(s, e).At(p), Advance(s, e, p))
  {
    if Advance(s, e, p) == 0 {
      KeptEvent(s, e, p);
    }
  }

  function WaitsDone(s: State, run: seq<Event>, p: Pid): nat
    requires Feasible(s, run)
    decreases |run|
  {
    if run == [] then 0 else Advance(s, run[0], p) + WaitsDone(Next(s, run[0]), run[1..], p)
  }

  ghost predicate NoRestart(s: State, run: seq<Event>, p: Pid)
    requires Feasible(s, run)
    decreases |run|
  {
    run != [] ==> !Restarts(s, run[0], p) && NoRestart(Next(s, run[0]), run[1..], p)
  }

  /** After any run with k successful PERIODIC_WAITs the release point is first + k * PERIOD. */
  lemma {:induction false} NoDrift(s: State, run: seq<Event>, p: Pid)
    requires Feasible(s, run) && NoRestart(s, run, p) && s.At(p).period != INFINITE && DeadlineInStep(s.At(p))
    ensures Moved(s.At(p), Exec(s, run).At(p), WaitsDone(s, run, p))
    decreases |run|
  {
    if run != [] {
      var t := Next(s, run[0]);
      PaceStep(s, run[0], p);
      NoDrift(t, run[1..], p);
      MovedTrans(s.At(p), t.At(p), Exec(s, run).At(p), Advance(s, run[0], p), WaitsDone(t, run[1..], p));
    }
  }

  lemma {:induction false} Distribute(a: int, b: int, c: int)
    ensures (a + b) * c == a * c + b * c
  {
  }

  // ---------------------------------------------------------------- never early

  /** No time-out is pending. */
  predicate Unarmed(x: Proc) {
    x.timer == 0 || x.timer == INFINITE
  }

  /** `p` stands in no queue, has no time-out pending, and can run only if its release point has come. */
  ghost predicate OnTime(s: State, p: Pid) {
    && p in s.procs && s.procs[p].period != INFINITE && s.procs[p].state != Faulted && !Queued(s, p)
    && Unarmed(s.procs[p]) && (Alive(s.procs[p]) ==> s.procs[p].release <= s.now)
  }

  /** If `p` executes `e` and blocks, it does so by PERIODIC_WAIT. */
  predicate BlocksPeriodically(s: State, e: Event, p: Pid)
    requires Enabled(s, e)
  {
    s.current == Some(p) && !e.Dispatch? && !e.Clock? && Next(s, e).At(p).state == Waiting ==> e.NextPeriod?
  }

  /** A parked caller is WAITING. */
  lemma {:induction false} ParkedWaits(s: State, e: Event)
    requires Enabled(s, e) && !e.Dispatch? && !e.Clock? && CodeOf(s, e) == Parked
    ensures Next(s, e).At(s.current.value).state == Waiting
  {
    if e.Acquire? || e.Lock? || e.SleepSelf? || e.Take? {
      CallerWaits(s, e);
    } else if e.Await? || e.Read? || e.Send? || e.Receive? {
      MessageWaits(s, e);
    } else {
      ParksNobody(s, e);
    }
  }

  lemma {:induction false} CallerWaits(s: State, e: Event)
    requires Enabled(s, e) && CodeOf(s, e) == Parked && (e.Acquire? || e.Lock? || e.SleepSelf? || e.Take?)
    ensures Next(s, e).At(s.current.value).state == Waiting
  {
  }

  lemma {:induction false} MessageWaits(s: State, e: Event)
    requires Enabled(s, e) && CodeOf(s, e) == Parked && (e.Await? || e.Read? || e.Send? || e.Receive?)
    ensures Next(s, e).At(s.current.value).state == Waiting
  {
  }

  lemma {:induction false} ParksNobody(s: State, e: Event)
    requires Enabled(s, e) && !e.Acquire? && !e.Lock? && !e.SleepSelf? && !e.Take? && !e.Await? && !e.Read?
    requires !e.Send? && !e.Receive?
    ensures CodeOf(s, e) != Parked
  {
  }

  /** The steps `p` executes itself. */
  lemma {:induction false} OwnStep(s: State, e: Event, p: Pid)
    requires Inv(s) && OnTime(s, p) && Enabled(s, e) && s.current == Some(p) && !e.Dispatch? && !e.Clock?
    requires Inv(Next(s, e)) && BlocksPeriodically(s, e, p) && !Restarts(s, e, p)
    ensures OnTime(Next(s, e), p)
  {
    var t := Next(s, e);
    if Advance(s, e, p) == 1 {
      assert forall q :: t.Queue(q) == s.Queue(q);
    } else {
      KeptEvent(s, e, p);
      NotRearmed(s, e, p);
      TicksEvent(s, e, p);
      AliveNotQueued(t, p);
    }
  }

  lemma {:induction false} NotRearmed(s: State, e: Event, p: Pid)
    requires Enabled(s, e) && s.current == Some(p) && !e.Dispatch? && !e.Clock? && !e.QuitSelf?
    requires BlocksPeriodically(s, e, p) && Advance(s, e, p) == 0 && s.At(p).state != Waiting
    ensures Next(s, e).At(p).state != Waiting && !Rearms(s, e, p)
  {
    if CodeOf(s, e) == Parked {
      ParkedWaits(s, e);
    }
  }

  /** SUSPEND and RESUME refuse a periodic process. */
  lemma {:induction false} Refused(s: State, e: Event, p: Pid)
    requires Enabled(s, e) && (e == Sleep(p) || e == Rouse(p)) && s.At(p).period != INFINITE && s.At(p).state != Faulted
    ensures Next(s, e) == s
  {
  }

  lemma {:induction false} DispatchOnTime(s: State, p: Pid)
    requires OnTime(s, p)
    ensures OnTime(Schedule(s), p)
  {
    var t := Preempted(s);
    SelectFirstBest(t.procs, t.order);
    assert forall q :: Schedule(s).Queue(q) == s.Queue(q);
  }

  lemma {:induction false} ClockOnTime(s: State, now: int, p: Pid)
    requires OnTime(s, p) && s.now <= now
    ensures OnTime(Tick(s, now), p)
  {
    assert forall q :: Tick(s, now).Queue(q) == s.Queue(q);
  }

  lemma {:induction false} OnTimeStep(s: State, e: Event, p: Pid)
    requires Inv(s) && OnTime(s, p) && Enabled(s, e) && Safe(s, e) && BlocksPeriodically(s, e, p) && !Restarts(s, e, p)
    ensures OnTime(Next(s, e), p)
  {
    if e.Dispatch? {
      DispatchOnTime(s, p);
    } else if e.Clock? {
      ClockOnTime(s, e.time, p);
    } else if s.current == Some(p) {
      StepExact(s, e);
      OwnStep(s, e, p);
    } else if Targets(e, p) {
      Refused(s, e, p);
    } else {
      AliveNotQueued(s, s.current.value);
      ServiceBeside(s, e, p);
    }
  }

  ghost predicate OnlyPeriodicBlocks(s: State, run: seq<Event>, p: Pid)
    requires Feasible(s, run)
    decreases |run|
  {
    run != [] ==> BlocksPeriodically(s, run[0], p) && OnlyPeriodicBlocks(Next(s, run[0]), run[1..], p)
  }

  /** In every state of the run `p` can run only if its release point has come. */
  ghost predicate AlwaysOnTime(s: State, run: seq<Event>, p: Pid)
    requires Feasible(s, run)
    decreases |run|
  {
    && (Alive(s.At(p)) ==> s.At(p).release <= s.now)
    && (run != [] ==> AlwaysOnTime(Next(s, run[0]), run[1..], p))
  }

  /** Over every safe run, with any number of waits: a process that blocks only through PERIODIC_WAIT is
      never READY before its release point. */
  lemma {:induction false} NeverEarly(s: State, run: seq<Event>, p: Pid)
    requires Inv(s) && OnTime(s, p) && Feasible(s, run) && AllSafe(s, run) && NoRestart(s, run, p)
    requires OnlyPeriodicBlocks(s, run, p)
    ensures AlwaysOnTime(s, run, p) && OnTime(Exec(s, run), p)
    decreases |run|
  {
    if run != [] {
      StepExact(s, run[0]);
      OnTimeStep(s, run[0], p);
      NeverEarly(Next(s, run[0]), run[1..], p);
    }
  }

  /** Drift and earliness together: after k waits `p` can run only from first + k * PERIOD on. */
  lemma {:induction false} PeriodicPace(s: State, run: seq<Event>, p: Pid)
    requires Inv(s) && OnTime(s, p) && DeadlineInStep(s.At(p))
    requires Feasible(s, run) && AllSafe(s, run) && NoRestart(s, run, p) && OnlyPeriodicBlocks(s, run, p)
    ensures var x, y := s.At(p), Exec(s, run).At(p);
            && (Alive(y) ==> x.release + WaitsDone(s, run, p) * x.period <= Exec(s, run).now)
            && y.deadline == DeadlineFrom(x, x.release + WaitsDone(s, run, p) * x.period)
  {
    NeverEarly(s, run, p);
    NoDrift(s, run, p);
  }

  // ---------------------------------------------------------------- one wait

  /** A clock update makes a process that waits for its release point READY exactly when that point, or a
      time-out still pending, has come. */
  lemma {:induction false} ReleasedExactly(s: State, now: int, p: Pid)
    requires p in s.procs && s.procs[p].state == Waiting && s.procs[p].period != INFINITE
    ensures Tick(s, now).At(p).state == Ready <==> s.procs[p].release <= now || Expired(s.procs[p], now)
  {
  }

  /** So it can become READY early exactly when a time-out is pending that ends before the release point. */
  lemma {:induction false} EarlyExact(s: State, p: Pid)
    requires p in s.procs && s.procs[p].state == Waiting && s.procs[p].period != INFINITE
    ensures (exists now :: s.now <= now < s.procs[p].release && Tick(s, now).At(p).state == Ready)
            <==> !Unarmed(s.procs[p]) && s.now < s.procs[p].release && s.procs[p].timer < s.procs[p].release
  {
    var x := s.procs[p];
    if !Unarmed(x) && s.now < x.release && x.timer < x.release {
      var now := if s.now < x.timer then x.timer else s.now;
      ReleasedExactly(s, now, p);
      assert s.now <= now < x.release && Tick(s, now).At(p).state == Ready;
    } else {
      forall now | s.now <= now < x.release ensures Tick(s, now).At(p).state != Ready {
        ReleasedExactly(s, now, p);
      }
    }
  }

  /** PERIODIC_WAIT adds one period to the last release point, however late it is called; its caller is then
      on time exactly when no time-out is pending. */
  lemma {:induction false} WaitRests(s: State, p: Pid)
    requires Inv(s) && s.current == Some(p) && !s.yielded && PeriodicWait(s).1 == NoError
    ensures var t := PeriodicWait(s).0;
            && t.At(p).release == s.procs[p].release + s.procs[p].period && t.At(p).state == Waiting
            && (OnTime(t, p) <==> Unarmed(s.procs[p]))
  {
    AliveNotQueued(s, p);
    var t := PeriodicWait(s).0;
    assert forall q :: t.Queue(q) == s.Queue(q);
  }

  /** START does the same with the first release point. */
  lemma {:induction false} StartRests(s: State, p: Pid, first: int)
    requires Inv(s) && s.current.Some? && Start(s, p, first).1 == NoError && s.At(p).period != INFINITE
    ensures var t := Start(s, p, first).0;
            && t.At(p).release == first && DeadlineInStep(t.At(p)) && t.At(p).state == Waiting
            && (OnTime(t, p) <==> Unarmed(s.At(p)))
  {
    AliveNotQueued(s, p);
    var t := Start(s, p, first).0;
    assert forall q :: t.Queue(q) == s.Queue(q);
  }
}
