/** Each APEX service as one atomic step on the partition state, cut where it yields. */
module Services {
  import opened Apex
  import opened Sequences

  type Reply = (State, Code)

  // ---------------------------------------------------------------- waiting and waking

  /** list_insert_sorted: before the first waiter of strictly lower priority. */
  function InsertByPriority(procs: map<Pid, Proc>, s: seq<Pid>, p: Pid, priority: int): seq<Pid> {
    if s == [] || (if s[0] in procs then procs[s[0]] else NO_PROC).priority < priority then [p] + s
    else [s[0]] + InsertByPriority(procs, s[1..], p, priority)
  }

  function Enqueued(s: State, q: QueueId, p: Pid, d: Discipline): seq<Pid> {
    if d == Fifo then s.Queue(q) + [p]
    else InsertByPriority(s.procs, s.Queue(q), p, s.At(p).priority)
  }

  /** Parks `p` on `q`. `record` says whether the service sets the waiting_* pointer. */
  function Block(s: State, q: QueueId, p: Pid, d: Discipline, record: bool, timeout: int): State {
    var me := s.At(p);
    var x := me.(
      state := Waiting,
      waitingOn := if record then me.waitingOn.Set(q.obj.kind, Some(q.obj.id)) else me.waitingOn,
      timer := if timeout == INFINITE then me.timer else s.now + timeout);
    s.WithQueue(q, Enqueued(s, q, p, d), 1).With(p, x).(yielded := true)
  }

  function Woken(x: Proc, k: Kind): Proc {
    x.(state := Ready, waitingOn := x.waitingOn.Set(k, None), timer := if x.timer != 0 then INFINITE else 0)
  }

  /** Takes the first waiter off `q` and makes it READY. */
  function Wake(s: State, q: QueueId): State
    requires s.Queue(q) != []
  {
    var w := s.Queue(q)[0];
    s.WithQueue(q, s.Queue(q)[1..], -1).With(w, Woken(s.At(w), q.obj.kind))
  }

  function WakeAll(s: State, q: QueueId): State
    decreases |s.Queue(q)|
  {
    if s.Queue(q) == [] then s else WakeAll(Wake(s, q), q)
  }

  // ---------------------------------------------------------------- mutexes

  /** An AVAILABLE mutex goes to the caller, which moves to the head at the ceiling priority. */
  function Grant(s: State, id: int, p: Pid): State {
    var m, me := s.MutexAt(id), s.At(p);
    s.PutMutex(id, m.(owned := true, owner := p, locks := m.locks + 1, saved := me.priority))
     .(order := [p] + Remove(s.order, p))
     .With(p, me.(owned := Some(id), priority := m.ceiling))
  }

  /** krnl_acquire_mutex */
  function KernelAcquire(s: State, id: int, timeout: int): Reply
    requires s.current.Some?
  {
    var p := s.current.value;
    var me, m := s.At(p), s.MutexAt(id);
    if id !in s.mutexes || BadTimeout(s.now, timeout) then (s, InvalidParam)
    else if me.owned.Some? && me.owned != Some(id) then (s, InvalidMode)
    else if me.priority > m.ceiling then (s, InvalidMode)
    else if !m.owned then (Grant(s, id, p), NoError)
    else if m.owner == p then
      if m.locks == MAX_LOCK_LEVEL then (s, InvalidConfig)
      else (s.PutMutex(id, m.(locks := m.locks + 1)), NoError)
    else if timeout == 0 then (s, NotAvailable)
    else (Block(s, Waiters(Obj(MutexKind, id)), p, m.discipline, true, timeout), Parked)
  }

  /** The owner gives the mutex up and returns to its saved priority at the head of the list. */
  function Free(s: State, id: int, p: Pid): State {
    var m := s.MutexAt(id);
    s.PutMutex(id, m.(owned := false, owner := 0, locks := 0)).(order := [p] + Remove(s.order, p))
     .With(p, s.At(p).(owned := None, priority := m.saved))
  }

  /** The first waiter becomes the owner of a freed mutex. */
  function HandOff(s: State, id: int): State
    requires s.Queue(Waiters(Obj(MutexKind, id))) != []
  {
    Grant(Wake(s, Waiters(Obj(MutexKind, id))), id, s.Queue(Waiters(Obj(MutexKind, id)))[0])
  }

  function Surrender(s: State, id: int, p: Pid): State {
    var t := Free(s, id, p);
    if t.Queue(Waiters(Obj(MutexKind, id))) == [] then t else HandOff(t, id)
  }

  /** krnl_release_mutex */
  function KernelRelease(s: State, id: int): Reply
    requires s.current.Some?
  {
    var p := s.current.value;
    var m := s.MutexAt(id);
    if id !in s.mutexes then (s, InvalidParam)
    else if s.At(p).owned != Some(id) then (s, InvalidMode)
    else if m.locks - 1 != 0 then (s.PutMutex(id, m.(locks := m.locks - 1)), NoError)
    else (Surrender(s, id, p).(yielded := true), NoError)
  }

  function AcquireMutex(s: State, id: int, timeout: int): Reply
    requires s.current.Some?
  {
    if id == PREEMPTION_LOCK then (s, InvalidParam) else KernelAcquire(s, id, timeout)
  }

  function ReleaseMutex(s: State, id: int): Reply
    requires s.current.Some?
  {
    if id == PREEMPTION_LOCK then (s, InvalidParam) else KernelRelease(s, id)
  }

  function ResetMutex(s: State, id: int, target: Pid): Reply
    requires s.current.Some?
  {
    if id !in s.mutexes || id == PREEMPTION_LOCK || target !in s.order then (s, InvalidParam)
    else if s.At(target).owned != Some(id) || s.current.value != target then (s, InvalidMode)
    else (Surrender(s, id, target).(yielded := true), NoError)
  }

  /** What LOCK_PREEMPTION and UNLOCK_PREEMPTION do to LOCK_LEVEL once the mutex call is over. */
  function RefreshLockLevel(s: State): State {
    if PREEMPTION_LOCK in s.mutexes then s.(lockLevel := s.mutexes[PREEMPTION_LOCK].locks) else s
  }

  /** A caller that yielded refreshes LOCK_LEVEL only when it runs again. */
  function AfterLockCall(r: Reply): Reply {
    if r.0.yielded then r else (RefreshLockLevel(r.0), r.1)
  }

  function LockPreemption(s: State): Reply
    requires s.current.Some?
  {
    AfterLockCall(KernelAcquire(s, PREEMPTION_LOCK, INFINITE))
  }

  function UnlockPreemption(s: State): Reply
    requires s.current.Some?
  {
    if s.lockLevel == 0 then (s, NoAction)
    else if s.At(s.current.value).owned != Some(PREEMPTION_LOCK) then (s, InvalidMode)
    else AfterLockCall(KernelRelease(s, PREEMPTION_LOCK))
  }

  // ---------------------------------------------------------------- process management

  function SetPriority(s: State, target: Pid, priority: int): Reply
    requires s.current.Some?
  {
    var x := s.At(target);
    if target !in s.order || priority < MIN_PRIORITY || priority > MAX_PRIORITY then (s, InvalidParam)
    else if x.state == Dormant then (s, InvalidMode)
    else
      var t := if x.owned.Some?
               then s.PutMutex(x.owned.value, s.MutexAt(x.owned.value).(saved := priority))
               else s.With(target, x.(priority := priority));
      if x.state != Ready && x.state != Running then (t, NoError)
      else (t.(order := Remove(s.order, target) + [target],
               current := if x.state == Running then Some(target) else s.current,
               yielded := true), NoError)
  }

  function SuspendSelf(s: State, timeout: int): Reply
    requires s.current.Some?
  {
    var p := s.current.value;
    var me := s.At(p);
    if me.owned.Some? then (s, InvalidMode)
    else if BadTimeout(s.now, timeout) then (s, InvalidParam)
    else if me.period != INFINITE then (s, InvalidMode)
    else if timeout == 0 then (s, NoError)
    else (s.With(p, me.(state := Waiting, suspended := true,
                        timer := if timeout == INFINITE then me.timer else s.now + timeout)).(yielded := true), Parked)
  }

  function Suspend(s: State, target: Pid): Reply
    requires s.current.Some?
  {
    var x := s.At(target);
    if target !in s.order || target == s.current.value then (s, InvalidParam)
    else if x.owned.Some? || x.waitingOn.mutex.Some? then (s, InvalidMode)
    else if x.state == Dormant || x.state == Faulted || x.period != INFINITE then (s, InvalidMode)
    else if x.suspended then (s, NoAction)
    else (s.With(target, x.(suspended := true, state := Waiting)), NoError)
  }

  function Resume(s: State, target: Pid): Reply
    requires s.current.Some?
  {
    var x := s.At(target);
    if target !in s.order || target == s.current.value then (s, InvalidParam)
    else if x.state == Dormant || (x.period != INFINITE && x.state != Faulted) then (s, InvalidMode)
    else if !x.suspended && x.state != Faulted then (s, NoAction)
    else
      var y := if x.suspended then x.(suspended := false, timer := 0) else x;
      if y.timer == 0 || y.waitingOn == NO_POINTERS
      then (s.With(target, y.(state := Ready)).(yielded := true), NoError)
      else (s.With(target, y), NoError)
  }

  function StopSelf(s: State): State
    requires s.current.Some?
  {
    var p := s.current.value;
    var t := s.With(p, s.At(p).(deadline := INFINITE));
    var owned := s.At(p).owned;
    var u := if owned.None? then t
             else Surrender(if owned.value == PREEMPTION_LOCK then t.(lockLevel := 0) else t, owned.value, p);
    u.With(p, u.At(p).(state := Dormant, timer := 0, suspended := false)).(yielded := true)
  }

  /** Takes `p` out of `q` if it is there; a blocked sender's message goes with it. */
  function Withdraw(s: State, p: Pid, q: QueueId): State {
    if p !in s.Queue(q) then s
    else
      var t := s.WithQueue(q, Remove(s.Queue(q), p), -1);
      if q.Writers? && q.obj.id in s.buffers
      then t.PutBuffer(q.obj.id, s.buffers[q.obj.id].(
                withdrawn := s.buffers[q.obj.id].withdrawn + multiset{s.At(p).message}))
      else t
  }

  /** One paragraph of remove_process_from_waiting_queue. */
  function Leave(s: State, p: Pid, k: Kind): State {
    if s.At(p).waitingOn.Get(k).None? then s
    else
      var o := Obj(k, s.At(p).waitingOn.Get(k).value);
      var t := Withdraw(s, p, Waiters(o));
      var u := if k == BufferKind then Withdraw(t, p, Writers(o)) else t;
      u.With(p, u.At(p).(waitingOn := u.At(p).waitingOn.Set(k, None)))
  }

  function LeaveAll(s: State, p: Pid): State {
    var a := Leave(s, p, BlackboardKind);
    var b := Leave(a, p, BufferKind);
    var c := Leave(b, p, SemaphoreKind);
    var d := Leave(c, p, EventKind);
    Leave(d, p, MutexKind)
  }

  function Stop(s: State, target: Pid): Reply
    requires s.current.Some?
  {
    if target !in s.order || target == s.current.value then (s, InvalidParam)
    else if s.At(target).state == Dormant then (s, NoAction)
    else
      var t := LeaveAll(s, target);
      (t.With(target, t.At(target).(state := Dormant, timer := 0, suspended := false, deadline := INFINITE))
        .(yielded := true),
       if s.At(s.current.value).owned.Some? then InvalidMode else NoError)
  }

  /** `first` is the partition's next periodic release point, from the module scheduler. */
  function Start(s: State, target: Pid, first: int): Reply
    requires s.current.Some?
  {
    var x := s.At(target);
    if target !in s.order then (s, InvalidParam)
    else if x.state != Dormant then (s, NoAction)
    else if BadTimeout(s.now, x.capacity) then (s, InvalidConfig)
    else if x.period == INFINITE then
      (s.With(target, x.(priority := x.base, state := Ready, deadline := DeadlineFrom(x, s.now)))
        .(yielded := true), NoError)
    else
      (s.With(target, x.(priority := x.base, state := Waiting, release := first,
                         deadline := DeadlineFrom(x, first))), NoError)
  }

  // ---------------------------------------------------------------- time

  function TimedWait(s: State, delay: int): Reply
    requires s.current.Some?
  {
    var p := s.current.value;
    var me := s.At(p);
    if me.owned.Some? then (s, InvalidMode)
    else if BadTimeout(s.now, delay) || delay == INFINITE then (s, InvalidParam)
    else if delay == 0 then
      (s.With(p, me.(state := Ready)).(order := Remove(s.order, p) + [p], yielded := true), NoError)
    else (s.With(p, me.(state := Waiting, timer := s.now + delay)).(yielded := true), NoError)
  }

  function PeriodicWait(s: State): Reply
    requires s.current.Some?
  {
    var p := s.current.value;
    var me := s.At(p);
    var capacity := if me.capacity == INFINITE then 0 else me.capacity;
    if me.owned.Some? || me.period == INFINITE then (s, InvalidMode)
    else if Overflow(me.period + me.release + capacity) then (s, InvalidParam)
    else
      (s.With(p, me.(state := Waiting, release := me.release + me.period,
                     deadline := DeadlineFrom(me, me.release + me.period))).(yielded := true), NoError)
  }

  predicate Releasable(x: Proc, now: int) {
    x.state == Waiting && (x.period != INFINITE || x.initDelay != 0) && now >= x.release
  }

  predicate Expired(x: Proc, now: int) {
    x.timer != 0 && x.timer != INFINITE && now >= x.timer
  }

  function Released(x: Proc, now: int): Proc {
    if !Releasable(x, now) then x
    else if x.period == INFINITE then x.(state := Ready, release := 0, initDelay := 0)
    else x.(state := Ready)
  }

  function TimedOutProc(x: Proc, now: int): Proc {
    if Expired(x, now) then x.(state := Ready, suspended := false, timer := 0) else x
  }

  /** arinc_time_update_partition at time `now` */
  function Tick(s: State, now: int): State {
    s.(now := now, procs := map p | p in s.procs :: TimedOutProc(Released(s.procs[p], now), now))
  }

  // ---------------------------------------------------------------- semaphores, events, blackboards

  function WaitSemaphore(s: State, id: int, timeout: int): Reply
    requires s.current.Some?
  {
    var p := s.current.value;
    if id !in s.semaphores || BadTimeout(s.now, timeout) then (s, InvalidParam)
    else
      var m := s.semaphores[id];
      if m.value > 0 then
        (s.PutSemaphore(id, m.(value := m.value - 1, grants := m.grants + 1)), NoError)
      else if timeout == 0 then (s, NotAvailable)
      else if s.At(p).owned.Some? then (s, InvalidMode)
      else (Block(s, Waiters(Obj(SemaphoreKind, id)), p, m.discipline, timeout != INFINITE, timeout), Parked)
  }

  function SignalSemaphore(s: State, id: int): Reply
    requires s.current.Some?
  {
    if id !in s.semaphores then (s, InvalidParam)
    else
      var m := s.semaphores[id];
      var q := Waiters(Obj(SemaphoreKind, id));
      if m.value == m.maximum then (s, InvalidConfig)
      else if s.Queue(q) == [] then
        (s.PutSemaphore(id, m.(value := m.value + 1, signals := m.signals + 1)), NoError)
      else
        (Wake(s, q).PutSemaphore(id, m.(signals := m.signals + 1, grants := m.grants + 1)).(yielded := true), NoError)
  }

  function SetEvent(s: State, id: int): Reply
    requires s.current.Some?
  {
    var q := Waiters(Obj(EventKind, id));
    if id !in s.events then (s, InvalidParam)
    else
      var t := s.PutEvent(id, true);
      if s.Queue(q) == [] then (t, NoError) else (WakeAll(t, q).(yielded := true), NoError)
  }

  function ResetEvent(s: State, id: int): Reply {
    if id !in s.events then (s, InvalidParam) else (s.PutEvent(id, false), NoError)
  }

  function WaitEvent(s: State, id: int, timeout: int): Reply
    requires s.current.Some?
  {
    var p := s.current.value;
    if id !in s.events || BadTimeout(s.now, timeout) then (s, InvalidParam)
    else if s.events[id] then (s, NoError)
    else if timeout == 0 then (s, NotAvailable)
    else if s.At(p).owned.Some? then (s, InvalidMode)
    else
      var d := if timeout == INFINITE then Fifo else ByPriority;
      (Block(s, Waiters(Obj(EventKind, id)), p, d, true, timeout), Parked)
  }

  function DisplayBlackboard(s: State, id: int, m: Message): Reply
    requires s.current.Some?
  {
    var q := Waiters(Obj(BlackboardKind, id));
    if id !in s.blackboards then (s, InvalidConfig)
    else if |m| > s.blackboards[id].maxSize || |m| <= 0 then (s, InvalidParam)
    else
      var t := s.PutBlackboard(id, s.blackboards[id].(occupied := true, message := m));
      var u := WakeAll(t, q);
      if s.Count(q.obj) > 0 then (u.(yielded := true), NoError) else (u, NoError)
  }

  function ReadBlackboard(s: State, id: int, timeout: int): (State, Code, Message)
    requires s.current.Some?
  {
    var p := s.current.value;
    if id !in s.blackboards then (s, InvalidConfig, [])
    else if BadTimeout(s.now, timeout) then (s, InvalidParam, [])
    else if s.blackboards[id].occupied then (s, NoError, s.blackboards[id].message)
    else if timeout == 0 then (s, NotAvailable, [])
    else if s.At(p).owned.Some? then (s, InvalidMode, [])
    else (Block(s, Waiters(Obj(BlackboardKind, id)), p, Fifo, timeout != INFINITE, timeout), Parked, [])
  }

  function ClearBlackboard(s: State, id: int): Reply {
    if id !in s.blackboards then (s, InvalidConfig)
    else (s.PutBlackboard(id, s.blackboards[id].(occupied := false)), NoError)
  }

  // ---------------------------------------------------------------- buffers

  function SendBuffer(s: State, id: int, m: Message, timeout: int): Reply
    requires s.current.Some?
  {
    var p := s.current.value;
    if id !in s.buffers then (s, InvalidParam)
    else
      var b := s.buffers[id];
      var o := Obj(BufferKind, id);
      if |m| >= b.maxSize then (s, InvalidConfig)
      else if |m| <= 0 || BadTimeout(s.now, timeout) then (s, InvalidParam)
      else if |b.ring| < b.maxMessages then
        if s.Queue(Waiters(o)) == [] then
          (s.PutBuffer(id, b.(ring := b.ring + [m], sent := b.sent + [m])), NoError)
        else
          var r := s.Queue(Waiters(o))[0];
          var t := Wake(s, Waiters(o));
          (t.With(r, t.At(r).(message := m))
            .PutBuffer(id, b.(sent := b.sent + [m], delivered := b.delivered + [m])).(yielded := true), NoError)
      else if timeout == 0 then (s, NotAvailable)
      else if s.At(p).owned.Some? then (s, InvalidMode)
      else
        (Block(s.With(p, s.At(p).(message := m)), Writers(o), p, b.discipline, true, timeout)
          .PutBuffer(id, b.(sent := b.sent + [m])), Parked)
  }

  function ReceiveBuffer(s: State, id: int, timeout: int): (State, Code, Message)
    requires s.current.Some?
  {
    var p := s.current.value;
    if id !in s.buffers || BadTimeout(s.now, timeout) then (s, InvalidParam, [])
    else
      var b := s.buffers[id];
      var o := Obj(BufferKind, id);
      if |b.ring| > 0 then
        var m := b.ring[0];
        if s.Queue(Writers(o)) == [] then
          (s.PutBuffer(id, b.(ring := b.ring[1..], delivered := b.delivered + [m])), NoError, m)
        else
          var w := s.Queue(Writers(o))[0];
          (Wake(s, Writers(o))
            .PutBuffer(id, b.(ring := b.ring[1..] + [s.At(w).message], delivered := b.delivered + [m]))
            .(yielded := true), NoError, m)
      else if timeout == 0 then (s, NotAvailable, [])
      else if s.At(p).owned.Some? then (s, InvalidMode, [])
      else (Block(s, Waiters(o), p, b.discipline, true, timeout), Parked, [])
  }

  // ---------------------------------------------------------------- process_schedule

  predicate IsReady(procs: map<Pid, Proc>, p: Pid) {
    p in procs && procs[p].state == Ready
  }

  /** The running maximum kept while walking the list: a later process wins only if strictly higher. */
  function Select(procs: map<Pid, Proc>, order: seq<Pid>): Option<Pid> {
    if order == [] then None
    else
      var best := Select(procs, order[..|order| - 1]);
      var p := order[|order| - 1];
      var highest := if best.Some? && best.value in procs then procs[best.value].priority else -1;
      if IsReady(procs, p) && procs[p].priority > highest then Some(p) else best
  }

  function Preempted(s: State): State {
    if s.current.Some? && s.At(s.current.value).state == Running
    then s.With(s.current.value, s.At(s.current.value).(state := Ready))
    else s
  }

  function Schedule(s: State): State {
    var t := Preempted(s);
    var choice := Select(t.procs, t.order);
    if choice.None? then t.(current := None, yielded := false)
    else t.With(choice.value, t.At(choice.value).(state := Running)).(current := choice, yielded := false)
  }

  // ---------------------------------------------------------------- events of a run

  datatype Event =
    | Acquire(id: int, timeout: int) | Release(id: int) | Reset(id: int, pid: Pid)
    | Lock | Unlock | Refresh
    | Prioritize(pid: Pid, priority: int) | SleepSelf(timeout: int) | Sleep(pid: Pid) | Rouse(pid: Pid)
    | QuitSelf | Quit(pid: Pid) | Launch(pid: Pid, first: int)
    | Delay(timeout: int) | NextPeriod
    | Take(id: int, timeout: int) | Give(id: int)
    | Raise(id: int) | Lower(id: int) | Await(id: int, timeout: int)
    | Display(id: int, message: Message) | Read(id: int, timeout: int) | Clear(id: int)
    | Send(id: int, message: Message, timeout: int) | Receive(id: int, timeout: int)
    | Dispatch | Clock(time: int)

  /** Services are called by the running process; the scheduler and the clock act at any time. */
  predicate Enabled(s: State, e: Event) {
    match e
    case Dispatch => true
    case Clock(t) => s.now <= t
    case _ => s.current.Some? && !s.yielded
  }

  function Next(s: State, e: Event): State
    requires Enabled(s, e)
  {
    match e
    case Acquire(id, t) => AcquireMutex(s, id, t).0
    case Release(id) => ReleaseMutex(s, id).0
    case Reset(id, p) => ResetMutex(s, id, p).0
    case Lock => LockPreemption(s).0
    case Unlock => UnlockPreemption(s).0
    case Refresh => RefreshLockLevel(s)
    case Prioritize(p, n) => SetPriority(s, p, n).0
    case SleepSelf(t) => SuspendSelf(s, t).0
    case Sleep(p) => Suspend(s, p).0
    case Rouse(p) => Resume(s, p).0
    case QuitSelf => StopSelf(s)
    case Quit(p) => Stop(s, p).0
    case Launch(p, f) => Start(s, p, f).0
    case Delay(t) => TimedWait(s, t).0
    case NextPeriod => PeriodicWait(s).0
    case Take(id, t) => WaitSemaphore(s, id, t).0
    case Give(id) => SignalSemaphore(s, id).0
    case Raise(id) => SetEvent(s, id).0
    case Lower(id) => ResetEvent(s, id).0
    case Await(id, t) => WaitEvent(s, id, t).0
    case Display(id, m) => DisplayBlackboard(s, id, m).0
    case Read(id, t) => ReadBlackboard(s, id, t).0
    case Clear(id) => ClearBlackboard(s, id).0
    case Send(id, m, t) => SendBuffer(s, id, m, t).0
    case Receive(id, t) => ReceiveBuffer(s, id, t).0
    case Dispatch => Schedule(s)
    case Clock(t) => Tick(s, t)
  }
}
