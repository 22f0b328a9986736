/** Which call gets which return code: for every service the exact condition of every code. */
module Codes {
  import opened Apex
  import opened Services
  import opened Invariant

  /** A time-out the services accept: infinite, or one whose end is still a representable time. */
  predicate GoodTimeout(now: int, timeout: int) {
    timeout == -1 || 0 <= timeout <= 0x7fff_ffff_ffff_ffff - now
  }

  lemma {:induction false} TimeoutExact(now: int, timeout: int)
    ensures BadTimeout(now, timeout) <==> !GoodTimeout(now, timeout)
  {
  }

  // ---------------------------------------------------------------- mutexes

  /** The caller owns another mutex, or is more urgent than the ceiling allows. */
  predicate Barred(s: State, id: int, p: Pid) {
    (s.At(p).owned.Some? && s.At(p).owned.value != id) || s.At(p).priority > s.MutexAt(id).ceiling
  }

  ghost predicate AcquireCodes(s: State, id: int, timeout: int, p: Pid, code: Code) {
    var m := s.MutexAt(id);
    var free, mine := !m.owned, m.owned && m.owner == p;
    if id !in s.mutexes || !GoodTimeout(s.now, timeout) then code == InvalidParam
    else
      && (code == InvalidMode <==> Barred(s, id, p))
      && (code == InvalidConfig <==> !Barred(s, id, p) && mine && m.locks == 16)
      && (code == NoError <==> !Barred(s, id, p) && (free || (mine && m.locks != 16)))
      && (code == NotAvailable <==> !Barred(s, id, p) && !free && !mine && timeout == 0)
      && (code == Parked <==> !Barred(s, id, p) && !free && !mine && timeout != 0)
  }

  lemma {:induction false} AcquireCode(s: State, id: int, timeout: int, p: Pid)
    requires s.current == Some(p)
    ensures AcquireCodes(s, id, timeout, p, KernelAcquire(s, id, timeout).1)
  {
    TimeoutExact(s.now, timeout);
  }

  ghost predicate ReleaseCodes(s: State, id: int, p: Pid, code: Code) {
    && (code == InvalidParam <==> id !in s.mutexes)
    && (code == InvalidMode <==> id in s.mutexes && s.At(p).owned != Some(id))
    && (code == NoError <==> id in s.mutexes && s.At(p).owned == Some(id))
  }

  lemma {:induction false} ReleaseCode(s: State, id: int, p: Pid)
    requires s.current == Some(p)
    ensures ReleaseCodes(s, id, p, KernelRelease(s, id).1)
  {
  }

  ghost predicate ResetCodes(s: State, id: int, target: Pid, code: Code) {
    var known := id in s.mutexes && id != 1 && target in s.order;
    && (code == InvalidParam <==> !known)
    && (code == InvalidMode <==> known && (s.At(target).owned != Some(id) || s.current != Some(target)))
    && (code == NoError <==> known && s.At(target).owned == Some(id) && s.current == Some(target))
  }

  lemma {:induction false} ResetCode(s: State, id: int, target: Pid)
    requires s.current.Some?
    ensures ResetCodes(s, id, target, ResetMutex(s, id, target).1)
  {
  }

  ghost predicate UnlockCodes(s: State, p: Pid, code: Code) {
    && (code == NoAction <==> s.lockLevel == 0)
    && (code == InvalidMode <==> s.lockLevel != 0 && s.At(p).owned != Some(1))
    && (code == NoError <==> s.lockLevel != 0 && s.At(p).owned == Some(1))
  }

  lemma {:induction false} UnlockCode(s: State, p: Pid)
    requires MutexOk(s) && s.current == Some(p) && p in s.procs
    ensures UnlockCodes(s, p, UnlockPreemption(s).1)
  {
  }

  // ---------------------------------------------------------------- processes

  ghost predicate SetPriorityCodes(s: State, target: Pid, n: int, code: Code) {
    var known := target in s.order && 1 <= n <= 239;
    && (code == InvalidParam <==> !known)
    && (code == InvalidMode <==> known && s.At(target).state == Dormant)
    && (code == NoError <==> known && s.At(target).state != Dormant)
  }

  lemma {:induction false} SetPriorityCode(s: State, target: Pid, n: int)
    requires s.current.Some?
    ensures SetPriorityCodes(s, target, n, SetPriority(s, target, n).1)
  {
  }

  ghost predicate SuspendSelfCodes(s: State, timeout: int, p: Pid, code: Code) {
    var owns, periodic, good := s.At(p).owned.Some?, s.At(p).period != INFINITE, GoodTimeout(s.now, timeout);
    && (code == InvalidParam <==> !owns && !good)
    && (code == InvalidMode <==> owns || (good && periodic))
    && (code == NoError <==> !owns && good && !periodic && timeout == 0)
    && (code == Parked <==> !owns && good && !periodic && timeout != 0)
  }

  lemma {:induction false} SuspendSelfCode(s: State, timeout: int, p: Pid)
    requires s.current == Some(p)
    ensures SuspendSelfCodes(s, timeout, p, SuspendSelf(s, timeout).1)
  {
    TimeoutExact(s.now, timeout);
  }

  /** The target is a process of the partition other than the caller. */
  predicate Another(s: State, target: Pid) {
    target in s.order && s.current != Some(target)
  }

  /** An aperiodic process that is started, runs without fault, and neither owns nor awaits a mutex. */
  predicate Suspendable(x: Proc) {
    && x.owned.None? && x.waitingOn.mutex.None? && x.state != Dormant && x.state != Faulted && x.period == INFINITE
  }

  ghost predicate SuspendCodes(s: State, target: Pid, code: Code) {
    var x := s.At(target);
    && (code == InvalidParam <==> !Another(s, target))
    && (code == InvalidMode <==> Another(s, target) && !Suspendable(x))
    && (code == NoAction <==> Another(s, target) && Suspendable(x) && x.suspended)
    && (code == NoError <==> Another(s, target) && Suspendable(x) && !x.suspended)
  }

  lemma {:induction false} SuspendCode(s: State, target: Pid)
    requires s.current.Some?
    ensures SuspendCodes(s, target, Suspend(s, target).1)
  {
  }

  ghost predicate ResumeCodes(s: State, target: Pid, code: Code) {
    var x := s.At(target);
    var resumable := x.state == Faulted || (x.state != Dormant && x.period == INFINITE);
    && (code == InvalidParam <==> !Another(s, target))
    && (code == InvalidMode <==> Another(s, target) && !resumable)
    && (code == NoAction <==> Another(s, target) && resumable && !x.suspended && x.state != Faulted)
    && (code == NoError <==> Another(s, target) && resumable && (x.suspended || x.state == Faulted))
  }

  lemma {:induction false} ResumeCode(s: State, target: Pid)
    requires s.current.Some?
    ensures ResumeCodes(s, target, Resume(s, target).1)
  {
  }

  /** STOP reports INVALID_MODE for a caller that owns a mutex, after having stopped the target. */
  ghost predicate StopCodes(s: State, target: Pid, code: Code) {
    var stops := Another(s, target) && s.At(target).state != Dormant;
    var owns := s.current.Some? && s.At(s.current.value).owned.Some?;
    && (code == InvalidParam <==> !Another(s, target))
    && (code == NoAction <==> Another(s, target) && s.At(target).state == Dormant)
    && (code == InvalidMode <==> stops && owns)
    && (code == NoError <==> stops && !owns)
  }

  lemma {:induction false} StopCode(s: State, target: Pid)
    requires s.current.Some?
    ensures StopCodes(s, target, Stop(s, target).1)
  {
  }

  ghost predicate StartCodes(s: State, target: Pid, code: Code) {
    var x, known := s.At(target), target in s.order;
    && (code == InvalidParam <==> !known)
    && (code == NoAction <==> known && x.state != Dormant)
    && (code == InvalidConfig <==> known && x.state == Dormant && !GoodTimeout(s.now, x.capacity))
    && (code == NoError <==> known && x.state == Dormant && GoodTimeout(s.now, x.capacity))
  }

  lemma {:induction false} StartCode(s: State, target: Pid, first: int)
    requires s.current.Some?
    ensures StartCodes(s, target, Start(s, target, first).1)
  {
    TimeoutExact(s.now, s.At(target).capacity);
  }

  // ---------------------------------------------------------------- time

  ghost predicate TimedWaitCodes(s: State, delay: int, p: Pid, code: Code) {
    var owns, good := s.At(p).owned.Some?, delay != -1 && GoodTimeout(s.now, delay);
    && (code == InvalidMode <==> owns)
    && (code == InvalidParam <==> !owns && !good)
    && (code == NoError <==> !owns && good)
  }

  lemma {:induction false} TimedWaitCode(s: State, delay: int, p: Pid)
    requires s.current == Some(p)
    ensures TimedWaitCodes(s, delay, p, TimedWait(s, delay).1)
  {
    TimeoutExact(s.now, delay);
  }

  ghost predicate PeriodicWaitCodes(s: State, p: Pid, code: Code) {
    var x := s.At(p);
    var allowed := x.owned.None? && x.period != -1;
    var next := x.release + x.period + (if x.capacity == -1 then 0 else x.capacity);
    && (code == InvalidMode <==> !allowed)
    && (code == InvalidParam <==> allowed && next > 0x7fff_ffff_ffff_ffff)
    && (code == NoError <==> allowed && next <= 0x7fff_ffff_ffff_ffff)
  }

  lemma {:induction false} PeriodicWaitCode(s: State, p: Pid)
    requires s.current == Some(p)
    ensures PeriodicWaitCodes(s, p, PeriodicWait(s).1)
  {
  }

  // ---------------------------------------------------------------- communication

  /** A call that would wait: refused to a poll and to the owner of a mutex, otherwise it parks the caller. */
  predicate WaitCodes(code: Code, served: bool, timeout: int, owns: bool) {
    && (code == NoError <==> served)
    && (code == NotAvailable <==> !served && timeout == 0)
    && (code == InvalidMode <==> !served && timeout != 0 && owns)
    && (code == Parked <==> !served && timeout != 0 && !owns)
  }

  ghost predicate WaitSemaphoreCodes(s: State, id: int, timeout: int, p: Pid, code: Code) {
    if id !in s.semaphores || !GoodTimeout(s.now, timeout) then code == InvalidParam
    else WaitCodes(code, s.semaphores[id].value > 0, timeout, s.At(p).owned.Some?)
  }

  lemma {:induction false} WaitSemaphoreCode(s: State, id: int, timeout: int, p: Pid)
    requires s.current == Some(p)
    ensures WaitSemaphoreCodes(s, id, timeout, p, WaitSemaphore(s, id, timeout).1)
  {
    TimeoutExact(s.now, timeout);
  }

  ghost predicate SignalSemaphoreCodes(s: State, id: int, code: Code) {
    && (code == InvalidParam <==> id !in s.semaphores)
    && (code == InvalidConfig <==> id in s.semaphores && s.semaphores[id].value == s.semaphores[id].maximum)
    && (code == NoError <==> id in s.semaphores && s.semaphores[id].value != s.semaphores[id].maximum)
  }

  lemma {:induction false} SignalSemaphoreCode(s: State, id: int)
    requires s.current.Some?
    ensures SignalSemaphoreCodes(s, id, SignalSemaphore(s, id).1)
  {
  }

  /** SET_EVENT and RESET_EVENT. */
  ghost predicate EventCodes(s: State, id: int, code: Code) {
    (code == InvalidParam <==> id !in s.events) && (code == NoError <==> id in s.events)
  }

  lemma {:induction false} SetEventCode(s: State, id: int)
    requires s.current.Some?
    ensures EventCodes(s, id, SetEvent(s, id).1)
  {
  }

  lemma {:induction false} ResetEventCode(s: State, id: int)
    ensures EventCodes(s, id, ResetEvent(s, id).1)
  {
  }

  ghost predicate WaitEventCodes(s: State, id: int, timeout: int, p: Pid, code: Code) {
    if id !in s.events || !GoodTimeout(s.now, timeout) then code == InvalidParam
    else WaitCodes(code, s.events[id], timeout, s.At(p).owned.Some?)
  }

  lemma {:induction false} WaitEventCode(s: State, id: int, timeout: int, p: Pid)
    requires s.current == Some(p)
    ensures WaitEventCodes(s, id, timeout, p, WaitEvent(s, id, timeout).1)
  {
    TimeoutExact(s.now, timeout);
  }

  ghost predicate DisplayCodes(s: State, id: int, m: Message, code: Code) {
    var known := id in s.blackboards;
    var fits := known && 1 <= |m| <= s.blackboards[id].maxSize;
    && (code == InvalidConfig <==> !known)
    && (code == InvalidParam <==> known && !fits)
    && (code == NoError <==> fits)
  }

  lemma {:induction false} DisplayCode(s: State, id: int, m: Message)
    requires s.current.Some?
    ensures DisplayCodes(s, id, m, DisplayBlackboard(s, id, m).1)
  {
  }

  ghost predicate ReadCodes(s: State, id: int, timeout: int, p: Pid, code: Code) {
    if id !in s.blackboards then code == InvalidConfig
    else if !GoodTimeout(s.now, timeout) then code == InvalidParam
    else WaitCodes(code, s.blackboards[id].occupied, timeout, s.At(p).owned.Some?)
  }

  lemma {:induction false} ReadCode(s: State, id: int, timeout: int, p: Pid)
    requires s.current == Some(p)
    ensures ReadCodes(s, id, timeout, p, ReadBlackboard(s, id, timeout).1)
  {
    TimeoutExact(s.now, timeout);
  }

  ghost predicate ClearCodes(s: State, id: int, code: Code) {
    (code == InvalidConfig <==> id !in s.blackboards) && (code == NoError <==> id in s.blackboards)
  }

  lemma {:induction false} ClearCode(s: State, id: int)
    ensures ClearCodes(s, id, ClearBlackboard(s, id).1)
  {
  }

  /** Room in the ring serves a sender. */
  ghost predicate SendCodes(s: State, id: int, m: Message, timeout: int, p: Pid, code: Code) {
    if id !in s.buffers then code == InvalidParam
    else if |m| >= s.buffers[id].maxSize then code == InvalidConfig
    else if |m| == 0 || !GoodTimeout(s.now, timeout) then code == InvalidParam
    else WaitCodes(code, |s.buffers[id].ring| < s.buffers[id].maxMessages, timeout, s.At(p).owned.Some?)
  }

  lemma {:induction false} SendCode(s: State, id: int, m: Message, timeout: int, p: Pid)
    requires s.current == Some(p)
    ensures SendCodes(s, id, m, timeout, p, SendBuffer(s, id, m, timeout).1)
  {
    TimeoutExact(s.now, timeout);
  }

  /** A message in the ring serves a receiver, whatever its time-out. */
  ghost predicate ReceiveCodes(s: State, id: int, timeout: int, p: Pid, code: Code) {
    if id !in s.buffers || !GoodTimeout(s.now, timeout) then code == InvalidParam
    else WaitCodes(code, s.buffers[id].ring != [], timeout, s.At(p).owned.Some?)
  }

  lemma {:induction false} ReceiveCode(s: State, id: int, timeout: int, p: Pid)
    requires s.current == Some(p)
    ensures ReceiveCodes(s, id, timeout, p, ReceiveBuffer(s, id, timeout).1)
  {
    TimeoutExact(s.now, timeout);
  }

  // ---------------------------------------------------------------- after a wait

  /** A caller that waited without a time-out never reports one; otherwise the time counter decides. */
  lemma {:induction false} WakeCodeExact(x: Proc, timeout: int)
    ensures WakeCode(x, timeout) == NoError <==> timeout == -1 || x.timer != 0
    ensures WakeCode(x, timeout) == TimedOut <==> timeout != -1 && x.timer == 0
  {
  }
}
