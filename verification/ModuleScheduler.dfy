/** The module scheduler: a window walker that stands in for "which partition owns this tick". */
module ModuleScheduler {
  import opened Arithmetic

  datatype Option<+T> = None | Some(value: T)

  datatype Window = Window(id: int, start: int, duration: int, periodic: bool)
  {
    const end := start + duration
  }

  datatype Table = Table(windows: seq<Window>, frame: int)

  const IDLE_PARTITION: int := 0

  /** A partition control block: its identifier, and whether OPERATING_MODE is IDLE. */
  datatype Pcb = Pcb(id: int, idle: bool)

  /** `current` is partition_current, `idle` the idle_current_partition flag; `halted` is krnl_panic. */
  datatype Sched = Sched(idx: int, frames: int, idle: bool, current: Option<int>, halted: bool)

  // ---------------------------------------------------------------- the table

  /** Where the span of window `i`, gap included, ends. */
  function Limit(tb: Table, i: int): int
    requires 0 <= i < |tb.windows|
  {
    if i + 1 < |tb.windows| then tb.windows[i + 1].start else tb.frame
  }

  predicate WindowOk(tb: Table, i: int)
    requires 0 <= i < |tb.windows|
  {
    0 < tb.windows[i].duration && tb.windows[i].end <= Limit(tb, i)
  }

  /** Windows are sorted, do not overlap, start with the frame and end within it. */
  ghost predicate TableOk(tb: Table) {
    && tb.windows != [] && tb.windows[0].start == 0 && 0 < tb.frame
    && (forall i :: 0 <= i < |tb.windows| ==> WindowOk(tb, i))
  }

  lemma {:induction false} Sorted(tb: Table, i: int, j: int)
    requires TableOk(tb) && 0 <= i < j < |tb.windows|
    ensures 0 <= tb.windows[i].start < tb.windows[i].end <= tb.windows[j].start
    decreases j
  {
    assert WindowOk(tb, j - 1) && WindowOk(tb, i);
    if i < j - 1 {
      Sorted(tb, i, j - 1);
    }
    if i > 0 {
      Sorted(tb, 0, i);
    }
  }

  lemma {:induction false} WindowInFrame(tb: Table, i: int)
    requires TableOk(tb) && 0 <= i < |tb.windows|
    ensures 0 <= tb.windows[i].start < tb.windows[i].end <= Limit(tb, i) <= tb.frame
  {
    var n := |tb.windows| - 1;
    assert WindowOk(tb, i) && WindowOk(tb, n);
    if 0 < i {
      Sorted(tb, 0, i);
    }
    if i + 1 < n {
      Sorted(tb, i + 1, n);
    }
  }

  /** The window whose span contains a position of the frame. */
  function SpanOf(tb: Table, pos: int, n: nat): (i: int)
    requires 0 < n <= |tb.windows|
    ensures 0 <= i < n
  {
    if n == 1 || tb.windows[n - 1].start <= pos then n - 1 else SpanOf(tb, pos, n - 1)
  }

  function Span(tb: Table, pos: int): (i: int)
    requires tb.windows != []
    ensures 0 <= i < |tb.windows|
  {
    SpanOf(tb, pos, |tb.windows|)
  }

  lemma {:induction false} SpanOfBounds(tb: Table, pos: int, n: nat)
    requires TableOk(tb) && 0 < n <= |tb.windows| && 0 <= pos < (if n < |tb.windows| then tb.windows[n].start
             else tb.frame)
    ensures tb.windows[SpanOf(tb, pos, n)].start <= pos < Limit(tb, SpanOf(tb, pos, n))
  {
    if n > 1 && tb.windows[n - 1].start > pos {
      SpanOfBounds(tb, pos, n - 1);
    }
  }

  lemma {:induction false} SpanBounds(tb: Table, pos: int)
    requires TableOk(tb) && 0 <= pos < tb.frame
    ensures tb.windows[Span(tb, pos)].start <= pos < Limit(tb, Span(tb, pos))
  {
    SpanOfBounds(tb, pos, |tb.windows|);
  }

  lemma {:induction false} SpanUnique(tb: Table, pos: int, i: int)
    requires TableOk(tb) && 0 <= i < |tb.windows| && tb.windows[i].start <= pos < Limit(tb, i)
    ensures Span(tb, pos) == i
  {
    WindowInFrame(tb, i);
    SpanBounds(tb, pos);
    var j := Span(tb, pos);
    if i < j {
      if i + 1 < j {
        Sorted(tb, i + 1, j);
      }
    } else if j < i {
      if j + 1 < i {
        Sorted(tb, j + 1, i);
      }
    }
  }

  // ---------------------------------------------------------------- krnl_partition_switch

  function Find(pcbs: seq<Pcb>, id: int): Option<Pcb> {
    if pcbs == [] then None
    else if pcbs[0].id == id then Some(pcbs[0])
    else Find(pcbs[1..], id)
  }

  /** Which partition may run when `id` is switched to. */
  function Runnable(pcbs: seq<Pcb>, id: int): Option<int> {
    if id == IDLE_PARTITION then None
    else
      match Find(pcbs, id)
      case None => None
      case Some(p) => if p.idle then None else Some(id)
  }

  /** Position `i` of the partition list holds the first partition of that identifier. */
  predicate FirstWith(pcbs: seq<Pcb>, id: int, i: int) {
    0 <= i < |pcbs| && pcbs[i].id == id && forall j :: 0 <= j < i ==> pcbs[j].id != id
  }

  /** The partition of that identifier exists and is not in IDLE mode. */
  ghost predicate MayRun(pcbs: seq<Pcb>, id: int) {
    id != 0 && exists i :: FirstWith(pcbs, id, i) && !pcbs[i].idle
  }

  lemma {:induction false} FindExact(pcbs: seq<Pcb>, id: int)
    ensures Find(pcbs, id).None? <==> forall i :: 0 <= i < |pcbs| ==> pcbs[i].id != id
    ensures Find(pcbs, id).Some? ==> exists i :: FirstWith(pcbs, id, i) && Find(pcbs, id).value == pcbs[i]
  {
    if pcbs != [] {
      if pcbs[0].id == id {
        assert FirstWith(pcbs, id, 0);
      } else {
        FindExact(pcbs[1..], id);
        if Find(pcbs[1..], id).Some? {
          var i :| FirstWith(pcbs[1..], id, i) && Find(pcbs[1..], id).value == pcbs[1..][i];
          assert FirstWith(pcbs, id, i + 1);
        } else {
          assert forall i :: 0 < i < |pcbs| ==> pcbs[i] == pcbs[1..][i - 1];
        }
      }
    }
  }

  lemma {:induction false} FirstUnique(pcbs: seq<Pcb>, id: int, i: int, j: int)
    requires FirstWith(pcbs, id, i) && FirstWith(pcbs, id, j)
    ensures i == j
  {
  }

  /** A switch to `id` makes it current exactly if it may run, and panics exactly if it is not in the list. */
  lemma {:induction false} SwitchExact(s: Sched, pcbs: seq<Pcb>, id: int)
    ensures Runnable(pcbs, id) == if MayRun(pcbs, id) then Some(id) else None
    ensures Known(pcbs, id) <==> id == 0 || exists i :: 0 <= i < |pcbs| && pcbs[i].id == id
    ensures var t := Switch(s, pcbs, id);
            t == if Known(pcbs, id) then s.(current := if MayRun(pcbs, id) then Some(id) else None)
                 else s.(halted := true)
  {
    FindExact(pcbs, id);
    if id != 0 && Find(pcbs, id).Some? {
      var i :| FirstWith(pcbs, id, i) && Find(pcbs, id).value == pcbs[i];
      if MayRun(pcbs, id) {
        var j :| FirstWith(pcbs, id, j) && !pcbs[j].idle;
        FirstUnique(pcbs, id, i, j);
      }
    }
  }

  lemma {:induction false} UnknownMayNot(pcbs: seq<Pcb>, id: int)
    requires id != 0 ==> forall i :: 0 <= i < |pcbs| ==> pcbs[i].id != id
    ensures !MayRun(pcbs, id)
  {
  }

  lemma {:induction false} IdleMayNot(pcbs: seq<Pcb>, id: int, i: int)
    requires FirstWith(pcbs, id, i) && pcbs[i].idle
    ensures !MayRun(pcbs, id)
  {
    forall j | FirstWith(pcbs, id, j) ensures pcbs[j].idle {
      FirstUnique(pcbs, id, i, j);
    }
  }

  predicate Known(pcbs: seq<Pcb>, id: int) {
    id == IDLE_PARTITION || Find(pcbs, id).Some?
  }

  function Switch(s: Sched, pcbs: seq<Pcb>, id: int): Sched {
    if Known(pcbs, id) then s.(current := Runnable(pcbs, id)) else s.(halted := true)
  }

  // ---------------------------------------------------------------- partition_scheduler

  function Position(tb: Table, s: Sched, tick: int): int {
    tick - s.frames * tb.frame
  }

  /** One call at position `pos` of the frame the walker is in. */
  function StepAt(tb: Table, pcbs: seq<Pcb>, s: Sched, pos: int): Sched
    requires 0 <= s.idx < |tb.windows|
  {
    var t := if s.idle then s.(idle := false, current := None) else s;
    if pos >= tb.frame then Switch(t.(idx := 0, frames := s.frames + 1), pcbs, tb.windows[0].id)
    else if pos >= tb.windows[s.idx].end then
      if s.idx == |tb.windows| - 1 || pos < tb.windows[s.idx + 1].start then t.(current := None)
      else Switch(t.(idx := s.idx + 1), pcbs, tb.windows[s.idx + 1].id)
    else t
  }

  function Step(tb: Table, pcbs: seq<Pcb>, s: Sched, tick: int): Sched
    requires 0 <= s.idx < |tb.windows|
  {
    StepAt(tb, pcbs, s, Position(tb, s, tick))
  }

  /** The frame count grows by one exactly when the frame is over, and the position follows. */
  lemma {:induction false} PositionAfter(tb: Table, pcbs: seq<Pcb>, s: Sched, tick: int)
    requires 0 <= s.idx < |tb.windows|
    ensures var t, pos := Step(tb, pcbs, s, tick), Position(tb, s, tick);
            && t.frames == (if pos >= tb.frame then s.frames + 1 else s.frames)
            && Position(tb, t, tick) == if pos >= tb.frame then pos - tb.frame else pos
  {
    assert (s.frames + 1) * tb.frame == s.frames * tb.frame + tb.frame;
  }

  /** Every identifier in the table belongs to a partition. */
  predicate AllKnown(tb: Table, pcbs: seq<Pcb>) {
    forall i :: 0 <= i < |tb.windows| ==> Known(pcbs, tb.windows[i].id)
  }

  // ---------------------------------------------------------------- temporal isolation

  /** Some window of the partition contains the position. */
  ghost predicate Owns(tb: Table, id: int, pos: int) {
    exists i :: 0 <= i < |tb.windows| && tb.windows[i].id == id && tb.windows[i].start <= pos < tb.windows[i].end
  }

  /** The walker stands in the span of the present position, and the current partition is either
      none or the owner of a window that contains it. */
  ghost predicate IsolatedAt(tb: Table, s: Sched, pos: int) {
    && 0 <= s.idx < |tb.windows| && !s.halted
    && tb.windows[s.idx].start <= pos < Limit(tb, s.idx)
    && (s.current.Some? ==> s.current.value == tb.windows[s.idx].id && pos < tb.windows[s.idx].end)
  }

  ghost predicate Isolated(tb: Table, s: Sched, tick: int) {
    IsolatedAt(tb, s, Position(tb, s, tick))
  }

  lemma {:induction false} StepIsolated(tb: Table, pcbs: seq<Pcb>, s: Sched, before: int, pos: int)
    requires TableOk(tb) && AllKnown(tb, pcbs) && IsolatedAt(tb, s, before) && before <= pos <= before + 1
    ensures IsolatedAt(tb, StepAt(tb, pcbs, s, pos), if pos >= tb.frame then pos - tb.frame else pos)
    ensures IsolatedAt(tb, StepAt(tb, pcbs, s.(idle := true), pos), if pos >= tb.frame then pos - tb.frame else pos)
  {
    WindowInFrame(tb, 0);
    WindowInFrame(tb, s.idx);
    assert Known(pcbs, tb.windows[0].id);
    if s.idx + 1 < |tb.windows| {
      WindowInFrame(tb, s.idx + 1);
      assert Known(pcbs, tb.windows[s.idx + 1].id);
    }
  }

  lemma {:induction false} IsolatedStep(tb: Table, pcbs: seq<Pcb>, s: Sched, tick: int, next: int)
    requires TableOk(tb) && AllKnown(tb, pcbs) && Isolated(tb, s, tick) && tick <= next <= tick + 1
    ensures Isolated(tb, Step(tb, pcbs, s, next), next)
    ensures Isolated(tb, Step(tb, pcbs, s.(idle := true), next), next)
  {
    StepIsolated(tb, pcbs, s, Position(tb, s, tick), Position(tb, s, next));
    PositionAfter(tb, pcbs, s, next);
    PositionAfter(tb, pcbs, s.(idle := true), next);
  }

  /** What the scheduler sees at one call: the tick, the modes of the partitions, and whether the
      running partition went idle since the last call. */
  datatype Call = Call(tick: int, pcbs: seq<Pcb>, signal: bool)

  function Signalled(s: Sched, signal: bool): Sched {
    if signal then s.(idle := true) else s
  }

  /** The tick advances by at most one per call; modes may change at will. */
  ghost predicate Paced(tb: Table, tick: int, calls: seq<Call>)
    decreases |calls|
  {
    calls != [] ==>
      && tick <= calls[0].tick <= tick + 1 && AllKnown(tb, calls[0].pcbs)
      && Paced(tb, calls[0].tick, calls[1..])
  }

  ghost predicate AlwaysIsolated(tb: Table, s: Sched, tick: int, calls: seq<Call>)
    decreases |calls|
  {
    && Isolated(tb, s, tick)
    && (calls != [] ==>
          AlwaysIsolated(tb, Step(tb, calls[0].pcbs, Signalled(s, calls[0].signal), calls[0].tick), calls[0].tick,
              calls[1..]))
  }

  lemma {:induction false} IsolationOverRun(tb: Table, s: Sched, tick: int, calls: seq<Call>)
    requires TableOk(tb) && Isolated(tb, s, tick) && Paced(tb, tick, calls)
    ensures AlwaysIsolated(tb, s, tick, calls)
    decreases |calls|
  {
    if calls != [] {
      var c := calls[0];
      IsolatedStep(tb, c.pcbs, s, tick, c.tick);
      IsolationOverRun(tb, Step(tb, c.pcbs, Signalled(s, c.signal), c.tick), c.tick, calls[1..]);
    }
  }

  /** In terms of the table alone: nobody but the owner of the present position runs, and outside
      all windows nobody runs. */
  lemma {:induction false} IsolationMeans(tb: Table, s: Sched, tick: int)
    requires TableOk(tb) && Isolated(tb, s, tick)
    ensures s.frames == tick / tb.frame && s.idx == Span(tb, tick % tb.frame)
    ensures s.current.Some? ==> Owns(tb, s.current.value, tick % tb.frame)
  {
    WindowInFrame(tb, s.idx);
    var pos := Position(tb, s, tick);
    QuotientUnique(tick, tb.frame, s.frames, pos);
    SpanUnique(tb, pos, s.idx);
    assert s.current.Some? ==>
        tb.windows[s.idx].id == s.current.value && tb.windows[s.idx].start <= pos < tb.windows[s.idx].end;
  }

  /** arinc_start_scheduling: window 0, tick 0; it panics without a table and without a partition to run. */
  function Started(tb: Table, pcbs: seq<Pcb>, s: Sched): Sched {
    if tb.windows == [] then s.(halted := true)
    else
      var t := Switch(s, pcbs, tb.windows[0].id).(idx := 0);
      if t.current.None? then t.(halted := true) else t
  }

  /** Scheduling starts isolated unless the owner of the first window cannot run, and then it panics. */
  lemma {:induction false} StartedIsolated(tb: Table, pcbs: seq<Pcb>, idle: bool)
    requires TableOk(tb) && AllKnown(tb, pcbs)
    ensures var s := Started(tb, pcbs, Sched(0, 0, idle, None, false));
            if MayRun(pcbs, tb.windows[0].id) then Isolated(tb, s, 0) && s.current == Some(tb.windows[0].id)
            else s.halted
  {
    WindowInFrame(tb, 0);
    assert Known(pcbs, tb.windows[0].id);
    SwitchExact(Sched(0, 0, idle, None, false), pcbs, tb.windows[0].id);
  }

  // ---------------------------------------------------------------- catching up after a stall

  /** The walker is somewhere behind the present position. */
  ghost predicate Behind(tb: Table, s: Sched, tick: int) {
    0 <= s.idx < |tb.windows| && !s.halted && tb.windows[s.idx].start <= Position(tb, s, tick)
  }

  /** How many calls move the walker before it stands in the right span. */
  function Lag(tb: Table, s: Sched, tick: int): int
    requires tb.windows != [] && tb.frame != 0
  {
    var frames := tick / tb.frame - s.frames;
    if frames > 0 then frames + Span(tb, tick % tb.frame) else Span(tb, tick % tb.frame) - s.idx
  }

  lemma {:induction false} FramesBehind(tb: Table, s: Sched, tick: int)
    requires TableOk(tb) && Behind(tb, s, tick)
    ensures s.frames <= tick / tb.frame
    ensures s.frames == tick / tb.frame <==> Position(tb, s, tick) < tb.frame
    ensures s.frames == tick / tb.frame ==> Position(tb, s, tick) == tick % tb.frame
  {
    WindowInFrame(tb, s.idx);
    QuotientAtLeast(tick, tb.frame, s.frames);
  }

  /** A call within the frame moves a lagging walker one window on. */
  lemma {:induction false} WalkOn(tb: Table, pcbs: seq<Pcb>, s: Sched, pos: int)
    requires TableOk(tb) && AllKnown(tb, pcbs) && 0 <= s.idx < Span(tb, pos) && !s.halted && 0 <= pos < tb.frame
    ensures var t := StepAt(tb, pcbs, s, pos);
            && t.idx == s.idx + 1 && t.frames == s.frames && !t.idle && !t.halted && tb.windows[t.idx].start <= pos
            && t.current == Runnable(pcbs, tb.windows[t.idx].id)
  {
    var j := Span(tb, pos);
    SpanBounds(tb, pos);
    Sorted(tb, s.idx, s.idx + 1);
    if s.idx + 1 < j {
      Sorted(tb, s.idx + 1, j);
      WindowInFrame(tb, s.idx + 1);
    }
    assert Known(pcbs, tb.windows[s.idx + 1].id);
  }

  /** While there is a lag, each call reduces it by one and switches to the window it reaches. */
  lemma {:induction false} LagStep(tb: Table, pcbs: seq<Pcb>, s: Sched, tick: int)
    requires TableOk(tb) && AllKnown(tb, pcbs) && Behind(tb, s, tick) && Lag(tb, s, tick) > 0
    ensures var t := Step(tb, pcbs, s, tick);
            && Behind(tb, t, tick) && Lag(tb, t, tick) == Lag(tb, s, tick) - 1
            && !t.idle && t.current == Runnable(pcbs, tb.windows[t.idx].id)
  {
    FramesBehind(tb, s, tick);
    PositionAfter(tb, pcbs, s, tick);
    if s.frames == tick / tb.frame {
      WalkOn(tb, pcbs, s, tick % tb.frame);
    } else {
      assert Known(pcbs, tb.windows[0].id);
    }
  }

  /** Without a lag the walker stays; in a gap nobody runs, in a window the partition keeps running. */
  lemma {:induction false} NoLagStep(tb: Table, pcbs: seq<Pcb>, s: Sched, tick: int)
    requires TableOk(tb) && Behind(tb, s, tick) && Lag(tb, s, tick) == 0
    ensures var t, pos := Step(tb, pcbs, s, tick), tick % tb.frame;
            && t.idx == s.idx == Span(tb, pos) && t.frames == s.frames == tick / tb.frame && !t.idle && !t.halted
            && Behind(tb, t, tick)
            && t.current == if s.idle || pos >= tb.windows[s.idx].end then None else s.current
  {
    FramesBehind(tb, s, tick);
    SpanBounds(tb, tick % tb.frame);
  }

  function Calls(tb: Table, pcbs: seq<Pcb>, s: Sched, tick: int, n: nat): Sched
    requires 0 <= s.idx < |tb.windows|
    decreases n
  {
    if n == 0 then s
    else
      var t := Step(tb, pcbs, s, tick);
      if 0 <= t.idx < |tb.windows| then Calls(tb, pcbs, t, tick, n - 1) else t
  }

  lemma {:induction false} LagBound(tb: Table, s: Sched, tick: int)
    requires TableOk(tb) && Behind(tb, s, tick)
    ensures 0 <= Lag(tb, s, tick) < tick / tb.frame - s.frames + |tb.windows|
  {
    FramesBehind(tb, s, tick);
    SpanBounds(tb, tick % tb.frame);
    var j := Span(tb, tick % tb.frame);
    if s.frames == tick / tb.frame && j < s.idx {
      if j + 1 < s.idx {
        Sorted(tb, j + 1, s.idx);
      }
    }
  }

  /** The partition a table lookup gives for a position of the frame. */
  function Lookup(tb: Table, pcbs: seq<Pcb>, pos: int): Option<int>
    requires tb.windows != []
  {
    var w := tb.windows[Span(tb, pos)];
    if w.start <= pos < w.end then Runnable(pcbs, w.id) else None
  }

  /** It is the partition whose window contains the position, if that partition may run. */
  lemma {:induction false} LookupExact(tb: Table, pcbs: seq<Pcb>, s: Sched, pos: int, id: int)
    requires TableOk(tb) && 0 <= pos < tb.frame
    ensures Lookup(tb, pcbs, pos) == Some(id) <==> Owns(tb, id, pos) && MayRun(pcbs, id)
  {
    SpanBounds(tb, pos);
    var w := tb.windows[Span(tb, pos)];
    SwitchExact(s, pcbs, w.id);
    if Owns(tb, id, pos) {
      var i :| 0 <= i < |tb.windows| && tb.windows[i].id == id && tb.windows[i].start <= pos < tb.windows[i].end;
      WindowInFrame(tb, i);
      SpanUnique(tb, pos, i);
    }
  }

  /** What repeated calls at a fixed tick lead to. */
  function Outcome(tb: Table, pcbs: seq<Pcb>, s: Sched, tick: int): Sched
    requires tb.windows != [] && tb.frame != 0
  {
    var pos := tick % tb.frame;
    Sched(Span(tb, pos), tick / tb.frame, false,
          if Lag(tb, s, tick) > 0 || pos >= tb.windows[Span(tb, pos)].end then Lookup(tb, pcbs, pos)
          else if s.idle then None else s.current,
          false)
  }

  lemma {:induction false} LastStep(tb: Table, pcbs: seq<Pcb>, s: Sched, tick: int)
    requires TableOk(tb) && Behind(tb, s, tick) && Lag(tb, s, tick) == 0
    ensures Step(tb, pcbs, s, tick) == Outcome(tb, pcbs, s, tick)
  {
    NoLagStep(tb, pcbs, s, tick);
  }

  lemma {:induction false} OutcomeStep(tb: Table, pcbs: seq<Pcb>, s: Sched, tick: int)
    requires TableOk(tb) && AllKnown(tb, pcbs) && Behind(tb, s, tick) && Lag(tb, s, tick) > 0
    ensures Outcome(tb, pcbs, Step(tb, pcbs, s, tick), tick) == Outcome(tb, pcbs, s, tick)
  {
    LagStep(tb, pcbs, s, tick);
    LagBound(tb, Step(tb, pcbs, s, tick), tick);
    var t := Step(tb, pcbs, s, tick);
    if Lag(tb, t, tick) == 0 {
      NoLagStep(tb, pcbs, t, tick);
      SpanBounds(tb, tick % tb.frame);
    }
  }

  /** Calls at a fixed tick settle within frames behind + number of windows, and stay settled. */
  lemma {:induction false} CatchUp(tb: Table, pcbs: seq<Pcb>, s: Sched, tick: int, n: nat)
    requires TableOk(tb) && AllKnown(tb, pcbs) && Behind(tb, s, tick) && n >= tick / tb.frame - s.frames + |tb.windows|
    ensures Calls(tb, pcbs, s, tick, n) == Outcome(tb, pcbs, s, tick)
  {
    LagBound(tb, s, tick);
    CatchUpWithin(tb, pcbs, s, tick, n);
  }

  /** In terms of the table and the modes: a walker that had to move, or finds itself in a gap, ends with the
      partition whose window it is, if it may run; one that did not move keeps whom it has, unless told to idle. */
  lemma {:induction false} CatchUpRuns(tb: Table, pcbs: seq<Pcb>, s: Sched, tick: int, n: nat, id: int)
    requires TableOk(tb) && AllKnown(tb, pcbs) && Behind(tb, s, tick) && n >= tick / tb.frame - s.frames + |tb.windows|
    ensures var t, pos := Calls(tb, pcbs, s, tick, n), tick % tb.frame;
            if Lag(tb, s, tick) > 0 || pos >= tb.windows[s.idx].end
            then t.current == Some(id) <==> Owns(tb, id, pos) && MayRun(pcbs, id)
            else t.current == if s.idle then None else s.current
  {
    CatchUp(tb, pcbs, s, tick, n);
    LagBound(tb, s, tick);
    FramesBehind(tb, s, tick);
    LookupExact(tb, pcbs, s, tick % tb.frame, id);
  }

  lemma {:induction false} CatchUpWithin(tb: Table, pcbs: seq<Pcb>, s: Sched, tick: int, n: nat)
    requires TableOk(tb) && AllKnown(tb, pcbs) && Behind(tb, s, tick) && n > Lag(tb, s, tick)
    ensures Calls(tb, pcbs, s, tick, n) == Outcome(tb, pcbs, s, tick)
    decreases n
  {
    LagBound(tb, s, tick);
    var t := Step(tb, pcbs, s, tick);
    if Lag(tb, s, tick) > 0 {
      LagStep(tb, pcbs, s, tick);
      OutcomeStep(tb, pcbs, s, tick);
      CatchUpWithin(tb, pcbs, t, tick, n - 1);
    } else {
      NoLagStep(tb, pcbs, s, tick);
      LastStep(tb, pcbs, s, tick);
      Settled(tb, pcbs, t, tick, n - 1);
    }
  }

  lemma {:induction false} Settled(tb: Table, pcbs: seq<Pcb>, s: Sched, tick: int, n: nat)
    requires TableOk(tb) && Behind(tb, s, tick) && Lag(tb, s, tick) == 0 && !s.idle
    requires tick % tb.frame >= tb.windows[s.idx].end ==> s.current.None?
    ensures Calls(tb, pcbs, s, tick, n) == s
    decreases n
  {
    if n > 0 {
      NoLagStep(tb, pcbs, s, tick);
      assert Step(tb, pcbs, s, tick) == s;
      Settled(tb, pcbs, s, tick, n - 1);
    }
  }

  // ---------------------------------------------------------------- idle inside a window

  /** A sequence of calls, with idle signals and mode changes in between. */
  function Walk(tb: Table, s: Sched, calls: seq<Call>): Sched
    requires 0 <= s.idx < |tb.windows|
    decreases |calls|
  {
    if calls == [] then s
    else
      var t := Step(tb, calls[0].pcbs, Signalled(s, calls[0].signal), calls[0].tick);
      if 0 <= t.idx < |tb.windows| then Walk(tb, t, calls[1..]) else t
  }

  /** The call comes while the walker's window lasts. */
  predicate InWindow(tb: Table, s: Sched, c: Call)
    requires 0 <= s.idx < |tb.windows|
  {
    tb.windows[s.idx].start <= Position(tb, s, c.tick) < tb.windows[s.idx].end
  }

  lemma {:induction false} IdleCall(tb: Table, s: Sched, c: Call)
    requires TableOk(tb) && 0 <= s.idx < |tb.windows| && (s.idle || s.current.None?) && InWindow(tb, s, c)
    ensures var t := Step(tb, c.pcbs, Signalled(s, c.signal), c.tick);
            t.idx == s.idx && t.frames == s.frames && t.current.None? && t.halted == s.halted
  {
    WindowInFrame(tb, s.idx);
  }

  /** Once its partition went idle, every further call inside the window leaves nobody current, whatever the
      modes say meanwhile: the walker does not look the table up again. */
  lemma {:induction false} IdleUntilNextWindow(tb: Table, s: Sched, calls: seq<Call>)
    requires TableOk(tb) && 0 <= s.idx < |tb.windows| && (s.idle || s.current.None?) && calls != []
    requires forall c :: c in calls ==> InWindow(tb, s, c)
    ensures Walk(tb, s, calls).current.None? && Walk(tb, s, calls).idx == s.idx && Walk(tb, s, calls).frames == s.frames
    decreases |calls|
  {
    var c := calls[0];
    assert c in calls;
    IdleCall(tb, s, c);
    var t := Step(tb, c.pcbs, Signalled(s, c.signal), c.tick);
    if |calls| > 1 {
      forall d | d in calls[1..] ensures InWindow(tb, t, d) {
        assert d in calls && InWindow(tb, s, d);
      }
      IdleUntilNextWindow(tb, t, calls[1..]);
    }
  }

  /** A table lookup would name the window's owner all the same, as soon as its mode allows. */
  lemma {:induction false} LookupInWindow(tb: Table, s: Sched, c: Call)
    requires TableOk(tb) && 0 <= s.idx < |tb.windows| && InWindow(tb, s, c)
    ensures Lookup(tb, c.pcbs, c.tick % tb.frame)
         == if MayRun(c.pcbs, tb.windows[s.idx].id) then Some(tb.windows[s.idx].id) else None
  {
    SwitchExact(s, c.pcbs, tb.windows[s.idx].id);
    WindowInFrame(tb, s.idx);
    var pos := Position(tb, s, c.tick);
    QuotientUnique(c.tick, tb.frame, s.frames, pos);
    SpanUnique(tb, pos, s.idx);
  }

  /** signal_idle_current_partition: the partition gives up the rest of its window. */
  lemma {:induction false} SignalTakesEffect(tb: Table, s: Sched, calls: seq<Call>)
    requires TableOk(tb) && 0 <= s.idx < |tb.windows| && calls != [] && forall c :: c in calls ==> InWindow(tb, s, c)
    ensures Walk(tb, Signalled(s, true), calls).current.None?
  {
    assert forall c :: c in calls ==> InWindow(tb, Signalled(s, true), c) by {
      forall c | c in calls ensures InWindow(tb, Signalled(s, true), c) {
        assert InWindow(tb, s, c);
      }
    }
    IdleUntilNextWindow(tb, Signalled(s, true), calls);
  }

  // ---------------------------------------------------------------- first release points

  /** TICKS_TO_MS for a timer of `hz` ticks per second. */
  function Ms(hz: int, ticks: int): int
    requires hz > 0
  {
    ticks * 1000 / hz
  }

  lemma {:induction false} MsMonotone(hz: int, a: int, b: int)
    requires hz > 0 && a <= b
    ensures Ms(hz, a) <= Ms(hz, b)
  {
    DivideMonotone(a * 1000, b * 1000, hz);
  }

  predicate Candidate(tb: Table, id: int, i: int) {
    0 <= i < |tb.windows| && tb.windows[i].id == id && tb.windows[i].periodic
  }

  /** Window `i` of frame `k` is the current window or a later one. */
  predicate Upcoming(s: Sched, k: int, i: int) {
    k > s.frames || (k == s.frames && i >= s.idx)
  }

  predicate NotAfter(k: int, i: int, l: int, j: int) {
    k < l || (k == l && i <= j)
  }

  function ReleaseTime(tb: Table, hz: int, k: int, i: int): int
    requires 0 <= i < |tb.windows| && hz > 0
  {
    k * Ms(hz, tb.frame) + Ms(hz, tb.windows[i].start)
  }

  /** The release point is the earliest of a periodic-start window of the partition from the
      current window on. */
  ghost predicate Earliest(tb: Table, hz: int, s: Sched, id: int, k: int, i: int)
    requires hz > 0
  {
    && Candidate(tb, id, i) && Upcoming(s, k, i)
    && (forall l, j :: Candidate(tb, id, j) && Upcoming(s, l, j) ==>
          NotAfter(k, i, l, j) && ReleaseTime(tb, hz, k, i) <= ReleaseTime(tb, hz, l, j))
  }

  /** Release times follow the cyclic order of windows. */
  lemma {:induction false} ReleaseOrder(tb: Table, hz: int, k: int, i: int, l: int, j: int)
    requires TableOk(tb) && hz > 0 && 0 <= i < |tb.windows| && 0 <= j < |tb.windows| && NotAfter(k, i, l, j)
    ensures ReleaseTime(tb, hz, k, i) <= ReleaseTime(tb, hz, l, j)
  {
    WindowInFrame(tb, i);
    WindowInFrame(tb, j);
    var m := Ms(hz, tb.frame);
    if k == l {
      if i < j {
        Sorted(tb, i, j);
      }
      MsMonotone(hz, tb.windows[i].start, tb.windows[j].start);
    } else {
      MsMonotone(hz, tb.windows[i].start, tb.frame);
      MsMonotone(hz, 0, tb.windows[j].start);
      MsMonotone(hz, 0, tb.frame);
      SmallRemainder(0, hz);
      LaterFrame(k, l, m, Ms(hz, tb.windows[i].start), Ms(hz, tb.windows[j].start));
    }
  }

  lemma {:induction false} LaterFrame(k: int, l: int, m: int, a: int, b: int)
    requires k < l && a <= m && 0 <= m && 0 <= b
    ensures k * m + a <= l * m + b
  {
    MulMonotone(k + 1, l, m);
    assert (k + 1) * m == k * m + m;
  }

  /** The identifier a call returns: 0 outside the windows and once the partition went idle; at the turn of the
      frame 0 as well if the first partition is in IDLE mode, while a later window's owner is named all the same. */
  ghost function Answer(tb: Table, pcbs: seq<Pcb>, s: Sched, t: Sched, tick: int): int
    requires 0 <= s.idx < |tb.windows| && 0 <= t.idx < |tb.windows|
  {
    var pos := tick - s.frames * tb.frame;
    if pos >= tb.frame then (if MayRun(pcbs, tb.windows[0].id) then tb.windows[0].id else 0)
    else if t.idx != s.idx then tb.windows[t.idx].id
    else if pos >= tb.windows[s.idx].end || s.idle then 0
    else tb.windows[s.idx].id
  }

  // ---------------------------------------------------------------- the scheduler in place

  class Scheduler {
    const table: Table
    const hz: int
    var pcbs: seq<Pcb>
    var idx: int
    var frames: int
    var idle: bool
    var current: Option<int>
    var halted: bool

    function View(): Sched
      reads this
    {
      Sched(idx, frames, idle, current, halted)
    }

    constructor (table: Table, hz: int, pcbs: seq<Pcb>)
      ensures View() == Sched(0, 0, false, None, false) && this.table == table && this.pcbs == pcbs && this.hz == hz
    {
      this.table, this.hz, this.pcbs := table, hz, pcbs;
      idx, frames, idle, current, halted := 0, 0, false, None, false;
    }

    /** krnl_partition_switch: nobody is current for the idle identifier and for a partition in IDLE mode,
        the partition itself otherwise; an identifier that is not in the list panics. */
    method PartitionSwitch(id: int) returns (r: int)
      modifies this`current, this`halted
      ensures id == 0 ==> current.None? && r == 0 && halted == old(halted)
      ensures id != 0 ==> forall i :: FirstWith(pcbs, id, i) ==>
                && current == (if pcbs[i].idle then None else Some(id)) && r == (if pcbs[i].idle then 0 else id)
                && halted == old(halted)
      ensures id != 0 && (forall i :: 0 <= i < |pcbs| ==> pcbs[i].id != id) ==> halted && current == old(current)
      ensures View() == Switch(old(View()), pcbs, id)
    {
      r := SwitchTo(id);
      forall i | FirstWith(pcbs, id, i) && id != 0 ensures MayRun(pcbs, id) <==> !pcbs[i].idle {
        if MayRun(pcbs, id) {
          var j :| FirstWith(pcbs, id, j) && !pcbs[j].idle;
          FirstUnique(pcbs, id, i, j);
        }
      }
    }

    /** Searches the partition list. */
    method SwitchTo(id: int) returns (r: int)
      modifies this`current, this`halted
      ensures View() == Switch(old(View()), pcbs, id)
      ensures Known(pcbs, id) <==> id == 0 || exists i :: 0 <= i < |pcbs| && pcbs[i].id == id
      ensures Known(pcbs, id) ==> current == (if MayRun(pcbs, id) then Some(id) else None)
      ensures Known(pcbs, id) ==> r == if MayRun(pcbs, id) then id else 0
    {
      SwitchExact(View(), pcbs, id);
      if id == IDLE_PARTITION {
        current := None;
        return IDLE_PARTITION;
      }
      var i := 0;
      while i < |pcbs| && pcbs[i].id != id
        invariant 0 <= i <= |pcbs|
        invariant forall j :: 0 <= j < i ==> pcbs[j].id != id
      {
        i := i + 1;
      }
      if i == |pcbs| {
        halted := true;
        return id;
      }
      assert FirstWith(pcbs, id, i);
      if pcbs[i].idle {
        IdleMayNot(pcbs, id, i);
        current := None;
        return IDLE_PARTITION;
      }
      current := Some(id);
      r := id;
    }

    method StartScheduling()
      requires !halted
      modifies this
      ensures pcbs == old(pcbs) && View() == Started(table, pcbs, old(View()))
      ensures TableOk(table) && AllKnown(table, pcbs) && old(View()) == Sched(0, 0, old(idle), None, false) ==>
                (Isolated(table, View(), 0) <==> MayRun(pcbs, table.windows[0].id))
      ensures halted <==> table.windows == [] || !MayRun(pcbs, table.windows[0].id)
      ensures !halted ==> current == Some(table.windows[0].id) && idx == 0
    {
      if TableOk(table) && AllKnown(table, pcbs) {
        StartedIsolated(table, pcbs, idle);
      }
      if |table.windows| == 0 {
        halted := true;
        return;
      }
      var id := SwitchTo(table.windows[0].id);
      if !Known(pcbs, table.windows[0].id) {
        UnknownMayNot(pcbs, table.windows[0].id);
      }
      idx := 0;
      if current.None? {
        halted := true;
      }
    }

    method SignalIdle()
      modifies this`idle
      ensures View() == Signalled(old(View()), true)
    {
      idle := true;
    }

    method PartitionScheduler(tick: int) returns (id: int)
      requires 0 <= idx < |table.windows| && !halted
      modifies this
      ensures View() == Step(table, pcbs, old(View()), tick) && pcbs == old(pcbs)
      ensures !halted && old(current.Some? ==> current.value == table.windows[idx].id) && current.Some? ==>
              id == current.value
      ensures !halted ==> id == Answer(table, pcbs, old(View()), View(), tick)
    {
      var position := tick - frames * table.frame;
      var w := table.windows[idx];
      var end := w.start + w.duration;
      id := w.id;
      if idle {
        id := SwitchTo(IDLE_PARTITION);
        idle := false;
      }
      if position >= table.frame {
        idx := 0;
        id := table.windows[idx].id;
        frames := frames + 1;
        id := SwitchTo(id);
        return;
      }
      if position >= end {
        if idx == |table.windows| - 1 {
          id := SwitchTo(IDLE_PARTITION);
          return;
        }
        if position < table.windows[idx + 1].start {
          id := SwitchTo(IDLE_PARTITION);
          return;
        }
        idx := idx + 1;
        id := table.windows[idx].id;
        var r := SwitchTo(id);
      }
    }

    /** arinc_time_find_first_release_point; None is the path on which the C function falls off its end. */
    method FirstReleasePoint(id: int) returns (r: Option<int>)
      requires TableOk(table) && 0 <= idx < |table.windows| && hz > 0
      ensures r.None? <==> forall i :: !Candidate(table, id, i)
      ensures r.Some? ==>
                exists k, i :: Earliest(table, hz, View(), id, k, i) && r.value == ReleaseTime(table, hz, k, i)
      ensures r.Some? ==>
                exists k, i :: Earliest(table, hz, View(), id, k, i)
                               && r.value == k * (table.frame * 1000 / hz) + table.windows[i].start * 1000 / hz
    {
      var i := idx;
      while i < |table.windows|
        invariant idx <= i <= |table.windows|
        invariant forall j :: idx <= j < i ==> !Candidate(table, id, j)
      {
        if table.windows[i].id == id && table.windows[i].periodic {
          NearestIsEarliest(table, hz, View(), id, frames, i);
          return Some(frames * Ms(hz, table.frame) + Ms(hz, table.windows[i].start));
        }
        i := i + 1;
      }
      i := 0;
      while i < idx
        invariant 0 <= i <= idx
        invariant forall j :: 0 <= j < i ==> !Candidate(table, id, j)
      {
        if table.windows[i].id == id && table.windows[i].periodic {
          NearestIsEarliest(table, hz, View(), id, frames + 1, i);
          return Some((frames + 1) * Ms(hz, table.frame) + Ms(hz, table.windows[i].start));
        }
        i := i + 1;
      }
      r := None;
    }
  }

  lemma {:induction false} NearestIsEarliest(tb: Table, hz: int, s: Sched, id: int, k: int, i: int)
    requires TableOk(tb) && hz > 0 && Candidate(tb, id, i) && Upcoming(s, k, i)
    requires forall l, j :: Candidate(tb, id, j) && Upcoming(s, l, j) ==> NotAfter(k, i, l, j)
    ensures Earliest(tb, hz, s, id, k, i)
  {
    forall l, j | Candidate(tb, id, j) && Upcoming(s, l, j)
      ensures ReleaseTime(tb, hz, k, i) <= ReleaseTime(tb, hz, l, j)
    {
      ReleaseOrder(tb, hz, k, i, l, j);
    }
  }
}
