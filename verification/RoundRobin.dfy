/** TIMED_WAIT(0) is exact round robin among the READY processes of the highest priority. */
module RoundRobin {
  import opened Apex
  import opened Arithmetic
  import opened Sequences
  import opened Services
  import opened Invariant
  import opened Exact
  import opened Runs

  /** The READY processes of priority `n`, in list order. */
  function Tops(procs: map<Pid, Proc>, order: seq<Pid>, n: int): seq<Pid> {
    if order == [] then []
    else
      var rest := Tops(procs, order[1..], n);
      if IsReady(procs, order[0]) && procs[order[0]].priority == n then [order[0]] + rest else rest
  }

  /** `n` is the highest priority of a READY process, and no process of that priority owns a mutex. */
  ghost predicate TopIs(procs: map<Pid, Proc>, order: seq<Pid>, n: int) {
    && n >= 0 && Tops(procs, order, n) != []
    && (forall p :: p in procs && procs[p].state == Ready ==> procs[p].priority <= n)
    && (forall p :: p in procs && procs[p].state == Ready && procs[p].priority == n ==> procs[p].owned.None?)
  }

  lemma {:induction false} TopsMembers(procs: map<Pid, Proc>, order: seq<Pid>, n: int)
    ensures forall p :: p in Tops(procs, order, n) <==> p in order && IsReady(procs, p) && procs[p].priority == n
    ensures NoDup(order) ==> NoDup(Tops(procs, order, n))
  {
    if order != [] {
      TopsMembers(procs, order[1..], n);
      assert forall p :: p in order <==> p == order[0] || p in order[1..];
      assert NoDup(order) ==> NoDup(order[1..]) && order[0] !in order[1..];
    }
  }

  /** Where the first of them stands. */
  lemma {:induction false} FirstTop(procs: map<Pid, Proc>, order: seq<Pid>, n: int) returns (i: nat)
    requires Tops(procs, order, n) != []
    ensures i < |order| && order[i] == Tops(procs, order, n)[0]
    ensures IsReady(procs, order[i]) && procs[order[i]].priority == n
    ensures forall j :: 0 <= j < i ==> !(IsReady(procs, order[j]) && procs[order[j]].priority == n)
  {
    if IsReady(procs, order[0]) && procs[order[0]].priority == n {
      i := 0;
    } else {
      i := FirstTop(procs, order[1..], n);
      i := i + 1;
    }
  }

  lemma {:induction false} SelectTop(procs: map<Pid, Proc>, order: seq<Pid>, n: int)
    requires TopIs(procs, order, n)
    ensures Select(procs, order) == Some(Tops(procs, order, n)[0])
  {
    var i := FirstTop(procs, order, n);
    assert FirstBest(procs, order, i);
    SelectFirstBest(procs, order);
    var c := Select(procs, order);
    assert c.Some?;
    var j :| FirstBest(procs, order, j) && order[j] == c.value;
    FirstBestUnique(procs, order, i, j);
  }

  lemma {:induction false} TopsAppend(procs: map<Pid, Proc>, order: seq<Pid>, p: Pid, n: int)
    requires IsReady(procs, p) && procs[p].priority == n
    ensures Tops(procs, order + [p], n) == Tops(procs, order, n) + [p]
  {
    if order == [] {
      assert order + [p] == [p] && Tops(procs, [p], n) == [p];
    } else {
      assert (order + [p])[1..] == order[1..] + [p];
      TopsAppend(procs, order[1..], p, n);
    }
  }

  lemma {:induction false} TopsRemove(procs: map<Pid, Proc>, order: seq<Pid>, n: int)
    requires Tops(procs, order, n) != []
    ensures var c := Tops(procs, order, n)[0]; Tops(procs, Remove(order, c), n) == Tops(procs, order, n)[1..]
  {
    var c := Tops(procs, order, n)[0];
    if !(IsReady(procs, order[0]) && procs[order[0]].priority == n) {
      TopsRemove(procs, order[1..], n);
      TopsMembers(procs, order[1..], n);
      assert ([order[0]] + Remove(order[1..], c))[1..] == Remove(order[1..], c);
    }
  }

  // ---------------------------------------------------------------- one turn

  /** A dispatch followed by TIMED_WAIT(0) of the selected process. */
  function Turn(s: State): State
    requires Schedule(s).current.Some?
  {
    TimedWait(Schedule(s), 0).0
  }

  function Line(s: State, n: int): seq<Pid> {
    Tops(Preempted(s).procs, s.order, n)
  }

  ghost predicate Top(s: State, n: int) {
    0 <= s.now <= MAX_SYSTEM_TIME && TopIs(Preempted(s).procs, s.order, n)
  }

  lemma {:induction false} TurnState(s: State, n: int)
    requires Top(s, n)
    ensures var c := Line(s, n)[0];
            && Schedule(s).current == Some(c)
            && Turn(s).procs == Preempted(s).procs && Turn(s).order == Remove(s.order, c) + [c]
            && Turn(s).now == s.now && Preempted(Turn(s)) == Turn(s)
  {
    var procs := Preempted(s).procs;
    SelectTop(procs, s.order, n);
    var c := Line(s, n)[0];
    TopsMembers(procs, s.order, n);
    assert c in Line(s, n);
    var t := Schedule(s);
    ScheduledAs(s, Some(c));
    assert t.procs == procs[c := procs[c].(state := Running)] && t.order == s.order && t.now == s.now;
    WaitTurn(t, c, procs);
  }

  lemma {:induction false} WaitTurn(t: State, c: Pid, procs: map<Pid, Proc>)
    requires 0 <= t.now <= MAX_SYSTEM_TIME && t.current == Some(c) && c in procs && procs[c].state == Ready
    requires procs[c].owned.None? && t.procs == procs[c := procs[c].(state := Running)]
    ensures var u := TimedWait(t, 0).0;
            u.procs == procs && u.order == Remove(t.order, c) + [c] && u.now == t.now && Preempted(u) == u
  {
    assert t.At(c).(state := Ready) == procs[c];
  }

  /** The selected process goes to the back of the line; nobody else moves. */
  lemma {:induction false} TurnRotates(s: State, n: int)
    requires Top(s, n)
    ensures Schedule(s).current == Some(Line(s, n)[0])
    ensures Top(Turn(s), n) && Line(Turn(s), n) == Line(s, n)[1..] + [Line(s, n)[0]]
  {
    var procs, c := Preempted(s).procs, Line(s, n)[0];
    TurnState(s, n);
    TopsRemove(procs, s.order, n);
    TopsMembers(procs, s.order, n);
    assert c in Line(s, n);
    TopsAppend(procs, Remove(s.order, c), c, n);
  }

  // ---------------------------------------------------------------- any number of turns

  ghost function Turns(s: State, n: int, k: nat): (t: State)
    requires Top(s, n)
    ensures Top(t, n)
  {
    if k == 0 then s
    else
      var t := Turns(s, n, k - 1);
      TurnRotates(t, n);
      Turn(t)
  }

  /** `line` after `k` moves of its head to its end. */
  function Rotated(line: seq<Pid>, k: nat): seq<Pid>
    requires line != []
  {
    line[k % |line|..] + line[..k % |line|]
  }

  lemma {:induction false} RotateOnce(line: seq<Pid>, k: nat)
    requires line != []
    ensures Rotated(line, k)[1..] + [Rotated(line, k)[0]] == Rotated(line, k + 1)
  {
    NextRemainder(k, |line|);
  }

  lemma {:induction false} LineStep(t: State, n: int, line: seq<Pid>, k: nat)
    requires Top(t, n) && line != [] && Line(t, n) == Rotated(line, k)
    ensures Schedule(t).current.Some? && Line(Turn(t), n) == Rotated(line, k + 1)
  {
    TurnRotates(t, n);
    RotateOnce(line, k);
  }

  lemma {:induction false} LineAfter(s: State, n: int, k: nat)
    requires Top(s, n)
    ensures Line(Turns(s, n, k), n) == Rotated(Line(s, n), k)
  {
    if k == 0 {
      assert Rotated(Line(s, n), 0) == Line(s, n);
    } else {
      LineAfter(s, n, k - 1);
      LineStep(Turns(s, n, k - 1), n, Line(s, n), k - 1);
    }
  }

  /** Selection number `k` runs process `k mod n` of the original line, for ever. */
  lemma {:induction false} RoundRobinExact(s: State, n: int, k: nat)
    requires Top(s, n)
    ensures Schedule(Turns(s, n, k)).current == Some(Line(s, n)[k % |Line(s, n)|])
  {
    LineAfter(s, n, k);
    TurnRotates(Turns(s, n, k), n);
  }

  /** Any n consecutive selections run each of the n processes exactly once. */
  lemma {:induction false} OncePerRound(s: State, n: int, k: nat, p: Pid) returns (i: nat)
    requires Top(s, n) && NoDup(s.order) && p in Line(s, n)
    ensures k <= i < k + |Line(s, n)| && Schedule(Turns(s, n, i)).current == Some(p)
    ensures forall j :: k <= j < k + |Line(s, n)| && Schedule(Turns(s, n, j)).current == Some(p) ==> j == i
  {
    var line := Line(s, n);
    var m := |line|;
    TopsMembers(Preempted(s).procs, s.order, n);
    var x :| 0 <= x < m && line[x] == p;
    i := IndexOnce(k, m, x);
    forall j | k <= j < k + m ensures Schedule(Turns(s, n, j)).current == Some(p) <==> j == i {
      RoundRobinExact(s, n, j);
      assert j % m == x <==> j == i;
    }
  }

  lemma {:induction false} IndexOnce(k: nat, m: nat, x: nat) returns (i: nat)
    requires x < m
    ensures k <= i < k + m && forall j :: k <= j < k + m ==> (j % m == x <==> j == i)
  {
    var r := k % m;
    i := if r <= x then k + (x - r) else k + (x + m - r);
    forall j | k <= j < k + m ensures j % m == x <==> j == i {
      WithinRound(k, j - k, m);
    }
  }

  /** A dispatch that was not preceded by TIMED_WAIT(0) does not cost the selected process its turn. */
  lemma {:induction false} RedispatchKeepsTurn(s: State, n: int)
    requires Top(s, n)
    ensures Schedule(Schedule(s)) == Schedule(s)
  {
    TurnState(s, n);
    var procs, c := Preempted(s).procs, Line(s, n)[0];
    var t := Schedule(s);
    TopsMembers(procs, s.order, n);
    assert c in Line(s, n);
    assert t.procs == procs[c := procs[c].(state := Running)];
    assert Preempted(t).procs == procs;
  }

  // ---------------------------------------------------------------- over runs

  /** Whoever executes is the head of the line. */
  ghost predicate HeadExecutes(s: State, n: int) {
    Top(s, n) && (s.current.Some? && !s.yielded ==> s.current == Some(Line(s, n)[0]))
  }

  /** A dispatch, TIMED_WAIT(0), or a clock update that makes nobody READY. */
  ghost predicate Harmless(s: State, e: Event) {
    match e
    case Dispatch => true
    case Delay(n) => n == 0
    case Clock(t) =>
      && 0 <= t <= MAX_SYSTEM_TIME
      && (forall p :: p in s.procs ==> !Services.Releasable(s.procs[p], t) && !Expired(s.procs[p], t))
    case _ => false
  }

  lemma {:induction false} DispatchKeepsLine(s: State, n: int)
    requires Top(s, n)
    ensures HeadExecutes(Schedule(s), n) && Line(Schedule(s), n) == Line(s, n)
    ensures Schedule(s).current == Some(Line(s, n)[0])
  {
    TurnState(s, n);
    var procs, c := Preempted(s).procs, Line(s, n)[0];
    var t := Schedule(s);
    TopsMembers(procs, s.order, n);
    assert c in Line(s, n);
    ScheduledAs(s, Some(c));
    assert t.procs == procs[c := procs[c].(state := Running)] && t.order == s.order;
    assert Preempted(t).procs == procs;
  }

  lemma {:induction false} WaitRotatesLine(s: State, n: int)
    requires HeadExecutes(s, n) && s.current.Some? && !s.yielded
    ensures HeadExecutes(TimedWait(s, 0).0, n)
    ensures Line(TimedWait(s, 0).0, n) == Line(s, n)[1..] + [Line(s, n)[0]]
  {
    var procs, c, t := Preempted(s).procs, Line(s, n)[0], TimedWait(s, 0).0;
    TopsMembers(procs, s.order, n);
    assert c in Line(s, n);
    assert s.At(c).(state := Ready) == procs[c];
    assert t.procs == procs && t.order == Remove(s.order, c) + [c] && Preempted(t) == t;
    TopsRemove(procs, s.order, n);
    TopsAppend(procs, Remove(s.order, c), c, n);
  }

  lemma {:induction false} ClockKeepsLine(s: State, n: int, now: int)
    requires HeadExecutes(s, n) && Harmless(s, Clock(now))
    ensures HeadExecutes(Tick(s, now), n) && Line(Tick(s, now), n) == Line(s, n)
  {
    forall p | p in s.procs ensures Tick(s, now).procs[p] == s.procs[p] {
      assert !Services.Releasable(s.procs[p], now) && !Expired(s.procs[p], now);
    }
    assert Tick(s, now).procs == s.procs;
    assert Preempted(Tick(s, now)).procs == Preempted(s).procs;
  }

  ghost predicate AllHarmless(s: State, run: seq<Event>)
    requires Feasible(s, run)
    decreases |run|
  {
    run != [] ==> Harmless(s, run[0]) && AllHarmless(Next(s, run[0]), run[1..])
  }

  /** How often TIMED_WAIT(0) was called. */
  function Waits0(run: seq<Event>): nat {
    if run == [] then 0 else (if run[0].Delay? then 1 else 0) + Waits0(run[1..])
  }

  lemma {:induction false} RotateMore(line: seq<Pid>, i: nat, j: nat)
    requires line != []
    ensures Rotated(Rotated(line, i), j) == Rotated(line, i + j)
    decreases j
  {
    if j == 0 {
      SmallRemainder(0, |line|);
      assert Rotated(Rotated(line, i), 0) == Rotated(line, i);
    } else {
      RotateMore(line, i, j - 1);
      RotateOnce(Rotated(line, i), j - 1);
      RotateOnce(line, i + (j - 1));
    }
  }

  lemma {:induction false} LineOverRun(s: State, n: int, run: seq<Event>)
    requires HeadExecutes(s, n) && Feasible(s, run) && AllHarmless(s, run)
    ensures HeadExecutes(Exec(s, run), n) && Line(Exec(s, run), n) == Rotated(Line(s, n), Waits0(run))
    decreases |run|
  {
    if run == [] {
      SmallRemainder(0, |Line(s, n)|);
      assert Rotated(Line(s, n), 0) == Line(s, n);
    } else {
      RoundRobinEvent(s, n, run[0]);
      LineOverRun(Next(s, run[0]), n, run[1..]);
      RotateMore(Line(s, n), if run[0].Delay? then 1 else 0, Waits0(run[1..]));
    }
  }

  /** Over every run of dispatches, TIMED_WAIT(0) calls and harmless clock updates, in any order: after k calls
      the next dispatch selects process k mod n of the original line. */
  lemma {:induction false} RoundRobinOverRun(s: State, n: int, run: seq<Event>)
    requires HeadExecutes(s, n) && Feasible(s, run) && AllHarmless(s, run)
    ensures Schedule(Exec(s, run)).current == Some(Line(s, n)[Waits0(run) % |Line(s, n)|])
  {
    LineOverRun(s, n, run);
    DispatchKeepsLine(Exec(s, run), n);
  }

  lemma {:induction false} RoundRobinEvent(s: State, n: int, e: Event)
    requires HeadExecutes(s, n) && Enabled(s, e) && Harmless(s, e)
    ensures HeadExecutes(Next(s, e), n)
    ensures Line(Next(s, e), n) == Rotated(Line(s, n), if e.Delay? then 1 else 0)
  {
    SmallRemainder(0, |Line(s, n)|);
    assert Rotated(Line(s, n), 0) == Line(s, n);
    RotateOnce(Line(s, n), 0);
    match e
    case Dispatch => DispatchKeepsLine(s, n);
    case Delay(_) => WaitRotatesLine(s, n);
    case Clock(now) => ClockKeepsLine(s, n, now);
  }
}
