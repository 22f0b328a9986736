/** krnl_schedule: weighted round robin with counters in the low byte of each priority word. */
module WeightedScheduler {
  import opened Arithmetic
  import opened Bits

  const WORD16: int := 0x1_0000

  datatype TaskState = Ready | Running | Elsewhere   // stopped, blocked or suspended

  /** `priority` is a 16-bit word: weight in the high byte, counter in the low byte. */
  datatype Task = Task(priority: int, state: TaskState, rt: bool)

  datatype Kernel = Kernel(tasks: seq<Task>, current: int)

  function Low(w: int): int {
    w % 256
  }

  function High(w: int): int {
    w / 256 % 256
  }

  /** task->priority -= v on uint16_t */
  function Charge(w: int, v: int): int {
    (w - v) % WORD16
  }

  /** priority |= (priority >> 8) & 0xff */
  function Reload(w: int): int {
    if w < 0 then w else Or(w, High(w))
  }

  /** No borrow reaches the weight. */
  lemma {:induction false} ChargeExact(h: int, l: int, v: int)
    requires 0 <= h < 256 && 0 <= v <= l < 256
    ensures Charge(256 * h + l, v) == 256 * h + (l - v)
    ensures Low(256 * h + (l - v)) == l - v && High(256 * h + (l - v)) == h
  {
    SmallRemainder(256 * h + (l - v), WORD16);
    QuotientUnique(256 * h + (l - v), 256, h, l - v);
    SmallRemainder(h, 256);
  }

  lemma {:induction false} ReloadExact(h: int)
    requires 0 <= h < 256
    ensures Reload(256 * h) == 256 * h + h
  {
    QuotientUnique(256 * h, 256, h, 0);
    SmallRemainder(h, 256);
    assert Pow2(8) == 256 by {
      assert Pow2(2) == 4 && Pow2(4) == 16;
    }
    OrDisjoint(h, h, 8);
    assert h * 256 == 256 * h;
  }

  // ---------------------------------------------------------------- selection

  predicate Eligible(t: Task) {
    t.state == Ready && !t.rt
  }

  /** The selection after walking the first `n` tasks; it starts at the head whatever its state. */
  function Choice(ts: seq<Task>, n: nat): (c: int)
    requires n <= |ts| && ts != []
    ensures 0 <= c < |ts|
  {
    if n == 0 then 0
    else
      var c := Choice(ts, n - 1);
      if Low(ts[n - 1].priority) <= Low(ts[c].priority) && Eligible(ts[n - 1]) then n - 1 else c
  }

  /** Some eligible task is not behind the head of the list. */
  ghost predicate Selectable(ts: seq<Task>, n: int)
    requires 0 <= n <= |ts| && ts != []
  {
    exists j :: 0 <= j < n && Eligible(ts[j]) && Low(ts[j].priority) <= Low(ts[0].priority)
  }

  /** The selection is the last eligible task of least counter, provided one is not behind the head. */
  lemma {:induction false} ChoiceMin(ts: seq<Task>, n: nat)
    requires n <= |ts| && ts != []
    ensures var c := Choice(ts, n);
            if Selectable(ts, n)
            then c < n && Eligible(ts[c]) && Low(ts[c].priority) <= Low(ts[0].priority)
                 && (forall j :: 0 <= j < n && Eligible(ts[j]) ==> Low(ts[c].priority) <= Low(ts[j].priority))
                 && (forall j :: c < j < n && Eligible(ts[j]) ==> Low(ts[c].priority) < Low(ts[j].priority))
            else c == 0
  {
    if n > 0 {
      ChoiceMin(ts, n - 1);
      assert Selectable(ts, n) <==>
             Selectable(ts, n - 1) || (Eligible(ts[n - 1]) && Low(ts[n - 1].priority) <= Low(ts[0].priority));
    }
  }

  predicate Panics(ts: seq<Task>)
    requires ts != []
  {
    !Eligible(ts[Choice(ts, |ts|)])
  }

  /** The scheduler panics exactly when every eligible task's counter is above the head's. */
  lemma {:induction false} PanicExact(ts: seq<Task>)
    requires ts != []
    ensures Panics(ts) <==> forall j :: 0 <= j < |ts| && Eligible(ts[j]) ==> Low(ts[j].priority) > Low(ts[0].priority)
  {
    ChoiceMin(ts, |ts|);
  }

  /** So a READY task does not always prevent the panic: a suspended head with a lower counter hides it. */
  lemma {:induction false} PanicDespiteReady()
    ensures exists ts :: ts != [] && (exists j :: 0 <= j < |ts| && Eligible(ts[j])) && Panics(ts)
  {
    var ts := [Task(0x0101, Elsewhere, false), Task(0x0303, Ready, false)];
    PanicExact(ts);
    assert Eligible(ts[1]);
  }

  // ---------------------------------------------------------------- one round

  function Preempted(k: Kernel): seq<Task>
    requires 0 <= k.current < |k.tasks|
  {
    if k.tasks[k.current].state == Running
    then k.tasks[k.current := k.tasks[k.current].(state := Ready)] else k.tasks
  }

  function Charged(ts: seq<Task>, v: int): seq<Task> {
    seq(|ts|, j requires 0 <= j < |ts| =>
          if Eligible(ts[j]) then ts[j].(priority := Charge(ts[j].priority, v)) else ts[j])
  }

  function Scheduled(k: Kernel): Kernel
    requires 0 <= k.current < |k.tasks|
  {
    var ts := Preempted(k);
    var c := Choice(ts, |ts|);
    var us := Charged(ts, Low(ts[c].priority));
    Kernel(us[c := us[c].(priority := Reload(us[c].priority), state := Running)], c)
  }

  // ---------------------------------------------------------------- one round, whatever the states

  predicate Word16(w: int) {
    0 <= w < 0x1_0000
  }

  /** The task takes part in the round: it is READY, or RUNNING and preempted by it, and has no real-time priority. */
  predicate TakesPart(k: Kernel, j: int)
    requires 0 <= j < |k.tasks|
  {
    !k.tasks[j].rt && (k.tasks[j].state == Ready || (k.tasks[j].state == Running && j == k.current))
  }

  /** What a round does to task `j` when `c` is selected: the selected one runs with its counter back at its weight;
      whoever takes part pays the selected counter, its weight untouched; anybody else keeps its word. */
  predicate TaskAfter(k: Kernel, t: Kernel, j: int)
    requires 0 <= j < |k.tasks| && |t.tasks| == |k.tasks| && 0 <= t.current < |k.tasks|
  {
    var x, y, c := k.tasks[j], t.tasks[j], k.tasks[t.current];
    var waits := if x.state == Running && j == k.current then Ready else x.state;
    if j == t.current then y == Task(256 * (x.priority / 256) + x.priority / 256, Running, false)
    else if TakesPart(k, j) then
      && y == Task(x.priority - c.priority % 256, Ready, false)
      && y.priority / 256 == x.priority / 256 && c.priority % 256 <= x.priority % 256
    else y == x.(state := waits)
  }

  /** A round selects one that takes part, and does just that to each. */
  ghost predicate RoundMeans(k: Kernel, t: Kernel) {
    && |t.tasks| == |k.tasks| && 0 <= t.current < |k.tasks| && TakesPart(k, t.current)
    && (forall j :: 0 <= j < |k.tasks| ==> TaskAfter(k, t, j))
    && (forall j :: 0 <= j < |k.tasks| && TakesPart(k, j) ==>
          k.tasks[t.current].priority % 256 <= k.tasks[j].priority % 256)
    && (forall j :: t.current < j < |k.tasks| && TakesPart(k, j) ==>
          k.tasks[t.current].priority % 256 < k.tasks[j].priority % 256)
  }

  lemma {:induction false} WordFields(w: int)
    requires Word16(w)
    ensures w == 256 * (w / 256) + w % 256 && 0 <= w / 256 < 256 && 0 <= w % 256 < 256 && High(w) == w / 256
  {
    SmallRemainder(w / 256, 256);
  }

  lemma {:induction false} ChargedAny(w: int, v: int)
    requires Word16(w) && 0 <= v <= w % 256
    ensures Charge(w, v) == w - v && (w - v) / 256 == w / 256 && (w - v) % 256 == w % 256 - v
  {
    WordFields(w);
    ChargeExact(w / 256, w % 256, v);
    QuotientUnique(w - v, 256, w / 256, w % 256 - v);
  }

  lemma {:induction false} ReloadedAny(w: int)
    requires Word16(w)
    ensures Reload(w - w % 256) == 256 * (w / 256) + w / 256
  {
    WordFields(w);
    ReloadExact(w / 256);
  }

  lemma {:induction false} TaskRound(k: Kernel, j: int)
    requires 0 <= k.current < |k.tasks| && 0 <= j < |k.tasks| && Word16(k.tasks[j].priority)
    requires !Panics(Preempted(k)) && Word16(k.tasks[Scheduled(k).current].priority)
    ensures |Scheduled(k).tasks| == |k.tasks| && TaskAfter(k, Scheduled(k), j)
  {
    var ts, t := Preempted(k), Scheduled(k);
    var c := t.current;
    ChoiceMin(ts, |ts|);
    assert ts[j].priority == k.tasks[j].priority && ts[c].priority == k.tasks[c].priority;
    assert Eligible(ts[j]) <==> TakesPart(k, j);
    ScheduledTask(k, j);
    if j == c {
      SelectedWord(ts[j].priority);
    } else if TakesPart(k, j) {
      ChargedAny(ts[j].priority, Low(ts[c].priority));
    }
  }

  lemma {:induction false} SelectedWord(w: int)
    requires Word16(w)
    ensures Reload(Charge(w, Low(w))) == 256 * (w / 256) + w / 256
  {
    WordFields(w);
    ChargedAny(w, Low(w));
    ReloadedAny(w);
  }

  lemma {:induction false} ScheduledTask(k: Kernel, j: int)
    requires 0 <= k.current < |k.tasks| && 0 <= j < |k.tasks|
    ensures var ts, t := Preempted(k), Scheduled(k);
            var v := Low(ts[t.current].priority);
            var x := if Eligible(ts[j]) then ts[j].(priority := Charge(ts[j].priority, v)) else ts[j];
            && |t.tasks| == |k.tasks|
            && t.tasks[j] == if j == t.current then x.(priority := Reload(x.priority), state := Running) else x
  {
  }

  /** The panic, in terms of the tasks before the round. */
  lemma {:induction false} PanicMeans(k: Kernel)
    requires 0 <= k.current < |k.tasks|
    ensures !Panics(Preempted(k)) <==>
              exists j :: 0 <= j < |k.tasks| && TakesPart(k, j)
                          && k.tasks[j].priority % 256 <= k.tasks[0].priority % 256
  {
    var ts := Preempted(k);
    PanicExact(ts);
    assert forall j :: 0 <= j < |ts| ==>
        ts[j].priority == k.tasks[j].priority && (Eligible(ts[j]) <==> TakesPart(k, j));
  }

  /** For any mix of ready, blocked and real-time tasks. */
  lemma {:induction false} RoundAny(k: Kernel)
    requires 0 <= k.current < |k.tasks| && !Panics(Preempted(k))
    requires forall j :: 0 <= j < |k.tasks| ==> Word16(k.tasks[j].priority)
    ensures RoundMeans(k, Scheduled(k))
  {
    var ts, t := Preempted(k), Scheduled(k);
    ChoiceMin(ts, |ts|);
    PanicExact(ts);
    assert forall j :: 0 <= j < |ts| ==>
        ts[j].priority == k.tasks[j].priority && (Eligible(ts[j]) <==> TakesPart(k, j));
    forall j | 0 <= j < |k.tasks| ensures |t.tasks| == |k.tasks| && TaskAfter(k, t, j) {
      TaskRound(k, j);
    }
  }

  // ---------------------------------------------------------------- fairness

  /** A weight, a counter not above it, and no real-time priority. */
  ghost predicate WeightedTask(t: Task, p: int) {
    1 <= p <= 255 && t.priority == 256 * p + Low(t.priority) && Low(t.priority) <= p && !t.rt
  }

  /** All tasks stay READY (or RUNNING, for the current one), with the weights `ps`. */
  ghost predicate Weighted(k: Kernel, ps: seq<int>) {
    && |ps| == |k.tasks| && 0 <= k.current < |k.tasks|
    && (forall j {:trigger WeightedTask(k.tasks[j], ps[j])} :: 0 <= j < |ps| ==> WeightedTask(k.tasks[j], ps[j]))
    && (forall j :: 0 <= j < |ps| ==> k.tasks[j].state == Ready || (j == k.current && k.tasks[j].state == Running))
  }

  function Counter(k: Kernel, j: int): int
    requires 0 <= j < |k.tasks|
  {
    Low(k.tasks[j].priority)
  }

  /** The amount one round subtracts. */
  function Toll(k: Kernel): int
    requires 0 <= k.current < |k.tasks|
  {
    Low(k.tasks[Scheduled(k).current].priority)
  }

  lemma {:induction false} PreemptedReady(k: Kernel, ps: seq<int>)
    requires Weighted(k, ps)
    ensures var ts := Preempted(k);
            |ts| == |ps| && forall j :: 0 <= j < |ps| ==> Eligible(ts[j]) && ts[j].priority == k.tasks[j].priority
  {
    assert forall j :: 0 <= j < |ps| ==> WeightedTask(k.tasks[j], ps[j]);
  }

  lemma {:induction false} LeastCounter(k: Kernel, ps: seq<int>)
    requires Weighted(k, ps)
    ensures !Panics(Preempted(k)) && 0 <= Scheduled(k).current < |ps| && |Scheduled(k).tasks| == |ps|
    ensures 0 <= Toll(k) && forall j :: 0 <= j < |ps| ==> Toll(k) <= Counter(k, j)
  {
    var ts := Preempted(k);
    PreemptedReady(k, ps);
    assert Eligible(ts[0]);
    ChoiceMin(ts, |ts|);
    assert Selectable(ts, |ts|);
    forall j | 0 <= j < |ps| ensures Toll(k) <= Counter(k, j) {
      assert Eligible(ts[j]);
    }
  }

  lemma {:induction false} RoundTask(k: Kernel, ps: seq<int>, j: int)
    requires Weighted(k, ps) && 0 <= j < |ps| && 0 <= Scheduled(k).current < |ps| && |Scheduled(k).tasks| == |ps|
    requires 0 <= Toll(k) <= Counter(k, j)
    ensures var t := Scheduled(k);
            && WeightedTask(t.tasks[j], ps[j]) && t.tasks[j].state == (if j == t.current then Running else Ready)
            && Counter(t, j) == if j == t.current then ps[j] else Counter(k, j) - Toll(k)
  {
    PreemptedReady(k, ps);
    assert WeightedTask(k.tasks[j], ps[j]) && Eligible(Preempted(k)[j]);
    ChargedWord(ps[j], k.tasks[j].priority, Toll(k));
    if j == Scheduled(k).current {
      ReloadedWord(ps[j], Charge(k.tasks[j].priority, Toll(k)));
    }
  }

  lemma {:induction false} ChargedWord(p: int, w: int, v: int)
    requires 1 <= p <= 255 && w == 256 * p + Low(w) && 0 <= v <= Low(w) <= p
    ensures var u := Charge(w, v); u == 256 * p + Low(u) && Low(u) == Low(w) - v
  {
    ChargeExact(p, Low(w), v);
  }

  lemma {:induction false} ReloadedWord(p: int, u: int)
    requires 1 <= p <= 255 && u == 256 * p
    ensures Reload(u) == 256 * p + Low(Reload(u)) && Low(Reload(u)) == p
  {
    ReloadExact(p);
    QuotientUnique(256 * p + p, 256, p, p);
  }

  /** One round: the selected counter is least; it is taken off every counter, and the selected task
      starts again from its weight. */
  lemma {:induction false} RoundExact(k: Kernel, ps: seq<int>)
    requires Weighted(k, ps)
    ensures Weighted(Scheduled(k), ps) && !Panics(Preempted(k))
    ensures 0 <= Toll(k) && forall j :: 0 <= j < |ps| ==> Toll(k) <= Counter(k, j)
    ensures forall j :: 0 <= j < |ps| ==>
              Counter(Scheduled(k), j) == if j == Scheduled(k).current then ps[j] else Counter(k, j) - Toll(k)
  {
    LeastCounter(k, ps);
    forall j | 0 <= j < |ps|
      ensures WeightedTask(Scheduled(k).tasks[j], ps[j])
      ensures Scheduled(k).tasks[j].state == if j == Scheduled(k).current then Running else Ready
      ensures Counter(Scheduled(k), j) == if j == Scheduled(k).current then ps[j] else Counter(k, j) - Toll(k)
    {
      RoundTask(k, ps, j);
    }
  }

  // ---------------------------------------------------------------- any number of rounds

  /** A run: each kernel state is what krnl_schedule makes of the one before. */
  ghost predicate KernelRun(ks: seq<Kernel>, ps: seq<int>) {
    |ks| > 0 && Weighted(ks[0], ps) && forall i :: 0 <= i < |ks| - 1 ==> RoundAt(ks, i)
  }

  ghost predicate RoundAt(ks: seq<Kernel>, i: int)
    requires 0 <= i < |ks| - 1
  {
    0 <= ks[i].current < |ks[i].tasks| && ks[i + 1] == Scheduled(ks[i])
  }

  lemma {:induction false} RunWeighted(ks: seq<Kernel>, ps: seq<int>, i: nat)
    requires KernelRun(ks, ps) && i < |ks|
    ensures Weighted(ks[i], ps)
  {
    if i > 0 {
      RunWeighted(ks, ps, i - 1);
      assert RoundAt(ks, i - 1);
      RoundExact(ks[i - 1], ps);
    }
  }

  /** The counters of a kernel state. */
  function Counters(k: Kernel): seq<int> {
    seq(|k.tasks|, j requires 0 <= j < |k.tasks| => Low(k.tasks[j].priority))
  }

  /** The same round on counters alone: `c` is charged to everybody and starts again. */
  ghost predicate CounterRound(low: seq<int>, c: int, ps: seq<int>, next: seq<int>) {
    && |low| == |ps| && |next| == |ps| && 0 <= c < |ps|
    && (forall j :: 0 <= j < |ps| ==> low[c] <= low[j] && 0 <= low[j] <= ps[j] && 1 <= ps[j])
    && (forall j :: 0 <= j < |ps| ==> 0 <= next[j] <= ps[j])
    && (forall j :: 0 <= j < |ps| ==> next[j] == if j == c then ps[j] else low[j] - low[c])
  }

  lemma {:induction false} RoundOnCounters(k: Kernel, t: Kernel, ps: seq<int>)
    requires Weighted(k, ps) && t == Scheduled(k)
    ensures CounterRound(Counters(k), t.current, ps, Counters(t))
  {
    RoundExact(k, ps);
    forall j | 0 <= j < |ps| ensures 0 <= Counter(k, j) <= ps[j] && 0 <= Counter(t, j) <= ps[j] && 1 <= ps[j] {
      assert WeightedTask(k.tasks[j], ps[j]) && WeightedTask(t.tasks[j], ps[j]);
    }
    assert forall j :: 0 <= j < |ps| ==> Counters(k)[j] == Counter(k, j) && Counters(t)[j] == Counter(t, j);
  }

  /** The counters of a run and the tasks it selects. */
  ghost predicate CounterRun(lows: seq<seq<int>>, cs: seq<int>, ps: seq<int>) {
    |lows| == |cs| + 1 && forall i :: 0 <= i < |cs| ==> CounterRoundAt(lows, cs, ps, i)
  }

  ghost predicate CounterRoundAt(lows: seq<seq<int>>, cs: seq<int>, ps: seq<int>, i: int)
    requires 0 <= i < |cs| && |lows| == |cs| + 1
  {
    CounterRound(lows[i], cs[i], ps, lows[i + 1])
  }

  function Trail(ks: seq<Kernel>): seq<seq<int>> {
    seq(|ks|, i requires 0 <= i < |ks| => Counters(ks[i]))
  }

  function Choices(ks: seq<Kernel>): seq<int>
    requires |ks| > 0
  {
    seq(|ks| - 1, i requires 0 <= i < |ks| - 1 => ks[i + 1].current)
  }

  lemma {:induction false} RunOnCounters(ks: seq<Kernel>, ps: seq<int>)
    requires KernelRun(ks, ps)
    ensures CounterRun(Trail(ks), Choices(ks), ps)
  {
    forall i | 0 <= i < |ks| - 1 ensures CounterRoundAt(Trail(ks), Choices(ks), ps, i) {
      RunWeighted(ks, ps, i);
      assert RoundAt(ks, i);
      RoundOnCounters(ks[i], ks[i + 1], ps);
    }
  }

  /** How many of the first `n` rounds selected task `j`. */
  function Runs(cs: seq<int>, n: nat, j: int): nat
    requires n <= |cs|
  {
    if n == 0 then 0 else Runs(cs, n - 1, j) + if cs[n - 1] == j then 1 else 0
  }

  /** The total amount subtracted in the first `n` rounds. */
  ghost function Tolls(lows: seq<seq<int>>, cs: seq<int>, ps: seq<int>, n: nat): int
    requires CounterRun(lows, cs, ps) && n <= |cs|
  {
    if n == 0 then 0
    else
      assert CounterRoundAt(lows, cs, ps, n - 1);
      Tolls(lows, cs, ps, n - 1) + lows[n - 1][cs[n - 1]]
  }

  lemma {:induction false} OneMore(r: int, p: int)
    ensures (r + 1) * p == r * p + p
  {
  }

  /** The ledger of every task: counter plus tolls is the initial counter plus its weight per run. */
  lemma {:induction false} Ledger(lows: seq<seq<int>>, cs: seq<int>, ps: seq<int>, n: nat, j: int)
    requires CounterRun(lows, cs, ps) && 0 < n <= |cs| && 0 <= j < |ps|
    ensures |lows[0]| == |ps| && |lows[n]| == |ps| && 0 <= lows[0][j] <= ps[j] && 0 <= lows[n][j] <= ps[j] && 1 <= ps[j]
    ensures lows[n][j] + Tolls(lows, cs, ps, n) == lows[0][j] + Runs(cs, n, j) * ps[j]
  {
    assert CounterRoundAt(lows, cs, ps, n - 1);
    assert Tolls(lows, cs, ps, n) == Tolls(lows, cs, ps, n - 1) + lows[n - 1][cs[n - 1]];
    if n > 1 {
      Ledger(lows, cs, ps, n - 1, j);
    } else {
      assert Runs(cs, 0, j) == 0 && 0 * ps[j] == 0;
    }
    OneMore(Runs(cs, n - 1, j), ps[j]);
  }

  /** Every task starts a cycle: its counter equals its weight. */
  ghost predicate FreshRun(ks: seq<Kernel>, ps: seq<int>) {
    KernelRun(ks, ps) && |ks| > 1 && Counters(ks[0]) == ps
  }

  /** low_j + V = P_j * (1 + runs_j), after any number of rounds. */
  lemma {:induction false} FairnessLaw(ks: seq<Kernel>, ps: seq<int>, j: int)
    requires FreshRun(ks, ps) && 0 <= j < |ps|
    ensures CounterRun(Trail(ks), Choices(ks), ps) && |ks[|ks| - 1].tasks| == |ps|
    ensures 0 <= Counter(ks[|ks| - 1], j) <= ps[j]
    ensures Counter(ks[|ks| - 1], j) + Tolls(Trail(ks), Choices(ks), ps, |ks| - 1)
         == ps[j] * (1 + Runs(Choices(ks), |ks| - 1, j))
  {
    RunOnCounters(ks, ps);
    Ledger(Trail(ks), Choices(ks), ps, |ks| - 1, j);
    Commute(ps[j], Runs(Choices(ks), |ks| - 1, j));
    assert Trail(ks)[|ks| - 1] == Counters(ks[|ks| - 1]);
  }

  lemma {:induction false} Commute(p: int, r: int)
    ensures p * (1 + r) == p + r * p
  {
  }

  /** Weighted run counts never differ by more than one run's weight. */
  lemma {:induction false} FairShares(ks: seq<Kernel>, ps: seq<int>, i: int, j: int)
    requires FreshRun(ks, ps) && 0 <= i < |ps| && 0 <= j < |ps|
    ensures Runs(Choices(ks), |ks| - 1, i) * ps[i] - Runs(Choices(ks), |ks| - 1, j) * ps[j] <= ps[j]
  {
    RunOnCounters(ks, ps);
    Ledger(Trail(ks), Choices(ks), ps, |ks| - 1, i);
    Ledger(Trail(ks), Choices(ks), ps, |ks| - 1, j);
  }

  // ---------------------------------------------------------------- bounded waiting

  function Total(cs: seq<int>, n: nat, m: nat): nat
    requires n <= |cs|
  {
    if m == 0 then 0 else Total(cs, n, m - 1) + Runs(cs, n, m - 1)
  }

  lemma {:induction false} TotalStep(cs: seq<int>, n: nat, m: nat)
    requires 0 < n <= |cs| && 0 <= cs[n - 1]
    ensures Total(cs, n, m) == Total(cs, n - 1, m) + if cs[n - 1] < m then 1 else 0
  {
    if m > 0 {
      TotalStep(cs, n, m - 1);
    }
  }

  lemma {:induction false} TotalZero(cs: seq<int>, m: nat)
    ensures Total(cs, 0, m) == 0
  {
    if m > 0 {
      TotalZero(cs, m - 1);
    }
  }

  /** Every round selects exactly one task. */
  lemma {:induction false} TotalIsRounds(cs: seq<int>, n: nat, m: nat)
    requires n <= |cs| && forall c :: c in cs ==> 0 <= c < m
    ensures Total(cs, n, m) == n
  {
    if n == 0 {
      TotalZero(cs, m);
    } else {
      assert cs[n - 1] in cs;
      TotalIsRounds(cs, n - 1, m);
      TotalStep(cs, n, m);
    }
  }

  lemma {:induction false} TotalBound(cs: seq<int>, n: nat, m: nat, i: int, b: nat)
    requires n <= |cs| && 0 <= i && Runs(cs, n, i) == 0 && forall j :: 0 <= j < m ==> Runs(cs, n, j) <= b
    ensures Total(cs, n, m) <= (if i < m then m - 1 else m) * b
  {
    if m > 0 {
      TotalBound(cs, n, m - 1, i, b);
      if i != m - 1 {
        OneMore(if i < m - 1 then m - 2 else m - 1, b);
      }
    }
  }

  lemma {:induction false} RunsBound(r: nat, p: int, q: int)
    requires 1 <= p && 0 <= q && r * p <= p + q
    ensures r <= q + 1
  {
    MulMonotone(1, p, q);
    assert (q + 2) * p == p * q + 2 * p;
    if r >= q + 2 {
      MulMonotone(q + 2, r, p);
    }
  }

  lemma {:induction false} RunsOfOthers(lows: seq<seq<int>>, cs: seq<int>, ps: seq<int>, i: int, j: int)
    requires CounterRun(lows, cs, ps) && |cs| > 0 && 0 <= i < |ps| && 0 <= j < |ps| && Runs(cs, |cs|, i) == 0
    ensures Runs(cs, |cs|, j) <= ps[i] + 1
  {
    Ledger(lows, cs, ps, |cs|, i);
    Ledger(lows, cs, ps, |cs|, j);
    RunsBound(Runs(cs, |cs|, j), ps[j], ps[i]);
  }

  lemma {:induction false} ChoicesInRange(lows: seq<seq<int>>, cs: seq<int>, ps: seq<int>)
    requires CounterRun(lows, cs, ps)
    ensures forall c :: c in cs ==> 0 <= c < |ps|
  {
    forall c | c in cs ensures 0 <= c < |ps| {
      var k :| 0 <= k < |cs| && cs[k] == c;
      assert CounterRoundAt(lows, cs, ps, k);
    }
  }

  lemma {:induction false} WaitOnCounters(lows: seq<seq<int>>, cs: seq<int>, ps: seq<int>, i: int, b: nat)
    requires CounterRun(lows, cs, ps) && |cs| > 0 && 0 <= i < |ps| && Runs(cs, |cs|, i) == 0 && b == ps[i] + 1
    ensures |cs| <= (|ps| - 1) * b
  {
    forall j | 0 <= j < |ps| ensures Runs(cs, |cs|, j) <= b {
      RunsOfOthers(lows, cs, ps, i, j);
    }
    ChoicesInRange(lows, cs, ps);
    TotalBound(cs, |cs|, |ps|, i, b);
    TotalIsRounds(cs, |cs|, |ps|);
  }

  /** A task that is never selected in a run of n rounds, from any state: n is at most the number of
      other tasks times its weight plus one. */
  lemma {:induction false} BoundedWait(ks: seq<Kernel>, ps: seq<int>, i: int, b: nat)
    requires KernelRun(ks, ps) && |ks| > 1 && 0 <= i < |ps| && Runs(Choices(ks), |ks| - 1, i) == 0 && b == ps[i] + 1
    ensures |ks| - 1 <= (|ps| - 1) * b
  {
    RunOnCounters(ks, ps);
    WaitOnCounters(Trail(ks), Choices(ks), ps, i, b);
  }

  // ---------------------------------------------------------------- the scheduler in place

  /** The task list of the kernel and the current task. */
  class Native {
    const tasks: array<Task>
    var current: int

    ghost function View(): Kernel
      reads this, tasks
    {
      Kernel(tasks[..], current)
    }

    constructor (tasks: array<Task>, current: int)
      ensures this.tasks == tasks && this.current == current
    {
      this.tasks, this.current := tasks, current;
    }

    /** First pass: find the selection. */
    method Pick() returns (select: int)
      requires tasks.Length > 0
      ensures select == Choice(tasks[..], tasks.Length)
    {
      select := 0;
      var i := 0;
      while i < tasks.Length
        invariant 0 <= i <= tasks.Length
        invariant select == Choice(tasks[..], i)
      {
        if Low(tasks[i].priority) <= Low(tasks[select].priority) {
          if tasks[i].state == Ready && !tasks[i].rt {
            select := i;
          }
        }
        i := i + 1;
      }
    }

    /** Second pass: take `v` off every eligible task. */
    method Subtract(v: int)
      modifies tasks
      ensures forall j :: 0 <= j < tasks.Length ==>
                var x := old(tasks[j]);
                tasks[j] == if x.state == Ready && !x.rt then x.(priority := (x.priority - v) % 0x1_0000) else x
      ensures tasks[..] == Charged(old(tasks[..]), v)
    {
      var i := 0;
      while i < tasks.Length
        invariant 0 <= i <= tasks.Length
        invariant forall j :: 0 <= j < i ==> tasks[j] == Charged(old(tasks[..]), v)[j]
        invariant forall j :: i <= j < tasks.Length ==> tasks[j] == old(tasks[j])
      {
        if tasks[i].state == Ready && !tasks[i].rt {
          tasks[i] := tasks[i].(priority := (tasks[i].priority - v) % WORD16);
        }
        i := i + 1;
      }
    }

    /** krnl_schedule; `ok` is false on the path that panics. */
    method Schedule() returns (ok: bool)
      requires 0 <= current < tasks.Length
      modifies this, tasks
      ensures ok <==> !Panics(old(Preempted(View())))
      ensures ok <==> exists j :: 0 <= j < tasks.Length && TakesPart(old(View()), j)
                                  && old(tasks[j].priority) % 256 <= old(tasks[0].priority) % 256
      ensures ok && (forall j :: 0 <= j < tasks.Length ==> Word16(old(tasks[j].priority))) ==>
                RoundMeans(old(View()), View())
      ensures ok ==> View() == Scheduled(old(View()))
      ensures !ok ==> tasks[..] == old(Preempted(View())) && current == old(current)
    {
      if tasks[current].state == Running {
        tasks[current] := tasks[current].(state := Ready);
      }
      ghost var k := old(View());
      assert tasks[..] == Preempted(k);
      PanicMeans(k);
      if !Panics(Preempted(k)) && (forall j :: 0 <= j < |k.tasks| ==> Word16(k.tasks[j].priority)) {
        RoundAny(k);
      }
      var select := Pick();
      if tasks[select].state != Ready || tasks[select].rt {
        return false;
      }
      Subtract(Low(tasks[select].priority));
      current := select;
      tasks[select] := tasks[select].(priority := Reload(tasks[select].priority), state := Running);
      ok := true;
    }
  }
}
