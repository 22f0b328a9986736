/** The kernel's power-of-two ring queue, and the counting semaphore built on it. */
module RingQueue {
  import opened Arithmetic
  import opened Bits

  const WORD: int := 0x1_0000_0000

  // ---------------------------------------------------------------- sizes

  /** ispowerof2 */
  predicate PowerOfTwo(x: nat) {
    x != 0 && And(x, x - 1) == 0
  }

  lemma {:induction false} PowerOfTwoExact(x: nat)
    ensures PowerOfTwo(x) <==> IsPow2(x)
  {
    if x > 0 {
      AndPrevious(x);
    }
  }

  /** The position of the highest bit. */
  lemma {:induction false} HighestBit(x: nat, k: nat) returns (b: nat)
    requires 0 < x < Pow2(k)
    ensures b < k && Pow2(b) <= x < Pow2(b + 1)
  {
    if k > 0 && x < Pow2(k - 1) {
      b := HighestBit(x, k - 1);
    } else {
      b := k - 1;
    }
  }

  /** Five smears set every bit below the highest one of a 32-bit word. */
  function Smeared(x: nat): nat {
    var a := Or(x, ShiftRight(x, 1));
    var b := Or(a, ShiftRight(a, 2));
    var c := Or(b, ShiftRight(b, 4));
    var d := Or(c, ShiftRight(c, 8));
    Or(d, ShiftRight(d, 16))
  }

  lemma {:induction false} Stage(x: nat, b: nat, s: nat)
    requires s > 0 && LeadingOnes(x, b, Least(s, b + 1))
    ensures LeadingOnes(Or(x, ShiftRight(x, s)), b, Least(2 * s, b + 1))
  {
    if s <= b + 1 {
      Smear(x, b, s);
    } else {
      Pow2Monotone(b + 1, s);
      ShiftedOut(x, s);
    }
  }

  lemma {:induction false} ShiftedOut(x: nat, s: nat)
    requires x < Pow2(s)
    ensures Or(x, ShiftRight(x, s)) == x
  {
    SmallRemainder(x, Pow2(s));
  }

  lemma {:induction false} SmearedExact(x: nat, b: nat)
    requires b < 32 && Pow2(b) <= x < Pow2(b + 1)
    ensures Smeared(x) == Pow2(b + 1) - 1
  {
    assert Pow2(0) == 1;
    var y := Or(x, ShiftRight(x, 1));
    var z := Or(y, ShiftRight(y, 2));
    var v := Or(z, ShiftRight(z, 4));
    var w := Or(v, ShiftRight(v, 8));
    Stage(x, b, 1);
    Stage(y, b, 2);
    Stage(z, b, 4);
    Stage(v, b, 8);
    Stage(w, b, 16);
  }

  /** nextpowerof2 on uint32_t */
  function NextPowerOf2(x: int): int
    requires 0 <= x < WORD
  {
    var y := (x - 1) % WORD;
    (Smeared(y) + 1) % WORD
  }

  ghost predicate LeastPower(x: int, r: int) {
    r >= x && r > 0 && IsPow2(r) && forall k: nat :: x <= Pow2(k) ==> r <= Pow2(k)
  }

  /** The least power of two that is not below `x`, as long as it fits; otherwise 0. */
  lemma {:induction false} NextPowerOf2Exact(x: int)
    requires 0 <= x < WORD
    ensures 1 <= x <= 0x8000_0000 ==> LeastPower(x, NextPowerOf2(x))
    ensures x == 0 || x > 0x8000_0000 ==> NextPowerOf2(x) == 0
  {
    Predecessor(x);
    if x == 1 {
      NextOfOne(x);
    } else {
      var b := NextIs(x, (x - 1) % WORD);
      Result(x, b);
    }
  }

  lemma {:induction false} NextOfOne(x: int)
    requires x == 1
    ensures NextPowerOf2(x) == 1 && LeastPower(x, 1)
  {
    var y := (x - 1) % WORD;
    Predecessor(x);
    SmearedZero(y);
    NextFrom(x, y, 1);
    assert Pow2(0) == 1;
  }

  lemma {:induction false} NextFrom(x: int, y: nat, z: int)
    requires 0 <= x < WORD && y == (x - 1) % WORD && z == Smeared(y) + 1 && z < WORD
    ensures NextPowerOf2(x) == z
  {
    SmallRemainder(z, WORD);
  }

  lemma {:induction false} SmearedZero(x: nat)
    requires x == 0
    ensures Smeared(x) == 0
  {
    ShiftedZero(x, 1);
    ShiftedZero(x, 2);
    ShiftedZero(x, 4);
    ShiftedZero(x, 8);
    ShiftedZero(x, 16);
  }

  lemma {:induction false} ShiftedZero(x: nat, s: nat)
    requires x == 0
    ensures Or(x, ShiftRight(x, s)) == x
  {
    SmallRemainder(x, Pow2(s));
  }

  lemma {:induction false} NextIs(x: int, y: nat) returns (b: nat)
    requires 0 <= x < WORD && x != 1 && y == (x - 1) % WORD && y == if x == 0 then WORD - 1 else x - 1
    ensures b < 32 && NextPowerOf2(x) == Pow2(b + 1) % WORD
    ensures (x == 0 ==> b == 31) && (x != 0 ==> Pow2(b) < x <= Pow2(b + 1))
  {
    b := WordBit(y);
    SmearedExact(y, b);
    assert Smeared(y) + 1 == Pow2(b + 1);
    if x == 0 {
      AllOnes(b);
    }
  }

  lemma {:induction false} WordBit(y: nat) returns (b: nat)
    requires 0 < y < WORD
    ensures b < 32 && Pow2(b) <= y < Pow2(b + 1)
  {
    Pow2Values();
    b := HighestBit(y, 32);
  }

  lemma {:induction false} Predecessor(x: int)
    requires 0 <= x < WORD
    ensures (x - 1) % WORD == if x == 0 then WORD - 1 else x - 1
  {
    if x == 0 {
      QuotientUnique(-1, WORD, -1, WORD - 1);
    } else {
      SmallRemainder(x - 1, WORD);
    }
  }

  lemma {:induction false} AllOnes(b: nat)
    requires b < 32 && WORD - 1 < Pow2(b + 1)
    ensures b == 31
  {
    Pow2Values();
    if b < 31 {
      Pow2Monotone(b + 1, 31);
    }
  }

  lemma {:induction false} Result(x: int, b: nat)
    requires b < 32 && (x == 0 ==> b == 31) && (x != 0 ==> Pow2(b) < x <= Pow2(b + 1)) && 0 <= x < WORD
    ensures x == 0 || x > 0x8000_0000 ==> Pow2(b + 1) % WORD == 0
    ensures 1 <= x <= 0x8000_0000 ==> LeastPower(x, Pow2(b + 1) % WORD)
  {
    Pow2Values();
    if b == 31 {
      QuotientUnique(WORD, WORD, 1, 0);
    } else {
      Pow2Monotone(b + 1, 31);
      SmallRemainder(Pow2(b + 1), WORD);
    }
    forall k: nat | x <= Pow2(k) && x > 0 ensures Pow2(b + 1) <= Pow2(k) {
      if k <= b {
        Pow2Monotone(k, b);
      } else {
        Pow2Monotone(b + 1, k);
      }
    }
  }

  predicate Int32(n: int) {
    -0x8000_0000 <= n < 0x8000_0000
  }

  /** The size queue_create settles on, a signed word. */
  function SizeFor(n: int): int
    requires Int32(n)
  {
    if n < 2 then 2 else if PowerOfTwo(n) then n else ToInt32(NextPowerOf2(n))
  }

  function ToInt32(u: int): int {
    if u < 0x8000_0000 then u else u - WORD
  }

  lemma {:induction false} SizeForExact(n: int)
    requires Int32(n)
    ensures n <= 0x4000_0000 ==>
              LeastPower(if n < 2 then 2 else n, SizeFor(n)) && 2 <= SizeFor(n) <= 0x4000_0000
    ensures n > 0x4000_0000 ==> SizeFor(n) == -0x8000_0000
  {
    assert Pow2(1) == 2 && Pow2(0) == 1;
    LargePowers();
    if n >= 2 {
      PowerOfTwoExact(n);
      NextPowerOf2Exact(n);
      if n <= 0x4000_0000 {
        assert NextPowerOf2(n) <= Pow2(30);
      } else {
        NotPower(n);
        assert n <= NextPowerOf2(n) <= Pow2(31);
        NextPower(NextPowerOf2(n), 30);
      }
    } else {
      forall k: nat | 2 <= Pow2(k) ensures 2 <= Pow2(k) {
      }
    }
  }

  lemma {:induction false} LargePowers()
    ensures Pow2(29) == 0x2000_0000 && Pow2(30) == 0x4000_0000 && Pow2(31) == 0x8000_0000
  {
    Pow2Values();
    assert Pow2(31) == 2 * Pow2(30);
    assert Pow2(30) == 2 * Pow2(29);
  }

  lemma {:induction false} NotPower(n: nat)
    requires Pow2(30) < n < Pow2(31)
    ensures !IsPow2(n)
  {
    if IsPow2(n) {
      NextPower(n, 30);
    }
  }

  lemma {:induction false} NextPower(n: nat, k: nat)
    requires IsPow2(n) && Pow2(k) < n <= Pow2(k + 1)
    ensures n == Pow2(k + 1)
  {
    var j: nat :| Pow2(j) == n;
    if j <= k {
      Pow2Monotone(j, k);
    } else {
      Pow2Monotone(k + 1, j);
    }
  }

  /** One slot stays empty, so a queue asked to hold `n` holds that many exactly when `n` is not a
      power of two above one, and its size fits a signed word. */
  lemma {:induction false} CapacityExact(n: int)
    requires Int32(n)
    ensures SizeFor(n) - 1 >= n <==> n < 2 || (!IsPow2(n) && n <= 0x4000_0000)
  {
    SizeForExact(n);
    if n >= 2 {
      PowerOfTwoExact(n);
    }
  }

  /** The slots allocated for `size` pointers of four bytes: the product is a 32-bit word. */
  function SlotsFor(size: int): int {
    size * 4 % WORD / 4
  }

  /** A queue gets the slots it needs exactly up to 2^29; beyond, it gets none. */
  lemma {:induction false} SlotsExact(n: int)
    requires Int32(n)
    ensures n <= 0x2000_0000 ==> SlotsFor(SizeFor(n)) == SizeFor(n) >= 2
    ensures n > 0x2000_0000 ==> SlotsFor(SizeFor(n)) == 0 && SizeFor(n) != 0
  {
    SizeForExact(n);
    LargePowers();
    if n <= 0x2000_0000 {
      assert SizeFor(n) <= Pow2(29);
      SmallSlots(SizeFor(n));
    } else {
      if n <= 0x4000_0000 {
        NextPower(SizeFor(n), 29);
      }
      NoSlots(SizeFor(n));
    }
  }

  lemma {:induction false} SmallSlots(size: int)
    requires 0 <= size <= 0x2000_0000
    ensures SlotsFor(size) == size
  {
    SmallRemainder(size * 4, WORD);
  }

  lemma {:induction false} NoSlots(size: int)
    requires size == 0x4000_0000 || size == -0x8000_0000
    ensures SlotsFor(size) == 0
  {
    QuotientUnique(size * 4, WORD, if size > 0 then 1 else -2, 0);
  }

  // ---------------------------------------------------------------- the ring

  lemma {:induction false} Masked(x: nat, size: nat)
    requires IsPow2(size)
    ensures size > 0 && And(x, size - 1) == x % size
  {
    var k: nat :| Pow2(k) == size;
    AndMask(x, k);
  }

  /** Indices of a ring of `size` slots do not collide within one round. */
  lemma {:induction false} RingApart(head: int, i: int, j: int, size: int)
    requires 0 <= head < size && 0 <= i < size && 0 <= j < size
    ensures (head + i) % size == (head + j) % size <==> i == j
  {
    WithinRound(head, i, size);
    WithinRound(head, j, size);
    SmallRemainder(head, size);
  }

  /** The slot of the element number `i`. */
  function SlotOf(head: int, i: int, size: int): int
    requires size > 0
  {
    (head + i) % size
  }

  class Queue {
    const pdata: array<int>
    const size: int
    const mask: int
    var head: int
    var tail: int
    var elem: int

    ghost predicate Valid()
      reads this, pdata
    {
      && 2 <= size && IsPow2(size) && pdata.Length == size && mask == size - 1
      && 0 <= head < size && 0 <= elem < size && tail == SlotOf(head, elem, size)
    }

    ghost function Contents(): seq<int>
      requires Valid()
      reads this, pdata
    {
      seq(elem, i requires 0 <= i < elem reads this, pdata => pdata[SlotOf(head, i, size)])
    }

    /** The fresh queue of queue_create; for sizes above 2^29 it has no slot at all. */
    constructor (n: int)
      requires Int32(n)
      ensures Valid() <==> n <= 0x2000_0000
      ensures elem == 0 && size == SizeFor(n) && pdata.Length == SlotsFor(size) && fresh(pdata)
    {
      SizeForExact(n);
      SlotsExact(n);
      var s := if n < 2 then 2 else if PowerOfTwo(n) then n else ToInt32(NextPowerOf2(n));
      size, mask := s, s - 1;
      pdata := new int[SlotsFor(s)];
      head, tail, elem := 0, 0, 0;
      FirstSlot(s);
    }

    /** queue_enqueue: refused when only one slot is left. */
    method Enqueue(data: int) returns (r: int)
      requires Valid()
      modifies this, pdata
      ensures Valid() && r == (if old(elem) == size - 1 then -1 else 0)
      ensures Contents() == if r == 0 then old(Contents()) + [data] else old(Contents())
    {
      var next := And(tail + 1, mask);
      NextTail(head, elem, tail, next, size);
      if next == head {
        return -1;
      }
      ghost var was := Contents();
      OtherSlots(head, elem, size);
      pdata[tail] := data;
      tail := next;
      elem := elem + 1;
      r := 0;
      assert Contents() == was + [data];
    }

    /** queue_dequeue: 0 stands for empty. */
    method Dequeue() returns (data: int)
      requires Valid()
      modifies this
      ensures Valid()
      ensures if old(Contents()) == [] then data == 0 && Contents() == [] else [data] + Contents() == old(Contents())
    {
      RingApart(head, elem, 0, size);
      SmallRemainder(head, size);
      if head == tail {
        return 0;
      }
      var first := head;
      ghost var was := Contents();
      head := And(head + 1, mask);
      NextHead(first, head, size);
      elem := elem - 1;
      data := pdata[first];
      assert was == [data] + Contents();
    }
  }

  /** queue_create: the two flags say which of its allocations find room. */
  method CreateQueue(n: int, control: bool, slots: bool) returns (q: Queue?)
    requires Int32(n)
    ensures q == null <==> !control || !slots
    ensures q != null ==> fresh(q) && fresh(q.pdata) && q.size == SizeFor(n)
    ensures q != null ==> (q.Valid() <==> n <= 0x2000_0000)
    ensures q != null && q.Valid() ==> q.Contents() == []
  {
    if !control || !slots {
      return null;
    }
    q := new Queue(n);
  }

  lemma {:induction false} FirstSlot(size: int)
    ensures size > 0 ==> SlotOf(0, 0, size) == 0
  {
    if size > 0 {
      SmallRemainder(0, size);
    }
  }

  lemma {:induction false} OtherSlots(head: int, elem: int, size: int)
    requires 0 <= head < size && 0 <= elem < size
    ensures forall i :: 0 <= i < elem ==> SlotOf(head, i, size) != SlotOf(head, elem, size)
  {
    forall i | 0 <= i < elem ensures SlotOf(head, i, size) != SlotOf(head, elem, size) {
      RingApart(head, i, elem, size);
    }
  }

  /** The tail moves to the next slot; it meets the head exactly when one slot is left. */
  lemma {:induction false} NextTail(head: int, elem: int, tail: int, next: int, size: int)
    requires 0 <= head < size && 0 <= elem < size && IsPow2(size)
    requires tail == SlotOf(head, elem, size) && next == And(tail + 1, size - 1)
    ensures 0 <= tail < size && next == SlotOf(head, elem + 1, size) && (next == head <==> elem == size - 1)
  {
    Masked(tail + 1, size);
    NextSlot(head, elem, size);
  }

  lemma {:induction false} NextSlot(head: int, elem: int, size: int)
    requires 0 <= head < size && 0 <= elem < size
    ensures ((head + elem) % size + 1) % size == (head + elem + 1) % size
    ensures (head + elem + 1) % size == head <==> elem == size - 1
  {
    NextRemainder(head + elem, size);
    SmallRemainder((head + elem) % size, size);
    NextRemainder((head + elem) % size, size);
    WithinRound(head, elem, size);
    SmallRemainder(head, size);
  }

  lemma {:induction false} Advance(head: int, size: int)
    requires 0 <= head < size
    ensures (head + 1) % size == if head + 1 == size then 0 else head + 1
  {
    NextRemainder(head, size);
    SmallRemainder(head, size);
  }

  /** Moving the head by one shifts every element by one. */
  lemma {:induction false} NextHead(head: int, next: int, size: int)
    requires 0 <= head < size && IsPow2(size) && next == And(head + 1, size - 1)
    ensures 0 <= next < size && SlotOf(head, 0, size) == head
    ensures forall i :: SlotOf(next, i, size) == SlotOf(head, i + 1, size)
  {
    Masked(head + 1, size);
    Advance(head, size);
    SmallRemainder(head, size);
    forall i ensures SlotOf(next, i, size) == SlotOf(head, i + 1, size) {
      AdvanceBy(head, i, size);
    }
  }

  lemma {:induction false} AdvanceBy(head: int, i: int, size: int)
    requires 0 <= head < size
    ensures ((head + 1) % size + i) % size == (head + (1 + i)) % size
  {
    Advance(head, size);
    AddModulus(i, size);
  }

  // ---------------------------------------------------------------- the semaphore

  lemma {:induction false} NextWoken(woken: seq<int>, task: int, rest: seq<int>, was: seq<int>)
    requires was == [task] + rest
    ensures woken + [task] + rest == woken + was && |rest| == |was| - 1 && was[0] == task
    ensures forall t :: t in rest ==> t in was
  {
  }

  datatype Outcome = Proceeds | Blocks | Panics

  /** A counting semaphore; `blocked` and `woken` list the tasks it ever blocked and woke. */
  class Semaphore {
    const queue: Queue
    var count: int
    ghost var blocked: seq<int>
    ghost var woken: seq<int>

    /** The queue is as long as the count is below zero, and tasks wake in the order they blocked. */
    ghost predicate Valid()
      reads this, queue, queue.pdata
    {
      && queue.Valid() && |queue.Contents()| == (if count < 0 then -count else 0)
      && (forall t :: t in queue.Contents() ==> t != 0)
      && woken + queue.Contents() == blocked
    }

    constructor (q: Queue, value: int)
      requires q.Valid() && q.Contents() == [] && 0 <= value
      ensures Valid() && count == value && queue == q && blocked == [] && woken == []
    {
      queue, count, blocked, woken := q, value, [], [];
    }

    /** ucx_sem_wait by `task`; it panics exactly when the queue is full. */
    method Wait(task: int) returns (outcome: Outcome)
      requires Valid() && task != 0
      modifies this, queue, queue.pdata
      ensures count == old(count) - 1
      ensures outcome == Panics <==> old(count) == -(queue.size - 1)
      ensures outcome != Panics ==> Valid() && (outcome == Blocks <==> old(count) <= 0)
      ensures outcome != Panics ==>
                woken == old(woken) && blocked == old(blocked) + if outcome == Blocks then [task] else []
    {
      count := count - 1;
      if count < 0 {
        var qs := queue.Enqueue(task);
        if qs != 0 {
          return Panics;
        }
        blocked := blocked + [task];
        outcome := Blocks;
      } else {
        outcome := Proceeds;
      }
    }

    /** ucx_sem_trywait */
    method TryWait() returns (val: int)
      requires Valid()
      modifies this`count
      ensures Valid() && val == (if old(count) <= 0 then -1 else 0)
      ensures count == old(count) - (if val == 0 then 1 else 0)
    {
      if count <= 0 {
        val := -1;
      } else {
        count := count - 1;
        val := 0;
      }
    }

    /** ucx_sem_signal: the task blocked longest becomes ready; there always is one, so the panic
        for an empty queue is unreachable. */
    method Signal() returns (task: int)
      requires Valid()
      modifies this, queue
      ensures Valid() && count == old(count) + 1 && blocked == old(blocked)
      ensures old(count) < 0 ==> task != 0 && task == old(queue.Contents())[0] && woken == old(woken) + [task]
      ensures old(count) >= 0 ==> task == 0 && woken == old(woken)
    {
      count := count + 1;
      task := 0;
      if count <= 0 {
        ghost var was := queue.Contents();
        assert was[0] in was;
        task := queue.Dequeue();
        ghost var rest := queue.Contents();
        NextWoken(woken, task, rest, was);
        woken := woken + [task];
      }
    }
  }

  /** ucx_sem_create: refuses a negative value; the flags say which allocations find room. */
  method CreateSemaphore(maxTasks: int, value: int, semaphore: bool, control: bool, slots: bool)
    returns (s: Semaphore?)
    requires 0 <= maxTasks < 0x1_0000 && Int32(value)
    ensures s == null <==> value < 0 || !semaphore || !control || !slots
    ensures s != null ==> fresh(s) && fresh(s.queue) && fresh(s.queue.pdata)
    ensures s != null ==> s.Valid() && s.count == value && s.queue.size == SizeFor(maxTasks) && s.blocked == []
  {
    if value < 0 || !semaphore {
      return null;
    }
    var q := CreateQueue(maxTasks, control, slots);
    if q == null {
      return null;
    }
    s := new Semaphore(q, value);
  }
}
