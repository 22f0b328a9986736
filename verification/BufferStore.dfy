/** The arrays behind the buffers of a partition: one byte array and one size array shared by all. */
module BufferStore {
  import opened Arithmetic

  /** Indices and limits of one buffer. */
  datatype Control = Control(maxSize: int, maxCount: int, read: int, write: int, count: int)

  datatype Store = Store(data: seq<int>, sizes: seq<int>, stride: int, buffers: seq<Control>)

  /** First byte of slot `k` of buffer `i`. */
  function DataAt(stride: int, c: Control, i: int, k: int): int {
    i * stride + k * c.maxSize
  }

  /** Size entry of slot `k` of buffer `i`. */
  function SizeAt(c: Control, i: int, k: int): int {
    i * c.maxCount + k
  }

  ghost predicate ControlOk(c: Control) {
    && 0 < c.maxSize && 0 < c.maxCount && 0 <= c.read < c.maxCount && 0 <= c.count <= c.maxCount
    && c.write == (c.read + c.count) % c.maxCount
  }

  /** No size entry belongs to both buffers. */
  predicate Apart(i: int, c: Control, j: int, d: Control) {
    (i + 1) * c.maxCount <= j * d.maxCount || (j + 1) * d.maxCount <= i * c.maxCount
  }

  /** Every buffer fits its share of the byte array, and its size entries exist. */
  ghost predicate Laid(s: Store) {
    && |s.buffers| * s.stride <= |s.data|
    && (forall i :: 0 <= i < |s.buffers| ==>
          var c := s.buffers[i];
          ControlOk(c) && c.maxSize * c.maxCount <= s.stride && (i + 1) * c.maxCount <= |s.sizes|)
  }

  ghost predicate Configured(s: Store) {
    && Laid(s)
    && (forall i, j :: 0 <= i < |s.buffers| && 0 <= j < |s.buffers| && i != j ==>
          Apart(i, s.buffers[i], j, s.buffers[j]))
  }

  // ---------------------------------------------------------------- where slots lie

  lemma {:induction false} SlotInside(s: Store, i: int, k: int)
    requires Laid(s) && 0 <= i < |s.buffers| && 0 <= k < s.buffers[i].maxCount
    ensures var c := s.buffers[i];
            && 0 <= i * s.stride <= DataAt(s.stride, c, i, k)
            && DataAt(s.stride, c, i, k) + c.maxSize <= (i + 1) * s.stride <= |s.data|
            && 0 <= i * c.maxCount <= SizeAt(c, i, k) < (i + 1) * c.maxCount <= |s.sizes|
  {
    var c := s.buffers[i];
    Inside(i, |s.buffers|, s.stride, |s.data|, k, c.maxSize, c.maxCount);
    NextMultiple(i, c.maxCount);
  }

  lemma {:induction false} Inside(i: int, n: int, stride: int, all: int, k: int, w: int, m: int)
    requires 0 <= i < n && 0 <= k < m && 0 < w && w * m <= stride && n * stride <= all
    ensures 0 <= i * stride <= i * stride + k * w && i * stride + k * w + w <= (i + 1) * stride <= all
  {
    MulNonnegative(w, m);
    MulMonotone(k + 1, m, w);
    MulMonotone(i + 1, n, stride);
    NextMultiple(k, w);
    NextMultiple(i, stride);
    assert m * w == w * m;
  }

  lemma {:induction false} MulNonnegative(x: int, y: int)
    requires 0 <= x && 0 <= y
    ensures 0 <= x * y
  {
  }

  lemma {:induction false} NextMultiple(i: int, w: int)
    requires 0 <= i && 0 <= w
    ensures 0 <= i * w && (i + 1) * w == i * w + w
  {
  }

  lemma {:induction false} BufferBelow(s: Store, i: int, k: int, j: int, l: int)
    requires Laid(s) && 0 <= i < j < |s.buffers|
    requires 0 <= k < s.buffers[i].maxCount && 0 <= l < s.buffers[j].maxCount
    ensures DataAt(s.stride, s.buffers[i], i, k) + s.buffers[i].maxSize <= DataAt(s.stride, s.buffers[j], j, l)
  {
    SlotInside(s, i, k);
    SlotInside(s, j, l);
    StrideBelow(s, i, j);
  }

  lemma {:induction false} StrideBelow(s: Store, i: int, j: int)
    requires Laid(s) && 0 <= i < j < |s.buffers|
    ensures (i + 1) * s.stride <= j * s.stride
  {
    MulNonnegative(s.buffers[i].maxSize, s.buffers[i].maxCount);
    MulMonotone(i + 1, j, s.stride);
  }

  lemma {:induction false} SlotBelow(stride: int, c: Control, i: int, k: int, l: int)
    requires 0 <= k < l && 0 < c.maxSize
    ensures DataAt(stride, c, i, k) + c.maxSize <= DataAt(stride, c, i, l)
  {
    MulMonotone(k + 1, l, c.maxSize);
    NextMultiple(k, c.maxSize);
  }

  lemma {:induction false} EntriesApart(s: Store, i: int, k: int, j: int, l: int)
    requires Configured(s) && 0 <= i < |s.buffers| && 0 <= k < s.buffers[i].maxCount
    requires 0 <= j < |s.buffers| && 0 <= l < s.buffers[j].maxCount && i != j
    ensures SizeAt(s.buffers[i], i, k) != SizeAt(s.buffers[j], j, l)
  {
    SlotInside(s, i, k);
    SlotInside(s, j, l);
    assert Apart(i, s.buffers[i], j, s.buffers[j]);
  }

  /** Different slots, of one buffer or of two, share no byte and no size entry. */
  lemma {:induction false} SlotsApart(s: Store, i: int, k: int, j: int, l: int)
    requires Configured(s) && 0 <= i < |s.buffers| && 0 <= k < s.buffers[i].maxCount
    requires 0 <= j < |s.buffers| && 0 <= l < s.buffers[j].maxCount && (i != j || k != l)
    ensures var c, d := s.buffers[i], s.buffers[j];
            && (DataAt(s.stride, c, i, k) + c.maxSize <= DataAt(s.stride, d, j, l)
                || DataAt(s.stride, d, j, l) + d.maxSize <= DataAt(s.stride, c, i, k))
            && SizeAt(c, i, k) != SizeAt(d, j, l)
  {
    if i < j {
      BufferBelow(s, i, k, j, l);
      EntriesApart(s, i, k, j, l);
    } else if j < i {
      BufferBelow(s, j, l, i, k);
      EntriesApart(s, i, k, j, l);
    } else if k < l {
      SlotBelow(s.stride, s.buffers[i], i, k, l);
    } else {
      SlotBelow(s.stride, s.buffers[i], i, l, k);
    }
  }

  /** Two buffers share a size entry exactly when they are not apart. */
  lemma {:induction false} SharedEntryExact(i: int, c: Control, j: int, d: Control)
    requires 0 <= i && 0 <= j && 0 < c.maxCount && 0 < d.maxCount
    ensures !Apart(i, c, j, d) <==>
            exists k, l :: 0 <= k < c.maxCount && 0 <= l < d.maxCount && SizeAt(c, i, k) == SizeAt(d, j, l)
  {
    assert (i + 1) * c.maxCount == i * c.maxCount + c.maxCount;
    assert (j + 1) * d.maxCount == j * d.maxCount + d.maxCount;
    if !Apart(i, c, j, d) {
      if i * c.maxCount <= j * d.maxCount {
        assert SizeAt(c, i, j * d.maxCount - i * c.maxCount) == SizeAt(d, j, 0);
      } else {
        assert SizeAt(c, i, 0) == SizeAt(d, j, i * c.maxCount - j * d.maxCount);
      }
    }
  }

  /** Buffers that share MAX_NB_MESSAGE are apart. */
  lemma {:induction false} SameCountApart(i: int, c: Control, j: int, d: Control)
    requires 0 <= i && 0 <= j && i != j && c.maxCount == d.maxCount > 0
    ensures Apart(i, c, j, d)
  {
    if i < j {
      MulMonotone(i + 1, j, c.maxCount);
    } else {
      MulMonotone(j + 1, i, c.maxCount);
    }
  }

  // ---------------------------------------------------------------- contents

  predicate SlotOk(s: Store, i: int, k: int)
    requires 0 <= i < |s.buffers|
  {
    var c := s.buffers[i];
    && 0 <= SizeAt(c, i, k) < |s.sizes| && 0 <= s.sizes[SizeAt(c, i, k)] < c.maxSize
    && 0 <= DataAt(s.stride, c, i, k) && DataAt(s.stride, c, i, k) + c.maxSize <= |s.data|
  }

  /** The message in slot `k` of buffer `i`. */
  function Slot(s: Store, i: int, k: int): seq<int>
    requires 0 <= i < |s.buffers| && SlotOk(s, i, k)
  {
    var c := s.buffers[i];
    s.data[DataAt(s.stride, c, i, k)..DataAt(s.stride, c, i, k) + s.sizes[SizeAt(c, i, k)]]
  }

  /** The slot of the message number `n` in the ring. */
  function Index(c: Control, n: int): int
    requires 0 < c.maxCount
  {
    (c.read + n) % c.maxCount
  }

  ghost predicate Valid(s: Store) {
    && Configured(s)
    && (forall i, n :: 0 <= i < |s.buffers| && 0 <= n < s.buffers[i].count ==> SlotOk(s, i, Index(s.buffers[i], n)))
  }

  ghost function Ring(s: Store, i: int): seq<seq<int>>
    requires Valid(s) && 0 <= i < |s.buffers|
  {
    seq(s.buffers[i].count, n requires 0 <= n < s.buffers[i].count => Slot(s, i, Index(s.buffers[i], n)))
  }

  /** Slot `k` of buffer `i` after `m` was written to it. */
  function Written(s: Store, i: int, k: int, m: seq<int>): Store
    requires 0 <= i < |s.buffers|
    requires var c := s.buffers[i];
             && 0 <= SizeAt(c, i, k) < |s.sizes| && 0 <= DataAt(s.stride, c, i, k)
             && DataAt(s.stride, c, i, k) + |m| <= |s.data|
  {
    var at, entry := DataAt(s.stride, s.buffers[i], i, k), SizeAt(s.buffers[i], i, k);
    s.(data := s.data[..at] + m + s.data[at + |m|..], sizes := s.sizes[entry := |m|])
  }

  /** What storing `m` in the slot at `write` does to the arrays. */
  ghost predicate Stored(s: Store, t: Store, i: int, m: seq<int>)
    requires Valid(s) && 0 <= i < |s.buffers| && 0 < |m| < s.buffers[i].maxSize
  {
    var c := s.buffers[i];
    var at, entry := DataAt(s.stride, c, i, c.write), SizeAt(c, i, c.write);
    && 0 <= at && at + |m| <= |s.data| && 0 <= entry < |s.sizes|
    && |t.data| == |s.data| && t.sizes == s.sizes[entry := |m|] && t.stride == s.stride
    && t.data[at..at + |m|] == m
    && (forall x :: 0 <= x < |s.data| && !(at <= x < at + |m|) ==> t.data[x] == s.data[x])
    && t.buffers == s.buffers[i := c.(write := (c.write + 1) % c.maxCount, count := c.count + 1)]
  }

  // ---------------------------------------------------------------- buffers that share an entry

  /** Two slots share a size entry but no byte. */
  predicate Sharing(s: Store, i: int, k: int, j: int, l: int)
    requires 0 <= i < |s.buffers| && 0 <= j < |s.buffers|
  {
    var c, d := s.buffers[i], s.buffers[j];
    && SizeAt(c, i, k) == SizeAt(d, j, l)
    && (DataAt(s.stride, c, i, k) + c.maxSize <= DataAt(s.stride, d, j, l)
        || DataAt(s.stride, d, j, l) + d.maxSize <= DataAt(s.stride, c, i, k))
  }

  /** Writing `m` to slot `k` of buffer `i` cuts the message in slot `l` of buffer `j` to its length. */
  predicate Clobbers(s: Store, i: int, k: int, j: int, l: int, m: seq<int>) {
    && 0 <= i < |s.buffers| && 0 <= j < |s.buffers| && SlotOk(s, i, k) && SlotOk(s, j, l)
    && |m| < s.buffers[i].maxSize && |m| < |Slot(s, j, l)| && SlotOk(Written(s, i, k, m), j, l)
    && Slot(Written(s, i, k, m), j, l) == Slot(s, j, l)[..|m|]
  }

  lemma {:induction false} SharedEntryClobbers(s: Store, i: int, k: int, j: int, l: int, m: seq<int>)
    requires 0 <= i < |s.buffers| && 0 <= j < |s.buffers| && SlotOk(s, i, k) && SlotOk(s, j, l)
    requires Sharing(s, i, k, j, l) && |m| < s.buffers[i].maxSize && |m| < |Slot(s, j, l)|
    ensures Clobbers(s, i, k, j, l, m)
  {
    var t := Written(s, i, k, m);
    var at := DataAt(s.stride, s.buffers[j], j, l);
    OtherBytes(s.data, DataAt(s.stride, s.buffers[i], i, k), m, at, |m|);
    assert Slot(t, j, l) == t.data[at..at + |m|];
    assert Slot(s, j, l)[..|m|] == s.data[at..at + |m|];
  }

  lemma {:induction false} OtherBytes(data: seq<int>, at: int, m: seq<int>, x: int, n: nat)
    requires 0 <= at && at + |m| <= |data| && 0 <= x && x + n <= |data| && (at + |m| <= x || x + n <= at)
    ensures (data[..at] + m + data[at + |m|..])[x..x + n] == data[x..x + n]
  {
  }

  /** Buffers that are not apart have such slots: no message stored in the one may be shorter than
      the message waiting in the other. */
  lemma {:induction false} NotApartClobbers(s: Store, i: int, j: int) returns (k: int, l: int)
    requires Laid(s) && 0 <= i < |s.buffers| && 0 <= j < |s.buffers| && i != j
    requires !Apart(i, s.buffers[i], j, s.buffers[j])
    ensures 0 <= k < s.buffers[i].maxCount && 0 <= l < s.buffers[j].maxCount && Sharing(s, i, k, j, l)
    ensures SlotOk(s, i, k) && SlotOk(s, j, l) ==>
              forall m :: |m| < s.buffers[i].maxSize && |m| < |Slot(s, j, l)| ==> Clobbers(s, i, k, j, l, m)
  {
    SharedEntryExact(i, s.buffers[i], j, s.buffers[j]);
    k, l :| && 0 <= k < s.buffers[i].maxCount && 0 <= l < s.buffers[j].maxCount
            && SizeAt(s.buffers[i], i, k) == SizeAt(s.buffers[j], j, l);
    if i < j {
      BufferBelow(s, i, k, j, l);
    } else {
      BufferBelow(s, j, l, i, k);
    }
    if SlotOk(s, i, k) && SlotOk(s, j, l) {
      forall m: seq<int> | |m| < s.buffers[i].maxSize && |m| < |Slot(s, j, l)| ensures Clobbers(s, i, k, j, l, m) {
        SharedEntryClobbers(s, i, k, j, l, m);
      }
    }
  }

  /** Buffers of different MAX_NB_MESSAGE may not be apart: slot 1 of a first buffer of two messages
      and slot 0 of a second of one message keep their sizes in the same entry. */
  lemma {:induction false} DifferentCountsCollide(c: Control, d: Control)
    requires c == Control(4, 2, 1, 1, 0) && d == Control(4, 1, 0, 0, 1)
    ensures ControlOk(c) && ControlOk(d) && !Apart(0, c, 1, d) && SizeAt(c, 0, c.write) == SizeAt(d, 1, d.read)
  {
  }

  // ---------------------------------------------------------------- the ring

  /** The first `maxCount` messages of a ring lie in different slots. */
  lemma {:induction false} IndexApart(c: Control, n: int, m: int)
    requires ControlOk(c) && 0 <= n < c.maxCount && 0 <= m < c.maxCount
    ensures 0 <= Index(c, n) < c.maxCount && (Index(c, n) == Index(c, m) ==> n == m)
  {
    WithinRound(c.read, n, c.maxCount);
    WithinRound(c.read, m, c.maxCount);
    SmallRemainder(c.read, c.maxCount);
  }

  function Filled(c: Control): Control
    requires 0 < c.maxCount
  {
    c.(write := (c.write + 1) % c.maxCount, count := c.count + 1)
  }

  function Drained(c: Control): Control
    requires 0 < c.maxCount
  {
    c.(read := (c.read + 1) % c.maxCount, count := c.count - 1)
  }

  lemma {:induction false} FilledOk(c: Control)
    requires ControlOk(c) && c.count < c.maxCount
    ensures ControlOk(Filled(c)) && c.write == Index(c, c.count) && forall n :: Index(Filled(c), n) == Index(c, n)
  {
    NextRemainder(c.read + c.count, c.maxCount);
    SmallRemainder(c.write, c.maxCount);
    NextRemainder(c.write, c.maxCount);
  }

  lemma {:induction false} DrainedIndex(c: Control, n: int)
    requires ControlOk(c)
    ensures (Drained(c).read + n) % c.maxCount == (c.read + 1 + n) % c.maxCount
  {
    NextRemainder(c.read, c.maxCount);
    SmallRemainder(c.read, c.maxCount);
    AddModulus(n, c.maxCount);
  }

  lemma {:induction false} DrainedOk(c: Control)
    requires ControlOk(c) && 0 < c.count
    ensures ControlOk(Drained(c)) && c.read == Index(c, 0) && forall n :: Index(Drained(c), n) == Index(c, n + 1)
  {
    DrainedIndex(c, c.count - 1);
    SmallRemainder(c.read, c.maxCount);
    forall n ensures Index(Drained(c), n) == Index(c, n + 1) {
      DrainedIndex(c, n);
    }
  }

  lemma {:induction false} StoredConfigured(s: Store, t: Store, i: int, m: seq<int>)
    requires Valid(s) && 0 <= i < |s.buffers| && s.buffers[i].count < s.buffers[i].maxCount
    requires 0 < |m| < s.buffers[i].maxSize && Stored(s, t, i, m)
    ensures Configured(t)
  {
    FilledOk(s.buffers[i]);
    forall a, b | 0 <= a < |t.buffers| && 0 <= b < |t.buffers| && a != b
      ensures Apart(a, t.buffers[a], b, t.buffers[b])
    {
      assert Apart(a, s.buffers[a], b, s.buffers[b]);
    }
  }

  /** A slot other than the one written reads as before. */
  lemma {:induction false} OtherSlot(s: Store, t: Store, i: int, m: seq<int>, j: int, k: int)
    requires Valid(s) && 0 <= i < |s.buffers| && 0 < |m| < s.buffers[i].maxSize && Stored(s, t, i, m)
    requires 0 <= s.buffers[i].write < s.buffers[i].maxCount
    requires 0 <= j < |s.buffers| && 0 <= k < s.buffers[j].maxCount && (i != j || k != s.buffers[i].write)
             && SlotOk(s, j, k)
    ensures SlotOk(t, j, k) && Slot(t, j, k) == Slot(s, j, k)
  {
    SlotsApart(s, i, s.buffers[i].write, j, k);
    SlotInside(s, j, k);
    var d := s.buffers[j];
    var at, size := DataAt(s.stride, d, j, k), s.sizes[SizeAt(d, j, k)];
    assert forall x :: at <= x < at + size ==> t.data[x] == s.data[x];
    assert Slot(t, j, k) == t.data[at..at + size];
  }

  lemma {:induction false} WrittenSlot(s: Store, t: Store, i: int, m: seq<int>)
    requires Valid(s) && 0 <= i < |s.buffers| && 0 < |m| < s.buffers[i].maxSize && Stored(s, t, i, m)
    requires 0 <= s.buffers[i].write < s.buffers[i].maxCount
    ensures SlotOk(t, i, s.buffers[i].write) && Slot(t, i, s.buffers[i].write) == m
  {
    SlotInside(s, i, s.buffers[i].write);
  }

  /** Storing a message appends it to its ring and touches no other. */
  lemma {:induction false} StoredRing(s: Store, t: Store, i: int, m: seq<int>)
    requires Valid(s) && 0 <= i < |s.buffers| && s.buffers[i].count < s.buffers[i].maxCount
    requires 0 < |m| < s.buffers[i].maxSize && Stored(s, t, i, m)
    ensures Valid(t) && Ring(t, i) == Ring(s, i) + [m]
    ensures forall j :: 0 <= j < |s.buffers| && j != i ==> Ring(t, j) == Ring(s, j)
  {
    var c := s.buffers[i];
    StoredConfigured(s, t, i, m);
    FilledOk(c);
    IndexApart(c, c.count, c.count);
    WrittenSlot(s, t, i, m);
    forall j, n | 0 <= j < |s.buffers| && 0 <= n < s.buffers[j].count
      ensures SlotOk(t, j, Index(s.buffers[j], n)) && Slot(t, j, Index(s.buffers[j], n)) ==
              Slot(s, j, Index(s.buffers[j], n))
    {
      IndexApart(s.buffers[j], n, n);
      if j == i {
        IndexApart(c, n, c.count);
      }
      OtherSlot(s, t, i, m, j, Index(s.buffers[j], n));
    }
  }

  lemma {:induction false} DrainedConfigured(s: Store, t: Store, i: int)
    requires Configured(s) && 0 <= i < |s.buffers| && 0 < s.buffers[i].count
    requires t == s.(buffers := s.buffers[i := Drained(s.buffers[i])])
    ensures Configured(t)
  {
    DrainedOk(s.buffers[i]);
    forall a, b | 0 <= a < |t.buffers| && 0 <= b < |t.buffers| && a != b
      ensures Apart(a, t.buffers[a], b, t.buffers[b])
    {
      assert Apart(a, s.buffers[a], b, s.buffers[b]);
    }
  }

  /** Advancing `read` removes the oldest message of its ring and touches no other. */
  lemma {:induction false} DrainedRing(s: Store, t: Store, i: int)
    requires Valid(s) && 0 <= i < |s.buffers| && 0 < s.buffers[i].count
    requires t == s.(buffers := s.buffers[i := Drained(s.buffers[i])])
    ensures Valid(t) && SlotOk(s, i, s.buffers[i].read)
    ensures Ring(s, i) == [Slot(s, i, s.buffers[i].read)] + Ring(t, i)
    ensures forall j :: 0 <= j < |s.buffers| && j != i ==> Ring(t, j) == Ring(s, j)
  {
    var c := s.buffers[i];
    DrainedConfigured(s, t, i);
    DrainedOk(c);
    DrainedValid(s, t, i);
    assert SlotOk(s, i, Index(c, 0));
    forall j | 0 <= j < |s.buffers| && j != i ensures Ring(t, j) == Ring(s, j) {
      assert t.buffers[j] == s.buffers[j];
    }
  }

  lemma {:induction false} DrainedValid(s: Store, t: Store, i: int)
    requires Valid(s) && 0 <= i < |s.buffers| && 0 < s.buffers[i].count
    requires t == s.(buffers := s.buffers[i := Drained(s.buffers[i])])
    ensures Valid(t)
  {
    DrainedConfigured(s, t, i);
    DrainedOk(s.buffers[i]);
    forall j, n | 0 <= j < |t.buffers| && 0 <= n < t.buffers[j].count
      ensures SlotOk(t, j, Index(t.buffers[j], n))
    {
      if j == i {
        assert SlotOk(s, i, Index(s.buffers[i], n + 1));
      } else {
        assert SlotOk(s, j, Index(s.buffers[j], n));
      }
    }
  }

  /** Storing and fetching as functions of the arrays; where there is no such slot nothing is said. */
  function Put(s: Store, i: int, m: seq<int>): Store {
    if 0 <= i < |s.buffers| && WriteInside(s, i, m)
    then Written(s, i, s.buffers[i].write, m).(buffers := s.buffers[i := Filled(s.buffers[i])])
    else s
  }

  function Take(s: Store, i: int): Store {
    if 0 <= i < |s.buffers| && 0 < s.buffers[i].maxCount
    then s.(buffers := s.buffers[i := Drained(s.buffers[i])])
    else s
  }

  /** There is room for `m` where `Put` writes. */
  predicate WriteInside(s: Store, i: int, m: seq<int>)
    requires 0 <= i < |s.buffers|
  {
    var c := s.buffers[i];
    && 0 < c.maxCount && 0 <= SizeAt(c, i, c.write) < |s.sizes| && 0 <= DataAt(s.stride, c, i, c.write)
    && DataAt(s.stride, c, i, c.write) + |m| <= |s.data|
  }

  lemma {:induction false} ModBounds(x: int, n: int)
    requires 0 < n
    ensures 0 <= x % n < n
  {
  }

  lemma {:induction false} PutStored(s: Store, i: int, m: seq<int>)
    requires Valid(s) && 0 <= i < |s.buffers| && 0 < |m| < s.buffers[i].maxSize
    ensures Stored(s, Put(s, i, m), i, m)
  {
    var c := s.buffers[i];
    ModBounds(c.read + c.count, c.maxCount);
    SlotInside(s, i, c.write);
    var at := DataAt(s.stride, c, i, c.write);
    assert Put(s, i, m).data[at..at + |m|] == m;
  }

  /** A ring with room gains the message; the limits stay. */
  lemma {:induction false} PutRing(s: Store, i: int, m: seq<int>)
    requires Valid(s) && 0 <= i < |s.buffers| && |Ring(s, i)| < s.buffers[i].maxCount && 0 < |m| < s.buffers[i].maxSize
    ensures Valid(Put(s, i, m)) && Ring(Put(s, i, m), i) == Ring(s, i) + [m] && SameLimits(s, Put(s, i, m))
    ensures forall j :: 0 <= j < |s.buffers| && j != i ==> Ring(Put(s, i, m), j) == Ring(s, j)
  {
    PutStored(s, i, m);
    StoredRing(s, Put(s, i, m), i, m);
  }

  lemma {:induction false} TakeRing(s: Store, i: int)
    requires Valid(s) && 0 <= i < |s.buffers| && Ring(s, i) != []
    ensures Valid(Take(s, i)) && Ring(Take(s, i), i) == Ring(s, i)[1..] && SameLimits(s, Take(s, i))
    ensures SlotOk(s, i, s.buffers[i].read) && Slot(s, i, s.buffers[i].read) == Ring(s, i)[0]
    ensures forall j :: 0 <= j < |s.buffers| && j != i ==> Ring(Take(s, i), j) == Ring(s, j)
  {
    DrainedRing(s, Take(s, i), i);
  }

  ghost predicate SameLimits(s: Store, t: Store) {
    && |t.buffers| == |s.buffers|
    && (forall i :: 0 <= i < |s.buffers| ==>
          t.buffers[i].maxCount == s.buffers[i].maxCount && t.buffers[i].maxSize == s.buffers[i].maxSize)
  }

  // ---------------------------------------------------------------- the arrays in place

  /** memcpy into the byte array. */
  method Copy(data: array<int>, at: int, m: seq<int>)
    requires 0 <= at && at + |m| <= data.Length
    modifies data
    ensures data[at..at + |m|] == m
    ensures forall x :: 0 <= x < data.Length && !(at <= x < at + |m|) ==> data[x] == old(data[x])
  {
    var n := 0;
    while n < |m|
      invariant 0 <= n <= |m|
      invariant data[at..at + n] == m[..n]
      invariant forall x :: 0 <= x < data.Length && !(at <= x < at + n) ==> data[x] == old(data[x])
    {
      data[at + n] := m[n];
      n := n + 1;
    }
  }

  /** buffers_data, buffers_size_data and the buffers of a partition. */
  class Buffers {
    const data: array<int>
    const sizes: array<int>
    const stride: int
    var buffers: seq<Control>

    ghost function View(): Store
      reads this, data, sizes
    {
      Store(data[..], sizes[..], stride, buffers)
    }

    ghost predicate Ok()
      reads this, data, sizes
    {
      Valid(View()) && data != sizes
    }

    constructor (data: array<int>, sizes: array<int>, stride: int, buffers: seq<Control>)
      requires data != sizes && Configured(Store(data[..], sizes[..], stride, buffers))
      requires forall c :: c in buffers ==> c.count == 0
      ensures Ok() && this.data == data && this.sizes == sizes && this.buffers == buffers
      ensures forall i :: 0 <= i < |buffers| ==> Ring(View(), i) == []
    {
      this.data, this.sizes, this.stride, this.buffers := data, sizes, stride, buffers;
    }

    /** Stores a message of SEND_BUFFER, or of the sender a RECEIVE_BUFFER unblocks. */
    method Put(i: int, m: seq<int>)
      requires Ok() && 0 <= i < |buffers| && buffers[i].count < buffers[i].maxCount && 0 < |m| < buffers[i].maxSize
      modifies this`buffers, data, sizes
      ensures Ok() && |buffers| == old(|buffers|)
      ensures Ring(View(), i) == old(Ring(View(), i)) + [m]
      ensures var c := old(buffers)[i];
              var at, entry := i * stride + c.write * c.maxSize, i * c.maxCount + c.write;
              && 0 <= at && at + |m| <= data.Length && data[at..at + |m|] == m
              && 0 <= entry < sizes.Length && sizes[entry] == |m|
              && buffers == old(buffers)[i := c.(write := (c.write + 1) % c.maxCount, count := c.count + 1)]
      ensures forall j :: 0 <= j < |buffers| && j != i ==> Ring(View(), j) == old(Ring(View(), j))
    {
      ghost var s := View();
      var c := buffers[i];
      var at, entry := DataAt(stride, c, i, c.write), SizeAt(c, i, c.write);
      SlotInside(s, i, c.write);
      Copy(data, at, m);
      sizes[entry] := |m|;
      buffers := buffers[i := c.(write := (c.write + 1) % c.maxCount, count := c.count + 1)];
      assert View().data[at..at + |m|] == m;
      assert Stored(s, View(), i, m);
      StoredRing(s, View(), i, m);
    }

    /** Fetches the oldest message, as RECEIVE_BUFFER does. */
    method Get(i: int) returns (m: seq<int>)
      requires Ok() && 0 <= i < |buffers| && 0 < buffers[i].count
      modifies this`buffers
      ensures Ok() && |buffers| == old(|buffers|)
      ensures old(Ring(View(), i)) == [m] + Ring(View(), i)
      ensures var c := old(buffers)[i];
              var at, entry := i * stride + c.read * c.maxSize, i * c.maxCount + c.read;
              && 0 <= entry < sizes.Length && 0 <= at && at + sizes[entry] <= data.Length && 0 <= sizes[entry]
              && m == data[at..at + sizes[entry]]
              && buffers == old(buffers)[i := c.(read := (c.read + 1) % c.maxCount, count := c.count - 1)]
      ensures forall j :: 0 <= j < |buffers| && j != i ==> Ring(View(), j) == old(Ring(View(), j))
    {
      ghost var s := View();
      var c := buffers[i];
      SlotInside(s, i, c.read);
      DrainedRing(s, s.(buffers := s.buffers[i := Drained(c)]), i);
      var at, size := DataAt(stride, c, i, c.read), sizes[SizeAt(c, i, c.read)];
      m := [];
      while |m| < size
        invariant |m| <= size
        invariant m == s.data[at..at + |m|]
      {
        m := m + [data[at + |m|]];
      }
      buffers := buffers[i := c.(read := (c.read + 1) % c.maxCount, count := c.count - 1)];
      assert m == Slot(s, i, c.read);
    }
  }
}
