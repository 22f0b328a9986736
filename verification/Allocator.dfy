/** The first-fit heap: a chain of headers that is coalesced only while malloc scans it. */
module Allocator {
  import opened Arithmetic

  const HEADER: int := 8              // sizeof(struct mem_block_s)
  const WORD: int := 0x1_0000_0000    // size_t and uint32_t wrap here

  /** align4 on uint32_t */
  function Align4(n: int): int {
    (n + 3) % WORD / 4 * 4
  }

  // ---------------------------------------------------------------- the chain of headers

  predicate Free(size: map<int, int>, a: int) {
    a in size && size[a] % 2 == 0
  }

  predicate Used(size: map<int, int>, a: int) {
    a in size && size[a] % 2 == 1
  }

  /** Memory as malloc sees it: the headers on the chain from `first` to the sentinel `end`, and the
      two words of every header ever written. */
  datatype Memory = Memory(headers: set<int>, first: int, end: int, next: map<int, int>, size: map<int, int>)
  {
    function Next(a: int): int {
      if a in next then next[a] else 0
    }
  }

  predicate HeaderOk(m: Memory, a: int) {
    m.first <= a <= m.end && a % 2 == 0 && (a != m.end ==> a % 4 == 0) && a in m.next && a in m.size
  }

  /** A block reaches from its header to the next one; if it is used, its stored size is exact.
      The stored size of a free block is arbitrary. */
  predicate BlockOk(m: Memory, a: int) {
    && a in m.next && a in m.size && m.Next(a) in m.headers && a + HEADER <= m.Next(a)
    && (Used(m.size, a) ==> m.size[a] == m.Next(a) - a - HEADER + 1 && m.Next(a) != m.end)
  }

  /** The chain tiles the heap: next leads to the nearest header above. The block before the
      sentinel is free. */
  ghost predicate ChainOk(m: Memory) {
    && 0 < m.first < m.end <= WORD - HEADER && m.first in m.headers && m.end in m.headers
    && (forall a {:trigger HeaderOk(m, a)} :: a in m.headers ==> HeaderOk(m, a))
    && (forall a {:trigger BlockOk(m, a)} :: a in m.headers && a != m.end ==> BlockOk(m, a))
    && (forall a, b :: a in m.headers && b in m.headers && a < b ==> m.Next(a) <= b)
    && m.Next(m.end) == 0 && Free(m.size, m.end)
  }

  /** Every byte of the heap lies in exactly one block. */
  lemma {:induction false} Tiles(m: Memory, x: int, from: int) returns (a: int)
    requires ChainOk(m) && from in m.headers && from <= x < m.end
    ensures a in m.headers && a != m.end && a <= x < m.Next(a)
    ensures forall b :: b in m.headers && b != m.end && b <= x < m.Next(b) ==> b == a
    decreases m.end - from
  {
    assert HeaderOk(m, from) && BlockOk(m, from);
    if x < m.Next(from) {
      a := from;
    } else {
      assert HeaderOk(m, m.Next(from));
      a := Tiles(m, x, m.Next(from));
    }
  }

  /** The live blocks: header address to payload size. */
  ghost function Live(m: Memory): map<int, int> {
    map a | a in m.headers && Used(m.size, a) :: m.size[a] - 1
  }

  /** Live payloads lie inside the heap and share no byte. */
  lemma {:induction false} LiveDisjoint(m: Memory, a: int, b: int)
    requires ChainOk(m) && a in Live(m) && b in Live(m) && a != b
    ensures m.first <= a && a + HEADER + Live(m)[a] <= m.end
    ensures a + HEADER + Live(m)[a] <= b || b + HEADER + Live(m)[b] <= a
  {
    assert HeaderOk(m, a) && HeaderOk(m, b) && a != m.end && b != m.end;
    assert BlockOk(m, a) && BlockOk(m, b);
    assert HeaderOk(m, m.Next(a));
  }

  // ---------------------------------------------------------------- merging and splitting

  /** Everything from `a` up to `b` is free. */
  ghost predicate FreeRun(m: Memory, a: int, b: int) {
    && a in m.headers && b in m.headers && a < b
    && (forall x :: x in m.headers && a <= x < b ==> Free(m.size, x))
  }

  /** The free run from `q` to `p` becomes one block. */
  function Merged(m: Memory, q: int, p: int): Memory {
    m.(headers := (set x | x in m.headers && !(q < x < p)),
       next := m.next[q := p], size := m.size[q := p - q - HEADER])
  }

  lemma {:induction false} MergedSize(m: Memory, q: int, p: int)
    requires HeaderOk(m, q) && HeaderOk(m, p)
    ensures Free(Merged(m, q, p).size, q)
  {
    EvenGap(q, p);
  }

  lemma {:induction false} MergedBlock(m: Memory, q: int, p: int, a: int)
    requires ChainOk(m) && FreeRun(m, q, p) && a in Merged(m, q, p).headers && a != m.end
    ensures BlockOk(Merged(m, q, p), a)
  {
    assert BlockOk(m, a) && BlockOk(m, q) && HeaderOk(m, q) && HeaderOk(m, p);
    MergedSize(m, q, p);
  }

  lemma {:induction false} MergedOk(m: Memory, q: int, p: int)
    requires ChainOk(m) && FreeRun(m, q, p)
    ensures ChainOk(Merged(m, q, p)) && Free(Merged(m, q, p).size, q)
  {
    var t := Merged(m, q, p);
    assert HeaderOk(m, q) && HeaderOk(m, p) && BlockOk(m, q);
    MergedSize(m, q, p);
    forall a | a in t.headers ensures HeaderOk(t, a) {
      assert HeaderOk(m, a);
    }
    forall a | a in t.headers && a != t.end ensures BlockOk(t, a) {
      MergedBlock(m, q, p, a);
    }
    MergedOrder(m, q, p);
  }

  lemma {:induction false} MergedOrder(m: Memory, q: int, p: int)
    requires ChainOk(m) && FreeRun(m, q, p)
    ensures var t := Merged(m, q, p); forall a, b :: a in t.headers && b in t.headers && a < b ==> t.Next(a) <= b
  {
  }

  lemma {:induction false} MergedLive(m: Memory, q: int, p: int)
    requires ChainOk(m) && FreeRun(m, q, p)
    ensures Live(Merged(m, q, p)) == Live(m)
  {
    assert HeaderOk(m, q) && HeaderOk(m, p);
    MergedSize(m, q, p);
  }

  lemma {:induction false} EvenGap(q: int, p: int)
    requires q % 2 == 0 && p % 2 == 0
    ensures (p - q - HEADER) % 2 == 0
  {
    QuotientUnique(p - q - HEADER, 2, p / 2 - q / 2 - 4, 0);
  }

  /** The free block at `p` becomes a used one of `s` bytes and a free remainder, whose stored size
      is meaningless. */
  function Split(m: Memory, p: int, s: int): Memory {
    var n := p + s + HEADER;
    m.(headers := m.headers + {n},
       next := m.next[p := n][n := m.Next(p)],
       size := m.size[p := s + 1][n := WORD - HEADER])
  }

  predicate Splittable(m: Memory, p: int, s: int) {
    p in m.headers && p != m.end && Free(m.size, p) && 0 <= s && s % 4 == 0 && p + s + 2 * HEADER <= m.Next(p)
  }

  lemma {:induction false} SplitHeader(m: Memory, p: int, s: int)
    requires ChainOk(m) && Splittable(m, p, s)
    ensures var n := p + s + HEADER;
            && n !in m.headers && n % 4 == 0 && n % 2 == 0 && (s + 1) % 2 == 1 && m.first <= p < n < m.Next(p) <= m.end
            && m.Next(p) in m.headers
  {
    assert HeaderOk(m, p) && BlockOk(m, p);
    assert HeaderOk(m, m.Next(p));
    WordAddress(p, s);
  }

  lemma {:induction false} WordAddress(p: int, s: int)
    requires p % 4 == 0 && s % 4 == 0
    ensures (p + s + HEADER) % 4 == 0 && (p + s + HEADER) % 2 == 0 && (s + 1) % 2 == 1
  {
    QuotientUnique(p + s + HEADER, 2, 2 * (p / 4) + 2 * (s / 4) + 4, 0);
    QuotientUnique(p + s + HEADER, 4, p / 4 + s / 4 + 2, 0);
    QuotientUnique(s + 1, 2, 2 * (s / 4), 1);
  }

  lemma {:induction false} SplitBlock(m: Memory, p: int, s: int, a: int)
    requires ChainOk(m) && Splittable(m, p, s) && a in Split(m, p, s).headers && a != m.end
    ensures BlockOk(Split(m, p, s), a)
  {
    SplitHeader(m, p, s);
    assert a in m.headers ==> BlockOk(m, a);
  }

  lemma {:induction false} SplitOk(m: Memory, p: int, s: int)
    requires ChainOk(m) && Splittable(m, p, s)
    ensures ChainOk(Split(m, p, s))
  {
    var t := Split(m, p, s);
    SplitHeader(m, p, s);
    forall a | a in t.headers ensures HeaderOk(t, a) {
      SplitHeaders(m, p, s, a);
    }
    forall a | a in t.headers && a != t.end ensures BlockOk(t, a) {
      SplitBlock(m, p, s, a);
    }
    SplitOrder(m, p, s);
    SplitEnds(m, p, s);
  }

  lemma {:induction false} SplitHeaders(m: Memory, p: int, s: int, a: int)
    requires ChainOk(m) && Splittable(m, p, s) && a in Split(m, p, s).headers
    ensures HeaderOk(Split(m, p, s), a)
  {
    SplitHeader(m, p, s);
    var n := p + s + HEADER;
    if a == n {
      assert m.first <= n < m.end && n % 2 == 0 && n % 4 == 0;
    } else {
      assert HeaderOk(m, a);
    }
  }

  lemma {:induction false} SplitEnds(m: Memory, p: int, s: int)
    requires ChainOk(m) && Splittable(m, p, s)
    ensures var t := Split(m, p, s);
            && t.first in t.headers && t.end in t.headers && t.Next(t.end) == 0 && Free(t.size, t.end)
            && 0 < t.first < t.end <= WORD - HEADER
  {
    SplitHeader(m, p, s);
  }

  lemma {:induction false} SplitOrder(m: Memory, p: int, s: int)
    requires ChainOk(m) && Splittable(m, p, s)
    ensures var t := Split(m, p, s); forall a, b :: a in t.headers && b in t.headers && a < b ==> t.Next(a) <= b
  {
    SplitHeader(m, p, s);
  }

  /** The live blocks are those from before and the new one, of exactly the size asked for. */
  lemma {:induction false} SplitLive(m: Memory, p: int, s: int)
    requires ChainOk(m) && Splittable(m, p, s)
    ensures p !in Live(m) && Live(Split(m, p, s)) == Live(m)[p := s]
  {
    SplitHeader(m, p, s);
    var x, y := Live(Split(m, p, s)), Live(m)[p := s];
    assert x.Keys == y.Keys;
    assert forall a :: a in x ==> x[a] == y[a];
  }

  // ---------------------------------------------------------------- what a scan can find

  /** A run of free blocks from `from` on has room for `need` bytes besides its own header. */
  ghost predicate Fits(m: Memory, from: int, need: int) {
    exists a, b :: FreeRun(m, a, b) && from <= a && b - a - HEADER >= need
  }

  ghost predicate NoneFits(m: Memory, from: int, to: int, need: int) {
    forall a, b :: FreeRun(m, a, b) && from <= a && b <= to ==> b - a - HEADER < need
  }

  /** A free run with room begins at `p`, and none begins before it. */
  ghost predicate FirstFit(m: Memory, from: int, p: int, need: int) {
    && from <= p && (exists b :: FreeRun(m, p, b) && b - p - HEADER >= need)
    && (forall a, b :: FreeRun(m, a, b) && from <= a < p ==> b - a - HEADER < need)
  }

  /** Between `p` and `q` all blocks are used; unless they coincide, the one before `q` is `u`. */
  ghost predicate UsedUpTo(m: Memory, p: int, q: int, u: int) {
    && p in m.headers && q in m.headers && p <= q
    && (forall x :: x in m.headers && p <= x < q ==> Used(m.size, x))
    && (p < q ==> u in m.headers && p <= u < q && forall x :: x in m.headers ==> x <= u || q <= x)
  }

  lemma {:induction false} NoneFitsPastUsed(m: Memory, from: int, p: int, q: int, u: int, need: int)
    requires NoneFits(m, from, p, need) && UsedUpTo(m, p, q, u)
    ensures NoneFits(m, from, q, need)
  {
    forall a, b | FreeRun(m, a, b) && from <= a && b <= q ensures b - a - HEADER < need {
    }
  }

  lemma {:induction false} NoneFitsPastRun(m: Memory, from: int, p: int, q: int, u: int, e: int, need: int)
    requires NoneFits(m, from, q, need) && UsedUpTo(m, p, q, u) && from <= p && (p == q ==> from == p)
    requires FreeRun(m, q, e) && e - q - HEADER < need
    ensures NoneFits(m, from, e, need)
  {
    forall a, b | FreeRun(m, a, b) && from <= a && b <= e ensures b - a - HEADER < need {
    }
  }

  // ---------------------------------------------------------------- one turn of the scan

  /** The scan of `m` from `from` has reached `p`; the chain as merged so far is `d`. */
  ghost predicate Reached(m: Memory, d: Memory, from: int, p: int, need: int) {
    && p in d.headers && from in d.headers && from <= p && d.first == m.first && d.end == m.end
    && (forall x :: x in d.headers ==> x in m.headers) && (forall x :: x in m.headers && p <= x ==> x in d.headers)
    && (forall x :: x in m.headers ==> (Free(d.size, x) <==> Free(m.size, x)) && (Used(d.size, x) <==> Used(m.size, x)))
    && (p == from || p == d.end || Used(d.size, p))
    && NoneFits(m, from, p, need) && Live(d) == Live(m)
  }

  /** From `p` on both chains look the same. */
  lemma {:induction false} SameAhead(m: Memory, d: Memory, from: int, p: int, need: int, q: int, u: int, e: int)
    requires Reached(m, d, from, p, need) && UsedUpTo(d, p, q, u) && FreeRun(d, q, e)
    ensures UsedUpTo(m, p, q, u) && FreeRun(m, q, e)
  {
  }

  lemma {:induction false} TurnFits(m: Memory, d: Memory, from: int, p: int, need: int, q: int, u: int, e: int)
    requires Reached(m, d, from, p, need) && UsedUpTo(d, p, q, u) && FreeRun(d, q, e) && e - q - HEADER >= need
    requires p != d.end
    ensures FirstFit(m, from, q, need)
  {
    SameAhead(m, d, from, p, need, q, u, e);
    assert p == q ==> Free(d.size, p);
    forall a, b | FreeRun(m, a, b) && from <= a < q ensures b - a - HEADER < need {
    }
  }

  lemma {:induction false} TurnMisses(m: Memory, d: Memory, from: int, p: int, need: int, q: int, u: int, e: int)
    requires ChainOk(d) && Reached(m, d, from, p, need) && UsedUpTo(d, p, q, u) && FreeRun(d, q, e)
             && e - q - HEADER < need
    requires p != d.end && (e == d.end || Used(d.size, e))
    ensures Reached(m, Merged(d, q, e), from, e, need)
  {
    SameAhead(m, d, from, p, need, q, u, e);
    NoneFitsPastUsed(m, from, p, q, u, need);
    assert p == q ==> Free(d.size, p);
    NoneFitsPastRun(m, from, p, q, u, e, need);
    assert HeaderOk(d, q) && HeaderOk(d, e);
    MergedSize(d, q, e);
    MergedLive(d, q, e);
  }

  // ---------------------------------------------------------------- requests

  /** A request survives the 32-bit rounding and the addition of a header. */
  predicate Sane(n: int) {
    0 <= n < WORD && Align4(n) + HEADER < WORD
  }

  /** What align4 gives: the next multiple of four, unless the addition wraps around. */
  lemma {:induction false} AlignExact(n: int)
    requires 0 <= n < WORD
    ensures Align4(n) % 4 == 0 && 0 <= Align4(n) < WORD
    ensures n <= WORD - 4 ==> n <= Align4(n) < n + 4
    ensures n > WORD - 4 ==> Align4(n) == 0
  {
    var x := (n + 3) % WORD;
    assert x == if n <= WORD - 4 then n + 3 else n + 3 - WORD;
    assert x == 4 * (x / 4) + x % 4 && Align4(n) == 4 * (x / 4);
  }

  /** The payload is as large as asked for exactly when the request is below the wrap-around. */
  lemma {:induction false} SaneExact(n: int)
    requires 0 <= n < WORD
    ensures Sane(n) && n <= Align4(n) <==> n <= WORD - 12
  {
    AlignExact(n);
    MultipleOfFour(Align4(n));
  }

  lemma {:induction false} MultipleOfFour(s: int)
    requires s % 4 == 0
    ensures s < WORD - 8 ==> s <= WORD - 12
  {
  }

  /** What malloc compares the size of a free run with: a 32-bit sum. */
  function Need(n: int): int {
    (Align4(n) + HEADER) % WORD
  }

  /** The sum wraps around for two rounded sizes only. */
  lemma {:induction false} NeedExact(n: int)
    requires 0 <= n < WORD
    ensures Need(n) == if Sane(n) then Align4(n) + HEADER else Align4(n) + HEADER - WORD
    ensures !Sane(n) <==> Align4(n) == WORD - 8 || Align4(n) == WORD - 4
  {
    AlignExact(n);
    WordBound(Align4(n));
  }

  lemma {:induction false} WordBound(s: int)
    requires s % 4 == 0 && 0 <= s < WORD
    ensures (s + HEADER) % WORD == if s + HEADER < WORD then s + HEADER else s + HEADER - WORD
    ensures s + HEADER >= WORD ==> s == WORD - 8 || s == WORD - 4
  {
    assert s == 4 * (s / 4);
    if s + HEADER < WORD {
      SmallRemainder(s + HEADER, WORD);
    } else {
      QuotientUnique(s + HEADER, WORD, 1, s + HEADER - WORD);
    }
  }

  // ---------------------------------------------------------------- requests that wrap around

  /** The split for the rounded size 2^32 - 8: the new header is written over the old one. */
  function Rewritten(m: Memory, p: int): Memory {
    m.(size := m.size[p := WORD - HEADER])
  }

  /** The block stays free, so the next search may hand out the same address again. */
  lemma {:induction false} RewrittenOk(m: Memory, p: int)
    requires ChainOk(m) && p in m.headers && p != m.end && Free(m.size, p)
    ensures ChainOk(Rewritten(m, p)) && Live(Rewritten(m, p)) == Live(m) && Free(Rewritten(m, p).size, p)
  {
    MarkedOk(m, p, WORD - HEADER);
    assert p !in Live(m);
  }

  /** What the split writes for any rounded size. A header four bytes behind the old one keeps its
      next word where the old one has its size word. */
  function Carved(m: Memory, p: int, s: int): Memory {
    var n := (p + s + HEADER) % WORD;
    var next := m.next[p := n][n := m.Next(p)];
    var size := m.size[p := s + 1][n := WORD - HEADER];
    m.(headers := m.headers + {n}, next := next, size := if n == p + 4 then size[p := m.Next(p)] else size)
  }

  predicate Carvable(m: Memory, p: int, s: int) {
    && p in m.headers && p != m.end && Free(m.size, p) && 0 <= s < WORD && s % 4 == 0
    && p + (s + HEADER) % WORD + HEADER <= m.Next(p)
  }

  lemma {:induction false} CarvedSplit(m: Memory, p: int, s: int)
    requires ChainOk(m) && Carvable(m, p, s) && s + HEADER < WORD
    ensures ChainOk(Carved(m, p, s)) && p !in Live(m) && Live(Carved(m, p, s)) == Live(m)[p := s]
  {
    CarvedAt(m, p, s);
    assert Carved(m, p, s) == Split(m, p, s);
    SplitOk(m, p, s);
    SplitLive(m, p, s);
  }

  lemma {:induction false} CarvedRewritten(m: Memory, p: int, s: int)
    requires ChainOk(m) && Carvable(m, p, s) && s == WORD - 8
    ensures ChainOk(Carved(m, p, s)) && Live(Carved(m, p, s)) == Live(m) && Free(Carved(m, p, s).size, p)
  {
    CarvedAt(m, p, s);
    assert BlockOk(m, p);
    assert Carved(m, p, s) == Rewritten(m, p);
    RewrittenOk(m, p);
  }

  lemma {:induction false} CarvedLost(m: Memory, p: int, s: int)
    requires ChainOk(m) && Carvable(m, p, s) && s == WORD - 4
    ensures Carved(m, p, s).Next(p) == p + 4 && !ChainOk(Carved(m, p, s))
  {
    CarvedAt(m, p, s);
    assert !BlockOk(Carved(m, p, s), p);
  }

  /** What a request gets from the block it splits, by its rounded size. */
  ghost predicate Granted(live: map<int, int>, t: Memory, p: int, n: int) {
    && p !in live
    && (Sane(n) ==> Live(t) == live[p := Align4(n)])
    && (Align4(n) == WORD - 8 ==> Live(t) == live && Free(t.size, p))
    && (Align4(n) == WORD - 4 ==> t.Next(p) == p + 4)
  }

  lemma {:induction false} CarvedExact(m: Memory, t: Memory, p: int, n: int)
    requires ChainOk(m) && 0 <= n < WORD && Carvable(m, p, Align4(n)) && t == Carved(m, p, Align4(n))
    ensures Granted(Live(m), t, p, n) && (ChainOk(t) <==> Align4(n) != WORD - 4) && p in t.headers
  {
    NeedExact(n);
    if Sane(n) {
      CarvedSplit(m, p, Align4(n));
    } else if Align4(n) == WORD - 8 {
      CarvedRewritten(m, p, Align4(n));
    } else {
      CarvedLost(m, p, Align4(n));
    }
  }

  lemma {:induction false} RoomCarvable(m: Memory, p: int, n: int)
    requires p in m.headers && p != m.end && Free(m.size, p) && 0 <= n < WORD && m.Next(p) - p - HEADER >= Need(n)
    ensures Carvable(m, p, Align4(n))
  {
    AlignExact(n);
  }

  /** Where the new header goes, in 32-bit addresses. */
  lemma {:induction false} CarvedAt(m: Memory, p: int, s: int)
    requires ChainOk(m) && Carvable(m, p, s)
    ensures (p + s + HEADER) % WORD == p + (s + HEADER) % WORD
    ensures (s + HEADER) % WORD == if s + HEADER < WORD then s + HEADER else s + HEADER - WORD
  {
    WordBound(s);
    assert HeaderOk(m, p) && BlockOk(m, p);
    assert HeaderOk(m, m.Next(p));
    if s + HEADER < WORD {
      SmallRemainder(p + s + HEADER, WORD);
    } else {
      QuotientUnique(p + s + HEADER, WORD, 1, p + s + HEADER - WORD);
    }
  }

  /** On a heap whose length is odd, merging the fresh heap into one run gives an odd size: the
      block before the sentinel then counts as used. */
  lemma {:induction false} OddHeapSticks(m: Memory)
    requires m.first % 4 == 0 && m.end % 2 == 1
    ensures Used(Merged(m, m.first, m.end).size, m.first)
  {
    QuotientUnique(m.end - m.first - HEADER, 2, m.end / 2 - 2 * (m.first / 4) - 4, 1);
  }

  // ---------------------------------------------------------------- the heap in place

  class Heap {
    const first: int                  // first_free
    const end: int                    // the sentinel
    var next: map<int, int>
    var size: map<int, int>
    var last: int                     // last_free
    ghost var headers: set<int>

    ghost function View(): Memory
      reads this
    {
      Memory(headers, first, end, next, size)
    }

    /** The chain tiles the heap, and last_free points at a live header before the sentinel. */
    ghost predicate Ok()
      reads this
    {
      ChainOk(View()) && last in headers && last != end
    }

    /** ucx_heap_init */
    constructor (heap: int, len: int)
      requires 0 < heap && heap % 4 == 0 && 2 * HEADER <= len && heap + len <= WORD
      ensures Ok() <==> len % 2 == 0
      ensures first == heap && end == heap + len - HEADER && last == heap && headers == {first, end}
      ensures Live(View()) == map[]
    {
      var q := heap + len - HEADER;
      first, last, end := heap, heap, q;
      next := map[heap := q, q := 0];
      size := map[heap := Align4(len) - 2 * HEADER, q := 0];
      headers := {heap, q};
      new;
      FreshExact(heap, len);
    }

    /** while (p->size & 1) */
    method SkipUsed(p: int) returns (r: int, ghost u: int)
      requires ChainOk(View()) && p in headers && p != end
      ensures UsedUpTo(View(), p, r, u) && Free(size, r) && r != end
    {
      r, u := p, p;
      assert HeaderOk(View(), r);
      while size[r] % 2 == 1
        invariant UsedUpTo(View(), p, r, u) && r != end && HeaderOk(View(), r)
        decreases end - r
      {
        assert BlockOk(View(), r);
        u := r;
        r := next[r];
        assert HeaderOk(View(), r);
      }
    }

    /** while (!(p->size & 1) && p->next) */
    method SkipFree(p: int) returns (r: int)
      requires ChainOk(View()) && p in headers && p != end && Free(size, p)
      ensures FreeRun(View(), p, r) && (r == end || Used(size, r))
    {
      assert HeaderOk(View(), p) && BlockOk(View(), p);
      r := next[p];
      assert HeaderOk(View(), r);
      while size[r] % 2 == 0 && next[r] != 0
        invariant FreeRun(View(), p, r) && HeaderOk(View(), r)
        decreases end - r
      {
        assert BlockOk(View(), r);
        r := next[r];
        assert HeaderOk(View(), r);
      }
      assert r != end ==> BlockOk(View(), r);
      assert r != end ==> HeaderOk(View(), View().Next(r));
    }

    /** Joins the free run from `q` to `p`. */
    method Merge(q: int, p: int)
      requires ChainOk(View()) && FreeRun(View(), q, p)
      modifies this`next, this`size, this`headers
      ensures View() == Merged(old(View()), q, p) && ChainOk(View()) && Free(size, q)
              && Live(View()) == old(Live(View()))
    {
      MergedOk(View(), q, p);
      MergedLive(View(), q, p);
      size := size[q := p - q - HEADER];
      next := next[q := p];
      headers := set x | x in headers && !(q < x < p);
    }

    /** The search of ucx_malloc: the first free run from last_free on with room, or the sentinel.
        At the head of a turn a free `p` is where the scan began, so `q` equals `p` there. */
    method Scan(need: int) returns (p: int)
      requires Ok()
      modifies this`next, this`size, this`headers
      ensures Ok() && Live(View()) == old(Live(View())) && p in headers
      ensures p != end <==> Fits(old(View()), last, need)
      ensures p != end ==> FirstFit(old(View()), last, p, need)
      ensures p != end ==> Free(size, p) && View().Next(p) - p - HEADER >= need
    {
      ghost var m := View();
      p := last;
      assert HeaderOk(m, p) && BlockOk(m, p) && HeaderOk(m, m.Next(p));
      while next[p] != 0
        invariant Ok() && Reached(m, View(), last, p, need) && HeaderOk(View(), p)
        invariant p != end ==> View().Next(p) != 0
        decreases end - p
      {
        var q; ghost var u;
        q, u := SkipUsed(p);
        var r := SkipFree(q);
        assert HeaderOk(View(), q) && HeaderOk(View(), r);
        ghost var d := View();
        Merge(q, r);
        if size[q] >= need {
          TurnFits(m, d, last, p, need, q, u, r);
          p := q;
          return;
        }
        TurnMisses(m, d, last, p, need, q, u, r);
        p := r;
        if p != end {
          assert BlockOk(View(), p) && HeaderOk(View(), View().Next(p));
        }
      }
      NothingFits(m, last, need);
    }

    /** ucx_malloc: fails exactly when no free run from last_free on has room for the 32-bit sum of
        rounded size and header, and otherwise takes the first such run. For requests below the
        wrap-around the live blocks gain one of exactly the rounded size, and all others stay where they
        are. For the rounded size 2^32 - 8 a free block is handed out and stays free; for 2^32 - 4 the
        chain is lost. */
    method Malloc(n: int) returns (ptr: int)
      requires Ok() && 0 <= n < WORD
      modifies this
      ensures ptr == 0 <==> !Fits(old(View()), old(last), Need(n))
      ensures ptr == 0 ==> Live(View()) == old(Live(View())) && last == old(last)
      ensures ptr != 0 ==> FirstFit(old(View()), old(last), ptr - HEADER, Need(n))
      ensures ptr != 0 ==> last == ptr - HEADER && Granted(old(Live(View())), View(), ptr - HEADER, n)
      ensures Ok() <==> ptr == 0 || Align4(n) != WORD - 4
    {
      var s := Align4(n);
      var p := Scan((s + HEADER) % WORD);
      assert HeaderOk(View(), p);
      if p == end {
        return 0;
      }
      RoomCarvable(View(), p, n);
      Take(p, n, s);
      ptr := p + HEADER;
    }

    /** Hands out the free block at `p`. */
    method Take(p: int, ghost n: int, s: int)
      requires ChainOk(View()) && 0 <= n < WORD && s == Align4(n) && Carvable(View(), p, s)
      modifies this
      ensures last == p && Granted(old(Live(View())), View(), p, n) && (Ok() <==> s != WORD - 4)
    {
      last := p;
      ghost var m := View();
      Carve(p, s);
      CarvedExact(m, View(), p, n);
    }

    /** Splits the free block at `p`. */
    method Carve(p: int, s: int)
      requires ChainOk(View()) && Carvable(View(), p, s)
      modifies this`next, this`size, this`headers
      ensures View() == Carved(old(View()), p, s)
    {
      assert BlockOk(View(), p);
      EvenWord(s);
      var r, n := next[p], (p + s + HEADER) % WORD;
      next := next[p := n];
      size := size[p := s + 1];
      var rest := (size[p] - size[p] % 2 - s - HEADER) % WORD;
      next := next[n := r];
      size := size[n := rest];
      if n == p + 4 {
        size := size[p := r];
      }
      headers := headers + {n};
    }

    /** ucx_free of a block on the chain: only that block dies, and the next search starts at the
        bottom of the heap. */
    method Release(ptr: int)
      requires Ok() && ptr - HEADER in headers && ptr - HEADER != end
      modifies this`size, this`last
      ensures Ok() && Live(View()) == old(Live(View())) - {ptr - HEADER} && last == first
      ensures headers == old(headers)
    {
      var p := ptr - HEADER;
      ghost var m := View();
      assert HeaderOk(m, p);
      FreedOk(m, p);
      size := size[p := size[p] - size[p] % 2];
      last := first;
    }
  }

  function Freed(m: Memory, p: int): Memory {
    if p in m.size then m.(size := m.size[p := m.size[p] - m.size[p] % 2]) else m
  }

  lemma {:induction false} FreedOk(m: Memory, p: int)
    requires ChainOk(m) && p in m.headers
    ensures ChainOk(Freed(m, p)) && Live(Freed(m, p)) == Live(m) - {p}
  {
    assert HeaderOk(m, p);
    EvenFloor(m.size[p]);
    MarkedOk(m, p, m.size[p] - m.size[p] % 2);
  }

  /** Any even size word marks a block free. */
  lemma {:induction false} MarkedOk(m: Memory, p: int, x: int)
    requires ChainOk(m) && p in m.headers && x % 2 == 0
    ensures var t := m.(size := m.size[p := x]); ChainOk(t) && Live(t) == Live(m) - {p} && Free(t.size, p)
  {
    var t := m.(size := m.size[p := x]);
    forall a | a in t.headers ensures HeaderOk(t, a) {
      assert HeaderOk(m, a);
    }
    forall a | a in t.headers && a != t.end ensures BlockOk(t, a) {
      assert BlockOk(m, a);
    }
    assert t.next == m.next && Free(t.size, t.end);
    forall a, b | a in t.headers && b in t.headers && a < b ensures t.Next(a) <= b {
      assert m.Next(a) <= b;
    }
    FreedLive(m, t, p);
  }

  lemma {:induction false} FreedLive(m: Memory, t: Memory, p: int)
    requires t.headers == m.headers && Free(t.size, p) && forall a :: a != p ==> (a in t.size <==> a in m.size)
    requires forall a :: a != p && a in m.size ==> t.size[a] == m.size[a]
    ensures Live(t) == Live(m) - {p}
  {
  }

  lemma {:induction false} EvenFloor(x: int)
    ensures (x - x % 2) % 2 == 0
  {
    assert x - x % 2 == 2 * (x / 2);
  }

  lemma {:induction false} NothingFits(m: Memory, from: int, need: int)
    requires ChainOk(m) && NoneFits(m, from, m.end, need)
    ensures !Fits(m, from, need)
  {
    forall a, b | FreeRun(m, a, b) ensures b <= m.end {
      assert HeaderOk(m, b);
    }
  }

  // ---------------------------------------------------------------- reclamation

  /** After a free the search covers the whole heap: it fails only if no free run anywhere fits. */
  lemma {:induction false} WholeHeap(m: Memory, need: int)
    requires ChainOk(m)
    ensures Fits(m, m.first, need) <==> exists a, b :: FreeRun(m, a, b) && b - a - HEADER >= need
  {
    forall a, b | FreeRun(m, a, b) ensures m.first <= a {
      assert HeaderOk(m, a);
    }
  }

  /** With nothing live, any request that fits the initial heap succeeds. */
  lemma {:induction false} EmptyHeapServes(m: Memory, need: int)
    requires ChainOk(m) && Live(m) == map[]
    ensures Fits(m, m.first, need) <==> need <= m.end - m.first - HEADER
  {
    forall x | x in m.headers ensures Free(m.size, x) && m.first <= x <= m.end {
      assert HeaderOk(m, x);
      assert x !in Live(m);
    }
    assert FreeRun(m, m.first, m.end);
  }

  /** What ucx_heap_init writes. */
  function Fresh(heap: int, len: int): Memory {
    var q := heap + len - HEADER;
    Memory({heap, q}, heap, q, map[heap := q, q := 0], map[heap := Align4(len) - 2 * HEADER, q := 0])
  }

  lemma {:induction false} FreshExact(heap: int, len: int)
    requires 0 < heap && heap % 4 == 0 && 2 * HEADER <= len && heap + len <= WORD
    ensures ChainOk(Fresh(heap, len)) <==> len % 2 == 0
    ensures Live(Fresh(heap, len)) == map[]
  {
    InitialSize(heap, len);
    FreshChain(Fresh(heap, len), heap, heap + len - HEADER, Align4(len) - 2 * HEADER);
  }

  lemma {:induction false} FreshChain(m: Memory, p: int, q: int, s: int)
    requires m == Memory({p, q}, p, q, map[p := q, q := 0], map[p := s, q := 0])
    requires 0 < p && p % 4 == 0 && p + HEADER <= q <= WORD - HEADER && s % 2 == 0
    ensures ChainOk(m) <==> q % 2 == 0
    ensures Live(m) == map[]
  {
    assert BlockOk(m, p) && HeaderOk(m, p);
    assert HeaderOk(m, q) <==> q % 2 == 0;
    assert m.Next(p) == q && m.Next(q) == 0 && Free(m.size, q) && Free(m.size, p);
    assert forall a :: a in m.headers <==> a == p || a == q;
  }

  lemma {:induction false} InitialSize(heap: int, len: int)
    requires heap % 4 == 0 && 0 <= len
    ensures (Align4(len) - 2 * HEADER) % 2 == 0 && ((heap + len - HEADER) % 2 == 0 <==> len % 2 == 0)
  {
    var a := (len + 3) % WORD / 4;
    QuotientUnique(4 * a - 2 * HEADER, 2, 2 * a - HEADER, 0);
    QuotientUnique(heap + len - HEADER, 2, 2 * (heap / 4) - 4 + len / 2, len % 2);
  }

  lemma {:induction false} EvenWord(s: int)
    requires s % 4 == 0
    ensures (s + 1) % 2 == 1
  {
    QuotientUnique(s + 1, 2, 2 * (s / 4), 1);
  }
}
