/** Machine words as numbers: bitwise or, powers of two, shifts. */
module Bits {
  import opened Arithmetic

  /** Bitwise or of two naturals. */
  function Or(a: nat, b: nat): nat {
    if a == 0 then b else if b == 0 then a
    else 2 * Or(a / 2, b / 2) + (if a % 2 == 1 || b % 2 == 1 then 1 else 0)
  }

  function Pow2(k: nat): (r: nat)
    ensures r > 0
  {
    if k == 0 then 1 else 2 * Pow2(k - 1)
  }

  /** Or of words without common bits is their sum. */
  lemma {:induction false} OrDisjoint(a: nat, b: nat, k: nat)
    requires b < Pow2(k)
    ensures Or(a * Pow2(k), b) == a * Pow2(k) + b
  {
    if k > 0 && a != 0 && b != 0 {
      var x := a * Pow2(k - 1);
      assert a * Pow2(k) == 2 * x by {
        assert a * (2 * Pow2(k - 1)) == 2 * (a * Pow2(k - 1));
      }
      OrDisjoint(a, b / 2, k - 1);
      OrStep(x, b);
    } else if k == 0 {
      assert b == 0 && a * 1 == a;
    }
  }

  lemma {:induction false} OrStep(x: nat, b: nat)
    requires Or(x, b / 2) == x + b / 2
    ensures Or(2 * x, b) == 2 * x + b
  {
  }

  lemma {:induction false} Pow2Add(i: nat, j: nat)
    ensures Pow2(i + j) == Pow2(i) * Pow2(j)
  {
    if i > 0 {
      Pow2Add(i - 1, j);
      Doubled(Pow2(i - 1), Pow2(j), Pow2(i));
    }
  }

  lemma {:induction false} Doubled(a: nat, b: nat, c: nat)
    requires c == 2 * a
    ensures c * b == 2 * (a * b)
  {
  }

  lemma {:induction false} Pow2Monotone(i: nat, j: nat)
    requires i <= j
    ensures Pow2(i) <= Pow2(j)
  {
    if i < j {
      Pow2Monotone(i, j - 1);
    }
  }

  lemma {:induction false} Pow2Values()
    ensures Pow2(8) == 0x100 && Pow2(16) == 0x1_0000 && Pow2(23) == 0x80_0000 && Pow2(24) == 0x100_0000
    ensures Pow2(31) == 0x8000_0000 && Pow2(32) == 0x1_0000_0000
  {
    assert Pow2(4) == 16;
    Pow2Add(4, 4);
    Pow2Add(8, 8);
    Pow2Add(16, 8);
    Pow2Add(16, 16);
    assert Pow2(24) == 2 * Pow2(23) && Pow2(32) == 2 * Pow2(31);
  }

  /** Bitwise and of two naturals. */
  function And(a: nat, b: nat): nat {
    if a == 0 || b == 0 then 0
    else 2 * And(a / 2, b / 2) + (if a % 2 == 1 && b % 2 == 1 then 1 else 0)
  }

  ghost predicate IsPow2(x: nat) {
    exists k: nat :: Pow2(k) == x
  }

  lemma {:induction false} AndSelf(x: nat)
    ensures And(x, x) == x
  {
    if x > 0 {
      AndSelf(x / 2);
    }
  }

  lemma {:induction false} AndTwice(x: nat, y: nat, a: nat, b: nat)
    requires a <= 1 && b <= 1
    ensures And(2 * x + a, 2 * y + b) == 2 * And(x, y) + a * b
  {
    assert (2 * x + a) / 2 == x && (2 * y + b) / 2 == y;
    assert x == 0 || y == 0 ==> And(x, y) == 0;
  }

  lemma {:induction false} HalfPow2(y: nat)
    ensures IsPow2(2 * y) <==> IsPow2(y)
  {
    if IsPow2(2 * y) {
      var k: nat :| Pow2(k) == 2 * y;
      assert k > 0 && Pow2(k - 1) == y;
    }
    if IsPow2(y) {
      var k: nat :| Pow2(k) == y;
      assert Pow2(k + 1) == 2 * y;
    }
  }

  lemma {:induction false} OddPow2(x: nat)
    requires x % 2 == 1
    ensures IsPow2(x) <==> x == 1
  {
    assert Pow2(0) == 1;
    if IsPow2(x) {
      var k: nat :| Pow2(k) == x;
      assert k > 0 ==> Pow2(k) == 2 * Pow2(k - 1);
    }
  }

  /** x & (x - 1) clears the lowest bit, so it is zero exactly for powers of two. */
  lemma {:induction false} AndPrevious(x: nat)
    requires x > 0
    ensures And(x, x - 1) == 0 <==> IsPow2(x)
  {
    var y := x / 2;
    if x % 2 == 1 {
      AndTwice(y, y, 1, 0);
      AndSelf(y);
      OddPow2(x);
    } else {
      AndTwice(y, y - 1, 0, 1);
      AndPrevious(y);
      HalfPow2(y);
    }
  }

  /** Masking with 2^k - 1 is the remainder modulo 2^k. */
  lemma {:induction false} AndMask(x: nat, k: nat)
    ensures And(x, Pow2(k) - 1) == x % Pow2(k)
  {
    if k > 0 {
      AndMask(x / 2, k - 1);
      AndOdd(x, Pow2(k - 1) - 1);
      MaskStep(x, Pow2(k - 1), And(x / 2, Pow2(k - 1) - 1), And(x, 2 * (Pow2(k - 1) - 1) + 1));
      assert Pow2(k) - 1 == 2 * (Pow2(k - 1) - 1) + 1;
    }
  }

  lemma {:induction false} MaskStep(x: nat, p: nat, low: nat, all: nat)
    requires p > 0 && low == x / 2 % p && all == 2 * low + x % 2
    ensures all == x % (2 * p)
  {
    HalvedRemainder(x, p);
  }

  lemma {:induction false} AndOdd(x: nat, q: nat)
    ensures And(x, 2 * q + 1) == 2 * And(x / 2, q) + x % 2
  {
    var h, a := x / 2, x % 2;
    assert x == 2 * h + a;
    AndTwice(h, q, a, 1);
    assert a * 1 == a;
  }

  // ---------------------------------------------------------------- smearing the highest bit

  lemma {:induction false} OrTwice(x: nat, y: nat, a: nat, b: nat)
    requires a <= 1 && b <= 1
    ensures Or(2 * x + a, 2 * y + b) == 2 * Or(x, y) + if a + b > 0 then 1 else 0
  {
    assert (2 * x + a) / 2 == x && (2 * y + b) / 2 == y;
  }

  /** High bits pass through an or with a smaller word, and no bit is lost. */
  lemma {:induction false} OrSplit(a: nat, l: nat, y: nat, m: nat)
    requires l < Pow2(m) && y < Pow2(m)
    ensures Or(a * Pow2(m) + l, y) == a * Pow2(m) + Or(l, y)
    ensures l <= Or(l, y) < Pow2(m) && y <= Or(l, y)
  {
    if m > 0 {
      var half, all := a * Pow2(m - 1), a * Pow2(m);
      DoubledRight(a, Pow2(m - 1), Pow2(m));
      OrSplit(a, l / 2, y / 2, m - 1);
      OrSplitTwice(half, all, l, y, l / 2, y / 2, Pow2(m - 1));
    } else {
      assert a * 1 == a;
    }
  }

  lemma {:induction false} OrSplitTwice(half: nat, all: nat, l: nat, y: nat, h: nat, k: nat, u: nat)
    requires all == 2 * half && 2 * h <= l <= 2 * h + 1 && 2 * k <= y <= 2 * k + 1
    requires h <= Or(h, k) < u && k <= Or(h, k) && Or(half + h, k) == half + Or(h, k)
    ensures Or(all + l, y) == all + Or(l, y) && l <= Or(l, y) < 2 * u && y <= Or(l, y)
  {
    OrTwice(half + h, k, l - 2 * h, y - 2 * k);
    OrTwice(h, k, l - 2 * h, y - 2 * k);
    assert 2 * (half + h) + (l - 2 * h) == all + l;
  }

  lemma {:induction false} DoubledRight(a: nat, b: nat, c: nat)
    requires c == 2 * b
    ensures a * c == 2 * (a * b)
  {
  }

  function Least(i: nat, j: nat): nat {
    if i <= j then i else j
  }

  /** The top `c` of the b + 1 bits of `x` are ones. */
  ghost predicate LeadingOnes(x: nat, b: nat, c: nat) {
    c <= b + 1 && Pow2(b + 1) - Pow2(b + 1 - c) <= x < Pow2(b + 1)
  }

  lemma {:induction false} ShiftNonnegative(x: nat, p: nat)
    requires p > 0
    ensures 0 <= x / p
  {
    SmallRemainder(0, p);
    DivideMonotone(0, x, p);
  }

  function ShiftRight(x: nat, s: nat): nat {
    ShiftNonnegative(x, Pow2(s));
    x / Pow2(s)
  }

  lemma {:induction false} SmearOnce(x: nat, c: nat, m: nat, t: nat)
    requires t == Pow2(c) * Pow2(m) && t - Pow2(m) <= x < t
    ensures var z := Or(x, ShiftRight(x, c)); t - Pow2(m) + ShiftRight(x, c) <= z < t
  {
    var y := ShiftRight(x, c);
    ShiftedOnes(x, Pow2(c), Pow2(m), y);
    var a, l := Pow2(c) - 1, x - (t - Pow2(m));
    assert a * Pow2(m) == t - Pow2(m);
    OrSplit(a, l, y, m);
  }

  /** x |= x >> c doubles the number of leading ones. */
  lemma {:induction false} Smear(x: nat, b: nat, c: nat)
    requires LeadingOnes(x, b, c) && c > 0
    ensures LeadingOnes(Or(x, ShiftRight(x, c)), b, Least(2 * c, b + 1))
  {
    var m, t := b + 1 - c, Pow2(b + 1);
    Pow2Add(c, m);
    SmearOnce(x, c, m, t);
    if 2 * c <= b + 1 {
      Pow2Add(c, m - c);
      LowBound(x, Pow2(c), Pow2(m), Pow2(m - c), ShiftRight(x, c));
    } else {
      Pow2Add(m, c - m);
      FullBound(x, Pow2(c), Pow2(m), Pow2(c - m), ShiftRight(x, c));
      assert Pow2(0) == 1;
    }
  }

  lemma {:induction false} ShiftedOnes(x: int, p: int, q: int, y: int)
    requires 0 < p && 0 < q && 0 <= x < p * q && y == x / p
    ensures 0 <= y < q
  {
    assert x == y * p + x % p && q * p == p * q;
    if y >= q {
      MulMonotone(q, y, p);
    }
    if y <= -1 {
      MulMonotone(y, -1, p);
    }
  }

  lemma {:induction false} LowBound(x: int, p: int, q: int, r: int, y: int)
    requires 0 < p && q == p * r && p * q - q <= x && y == x / p
    ensures y >= q - r
  {
    assert x == y * p + x % p && (q - r - 1) * p == p * q - p * r - p;
    if y <= q - r - 1 {
      MulMonotone(y, q - r - 1, p);
    }
  }

  lemma {:induction false} FullBound(x: int, p: int, q: int, r: int, y: int)
    requires 0 < p && 0 < r && p == q * r && p * q - q <= x && y == x / p && q > 0
    ensures y >= q - 1
  {
    assert x == y * p + x % p && (q - 2) * p == p * q - 2 * p && r * q == q * r;
    MulMonotone(1, r, q);
    if y <= q - 2 {
      MulMonotone(y, q - 2, p);
    }
  }
}
