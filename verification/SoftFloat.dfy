/** Single-precision division in software, and its rounding. */
module SoftFloat {
  import opened Arithmetic
  import opened Bits

  const SIGNBIT: int := 0x8000_0000
  const HIDDEN: int := 0x80_0000
  const EXCESS: int := 126

  /** A binary32 word. */
  type Float = w: int | 0 <= w < 0x1_0000_0000

  function Sign(w: Float): int {
    w / SIGNBIT
  }

  function Exp(w: Float): int {
    w / HIDDEN % 256
  }

  function Mant(w: Float): int {
    w % HIDDEN + HIDDEN
  }

  /** (s) | ((e) << 23) | (m) on 32 bits, for a significand below HIDDEN: the shifted exponent may
      reach the sign bit. */
  function Pack(negative: bool, e: int, m: int): Float
    requires 0 <= m < HIDDEN
  {
    (if negative || e % 512 >= 256 then SIGNBIT else 0) + e % 256 * HIDDEN + m
  }

  lemma {:induction false} PackFields(negative: bool, e: int, m: int)
    requires 0 <= m < HIDDEN && 0 <= e < 256
    ensures var w := Pack(negative, e, m);
            Sign(w) == (if negative then 1 else 0) && Exp(w) == e && Mant(w) == m + HIDDEN
  {
    var w, s := Pack(negative, e, m), if negative then 1 else 0;
    SmallRemainder(e, 256);
    SmallRemainder(e, 512);
    QuotientUnique(w, SIGNBIT, s, e * HIDDEN + m);
    assert w == (256 * s + e) * HIDDEN + m;
    QuotientUnique(w, HIDDEN, 256 * s + e, m);
    QuotientUnique(256 * s + e, 256, s, e);
  }

  /** An exponent out of range loses its high bits, and the ninth lands on the sign. */
  lemma {:induction false} PackAny(negative: bool, e: int, m: int)
    requires 0 <= m < HIDDEN
    ensures var w := Pack(negative, e, m);
            && Sign(w) == (if negative || e % 512 >= 256 then 1 else 0) && Exp(w) == e % 256 && Mant(w) == m + HIDDEN
  {
    var s := negative || e % 512 >= 256;
    SmallRemainder(e % 256, 512);
    SmallRemainder(e % 256, 256);
    assert Pack(negative, e, m) == Pack(s, e % 256, m);
    PackFields(s, e % 256, m);
  }

  // ---------------------------------------------------------------- the quotient of significands

  /** 25 bits of n / d, rounded to 24 by adding one and dropping the last bit. */
  function Rounded(n: int, d: int): int
    requires d > 0
  {
    (n * 0x100_0000 / d + 1) / 2
  }

  /** The word __divsf3 returns. Division by +0 returns the integers the code calls NaN, converted to
      a float: 2^32 and 2^31. */
  function Quotient(a: Float, b: Float): Float {
    var negative := Sign(a) != Sign(b);
    if b == 0 then (if negative then 0x4F80_0000 else 0x4F00_0000)
    else if a == 0 then 0
    else
      var small := Mant(a) < Mant(b);
      var r := Rounded(if small then 2 * Mant(a) else Mant(a), Mant(b));
      Pack(negative, Exp(a) - Exp(b) + EXCESS + (if small then 0 else 1), r % HIDDEN)
  }

  /** Rounding never carries out of 24 bits. */
  lemma {:induction false} RoundedRange(a: int, d: int)
    requires HIDDEN <= a < 2 * HIDDEN && HIDDEN <= d < 2 * HIDDEN
    ensures var n := if a < d then 2 * a else a; d <= n < 2 * d && HIDDEN <= Rounded(n, d) < 2 * HIDDEN
  {
    var n := if a < d then 2 * a else a;
    var t := n * 0x100_0000 / d;
    var r := n * 0x100_0000 % d;
    assert n * 0x100_0000 == t * d + r;
    assert (t + 1) * d == t * d + d;
    if t < 0x100_0000 {
      MulMonotone(t + 1, 0x100_0000, d);
    }
    if t >= 0x1FF_FFFF {
      MulMonotone(0x1FF_FFFF, t, d);
    }
  }

  /** An odd factor leaves all the twos to the other one. */
  lemma {:induction false} OddFactor(t: int, d: int, n: int, k: nat)
    requires t % 2 == 1 && t * d == n * Pow2(k) && d > 0
    ensures d >= Pow2(k)
  {
    if k > 0 {
      assert n * Pow2(k) == 2 * (n * Pow2(k - 1));
      EvenFactor(t, d);
      assert t * d == 2 * (t * (d / 2));
      OddFactor(t, d / 2, n, k - 1);
    }
  }

  lemma {:induction false} EvenFactor(t: int, d: int)
    requires t % 2 == 1 && t * d % 2 == 0
    ensures d % 2 == 0
  {
    var h := t / 2;
    assert t * d == 2 * (h * d) + d;
  }

  /** The rounded quotient is strictly within half a unit of the exact one: ties cannot occur. */
  lemma {:induction false} RoundedNearest(n: int, d: int)
    requires 0 < d < 0x100_0000 && 0 <= n
    ensures -d < 2 * (Rounded(n, d) * d - n * HIDDEN) < d
  {
    var t, r := n * 0x100_0000 / d, n * 0x100_0000 % d;
    var q := Rounded(n, d);
    assert n * 0x100_0000 == t * d + r;
    if t % 2 == 0 {
      assert t == 2 * q;
      assert t * d == 2 * (q * d);
    } else {
      assert t + 1 == 2 * q;
      assert (t + 1) * d == 2 * (q * d) && (t + 1) * d == t * d + d;
      if r == 0 {
        Pow2Values();
        OddFactor(t, d, n, 24);
      }
    }
  }

  // ---------------------------------------------------------------- the division loop

  lemma {:induction false} RestoringStep(n: int, d: int, q: int, rem: int, bit: int, p: int)
    requires n * p == 2 * (q * d) + rem
    ensures n * (2 * p) == 2 * ((2 * q + bit) * d) + 2 * (rem - bit * d)
  {
    assert n * (2 * p) == 2 * (n * p);
    assert (2 * q + bit) * d == 2 * (q * d) + bit * d;
  }

  /** The restoring loop: 25 quotient bits of n / d, for n already below 2 * d. */
  method Restore(n: int, d: int) returns (result: nat)
    requires 0 < d && 0 <= n < 2 * d
    ensures result == n * 0x100_0000 / d
  {
    Pow2Values();
    var rem := n;
    var mask: nat := 0x100_0000;
    result := 0;
    ghost var q: nat, i: nat := 0, 0;
    while mask > 0
      invariant 0 <= i <= 25 && mask == (if i <= 24 then Pow2(24 - i) else 0)
      invariant result == q * Pow2(25 - i)
      invariant 0 <= rem < 2 * d && n * Pow2(i) == 2 * (q * d) + rem
      decreases mask
    {
      ghost var bit := if rem >= d then 1 else 0;
      RestoringStep(n, d, q, rem, bit, Pow2(i));
      assert Pow2(25 - i) == 2 * mask && Pow2(i + 1) == 2 * Pow2(i);
      if rem >= d {
        OrDisjoint(q, mask, 25 - i);
        result := Or(result, mask);
        rem := rem - d;
      }
      NextBit(q, bit, mask);
      rem := 2 * rem;
      mask := mask / 2;
      q, i := 2 * q + bit, i + 1;
    }
    Finish(n, d, q, rem);
    assert q * 1 == q;
  }

  lemma {:induction false} NextBit(q: int, bit: int, mask: int)
    ensures q * (2 * mask) + bit * mask == (2 * q + bit) * mask
  {
  }

  lemma {:induction false} Finish(n: int, d: int, q: int, rem: int)
    requires 0 < d && 0 <= rem < 2 * d && n * Pow2(25) == 2 * (q * d) + rem
    ensures n * 0x100_0000 / d == q
  {
    Pow2Values();
    assert Pow2(25) == 2 * Pow2(24);
    assert n * Pow2(25) == 2 * (n * 0x100_0000);
    QuotientUnique(n * 0x100_0000, d, q, n * 0x100_0000 - q * d);
  }

  /** The result for all operands, in range or not. Of two nonzero words: the significand is the one nearest to
      the quotient of the significands, both taken as normal; the exponent is the difference modulo 256; the sign
      is that of the quotient unless the exponent is out of range. Division of +0 gives 0. Division by +0 gives
      2^31, or 2^32 for a negative dividend. */
  ghost predicate QuotientMeans(a: Float, b: Float, w: Float) {
    var small := Mant(a) < Mant(b);
    var n, e := if small then 2 * Mant(a) else Mant(a), Exp(a) - Exp(b) + if small then 126 else 127;
    if b == 0 then w % HIDDEN == 0 && Sign(w) == 0 && Exp(w) == 127 + (if Sign(a) == 1 then 32 else 31)
    else if a == 0 then w == 0
    else
      && -Mant(b) < 2 * (Mant(w) * Mant(b) - n * 0x80_0000) < Mant(b)
      && Exp(w) == e % 256
      && Sign(w) == if Sign(a) != Sign(b) || e % 512 >= 256 then 1 else 0
  }

  lemma {:induction false} AllOperands(a: Float, b: Float)
    ensures QuotientMeans(a, b, Quotient(a, b))
  {
    if b == 0 {
      ByZero(a, Quotient(a, b));
    } else if a != 0 {
      var small := Mant(a) < Mant(b);
      var n, e := if small then 2 * Mant(a) else Mant(a), Exp(a) - Exp(b) + if small then 126 else 127;
      RoundedRange(Mant(a), Mant(b));
      NonzeroResult(n, Mant(b), Sign(a) != Sign(b), e, Rounded(n, Mant(b)));
    }
  }

  lemma {:induction false} NonzeroResult(n: int, d: int, negative: bool, e: int, r: int)
    requires 0 < d < 0x100_0000 && 0 <= n && r == Rounded(n, d) && HIDDEN <= r < 2 * HIDDEN
    ensures var w := Pack(negative, e, r % HIDDEN);
            && Mant(w) == r && -d < 2 * (Mant(w) * d - n * 0x80_0000) < d && Exp(w) == e % 256
            && Sign(w) == if negative || e % 512 >= 256 then 1 else 0
  {
    QuotientUnique(r, HIDDEN, 1, r - HIDDEN);
    RoundedNearest(n, d);
    PackAny(negative, e, r % HIDDEN);
  }

  lemma {:induction false} ByZero(a: Float, w: Float)
    requires w == Quotient(a, 0)
    ensures QuotientMeans(a, 0, w)
  {
    SignRange(a);
    QuotientUnique(0x4F80_0000, HIDDEN, 159, 0);
    QuotientUnique(0x4F00_0000, HIDDEN, 158, 0);
  }

  /** __divsf3 */
  method Divsf3(a: Float, b: Float) returns (w: Float)
    ensures QuotientMeans(a, b, w)
    ensures w == Quotient(a, b)
  {
    AllOperands(a, b);
    var exp := Exp(a) - Exp(b) + EXCESS;
    var negative := Sign(a) != Sign(b);
    if b == 0 {
      return if negative then 0x4F80_0000 else 0x4F00_0000;
    }
    if a == 0 {
      return 0;
    }
    var m, d := Mant(a), Mant(b);
    RoundedRange(m, d);
    if m < d {
      m, exp := 2 * m, exp - 1;
    }
    var result: int := Restore(m, d);
    result := result + 1;
    exp := exp + 1;
    result := result / 2;
    assert HIDDEN <= result < 2 * HIDDEN;
    QuotientUnique(result, HIDDEN, 1, result - HIDDEN);
    result := result - HIDDEN;              // & ~HIDDEN: the bit is set and the highest one
    w := Pack(negative, exp, result);
  }

  // ---------------------------------------------------------------- correct rounding

  predicate Normal(w: Float) {
    1 <= Exp(w) <= 254
  }

  predicate Finite(w: Float) {
    Exp(w) <= 254
  }

  /** The significand of a finite number: zero and the denormals have no hidden bit. */
  function Sig(w: Float): nat {
    if Exp(w) == 0 then w % HIDDEN else Mant(w)
  }

  /** The exponent that goes with it. */
  function Place(w: Float): nat {
    if Exp(w) == 0 then 1 else Exp(w)
  }

  /** The value of a finite number, in units of 2^-150. */
  ghost function Scaled(w: Float): int {
    Signed(Sign(w) == 1, Sig(w) * Pow2(Place(w)))
  }

  function Signed(negative: bool, x: int): int {
    if negative then -x else x
  }

  ghost function Value(w: Float): real {
    Scaled(w) as real / Pow2(150) as real
  }

  function Abs(x: int): nat {
    if x < 0 then -x else x
  }

  /** The significands that are divided, and the exponent of the result. */
  function Numerator(a: Float, b: Float): int {
    if Mant(a) < Mant(b) then 2 * Mant(a) else Mant(a)
  }

  function ResultExp(a: Float, b: Float): int {
    Exp(a) - Exp(b) + EXCESS + if Mant(a) < Mant(b) then 0 else 1
  }

  lemma {:induction false} ResultFields(a: Float, b: Float)
    requires a != 0 && b != 0 && 0 <= ResultExp(a, b) < 256
    ensures var w := Quotient(a, b);
            && Sign(w) == (if Sign(a) != Sign(b) then 1 else 0) && Exp(w) == ResultExp(a, b)
            && Mant(w) == Rounded(Numerator(a, b), Mant(b))
  {
    RoundedRange(Mant(a), Mant(b));
    var r := Rounded(Numerator(a, b), Mant(b));
    QuotientUnique(r, HIDDEN, 1, r - HIDDEN);
    PackFields(Sign(a) != Sign(b), ResultExp(a, b), r % HIDDEN);
  }

  // Distances to the exact quotient n / d, in units of 1 / d of the last place of the result `r`.

  /** Any other number of the same or a larger exponent is farther. */
  lemma {:induction false} AboveFarther(r: int, d: int, t: int, y: int)
    requires d > 0 && -d < 2 * (r * d - t) < d && y != r
    ensures Abs(r * d - t) < Abs(y * d - t)
  {
    if y > r {
      MulMonotone(r + 1, y, d);
    } else {
      MulMonotone(y + 1, r, d);
    }
    assert (r + 1) * d == r * d + d && (y + 1) * d == y * d + d;
  }

  /** Any number of a smaller exponent is farther: with p = 2, 4, 8, ... its last place is 1 / p. */
  lemma {:induction false} BelowFarther(r: int, d: int, t: int, m: int, p: int)
    requires d > 0 && -d < 2 * (r * d - t) < d && HIDDEN <= r && HIDDEN * d <= t && p >= 2 && 0 <= m < 2 * HIDDEN
    ensures p * Abs(r * d - t) < Abs(m * d - t * p)
  {
    var g := t - HIDDEN * d;
    assert 2 * Abs(r * d - t) < 2 * g + d by {
      MulMonotone(HIDDEN, r, d);
    }
    Gap(d, t, m, p);
    Strict(p, 2 * Abs(r * d - t), 2 * g + d);
    assert p * (2 * Abs(r * d - t)) == 2 * (p * Abs(r * d - t));
  }

  lemma {:induction false} Gap(d: int, t: int, m: int, p: int)
    requires d > 0 && p >= 2 && 0 <= m < 2 * HIDDEN
    ensures 2 * (t * p - m * d) >= p * (2 * (t - HIDDEN * d) + d)
  {
    MulMonotone(2, p, 2 * HIDDEN - 1);
    MulMonotone(2 * m, p * (2 * HIDDEN - 1), d);
    assert p * (2 * HIDDEN - 1) * d == p * (2 * (HIDDEN * d) - d);
    assert p * (2 * (t - HIDDEN * d) + d) == 2 * (t * p) - p * (2 * (HIDDEN * d) - d);
    assert 2 * m * d == 2 * (m * d);
  }

  lemma {:induction false} Strict(p: int, x: int, y: int)
    requires p > 0 && x < y
    ensures p * x < p * y
  {
    assert p * y == p * x + p * (y - x);
  }

  // From significands to values.

  ghost function Unsigned(w: Float): nat {
    Sig(w) * Pow2(Place(w))
  }

  lemma {:induction false} Product(m: int, i: nat, d: int, j: nat)
    ensures (m * Pow2(i)) * (d * Pow2(j)) == m * d * Pow2(i + j)
  {
    Pow2Add(i, j);
    Regroup(m, Pow2(i), d, Pow2(j));
  }

  lemma {:induction false} Regroup(m: int, x: int, d: int, y: int)
    ensures (m * x) * (d * y) == m * d * (x * y)
  {
    Associate(m, x, d * y);
    Associate(x, d, y);
    Associate(d, x, y);
    Associate(m, d, x * y);
    assert x * d == d * x;
  }

  /** The dividend in the unit of the comparison. */
  lemma {:induction false} DividendScale(a: Float, b: Float)
    requires Normal(a) && 0 <= ResultExp(a, b)
    ensures Unsigned(a) * Pow2(150) == Numerator(a, b) * HIDDEN * Pow2(ResultExp(a, b) + Exp(b))
  {
    var k := if Mant(a) < Mant(b) then 24 else 23;
    Product(Mant(a), Exp(a), 1, 150);
    Pow2Values();
    Pow2Add(k, ResultExp(a, b) + Exp(b));
    assert Mant(a) * Pow2(k) == Numerator(a, b) * HIDDEN;
    Associate(Mant(a), Pow2(k), Pow2(ResultExp(a, b) + Exp(b)));
  }

  lemma {:induction false} Associate(x: int, y: int, z: int)
    ensures x * y * z == x * (y * z)
  {
  }

  /** A number with exponent `f`, relative to the result's exponent `e`. */
  lemma {:induction false} ScaleAbove(m: int, f: nat, e: nat, d: int, j: nat)
    requires f >= e
    ensures (m * Pow2(f)) * (d * Pow2(j)) == m * Pow2(f - e) * d * Pow2(e + j)
  {
    Product(m, f, d, j);
    Pow2Add(f - e, e + j);
    Exchange(m, d, Pow2(f - e), Pow2(e + j));
  }

  lemma {:induction false} Exchange(m: int, d: int, p: int, q: int)
    ensures m * d * (p * q) == m * p * d * q
  {
    assert m * d * (p * q) == m * d * p * q;
    assert m * d * p == m * p * d;
  }

  lemma {:induction false} ScaledAbs(x: int, y: int, w: int)
    requires w > 0
    ensures Abs(x * w - y * w) == w * Abs(x - y)
  {
    assert x * w - y * w == w * (x - y);
    if x < y {
      assert w * (x - y) < 0 by {
        Strict(w, x - y, 0);
      }
      assert -(w * (x - y)) == w * (y - x);
    }
  }

  /** Unsigned distances from the exact quotient. */
  ghost function UnsignedGap(a: Float, b: Float, w: Float): nat {
    Abs(Unsigned(w) * Unsigned(b) - Unsigned(a) * Pow2(150))
  }

  lemma {:induction false} ResultGap(a: Float, b: Float, w: Float)
    requires InRange(a, b) && Exp(w) == ResultExp(a, b) && Mant(w) == Rounded(Numerator(a, b), Mant(b))
    ensures UnsignedGap(a, b, w) == Pow2(ResultExp(a, b) + Exp(b)) * Abs(Mant(w) * Mant(b) - Numerator(a, b) * HIDDEN)
  {
    Product(Mant(w), Exp(w), Mant(b), Exp(b));
    DividendScale(a, b);
    ScaledAbs(Mant(w) * Mant(b), Numerator(a, b) * HIDDEN, Pow2(ResultExp(a, b) + Exp(b)));
  }

  lemma {:induction false} GapAbove(a: Float, b: Float, x: Float)
    requires InRange(a, b) && ResultExp(a, b) <= Place(x)
    ensures UnsignedGap(a, b, x) == Pow2(ResultExp(a, b) + Exp(b))
              * Abs(Sig(x) * Pow2(Place(x) - ResultExp(a, b)) * Mant(b) - Numerator(a, b) * HIDDEN)
  {
    ScaleAbove(Sig(x), Place(x), ResultExp(a, b), Mant(b), Exp(b));
    DividendScale(a, b);
    ScaledAbs(Sig(x) * Pow2(Place(x) - ResultExp(a, b)) * Mant(b), Numerator(a, b) * HIDDEN,
        Pow2(ResultExp(a, b) + Exp(b)));
  }

  lemma {:induction false} GapBelow(a: Float, b: Float, x: Float)
    requires InRange(a, b) && Place(x) < ResultExp(a, b)
    ensures UnsignedGap(a, b, x) == Pow2(Place(x) + Exp(b))
              * Abs(Sig(x) * Mant(b) - Numerator(a, b) * HIDDEN * Pow2(ResultExp(a, b) - Place(x)))
  {
    var e, f, j := ResultExp(a, b), Place(x), Exp(b);
    Product(Sig(x), f, Mant(b), j);
    DividendScale(a, b);
    Pow2Add(e - f, f + j);
    Associate(Numerator(a, b) * HIDDEN, Pow2(e - f), Pow2(f + j));
    ScaledAbs(Sig(x) * Mant(b), Numerator(a, b) * HIDDEN * Pow2(e - f), Pow2(f + j));
  }

  /** The operands are normal, and so is the result. */
  predicate InRange(a: Float, b: Float) {
    Normal(a) && Normal(b) && 1 <= ResultExp(a, b) <= 254
  }

  lemma {:induction false} NormalNonzero(w: Float)
    requires Normal(w)
    ensures w != 0
  {
  }

  lemma {:induction false} CompareAbove(v: int, r: int, d: int, t: int, y: int)
    requires v > 0 && d > 0 && -d < 2 * (r * d - t) < d && y != r
    ensures v * Abs(r * d - t) < v * Abs(y * d - t)
  {
    AboveFarther(r, d, t, y);
    Strict(v, Abs(r * d - t), Abs(y * d - t));
  }

  lemma {:induction false} CompareBelow(v: int, p: int, r: int, d: int, t: int, m: int)
    requires v > 0 && d > 0 && -d < 2 * (r * d - t) < d && HIDDEN <= r && HIDDEN * d <= t && p >= 2
             && 0 <= m < 2 * HIDDEN
    ensures v * p * Abs(r * d - t) < v * Abs(m * d - t * p)
  {
    BelowFarther(r, d, t, m, p);
    Strict(v, p * Abs(r * d - t), Abs(m * d - t * p));
    Associate(v, p, Abs(r * d - t));
  }

  /** The significand of the result, against the exact quotient t / d. */
  lemma {:induction false} ResultFacts(a: Float, b: Float, w: Float, t: int, d: int)
    requires InRange(a, b) && w == Quotient(a, b) && t == Numerator(a, b) * HIDDEN && d == Mant(b)
    ensures Sign(w) == (if Sign(a) != Sign(b) then 1 else 0) && Exp(w) == ResultExp(a, b)
    ensures Mant(w) == Rounded(Numerator(a, b), d)
    ensures -d < 2 * (Mant(w) * d - t) < d && HIDDEN * d <= t
  {
    NormalNonzero(a);
    NormalNonzero(b);
    ResultFields(a, b);
    RoundedRange(Mant(a), d);
    RoundedNearest(Numerator(a, b), d);
    MulMonotone(d, Numerator(a, b), HIDDEN);
  }

  lemma {:induction false} NearestAbove(a: Float, b: Float, x: Float, w: Float)
    requires InRange(a, b) && w == Quotient(a, b) && Place(x) >= ResultExp(a, b)
    requires Place(x) != ResultExp(a, b) || Sig(x) != Mant(w)
    ensures UnsignedGap(a, b, w) < UnsignedGap(a, b, x)
  {
    var e, t, d := ResultExp(a, b), Numerator(a, b) * HIDDEN, Mant(b);
    var v, y := Pow2(e + Exp(b)), Sig(x) * Pow2(Place(x) - e);
    ResultFacts(a, b, w, t, d);
    GapsAbove(a, b, x, w, v, d, t, y);
    assert Place(x) > e ==> Exp(x) > 1;
    LargerExponent(Sig(x), Place(x) - e, Mant(w), y);
    CompareAbove(v, Mant(w), d, t, y);
  }

  /** Both distances in units of the result's last place. */
  lemma {:induction false} GapsAbove(a: Float, b: Float, x: Float, w: Float, v: int, d: int, t: int, y: int)
    requires InRange(a, b) && Place(x) >= ResultExp(a, b)
    requires Exp(w) == ResultExp(a, b) && Mant(w) == Rounded(Numerator(a, b), Mant(b))
    requires v == Pow2(ResultExp(a, b) + Exp(b)) && d == Mant(b) && t == Numerator(a, b) * HIDDEN
    requires y == Sig(x) * Pow2(Place(x) - ResultExp(a, b))
    ensures UnsignedGap(a, b, w) == v * Abs(Mant(w) * d - t) && UnsignedGap(a, b, x) == v * Abs(y * d - t)
  {
    ResultGap(a, b, w);
    GapAbove(a, b, x);
  }

  lemma {:induction false} NearestBelow(a: Float, b: Float, x: Float, w: Float)
    requires InRange(a, b) && w == Quotient(a, b) && Place(x) < ResultExp(a, b)
    ensures UnsignedGap(a, b, w) < UnsignedGap(a, b, x)
  {
    var e, t, d := ResultExp(a, b), Numerator(a, b) * HIDDEN, Mant(b);
    ResultFacts(a, b, w, t, d);
    ResultGap(a, b, w);
    GapBelow(a, b, x);
    Pow2AtLeastTwo(e - Place(x));
    Pow2Add(Place(x) + Exp(b), e - Place(x));
    CompareBelow(Pow2(Place(x) + Exp(b)), Pow2(e - Place(x)), Mant(w), d, t, Sig(x));
  }

  /** Of all finite numbers, the result is the nearest in magnitude. */
  lemma {:induction false} NearestMagnitude(a: Float, b: Float, x: Float)
    requires InRange(a, b) && (Place(x) != ResultExp(a, b) || Sig(x) != Mant(Quotient(a, b)))
    ensures UnsignedGap(a, b, Quotient(a, b)) < UnsignedGap(a, b, x)
  {
    if Place(x) >= ResultExp(a, b) {
      NearestAbove(a, b, x, Quotient(a, b));
    } else {
      NearestBelow(a, b, x, Quotient(a, b));
    }
  }

  lemma {:induction false} LargerExponent(m: int, k: nat, r: int, y: int)
    requires 0 <= m < 2 * HIDDEN && HIDDEN <= r < 2 * HIDDEN && (if k > 0 then HIDDEN <= m else m != r)
    requires y == m * Pow2(k)
    ensures y != r
  {
    if k > 0 {
      Pow2AtLeastTwo(k);
      TwiceAtLeast(m, Pow2(k), y);
    } else {
      TimesOne(m, Pow2(k), y);
    }
  }

  lemma {:induction false} TwiceAtLeast(m: int, p: int, y: int)
    requires 0 <= m && 2 <= p && y == m * p
    ensures 2 * m <= y
  {
    MulMonotone(2, p, m);
    assert m * p == p * m;
  }

  lemma {:induction false} TimesOne(m: int, p: int, y: int)
    requires p == 1 && y == m * p
    ensures y == m
  {
  }

  lemma {:induction false} Pow2AtLeastTwo(k: nat)
    requires k > 0
    ensures Pow2(k) >= 2
  {
  }

  /** Its error is less than the quotient itself, so a number of the other sign is farther still. */
  lemma {:induction false} ResultGapSmall(a: Float, b: Float, w: Float)
    requires InRange(a, b) && w == Quotient(a, b)
    ensures UnsignedGap(a, b, w) < Unsigned(a) * Pow2(150)
  {
    var t, d, p := Numerator(a, b) * HIDDEN, Mant(b), Pow2(ResultExp(a, b) + Exp(b));
    ResultFacts(a, b, w, t, d);
    ResultGap(a, b, w);
    DividendScale(a, b);
    var g := Abs(Mant(w) * d - t);
    assert 2 * g < d;
    assert d <= HIDDEN * d;
    Strict(p, g, t);
    assert p * t == t * p;
  }

  /** The distance of `w` from the exact quotient, times 2^150 and times the divisor. */
  ghost function SignedGap(a: Float, b: Float, w: Float): nat {
    Abs(Scaled(w) * Scaled(b) - Scaled(a) * Pow2(150))
  }

  lemma {:induction false} SignedProducts(x: nat, y: nat, z: nat, p: nat, i: bool, j: bool, k: bool)
    ensures i == (k != j) ==> Abs(Signed(i, x) * Signed(j, y) - Signed(k, z) * p) == Abs(x * y - z * p)
    ensures i != (k != j) ==> Abs(Signed(i, x) * Signed(j, y) - Signed(k, z) * p) == x * y + z * p
  {
    Signs(x, y);
    Signs(z, p);
  }

  lemma {:induction false} Signs(x: int, y: int)
    ensures (-x) * y == -(x * y) && x * (-y) == -(x * y) && (-x) * (-y) == x * y
  {
  }

  lemma {:induction false} SignRange(w: Float)
    ensures Sign(w) == 0 || Sign(w) == 1
  {
  }

  /** Of all finite numbers of either sign, the result is the nearest to the exact quotient. */
  lemma {:induction false} NearestScaled(a: Float, b: Float, x: Float, w: Float)
    requires InRange(a, b) && w == Quotient(a, b) && (Sign(x) != Sign(w) || Place(x) != Exp(w) || Sig(x) != Mant(w))
    ensures SignedGap(a, b, w) < SignedGap(a, b, x)
  {
    ResultFacts(a, b, w, Numerator(a, b) * HIDDEN, Mant(b));
    SignRange(a);
    SignRange(b);
    SignRange(x);
    SignedProducts(Unsigned(w), Unsigned(b), Unsigned(a), Pow2(150), Sign(w) == 1, Sign(b) == 1, Sign(a) == 1);
    SignedProducts(Unsigned(x), Unsigned(b), Unsigned(a), Pow2(150), Sign(x) == 1, Sign(b) == 1, Sign(a) == 1);
    if Sign(x) == Sign(w) {
      NearestMagnitude(a, b, x);
    } else {
      ResultGapSmall(a, b, w);
      Nonnegative(Unsigned(x), Unsigned(b));
    }
  }

  lemma {:induction false} Positive(x: int, y: int)
    requires x > 0 && y > 0
    ensures x * y > 0
  {
  }

  lemma {:induction false} Nonnegative(x: int, y: int)
    requires x >= 0 && y >= 0
    ensures x * y >= 0
  {
  }

  lemma {:induction false} FieldsDetermine(x: Float, w: Float)
    requires Sign(x) == Sign(w) && Exp(x) == Exp(w) && Mant(x) == Mant(w)
    ensures x == w
  {
    assert x / SIGNBIT == x / HIDDEN / 256 && w / SIGNBIT == w / HIDDEN / 256;
  }

  // In real numbers.

  ghost function Distance(x: real, y: real): real {
    if x < y then y - x else x - y
  }

  lemma {:induction false} ProductReal(a: int, b: int)
    ensures (a * b) as real == a as real * b as real
  {
  }

  lemma {:induction false} DivideMultiply(x: real, d: real)
    requires d != 0.0
    ensures x / d * d == x
  {
  }

  /** (v - q) * (n * b) as the integer gap. */
  lemma {:induction false} GapReal(s: int, b: int, a: int, n: int, v: real, q: real)
    requires v * (n as real) == s as real && q * (b as real) == a as real
    ensures (v - q) * (n as real * b as real) == (s * b - a * n) as real
  {
    ProductReal(s, b);
    ProductReal(a, n);
    Expand(v, q, n as real, b as real);
  }

  lemma {:induction false} Expand(v: real, q: real, n: real, b: real)
    ensures (v - q) * (n * b) == v * n * b - q * b * n
  {
    assert (v - q) * (n * b) == v * (n * b) - q * (n * b);
    assert v * (n * b) == v * n * b && q * (n * b) == q * b * n;
  }

  lemma {:induction false} AbsCancel(u: real, v: real, c: real, g: int, h: int)
    requires u * c == g as real && v * c == h as real && Abs(g) < Abs(h)
    ensures Distance(u, 0.0) < Distance(v, 0.0)
  {
    var k := Distance(c, 0.0);
    AbsReal(g);
    AbsReal(h);
    AbsProduct(u, c, g as real);
    AbsProduct(v, c, h as real);
    assert Abs(g) as real < Abs(h) as real;
    OrderCancel(Distance(u, 0.0), Distance(v, 0.0), k, Abs(g) as real, Abs(h) as real);
  }

  lemma {:induction false} AbsProduct(u: real, c: real, g: real)
    requires u * c == g
    ensures Distance(u, 0.0) * Distance(c, 0.0) == Distance(g, 0.0)
  {
  }

  lemma {:induction false} OrderCancel(x: real, y: real, k: real, p: real, q: real)
    requires k >= 0.0 && x * k == p && y * k == q && p < q
    ensures x < y
  {
    assert (x - y) * k == p - q;
    assert x >= y ==> (x - y) * k >= 0.0;
  }

  lemma {:induction false} AbsReal(g: int)
    ensures Abs(g) as real == Distance(g as real, 0.0)
  {
    assert (-g) as real == -(g as real);
  }

  lemma {:induction false} NearestOther(a: Float, b: Float, x: Float, w: Float)
    requires InRange(a, b) && w == Quotient(a, b) && x != w
    ensures SignedGap(a, b, w) < SignedGap(a, b, x) && Normal(w)
  {
    ResultFacts(a, b, w, Numerator(a, b) * HIDDEN, Mant(b));
    if Sign(x) == Sign(w) && Place(x) == Exp(w) && Sig(x) == Mant(w) {
      assert Exp(x) != 0;
      FieldsDetermine(x, w);
    }
    NearestScaled(a, b, x, w);
  }

  /** __divsf3 is correctly rounded: for normal operands and a normal result, it returns the finite number
      nearest to the exact quotient, and no other, zero and denormals included, is as near. */
  lemma {:induction false} CorrectlyRounded(a: Float, b: Float, x: Float)
    requires InRange(a, b) && Finite(x) && x != Quotient(a, b)
    ensures Normal(Quotient(a, b)) && Value(b) != 0.0
    ensures Distance(Value(Quotient(a, b)), Value(a) / Value(b)) < Distance(Value(x), Value(a) / Value(b))
  {
    NearestOther(a, b, x, Quotient(a, b));
    GapsAsDistances(a, b, Quotient(a, b), x);
  }

  lemma {:induction false} GapsAsDistances(a: Float, b: Float, w: Float, x: Float)
    requires Normal(b) && SignedGap(a, b, w) < SignedGap(a, b, x)
    ensures Value(b) != 0.0 && Distance(Value(w), Value(a) / Value(b)) < Distance(Value(x), Value(a) / Value(b))
  {
    var n: int := Pow2(150);
    var sa, sb, sw, sx := Scaled(a), Scaled(b), Scaled(w), Scaled(x);
    ScaledNonzero(b);
    FromGaps(sw, sx, sa, sb, n);
  }

  lemma {:induction false} ScaledNonzero(w: Float)
    requires Normal(w)
    ensures Scaled(w) != 0
  {
    Positive(Mant(w), Pow2(Exp(w)));
  }

  lemma {:induction false} FromGaps(sw: int, sx: int, sa: int, sb: int, n: int)
    requires n > 0 && sb != 0 && Abs(sw * sb - sa * n) < Abs(sx * sb - sa * n)
    ensures sb as real / n as real != 0.0
    ensures var q := sa as real / n as real / (sb as real / n as real);
            Distance(sw as real / n as real, q) < Distance(sx as real / n as real, q)
  {
    var vw, vx, va, vb := sw as real / n as real, sx as real / n as real, sa as real / n as real,
        sb as real / n as real;
    DivideMultiply(sw as real, n as real);
    DivideMultiply(sx as real, n as real);
    QuotientOf(sa as real, sb as real, n as real);
    OfGaps(sw, sx, sa, sb, n, vw, vx, va / vb);
  }

  lemma {:induction false} QuotientOf(a: real, b: real, n: real)
    requires b != 0.0 && n > 0.0
    ensures b / n != 0.0 && a / n / (b / n) * b == a
  {
    var va, vb := a / n, b / n;
    DivideMultiply(a, n);
    DivideMultiply(b, n);
    assert vb != 0.0;
    DivideMultiply(va, vb);
    SameQuotient(va / vb, va, vb, n);
  }

  lemma {:induction false} SameQuotient(q: real, x: real, y: real, n: real)
    requires q * y == x
    ensures q * (y * n) == x * n
  {
    assert q * (y * n) == q * y * n;
  }

  lemma {:induction false} OfGaps(sw: int, sx: int, sa: int, sb: int, n: int, vw: real, vx: real, q: real)
    requires Abs(sw * sb - sa * n) < Abs(sx * sb - sa * n)
    requires vw * (n as real) == sw as real && vx * (n as real) == sx as real && q * (sb as real) == sa as real
    ensures Distance(vw, q) < Distance(vx, q)
  {
    GapReal(sw, sb, sa, n, vw, q);
    GapReal(sx, sb, sa, n, vx, q);
    AbsCancel(vw - q, vx - q, n as real * sb as real, sw * sb - sa * n, sx * sb - sa * n);
  }
}
