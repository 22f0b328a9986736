/** Multiplication and division of 32- and 64-bit integers by shifting, adding and subtracting. */
module IntegerArithmetic {
  import opened Arithmetic
  import opened Bits

  const W32: int := 0x1_0000_0000
  const W64: int := 0x1_0000_0000_0000_0000

  // ---------------------------------------------------------------- multiplication

  lemma {:induction false} ShiftAddStep(s: int, x: int, b: int)
    requires b >= 0
    ensures s + x * b == (if b % 2 == 1 then s + x else s) + 2 * x * (b / 2)
  {
    var h := b / 2;
    assert b == 2 * h + b % 2;
    assert x * (2 * h + b % 2) == 2 * x * h + x * (b % 2);
  }

  lemma {:induction false} DoubleWrapped(x: int, m: int)
    requires 0 < m
    ensures 2 * (x % m) % m == 2 * x % m
  {
    ModSum(x, x, m);
  }

  /** The shift-and-add loop on words of `m` values. */
  method ShiftAdd(a: int, b: int, m: int) returns (answer: int)
    requires 0 <= a < m && 0 <= b < m
    ensures answer == a * b % m
  {
    var x, y := a, b;
    answer := 0;
    ghost var exact, shifted := 0, a;
    SmallRemainder(a, m);
    SmallRemainder(0, m);
    while y > 0
      invariant 0 <= y && x == shifted % m && answer == exact % m && exact + shifted * y == a * b
      decreases y
    {
      ShiftAddStep(exact, shifted, y);
      if y % 2 == 1 {
        ModSum(exact, shifted, m);
        answer := (answer + x) % m;
        exact := exact + shifted;
      }
      DoubleWrapped(shifted, m);
      x := 2 * x % m;
      shifted := 2 * shifted;
      y := y / 2;
    }
  }

  /** __mulsi3 */
  method Mulsi3(a: int, b: int) returns (answer: int)
    requires 0 <= a < W32 && 0 <= b < W32
    ensures answer == a * b % W32
  {
    answer := ShiftAdd(a, b, W32);
  }

  /** __muldsi3: the 64-bit product of 32-bit factors never wraps. */
  method Muldsi3(a: int, b: int) returns (answer: int)
    requires 0 <= a < W32 && 0 <= b < W32
    ensures answer == a * b && 0 <= answer < W64
  {
    answer := ShiftAdd(a, b, W64);
    ProductRange(a, b);
    SmallRemainder(a * b, W64);
  }

  lemma {:induction false} ProductRange(a: int, b: int)
    requires 0 <= a < W32 && 0 <= b < W32
    ensures 0 <= a * b < W64
  {
    MulMonotone(a, W32 - 1, b);
    MulMonotone(0, a, b);
    BelowSquare(b, (W32 - 1) * b);
  }

  lemma {:induction false} BelowSquare(b: int, x: int)
    requires 0 <= b < W32 && x == (W32 - 1) * b
    ensures x < W64
  {
    assert x <= (W32 - 1) * (W32 - 1);
  }

  /** __muldi3: three partial products give the product modulo 2^64. */
  method Muldi3(a: int, b: int) returns (v: int)
    requires 0 <= a < W64 && 0 <= b < W64
    ensures v == a * b % W64
  {
    var al, ah, bl, bh := a % W32, a / W32, b % W32, b / W32;
    v := Muldsi3(al, bl);
    var x := Mulsi3(al, bh);
    var y := Mulsi3(ah, bl);
    v := (v + (x + y) % W32 * W32) % W64;
    PartialProducts(a, b, al, ah, bl, bh);
  }

  lemma {:induction false} Schoolbook(al: int, ah: int, bl: int, bh: int, w: int)
    ensures (ah * w + al) * (bh * w + bl) == al * bl + (al * bh + ah * bl) * w + ah * bh * (w * w)
  {
    assert (ah * w + al) * (bh * w + bl) == (ah * w) * (bh * w) + (ah * w) * bl + al * (bh * w) + al * bl;
    assert (ah * w) * (bh * w) == ah * bh * (w * w);
    assert (ah * w) * bl == ah * bl * w && al * (bh * w) == al * bh * w;
    assert (al * bh + ah * bl) * w == al * bh * w + ah * bl * w;
  }

  lemma {:induction false} PartialProducts(a: int, b: int, al: int, ah: int, bl: int, bh: int)
    requires a == ah * W32 + al && b == bh * W32 + bl
    ensures (al * bl + ((al * bh) % W32 + (ah * bl) % W32) % W32 * W32) % W64 == a * b % W64
  {
    ModSum(al * bh, ah * bl, W32);
    var t := al * bh + ah * bl;
    var k := t / W32;
    assert t == k * W32 + t % W32;
    Schoolbook(al, ah, bl, bh, W32);
    Truncated(al * bl, t, k, ah * bh);
  }

  lemma {:induction false} Truncated(p: int, t: int, k: int, h: int)
    requires t == k * W32 + t % W32
    ensures (p + t % W32 * W32) % W64 == (p + t * W32 + h * (W32 * W32)) % W64
  {
    assert t * W32 == k * W64 + t % W32 * W32;
    assert p + t * W32 + h * (W32 * W32) == p + t % W32 * W32 + (k + h) * W64;
    ModShift(p + t % W32 * W32, k + h, W64);
  }

  // ---------------------------------------------------------------- unsigned division

  lemma {:induction false} Halve(d: int, i: nat)
    requires i > 0
    ensures d * Pow2(i) / 2 == d * Pow2(i - 1) && Pow2(i) / 2 == Pow2(i - 1) && d * Pow2(i) == 2 * (d * Pow2(i - 1))
  {
    assert d * (2 * Pow2(i - 1)) == 2 * (d * Pow2(i - 1));
  }

  lemma {:induction false} TakeBit(q: int, bit: int, d: int, num: int)
    ensures q * d + num == (q + bit) * d + (num - d * bit)
  {
    assert (q + bit) * d == q * d + d * bit;
  }

  /** Restoring division on words of 2 * top values; division by zero gives 0. */
  method Divide(num: int, den: int, top: int) returns (quot: int, rem: int)
    requires 0 < top && 0 <= num < 2 * top && 0 <= den < 2 * top
    ensures den == 0 ==> quot == 0 && rem == 0
    ensures den != 0 ==> quot == num / den && rem == num % den
  {
    if den == 0 {
      return 0, 0;
    }
    var d, qbit := den, 1;
    ghost var i: nat := 0;
    while d < top
      invariant den <= d < 2 * top && d == den * Pow2(i) && qbit == Pow2(i)
      decreases top - d
    {
      d, qbit := 2 * d, 2 * qbit;
      i := i + 1;
      assert den * Pow2(i) == 2 * (den * Pow2(i - 1));
    }
    quot, rem := 0, num;
    while qbit > 0
      invariant 0 <= qbit && 0 <= rem && num == quot * den + rem
      invariant qbit > 0 ==> qbit == Pow2(i) && d == den * Pow2(i) && rem < 2 * d
      invariant qbit == 0 ==> rem < den
      decreases qbit
    {
      if d <= rem {
        TakeBit(quot, qbit, den, rem);
        rem := rem - d;
        quot := quot + qbit;
      }
      if i > 0 {
        Halve(den, i);
        i := i - 1;
      } else {
        assert den * 1 == den;
      }
      d, qbit := d / 2, qbit / 2;
    }
    QuotientUnique(num, den, quot, rem);
  }

  /** __udivmodsi4 */
  method Udivmodsi4(num: int, den: int, mod: bool) returns (v: int)
    requires 0 <= num < W32 && 0 <= den < W32
    ensures v == if den == 0 then 0 else if mod then num % den else num / den
  {
    var quot, rem := Divide(num, den, W32 / 2);
    v := if mod then rem else quot;
  }

  /** __udivmoddi4; the remainder is not written for a zero divisor, which leaves `before`. */
  method Udivmoddi4(num: int, den: int, before: int) returns (quot: int, rem: int)
    requires 0 <= num < W64 && 0 <= den < W64
    ensures den == 0 ==> quot == 0 && rem == before
    ensures den != 0 ==> num == quot * den + rem && 0 <= rem < den
  {
    if den == 0 {
      return 0, before;
    }
    quot, rem := Divide(num, den, W64 / 2);
  }

  // ---------------------------------------------------------------- signed division

  /** Two's complement: the value of a word of `w` values. */
  function Wrap(x: int, w: int): int
    requires w > 0
  {
    if x % w < w / 2 then x % w else x % w - w
  }

  predicate SignedWord(x: int, w: int) {
    w > 0 && w % 2 == 0 && -(w / 2) <= x < w / 2
  }

  function Abs(x: int): nat {
    if x < 0 then -x else x
  }

  /** The quotient truncated toward zero, and the remainder that goes with it. */
  function Truncate(n: int, d: int): int
    requires d != 0
  {
    if (n < 0) == (d < 0) then Abs(n) / Abs(d) else -(Abs(n) / Abs(d))
  }

  function Remainder(n: int, d: int): int
    requires d != 0
  {
    n - d * Truncate(n, d)
  }

  lemma {:induction false} RemainderFollowsDividend(n: int, d: int)
    requires d != 0
    ensures Remainder(n, d) == if n < 0 then -(Abs(n) % Abs(d)) else Abs(n) % Abs(d)
  {
    var q: int := Abs(n) / Abs(d);
    var a := Abs(d);
    assert Abs(n) == a * q + Abs(n) % a;
    SignedProduct(d, q);
  }

  lemma {:induction false} SignedProduct(d: int, q: int)
    ensures d * q == (if d < 0 then -(Abs(d) * q) else Abs(d) * q) && d * -q == -(d * q)
  {
  }

  lemma {:induction false} WrapSmall(x: int, w: int)
    requires w > 0 && w % 2 == 0 && -(w / 2) <= x < w / 2
    ensures Wrap(x, w) == x
  {
    if x < 0 {
      QuotientUnique(x, w, -1, x + w);
    } else {
      SmallRemainder(x, w);
    }
  }

  /** Negating a word and reading it unsigned gives the absolute value, INT_MIN included. */
  lemma {:induction false} NegatedWord(x: int, w: int)
    requires SignedWord(x, w)
    ensures Wrap(if x < 0 then Wrap(-x, w) else x, w) % w == Abs(x)
  {
    var a := Abs(x);
    SmallRemainder(a, w);
    var y := Wrap(a, w);
    if a == w / 2 {
      assert y == a - w;
      QuotientUnique(a - w, w, -1, a);
      WrapSmall(y, w);
    } else {
      WrapSmall(a, w);
    }
  }

  lemma {:induction false} NegatedWrap(u: int, w: int)
    requires w > 0
    ensures Wrap(-Wrap(u, w), w) == Wrap(-u, w)
  {
    var k := u / w;
    assert u == k * w + u % w;
    if u % w < w / 2 {
      assert -(u % w) == -u + k * w;
      ModShift(-u, k, w);
    } else {
      assert (k + 1) * w == k * w + w;
      assert -(u % w - w) == -u + (k + 1) * w;
      ModShift(-u, k + 1, w);
    }
  }

  /** The shared body of the signed divisions, on words of 2 * top values. */
  method SignedDivide(num: int, den: int, top: int) returns (quot: int, rem: int)
    requires 0 < top && SignedWord(num, 2 * top) && SignedWord(den, 2 * top)
    ensures den == 0 ==> quot == 0 && rem == 0
    ensures den != 0 ==> quot == Wrap(Truncate(num, den), 2 * top)
    ensures den != 0 ==> rem == if (num < 0) == (den < 0) then Abs(num) % Abs(den) else -(Abs(num) % Abs(den))
  {
    var w := 2 * top;
    var n, d, neg := num, den, false;
    if num < 0 {
      n, neg := Wrap(-n, w), true;
    }
    if den < 0 {
      d, neg := Wrap(-d, w), !neg;
    }
    NegatedWord(num, w);
    NegatedWord(den, w);
    WrapIdempotent(n, w);
    WrapIdempotent(d, w);
    var q, r := Divide(n % w, d % w, top);
    quot, rem := Wrap(q, w), Wrap(r, w);
    NegatedWrap(q, w);
    NegatedWrap(r, w);
    if neg {
      quot, rem := Wrap(-quot, w), Wrap(-rem, w);
    }
    if den == 0 {
      WrapSmall(0, w);
    } else {
      WrapSmall(r, w);
      WrapSmall(-r, w);
    }
  }

  /** __divmodsi4 */
  method Divmodsi4(num: int, den: int, mod: bool) returns (v: int)
    requires SignedWord(num, W32) && SignedWord(den, W32)
    ensures den == 0 ==> v == 0
    ensures den != 0 && !mod && !(num == -0x8000_0000 && den == -1) ==> v == Truncate(num, den)
    ensures den != 0 && mod ==> (v == Remainder(num, den) <==> den > 0 || Remainder(num, den) == 0)
  {
    var quot, rem := SignedDivide(num, den, W32 / 2);
    v := if mod then rem else quot;
    if den != 0 {
      QuotientFits(num, den, W32 / 2);
      RemainderExact(num, den);
    }
  }

  lemma {:induction false} WrapIdempotent(x: int, w: int)
    requires w > 0
    ensures Wrap(x, w) % w == x % w
  {
    var k := x / w;
    assert x == k * w + x % w;
    if x % w >= w / 2 {
      AddModulus(x % w - w, w);
      SmallRemainder(x % w, w);
    } else {
      SmallRemainder(x % w, w);
    }
  }

  /** The truncated quotient fits its word except for INT_MIN / -1. */
  lemma {:induction false} QuotientFits(n: int, d: int, top: int)
    requires 0 < top && SignedWord(n, 2 * top) && SignedWord(d, 2 * top) && d != 0
    ensures Wrap(Truncate(n, d), 2 * top) == Truncate(n, d) <==> !(n == -top && d == -1)
  {
    var q := Abs(n) / Abs(d);
    QuotientAtMost(Abs(n), Abs(d));
    if n == -top && d == -1 {
      QuotientUnique(top, 1, top, 0);
      SmallRemainder(top, 2 * top);
    } else {
      if Abs(n) == top && Abs(d) == 1 {
        QuotientUnique(top, 1, top, 0);
      }
      WrapSmall(Truncate(n, d), 2 * top);
    }
  }

  lemma {:induction false} QuotientAtMost(x: nat, y: nat)
    requires y > 0
    ensures 0 <= x / y <= x && (y >= 2 && x > 0 ==> x / y < x)
  {
    var q := x / y;
    assert x == q * y + x % y;
    if q > 0 {
      MulMonotone(1, y, q);
      if y >= 2 {
        MulMonotone(2, y, q);
      }
    }
  }

  /** The remainder the code computes is the right one exactly for positive divisors, and for
      divisions that come out even. */
  lemma {:induction false} RemainderExact(n: int, d: int)
    requires d != 0
    ensures (if (n < 0) == (d < 0) then Abs(n) % Abs(d) else -(Abs(n) % Abs(d))) == Remainder(n, d)
            <==> d > 0 || Remainder(n, d) == 0
  {
    RemainderFollowsDividend(n, d);
  }

  /** 7 % -2 comes out as -1 on 32-bit words, where the remainder of the truncated division is 1. */
  method NegativeDivisorFails() returns (v: int)
    ensures v == -1 && Remainder(7, -2) == 1
  {
    var quot;
    quot, v := SignedDivide(7, -2, W32 / 2);
  }
}
