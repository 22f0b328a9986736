/** The few facts about products, quotients and remainders the proofs need. */
module Arithmetic {

  lemma {:induction false} MulMonotone(a: int, b: int, m: int)
    requires a <= b && 0 <= m
    ensures a * m <= b * m
  {
    assert (b - a) * m >= 0;
  }

  lemma {:induction false} QuotientUnique(a: int, m: int, q: int, r: int)
    requires 0 < m && 0 <= r < m && a == q * m + r
    ensures a / m == q && a % m == r
  {
    var d := a / m;
    assert a == d * m + a % m;
    assert (q + 1) * m == q * m + m && (d + 1) * m == d * m + m;
    if d > q {
      MulMonotone(q + 1, d, m);
    } else if d < q {
      MulMonotone(d + 1, q, m);
    }
  }

  lemma {:induction false} NextRemainder(k: int, m: int)
    requires m > 0
    ensures (k + 1) % m == if k % m + 1 == m then 0 else k % m + 1
  {
    var q, r := k / m, k % m;
    assert k == q * m + r;
    if r + 1 == m {
      assert (q + 1) * m == q * m + m;
      QuotientUnique(k + 1, m, q + 1, 0);
    } else {
      QuotientUnique(k + 1, m, q, r + 1);
    }
  }

  /** The remainder of a number less than one round later. */
  lemma {:induction false} WithinRound(k: int, d: int, m: int)
    requires 0 <= d < m
    ensures (k + d) % m == if k % m + d < m then k % m + d else k % m + d - m
  {
    var q, r := k / m, k % m;
    assert k == q * m + r;
    if r + d < m {
      QuotientUnique(k + d, m, q, r + d);
    } else {
      assert (q + 1) * m == q * m + m;
      QuotientUnique(k + d, m, q + 1, r + d - m);
    }
  }

  lemma {:induction false} AddModulus(k: int, m: int)
    requires 0 < m
    ensures (k + m) % m == k % m
  {
    var q, r := k / m, k % m;
    assert k == q * m + r && (q + 1) * m == q * m + m;
    QuotientUnique(k + m, m, q + 1, r);
  }

  lemma {:induction false} SmallRemainder(k: int, m: int)
    requires 0 <= k < m
    ensures k % m == k && k / m == 0
  {
    QuotientUnique(k, m, 0, k);
  }

  /** A candidate quotient that leaves a nonnegative rest is the quotient exactly when the rest is small. */
  lemma {:induction false} QuotientAtLeast(a: int, m: int, q: int)
    requires 0 < m && 0 <= a - q * m
    ensures q <= a / m && (q == a / m <==> a - q * m < m) && (q == a / m ==> a - q * m == a % m)
  {
    var d := a / m;
    assert a == d * m + a % m && (d + 1) * m == d * m + m && (q + 1) * m == q * m + m;
    if d < q {
      MulMonotone(d + 1, q, m);
    } else if q < d {
      MulMonotone(q + 1, d, m);
    }
  }

  lemma {:induction false} DivideMonotone(a: int, b: int, m: int)
    requires 0 < m && a <= b
    ensures a / m <= b / m
  {
    var c, d := a / m, b / m;
    assert a == c * m + a % m && b == d * m + b % m && (d + 1) * m == d * m + m;
    if d < c {
      MulMonotone(d + 1, c, m);
    }
  }

  lemma {:induction false} ModShift(z: int, k: int, m: int)
    requires 0 < m
    ensures (z + k * m) % m == z % m
  {
    var q, r := z / m, z % m;
    assert z == q * m + r && (q + k) * m == q * m + k * m;
    QuotientUnique(z + k * m, m, q + k, r);
  }

  /** Sums may be reduced early. */
  lemma {:induction false} ModSum(x: int, y: int, m: int)
    requires 0 < m
    ensures (x % m + y % m) % m == (x + y) % m
  {
    var p, q := x / m, y / m;
    assert x == p * m + x % m && y == q * m + y % m && (p + q) * m == p * m + q * m;
    ModShift(x % m + y % m, p + q, m);
  }

  lemma {:induction false} HalvedRemainder(x: int, m: int)
    requires 0 < m
    ensures x % (2 * m) == 2 * (x / 2 % m) + x % 2
  {
    var h := x / 2;
    var q, r := h / m, h % m;
    assert x == 2 * h + x % 2 && h == q * m + r;
    assert q * (2 * m) == 2 * (q * m);
    QuotientUnique(x, 2 * m, q, 2 * r + x % 2);
  }
}
