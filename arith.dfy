/** Powers of two and the facts about Dafny's `/` and `%` (floor division and
    non-negative remainder for a positive divisor) that the colour decoder rests on. */
module Arith {

  function Pow2(n: nat): (r: nat)
    ensures r >= 1
  {
    if n == 0 then 1 else 2 * Pow2(n - 1)
  }

  /** The values of Pow2 the 32-bit colour layout uses. */
  lemma Pow2Values()
    ensures Pow2(8) == 0x100 && Pow2(16) == 0x1_0000 && Pow2(24) == 0x100_0000
    ensures Pow2(31) == 0x8000_0000 && Pow2(32) == 0x1_0000_0000
  {
  }

  /** Quotient and remainder are determined by the division equation. */
  lemma DivModUnique(x: int, d: int, q: int, r: int)
    requires 0 < d && 0 <= r < d && x == d * q + r
    ensures x / d == q && x % d == r
  {
    var q', r' := x / d, x % d;
    assert d * q' + r' == d * q + r;
    if q' > q {
      MulAtLeast(d, q' - q);
    } else if q' < q {
      MulAtLeast(d, q - q');
    }
  }

  lemma MulAtLeast(d: int, k: int)
    requires 0 < d && 1 <= k
    ensures d * k >= d
  {
  }

  /** Dividing by a positive number keeps the sign and does not grow the magnitude. */
  lemma DivBounds(x: int, d: int)
    requires 0 < d
    ensures 0 <= x ==> 0 <= x / d <= x
    ensures x < 0 ==> x <= x / d < 0
  {
    var q, r := x / d, x % d;
    assert x == d * q + r;
    if 0 <= x {
      if q < 0 {
        MulAtLeast(d, -q);
      } else if q > x {
        MulAtLeast(q, d);
      }
    } else {
      if q >= 0 {
        MulNonNegative(d, q);
      } else if q < x {
        MulAtLeast(-(q + 1), d);
      }
    }
  }

  lemma MulNonNegative(a: int, b: int)
    requires 0 <= a && 0 <= b
    ensures a * b >= 0
  {
  }

  /** Dividing by `m` and then by `n` is dividing by `m * n`; the remainder
      modulo `m * n` is made of the two smaller remainders. */
  lemma DivDivMod(x: int, m: int, n: int)
    requires 0 < m && 0 < n
    ensures x / (m * n) == (x / m) / n
    ensures x % (m * n) == m * ((x / m) % n) + x % m
  {
    var q, s := x / m, x % m;
    var t, u := q / n, q % n;
    assert x == (m * n) * t + (m * u + s) by {
      assert x == m * q + s;
      assert q == n * t + u;
    }
    assert m * u <= m * (n - 1);
    DivModUnique(x, m * n, t, m * u + s);
  }
}
