/**
 JavaScript's `Math.round` applied to a non-negative rational `p / q`.

 `Math.round(x)` returns the integer closest to `x`, with halves going towards
 positive infinity. For naturals `p` and `q > 0` that integer is exactly
 `(2p + q) div (2q)`, so the model never needs floating point.
 */
module Rounding {

  /** `r` is `p / q` rounded to the nearest integer, halves rounded up:
      `r - 1/2 <= p / q < r + 1/2`, multiplied through by `2q`. */
  predicate Nearest(r: int, p: int, q: int) {
    q * (2 * r - 1) <= 2 * p < q * (2 * r + 1)
  }

  /** `Math.round(p / q)`. */
  function RoundDiv(p: nat, q: nat): (r: nat)
    requires q > 0
    ensures Nearest(r, p, q)
  {
    var n, d := 2 * p + q, 2 * q;
    var r := n / d;
    assert d * r <= n < d * r + d;
    assert q * (2 * r - 1) == d * r - q;
    assert q * (2 * r + 1) == d * r + q;
    r
  }

  /** Multiplying by a positive factor keeps the order of its arguments. */
  lemma MulMonotone(q: int, a: int, b: int)
    requires q > 0
    ensures a <= b ==> q * a <= q * b
  {
    if a <= b {
      var d := b - a;
      assert q * d >= 0;
      assert q * b == q * a + q * d;
    }
  }

  /** At most one integer is the rounded value of `p / q`. */
  lemma NearestUnique(r1: int, r2: int, p: int, q: int)
    requires q > 0
    requires Nearest(r1, p, q) && Nearest(r2, p, q)
    ensures r1 == r2
  {
    MulMonotone(q, 2 * r1 + 1, 2 * r2 - 1);
    MulMonotone(q, 2 * r2 + 1, 2 * r1 - 1);
  }

  /** `RoundDiv` is characterised by `Nearest`: any integer within half a unit of
      `p / q` (halves going up) is the value `Math.round` returns. */
  lemma RoundDivIsNearest(p: nat, q: nat, r: int)
    requires q > 0
    ensures RoundDiv(p, q) == r <==> Nearest(r, p, q)
  {
    if Nearest(r, p, q) {
      NearestUnique(RoundDiv(p, q), r, p, q);
    }
  }

  /** Rounding an exact quotient returns the quotient. */
  lemma RoundDivExact(k: nat, q: nat)
    requires q > 0
    ensures RoundDiv(k * q, q) == k
  {
    assert q * (2 * k - 1) == 2 * (k * q) - q;
    assert q * (2 * k + 1) == 2 * (k * q) + q;
    RoundDivIsNearest(k * q, q, k);
  }

  /** Rounding is monotone in the numerator. */
  lemma {:induction false} RoundDivMonotone(p1: nat, p2: nat, q: nat)
    requires q > 0 && p1 <= p2
    ensures RoundDiv(p1, q) <= RoundDiv(p2, q)
  {
    var r1: int, r2: int := RoundDiv(p1, q), RoundDiv(p2, q);
    MulMonotone(q, 2 * r2 + 1, 2 * r1 - 1);
  }
}
