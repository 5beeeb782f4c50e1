/** Integer stand-ins for the floating-point helpers the source calls. */
module Numeric {
  /** `Math.round(n / d)` for a positive denominator: the nearest integer to
      the exact quotient, a half rounded up. */
  function RoundDiv(n: int, d: int): (q: int)
    requires d > 0
    ensures -d <= 2 * (n - q * d) < d
  {
    var q := (2 * n + d) / (2 * d);
    assert 2 * n + d == (2 * d) * q + (2 * n + d) % (2 * d);
    q
  }

  /** The contract of RoundDiv pins the result down: no other integer is as close. */
  lemma RoundDivUnique(n: int, d: int, q': int)
    requires d > 0
    requires -d <= 2 * (n - q' * d) < d
    ensures q' == RoundDiv(n, d)
  {
    var q := RoundDiv(n, d);
    assert (q' - q) * d == q' * d - q * d;
    if q' > q {
      MulAtLeast(q' - q, d);
    } else if q' < q {
      MulAtLeast(q - q', d);
    }
  }

  lemma MulAtLeast(k: int, d: int)
    requires k >= 1 && d > 0
    ensures k * d >= d
  {
    assert k * d - d == (k - 1) * d;
  }
}
