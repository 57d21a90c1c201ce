/** Exact ratios rounded to 64-bit micros, and conversion between currencies. */
module Money {
  import opened Common

  const MIN_INT64 := -0x8000_0000_0000_0000

  predicate IsInt64(n: int) { MIN_INT64 <= n <= MAX_INT64 }

  function Abs(n: int): nat { if n < 0 then -n else n }

  /** Division that truncates toward zero, as big integers do. */
  function Quotient(n: int, d: int): int
    requires d > 0
  {
    if n >= 0 then n / d else -(-n / d)
  }

  /** Half away from zero. */
  function Round(n: int, d: int): int
    requires d > 0
  {
    var q := Quotient(n, d);
    var r := n - q * d;
    if 2 * Abs(r) >= d then (if n < 0 then q - 1 else q + 1) else q
  }

  lemma QuotientRemainder(n: int, d: int)
    requires d > 0
    ensures var r := n - Quotient(n, d) * d; Abs(r) < d && (n >= 0 ==> r >= 0) && (n <= 0 ==> r <= 0)
  {
    if n < 0 { assert Quotient(n, d) * d == -((-n / d) * d); }
  }

  /** Rounding is odd. */
  lemma RoundIsOdd(n: int, d: int)
    requires d > 0
    ensures Round(-n, d) == -Round(n, d)
  {
    QuotientRemainder(n, d);
    if n != 0 {
      assert Quotient(-n, d) == -Quotient(n, d);
      assert -n - Quotient(-n, d) * d == -(n - Quotient(n, d) * d);
    }
  }

  /** A multiple of the denominator nearest to the numerator, and of two such the larger in magnitude. */
  predicate Nearest(n: int, multiple: int, d: int) {
    2 * Abs(n - multiple) <= d && (2 * Abs(n - multiple) == d ==> Abs(multiple) >= Abs(n))
  }

  lemma RoundNonNegative(n: int, d: int)
    requires d > 0 && n >= 0
    ensures Nearest(n, Round(n, d) * d, d) && Round(n, d) >= 0
  {
    QuotientRemainder(n, d);
    var q := Quotient(n, d);
    assert (q + 1) * d == q * d + d;
  }

  /** Rounding is to the nearest, and halves go away from zero. */
  lemma RoundIsNearest(n: int, d: int)
    requires d > 0
    ensures Nearest(n, Round(n, d) * d, d)
    ensures (n >= 0 ==> Round(n, d) >= 0) && (n <= 0 ==> Round(n, d) <= 0)
  {
    if n >= 0 {
      RoundNonNegative(n, d);
      if n == 0 { QuotientRemainder(0, d); }
    } else {
      RoundNonNegative(-n, d);
      RoundIsOdd(n, d);
      NegatedProduct(Round(n, d), d);
    }
  }

  lemma NegatedProduct(a: int, d: int)
    ensures (-a) * d == -(a * d)
  {
  }

  lemma Gap(a: int, b: int, d: int)
    requires a < b && d > 0
    ensures b * d >= a * d + d && (b == a + 1 ==> b * d == a * d + d) && (b > a + 1 ==> b * d >= a * d + 2 * d)
    ensures (a >= 0 ==> a * d >= 0) && (b <= 0 ==> b * d <= 0)
  {
    Strictly(a, b, d);
    if b > a + 1 {
      Strictly(a, a + 1, d);
      Strictly(a + 1, b, d);
    } else {
      Distribute(a, b, d);
    }
    SignOf(a, d);
    SignOf(b, d);
  }

  /** No multiple a whole step above the nearest one is nearest too. */
  lemma NoneAbove(n: int, low: int, high: int, d: int)
    requires d > 0 && (high == low + d || high >= low + 2 * d) && (low >= 0 || low + d <= 0) && Nearest(n, low, d)
    ensures !Nearest(n, high, d)
  {
  }

  lemma NearestOrdered(n: int, d: int, a: int, b: int)
    requires d > 0 && a < b && Nearest(n, a * d, d)
    ensures !Nearest(n, b * d, d)
  {
    Gap(a, b, d);
    Gap(a, a + 1, d);
    NoneAbove(n, a * d, b * d, d);
  }

  /** The nearest multiple is unique, so rounding is determined by this property alone. */
  lemma NearestIsUnique(n: int, d: int, a: int, b: int)
    requires d > 0 && Nearest(n, a * d, d) && Nearest(n, b * d, d)
    ensures a == b
  {
    if a < b { NearestOrdered(n, d, a, b); }
    if b < a { NearestOrdered(n, d, b, a); }
  }

  lemma NearestScales(n: int, m: int, d: int, k: int)
    requires k > 0 && Nearest(n, m, d)
    ensures Nearest(n * k, m * k, d * k)
  {
    Distribute(m, n, k);
    AbsScales(n - m, k);
    Associate(2, Abs(n - m), k);
    if 2 * Abs(n - m) < d {
      Strictly(2 * Abs(n - m), d, k);
    } else {
      AbsScales(n, k);
      AbsScales(m, k);
      OrderScales(Abs(n), Abs(m), k);
    }
  }

  /** Rounding does not depend on whether the ratio is in lowest terms. */
  lemma RoundScales(n: int, d: int, k: int)
    requires d > 0 && k > 0
    ensures d * k > 0 && Round(n * k, d * k) == Round(n, d)
  {
    Strictly(0, d, k);
    var q := Round(n, d);
    RoundIsNearest(n, d);
    RoundIsNearest(n * k, d * k);
    NearestScales(n, q * d, d, k);
    Associate(q, d, k);
    NearestIsUnique(n * k, d * k, q, Round(n * k, d * k));
  }

  /******* Products *******/

  lemma Distribute(a: int, b: int, k: int)
    ensures (b - a) * k == b * k - a * k
  {
  }

  lemma Associate(a: int, b: int, c: int)
    ensures a * b * c == a * (b * c)
  {
  }

  lemma SignOf(x: int, k: int)
    requires k > 0
    ensures (x >= 0 ==> x * k >= 0) && (x <= 0 ==> x * k <= 0)
  {
  }

  lemma OrderScales(a: int, b: int, k: int)
    requires a <= b && k > 0
    ensures a * k <= b * k
  {
    Distribute(a, b, k);
    SignOf(b - a, k);
  }

  lemma Strictly(a: int, b: int, k: int)
    requires a < b && k > 0
    ensures a * k + k <= b * k
  {
    Distribute(a, b, k);
    Distribute(1, b - a, k);
    SignOf(b - a - 1, k);
  }

  lemma AbsScales(n: int, k: int)
    requires k > 0
    ensures Abs(n * k) == Abs(n) * k
  {
    SignOf(n, k);
  }
}
