/**
 * The part of Java's `BigDecimal` the backend's derived metrics use: values
 * `unscaled * 10^-scale`, `equals` (value and scale), `compareTo` (value only),
 * `divide` to a fixed scale rounding HALF_UP, and `multiply`.
 */
module BigDecimals {
  import opened Outcomes

  /** The exceptions the backend's helpers can raise. */
  datatype JavaException =
    | NullPointerException
    | ArithmeticException
    | RuntimeException(message: string)

  /** A decimal `unscaled * 10^-scale`; every value the backend builds has a scale of zero or more. */
  datatype Decimal = Decimal(unscaled: int, scale: nat)

  /** `BigDecimal.ZERO`, of scale 0. */
  const Zero: Decimal := Decimal(0, 0)

  /** `new BigDecimal(n)` for an integer `n`. */
  function OfInt(n: int): (d: Decimal)
    ensures d.scale == 0 && Value(d) == n as real
  {
    Decimal(n, 0)
  }

  function Pow10(n: nat): (p: nat)
    ensures p >= 1
  {
    if n == 0 then 1 else 10 * Pow10(n - 1)
  }

  lemma {:induction false} Pow10Add(a: nat, b: nat)
    ensures Pow10(a + b) == Pow10(a) * Pow10(b)
  {
    if a > 0 {
      Pow10Add(a - 1, b);
      assert Pow10(a + b) == 10 * Pow10(a - 1 + b);
    }
  }

  function Abs(x: int): (a: nat)
    ensures a == x || a == -x
  {
    if x < 0 then -x else x
  }

  function Sign(x: int): (s: int)
    ensures s * x == Abs(x)
    ensures s == 0 <==> x == 0
    ensures -1 <= s <= 1
  {
    if x < 0 then -1 else if x == 0 then 0 else 1
  }

  /** The number a decimal stands for. */
  ghost function Value(d: Decimal): real {
    d.unscaled as real / Pow10(d.scale) as real
  }

  /** `equals`: the same value written at the same scale. */
  predicate Equals(a: Decimal, b: Decimal) {
    a.unscaled == b.unscaled && a.scale == b.scale
  }

  /** `compareTo`: -1, 0 or 1 as the first value is below, equal to or above the second, whatever the scales. */
  function CompareTo(a: Decimal, b: Decimal): (c: int)
    ensures -1 <= c <= 1
    ensures c < 0 <==> Value(a) < Value(b)
    ensures c == 0 <==> Value(a) == Value(b)
  {
    var pa, pb := Pow10(a.scale), Pow10(b.scale);
    CrossCompare(a.unscaled, pa, b.unscaled, pb);
    Sign(a.unscaled * pb - b.unscaled * pa)
  }

  /** Comparing two fractions with positive denominators by cross-multiplying. */
  lemma CrossCompare(x: int, p: nat, y: int, q: nat)
    requires p >= 1 && q >= 1
    ensures x as real / p as real < y as real / q as real <==> x * q < y * p
    ensures x as real / p as real == y as real / q as real <==> x * q == y * p
  {
    var u, v := x as real / p as real, y as real / q as real;
    assert x as real == u * p as real && y as real == v * q as real;
    assert (x * q) as real == u * (p * q) as real;
    assert (y * p) as real == v * (p * q) as real;
  }

  /** `signum() == 0`: the value is zero, at any scale. */
  predicate IsZero(d: Decimal) {
    d.unscaled == 0
  }

  /** Equal decimals have equal values; a zero written at a positive scale compares equal to `ZERO` but is not `equals` to it. */
  lemma EqualsVersusCompareTo(a: Decimal, b: Decimal, s: nat)
    ensures Equals(a, b) ==> CompareTo(a, b) == 0
    ensures IsZero(a) <==> CompareTo(a, Zero) == 0
    ensures s > 0 ==> CompareTo(Decimal(0, s), Zero) == 0 && !Equals(Decimal(0, s), Zero)
  {
  }

  /**
   * `q` is `n / d` rounded to an integer HALF_UP: at most half a unit away,
   * and a tie goes away from zero.
   */
  predicate RoundsHalfUp(q: int, n: int, d: int)
    requires d > 0
  {
    var gap := 2 * (d * q) - 2 * n;
    -d <= gap <= d && (gap == d || gap == -d ==> Abs(q) * d > Abs(n))
  }

  /** HALF_UP rounding of `n / d`. */
  function RoundHalfUp(n: int, d: int): (q: int)
    requires d > 0
    ensures RoundsHalfUp(q, n, d)
  {
    var k := (2 * Abs(n) + d) / (2 * d);
    RoundHalfUpMagnitude(Abs(n), d);
    SignedRounding(n, d, k);
    if n < 0 then -k else k
  }

  /** The rounded magnitude lies in (-d/2, d/2] of the exact one, strictly above it at a tie. */
  lemma RoundHalfUpMagnitude(m: nat, d: int)
    requires d > 0
    ensures var k := (2 * m + d) / (2 * d);
            k >= 0 && -d < 2 * (d * k) - 2 * m <= d && (2 * (d * k) - 2 * m == d ==> k * d > m)
  {
    var k, r := (2 * m + d) / (2 * d), (2 * m + d) % (2 * d);
    assert 2 * m + d == 2 * d * k + r && 0 <= r < 2 * d;
    assert 2 * (d * k) - 2 * m == d - r;
  }

  /** Giving the rounded magnitude the sign of `n` rounds `n` itself. */
  lemma SignedRounding(n: int, d: int, k: int)
    requires d > 0 && k >= 0
    requires -d < 2 * (d * k) - 2 * Abs(n) <= d && (2 * (d * k) - 2 * Abs(n) == d ==> k * d > Abs(n))
    ensures RoundsHalfUp(if n < 0 then -k else k, n, d)
  {
    if n < 0 {
      assert d * -k == -(d * k);
    } else if n == 0 {
      AtLeastOnce(d, k + 1);
    }
  }

  /** The HALF_UP rounding of a fraction is unique. */
  lemma RoundingUnique(q1: int, q2: int, n: int, d: int)
    requires d > 0 && RoundsHalfUp(q1, n, d) && RoundsHalfUp(q2, n, d)
    ensures q1 == q2
  {
    if q1 != q2 {
      var lo, hi := if q1 < q2 then q1 else q2, if q1 < q2 then q2 else q1;
      TwoRoundings(lo, hi, n, d);
      TieBelow(lo, n, d);
      TieAbove(hi, n, d);
    }
  }

  /** Two different integers within half a unit of `n / d` are adjacent and both at exactly half a unit. */
  lemma TwoRoundings(lo: int, hi: int, n: int, d: int)
    requires d > 0 && lo < hi
    requires -d <= 2 * (d * lo) - 2 * n <= d && -d <= 2 * (d * hi) - 2 * n <= d
    ensures hi == lo + 1 && 2 * (d * lo) - 2 * n == -d && 2 * (d * hi) - 2 * n == d
  {
    assert d * hi - d * lo == d * (hi - lo);
    AtLeastOnce(d, hi - lo);
  }

  /** A non-negative integer half a unit below `n / d` is nearer zero than `n / d`. */
  lemma TieBelow(q: int, n: int, d: int)
    requires d > 0 && 2 * (d * q) - 2 * n == -d
    ensures q >= 0 ==> Abs(q) * d <= Abs(n)
  {
  }

  /** A non-positive integer half a unit above `n / d` is nearer zero than `n / d`. */
  lemma TieAbove(q: int, n: int, d: int)
    requires d > 0 && 2 * (d * q) - 2 * n == d
    ensures q <= 0 ==> Abs(q) * d <= Abs(n)
  {
  }

  /** A positive multiple of `d` is at least `d`, and is `d` only once. */
  lemma AtLeastOnce(d: int, e: int)
    requires d > 0 && e >= 1
    ensures d * e >= d
    ensures d * e == d ==> e == 1
  {
    assert d * e == d * (e - 1) + d;
    if e > 1 {
      assert d * (e - 1) >= d * 1;
    }
  }

  /** The cross-multiplied pair whose HALF_UP ratio is the unscaled quotient of `a / b` at `scale`. */
  function QuotientNumerator(a: Decimal, b: Decimal, scale: nat): int {
    Sign(b.unscaled) * a.unscaled * Pow10(b.scale + scale)
  }

  function QuotientDenominator(a: Decimal, b: Decimal): int {
    Abs(b.unscaled) * Pow10(a.scale)
  }

  /**
   * `a.divide(b, scale, HALF_UP)`: throws on a zero divisor at any scale;
   * otherwise the quotient at `scale`, rounded HALF_UP.
   */
  function Divide(a: Decimal, b: Decimal, scale: nat): (r: Result<Decimal, JavaException>)
    ensures r.Err? <==> IsZero(b)
    ensures r.Err? ==> r.error == ArithmeticException
    ensures r.Ok? ==> r.value.scale == scale && QuotientDenominator(a, b) > 0
    ensures r.Ok? ==> RoundsHalfUp(r.value.unscaled, QuotientNumerator(a, b, scale), QuotientDenominator(a, b))
  {
    if b.unscaled == 0 then Err(ArithmeticException)
    else Ok(Decimal(RoundHalfUp(QuotientNumerator(a, b, scale), QuotientDenominator(a, b)), scale))
  }

  /**
   * The rounding pair stands for the exact quotient: `n / d` equals
   * `(a.unscaled * 10^(b.scale + scale)) / (b.unscaled * 10^a.scale)`, which is
   * `(a / b) * 10^scale`; so the unscaled result is that number rounded.
   */
  lemma QuotientMeaning(a: Decimal, b: Decimal, scale: nat)
    requires !IsZero(b)
    ensures QuotientNumerator(a, b, scale) * (b.unscaled * Pow10(a.scale))
            == QuotientDenominator(a, b) * (a.unscaled * Pow10(b.scale + scale))
  {
    var sg, ua, ub, pa, p := Sign(b.unscaled), a.unscaled, b.unscaled, Pow10(a.scale), Pow10(b.scale + scale);
    assert sg * ub == Abs(ub);
    calc {
      QuotientNumerator(a, b, scale) * (ub * pa);
      (sg * ua * p) * (ub * pa);
      (sg * ub) * (pa * (ua * p));
      Abs(ub) * (pa * (ua * p));
      (Abs(ub) * pa) * (ua * p);
    }
  }

  /** An exact quotient is returned exactly. */
  lemma DivideExact(a: Decimal, b: Decimal, scale: nat, q: int)
    requires !IsZero(b)
    requires QuotientNumerator(a, b, scale) == q * QuotientDenominator(a, b)
    ensures Divide(a, b, scale) == Ok(Decimal(q, scale))
  {
    var n, d := QuotientNumerator(a, b, scale), QuotientDenominator(a, b);
    assert RoundsHalfUp(q, n, d) by {
      assert 2 * d * q - 2 * n == 0;
    }
    RoundingUnique(Divide(a, b, scale).value.unscaled, q, n, d);
  }

  /** `a.multiply(b)`: the product, at the sum of the scales. */
  function Multiply(a: Decimal, b: Decimal): (r: Decimal)
    ensures r.scale == a.scale + b.scale
    ensures Value(r) == Value(a) * Value(b)
  {
    var pa, pb := Pow10(a.scale), Pow10(b.scale);
    Pow10Add(a.scale, b.scale);
    ProductOfFractions(a.unscaled, pa, b.unscaled, pb);
    Decimal(a.unscaled * b.unscaled, a.scale + b.scale)
  }

  lemma ProductOfFractions(x: int, p: nat, y: int, q: nat)
    requires p >= 1 && q >= 1
    ensures (x * y) as real / (p * q) as real == (x as real / p as real) * (y as real / q as real)
  {
    var u, v := x as real / p as real, y as real / q as real;
    assert x as real == u * p as real && y as real == v * q as real;
    assert (x * y) as real == (u * v) * (p * q) as real;
  }
}
