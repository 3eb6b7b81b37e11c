/** Integer arithmetic shared by the pallets: saturating subtraction and the
    parts-per-thing and fixed-point operations of `sp_arithmetic`. */
module Arithmetic {

  const PERMILL: nat := 1_000_000
  const PERBILL: nat := 1_000_000_000
  const PERQUINTILL: nat := 1_000_000_000_000_000_000
  const FIXED_DIV: nat := 1_000_000_000_000_000_000

  function SatSub(a: nat, b: nat): nat {
    if a <= b then 0 else a - b
  }

  function Min(a: nat, b: nat): nat {
    if a <= b then a else b
  }

  function Max(a: nat, b: nat): nat {
    if a <= b then b else a
  }

  /** `ratio * n` for a ratio of `parts` out of `accuracy`: rounded to the nearest
      integer, an exact half rounding down. */
  function MulNearest(accuracy: nat, parts: nat, n: nat): nat
    requires accuracy > 0
  {
    var product := parts * n;
    product / accuracy + (if product % accuracy > accuracy / 2 then 1 else 0)
  }

  /** `from_rational(p, q)`: the number of parts, rounded down, and one whole when `q` is
      zero or `p` exceeds `q`. */
  function RatioDown(accuracy: nat, p: nat, q: nat): nat {
    if q == 0 || p > q then accuracy else p * accuracy / q
  }

  lemma MulIsMonotone(a: nat, b: nat, n: nat)
    requires a <= b
    ensures a * n <= b * n
  {
  }

  lemma DivIsMonotone(a: nat, b: nat, d: nat)
    requires a <= b && d > 0
    ensures a / d <= b / d
  {
    assert a == d * (a / d) + a % d && b == d * (b / d) + b % d;
    if b / d < a / d {
      MulIsMonotone(b / d + 1, a / d, d);
      assert false;
    }
  }

  /** Twice the rounding error of one product is at most one unit. */
  lemma MulNearestError(accuracy: nat, parts: nat, n: nat)
    requires accuracy > 0
    ensures 2 * (accuracy * MulNearest(accuracy, parts, n)) <= 2 * (parts * n) + accuracy
  {
    var product := parts * n;
    var q := product / accuracy;
    var r := product % accuracy;
    assert product == accuracy * q + r;
    var m := MulNearest(accuracy, parts, n);
    if r > accuracy / 2 {
      assert m == q + 1;
      assert accuracy * m == accuracy * q + accuracy;
    } else {
      assert m == q;
    }
  }

  /** And so it is below: the product is the nearest integer. */
  lemma MulNearestShortfall(accuracy: nat, parts: nat, n: nat)
    requires accuracy > 0
    ensures 2 * (parts * n) <= 2 * (accuracy * MulNearest(accuracy, parts, n)) + accuracy
  {
    var product := parts * n;
    var q := product / accuracy;
    assert product == accuracy * q + product % accuracy;
    if product % accuracy > accuracy / 2 {
      assert accuracy * (q + 1) == accuracy * q + accuracy;
    }
  }

  lemma MulNearestAtMost(accuracy: nat, parts: nat, n: nat)
    requires accuracy > 0 && parts <= accuracy
    ensures MulNearest(accuracy, parts, n) <= n
  {
    var product := parts * n;
    var q := product / accuracy;
    var r := product % accuracy;
    assert product == accuracy * q + r;
    MulIsMonotone(parts, accuracy, n);
    if q > n {
      MulIsMonotone(n + 1, q, accuracy);
      assert false;
    } else if q == n {
      assert product == accuracy * n + r;
      assert r == 0;
    }
  }

  lemma MulNearestIsMonotone(accuracy: nat, parts: nat, m: nat, n: nat)
    requires accuracy > 0 && m <= n
    ensures MulNearest(accuracy, parts, m) <= MulNearest(accuracy, parts, n)
  {
    MulIsMonotone(m, n, parts);
    DivIsMonotone(parts * m, parts * n, accuracy);
    var q := parts * m / accuracy;
    if q == parts * n / accuracy {
      assert parts * m == accuracy * q + (parts * m) % accuracy;
      assert parts * n == accuracy * q + (parts * n) % accuracy;
    }
  }

  lemma RatioDownBound(accuracy: nat, p: nat, q: nat)
    requires q > 0 && p <= q
    ensures RatioDown(accuracy, p, q) * q <= p * accuracy
  {
    var product := p * accuracy;
    assert product == q * (product / q) + product % q;
  }

  lemma RatioDownShortfall(accuracy: nat, p: nat, q: nat)
    requires q > 0 && p <= q
    ensures p * accuracy < RatioDown(accuracy, p, q) * q + q
  {
    var product := p * accuracy;
    assert product == q * (product / q) + product % q;
  }

  lemma RatioDownAtMost(accuracy: nat, p: nat, q: nat)
    ensures RatioDown(accuracy, p, q) <= accuracy
  {
    if q > 0 && p <= q {
      RatioDownBound(accuracy, p, q);
      var r := RatioDown(accuracy, p, q);
      if r > accuracy {
        MulIsMonotone(accuracy + 1, r, q);
        MulIsMonotone(p, q, accuracy);
        assert false;
      }
    }
  }

  /** A payout of `pool` in proportion `part / whole`. */
  function ProRata(accuracy: nat, part: nat, whole: nat, pool: nat): nat
    requires accuracy > 0
  {
    MulNearest(accuracy, RatioDown(accuracy, part, whole), pool)
  }

  /** A pro rata payout exceeds the exact proportion by at most half a unit. */
  lemma ProRataError(accuracy: nat, part: nat, whole: nat, pool: nat)
    requires accuracy > 0 && whole > 0 && part <= whole
    ensures 2 * (whole * ProRata(accuracy, part, whole, pool)) <= 2 * (part * pool) + whole
  {
    var ratio := RatioDown(accuracy, part, whole);
    var pay := ProRata(accuracy, part, whole, pool);
    MulNearestError(accuracy, ratio, pool);
    RatioDownBound(accuracy, part, whole);
    RegroupProduct(whole, ratio, pool);
    RegroupProduct(accuracy, part, pool);
    MulIsMonotone(ratio * whole, part * accuracy, pool);
    ScaleDown(accuracy, whole, pay, ratio * pool, part * pool);
  }

  /** It falls short of the exact proportion by at most half a unit, and one part of the
      accuracy of the pool. */
  lemma ProRataShortfall(accuracy: nat, part: nat, whole: nat, pool: nat)
    requires accuracy > 0 && whole > 0 && part <= whole
    ensures 2 * (accuracy * (part * pool))
            <= 2 * (accuracy * (whole * ProRata(accuracy, part, whole, pool))) + 2 * (whole * pool) + accuracy * whole
  {
    var ratio := RatioDown(accuracy, part, whole);
    var pay := ProRata(accuracy, part, whole, pool);
    MulNearestShortfall(accuracy, ratio, pool);
    RatioDownShortfall(accuracy, part, whole);
    SpreadOverPool(accuracy, part, whole, pool, ratio);
    ScaleUp(accuracy, whole, pay, ratio * pool);
  }

  lemma SpreadOverPool(accuracy: nat, part: nat, whole: nat, pool: nat, ratio: nat)
    requires part * accuracy <= ratio * whole + whole
    ensures accuracy * (part * pool) <= whole * (ratio * pool) + whole * pool
  {
    MulIsMonotone(part * accuracy, ratio * whole + whole, pool);
    RegroupProduct(accuracy, part, pool);
    RegroupProduct(whole, ratio, pool);
    assert (ratio * whole + whole) * pool == (ratio * whole) * pool + whole * pool;
  }

  lemma ScaleUp(accuracy: nat, whole: nat, pay: nat, scaled: nat)
    requires 2 * scaled <= 2 * (accuracy * pay) + accuracy
    ensures 2 * (whole * scaled) <= 2 * (accuracy * (whole * pay)) + accuracy * whole
  {
    MulIsMonotone(2 * scaled, 2 * (accuracy * pay) + accuracy, whole);
    assert (2 * scaled) * whole == 2 * (whole * scaled);
    assert (2 * (accuracy * pay) + accuracy) * whole == 2 * ((accuracy * pay) * whole) + accuracy * whole;
    assert (accuracy * pay) * whole == accuracy * (whole * pay);
  }

  lemma ScaleDown(accuracy: nat, whole: nat, pay: nat, scaled: nat, exact: nat)
    requires accuracy > 0
    requires 2 * (accuracy * pay) <= 2 * scaled + accuracy
    requires whole * scaled <= accuracy * exact
    ensures 2 * (whole * pay) <= 2 * exact + whole
  {
    MulIsMonotone(2 * (accuracy * pay), 2 * scaled + accuracy, whole);
    assert accuracy * (2 * (whole * pay)) == (2 * (accuracy * pay)) * whole;
    assert (2 * scaled + accuracy) * whole == 2 * (whole * scaled) + accuracy * whole;
    assert accuracy * (2 * exact + whole) == 2 * (accuracy * exact) + accuracy * whole;
    CancelFactor(accuracy, 2 * (whole * pay), 2 * exact + whole);
  }

  lemma RegroupProduct(a: nat, b: nat, c: nat)
    ensures a * (b * c) == (b * a) * c
  {
  }

  lemma CancelFactor(f: nat, a: nat, b: nat)
    requires f > 0 && f * a <= f * b
    ensures a <= b
  {
    if a > b {
      MulIsMonotone(b + 1, a, f);
      assert false;
    }
  }

  /** Quotients compare like their cross products. */
  lemma QuotientOrder(a: nat, n: nat, b: nat, m: nat)
    requires n > 0 && m > 0 && a * m <= b * n
    ensures a / n <= b / m
  {
    var x := a / n;
    var y := b / m;
    assert a == n * x + a % n && b == m * y + b % m;
    if x > y {
      MulIsMonotone(y + 1, x, n);
      MulIsMonotone(n * (y + 1), a, m);
      MulIsMonotone(b + 1, m * (y + 1), n);
      SwapFactors(n, y + 1, m);
      assert false;
    }
  }

  lemma SwapFactors(a: nat, b: nat, c: nat)
    ensures (a * b) * c == (c * b) * a
  {
  }

  lemma QuotientBounds(a: nat, d: nat)
    requires d > 0
    ensures d * (a / d) <= a < d * (a / d + 1)
  {
    assert a == d * (a / d) + a % d;
    assert d * (a / d + 1) == d * (a / d) + d;
  }

  lemma WholeQuotient(a: nat, n: nat)
    requires n > 0
    ensures (n * a) / n == a
  {
    QuotientBounds(n * a, n);
    CancelFactor(n, (n * a) / n, a);
    if (n * a) / n < a {
      MulIsMonotone((n * a) / n + 1, a, n);
    }
  }

  /** `FixedU128::from_rational(a, n)`, rounded down. */
  function FixedRatio(a: nat, n: nat): nat
    requires n > 0
  {
    a * FIXED_DIV / n
  }

  /** `FixedU128::saturating_mul_int`, rounded down. */
  function FixedMul(fixed: nat, n: nat): nat {
    fixed * n / FIXED_DIV
  }

  lemma FixedRatioOrder(a: nat, n: nat, b: nat, m: nat)
    requires n > 0 && m > 0 && a * m <= b * n
    ensures FixedRatio(a, n) <= FixedRatio(b, m)
  {
    MulIsMonotone(a * m, b * n, FIXED_DIV);
    SwapScale(a, FIXED_DIV, m);
    SwapScale(b, FIXED_DIV, n);
    QuotientOrder(a * FIXED_DIV, n, b * FIXED_DIV, m);
  }

  lemma SwapScale(a: nat, one: nat, m: nat)
    ensures (a * one) * m == (a * m) * one
  {
  }

  lemma FixedMulIsMonotone(a: nat, b: nat, n: nat)
    requires a <= b
    ensures FixedMul(a, n) <= FixedMul(b, n)
  {
    MulIsMonotone(a, b, n);
    DivIsMonotone(a * n, b * n, FIXED_DIV);
  }

  /** A fixed-point fraction `k / n` of an amount is never more than exact, and less by at most
      one unit and one part of the amount. */
  lemma FixedPartBounds(k: nat, n: nat, amount: nat)
    requires n > 0
    ensures var part := FixedMul(FixedRatio(k, n), amount);
            && n * part <= k * amount
            && FIXED_DIV * (k * amount) <= FIXED_DIV * (n * part) + FIXED_DIV * n + n * amount
  {
    var ratio := FixedRatio(k, n);
    QuotientBounds(k * FIXED_DIV, n);
    QuotientBounds(ratio * amount, FIXED_DIV);
    FixedPartWithin(FIXED_DIV, k, n, amount, ratio, FixedMul(ratio, amount));
  }

  lemma FixedPartWithin(one: nat, k: nat, n: nat, amount: nat, ratio: nat, part: nat)
    requires one > 0 && n * ratio <= k * one <= n * (ratio + 1)
    requires one * part <= ratio * amount <= one * (part + 1)
    ensures n * part <= k * amount
    ensures one * (k * amount) <= one * (n * part) + one * n + n * amount
  {
    FixedPartAtMost(one, k, n, amount, ratio, part);
    FixedPartAtLeast(one, k, n, amount, ratio, part);
  }

  lemma FixedPartAtMost(one: nat, k: nat, n: nat, amount: nat, ratio: nat, part: nat)
    requires one > 0 && n * ratio <= k * one && one * part <= ratio * amount
    ensures n * part <= k * amount
  {
    MulIsMonotone(one * part, ratio * amount, n);
    MulIsMonotone(n * ratio, k * one, amount);
    assert (ratio * amount) * n == (n * ratio) * amount;
    assert (k * one) * amount == one * (k * amount) && (one * part) * n == one * (n * part);
    CancelFactor(one, n * part, k * amount);
  }

  lemma FixedPartAtLeast(one: nat, k: nat, n: nat, amount: nat, ratio: nat, part: nat)
    requires k * one <= n * (ratio + 1) && ratio * amount <= one * (part + 1)
    ensures one * (k * amount) <= one * (n * part) + one * n + n * amount
  {
    MulIsMonotone(ratio * amount, one * (part + 1), n);
    MulIsMonotone(k * one, n * (ratio + 1), amount);
    assert (n * (ratio + 1)) * amount == (ratio * amount) * n + n * amount;
    assert (k * one) * amount == one * (k * amount);
    assert (one * (part + 1)) * n == one * (n * part) + one * n;
  }
}
