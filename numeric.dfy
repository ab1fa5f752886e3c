/**
  Numeric building blocks of the estimator, stated over exact integers and
  rationals: truncation toward zero (`Math.trunc`), powers of two (`2 ** k`)
  and rounding to two decimal places (`Number(x.toFixed(2))`).
*/
module Numeric {

  /** Integer division of `m` by a positive `d` that truncates toward zero,
      the integer counterpart of `Math.trunc(m / d)`. Dafny's own `/` is
      Euclidean and rounds negative quotients down instead. */
  function TruncDiv(m: int, d: int): int
    requires d > 0
  {
    if m >= 0 then m / d else -((-m) / d)
  }

  /** `Math.trunc`: the integer part of `x`, dropping the fraction toward zero. */
  function Trunc(x: real): (r: int)
    ensures 0.0 <= x ==> 0 <= r && r as real <= x < r as real + 1.0
    ensures x < 0.0 ==> r <= 0 && r as real - 1.0 < x <= r as real
  {
    if x >= 0.0 then x.Floor else -((-x).Floor)
  }

  /** The two bounds of `Trunc` single out its result. */
  lemma TruncUnique(x: real, k: int)
    requires 0.0 <= x ==> k as real <= x < k as real + 1.0
    requires x < 0.0 ==> k as real - 1.0 < x <= k as real
    ensures Trunc(x) == k
  {
  }

  /** Truncation leaves whole numbers alone. */
  lemma TruncOfInt(n: int)
    ensures Trunc(n as real) == n
  {
    TruncUnique(n as real, n);
  }

  /** Truncation is symmetric about zero, which flooring is not. */
  lemma TruncNegate(x: real)
    ensures Trunc(-x) == -Trunc(x)
  {
    TruncUnique(-x, -Trunc(x));
  }

  /** Truncation preserves order. */
  lemma TruncMonotone(x: real, y: real)
    requires x <= y
    ensures Trunc(x) <= Trunc(y)
  {
  }

  /** Truncating a quotient of integers is integer division toward zero. */
  lemma {:induction false} TruncOfQuotient(m: int, d: int)
    requires d > 0
    ensures Trunc(m as real / d as real) == TruncDiv(m, d)
  {
    var n := if m >= 0 then m else -m;
    var q, rem := n / d, n % d;
    QuotientSplit(n, d, q, rem);
    TruncUnique(n as real / d as real, q);
    if m < 0 {
      assert m as real / d as real == -(n as real / d as real);
      TruncNegate(n as real / d as real);
    }
  }

  /** The real quotient of `n = d * q + rem` is `q` plus a fraction below one. */
  lemma QuotientSplit(n: int, d: int, q: int, rem: int)
    requires d > 0 && n == d * q + rem && 0 <= rem < d
    ensures q as real <= n as real / d as real < q as real + 1.0
  {
    var dr, f := d as real, rem as real / d as real;
    assert 0.0 <= f < 1.0;
    assert f * dr == rem as real;
    assert (q as real + f) * dr == n as real;
    assert n as real / dr == q as real + f;
  }

  /** `2 ** k` for a natural exponent. */
  function Pow2(k: nat): (r: nat)
    ensures r >= 1
  {
    if k == 0 then 1 else 2 * Pow2(k - 1)
  }

  /** Raising the exponent never lowers the power. */
  lemma {:induction false} Pow2Monotone(j: nat, k: nat)
    requires j <= k
    ensures Pow2(j) <= Pow2(k)
  {
    if j < k {
      Pow2Monotone(j, k - 1);
    }
  }

  /** `Math.trunc(c * 2 ** k)` for a whole `c` and a whole exponent `k`. For a
      negative `k`, `2 ** k` is the fraction `1 / 2 ** -k`, so the product is
      the quotient `c / 2 ** -k`. The result is the exact product for a
      natural exponent and division toward zero for a negative one. */
  function Grow(c: int, k: int): (r: int)
    ensures k >= 0 ==> r == c * Pow2(k)
    ensures k < 0 ==> r == TruncDiv(c, Pow2(-k))
  {
    if k >= 0 then
      var p := Pow2(k);
      TruncTimesWhole(c, p);
      Trunc(c as real * p as real)
    else
      var d := Pow2(-k);
      TruncOfQuotient(c, d);
      Trunc(c as real / d as real)
  }

  /** For a non-negative count, more doublings never give less. */
  lemma GrowMonotone(c: nat, j: nat, k: nat)
    requires j <= k
    ensures Grow(c, j) <= Grow(c, k)
  {
    Pow2Monotone(j, k);
    assert c * Pow2(j) <= c * Pow2(k);
  }

  /** Truncating the product of two whole numbers is their integer product. */
  lemma TruncTimesWhole(c: int, p: int)
    ensures Trunc(c as real * p as real) == c * p
  {
    assert c as real * p as real == (c * p) as real;
    TruncOfInt(c * p);
  }

  /** `2 ** k` on rationals: a negative exponent gives a fraction. */
  function Power2(k: int): (r: real)
    ensures r > 0.0
    ensures k >= 0 ==> r == Pow2(k) as real
  {
    if k >= 0 then Pow2(k) as real else 1.0 / Pow2(-k) as real
  }

  /** For a natural exponent, `Grow` is `Math.trunc(c * 2 ** k)`. */
  lemma GrowIsTruncTimesPower2(c: int, k: nat)
    ensures Grow(c, k) == Trunc(c as real * Power2(k))
  {
    assert Power2(k) == Pow2(k) as real;
  }

  /** For a negative exponent, `Grow` is `Math.trunc(c * 2 ** k)` too:
      multiplying by `2 ** k` is dividing by `2 ** -k`. */
  lemma GrowIsTruncTimesPower2Negative(c: int, k: int)
    requires k < 0
    ensures Grow(c, k) == Trunc(c as real * Power2(k))
  {
    var d := Pow2(-k);
    assert Power2(k) == 1.0 / d as real;
    TimesReciprocal(c as real, d as real);
  }

  /** Multiplying by a reciprocal is dividing. */
  lemma TimesReciprocal(x: real, d: real)
    requires d != 0.0
    ensures x * (1.0 / d) == x / d
  {
  }

  /** Two decimal places: the value is a whole number of hundredths. */
  predicate IsCents(x: real) {
    (x * 100.0).Floor as real == x * 100.0
  }

  /** The magnitude from which `toFixed` stops rounding and falls back to
      the plain decimal string of the value (10^21, per the definition of
      Number.prototype.toFixed in section 21.1.3.3 of ECMA-262). */
  const FixedLimit: real := 1000000000000000000000.0

  /** `toFixed(2)` on a non-negative value: the nearest number of hundredths,
      the larger one on a tie. */
  function RoundCentsMagnitude(m: real): (r: real)
    requires m >= 0.0
    ensures m >= FixedLimit ==> r == m
    ensures m < FixedLimit ==> IsCents(r) && r * 100.0 - 0.5 <= m * 100.0 < r * 100.0 + 0.5
  {
    if m >= FixedLimit then m
    else
      var n := (m * 100.0 + 0.5).Floor;
      assert n as real / 100.0 * 100.0 == n as real;
      n as real / 100.0
  }

  /** `Number(x.toFixed(2))`: `toFixed` rounds the magnitude and restores the
      sign, so halves round away from zero. */
  function RoundCents(x: real): (r: real)
    ensures -x >= FixedLimit || x >= FixedLimit ==> r == x
    ensures -FixedLimit < x < FixedLimit ==> IsCents(r)
    ensures 0.0 <= x < FixedLimit ==> r * 100.0 - 0.5 <= x * 100.0 < r * 100.0 + 0.5
    ensures -FixedLimit < x < 0.0 ==> r * 100.0 - 0.5 < x * 100.0 <= r * 100.0 + 0.5
    ensures -0.005 <= r - x <= 0.005
  {
    if x < 0.0 then
      var m := RoundCentsMagnitude(-x);
      CentsNegate(m);
      -m
    else RoundCentsMagnitude(x)
  }

  /** Whole hundredths stay whole when negated. */
  lemma CentsNegate(x: real)
    ensures IsCents(x) ==> IsCents(-x)
  {
    if IsCents(x) {
      var k := (x * 100.0).Floor;
      var y := (-x) * 100.0;
      assert y == -(x * 100.0);
      assert y == (-k) as real;
      assert y.Floor == -k;
    }
  }

  /** A value already in whole hundredths is left as it is. */
  lemma RoundCentsOfCents(x: real)
    requires IsCents(x)
    ensures RoundCents(x) == x
  {
    var r := RoundCents(x);
    if -FixedLimit < x < FixedLimit {
      var n, k := (r * 100.0).Floor, (x * 100.0).Floor;
      assert n as real == r * 100.0 && k as real == x * 100.0;
      assert n == k;
    }
  }

  /** Rounding to cents twice is rounding once. */
  lemma RoundCentsIdempotent(x: real)
    ensures RoundCents(RoundCents(x)) == RoundCents(x)
  {
    var r := RoundCents(x);
    if -FixedLimit < x < FixedLimit {
      RoundCentsOfCents(r);
    }
  }
}
