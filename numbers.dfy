/** Decimal rounding and scale checks on exact amounts.
    A scale `s` is the number of decimal places kept; the unit at that scale is 10^-s. */
module Numbers {

  function Pow10(n: nat): (r: real)
    ensures r >= 1.0
  {
    if n == 0 then 1.0 else 10.0 * Pow10(n - 1)
  }

  /** Smallest integer not below `x`. */
  function Ceil(x: real): (c: int)
    ensures x <= c as real < x + 1.0
  {
    -((-x).Floor)
  }

  /** Rounds half away from zero: 2.5 becomes 3, -2.5 becomes -3. */
  function HalfUp(x: real): (n: int)
    ensures x - 0.5 <= n as real <= x + 0.5
    ensures x >= 0.0 ==> x - 0.5 < n as real <= x + 0.5
    ensures x < 0.0 ==> x - 0.5 <= n as real < x + 0.5
  {
    if x >= 0.0 then (x + 0.5).Floor else -((-x + 0.5).Floor)
  }

  /** The value has at most `scale` decimal places (its scale once trailing zeros are stripped). */
  predicate IsScaleSmallerOrEqual(x: real, scale: nat)
  {
    (x * Pow10(scale)).Floor as real == x * Pow10(scale)
  }

  /** Rounds towards positive infinity to `scale` decimal places. */
  function SetScaleRoundUp(x: real, scale: nat): (r: real)
    ensures x <= r < x + 1.0 / Pow10(scale)
    ensures IsScaleSmallerOrEqual(r, scale)
  {
    var p := Pow10(scale);
    var c := Ceil(x * p);
    UnitBounds(x, c as real, p);
    IntegerOverScale(c, scale);
    c as real / p
  }

  /** Rounds to the nearest value with `scale` decimal places, halves away from zero. */
  function SetScaleRoundHalfUp(x: real, scale: nat): (r: real)
    ensures x - 0.5 / Pow10(scale) <= r <= x + 0.5 / Pow10(scale)
    ensures IsScaleSmallerOrEqual(r, scale)
  {
    var p := Pow10(scale);
    var n := HalfUp(x * p);
    HalfBounds(x, n as real, p);
    IntegerOverScale(n, scale);
    n as real / p
  }

  lemma DivMulCancel(c: real, p: real)
    requires p >= 1.0
    ensures (c / p) * p == c
  {
  }

  lemma IntegerOverScale(c: int, scale: nat)
    ensures IsScaleSmallerOrEqual(c as real / Pow10(scale), scale)
  {
    var p := Pow10(scale);
    DivMulCancel(c as real, p);
    assert (c as real / p) * p == c as real;
    assert (c as real).Floor == c;
  }

  lemma UnitBounds(x: real, c: real, p: real)
    requires p >= 1.0
    requires x * p <= c < x * p + 1.0
    ensures x <= c / p < x + 1.0 / p
  {
    assert c / p - x == (c - x * p) / p;
    assert 1.0 / p > 0.0;
  }

  lemma HalfBounds(x: real, n: real, p: real)
    requires p >= 1.0
    requires x * p - 0.5 <= n <= x * p + 0.5
    ensures x - 0.5 / p <= n / p <= x + 0.5 / p
  {
    assert n / p - x == (n - x * p) / p;
  }

  /** A whole value at least n and below n + 1 is n. */
  lemma WholeBetween(r: real, n: int)
    requires r.Floor as real == r
    requires n as real <= r < n as real + 1.0
    ensures r == n as real
  {
    var k := r.Floor;
    assert n as real <= k as real < (n + 1) as real;
    assert n <= k < n + 1;
  }

  lemma ScaleZeroIsWhole(r: real)
    requires IsScaleSmallerOrEqual(r, 0)
    ensures r.Floor as real == r
  {
    assert Pow10(0) == 1.0;
    assert r * Pow10(0) == r;
  }

  /** At scale zero both roundings leave a whole amount as it is. */
  lemma WholeAmountsAtScaleZero(n: int)
    ensures SetScaleRoundUp(n as real, 0) == n as real
    ensures SetScaleRoundHalfUp(n as real, 0) == n as real
  {
    assert Pow10(0) == 1.0;
    assert 1.0 / Pow10(0) == 1.0 && 0.5 / Pow10(0) == 0.5;
    var u := SetScaleRoundUp(n as real, 0);
    ScaleZeroIsWhole(u);
    WholeBetween(u, n);
    var h := SetScaleRoundHalfUp(n as real, 0);
    ScaleZeroIsWhole(h);
    WholeWithinHalf(h, n);
  }

  lemma WholeWithinHalf(r: real, n: int)
    requires r.Floor as real == r
    requires n as real - 0.5 <= r <= n as real + 0.5
    ensures r == n as real
  {
    var k := r.Floor;
    assert (n - 1) as real < k as real < (n + 1) as real;
    assert n - 1 < k < n + 1;
  }
}
