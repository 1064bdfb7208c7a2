/**
 * Exact decimal arithmetic over `real`: Python `Decimal` values read from
 * the exchange's filter strings, truncation toward zero (`Decimal //`),
 * `math.floor` and `math.ceil`, and "is a multiple of the step".
 */
module Decimals {
  import Text

  /**
   * A `Decimal` as Python keeps it: a coefficient whose digits are kept as
   * written (`Decimal('0.00100')` has coefficient 100 and exponent -5) and a
   * power-of-ten exponent.
   */
  datatype Dec = Dec(coefficient: nat, exponent: int)
  {
    function Value(): (v: real)
      ensures v >= 0.0
    {
      coefficient as real * Pow10(exponent)
    }

    /** `len(d.as_tuple()[1])`: the number of coefficient digits. */
    function DigitCount(): (n: nat)
      ensures n >= 1
    {
      NumDigits(coefficient)
    }

    /** The number of digits after the decimal point. */
    function FractionDigits(): nat {
      if exponent < 0 then -exponent else 0
    }

    /** The value counted in units of its last decimal place. */
    function Units(): nat {
      if exponent < 0 then coefficient else coefficient * Text.Pow10(exponent)
    }
  }

  /** A non-zero decimal counts at least one unit. */
  lemma UnitsPositive(d: Dec)
    requires d.Value() > 0.0
    ensures d.Units() >= 1
  {
    if d.exponent >= 0 {
      assert d.coefficient != 0;
    }
  }

  /** A decimal is a whole number of units of its last decimal place. */
  lemma ValueInUnits(d: Dec)
    ensures d.Value() == d.Units() as real * Pow10(-(d.FractionDigits() as int))
  {
  }

  /** Decimal digits of `n`; zero is written with one digit. */
  function NumDigits(n: nat): (k: nat)
    ensures k >= 1
  {
    if n < 10 then 1 else 1 + NumDigits(n / 10)
  }

  /** 10 raised to an integer power. */
  function Pow10(e: int): (p: real)
    ensures p > 0.0
  {
    if e >= 0 then Text.Pow10(e) as real else 1.0 / Text.Pow10(-e) as real
  }

  function Abs(x: real): real { if x < 0.0 then -x else x }

  /** `math.floor` */
  function Floor(x: real): (k: int)
    ensures k as real <= x < k as real + 1.0
  {
    x.Floor
  }

  /** `math.ceil` */
  function Ceil(x: real): (k: int)
    ensures k as real - 1.0 < x <= k as real
  {
    -((-x).Floor)
  }

  /** Integer part rounded toward zero, as `Decimal //` produces it. */
  function Trunc(x: real): (k: int)
    ensures x >= 0.0 ==> 0 <= k && k as real <= x < k as real + 1.0
    ensures x < 0.0 ==> k <= 0 && k as real - 1.0 < x <= k as real
  {
    if x >= 0.0 then Floor(x) else -Floor(-x)
  }

  predicate IsIntegral(x: real) { x.Floor as real == x }

  /** `r` is a whole number of steps `s`. */
  predicate IsMultiple(r: real, s: real) {
    s != 0.0 && IsIntegral(r / s)
  }

  lemma MulLe(a: real, b: real, c: real)
    requires a <= b && c >= 0.0
    ensures a * c <= b * c
  {
  }

  lemma MulLt(a: real, b: real, c: real)
    requires a < b && c > 0.0
    ensures a * c < b * c
  {
  }

  /** A whole number of steps, divided by the step, is that whole number. */
  lemma MultipleOf(k: int, s: real)
    requires s != 0.0
    ensures IsMultiple(k as real * s, s)
  {
    var r := k as real * s;
    assert r / s == k as real;
    assert (k as real).Floor == k;
  }

  /**
   * `(x // s) * s`: `x` truncated toward zero to a whole number of steps
   * `s`. For positive `s` the result never moves away from zero and lies
   * less than one step from `x`.
   */
  function Trim(x: real, s: real): (r: real)
    requires s != 0.0
    ensures IsMultiple(r, s)
    ensures s > 0.0 && x >= 0.0 ==> 0.0 <= r <= x < r + s
    ensures s > 0.0 && x < 0.0 ==> r - s < x <= r <= 0.0
  {
    var k := Trunc(x / s);
    MultipleOf(k, s);
    TrimBounds(x, s);
    k as real * s
  }

  lemma TrimBounds(x: real, s: real)
    requires s != 0.0
    ensures s > 0.0 && x >= 0.0 ==>
              0.0 <= Trunc(x / s) as real * s <= x < Trunc(x / s) as real * s + s
    ensures s > 0.0 && x < 0.0 ==>
              Trunc(x / s) as real * s - s < x <= Trunc(x / s) as real * s <= 0.0
  {
    var k := Trunc(x / s);
    if s > 0.0 {
      if x >= 0.0 { StepBelow(x, s, k); } else { StepAbove(x, s, k); }
    }
  }

  lemma AddOneTimes(k: real, s: real)
    ensures (k + 1.0) * s == k * s + s
  {
  }

  lemma SubOneTimes(k: real, s: real)
    ensures (k - 1.0) * s == k * s - s
  {
  }

  lemma LtNextStep(x: real, s: real, k: real)
    requires s > 0.0 && x / s < k + 1.0
    ensures x < k * s + s
  {
    var q := x / s;
    MulLt(q, k + 1.0, s);
    AddOneTimes(k, s);
    assert x == q * s;
  }

  lemma GtPrevStep(x: real, s: real, k: real)
    requires s > 0.0 && k - 1.0 < x / s
    ensures k * s - s < x
  {
    var q := x / s;
    MulLt(k - 1.0, q, s);
    SubOneTimes(k, s);
    assert x == q * s;
  }

  lemma LeSteps(x: real, s: real, k: real)
    requires s > 0.0 && k <= x / s
    ensures k * s <= x
  {
    var q := x / s;
    MulLe(k, q, s);
    assert x == q * s;
  }

  lemma GeSteps(x: real, s: real, k: real)
    requires s > 0.0 && x / s <= k
    ensures x <= k * s
  {
    var q := x / s;
    MulLe(q, k, s);
    assert x == q * s;
  }

  /** `k` whole steps, with `k <= x/s < k + 1`, lie at most `x` and within a step of it. */
  lemma StepBelow(x: real, s: real, k: int)
    requires s > 0.0 && 0 <= k && k as real <= x / s < k as real + 1.0
    ensures 0.0 <= k as real * s <= x < k as real * s + s
  {
    LtNextStep(x, s, k as real);
    LeSteps(x, s, k as real);
    MulLe(0.0, k as real, s);
  }

  /** `k` whole steps, with `k - 1 < x/s <= k <= 0`, lie at least `x` and within a step of it. */
  lemma StepAbove(x: real, s: real, k: int)
    requires s > 0.0 && k <= 0 && k as real - 1.0 < x / s <= k as real
    ensures k as real * s - s < x <= k as real * s <= 0.0
  {
    GtPrevStep(x, s, k as real);
    GeSteps(x, s, k as real);
    MulLe(k as real, 0.0, s);
  }

  /**
   * `Decimal.quantize(Decimal('.' + '0' * p), rounding=ROUND_DOWN)`: `x`
   * cut to `p` decimal places, toward zero.
   */
  function RoundDownPlaces(x: real, p: nat): (r: real)
    ensures IsMultiple(r, Pow10(-(p as int)))
    ensures x >= 0.0 ==> 0.0 <= r <= x < r + Pow10(-(p as int))
  {
    Trim(x, Pow10(-(p as int)))
  }

  lemma DivLe(a: real, b: real, c: real)
    requires a <= b && c > 0.0
    ensures a / c <= b / c
  {
  }

  /** Trimming is monotone: a larger value never trims to less. */
  lemma TrimMonotone(x: real, y: real, s: real)
    requires s > 0.0 && 0.0 <= x <= y
    ensures Trim(x, s) <= Trim(y, s)
  {
    TrimFloors(x, s);
    TrimFloors(y, s);
    FloorStepsLe(x, y, s, Trim(x, s), Trim(y, s));
  }

  /** Whole steps counted in a smaller amount never exceed those counted in a larger one. */
  lemma FloorStepsLe(x: real, y: real, s: real, a: real, b: real)
    requires s > 0.0 && 0.0 <= x <= y && a == Floor(x / s) as real * s && b == Floor(y / s) as real * s
    ensures a <= b
  {
    DivLe(x, y, s);
    var i, j := Floor(x / s), Floor(y / s);
    assert i as real < j as real + 1.0;
    assert i <= j;
    MulLe(i as real, j as real, s);
  }

  /** A non-negative multiple of `s` is left unchanged by trimming. */
  lemma TrimMultiple(x: real, s: real)
    requires s > 0.0 && x >= 0.0 && IsMultiple(x, s)
    ensures Trim(x, s) == x
  {
    assert Trunc(x / s) as real == x / s;
    assert (x / s) * s == x;
  }

  /**
   * The largest multiple of `s` not above `x` is at least every multiple of
   * `s` not above `x`.
   */
  lemma TrimIsLargest(m: real, x: real, s: real)
    requires s > 0.0 && 0.0 <= m <= x && IsMultiple(m, s)
    ensures m <= Trim(x, s)
  {
    TrimMonotone(m, x, s);
    TrimMultiple(m, s);
  }

  lemma LeQuotient(x: real, s: real, k: real)
    requires s > 0.0 && k * s <= x
    ensures k <= x / s
  {
    var q := x / s;
    assert x == q * s;
    if q < k {
      MulLt(q, k, s);
    }
  }

  lemma LtQuotient(x: real, s: real, k: real)
    requires s > 0.0 && x < k * s
    ensures x / s < k
  {
    var q := x / s;
    assert x == q * s;
    if k <= q {
      MulLe(k, q, s);
    }
  }

  /** Flooring before a division by a whole number does not change the floor of the quotient. */
  lemma FloorDivFloor(y: real, c: int)
    requires y >= 0.0 && c >= 1
    ensures Floor(Floor(y) as real / c as real) == Floor(y / c as real)
  {
    var k := Floor(y / c as real);
    var a := Floor(y);
    var cr := c as real;
    LeSteps(y, cr, k as real);
    LtNextStep(y, cr, k as real);
    assert (k * c) as real == k as real * cr;
    assert ((k + 1) * c) as real == k as real * cr + cr;
    assert k * c <= a;
    assert a < (k + 1) * c;
    LeQuotient(a as real, cr, k as real);
    LtQuotient(a as real, cr, k as real + 1.0);
  }

  lemma CancelUnit(a: real, c: real, u: real)
    requires c != 0.0 && u != 0.0
    ensures (a * u) / (c * u) == a / c
  {
  }

  lemma DivDiv(x: real, c: real, u: real)
    requires c != 0.0 && u != 0.0
    ensures x / (c * u) == (x / u) / c
  {
  }

  /**
   * Truncating first to a fine grid `u` and then to a coarser step that is a
   * whole number `c` of grid units gives the same as truncating to the step
   * directly.
   */
  lemma TrimTwice(x: real, u: real, c: int, s: real)
    requires x >= 0.0 && u > 0.0 && c >= 1 && s == c as real * u
    ensures Trim(Trim(x, u), s) == Trim(x, s)
  {
    TrimThenTrim(x, u, c, s);
    TrimByUnits(x, u, c, s);
  }

  /** Truncating to the grid and then to the step counts whole steps in the floored number of grid units. */
  lemma TrimThenTrim(x: real, u: real, c: int, s: real)
    requires x >= 0.0 && u > 0.0 && c >= 1 && s == c as real * u
    ensures x / u >= 0.0
    ensures Trim(Trim(x, u), s) == Floor(Floor(x / u) as real / c as real) as real * s
  {
    TrimFloors(x, u);
    TrimOnGrid(Floor(x / u), u, c, s, Trim(x, u));
  }

  /** Truncating a non-negative amount to a positive step keeps a whole, non-negative number of steps. */
  lemma TrimFloors(x: real, s: real)
    requires x >= 0.0 && s > 0.0
    ensures x / s >= 0.0 && Floor(x / s) >= 0
    ensures Trim(x, s) == Floor(x / s) as real * s
  {
    var q := x / s;
    assert q * s == x;
    if q < 0.0 {
      MulLt(q, 0.0, s);
    }
  }

  /** A whole number `a` of grid units truncated to `c` units is the floor of `a / c` steps. */
  lemma TrimOnGrid(a: int, u: real, c: int, s: real, t: real)
    requires a >= 0 && u > 0.0 && c >= 1 && s == c as real * u && t == a as real * u
    ensures Trim(t, s) == Floor(a as real / c as real) as real * s
  {
    CancelUnit(a as real, c as real, u);
  }

  /** Truncating to `c` grid units counts whole steps in the whole number of grid units. */
  lemma TrimByUnits(x: real, u: real, c: int, s: real)
    requires x >= 0.0 && u > 0.0 && c >= 1 && s == c as real * u
    ensures Trim(x, s) == Floor(Floor(x / u) as real / c as real) as real * s
  {
    DivDiv(x, c as real, u);
    FloorDivFloor(x / u, c);
  }

  /** Python's `round(x)`: the nearest integer, ties to the even one. */
  function RoundHalfEven(x: real): (k: int)
    ensures k as real - 0.5 <= x <= k as real + 0.5
    ensures x - Floor(x) as real == 0.5 ==> k % 2 == 0
  {
    var f := Floor(x);
    if x - f as real < 0.5 then f
    else if x - f as real > 0.5 then f + 1
    else if f % 2 == 0 then f
    else f + 1
  }

  /** No integer lies nearer to `x` than `RoundHalfEven(x)`. */
  lemma RoundIsNearest(x: real, j: int)
    ensures Abs(x - RoundHalfEven(x) as real) <= Abs(x - j as real)
  {
    var k := RoundHalfEven(x);
    if j < k {
      assert j as real <= k as real - 1.0;
    } else if j > k {
      assert j as real >= k as real + 1.0;
    }
  }

  /** Rounding a price to a whole number of ticks moves it by at most half a tick. */
  lemma NearestTick(price: real, tick: real)
    requires tick > 0.0
    ensures Abs(RoundHalfEven(price / tick) as real * tick - price) <= tick / 2.0
  {
    WithinHalfStep(price, tick, RoundHalfEven(price / tick) as real);
  }

  lemma WithinHalfStep(x: real, s: real, k: real)
    requires s > 0.0 && k - 0.5 <= x / s <= k + 0.5
    ensures Abs(k * s - x) <= s / 2.0
  {
    var q := x / s;
    assert x == q * s;
    MulLe(k - 0.5, q, s);
    MulLe(q, k + 0.5, s);
    assert (k - 0.5) * s == k * s - s / 2.0;
    assert (k + 0.5) * s == k * s + s / 2.0;
  }
}
