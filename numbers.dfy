/**
 * Numeric conversions shared by the C++ and Python parts of the launch
 * monitor: absolute value, truncation toward zero (C++ `static_cast<int>`,
 * Python `int()`), and Python's `round(x, n)` (round half to even).
 * Floating-point values are modelled as exact reals.
 */
module Numbers {
  function Abs(x: real): (r: real)
    ensures r >= 0.0 && (r == x || r == -x)
  {
    if x < 0.0 then -x else x
  }

  function Min(a: int, b: int): (r: int)
    ensures r <= a && r <= b && (r == a || r == b)
  {
    if b < a then b else a
  }

  function Max(a: int, b: int): (r: int)
    ensures r >= a && r >= b && (r == a || r == b)
  {
    if a < b then b else a
  }

  function MinR(a: real, b: real): (r: real)
    ensures r <= a && r <= b && (r == a || r == b)
  {
    if b < a then b else a
  }

  function MaxR(a: real, b: real): (r: real)
    ensures r >= a && r >= b && (r == a || r == b)
  {
    if a < b then b else a
  }

  /** Conversion to an integer by dropping the fraction, toward zero. */
  function Trunc(x: real): (r: int)
    ensures x >= 0.0 ==> r >= 0 && r as real <= x < r as real + 1.0
    ensures x < 0.0 ==> r <= 0 && r as real - 1.0 < x <= r as real
  {
    if x >= 0.0 then x.Floor else -((-x).Floor)
  }

  /** The integer nearest to y; a tie goes to the even neighbour. */
  function RoundHalfEven(y: real): (k: int)
    ensures y - 0.5 <= k as real <= y + 0.5
    ensures k as real == y - 0.5 || k as real == y + 0.5 ==> k % 2 == 0
  {
    var f := y.Floor;
    var frac := y - f as real;
    if frac < 0.5 then f
    else if frac > 0.5 then f + 1
    else if f % 2 == 0 then f else f + 1
  }

  /** Rounding to the nearest integer never reverses an order. */
  lemma RoundMonotone(a: real, b: real)
    requires a <= b
    ensures RoundHalfEven(a) <= RoundHalfEven(b)
  {
  }

  /** Python's `round(x, n)` on the exact value of x, where scale is 10 to the n. */
  function Round(x: real, scale: nat): (r: real)
    requires scale >= 1
  {
    RoundHalfEven(x * scale as real) as real / scale as real
  }

  /** The rounded value is within half a unit of the last kept digit. */
  lemma RoundClose(x: real, scale: nat)
    requires scale >= 1
    ensures Abs(Round(x, scale) - x) <= 0.5 / scale as real
  {
    var d := RoundHalfEven(x * scale as real) as real - x * scale as real;
    assert Round(x, scale) == (x * scale as real + d) / scale as real;
    assert (x * scale as real + d) / scale as real == x + d / scale as real;
    DivBound(d, scale as real);
  }

  lemma DivBound(d: real, p: real)
    requires p >= 1.0 && Abs(d) <= 0.5
    ensures Abs(d / p) <= 0.5 / p
  {
    if d >= 0.0 {
      assert d / p <= 0.5 / p;
    } else {
      assert -d / p <= 0.5 / p;
      assert d / p == -(-d / p);
    }
  }

  /** A value that has no digits beyond the scale. */
  predicate HasDigits(x: real, scale: nat) {
    (x * scale as real).Floor as real == x * scale as real
  }

  lemma RoundHasDigits(x: real, scale: nat)
    requires scale >= 1
    ensures HasDigits(Round(x, scale), scale)
  {
    var k := RoundHalfEven(x * scale as real);
    assert Round(x, scale) * scale as real == k as real;
    assert (k as real).Floor == k;
  }

  /** Rounding a value that already has no further digits leaves it alone. */
  lemma {:induction false} RoundIdempotent(x: real, scale: nat)
    requires scale >= 1 && HasDigits(x, scale)
    ensures Round(x, scale) == x
  {
    assert RoundHalfEven(x * scale as real) == (x * scale as real).Floor;
    assert Round(x, scale) == (x * scale as real) / scale as real;
  }

  /** Rounding never passes a bound that itself has no further digits. */
  lemma RoundAtMost(x: real, y: real, scale: nat)
    requires scale >= 1 && HasDigits(y, scale) && x <= y
    ensures Round(x, scale) <= y
  {
    var k := ScaledWhole(y, scale);
    ScaleMonotone(x, y, scale as real);
    RoundMonotone(x * scale as real, y * scale as real);
    DivMonotone(RoundHalfEven(x * scale as real) as real, k as real, scale as real);
    RoundUnfold(x, scale);
  }

  lemma RoundAtLeast(x: real, y: real, scale: nat)
    requires scale >= 1 && HasDigits(y, scale) && y <= x
    ensures y <= Round(x, scale)
  {
    var k := ScaledWhole(y, scale);
    ScaleMonotone(y, x, scale as real);
    RoundMonotone(y * scale as real, x * scale as real);
    DivMonotone(k as real, RoundHalfEven(x * scale as real) as real, scale as real);
    RoundUnfold(x, scale);
  }

  /** A value with no digits beyond the scale is a whole number of units, which rounds to itself. */
  lemma ScaledWhole(y: real, scale: nat) returns (k: int)
    requires scale >= 1 && HasDigits(y, scale)
    ensures k as real == y * scale as real && RoundHalfEven(y * scale as real) == k
    ensures (k as real) / scale as real == y
  {
    k := (y * scale as real).Floor;
    RoundWhole(y * scale as real);
    DivScaled(y, scale as real);
  }

  lemma DivScaled(y: real, p: real)
    requires p > 0.0
    ensures (y * p) / p == y
  {
  }

  lemma RoundUnfold(x: real, scale: nat)
    requires scale >= 1
    ensures Round(x, scale) == RoundHalfEven(x * scale as real) as real / scale as real
  {
  }

  /** A whole number rounds to itself. */
  lemma RoundWhole(y: real)
    requires y.Floor as real == y
    ensures RoundHalfEven(y) == y.Floor
  {
  }

  lemma ScaleMonotone(a: real, b: real, p: real)
    requires a <= b && p >= 0.0
    ensures a * p <= b * p
  {
    assert b * p - a * p == (b - a) * p;
  }

  lemma DivMonotone(a: real, b: real, p: real)
    requires a <= b && p > 0.0
    ensures a / p <= b / p
  {
    assert b / p - a / p == (b - a) / p;
  }
}
