/** Decimal rounding as the bot performs it on prices (two decimals), on
    confidences (four) and on weights (three): nearest, ties to even. Only the
    three facts proved here are used elsewhere: rounding is monotone, moves a
    value by at most half a unit, and leaves values already on the grid alone. */
module Rounding {
  import opened Common

  /** Nearest integer, ties to the even neighbour. */
  function RoundHalfEven(x: real): int {
    var f := x.Floor;
    var d := x - f as real;
    if d < 0.5 then f
    else if d > 0.5 then f + 1
    else if f % 2 == 0 then f
    else f + 1
  }

  /** `x` rounded to a multiple of 1/scale. */
  function RoundTo(x: real, scale: real): real
    requires scale > 0.0
  {
    RoundHalfEven(x * scale) as real / scale
  }

  /** A price as the broker stores it. */
  function Cents(x: real): real { RoundTo(x, 100.0) }

  lemma RoundHalfEvenNear(x: real)
    ensures -0.5 <= RoundHalfEven(x) as real - x <= 0.5
  {
  }

  lemma RoundHalfEvenMono(x: real, y: real)
    requires x <= y
    ensures RoundHalfEven(x) <= RoundHalfEven(y)
  {
    if x.Floor < y.Floor {
      assert RoundHalfEven(x) <= x.Floor + 1 <= y.Floor <= RoundHalfEven(y);
    }
  }

  lemma RoundToMono(x: real, y: real, scale: real)
    requires scale > 0.0 && x <= y
    ensures RoundTo(x, scale) <= RoundTo(y, scale)
  {
    MulLe(scale, x, y);
    RoundHalfEvenMono(x * scale, y * scale);
    DivLe(RoundHalfEven(x * scale) as real, RoundHalfEven(y * scale) as real, scale);
  }

  lemma CentsMono(x: real, y: real)
    requires x <= y
    ensures Cents(x) <= Cents(y)
  {
    RoundToMono(x, y, 100.0);
  }

  lemma RoundToNear(x: real, scale: real)
    requires scale > 0.0
    ensures Abs(RoundTo(x, scale) - x) <= 0.5 / scale
  {
    var q := RoundTo(x, scale);
    RoundHalfEvenNear(x * scale);
    assert q * scale == RoundHalfEven(x * scale) as real;
    WithinHalf(q - x, scale, q * scale - x * scale);
  }

  lemma WithinHalf(d: real, scale: real, scaled: real)
    requires scale > 0.0 && scaled == d * scale && -0.5 <= scaled <= 0.5
    ensures Abs(d) <= 0.5 / scale
  {
    assert d == scaled / scale;
    DivLe(scaled, 0.5, scale);
    DivLe(-0.5, scaled, scale);
    assert -0.5 / scale == -(0.5 / scale);
  }

  /** A value already on the grid survives rounding. */
  lemma RoundToGrid(x: real, n: int, scale: real)
    requires scale > 0.0 && x * scale == n as real
    ensures RoundTo(x, scale) == x
  {
    var q := RoundTo(x, scale);
    assert q * scale == x * scale;
    if q < x { MulLt(scale, q, x); }
    if x < q { MulLt(scale, x, q); }
  }

  /** Rounding lands at or below a whole number exactly when the value is less than
      half above it, or just half above an even one. */
  lemma RoundHalfEvenAtMostIff(x: real, n: int)
    ensures RoundHalfEven(x) <= n <==> x < n as real + 0.5 || (x == n as real + 0.5 && n % 2 == 0)
  {
    assert x.Floor < n ==> RoundHalfEven(x) <= n && x < n as real;
    assert x.Floor > n ==> RoundHalfEven(x) > n && x >= n as real + 1.0;
  }

  /** Rounding stays at or below `bound` exactly when it does not pass the last
      grid point at or below `bound`. */
  lemma RoundToAtMostIff(x: real, bound: real, scale: real)
    requires scale > 0.0
    ensures RoundTo(x, scale) <= bound <==> RoundHalfEven(x * scale) <= (bound * scale).Floor
  {
    var n, r := RoundHalfEven(x * scale), RoundTo(x, scale);
    assert r * scale == n as real;
    if r <= bound {
      MulLe(scale, r, bound);
    } else {
      MulLt(scale, bound, r);
    }
  }

  function Ceil(x: real): int { -(-x).Floor }

  lemma RoundHalfEvenAtLeastIff(x: real, n: int)
    ensures n <= RoundHalfEven(x) <==> x > n as real - 0.5 || (x == n as real - 0.5 && n % 2 == 0)
  {
    RoundHalfEvenAtMostIff(x, n - 1);
    assert RoundHalfEven(x) <= n - 1 <==> !(n <= RoundHalfEven(x));
    assert (n - 1) as real + 0.5 == n as real - 0.5;
  }

  /** Rounding stays at or above `bound` exactly when it does not fall short of the
      first grid point at or above `bound`. */
  lemma RoundToAtLeastIff(x: real, bound: real, scale: real)
    requires scale > 0.0
    ensures bound <= RoundTo(x, scale) <==> Ceil(bound * scale) <= RoundHalfEven(x * scale)
  {
    var n, r := RoundHalfEven(x * scale), RoundTo(x, scale);
    assert r * scale == n as real;
    if bound <= r {
      MulLe(scale, bound, r);
    } else {
      MulLt(scale, r, bound);
    }
    CeilAtMostIff(bound * scale, n);
  }

  lemma CeilAtMostIff(y: real, n: int)
    ensures Ceil(y) <= n <==> y <= n as real
  {
  }

  /** `x` counted in steps of 1/scale. */
  function Steps(x: real, scale: real): real { x * scale }

  /** Less than half a step outside the whole steps from `first` to `last`, or just
      half outside an even one. */
  predicate RoundsInto(steps: real, first: int, last: int) {
    && (steps > first as real - 0.5 || (steps == first as real - 0.5 && first % 2 == 0))
    && (steps < last as real + 0.5 || (steps == last as real + 0.5 && last % 2 == 0))
  }

  /** Rounding lands between two bounds exactly when the value rounds into the whole
      steps between them. */
  lemma RoundToBetweenIff(x: real, low: real, high: real, scale: real)
    requires scale > 0.0
    ensures low <= RoundTo(x, scale) <= high
       <==> RoundsInto(Steps(x, scale), Ceil(Steps(low, scale)), Steps(high, scale).Floor)
  {
    hide RoundTo, RoundHalfEven, Ceil;
    RoundToAtMostIff(x, high, scale);
    RoundToAtLeastIff(x, low, scale);
    RoundHalfEvenAtMostIff(x * scale, (high * scale).Floor);
    RoundHalfEvenAtLeastIff(x * scale, Ceil(low * scale));
  }
}
