/**
 * The part of JavaScript's number semantics the core relies on. Numbers are
 * exact reals; a division by zero yields one of the non-finite values a
 * double can hold instead of being excluded by a precondition.
 */
module Numeric {

  /** A double: a finite value, kept as an exact real, or a non-finite one. */
  datatype Num = Finite(value: real) | PosInfinity | NegInfinity | NaN

  /**
   * JavaScript's `x / d` on finite operands. A zero divisor is taken to be
   * positive zero, so the result is +Infinity, -Infinity or NaN by the sign
   * of `x`.
   */
  function Div(x: real, d: real): (r: Num)
    ensures r.Finite? <==> d != 0.0
    ensures r.Finite? ==> r.value * d == x
    ensures d == 0.0 ==> (r == PosInfinity <==> x > 0.0) && (r == NegInfinity <==> x < 0.0)
  {
    if d != 0.0 then Finite(x / d)
    else if x > 0.0 then PosInfinity
    else if x < 0.0 then NegInfinity
    else NaN
  }

  /** JavaScript's `Math.min(x, y)`: NaN if either is NaN, the smaller otherwise. */
  function Min(x: Num, y: Num): (r: Num)
    ensures (x.NaN? || y.NaN?) <==> r.NaN?
    ensures x.Finite? && y.Finite? ==> r.Finite? && r.value <= x.value && r.value <= y.value
                                       && (r.value == x.value || r.value == y.value)
    ensures x.Finite? && y == PosInfinity ==> r == x
  {
    if x.NaN? || y.NaN? then NaN
    else if x.NegInfinity? || y.NegInfinity? then NegInfinity
    else if x.PosInfinity? then y
    else if y.PosInfinity? then x
    else Finite(if x.value <= y.value then x.value else y.value)
  }

  /** JavaScript's `Math.abs` on a finite number. */
  function Abs(x: real): (r: real)
    ensures r >= 0.0 && (r == x || r == -x)
  {
    if x < 0.0 then -x else x
  }

  /** `x` halved `n` times: `x / 2^n`. */
  function Halve(x: real, n: nat): (r: real)
    ensures x >= 0.0 ==> 0.0 <= r <= x
    ensures x < 0.0 ==> x <= r < 0.0
  {
    if n == 0 then x else Halve(x, n - 1) / 2.0
  }

  /** Halving first and then `n` more times is halving `n + 1` times. */
  lemma {:induction false} HalveFirst(x: real, n: nat)
    ensures Halve(x / 2.0, n) == Halve(x, n + 1)
  {
    if n > 0 {
      HalveFirst(x, n - 1);
    }
  }

  /** `sqrt` behaves as `Math.sqrt` on the non-negative reals. */
  ghost predicate IsSqrt(sqrt: real -> real)
  {
    forall x :: 0.0 <= x ==> 0.0 <= sqrt(x) && sqrt(x) * sqrt(x) == x
  }

  /** `f` is strictly increasing, as `Math.asinh` is. */
  ghost predicate IsIncreasing(f: real -> real)
  {
    forall x, y :: x < y ==> f(x) < f(y)
  }

  /** A square root of a positive number is positive. */
  lemma SqrtPositive(sqrt: real -> real, x: real)
    requires IsSqrt(sqrt) && x > 0.0
    ensures sqrt(x) > 0.0
  {
    assert sqrt(x) * sqrt(x) == x;
  }

  /** Square roots keep the order of their arguments. */
  lemma SqrtStrictlyIncreasing(sqrt: real -> real, x: real, y: real)
    requires IsSqrt(sqrt) && 0.0 <= x < y
    ensures sqrt(x) < sqrt(y)
  {
    var sx, sy := sqrt(x), sqrt(y);
    assert sx * sx == x && sy * sy == y && sx >= 0.0 && sy >= 0.0;
    assert (sy - sx) * (sy + sx) == y - x > 0.0;
  }

  /** The square root of a number in [0, 1) lies in [0, 1). */
  lemma SqrtBelowOne(sqrt: real -> real, x: real)
    requires IsSqrt(sqrt) && 0.0 <= x < 1.0
    ensures 0.0 <= sqrt(x) < 1.0
  {
    SqrtStrictlyIncreasing(sqrt, x, 1.0);
    var one := sqrt(1.0);
    assert one * one == 1.0 && one >= 0.0;
    assert (one - 1.0) * (one + 1.0) == 0.0;
  }

  /** Multiplying by a positive factor keeps a strict order. */
  lemma ScaleStrictlyIncreasing(c: real, u: real, v: real)
    requires c > 0.0 && u < v
    ensures c * u < c * v
  {
  }

  /** Multiplying by a non-negative factor keeps an order. */
  lemma ScaleMonotone(c: real, u: real, v: real)
    requires c >= 0.0 && u <= v
    ensures c * u <= c * v
  {
    assert c * v - c * u == c * (v - u);
  }

  /** A product of non-negative factors is non-negative. */
  lemma ProductNonNegative(x: real, y: real)
    requires x >= 0.0 && y >= 0.0
    ensures x * y >= 0.0
  {
    ScaleMonotone(x, 0.0, y);
  }

  /** A product of increasing non-negative factors increases strictly if one factor does. */
  lemma ProductStrictlyIncreasing(u: real, x: real, v: real, y: real)
    requires 0.0 < u <= v && 0.0 <= x < y
    ensures u * x < v * y
  {
    ScaleStrictlyIncreasing(u, x, y);
    assert u * y <= v * y;
  }

  /** Squaring keeps the order of non-negative numbers. */
  lemma SquareStrictlyIncreasing(x: real, y: real)
    requires 0.0 <= x < y
    ensures x * x < y * y
  {
    var xx, yx, yy := x * x, y * x, y * y;
    assert yx < yy;
    assert xx <= yx;
    assert xx < yy;
  }
}
