/**
 * Swift numeric primitives on unbounded reals and integers: absolute value,
 * min/max, the truncating `Int(_: Double)` conversion and `round`.
 * Floating-point rounding and range are not modelled.
 */
module Numeric {

  function Abs(x: real): (r: real)
    ensures r >= 0.0 && (r == x || r == -x)
  {
    if x < 0.0 then -x else x
  }

  function Min(a: real, b: real): (r: real)
    ensures r <= a && r <= b && (r == a || r == b)
  {
    if a <= b then a else b
  }

  function Max(a: real, b: real): (r: real)
    ensures r >= a && r >= b && (r == a || r == b)
  {
    if a >= b then a else b
  }

  /** Swift's `Int(_: Double)`: rounds toward zero. */
  function Trunc(x: real): (n: int)
    ensures x >= 0.0 ==> n >= 0 && (n as real) <= x < (n as real) + 1.0
    ensures x < 0.0 ==> n <= 0 && (n as real) - 1.0 < x <= (n as real)
  {
    if x >= 0.0 then x.Floor else -((-x).Floor)
  }

  /** Swift's `round`: to the nearest integer, halves away from zero. */
  function Round(x: real): (n: int)
    ensures Abs(x - n as real) <= 0.5
    ensures Abs(x - n as real) == 0.5 ==> (x >= 0.0 ==> (n as real) > x) && (x < 0.0 ==> (n as real) < x)
  {
    if x >= 0.0 then (x + 0.5).Floor else -((-x + 0.5).Floor)
  }

  /** `min(max(v, lo), hi)` as Swift evaluates it. */
  function Clamp(v: real, lo: real, hi: real): (r: real)
    requires lo <= hi
    ensures lo <= r <= hi
    ensures lo <= v <= hi ==> r == v
    ensures v < lo ==> r == lo
    ensures v > hi ==> r == hi
  {
    Min(Max(v, lo), hi)
  }
}
