/** The arithmetic of the C++ source that differs from Dafny's: conversion of a
    double to `int` (truncation toward zero), integer division and remainder
    truncating toward zero, a division whose divisor may vanish, and the
    real arithmetic the columns' proofs share. */
module CArith {

  /** `(int) x`: truncation toward zero. */
  function Trunc(x: real): (r: int)
    ensures x >= 0.0 ==> r as real <= x < r as real + 1.0
    ensures x < 0.0 ==> r as real - 1.0 < x <= r as real
  {
    if x >= 0.0 then x.Floor else -((-x).Floor)
  }

  /** C's `a / b` on `int` for a positive divisor: the quotient truncated
      toward zero. */
  function Quotient(a: int, b: int): (q: int)
    requires b > 0
    ensures 0 <= a ==> 0 <= a - q * b < b
    ensures a < 0 ==> -b < a - q * b <= 0
  {
    if a >= 0 then
      assert a == (a / b) * b + a % b;
      a / b
    else
      assert -a == ((-a) / b) * b + (-a) % b;
      -((-a) / b)
  }

  /** C's `a % b` on `int` for a positive divisor: the remainder takes the
      sign of `a`. */
  function Remainder(a: int, b: int): (r: int)
    requires b > 0
    ensures 0 <= a ==> 0 <= r < b && r == a % b
    ensures a < 0 ==> -b < r <= 0
  {
    a - Quotient(a, b) * b
  }

  /** Real division where the divisor may vanish for unphysiological inputs.
      IEEE doubles yield an infinity or NaN there; the model yields 0. */
  function Ratio(a: real, b: real): (r: real)
    ensures b != 0.0 ==> r * b == a
    ensures b == 0.0 ==> r == 0.0
  {
    if b == 0.0 then 0.0 else a / b
  }

  /** Cancelling a positive factor from an inequality. */
  lemma CancelPositive(x: real, y: real, m: real)
    requires m > 0.0 && x * m <= y * m
    ensures x <= y
    ensures x * m < y * m ==> x < y
  {
    assert (y - x) * m >= 0.0;
  }

  /** The rest points of a second-order synaptic filter `y' = x`,
      `x' = k (drive - y) - 2 g x` with `k = g^2 > 0`: both derivatives
      vanish exactly when `x` is 0 and `y` equals the drive. */
  lemma FilterRest(y: real, x: real, dy: real, dx: real, g: real, k: real, drive: real)
    requires k > 0.0 && dy == x && dx == k * (drive - y) - 2.0 * g * x
    ensures dy == 0.0 && dx == 0.0 <==> x == 0.0 && y == drive
  {
    if x == 0.0 && dx == 0.0 {
      assert k * (drive - y) == 0.0;
      assert drive - y == (k * (drive - y)) / k;
    }
  }
}
