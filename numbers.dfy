/**
 * The parts of JavaScript's `Math` and `Number` the engine uses, on exact reals:
 * `Math.max`, `Math.min`, `Math.floor`, `Math.ceil`, `Math.pow` with a natural
 * exponent, and `Number(x.toFixed(2))`.
 */
module Numbers {

  function Max(a: real, b: real): real { if a >= b then a else b }

  function Min(a: real, b: real): real { if a <= b then a else b }

  predicate IsInteger(x: real) { x == x.Floor as real }

  /** `Math.floor`, kept as a number. */
  function Floor(x: real): (r: real)
    ensures IsInteger(r) && r <= x < r + 1.0
  {
    x.Floor as real
  }

  lemma FloorMonotone(x: real, y: real)
    requires x <= y
    ensures Floor(x) <= Floor(y)
  {
    assert x.Floor <= y.Floor;
  }

  lemma MulLeftMonotone(a: real, x: real, y: real)
    requires a >= 0.0 && x <= y
    ensures a * x <= a * y
  {
    assert a * y - a * x == a * (y - x);
  }

  /** `Math.ceil`, kept as a number. */
  function Ceil(x: real): (r: real)
    ensures IsInteger(r) && r - 1.0 < x <= r
  {
    (-((-x).Floor)) as real
  }

  /** `Math.pow(x, n)` for a natural exponent. */
  function Pow(x: real, n: nat): real
  {
    if n == 0 then 1.0 else x * Pow(x, n - 1)
  }

  /** Nearest multiple of 0.01 to `x`, ties upwards. */
  function RoundHalfUp2(x: real): (r: real)
    ensures -0.005 < r - x <= 0.005
    ensures IsInteger(r * 100.0)
    ensures x >= 0.0 ==> r >= 0.0
  {
    var n := (x * 100.0 + 0.5).Floor;
    assert (n as real / 100.0) * 100.0 == n as real;
    n as real / 100.0
  }

  /**
   * `Number(x.toFixed(2))`: `toFixed` rounds the magnitude to the nearest
   * multiple of 0.01, ties away from zero, and keeps the sign.
   */
  function Round2(x: real): (r: real)
    ensures -0.005 <= r - x <= 0.005
    ensures x >= 0.0 ==> r >= 0.0
    ensures x == 0.0 ==> r == 0.0
    ensures IsInteger(r * 100.0)
  {
    if x < 0.0 then
      var m := RoundHalfUp2(-x);
      NegatedInteger(m * 100.0);
      assert -m * 100.0 == -(m * 100.0);
      -m
    else
      RoundHalfUp2(x)
  }

  lemma NegatedInteger(k: real)
    requires IsInteger(k)
    ensures IsInteger(-k)
  {
    var n := k.Floor;
    assert -k == (-n) as real;
    assert (-k).Floor == -n;
  }

  lemma Round2Monotone(x: real, y: real)
    requires x <= y
    ensures Round2(x) <= Round2(y)
  {
    if 0.0 <= x {
      assert (x * 100.0 + 0.5).Floor <= (y * 100.0 + 0.5).Floor;
    } else if y < 0.0 {
      assert (-y * 100.0 + 0.5).Floor <= (-x * 100.0 + 0.5).Floor;
    }
  }

  lemma {:induction false} PowAtLeastOne(x: real, n: nat)
    requires x >= 1.0
    ensures Pow(x, n) >= 1.0
  {
    if n > 0 {
      PowAtLeastOne(x, n - 1);
      var p := Pow(x, n - 1);
      assert (x - 1.0) * p >= 0.0;
      assert x * p == p + (x - 1.0) * p;
    }
  }

  /** With a base of at least 1, a larger exponent never gives a smaller power. */
  lemma {:induction false} PowMonotone(x: real, m: nat, n: nat)
    requires x >= 1.0 && m <= n
    ensures Pow(x, m) <= Pow(x, n)
    decreases n - m
  {
    if m < n {
      PowMonotone(x, m, n - 1);
      PowAtLeastOne(x, n - 1);
      var p := Pow(x, n - 1);
      assert (x - 1.0) * p >= 0.0;
      assert x * p == p + (x - 1.0) * p;
    }
  }
}
