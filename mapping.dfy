/**
 * The arithmetic of the pointer-to-parameter mapping: the linear `mapValue`
 * interpolation and the two-decimal rounding `parseFloat(x.toFixed(2))`.
 */
module Mapping {

  /**
   * `mapValue(value, inMin, inMax, outMin, outMax)`: the straight line through
   * (inMin, outMin) and (inMax, outMax), evaluated at `value`. Nothing clamps
   * the result; an input range of width zero would divide by zero, and every
   * caller passes (0, 1) or (-1, 1).
   */
  function MapValue(value: real, inMin: real, inMax: real, outMin: real, outMax: real): real
    requires inMin != inMax
  {
    ((value - inMin) * (outMax - outMin)) / (inMax - inMin) + outMin
  }

  /** The input range's endpoints go to the output range's endpoints. */
  lemma MapValueEndpoints(inMin: real, inMax: real, outMin: real, outMax: real)
    requires inMin != inMax
    ensures MapValue(inMin, inMin, inMax, outMin, outMax) == outMin
    ensures MapValue(inMax, inMin, inMax, outMin, outMax) == outMax
  {
  }

  /** The input midpoint goes to the output midpoint. */
  lemma MapValueMidpoint(inMin: real, inMax: real, outMin: real, outMax: real)
    requires inMin != inMax
    ensures MapValue((inMin + inMax) / 2.0, inMin, inMax, outMin, outMax) == (outMin + outMax) / 2.0
  {
    var d := inMax - inMin;
    assert (inMin + inMax) / 2.0 - inMin == d / 2.0;
    assert (d / 2.0) * (outMax - outMin) / d == (outMax - outMin) / 2.0;
  }

  /** An input inside the input range lands inside the output range. */
  lemma MapValueInRange(value: real, inMin: real, inMax: real, outMin: real, outMax: real)
    requires inMin < inMax && inMin <= value <= inMax
    requires outMin <= outMax
    ensures outMin <= MapValue(value, inMin, inMax, outMin, outMax) <= outMax
  {
    var t := (value - inMin) / (inMax - inMin);
    FractionOfRange(value - inMin, inMax - inMin);
    assert MapValue(value, inMin, inMax, outMin, outMax) == t * (outMax - outMin) + outMin;
    ScaleFraction(t, outMax - outMin);
  }

  /** A part of a positive whole, divided by the whole, is a fraction. */
  lemma FractionOfRange(a: real, d: real)
    requires 0.0 <= a <= d && 0.0 < d
    ensures 0.0 <= a / d <= 1.0
  {
    assert (a / d) * d == a;
  }

  /** A fraction of a non-negative amount lies between zero and that amount. */
  lemma ScaleFraction(t: real, d: real)
    requires 0.0 <= t <= 1.0 && 0.0 <= d
    ensures 0.0 <= t * d <= d
  {
    assert d - t * d == (1.0 - t) * d;
  }

  /** With increasing ranges the map is monotone. */
  lemma MapValueMonotone(a: real, b: real, inMin: real, inMax: real, outMin: real, outMax: real)
    requires inMin < inMax && a <= b
    requires outMin <= outMax
    ensures MapValue(a, inMin, inMax, outMin, outMax) <= MapValue(b, inMin, inMax, outMin, outMax)
  {
    var d := inMax - inMin;
    assert MapValue(b, inMin, inMax, outMin, outMax) - MapValue(a, inMin, inMax, outMin, outMax)
        == ((b - a) / d) * (outMax - outMin);
  }

  /** `x` is a whole number of hundredths. */
  predicate IsCents(x: real)
  {
    (x * 100.0).Floor as real == x * 100.0
  }

  /**
   * `parseFloat(x.toFixed(2))`, in exact arithmetic: the nearest multiple of
   * 0.01, ties going away from zero (toFixed rounds the magnitude half up and
   * puts the sign back). The binary floating-point representation of `x`,
   * which can move a tie either way, is not modelled.
   */
  function Round2(x: real): real
  {
    if 0.0 <= x then RoundMagnitude(x) else -RoundMagnitude(-x)
  }

  /** The nearest multiple of 0.01 to a non-negative `x`, ties going up. */
  function RoundMagnitude(x: real): (r: real)
    requires 0.0 <= x
    ensures 0.0 <= r
  {
    (x * 100.0 + 0.5).Floor as real / 100.0
  }

  /** Rounding moves a value by at most half a hundredth. */
  lemma Round2Close(x: real)
    ensures x - 0.005 <= Round2(x) <= x + 0.005
  {
    var y := if 0.0 <= x then x else -x;
    var n := (y * 100.0 + 0.5).Floor;
    assert y * 100.0 - 0.5 < n as real <= y * 100.0 + 0.5;
  }

  /** The result is always a whole number of hundredths. */
  lemma Round2IsCents(x: real)
    ensures IsCents(Round2(x))
  {
    var y := if 0.0 <= x then x else -x;
    var n := (y * 100.0 + 0.5).Floor;
    var r := Round2(x);
    if 0.0 <= x {
      assert r * 100.0 == n as real;
    } else {
      assert r * 100.0 == -(n as real);
      assert (-(n as real)).Floor == -n;
    }
  }

  /** A value that is already a whole number of hundredths is returned unchanged. */
  lemma Round2Fixed(x: real)
    requires IsCents(x)
    ensures Round2(x) == x
  {
    var y := if 0.0 <= x then x else -x;
    var m := (y * 100.0).Floor;
    if 0.0 <= x {
      assert m as real == y * 100.0;
    } else {
      var k := (x * 100.0).Floor;
      assert k as real == x * 100.0;
      assert y * 100.0 == (-k) as real;
      assert m == -k;
    }
    assert (y * 100.0 + 0.5).Floor == m;
  }

  /** Rounding of a non-negative magnitude is monotone. */
  lemma RoundMagnitudeMonotone(x: real, y: real)
    requires 0.0 <= x <= y
    ensures RoundMagnitude(x) <= RoundMagnitude(y)
  {
    assert (x * 100.0 + 0.5).Floor <= (y * 100.0 + 0.5).Floor;
  }

  /** Rounding is monotone. */
  lemma Round2Monotone(x: real, y: real)
    requires x <= y
    ensures Round2(x) <= Round2(y)
  {
    if 0.0 <= x {
      RoundMagnitudeMonotone(x, y);
    } else if y < 0.0 {
      RoundMagnitudeMonotone(-y, -x);
    } else {
      assert Round2(x) <= 0.0 <= Round2(y);
    }
  }

  /** Rounding a value between two whole-hundredth bounds stays between them. */
  lemma Round2Between(lo: real, x: real, hi: real)
    requires IsCents(lo) && IsCents(hi)
    requires lo <= x <= hi
    ensures lo <= Round2(x) <= hi
  {
    Round2Monotone(lo, x);
    Round2Monotone(x, hi);
    Round2Fixed(lo);
    Round2Fixed(hi);
  }

  /** Rounding twice is rounding once. */
  lemma Round2Idempotent(x: real)
    ensures Round2(Round2(x)) == Round2(x)
  {
    Round2IsCents(x);
    Round2Fixed(Round2(x));
  }
}
