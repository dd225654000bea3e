/**
 * Python's `round(x, 2)`, stated on exact reals: the nearest multiple of 1/100,
 * with an exact tie going to the even hundredth (banker's rounding).
 */
module Rounding {

  /** The integer nearest `x`, ties to even. */
  function RoundHalfEven(x: real): (n: int)
    ensures x - 0.5 <= n as real <= x + 0.5
  {
    var f := x.Floor;
    var frac := x - f as real;
    if frac < 0.5 then f
    else if frac > 0.5 then f + 1
    else if f % 2 == 0 then f
    else f + 1
  }

  lemma RoundHalfEvenOfInt(k: int)
    ensures RoundHalfEven(k as real) == k
  {
  }

  lemma RoundHalfEvenMonotone(x: real, y: real)
    requires x <= y
    ensures RoundHalfEven(x) <= RoundHalfEven(y)
  {
    var fx, fy := x.Floor, y.Floor;
    assert fx <= fy;
    if fx < fy {
      assert RoundHalfEven(x) <= fx + 1 <= fy <= RoundHalfEven(y);
    }
  }

  lemma RoundHalfEvenInRange(x: real)
    ensures 0.0 <= x <= 100.0 ==> 0 <= RoundHalfEven(x) <= 100
  {
    if 0.0 <= x <= 100.0 {
      RoundHalfEvenMonotone(0.0, x);
      RoundHalfEvenMonotone(x, 100.0);
      RoundHalfEvenOfInt(0);
      RoundHalfEvenOfInt(100);
    }
  }

  /** `round(x, 2)`: within half a hundredth of `x`, and inside [0, 1] when `x` is. */
  function Round2(x: real): (r: real)
    ensures x - 0.005 <= r <= x + 0.005
    ensures 0.0 <= x <= 1.0 ==> 0.0 <= r <= 1.0
  {
    var n := RoundHalfEven(100.0 * x);
    RoundHalfEvenInRange(100.0 * x);
    n as real / 100.0
  }

  /** Rounding never reverses the order of two values. */
  lemma Round2Monotone(x: real, y: real)
    requires x <= y
    ensures Round2(x) <= Round2(y)
  {
    RoundHalfEvenMonotone(100.0 * x, 100.0 * y);
  }

  /** A value already in hundredths is left as it is. */
  lemma Round2OfHundredths(k: int)
    ensures Round2(k as real / 100.0) == k as real / 100.0
  {
    assert 100.0 * (k as real / 100.0) == k as real;
    RoundHalfEvenOfInt(k);
  }
}
