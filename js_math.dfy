/** Numeric helpers shared by every formula of the dashboard: the JavaScript
    `Math.min`, `Math.max` and `Math.round` on exact reals, the two-sided
    clamp the input handlers use, and an Option type for parse results. */
module JsMath {

  datatype Option<+T> = None | Some(value: T)

  function Min(a: real, b: real): (r: real)
    ensures r <= a && r <= b
    ensures r == a || r == b
  {
    if a <= b then a else b
  }

  function Max(a: real, b: real): (r: real)
    ensures r >= a && r >= b
    ensures r == a || r == b
  {
    if a >= b then a else b
  }

  /** `Math.max(lo, Math.min(hi, x))`: the nearest point of [lo, hi] to x. */
  function Clamp(x: real, lo: real, hi: real): (r: real)
    requires lo <= hi
    ensures lo <= r <= hi
    ensures lo <= x <= hi ==> r == x
    ensures x < lo ==> r == lo
    ensures x > hi ==> r == hi
  {
    Max(lo, Min(hi, x))
  }

  /** `Math.round`: the nearest integer, halves rounded towards +infinity. */
  function Round(x: real): (n: int)
    ensures x - 0.5 < n as real <= x + 0.5
  {
    (x + 0.5).Floor
  }

  lemma RoundOfInt(n: int)
    ensures Round(n as real) == n
  {
  }

  lemma RoundMonotone(x: real, y: real)
    requires x <= y
    ensures Round(x) <= Round(y)
  {
  }

  /** Rounding never crosses an integer bound of its argument. */
  lemma RoundBounds(x: real, lo: int, hi: int)
    requires lo as real <= x <= hi as real
    ensures lo <= Round(x) <= hi
  {
    RoundMonotone(lo as real, x);
    RoundMonotone(x, hi as real);
    RoundOfInt(lo);
    RoundOfInt(hi);
  }

  /** `Math.round(x * 10) / 10`: x rounded to one decimal place, halves
      upwards. */
  function Round1(x: real): (r: real)
    ensures x - 0.05 < r <= x + 0.05
  {
    Round(x * 10.0) as real / 10.0
  }

  lemma Round1Monotone(x: real, y: real)
    requires x <= y
    ensures Round1(x) <= Round1(y)
  {
    RoundMonotone(x * 10.0, y * 10.0);
  }

  /** The integer `Number.prototype.toFixed` picks: the nearest one, halves
      rounded away from zero (the sign is set aside before rounding). */
  function RoundHalfAway(x: real): (n: int)
    ensures x >= 0.0 ==> n == Round(x)
    ensures x - 0.5 <= n as real <= x + 0.5
  {
    if x >= 0.0 then Round(x) else -Round(-x)
  }

  lemma RoundHalfAwayMonotone(x: real, y: real)
    requires x <= y
    ensures RoundHalfAway(x) <= RoundHalfAway(y)
  {
    if x < 0.0 {
      if y < 0.0 {
        RoundMonotone(-y, -x);
      } else {
        RoundMonotone(0.0, y);
        RoundOfInt(0);
      }
    } else {
      RoundMonotone(x, y);
    }
  }

  /** `parseFloat(x.toFixed(1))`: x to one decimal place. */
  function Fixed1(x: real): (r: real)
    ensures x - 0.05 <= r <= x + 0.05
  {
    RoundHalfAway(x * 10.0) as real / 10.0
  }

  lemma Fixed1Monotone(x: real, y: real)
    requires x <= y
    ensures Fixed1(x) <= Fixed1(y)
  {
    RoundHalfAwayMonotone(x * 10.0, y * 10.0);
  }

  /** `parseFloat(x.toFixed(2))`: x to two decimal places. */
  function Fixed2(x: real): (r: real)
    ensures x - 0.005 <= r <= x + 0.005
  {
    RoundHalfAway(x * 100.0) as real / 100.0
  }
}
