/** Rounding of the generator's real-valued signals into the published reading.

    Python's one-argument `round` returns the nearest integer and breaks exact
    ties towards the even neighbour; `round(t, 1)` is idealised here as the same
    rule applied to tenths of the exact real value. */
module Rounding {

  /** `m` is a nearest integer to `x`, and the even one when `x` lies halfway. */
  ghost predicate IsHalfEvenRounding(x: real, m: int)
  {
    && -0.5 <= m as real - x <= 0.5
    && ((m as real - x == 0.5 || x - m as real == 0.5) ==> m % 2 == 0)
  }

  /** Nearest integer to `x`, ties to even (send_data.py:132-139). */
  function RoundHalfEven(x: real): (n: int)
    ensures IsHalfEvenRounding(x, n)
  {
    var f := x.Floor;
    var d := x - f as real;
    if d < 0.5 then f
    else if d > 0.5 then f + 1
    else if f % 2 == 0 then f
    else f + 1
  }

  /** The contract of RoundHalfEven determines its result: any integer that is
      within one half of `x` and even on a tie is that result. */
  lemma RoundHalfEvenUnique(x: real, m: int)
    requires IsHalfEvenRounding(x, m)
    ensures m == RoundHalfEven(x)
  {
  }

  /** Rounding never moves a value across an integer bound it already respects. */
  lemma RoundWithinBounds(x: real, lo: int, hi: int)
    requires lo as real <= x <= hi as real
    ensures lo <= RoundHalfEven(x) <= hi
  {
  }

  /** Rounding is monotone. */
  lemma RoundMonotone(x: real, y: real)
    requires x <= y
    ensures RoundHalfEven(x) <= RoundHalfEven(y)
  {
  }

  /** Rounding to one decimal place (send_data.py:137), over exact reals. */
  function RoundTenths(t: real): (r: real)
    ensures -0.05 <= r - t <= 0.05
    ensures (r * 10.0).Floor as real == r * 10.0
  {
    RoundHalfEven(t * 10.0) as real / 10.0
  }

  /** Rounding to tenths keeps a value inside bounds that are themselves
      whole tenths. */
  lemma RoundTenthsWithinBounds(t: real, lo: int, hi: int)
    requires lo as real / 10.0 <= t <= hi as real / 10.0
    ensures lo as real / 10.0 <= RoundTenths(t) <= hi as real / 10.0
  {
    RoundWithinBounds(t * 10.0, lo, hi);
  }
}
