/** The rounding the calculators apply to the values they report, over exact
    reals. */
module JsMath {

  /** `Math.round`: the nearest integer, a half rounded up (toward +∞). */
  function Round(x: real): (r: int)
    ensures x - 0.5 < r as real <= x + 0.5
  {
    (x + 0.5).Floor
  }

  /** `Math.round(x * 100) / 100`: `x` to two decimal places. */
  function RoundToCents(x: real): (r: real)
    ensures x - 0.005 < r <= x + 0.005
    ensures (r * 100.0).Floor as real == r * 100.0
  {
    Round(x * 100.0) as real / 100.0
  }
}
