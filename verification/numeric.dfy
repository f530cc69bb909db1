/**
 * Exact-arithmetic stand-ins for the JavaScript `Math` helpers the widget
 * uses on coordinates and ratios: `Math.round`, `Math.min` and `Math.abs`.
 * Values are Dafny `real`s, so there is no floating-point rounding error.
 */
module Numeric {

  /**
   * `Math.round`: the nearest integer, halves rounded towards +infinity.
   * The half-open bound below pins down exactly one integer.
   */
  function Round(v: real): (n: int)
    ensures v - 0.5 < n as real <= v + 0.5
  {
    (v + 0.5).Floor
  }

  function Min(a: real, b: real): (m: real)
    ensures m <= a && m <= b
    ensures m == a || m == b
  {
    if a <= b then a else b
  }

  function Abs(v: real): (a: real)
    ensures a >= 0.0
    ensures a == v || a == -v
  {
    if v < 0.0 then -v else v
  }

  /** Rounding never pushes a value past an integer bound it respects. */
  lemma RoundAtMost(v: real, n: int)
    requires v <= n as real
    ensures Round(v) <= n
  {
  }

  lemma RoundAtLeast(v: real, n: int)
    requires n as real <= v
    ensures n <= Round(v)
  {
  }

  /** `Math.round` is monotone. */
  lemma RoundMonotone(a: real, b: real)
    requires a <= b
    ensures Round(a) <= Round(b)
  {
  }

  /** Rounding an integral value gives that value back. */
  lemma RoundOfInteger(n: int)
    ensures Round(n as real) == n
  {
  }
}
