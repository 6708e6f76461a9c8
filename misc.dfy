/// The integer helpers of cmd/cds/misc.go (cmd/cd-surfer uses identical ones):
/// the smaller and the larger of two values, and the clamp `minMax`.
module Misc {

  function Min(a: int, b: int): (r: int)
    ensures r <= a && r <= b
    ensures r == a || r == b
  {
    if a < b then a else b
  }

  function Max(a: int, b: int): (r: int)
    ensures r >= a && r >= b
    ensures r == a || r == b
  {
    if a > b then a else b
  }

  /** Clamps x into [xMin, xMax]. When the range is empty (xMin > xMax), the
      upper bound wins: this is how an empty listing yields a cursor of -1. */
  function MinMax(x: int, xMin: int, xMax: int): (r: int)
    ensures xMin <= xMax ==> xMin <= r <= xMax
    ensures xMin <= x <= xMax ==> r == x
    ensures x < xMin <= xMax ==> r == xMin
    ensures xMax < x ==> r == xMax
    ensures xMax < xMin ==> r == xMax
  {
    Min(xMax, Max(xMin, x))
  }

  /** Clamping an already clamped value changes nothing. */
  lemma MinMaxIdempotent(x: int, xMin: int, xMax: int)
    ensures MinMax(MinMax(x, xMin, xMax), xMin, xMax) == MinMax(x, xMin, xMax)
  {
  }

  /** The values checked by the project's own unit test of minMax. */
  lemma MinMaxExamples()
    ensures MinMax(10, 1, 20) == 10
    ensures MinMax(0, 1, 20) == 1
    ensures MinMax(21, 0, 20) == 20
  {
  }
}
