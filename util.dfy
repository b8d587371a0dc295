/** The integer helpers of the trace generator (driver-backend/internal/generator/util.go). */
module GeneratorUtil {
  /** The smaller of two ints; `x` when they are equal. */
  function MinInt(x: int, y: int): (r: int)
    ensures r <= x && r <= y
    ensures r == x || r == y
  {
    if x <= y then x else y
  }

  /** The larger of two ints; `x` when they are equal. */
  function MaxInt(x: int, y: int): (r: int)
    ensures r >= x && r >= y
    ensures r == x || r == y
  {
    if x >= y then x else y
  }

  lemma MinMaxCommute(x: int, y: int)
    ensures MinInt(x, y) == MinInt(y, x)
    ensures MaxInt(x, y) == MaxInt(y, x)
  {
  }

  /** The GPU-count clamp `MaxInt(MinInt(n, c), 1)` always lands in [1, max(c, 1)]. */
  function ClampGpus(n: int, c: int): (r: int)
    ensures 1 <= r <= MaxInt(c, 1)
    ensures 1 <= n <= c ==> r == n
  {
    MaxInt(MinInt(n, c), 1)
  }
}
