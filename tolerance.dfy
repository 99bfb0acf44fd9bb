/** The one numeric tolerance of the path layer. */
module Tolerance {

  /** 1e-10. The path uses it twice: as the margin that keeps a bounded gamma strictly
      below the number of sections, and as the tolerance under which two sample step
      sizes count as equal. Reals are exact here, so no rounding is modelled. */
  const Epsilon: real := 0.0000000001

  function Abs(x: real): (r: real)
    ensures r >= 0.0
    ensures r == x || r == -x
  {
    if x < 0.0 then -x else x
  }

  /** Whether a requested sample step size counts as the one the cache was built with. */
  predicate SameStep(cached: real, requested: real)
  {
    Abs(cached - requested) < Epsilon
  }
}
