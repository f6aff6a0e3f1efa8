/** The program's integer random draw, `random(min, max)`.

    `Math.random()` becomes a parameter `u` with 0 <= u < 1, and the
    arithmetic is done on exact reals rather than on doubles.
 */
module Randomness {

  /** `Math.floor(u * (max - min + 1)) + min`. */
  function RandomInt(min: int, max: int, u: real): (r: int)
    requires 0.0 <= u < 1.0
    ensures min <= max ==> min <= r <= max
  {
    var span := (max - min + 1) as real;
    assert min <= max ==> 0.0 <= u * span < span by {
      if min <= max {
        assert u * span < 1.0 * span;
      }
    }
    (u * span).Floor + min
  }

  /** Every integer of [min, max] is the outcome of some draw, so the range
      promised by `RandomInt` is exactly the inclusive range. */
  lemma RandomIntReachesEveryValue(min: int, max: int, r: int)
    requires min <= r <= max
    ensures var u := (r - min) as real / (max - min + 1) as real;
            0.0 <= u < 1.0 && RandomInt(min, max, u) == r
  {
  }
}
