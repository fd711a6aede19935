/**
 * `Number(x.toFixed(2))` on exact reals.
 *
 * `toFixed(2)` writes the sign of a negative number first and then rounds its
 * magnitude to the nearest multiple of 0.01, choosing the larger multiple on a
 * tie; reading the text back with `Number` gives that multiple. On reals this
 * is rounding half away from zero. Binary floating point is not modelled.
 */
module Numbers {

  /** x has at most two decimal places. */
  predicate IsTwoDp(x: real) {
    (x * 100.0).Floor as real == x * 100.0
  }

  /** Nearest multiple of 0.01 to a non-negative x, the larger one on a tie. */
  function RoundMagnitude(x: real): real
    requires x >= 0.0
  {
    (x * 100.0 + 0.5).Floor as real / 100.0
  }

  lemma FloorOfWhole(n: int)
    ensures (n as real).Floor == n
  {
  }

  /**
   * `Number(x.toFixed(2))`: a number with at most two decimal places, at most
   * half a cent away from x, and never of the opposite sign.
   */
  function Round2(x: real): (r: real)
    ensures IsTwoDp(r)
    ensures -0.005 <= r - x <= 0.005
    ensures x >= 0.0 ==> r >= 0.0
    ensures x <= 0.0 ==> r <= 0.0
  {
    var k := ((if x < 0.0 then -x else x) * 100.0 + 0.5).Floor;
    FloorOfWhole(k);
    FloorOfWhole(-k);
    if x < 0.0 then -RoundMagnitude(-x) else RoundMagnitude(x)
  }

  lemma FloorOfHalfAbove(n: int)
    ensures (n as real + 0.5).Floor == n
  {
  }

  /** A number that already has two decimal places is left unchanged. */
  lemma Round2FixesTwoDp(x: real)
    requires IsTwoDp(x)
    ensures Round2(x) == x
  {
    var n := (x * 100.0).Floor;
    if x < 0.0 {
      FloorOfWhole(-n);
      FloorOfHalfAbove(-n);
    } else {
      FloorOfHalfAbove(n);
    }
  }

  /**
   * Rounding is symmetric about zero, so whatever a tie does on the positive
   * side it mirrors on the negative side.
   */
  lemma Round2HalfAwayFromZero(x: real)
    ensures Round2(-x) == -Round2(x)
  {
  }

  /** Ties are rounded away from zero: 0.005 becomes 0.01 and -0.005 becomes -0.01. */
  lemma Round2Ties()
    ensures Round2(0.005) == 0.01 && Round2(-0.005) == -0.01
  {
    FloorOfWhole(1);
  }

  /** Rounding twice is rounding once. */
  lemma Round2Idempotent(x: real)
    ensures Round2(Round2(x)) == Round2(x)
  {
    Round2FixesTwoDp(Round2(x));
  }
}
