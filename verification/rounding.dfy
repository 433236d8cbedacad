/** JavaScript's Math.round, on exact reals. */
module Rounding {

  /** The nearest integer to x; a tie (x = k + 1/2) goes up to k + 1, toward +infinity. */
  function Round(x: real): (r: int)
    ensures r as real - 0.5 <= x < r as real + 0.5
  {
    (x + 0.5).Floor
  }

  /** Any integer within [x - 1/2, x + 1/2) is the rounding of x. */
  lemma RoundUnique(x: real, k: int)
    requires k as real - 0.5 <= x < k as real + 0.5
    ensures Round(x) == k
  {
  }

  lemma RoundMonotone(x: real, y: real)
    requires x <= y
    ensures Round(x) <= Round(y)
  {
  }

  /** Shifting the argument by an integer shifts the rounding by the same integer. */
  lemma RoundShift(x: real, k: int)
    ensures Round(x + k as real) == Round(x) + k
  {
    RoundUnique(x + k as real, Round(x) + k);
  }

  /** Ties round toward +infinity on both sides of zero: Math.round is not round-half-away-from-zero. */
  lemma RoundTiesUp(k: int)
    ensures Round(k as real + 0.5) == k + 1
    ensures Round(-2.5) == -2
  {
  }
}
