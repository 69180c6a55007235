/** Python's `round(x, 2)` on an exact quotient: the nearest whole number of
    hundredths, ties to the even neighbour. Money and hours are held as whole
    hundredths, so `round(n / d)` of a whole number of hundredths is
    `RoundHalfEven(n, d)`. */
module Rounding {

  function Abs(x: int): nat {
    if x < 0 then -x else x
  }

  /** The integer nearest to `n / d`; a tie goes to the even integer. */
  function RoundHalfEven(n: int, d: int): (r: int)
    requires d > 0
    ensures 2 * Abs(r * d - n) <= d
    ensures 2 * Abs(r * d - n) == d ==> r % 2 == 0
  {
    var q, rem := n / d, n % d;
    assert q * d + rem == n;
    if 2 * rem < d then q
    else if 2 * rem > d then
      assert (q + 1) * d - n == d - rem;
      q + 1
    else if q % 2 == 0 then q
    else
      assert (q + 1) * d - n == d - rem;
      q + 1
  }

  /** The two properties single out one integer, so any rounding that meets
      them is this one. */
  lemma RoundHalfEvenUnique(n: int, d: int, r: int)
    requires d > 0
    requires 2 * Abs(r * d - n) <= d
    requires 2 * Abs(r * d - n) == d ==> r % 2 == 0
    ensures r == RoundHalfEven(n, d)
  {
    var s := RoundHalfEven(n, d);
    // Both lie within d/2 of n, so they are at most one apart, and one apart
    // only at a tie, where both would have to be even.
    SubMul(r, s, d);
    NeighboursAtTie(r * d - n, s * d - n, r - s, d);
    EvenNeighbours(r, s);
  }

  lemma SubMul(r: int, s: int, d: int)
    ensures (r - s) * d == r * d - s * d
  {
  }

  lemma EvenNeighbours(r: int, s: int)
    requires -1 <= r - s <= 1
    ensures r % 2 == 0 && s % 2 == 0 ==> r == s
  {
  }

  lemma NeighboursAtTie(e: int, f: int, k: int, d: int)
    requires d > 0 && 2 * Abs(e) <= d && 2 * Abs(f) <= d
    requires k * d == e - f
    ensures -1 <= k <= 1
    ensures k != 0 ==> 2 * Abs(e) == d && 2 * Abs(f) == d
  {
  }

  /** An exact quotient is left as it is. */
  lemma RoundExact(q: int, d: int)
    requires d > 0
    ensures RoundHalfEven(q * d, d) == q
  {
    RoundHalfEvenUnique(q * d, d, q);
  }
}
