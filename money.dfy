/** Amounts are Python floats in the source; here they are exact reals, and the two float
    operations the core applies to them are written out. */
module Money {

  /** Python's `int(x)` on a float: truncation toward zero. */
  function Truncate(x: real): (r: int)
    ensures x >= 0.0 ==> r as real <= x < r as real + 1.0
    ensures x < 0.0 ==> r as real - 1.0 < x <= r as real
  {
    if x >= 0.0 then x.Floor else -((-x).Floor)
  }

  /** Rounding to the nearest integer, ties to the even neighbour (Python's `round`). */
  function RoundHalfEven(x: real): (r: int)
    ensures -0.5 <= r as real - x <= 0.5
    ensures (r as real - x == 0.5 || x - r as real == 0.5) ==> r % 2 == 0
  {
    var f := x.Floor;
    var frac := x - f as real;
    if frac < 0.5 then f
    else if frac > 0.5 then f + 1
    else if f % 2 == 0 then f
    else f + 1
  }

  /** The two properties above determine the rounded value: no other integer has them. */
  lemma RoundHalfEvenUnique(x: real, k: int)
    requires -0.5 <= k as real - x <= 0.5
    requires (k as real - x == 0.5 || x - k as real == 0.5) ==> k % 2 == 0
    ensures k == RoundHalfEven(x)
  {
  }

  /** Python's `round(x, 2)` on the exact value: a whole number of cents, within half a cent. */
  function RoundToCents(x: real): (r: real)
    ensures (r * 100.0).Floor as real == r * 100.0
    ensures -0.005 <= r - x <= 0.005
  {
    RoundHalfEven(x * 100.0) as real / 100.0
  }
}
