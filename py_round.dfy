/**
 * Python's built-in `round(x, places)` on the reals, for the two precisions
 * the add-in uses: rounding to the nearest multiple of 10^-places, ties to
 * the even neighbour.  The rest of the model relies only on the error
 * bounds and on idempotence, never on the tie rule.
 */
module PyRound {

  /** The nearest integer to y, ties going to the even integer. */
  function RoundHalfEven(y: real): (k: int)
    ensures -0.5 <= k as real - y <= 0.5
    ensures k as real - y == 0.5 || k as real - y == -0.5 ==> k % 2 == 0
  {
    var f := y.Floor;
    var d := y - f as real;
    if d < 0.5 then f
    else if d > 0.5 then f + 1
    else if f % 2 == 0 then f
    else f + 1
  }

  /** `round(x, 3)`: within half a thousandth of x. */
  function Round3(x: real): (r: real)
    ensures -0.0005 <= r - x <= 0.0005
  {
    RoundHalfEven(x * 1000.0) as real / 1000.0
  }

  /** `round(x, 4)`: within half a ten-thousandth of x. */
  function Round4(x: real): (r: real)
    ensures -0.00005 <= r - x <= 0.00005
  {
    RoundHalfEven(x * 10000.0) as real / 10000.0
  }

  /** An integer is its own nearest integer. */
  lemma RoundHalfEvenInteger(k: int)
    ensures RoundHalfEven(k as real) == k
  {
    assert (k as real).Floor == k;
  }

  /** Rounding a rounded value changes nothing: `round(round(x, 3), 3) == round(x, 3)`. */
  lemma Round3Idempotent(x: real)
    ensures Round3(Round3(x)) == Round3(x)
  {
    var k := RoundHalfEven(x * 1000.0);
    assert Round3(x) * 1000.0 == k as real;
    RoundHalfEvenInteger(k);
  }

  /** Rounding a rounded value changes nothing: `round(round(x, 4), 4) == round(x, 4)`. */
  lemma Round4Idempotent(x: real)
    ensures Round4(Round4(x)) == Round4(x)
  {
    var k := RoundHalfEven(x * 10000.0);
    assert Round4(x) * 10000.0 == k as real;
    RoundHalfEvenInteger(k);
  }
}
