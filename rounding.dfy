/** Python's `round(x)`, `round(x, 1)` and `format(x, ".0f")` on the exact
    value of their argument: round to the nearest integer (or tenth), ties to
    the even neighbour. */
module Rounding {

  /** The nearest integer to `x`; an exact tie goes to the even neighbour. */
  function RoundHalfEven(x: real): (k: int)
    ensures x - 0.5 <= k as real <= x + 0.5
    ensures (k as real == x + 0.5 || k as real == x - 0.5) ==> k % 2 == 0
  {
    var f := (x + 0.5).Floor;
    if f as real == x + 0.5 && f % 2 != 0 then f - 1 else f
  }

  /** The two conditions in the contract of RoundHalfEven leave no choice. */
  lemma RoundHalfEvenUnique(x: real, k: int)
    requires x - 0.5 <= k as real <= x + 0.5
    requires (k as real == x + 0.5 || k as real == x - 0.5) ==> k % 2 == 0
    ensures k == RoundHalfEven(x)
  {
  }

  /** Rounding to the nearest integer never reverses the order of two values. */
  lemma RoundHalfEvenMonotone(x: real, y: real)
    requires x <= y
    ensures RoundHalfEven(x) <= RoundHalfEven(y)
  {
  }

  /** A value is on the one-decimal grid when ten times it is a whole number. */
  predicate OnTenthGrid(r: real) {
    (r * 10.0).Floor as real == r * 10.0
  }

  /** Python's `round(x, 1)`: the nearest multiple of 0.1, ties to even tenths. */
  function RoundTenth(x: real): (r: real)
    ensures x - 0.05 <= r <= x + 0.05
    ensures OnTenthGrid(r)
  {
    var k := RoundHalfEven(x * 10.0);
    assert (k as real / 10.0) * 10.0 == k as real;
    k as real / 10.0
  }

  /** Rounding to one decimal never reverses the order of two values. */
  lemma RoundTenthMonotone(x: real, y: real)
    requires x <= y
    ensures RoundTenth(x) <= RoundTenth(y)
  {
    RoundHalfEvenMonotone(x * 10.0, y * 10.0);
  }

  /** A value between two grid points rounds to a value between them. */
  lemma {:induction false} RoundTenthWithin(lo: int, hi: int, x: real)
    requires lo as real / 10.0 <= x <= hi as real / 10.0
    ensures lo as real / 10.0 <= RoundTenth(x) <= hi as real / 10.0
  {
    var k := RoundHalfEven(x * 10.0);
    assert lo as real - 0.5 <= k as real <= hi as real + 0.5;
    assert lo <= k <= hi;
  }

  /** A value already on the grid is left unchanged. */
  lemma RoundTenthOfGridValue(k: int)
    ensures RoundTenth(k as real / 10.0) == k as real / 10.0
  {
    assert (k as real / 10.0) * 10.0 == k as real;
    RoundHalfEvenUnique(k as real, k);
  }
}
