/** Python's rounding, stated over exact reals.

    `round(x)` with one argument returns the integer nearest to `x`, a tie
    going to the even neighbour; `round(x, 3)` rounds to the nearest multiple
    of 1/1000 with the same tie rule. Both are modelled here on the exact
    value; binary floating point is not part of this model. */
module Rounding {
  import opened Arith

  /** Whether `x` is a whole number. */
  predicate IsInteger(x: real)
  {
    x.Floor as real == x
  }

  /** Python's `round(x)`: the nearest integer, ties to even. */
  function RoundHalfEven(x: real): int
  {
    var f := x.Floor;
    var d := x - f as real;
    if d < 0.5 then f
    else if d > 0.5 then f + 1
    else if f % 2 == 0 then f
    else f + 1
  }

  /** The rounded value is within 1/2 of `x`, and a tie goes to the even
      integer. */
  lemma RoundBounds(x: real)
    ensures x - 0.5 <= RoundHalfEven(x) as real <= x + 0.5
    ensures RoundHalfEven(x) as real - x == 0.5 ==> RoundHalfEven(x) % 2 == 0
    ensures x - RoundHalfEven(x) as real == 0.5 ==> RoundHalfEven(x) % 2 == 0
  {
  }

  /** No integer is closer to `x` than `RoundHalfEven(x)`. */
  lemma {:induction false} RoundIsNearest(x: real, k: int)
    ensures Abs(RoundHalfEven(x) as real - x) <= 0.5
    ensures Abs(RoundHalfEven(x) as real - x) <= Abs(k as real - x)
  {
    var f := x.Floor;
    RoundBounds(x);
    if k <= f - 1 || k >= f + 2 {
      assert Abs(k as real - x) >= 1.0;
    }
  }

  /** Rounding leaves a whole number where it is. */
  lemma RoundOfInteger(k: int)
    ensures RoundHalfEven(k as real) == k
  {
  }

  /** Rounding never reverses the order of two values. */
  lemma {:induction false} RoundMonotone(x: real, y: real)
    requires x <= y
    ensures RoundHalfEven(x) <= RoundHalfEven(y)
  {
    var fx, fy := x.Floor, y.Floor;
    if fx < fy {
      assert RoundHalfEven(x) <= fx + 1 <= fy <= RoundHalfEven(y);
    }
  }

  /** Python's `round(x, 3)`: the nearest multiple of 1/1000, ties to even. */
  function Round3(x: real): real
  {
    RoundHalfEven(x * 1000.0) as real / 1000.0
  }

  /** `round(x, 3)` is within 1/2000 of `x` and has at most three decimals. */
  lemma {:induction false} Round3Near(x: real)
    ensures x - 0.0005 <= Round3(x) <= x + 0.0005
    ensures IsInteger(Round3(x) * 1000.0)
  {
    var n := RoundHalfEven(x * 1000.0);
    RoundBounds(x * 1000.0);
    Thousandths(x, n);
  }

  lemma Thousandths(x: real, n: int)
    requires x * 1000.0 - 0.5 <= n as real <= x * 1000.0 + 0.5
    ensures x - 0.0005 <= n as real / 1000.0 <= x + 0.0005
    ensures IsInteger((n as real / 1000.0) * 1000.0)
  {
    assert (n as real / 1000.0) * 1000.0 == n as real;
  }

  /** `round(x, 3)` is monotone. */
  lemma Round3Monotone(x: real, y: real)
    requires x <= y
    ensures Round3(x) <= Round3(y)
  {
    RoundMonotone(x * 1000.0, y * 1000.0);
  }

  /** `round(x, 3)` leaves a value that already has three decimals unchanged. */
  lemma {:induction false} Round3OfRounded(x: real)
    requires IsInteger(x * 1000.0)
    ensures Round3(x) == x
  {
    RoundOfInteger((x * 1000.0).Floor);
  }
}
