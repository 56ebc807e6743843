/** Facts about real arithmetic shared by the geometry proofs. */
module Arith {

  function Abs(x: real): real
  {
    if x < 0.0 then -x else x
  }

  lemma AbsScale(a: real, c: real)
    requires c > 0.0
    ensures Abs(a * c) == Abs(a) * c
  {
    if a < 0.0 {
      MulStrict(a, 0.0, c);
    } else {
      MulMonotone(0.0, a, c);
    }
  }

  lemma MulMonotone(a: real, b: real, c: real)
    requires a <= b && 0.0 <= c
    ensures a * c <= b * c
  {
  }

  lemma MulStrict(a: real, b: real, c: real)
    requires a < b && 0.0 < c
    ensures a * c < b * c
  {
  }

  /** `x = a c` and `y = b c` with `a <= 1/2`, `a <= b` and `c >= 0` give
      `x <= c / 2` and `x <= y`. */
  lemma ScaledOrder(x: real, y: real, a: real, b: real, c: real)
    requires x == a * c && y == b * c
    requires a <= 0.5 && a <= b && 0.0 <= c
    ensures x <= c / 2.0 && x <= y
  {
  }

  lemma MulSucc(a: int, m: int)
    ensures (a + 1) * m == a * m + m
  {
  }

  lemma MulMonotoneInt(a: int, b: int, m: int)
    requires a <= b && 0 <= m
    ensures a * m <= b * m
  {
  }

  /** Row-major indexing of an `n` by `m` grid stays in range. */
  lemma IndexInRange(i: int, j: int, n: int, m: int)
    requires 0 <= i < n && 0 <= j < m
    ensures 0 <= i * m + j < n * m
  {
    MulSucc(i, m);
    MulMonotoneInt(0, i, m);
    MulMonotoneInt(i + 1, n, m);
  }
}
