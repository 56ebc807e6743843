/** Contact squares at every pair of a list of x positions and a list of
    y positions (`calculate_and_create_squares`). */
module Squares {
  import opened Arith
  import opened Geometry
  import opened Positions

  /** The square of side `size` whose lower-left corner is `(x, y)`. */
  function Square(x: real, y: real, size: real): Box
  {
    Box(x, y, x + size, y + size)
  }

  /** The squares of one column: one per y position, in list order. */
  function Column(x: real, ys: seq<real>, size: real): (r: seq<Box>)
    ensures |r| == |ys|
  {
    if ys == [] then [] else Column(x, ys[..|ys| - 1], size) + [Square(x, ys[|ys| - 1], size)]
  }

  /** All squares, x-major: the column of the first x position, then the
      column of the next, and so on. */
  function SquareGrid(xs: seq<real>, ys: seq<real>, size: real): seq<Box>
  {
    if xs == [] then [] else SquareGrid(xs[..|xs| - 1], ys, size) + Column(xs[|xs| - 1], ys, size)
  }

  /** The `j`-th square of a column sits at the `j`-th y position. */
  lemma {:induction false} ColumnAt(x: real, ys: seq<real>, size: real, j: int)
    requires 0 <= j < |ys|
    ensures Column(x, ys, size)[j] == Square(x, ys[j], size)
  {
    if j < |ys| - 1 {
      ColumnAt(x, ys[..|ys| - 1], size, j);
    }
  }

  /** One square per pair of positions. */
  lemma {:induction false} SquareGridCount(xs: seq<real>, ys: seq<real>, size: real)
    ensures |SquareGrid(xs, ys, size)| == |xs| * |ys|
  {
    if xs != [] {
      SquareGridCount(xs[..|xs| - 1], ys, size);
      MulSucc(|xs| - 1, |ys|);
    }
  }

  /** The square for the `i`-th x position and the `j`-th y position is at
      index `i * |ys| + j`, with its lower-left corner at `(xs[i], ys[j])`. */
  lemma {:induction false} SquareGridAt(xs: seq<real>, ys: seq<real>, size: real, i: int, j: int)
    requires 0 <= i < |xs| && 0 <= j < |ys|
    ensures |SquareGrid(xs, ys, size)| == |xs| * |ys|
    ensures 0 <= i * |ys| + j < |xs| * |ys|
    ensures SquareGrid(xs, ys, size)[i * |ys| + j] == Square(xs[i], ys[j], size)
  {
    var n, m := |xs|, |ys|;
    var front := xs[..n - 1];
    SquareGridCount(xs, ys, size);
    SquareGridCount(front, ys, size);
    IndexInRange(i, j, n, m);
    assert SquareGrid(xs, ys, size) == SquareGrid(front, ys, size) + Column(xs[n - 1], ys, size);
    if i < n - 1 {
      IndexInRange(i, j, n - 1, m);
      SquareGridAt(front, ys, size, i, j);
    } else {
      ColumnAt(xs[n - 1], ys, size, j);
    }
  }

  /** A box is among the squares exactly when it is the square at some x
      position and some y position. */
  lemma {:induction false} SquareGridMember(xs: seq<real>, ys: seq<real>, size: real, b: Box)
    ensures b in SquareGrid(xs, ys, size) <==> b.x1 in xs && b.y1 in ys && b == Square(b.x1, b.y1, size)
  {
    if xs != [] {
      var front, last := xs[..|xs| - 1], xs[|xs| - 1];
      SquareGridMember(front, ys, size, b);
      ColumnMember(last, ys, size, b);
      assert xs == front + [last];
    }
  }

  lemma {:induction false} ColumnMember(x: real, ys: seq<real>, size: real, b: Box)
    ensures b in Column(x, ys, size) <==> b.x1 == x && b.y1 in ys && b == Square(x, b.y1, size)
  {
    if ys != [] {
      var front, last := ys[..|ys| - 1], ys[|ys| - 1];
      ColumnMember(x, front, size, b);
      assert ys == front + [last];
    }
  }

  /** `calculate_and_create_squares`: snaps both lists to the grid, then emits
      one square per (x, y) pair from a nested loop, x outermost. Returns the
      squares in the order the source creates them. A zero grid step raises
      ZeroDivisionError unless both lists are empty. */
  method CalculateAndCreateSquares(xPositions: seq<real>, yPositions: seq<real>, squareSize: real, gridRes: real)
    returns (squares: seq<Box>)
    requires gridRes != 0.0 || (xPositions == [] && yPositions == [])
    ensures squares == SquareGrid(AdjustToGrid(xPositions, gridRes), AdjustToGrid(yPositions, gridRes), squareSize)
    ensures |squares| == |xPositions| * |yPositions|
  {
    var xs := AdjustToGrid(xPositions, gridRes);
    var ys := AdjustToGrid(yPositions, gridRes);
    squares := [];
    var i := 0;
    while i < |xs|
      invariant 0 <= i <= |xs|
      invariant squares == SquareGrid(xs[..i], ys, squareSize)
    {
      var x := xs[i];
      var j := 0;
      while j < |ys|
        invariant 0 <= j <= |ys|
        invariant squares == SquareGrid(xs[..i], ys, squareSize) + Column(x, ys[..j], squareSize)
      {
        squares := squares + [Square(x, ys[j], squareSize)];
        assert ys[..j + 1][..j] == ys[..j];
        j := j + 1;
      }
      assert ys[..j] == ys;
      assert xs[..i + 1][..i] == xs[..i];
      i := i + 1;
    }
    assert xs[..i] == xs;
    SquareGridCount(xs, ys, squareSize);
  }

  /** Every emitted square has its lower-left corner on the grid and sides of
      length `squareSize`. */
  lemma {:induction false} SquaresOnGrid(xPositions: seq<real>, yPositions: seq<real>, squareSize: real, gridRes: real, b: Box)
    requires gridRes != 0.0
    requires b in SquareGrid(AdjustToGrid(xPositions, gridRes), AdjustToGrid(yPositions, gridRes), squareSize)
    ensures OnGrid(b.x1, gridRes) && OnGrid(b.y1, gridRes)
    ensures b.x2 - b.x1 == squareSize && b.y2 - b.y1 == squareSize
  {
    var xs, ys := AdjustToGrid(xPositions, gridRes), AdjustToGrid(yPositions, gridRes);
    SquareGridMember(xs, ys, squareSize, b);
    var i :| 0 <= i < |xs| && xs[i] == b.x1;
    var j :| 0 <= j < |ys| && ys[j] == b.y1;
    AdjustToGridNearest(xPositions, gridRes, i);
    AdjustToGridNearest(yPositions, gridRes, j);
  }
}
