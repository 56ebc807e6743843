/** Post-processing of contact positions: a constant shift
    (`adjust_positions`) and snapping to the manufacturing grid
    (`adjust_to_grid`). Both work element by element on a list of
    coordinates. */
module Positions {
  import opened Arith
  import opened Rounding

  /** Every pair of elements is in order. */
  predicate NonDecreasing(s: seq<real>)
  {
    forall i, j :: 0 <= i <= j < |s| ==> s[i] <= s[j]
  }

  /** `adjust_positions`: `[pos + offset for pos in positions]`. */
  function AdjustPositions(positions: seq<real>, offset: real): (r: seq<real>)
    ensures |r| == |positions|
    ensures forall i :: 0 <= i < |r| ==> r[i] == positions[i] + offset
  {
    if positions == [] then []
    else [positions[0] + offset] + AdjustPositions(positions[1..], offset)
  }

  /** Shifting back by the opposite offset restores the list. */
  lemma ShiftInverse(positions: seq<real>, offset: real)
    ensures AdjustPositions(AdjustPositions(positions, offset), -offset) == positions
  {
    var back := AdjustPositions(AdjustPositions(positions, offset), -offset);
    assert forall i :: 0 <= i < |back| ==> back[i] == positions[i];
  }

  /** Two shifts in a row are one shift by the sum of the offsets. */
  lemma ShiftCompose(positions: seq<real>, a: real, b: real)
    ensures AdjustPositions(AdjustPositions(positions, a), b) == AdjustPositions(positions, a + b)
  {
    var two, one := AdjustPositions(AdjustPositions(positions, a), b), AdjustPositions(positions, a + b);
    assert forall i :: 0 <= i < |two| ==> two[i] == one[i];
  }

  /** A shift keeps a sorted list sorted. */
  lemma ShiftKeepsOrder(positions: seq<real>, offset: real)
    requires NonDecreasing(positions)
    ensures NonDecreasing(AdjustPositions(positions, offset))
  {
  }

  /** `x` is a whole multiple of `g`. */
  predicate OnGrid(x: real, g: real)
    requires g != 0.0
  {
    IsInteger(x / g)
  }

  /** `k * g`: the `k`-th grid line. */
  function GridLine(k: int, g: real): real
  {
    k as real * g
  }

  /** `round(pos / grid_res) * grid_res`: the nearest grid line, a tie going to
      the even multiple. */
  function Snap(p: real, g: real): real
    requires g != 0.0
  {
    GridLine(RoundHalfEven(p / g), g)
  }

  /** A snapped value lies on the grid. */
  lemma {:induction false} SnapOnGrid(p: real, g: real)
    requires g != 0.0
    ensures OnGrid(Snap(p, g), g)
  {
    var k := RoundHalfEven(p / g);
    assert Snap(p, g) / g == k as real;
  }

  /** With a positive grid step, a snapped value is the grid line nearest to
      its input: within half a grid step, and no farther than any other grid
      line. */
  lemma {:induction false} SnapIsNearest(p: real, g: real, k: int)
    requires g > 0.0
    ensures Abs(Snap(p, g) - p) <= g / 2.0
    ensures Abs(Snap(p, g) - p) <= Abs(GridLine(k, g) - p)
  {
    var q := p / g;
    assert q * g == p;
    RoundIsNearest(q, k);
    NearerGridLine(p, g, q, RoundHalfEven(q), k);
  }

  /** A grid line `n` whose index is within 1/2 of `q = p / g`, and no
      farther from `q` than `k`, is within half a step of `p` and no farther
      from `p` than grid line `k`. */
  lemma {:induction false} NearerGridLine(p: real, g: real, q: real, n: int, k: int)
    requires g > 0.0 && q * g == p
    requires Abs(n as real - q) <= 0.5
    requires Abs(n as real - q) <= Abs(k as real - q)
    ensures Abs(GridLine(n, g) - p) <= g / 2.0
    ensures Abs(GridLine(n, g) - p) <= Abs(GridLine(k, g) - p)
  {
    var a, b := n as real - q, k as real - q;
    assert GridLine(n, g) - p == a * g by {
      Distribute(n as real, q, g);
    }
    assert GridLine(k, g) - p == b * g by {
      Distribute(k as real, q, g);
    }
    ScaledDistance(a, b, g);
  }

  lemma Distribute(x: real, q: real, g: real)
    ensures x * g - q * g == (x - q) * g
  {
  }

  /** Scaling by a positive `g` keeps "within 1/2" and "no farther than". */
  lemma {:induction false} ScaledDistance(a: real, b: real, g: real)
    requires g > 0.0
    requires Abs(a) <= 0.5 && Abs(a) <= Abs(b)
    ensures Abs(a * g) <= g / 2.0 && Abs(a * g) <= Abs(b * g)
  {
    AbsScale(a, g);
    AbsScale(b, g);
    ScaledOrder(Abs(a * g), Abs(b * g), Abs(a), Abs(b), g);
  }

  /** A value already on the grid does not move. */
  lemma {:induction false} SnapOfGridLine(x: real, g: real)
    requires g != 0.0
    requires OnGrid(x, g)
    ensures Snap(x, g) == x
  {
    var k := (x / g).Floor;
    RoundOfInteger(k);
    assert x == GridLine(k, g);
  }

  /** Snapping twice is snapping once. */
  lemma {:induction false} SnapIdempotent(p: real, g: real)
    requires g != 0.0
    ensures Snap(Snap(p, g), g) == Snap(p, g)
  {
    SnapOnGrid(p, g);
    SnapOfGridLine(Snap(p, g), g);
  }

  /** With a positive grid step, snapping keeps the order of two values. */
  lemma {:induction false} SnapMonotone(p: real, q: real, g: real)
    requires g > 0.0
    requires p <= q
    ensures Snap(p, g) <= Snap(q, g)
  {
    assert p / g <= q / g;
    RoundMonotone(p / g, q / g);
    MulMonotone(RoundHalfEven(p / g) as real, RoundHalfEven(q / g) as real, g);
  }

  /** `adjust_to_grid`: `[round(pos / grid_res) * grid_res for pos in positions]`.
      A zero grid step raises ZeroDivisionError on a non-empty list (an empty
      list gives the empty list); its caller substitutes a default for zero,
      so the raising case is excluded here. */
  function AdjustToGrid(positions: seq<real>, g: real): (r: seq<real>)
    requires g != 0.0 || positions == []
    ensures |r| == |positions|
  {
    if positions == [] then []
    else [Snap(positions[0], g)] + AdjustToGrid(positions[1..], g)
  }

  /** The `i`-th snapped coordinate is the `i`-th input, snapped. */
  lemma {:induction false} AdjustToGridAt(positions: seq<real>, g: real, i: int)
    requires g != 0.0
    requires 0 <= i < |positions|
    ensures AdjustToGrid(positions, g)[i] == Snap(positions[i], g)
  {
    if i > 0 {
      AdjustToGridAt(positions[1..], g, i - 1);
    }
  }

  /** Every snapped coordinate is on the grid and within half a grid step of
      the coordinate it came from. */
  lemma {:induction false} AdjustToGridNearest(positions: seq<real>, g: real, i: int)
    requires g != 0.0
    requires 0 <= i < |positions|
    ensures OnGrid(AdjustToGrid(positions, g)[i], g)
    ensures g > 0.0 ==> Abs(AdjustToGrid(positions, g)[i] - positions[i]) <= g / 2.0
  {
    AdjustToGridAt(positions, g, i);
    SnapOnGrid(positions[i], g);
    if g > 0.0 {
      SnapIsNearest(positions[i], g, 0);
    }
  }

  /** Snapping a list twice is snapping it once. */
  lemma {:induction false} AdjustToGridIdempotent(positions: seq<real>, g: real)
    requires g != 0.0
    ensures AdjustToGrid(AdjustToGrid(positions, g), g) == AdjustToGrid(positions, g)
  {
    var once := AdjustToGrid(positions, g);
    var twice := AdjustToGrid(once, g);
    forall i | 0 <= i < |positions|
      ensures twice[i] == once[i]
    {
      AdjustToGridAt(positions, g, i);
      AdjustToGridAt(once, g, i);
      SnapIdempotent(positions[i], g);
    }
  }

  /** With a positive grid step, snapping keeps a sorted list sorted. */
  lemma {:induction false} AdjustToGridKeepsOrder(positions: seq<real>, g: real)
    requires g > 0.0
    requires NonDecreasing(positions)
    ensures NonDecreasing(AdjustToGrid(positions, g))
  {
    var r := AdjustToGrid(positions, g);
    forall i, j | 0 <= i <= j < |r|
      ensures r[i] <= r[j]
    {
      AdjustToGridAt(positions, g, i);
      AdjustToGridAt(positions, g, j);
      SnapMonotone(positions[i], positions[j], g);
    }
  }
}
