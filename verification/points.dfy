/** Contact centres along one side of the guard ring
    (`calculate_points_on_line`).

    The side has length `length`; two neighbouring contacts must be at least
    `minSpacing + pointDiameter` apart, centre to centre. The count of gaps
    is the largest that honours that pitch, and the pitch is then stretched
    so that the gaps fill the side exactly: the offsets run from 0 to
    `length`, one more offset than there are gaps. */
module PointsOnLine {
  import opened Arith
  import opened Rounding

  /** `int(length // effective_spacing)`: the number of gaps. */
  function NumPoints(length: real, effectiveSpacing: real): int
    requires effectiveSpacing != 0.0
  {
    (length / effectiveSpacing).Floor
  }

  /** `length / num_points if num_points > 0 else 0`: the stretched pitch. */
  function Pitch(length: real, numPoints: int): real
  {
    if numPoints > 0 then length / numPoints as real else 0.0
  }

  /** `i * spacing`: the exact offset of the `i`-th contact before rounding. */
  function Exact(i: int, pitch: real): real
  {
    i as real * pitch
  }

  lemma ExactMonotone(i: int, j: int, pitch: real)
    requires i <= j && 0.0 <= pitch
    ensures Exact(i, pitch) <= Exact(j, pitch)
  {
    MulMonotone(i as real, j as real, pitch);
  }

  /** The first `count` rounded multiples of `pitch`, in the order the loop of
      `calculate_points_on_line` appends them. */
  function Multiples(count: nat, pitch: real): (r: seq<real>)
    ensures |r| == count
  {
    if count == 0 then [] else Multiples(count - 1, pitch) + [Round3(Exact(count - 1, pitch))]
  }

  /** The `i`-th offset is `round(i * pitch, 3)`. */
  lemma {:induction false} MultiplesAt(count: nat, pitch: real, i: int)
    requires 0 <= i < count
    ensures Multiples(count, pitch)[i] == Round3(Exact(i, pitch))
  {
    if i < count - 1 {
      MultiplesAt(count - 1, pitch, i);
    }
  }

  /** The number of offsets `range(num_points + 1)` yields. */
  function OffsetCount(numPoints: int): nat
  {
    if numPoints >= 0 then numPoints + 1 else 0
  }

  /** The pitch `calculate_points_on_line` returns beside its offsets. */
  function LinePitch(length: real, minSpacing: real, pointDiameter: real): real
    requires minSpacing + pointDiameter != 0.0
  {
    Pitch(length, NumPoints(length, minSpacing + pointDiameter))
  }

  /** The offsets `calculate_points_on_line` returns. */
  function LineOffsets(length: real, minSpacing: real, pointDiameter: real): seq<real>
    requires minSpacing + pointDiameter != 0.0
  {
    var n := NumPoints(length, minSpacing + pointDiameter);
    Multiples(OffsetCount(n), Pitch(length, n))
  }

  /** `calculate_points_on_line`: builds the offsets with a loop that appends
      one rounded multiple of the pitch per step. A zero effective pitch
      raises ZeroDivisionError in the source; its only caller passes the
      constants 0.18 and 0.16, so that case is excluded here. */
  method CalculatePointsOnLine(length: real, minSpacing: real, pointDiameter: real)
    returns (points: seq<real>, spacing: real)
    requires minSpacing + pointDiameter != 0.0
    ensures spacing == LinePitch(length, minSpacing, pointDiameter)
    ensures points == LineOffsets(length, minSpacing, pointDiameter)
    ensures |points| == OffsetCount(NumPoints(length, minSpacing + pointDiameter))
    ensures forall i :: 0 <= i < |points| ==> points[i] == Round3(Exact(i, spacing))
  {
    var effectiveSpacing := minSpacing + pointDiameter;
    var numPoints := (length / effectiveSpacing).Floor;
    spacing := if numPoints > 0 then length / numPoints as real else 0.0;
    points := [];
    var i := 0;
    while i < numPoints + 1
      invariant 0 <= i <= OffsetCount(numPoints)
      invariant points == Multiples(i, spacing)
    {
      points := points + [Round3(Exact(i, spacing))];
      i := i + 1;
    }
    forall k | 0 <= k < |points|
      ensures points[k] == Round3(Exact(k, spacing))
    {
      MultiplesAt(i, spacing, k);
    }
  }

  /** The gap count is the largest that fits: `n` gaps of the minimum pitch
      fit within the side, `n + 1` do not. */
  lemma {:induction false} CountIsMaximal(length: real, e: real)
    requires e > 0.0
    ensures NumPoints(length, e) as real * e <= length
    ensures length < (NumPoints(length, e) + 1) as real * e
  {
    var q := length / e;
    var n := q.Floor;
    assert q * e == length;
    assert n as real * e <= length by {
      MulMonotone(n as real, q, e);
    }
    assert length < (n + 1) as real * e by {
      assert q < (n + 1) as real;
      MulStrict(q, (n + 1) as real, e);
    }
  }

  /** There is a gap exactly when the side is at least one minimum pitch
      long, and the gap count is non-negative exactly when the side length
      is. */
  lemma {:induction false} CountSign(length: real, e: real)
    requires e > 0.0
    ensures NumPoints(length, e) > 0 <==> length >= e
    ensures NumPoints(length, e) >= 0 <==> length >= 0.0
  {
    var n := NumPoints(length, e);
    CountIsMaximal(length, e);
    if n > 0 {
      MulMonotone(1.0, n as real, e);
    } else {
      MulMonotone((n + 1) as real, 1.0, e);
    }
    if n >= 0 {
      MulMonotone(0.0, n as real, e);
    } else {
      MulMonotone((n + 1) as real, 0.0, e);
    }
  }

  /** When there is at least one gap, the stretched pitch fills the side
      exactly and is never shorter than the minimum pitch. */
  lemma {:induction false} StretchedPitch(length: real, minSpacing: real, pointDiameter: real)
    requires minSpacing + pointDiameter > 0.0
    requires NumPoints(length, minSpacing + pointDiameter) > 0
    ensures NumPoints(length, minSpacing + pointDiameter) as real * LinePitch(length, minSpacing, pointDiameter) == length
    ensures LinePitch(length, minSpacing, pointDiameter) >= minSpacing + pointDiameter
  {
    var e := minSpacing + pointDiameter;
    var n := NumPoints(length, e);
    var p := LinePitch(length, minSpacing, pointDiameter);
    CountIsMaximal(length, e);
    assert p == length / n as real;
    assert n as real * p == length;
    if p < e {
      MulStrict(p, e, n as real);
      assert false;
    }
  }

  /** An offset of the list is the rounded multiple of the pitch. */
  lemma OffsetAt(length: real, minSpacing: real, pointDiameter: real, i: int)
    requires minSpacing + pointDiameter != 0.0
    requires 0 <= i < |LineOffsets(length, minSpacing, pointDiameter)|
    ensures LineOffsets(length, minSpacing, pointDiameter)[i]
            == Round3(Exact(i, LinePitch(length, minSpacing, pointDiameter)))
  {
    var n := NumPoints(length, minSpacing + pointDiameter);
    MultiplesAt(OffsetCount(n), Pitch(length, n), i);
  }

  /** With at least one gap the offsets start at 0 and end at the rounded
      side length. */
  lemma {:induction false} EndPoints(length: real, minSpacing: real, pointDiameter: real)
    requires minSpacing + pointDiameter > 0.0
    requires NumPoints(length, minSpacing + pointDiameter) > 0
    ensures |LineOffsets(length, minSpacing, pointDiameter)| >= 2
    ensures LineOffsets(length, minSpacing, pointDiameter)[0] == 0.0
    ensures var r := LineOffsets(length, minSpacing, pointDiameter);
            r[|r| - 1] == Round3(length)
  {
    var n := NumPoints(length, minSpacing + pointDiameter);
    var r := LineOffsets(length, minSpacing, pointDiameter);
    StretchedPitch(length, minSpacing, pointDiameter);
    assert |r| == n + 1;
    OffsetAt(length, minSpacing, pointDiameter, 0);
    Round3OfRounded(0.0);
    OffsetAt(length, minSpacing, pointDiameter, n);
    assert Exact(n, LinePitch(length, minSpacing, pointDiameter)) == length;
  }

  /** A side shorter than the minimum pitch (but not negative) gets exactly one
      contact, at offset 0, and the returned pitch is 0. */
  lemma {:induction false} ShortSide(length: real, minSpacing: real, pointDiameter: real)
    requires minSpacing + pointDiameter > 0.0
    requires 0.0 <= length < minSpacing + pointDiameter
    ensures LinePitch(length, minSpacing, pointDiameter) == 0.0
    ensures LineOffsets(length, minSpacing, pointDiameter) == [0.0]
  {
    CountSign(length, minSpacing + pointDiameter);
    var r := LineOffsets(length, minSpacing, pointDiameter);
    assert |r| == 1;
    OffsetAt(length, minSpacing, pointDiameter, 0);
    Round3OfRounded(0.0);
  }

  /** A side exactly one minimum pitch long already has one gap: two
      contacts, at 0 and at the rounded side length. */
  lemma {:induction false} OnePitchSide(length: real, minSpacing: real, pointDiameter: real)
    requires minSpacing + pointDiameter > 0.0
    requires length == minSpacing + pointDiameter
    ensures LineOffsets(length, minSpacing, pointDiameter) == [0.0, Round3(length)]
  {
    assert length / (minSpacing + pointDiameter) == 1.0;
    assert NumPoints(length, minSpacing + pointDiameter) == 1;
    EndPoints(length, minSpacing, pointDiameter);
  }

  /** A negative side length gets no contact at all. */
  lemma {:induction false} NegativeSide(length: real, minSpacing: real, pointDiameter: real)
    requires minSpacing + pointDiameter > 0.0
    requires length < 0.0
    ensures LineOffsets(length, minSpacing, pointDiameter) == []
  {
    CountSign(length, minSpacing + pointDiameter);
  }

  /** The offsets never decrease along the list. */
  lemma {:induction false} OffsetsSorted(length: real, minSpacing: real, pointDiameter: real, i: int, j: int)
    requires minSpacing + pointDiameter > 0.0
    requires 0 <= i <= j < |LineOffsets(length, minSpacing, pointDiameter)|
    ensures LineOffsets(length, minSpacing, pointDiameter)[i] <= LineOffsets(length, minSpacing, pointDiameter)[j]
  {
    var p := LinePitch(length, minSpacing, pointDiameter);
    if NumPoints(length, minSpacing + pointDiameter) > 0 {
      StretchedPitch(length, minSpacing, pointDiameter);
    }
    assert p >= 0.0;
    ExactMonotone(i, j, p);
    Round3Monotone(Exact(i, p), Exact(j, p));
    OffsetAt(length, minSpacing, pointDiameter, i);
    OffsetAt(length, minSpacing, pointDiameter, j);
  }

  /** On a side of non-negative length every offset lies between 0 and the
      rounded side length. */
  lemma {:induction false} OffsetsWithinSide(length: real, minSpacing: real, pointDiameter: real, i: int)
    requires minSpacing + pointDiameter > 0.0
    requires 0.0 <= length
    requires 0 <= i < |LineOffsets(length, minSpacing, pointDiameter)|
    ensures 0.0 <= LineOffsets(length, minSpacing, pointDiameter)[i] <= Round3(length)
  {
    var r := LineOffsets(length, minSpacing, pointDiameter);
    CountSign(length, minSpacing + pointDiameter);
    if NumPoints(length, minSpacing + pointDiameter) > 0 {
      EndPoints(length, minSpacing, pointDiameter);
      OffsetsSorted(length, minSpacing, pointDiameter, 0, i);
      OffsetsSorted(length, minSpacing, pointDiameter, i, |r| - 1);
    } else {
      ShortSide(length, minSpacing, pointDiameter);
      Round3Monotone(0.0, length);
      Round3OfRounded(0.0);
    }
  }
}
