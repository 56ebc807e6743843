/** The guard-ring cell (`gring.genLayout`).

    A guard ring of length `l` (along x) and width `w` (along y) is a set of
    concentric rectangular frames, one per mask layer, plus two columns and
    two rows of contact squares along the four sides; when they sit on the
    middle line of the Metal1 wall is stated by `ContactsOnMetalWall` and
    `ColumnOnMetalWall`. Each frame is the
    difference of an outer and an inner box, kept here as the pair itself.
    The `well` choice selects the variant: "sub" draws pSD, Activ and Metal1
    frames; "nwell" draws Activ and Metal1 frames and a full NWell box; any
    other value draws nothing. */
module GuardRing {
  import opened Arith
  import opened Rounding
  import opened PointsOnLine
  import opened Positions
  import opened Geometry
  import opened Squares

  /** The design-rule values `genLayout` reads from the technology
      parameters, under their meaning. */
  datatype Rules = Rules(
    endcap: real,           // M1_c1: Metal1 enclosure of the contact bar
    psdActiv: real,         // pSD_c1: pSD enclosure of Activ
    nsdActiv: real,         // nSDB_e: nSD block enclosure of Activ
    contbarMinWidth: real,  // CntB_a: minimum contact-bar width
    psdMin: real,           // pSD_a: minimum pSD width
    nsdMin: real            // nSDB_a: minimum nSD block width
  )

  /** `minpSD`, 0.05 above the minimum pSD width: it sizes the pSD, Activ and
      Metal1 frames of the "sub" variant and places the contacts of both
      variants. */
  function MinPSD(rules: Rules): real
  {
    rules.psdMin + 0.05
  }

  /** `minnSD`, 0.05 above the minimum nSD block width: it sizes the Activ and
      Metal1 frames of the "nwell" variant (no nSD frame is drawn). */
  function MinNSD(rules: Rules): real
  {
    rules.nsdMin + 0.05
  }

  const SquareSize: real := 0.16
  const MinSpacing: real := 0.18
  const DefaultGridRes: real := 0.005

  /** The grid step used for snapping: the technology's, or 0.005 when the
      technology reports 0. */
  function GridRes(grid: real): (g: real)
    ensures g != 0.0
    ensures g == grid || (grid == 0.0 && g == DefaultGridRes)
  {
    if grid == 0.0 then DefaultGridRes else grid
  }

  /** One frame: the outer box minus the inner box, on one layer. */
  datatype Ring = Ring(layer: Layer, outer: Box, inner: Box)

  /** What the generator draws: the frames, the full NWell boxes, and the
      contact squares (all on the Cont layer). */
  datatype Layout = Layout(rings: seq<Ring>, wells: seq<Box>, contacts: seq<Box>)

  /** Both boxes of the frame are centred on the cell's centre `(l/2, w/2)`. */
  predicate Concentric(ring: Ring, l: real, w: real)
  {
    DoubledCentre(ring.outer) == (l, w) && DoubledCentre(ring.inner) == (l, w)
  }

  /** The frame's wall has the same thickness `t` on all four sides. */
  predicate UniformWall(ring: Ring, t: real)
  {
    ring.inner.x1 - ring.outer.x1 == t && ring.outer.x2 - ring.inner.x2 == t
    && ring.inner.y1 - ring.outer.y1 == t && ring.outer.y2 - ring.inner.y2 == t
  }

  /** The pSD frame: the whole cell minus a box inset by `minpSD`. Its wall is
      `minpSD` thick; the inner box lies strictly inside exactly when
      `minpSD` is positive, and is non-empty exactly when the cell is more
      than two walls long and wide. */
  function PsdRing(l: real, w: real, m: real): (ring: Ring)
    ensures ring.layer == PSD
    ensures ring.outer == Box(0.0, 0.0, l, w)
    ensures Concentric(ring, l, w) && UniformWall(ring, m)
    ensures StrictlyInside(ring.inner, ring.outer) <==> m > 0.0
    ensures NonEmpty(ring.inner) <==> l > 2.0 * m && w > 2.0 * m
  {
    Ring(PSD, Box(0.0, 0.0, l, w), Box(m, m, l - m, w - m))
  }

  /** The Activ frame: outer box inset by the implant enclosure `enc`, inner
      box inset by `m - enc`. Its wall is `m - 2 enc` thick, so the inner box
      lies strictly inside exactly when `m > 2 enc`. */
  function ActivRing(l: real, w: real, m: real, enc: real): (ring: Ring)
    ensures ring.layer == Activ
    ensures Concentric(ring, l, w) && UniformWall(ring, m - 2.0 * enc)
    ensures StrictlyInside(ring.inner, ring.outer) <==> m > 2.0 * enc
    ensures NonEmpty(ring.outer) <==> l > 2.0 * enc && w > 2.0 * enc
  {
    Ring(Activ, Box(enc, enc, l - enc, w - enc), Box(m - enc, m - enc, l - m + enc, w - m + enc))
  }

  /** The Metal1 frame: centred on the line `m / 2` in from the cell edge,
      reaching `contbar/2 + endcap` to either side of it. Its wall is
      `contbar + 2 endcap` thick; the inner box lies strictly inside exactly
      when `contbar/2 + endcap` is positive. */
  function Metal1Ring(l: real, w: real, m: real, contbar: real, endcap: real): (ring: Ring)
    ensures ring.layer == Metal1
    ensures Concentric(ring, l, w) && UniformWall(ring, contbar + 2.0 * endcap)
    ensures ring.outer.x1 + ring.inner.x1 == m && ring.outer.y1 + ring.inner.y1 == m
    ensures StrictlyInside(ring.inner, ring.outer) <==> contbar / 2.0 + endcap > 0.0
  {
    Ring(Metal1,
      Box(m / 2.0 - contbar / 2.0 - endcap, m / 2.0 - contbar / 2.0 - endcap,
          l - m / 2.0 + contbar / 2.0 + endcap, w - m / 2.0 + contbar / 2.0 + endcap),
      Box(m / 2.0 + contbar / 2.0 + endcap, m / 2.0 + contbar / 2.0 + endcap,
          l - m / 2.0 - contbar / 2.0 - endcap, w - m / 2.0 - contbar / 2.0 - endcap))
  }

  /** The frames of the "sub" variant, in the order they are drawn. */
  function SubRings(l: real, w: real, rules: Rules): (rings: seq<Ring>)
    ensures |rings| == 3
    ensures rings[0].layer == PSD && rings[1].layer == Activ && rings[2].layer == Metal1
  {
    var m := MinPSD(rules);
    [PsdRing(l, w, m), ActivRing(l, w, m, rules.psdActiv),
     Metal1Ring(l, w, m, rules.contbarMinWidth, rules.endcap)]
  }

  /** The frames of the "nwell" variant, in the order they are drawn. */
  function NWellRings(l: real, w: real, rules: Rules): (rings: seq<Ring>)
    ensures |rings| == 2
    ensures rings[0].layer == Activ && rings[1].layer == Metal1
  {
    var m := MinNSD(rules);
    [ActivRing(l, w, m, rules.nsdActiv), Metal1Ring(l, w, m, rules.contbarMinWidth, rules.endcap)]
  }

  /** `OFFSET`: how far the first contact square sits from the cell edge. Both
      variants compute it from `minpSD`. */
  function Offset(rules: Rules): real
  {
    (MinPSD(rules) - SquareSize) / 2.0
  }

  /** `center_x` (equal to `center_y`): the coordinate of the left contact
      column and of the bottom contact row. */
  function NearEdge(rules: Rules): real
  {
    MinPSD(rules) / 2.0 - rules.contbarMinWidth / 2.0
  }

  /** `d - (SQUARE_SIZE + OFFSET)`: the coordinate of the right column
      (`d = l`) or of the top row (`d = w`). A square placed there is centred
      `minpSD / 2` in from the far edge. */
  function FarEdge(d: real, rules: Rules): (r: real)
    ensures r + SquareSize / 2.0 == d - MinPSD(rules) / 2.0
  {
    d - (SquareSize + Offset(rules))
  }

  /** `bl_to_tl` (`d = w`) and `tl_to_tr` (`d = l`): the distance between the
      centres of the first and the last square of a run, which is the side
      less `minpSD / 2` at either end. */
  function RunLength(d: real, rules: Rules): (r: real)
    ensures r == d - MinPSD(rules)
  {
    d - (Offset(rules) + SquareSize / 2.0) * 2.0
  }

  /** The positions along one run of contacts, before snapping: the offsets
      along the run shifted by `OFFSET`. */
  function RunPositions(d: real, rules: Rules): seq<real>
  {
    AdjustPositions(LineOffsets(RunLength(d, rules), MinSpacing, SquareSize), Offset(rules))
  }

  /** The two fixed coordinates of a pair of opposite runs. */
  function EdgeLines(d: real, rules: Rules): seq<real>
  {
    [NearEdge(rules), FarEdge(d, rules)]
  }

  /** All contact squares: the left and right columns (x fixed, y running
      along the width), then the bottom and top rows (y fixed, x running
      along the length), each list snapped to the grid. */
  function ContactSquares(l: real, w: real, rules: Rules, g: real): seq<Box>
    requires g != 0.0
  {
    SquareGrid(AdjustToGrid(EdgeLines(l, rules), g), AdjustToGrid(RunPositions(w, rules), g), SquareSize)
    + SquareGrid(AdjustToGrid(RunPositions(l, rules), g), AdjustToGrid(EdgeLines(w, rules), g), SquareSize)
  }

  /** The contact placement shared by both variants: point distribution along
      the width and the length, the `OFFSET` shift, then the two calls that
      snap and emit squares. */
  method PlaceContacts(l: real, w: real, rules: Rules, g: real) returns (contacts: seq<Box>)
    requires g != 0.0
    ensures contacts == ContactSquares(l, w, rules, g)
    ensures |contacts| == 2 * |RunPositions(w, rules)| + 2 * |RunPositions(l, rules)|
  {
    var offset := Offset(rules);
    var blToTl := w - (offset + SquareSize / 2.0) * 2.0;
    var tlToTr := l - (offset + SquareSize / 2.0) * 2.0;
    var yPositionsVert, _ := CalculatePointsOnLine(blToTl, MinSpacing, SquareSize);
    var xPositionsHoriz, _ := CalculatePointsOnLine(tlToTr, MinSpacing, SquareSize);
    yPositionsVert := AdjustPositions(yPositionsVert, offset);
    xPositionsHoriz := AdjustPositions(xPositionsHoriz, offset);
    assert yPositionsVert == RunPositions(w, rules);
    assert xPositionsHoriz == RunPositions(l, rules);
    var columns, rows := [NearEdge(rules), l - (SquareSize + offset)], [NearEdge(rules), w - (SquareSize + offset)];
    assert columns == EdgeLines(l, rules) && rows == EdgeLines(w, rules);
    var vertical := CalculateAndCreateSquares(columns, yPositionsVert, SquareSize, g);
    var horizontal := CalculateAndCreateSquares(xPositionsHoriz, rows, SquareSize, g);
    contacts := vertical + horizontal;
  }

  /** `genLayout`: the frames and contacts of the selected variant.
      `gridResolution` is the grid step the technology reports
      (`tech.getGridResolution()`, kept as `self.grid`); it is replaced by
      0.005 when it is 0. */
  method GenLayout(l: real, w: real, well: string, rules: Rules, gridResolution: real) returns (layout: Layout)
    ensures well == "sub" ==> layout.rings == SubRings(l, w, rules) && layout.wells == []
    ensures well == "nwell" ==> layout.rings == NWellRings(l, w, rules) && layout.wells == [Box(0.0, 0.0, l, w)]
    ensures well == "sub" || well == "nwell" ==> layout.contacts == ContactSquares(l, w, rules, GridRes(gridResolution))
    ensures well != "sub" && well != "nwell" ==> layout == Layout([], [], [])
  {
    var gridRes := gridResolution;
    if gridRes == 0.0 {
      gridRes := DefaultGridRes;
    }
    layout := Layout([], [], []);
    if well == "sub" {
      var contacts := PlaceContacts(l, w, rules, gridRes);
      layout := Layout(SubRings(l, w, rules), [], contacts);
    }
    if well == "nwell" {
      var contacts := PlaceContacts(l, w, rules, gridRes);
      layout := Layout(NWellRings(l, w, rules), [Box(0.0, 0.0, l, w)], contacts);
    }
  }

  /** Every frame of either variant is centred on the cell and has a wall of
      uniform thickness. */
  lemma RingsConcentric(l: real, w: real, rules: Rules, ring: Ring)
    requires ring in SubRings(l, w, rules) + NWellRings(l, w, rules)
    ensures Concentric(ring, l, w)
    ensures UniformWall(ring, ring.inner.x1 - ring.outer.x1)
  {
  }

  /** In the "sub" variant every frame's inner box lies strictly inside its
      outer box when `minpSD > 2 pSD_c1 >= 0` and `contbar/2 + endcap > 0`,
      so the boolean difference is a true frame on every layer. */
  lemma SubRingsNest(l: real, w: real, rules: Rules, ring: Ring)
    requires ring in SubRings(l, w, rules)
    requires rules.psdActiv >= 0.0 && MinPSD(rules) > 2.0 * rules.psdActiv
    requires rules.contbarMinWidth / 2.0 + rules.endcap > 0.0
    ensures StrictlyInside(ring.inner, ring.outer)
  {
  }

  /** In the "sub" variant the Activ frame lies within the pSD frame with the
      enclosure `pSD_c1` on both sides: its outer box inside the pSD outer box
      and its inner box around the pSD inner box. */
  lemma SubPsdEnclosesActiv(l: real, w: real, rules: Rules)
    requires rules.psdActiv > 0.0
    ensures var psd, act := SubRings(l, w, rules)[0], SubRings(l, w, rules)[1];
            StrictlyInside(act.outer, psd.outer) && StrictlyInside(psd.inner, act.inner)
  {
  }

  /** The "nwell" counterpart of `SubRingsNest`, with `minnSD` and `nSDB_e`. */
  lemma NWellRingsNest(l: real, w: real, rules: Rules, ring: Ring)
    requires ring in NWellRings(l, w, rules)
    requires MinNSD(rules) > 2.0 * rules.nsdActiv
    requires rules.contbarMinWidth / 2.0 + rules.endcap > 0.0
    ensures StrictlyInside(ring.inner, ring.outer)
  {
  }

  /** The frame with x and y exchanged. */
  function TransposeRing(ring: Ring): Ring
  {
    Ring(ring.layer, Transpose(ring.outer), Transpose(ring.inner))
  }

  /** Exchanging length and width mirrors every frame in the diagonal. */
  lemma RingsTranspose(l: real, w: real, rules: Rules, k: int)
    ensures 0 <= k < |SubRings(l, w, rules)| ==> SubRings(w, l, rules)[k] == TransposeRing(SubRings(l, w, rules)[k])
    ensures 0 <= k < |NWellRings(l, w, rules)| ==> NWellRings(w, l, rules)[k] == TransposeRing(NWellRings(l, w, rules)[k])
  {
  }

  lemma TransposeSquare(x: real, y: real, size: real)
    ensures Transpose(Square(x, y, size)) == Square(y, x, size)
  {
  }

  /** Exchanging length and width mirrors the set of contact squares in the
      diagonal: the columns become the rows and the rows the columns. */
  lemma {:induction false} ContactsTranspose(l: real, w: real, rules: Rules, g: real, b: Box)
    requires g != 0.0
    ensures b in ContactSquares(w, l, rules, g) <==> Transpose(b) in ContactSquares(l, w, rules, g)
  {
    var el, ew := AdjustToGrid(EdgeLines(l, rules), g), AdjustToGrid(EdgeLines(w, rules), g);
    var rl, rw := AdjustToGrid(RunPositions(l, rules), g), AdjustToGrid(RunPositions(w, rules), g);
    var t := Transpose(b);
    SquareGridMember(ew, rl, SquareSize, b);
    SquareGridMember(rw, el, SquareSize, b);
    SquareGridMember(el, rw, SquareSize, t);
    SquareGridMember(rl, ew, SquareSize, t);
    TransposeSquare(b.x1, b.y1, SquareSize);
    TransposeSquare(t.x1, t.y1, SquareSize);
  }

  /** The number of contacts: two columns of one square per point along the
      width, two rows of one square per point along the length. */
  lemma {:induction false} ContactCount(l: real, w: real, rules: Rules, g: real)
    requires g != 0.0
    ensures |ContactSquares(l, w, rules, g)|
            == 2 * OffsetCount(NumPoints(RunLength(w, rules), MinSpacing + SquareSize))
             + 2 * OffsetCount(NumPoints(RunLength(l, rules), MinSpacing + SquareSize))
  {
    var columns, vertical := AdjustToGrid(EdgeLines(l, rules), g), AdjustToGrid(RunPositions(w, rules), g);
    var horizontal, rows := AdjustToGrid(RunPositions(l, rules), g), AdjustToGrid(EdgeLines(w, rules), g);
    assert |columns| == 2 && |rows| == 2;
    assert |vertical| == OffsetCount(NumPoints(RunLength(w, rules), MinSpacing + SquareSize));
    assert |horizontal| == OffsetCount(NumPoints(RunLength(l, rules), MinSpacing + SquareSize));
    SquareGridCount(columns, vertical, SquareSize);
    SquareGridCount(horizontal, rows, SquareSize);
  }

  /** Before snapping, the first square of a run (along a side of
      non-negative run length) is centred `minpSD / 2` in from the cell
      edge; in the "sub" variant that is the middle line of the pSD wall
      (the "nwell" variant draws no pSD wall). */
  lemma {:induction false} FirstContactCentre(d: real, rules: Rules)
    requires RunLength(d, rules) >= 0.0
    ensures |RunPositions(d, rules)| >= 1
    ensures RunPositions(d, rules)[0] + SquareSize / 2.0 == MinPSD(rules) / 2.0
  {
    var len := RunLength(d, rules);
    CountSign(len, MinSpacing + SquareSize);
    OffsetAt(len, MinSpacing, SquareSize, 0);
    Round3OfRounded(0.0);
  }

  /** Along the run, the first square of the left and right columns
      (`RunPositions(w, rules)[0]`, the y coordinate) is centred on the middle
      line of the bottom Metal1 wall: always in the "sub" variant, and in the
      "nwell" variant exactly when `pSD_a == nSDB_a`, because the contacts are
      placed from `minpSD` while the Metal1 frame is drawn from `minnSD`.
      The fixed coordinate of the column is covered by `ColumnOnMetalWall`. */
  lemma {:induction false} ContactsOnMetalWall(l: real, w: real, rules: Rules)
    requires RunLength(w, rules) >= 0.0
    ensures var metal := SubRings(l, w, rules)[2];
            2.0 * (RunPositions(w, rules)[0] + SquareSize / 2.0) == metal.outer.y1 + metal.inner.y1
    ensures var metal := NWellRings(l, w, rules)[1];
            2.0 * (RunPositions(w, rules)[0] + SquareSize / 2.0) == metal.outer.y1 + metal.inner.y1
            <==> rules.psdMin == rules.nsdMin
  {
    FirstContactCentre(w, rules);
  }

  /** Before snapping, the left column (and the bottom row) sits across the
      middle line of the Metal1 wall: in the "sub" variant exactly when
      `CntB_a == SQUARE_SIZE`, in the "nwell" variant exactly when
      `pSD_a - nSDB_a == CntB_a - SQUARE_SIZE`, because `center_x` is taken
      from `minpSD` and `CntB_a` while the frame is drawn from `minnSD`. */
  lemma ColumnOnMetalWall(l: real, w: real, rules: Rules)
    ensures var metal := SubRings(l, w, rules)[2];
            2.0 * (NearEdge(rules) + SquareSize / 2.0) == metal.outer.x1 + metal.inner.x1
            <==> rules.contbarMinWidth == SquareSize
    ensures var metal := NWellRings(l, w, rules)[1];
            2.0 * (NearEdge(rules) + SquareSize / 2.0) == metal.outer.x1 + metal.inner.x1
            <==> rules.psdMin - rules.nsdMin == rules.contbarMinWidth - SquareSize
  {
  }

  /** When `CntB_a == SQUARE_SIZE` the lower-left corner square is created
      twice: first as the bottom square of the left column, then as the left
      square of the bottom row. */
  lemma {:induction false} CornerSquareTwice(l: real, w: real, rules: Rules, g: real)
    requires g != 0.0
    requires rules.contbarMinWidth == SquareSize
    requires RunLength(l, rules) >= 0.0 && RunLength(w, rules) >= 0.0
    ensures 0 < 2 * |RunPositions(w, rules)| < |ContactSquares(l, w, rules, g)|
    ensures ContactSquares(l, w, rules, g)[0] == ContactSquares(l, w, rules, g)[2 * |RunPositions(w, rules)|]
  {
    var columns, vertical := AdjustToGrid(EdgeLines(l, rules), g), AdjustToGrid(RunPositions(w, rules), g);
    var horizontal, rows := AdjustToGrid(RunPositions(l, rules), g), AdjustToGrid(EdgeLines(w, rules), g);
    FirstContactCentre(w, rules);
    FirstContactCentre(l, rules);
    assert RunPositions(w, rules)[0] == NearEdge(rules) && RunPositions(l, rules)[0] == NearEdge(rules);
    AdjustToGridAt(EdgeLines(l, rules), g, 0);
    AdjustToGridAt(EdgeLines(w, rules), g, 0);
    AdjustToGridAt(RunPositions(w, rules), g, 0);
    AdjustToGridAt(RunPositions(l, rules), g, 0);
    SquareGridAt(columns, vertical, SquareSize, 0, 0);
    SquareGridAt(horizontal, rows, SquareSize, 0, 0);
    var left, bottom := SquareGrid(columns, vertical, SquareSize), SquareGrid(horizontal, rows, SquareSize);
    assert |left| == 2 * |RunPositions(w, rules)|;
    assert ContactSquares(l, w, rules, g) == left + bottom;
  }

  /** The left column and the right column are mirror images about `x = l/2`
      exactly when the contact-bar width equals the square size: the left
      column is placed from `contbar` while the right one is placed from
      `SQUARE_SIZE`. */
  lemma ColumnsMirror(l: real, rules: Rules)
    ensures NearEdge(rules) + (FarEdge(l, rules) + SquareSize) == l
            <==> rules.contbarMinWidth == SquareSize
  {
  }
}
