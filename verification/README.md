# Guard-ring layout generator

A model of the guard-ring cell generator of a process design kit
(`code/gring_code.py`). Given the cell's length `l` and width `w`, the
technology's design rules and a well choice, the generator draws:

- a set of concentric rectangular frames (pSD, Activ and Metal1 for a
  substrate ring; Activ and Metal1 plus a full NWell box for an n-well ring);
- a ring of 0.16 × 0.16 contact squares on the Cont layer: two columns and
  two rows running along the four sides.

The contacts are laid out in four steps:

1. Centre positions are spread along each side by `calculate_points_on_line`.
   It takes the largest gap count that honours the minimum pitch 0.18 + 0.16,
   then stretches the pitch so the gaps fill the side exactly. Each offset is
   rounded to three decimals.
2. The positions are shifted by a constant offset (`adjust_positions`).
3. They are snapped to the manufacturing grid (`adjust_to_grid`). A grid
   reported as 0 is replaced by 0.005.
4. They are turned into squares, one per (x, y) pair, x outermost
   (`calculate_and_create_squares`).

Files (one module each):

- `arith.dfy` (`Arith`): small facts about real and integer products and
  absolute values, used by the proofs.
- `rounding.dfy` (`Rounding`): Python's `round(x)` and `round(x, 3)`, which
  round half to even, stated over exact reals.
- `points.dfy` (`PointsOnLine`): `calculate_points_on_line`, as a method with
  its loop. It is proved against the specification function `LineOffsets`,
  and the lemmas state the properties of `LineOffsets`.
- `positions.dfy` (`Positions`): `adjust_positions` and `adjust_to_grid`.
  Both are pure list comprehensions in the source, so they are functions here.
- `geometry.dfy` (`Geometry`): mask layers and boxes.
- `squares.dfy` (`Squares`): `calculate_and_create_squares`, as a method with
  the nested loop. It returns the squares in the order the source creates
  them.
- `guard_ring.dfy` (`GuardRing`): `genLayout`. It covers the frames of both
  variants, the contact placement, the grid-step fallback and the branch on
  the well choice.

Choices in the model:

- Coordinates are exact reals.
- `round` is Python's round-half-to-even applied to the exact value.
- A frame (`fgXor` of two rectangles) is kept as the pair (outer box, inner
  box).
- The generator's output is a `Layout` value holding:
  - the frames in drawing order;
  - the full NWell boxes;
  - the contact squares in creation order.

The n-well branch draws its frames from `minnSD`, but places its contacts
with `OFFSET`, `center_x` and `center_y` computed from `minpSD`
(`code/gring_code.py:288-291`). The model keeps this. Two lemmas state what
follows, before snapping:

- `ContactsOnMetalWall` covers the coordinate along a run: the y coordinate
  of the first square of the left and right columns. That square is centred
  on the middle line of the bottom Metal1 wall. In
  the "sub" variant this always holds; in the "nwell" variant it holds
  exactly when `pSD_a == nSDB_a`.
- `ColumnOnMetalWall` covers the fixed coordinate of the left column (and
  of the bottom row), `center_x = minpSD/2 - CntB_a/2`. That column is
  centred on the Metal1 middle line in the "sub" variant exactly when
  `CntB_a == 0.16`. In the "nwell" variant it is centred there exactly when
  `pSD_a - nSDB_a == CntB_a - 0.16`.

The left column is placed from `CntB_a` and the right column from the square
size 0.16. `ColumnsMirror` states that the two columns are mirror images
exactly when these widths are equal.

With `CntB_a == 0.16`, the lower-left corner square is created twice: once
by the left column and once by the bottom row (`CornerSquareTwice`).
`ContactCount` therefore counts square creations, duplicates included, and
not distinct squares.

Edge cases of `calculate_points_on_line` (`code/gring_code.py:32-39`):

- A side exactly one minimum pitch long gets two contacts, at 0 and at its
  rounded length (`PointsOnLine.OnePitchSide`).
- A side shorter than the minimum pitch but not negative gets a single
  contact at 0, and the returned pitch is 0 (`PointsOnLine.ShortSide`).
- A negative side gets no contact at all, because `range` of a negative
  count is empty (`PointsOnLine.NegativeSide`).

## Model

| member | source | states |
|---|---|---|
| Rounding.RoundHalfEven | code/gring_code.py:53 | defines Python's one-argument `round`: the floor, or the floor plus one, whichever is nearer, a tie going to the even one (properties in `RoundBounds` and `RoundIsNearest`) |
| Rounding.Round3 | code/gring_code.py:39 | defines `round(x, 3)` as `round(1000 x) / 1000` (properties in `Round3Near`, `Round3Monotone`, `Round3OfRounded`) |
| Rounding.RoundBounds | code/gring_code.py:53 | `round(x)` is within 1/2 of `x`, and a tie is resolved to the even integer |
| Rounding.RoundIsNearest | code/gring_code.py:53 | no integer is closer to `x` than `round(x)` |
| Rounding.RoundOfInteger | code/gring_code.py:53 | `round` leaves a whole number unchanged |
| Rounding.RoundMonotone | code/gring_code.py:53 | `round` never reverses the order of two values |
| Rounding.Round3Near | code/gring_code.py:39 | `round(x, 3)` is within 0.0005 of `x` and has at most three decimals |
| Rounding.Round3Monotone | code/gring_code.py:39 | `round(x, 3)` is monotone |
| Rounding.Round3OfRounded | code/gring_code.py:39 | `round(x, 3)` leaves a value with three decimals unchanged |
| PointsOnLine.NumPoints | code/gring_code.py:31-32 | defines `num_points = int(length // effective_spacing)`, the floor of the quotient (properties in `CountIsMaximal`, `CountSign`) |
| PointsOnLine.Pitch | code/gring_code.py:34 | defines `spacing`: `length / num_points` when the count is positive, else 0 |
| PointsOnLine.OffsetCount | code/gring_code.py:38 | defines the number of iterations of `range(num_points + 1)`: `num_points + 1`, or none when the count is negative (properties in `CalculatePointsOnLine`, `ShortSide`, `NegativeSide`) |
| PointsOnLine.LinePitch | code/gring_code.py:31-34 | defines the pitch the function returns (properties in `StretchedPitch`, `ShortSide`) |
| PointsOnLine.LineOffsets | code/gring_code.py:31-39 | defines the offsets the function returns (properties in `OffsetAt`, `EndPoints`, `OffsetsSorted`, `OffsetsWithinSide`) |
| PointsOnLine.Multiples | code/gring_code.py:36-39 | the list the loop builds has exactly one entry per iteration |
| PointsOnLine.MultiplesAt | code/gring_code.py:38-39 | the `i`-th appended entry is `round(i * spacing, 3)` |
| PointsOnLine.CalculatePointsOnLine | code/gring_code.py:29-41 | the loop returns the stretched pitch and `num_points + 1` offsets (none when the count is negative), where offset `i` is `round(i * spacing, 3)` |
| PointsOnLine.CountIsMaximal | code/gring_code.py:31-32 | `num_points` is the largest gap count that fits: `n` minimum pitches fit within the side and `n + 1` do not |
| PointsOnLine.CountSign | code/gring_code.py:32-34 | there is a gap exactly when the side is at least one minimum pitch long; the count is non-negative exactly when the side length is |
| PointsOnLine.StretchedPitch | code/gring_code.py:32-34 | with a gap, `num_points * spacing == length`, and the stretched pitch is at least the minimum pitch |
| PointsOnLine.OffsetAt | code/gring_code.py:38-39 | the `i`-th returned offset is `round(i * spacing, 3)` for the returned pitch |
| PointsOnLine.EndPoints | code/gring_code.py:32-39 | with a gap, there are at least two offsets; the first is 0 and the last is `round(length, 3)` |
| PointsOnLine.ShortSide | code/gring_code.py:32-39 | a side of length in `[0, pitch)` gets pitch 0 and the single offset 0 |
| PointsOnLine.OnePitchSide | code/gring_code.py:32-39 | a side exactly one minimum pitch long gets the offsets 0 and `round(length, 3)` |
| PointsOnLine.NegativeSide | code/gring_code.py:32-39 | a negative side length gets no offset |
| PointsOnLine.OffsetsSorted | code/gring_code.py:34-39 | the offsets never decrease along the list |
| PointsOnLine.OffsetsWithinSide | code/gring_code.py:32-39 | on a side of non-negative length, every offset lies in `[0, round(length, 3)]` |
| Positions.AdjustPositions | code/gring_code.py:47-49 | the result has the input's length, and entry `i` is input `i` plus the offset |
| Positions.ShiftInverse | code/gring_code.py:47-49 | shifting by `-offset` undoes a shift by `offset` |
| Positions.ShiftCompose | code/gring_code.py:47-49 | two shifts in a row equal one shift by the sum of the offsets |
| Positions.ShiftKeepsOrder | code/gring_code.py:47-49 | a shift keeps a sorted list sorted |
| Positions.Snap | code/gring_code.py:53 | defines `round(pos / grid_res) * grid_res` for one coordinate (properties in `SnapOnGrid`, `SnapIsNearest`, `SnapIdempotent`) |
| Positions.SnapOnGrid | code/gring_code.py:53 | `round(p / g) * g` is a whole multiple of `g` |
| Positions.SnapIsNearest | code/gring_code.py:53 | for `g > 0`, the snapped value is within `g/2` of `p` and no farther from `p` than any grid line |
| Positions.SnapOfGridLine | code/gring_code.py:53 | a value already on the grid does not move |
| Positions.SnapIdempotent | code/gring_code.py:53 | snapping twice equals snapping once |
| Positions.SnapMonotone | code/gring_code.py:53 | for `g > 0`, snapping keeps the order of two values |
| Positions.AdjustToGrid | code/gring_code.py:51-53 | one snapped coordinate per input coordinate |
| Positions.AdjustToGridAt | code/gring_code.py:51-53 | entry `i` of the result is input `i` snapped |
| Positions.AdjustToGridNearest | code/gring_code.py:51-53 | every result entry is on the grid, and for `g > 0` it is within `g/2` of its input |
| Positions.AdjustToGridIdempotent | code/gring_code.py:51-53 | adjusting an adjusted list changes nothing |
| Positions.AdjustToGridKeepsOrder | code/gring_code.py:51-53 | for `g > 0`, adjusting keeps a sorted list sorted |
| Squares.Square | code/gring_code.py:43-45 | defines the box `create_rectangle` makes for a contact at `(x, y)`: `Box(x, y, x + size, y + size)`, as at lines 74-76 |
| Squares.SquareGrid | code/gring_code.py:72-76 | defines the squares of the nested loop, x outermost (properties in `SquareGridCount`, `SquareGridAt`, `SquareGridMember`) |
| Squares.Column | code/gring_code.py:73-76 | one square per y position for a fixed x |
| Squares.ColumnAt | code/gring_code.py:73-76 | the `j`-th square of a column has its corner at `(x, ys[j])` and side `size` |
| Squares.ColumnMember | code/gring_code.py:73-76 | a box is in a column exactly when it is the square at `x` and at some y position |
| Squares.SquareGridCount | code/gring_code.py:72-76 | the nested loop creates `|xs| * |ys|` squares |
| Squares.SquareGridAt | code/gring_code.py:72-76 | the square for `(xs[i], ys[j])` is created at position `i * |ys| + j`, x outermost |
| Squares.SquareGridMember | code/gring_code.py:72-76 | a box is created exactly when its corner is some `(x, y)` pair and its side is `size` |
| Squares.CalculateAndCreateSquares | code/gring_code.py:56-76 | the method snaps both lists, then emits exactly the squares of the snapped pairs in loop order, `|xs| * |ys|` of them |
| Squares.SquaresOnGrid | code/gring_code.py:67-76 | every emitted square has its corner on the grid and sides of length `square_size` |
| GuardRing.MinPSD | code/gring_code.py:130 | defines `minpSD = pSD_a + 0.05` |
| GuardRing.MinNSD | code/gring_code.py:131 | defines `minnSD = nSDB_a + 0.05` |
| GuardRing.GridRes | code/gring_code.py:132-135 | the grid step in use is never 0; it is the technology's step, or 0.005 when that step is 0 |
| GuardRing.PsdRing | code/gring_code.py:141-144 | the pSD frame is the whole cell minus a box inset by `minpSD`; it is centred, its wall is `minpSD` thick, it nests strictly iff `minpSD > 0`, and its hole is non-empty iff `l, w > 2 minpSD` |
| GuardRing.ActivRing | code/gring_code.py:146-158 | the Activ frame is centred with wall `m - 2 enc`; it nests strictly iff `m > 2 enc`, and its outer box is non-empty iff `l, w > 2 enc` |
| GuardRing.Metal1Ring | code/gring_code.py:160-177 | the Metal1 frame is centred on the line `m/2` in from the edge with wall `contbar + 2 endcap`; it nests strictly iff `contbar/2 + endcap > 0` |
| GuardRing.SubRings | code/gring_code.py:140-181 | the "sub" variant draws three frames, pSD, Activ and Metal1, in that order |
| GuardRing.NWellRings | code/gring_code.py:242-282 | the "nwell" variant draws two frames, Activ and Metal1, in that order |
| GuardRing.Offset | code/gring_code.py:187 | defines `OFFSET = (minpSD - SQUARE_SIZE) / 2` (the first square's centre is in `FirstContactCentre`) |
| GuardRing.NearEdge | code/gring_code.py:190-191 | defines `center_x` and `center_y`, `minpSD/2 - CntB_a/2` (properties in `ColumnOnMetalWall`, `ColumnsMirror`) |
| GuardRing.FarEdge | code/gring_code.py:213 | the right column (or top row) `d - (SQUARE_SIZE + OFFSET)` is centred `minpSD/2` in from the far edge |
| GuardRing.RunLength | code/gring_code.py:196-197 | `bl_to_tl` and `tl_to_tr` equal the side less `minpSD`, so the run spans from `minpSD/2` to `minpSD/2` short of the far edge |
| GuardRing.RunPositions | code/gring_code.py:201-207 | defines the contact positions along one run: the offsets of `calculate_points_on_line` shifted by `OFFSET` |
| GuardRing.EdgeLines | code/gring_code.py:213 | defines the two fixed coordinates of a pair of runs, `[center_x, d - (SQUARE_SIZE + OFFSET)]` |
| GuardRing.ContactSquares | code/gring_code.py:211-226 | defines all contact squares: the snapped columns, then the snapped rows (properties in `ContactCount`, `ContactsTranspose`) |
| GuardRing.PlaceContacts | code/gring_code.py:184-226 | the contacts are the two snapped columns followed by the two snapped rows: two squares per point along the width and two per point along the length |
| GuardRing.GenLayout | code/gring_code.py:111-326 | "sub" draws the pSD, Activ and Metal1 frames; "nwell" draws the Activ and Metal1 frames from `minnSD` plus the NWell box; both add the contacts snapped with the fallback grid step; any other well draws nothing |
| GuardRing.RingsConcentric | code/gring_code.py:140-177 | every frame of either variant is centred on the cell and has a wall of uniform thickness |
| GuardRing.SubRingsNest | code/gring_code.py:140-181 | in the "sub" variant every inner box is strictly inside its outer box when `minpSD > 2 pSD_c1 >= 0` and `contbar/2 + endcap > 0` |
| GuardRing.SubPsdEnclosesActiv | code/gring_code.py:141-158 | in the "sub" variant, with `pSD_c1 > 0`, the Activ frame lies within the pSD frame on both sides |
| GuardRing.NWellRingsNest | code/gring_code.py:242-282 | in the "nwell" variant every inner box is strictly inside its outer box when `minnSD > 2 nSDB_e` and `contbar/2 + endcap > 0` |
| GuardRing.RingsTranspose | code/gring_code.py:140-177 | exchanging `l` and `w` mirrors every frame in the diagonal |
| GuardRing.ContactsTranspose | code/gring_code.py:184-226 | exchanging `l` and `w` mirrors the set of contact squares in the diagonal |
| GuardRing.ContactCount | code/gring_code.py:196-226 | the number of square creations (duplicates included) is twice the point count along the width plus twice the point count along the length |
| GuardRing.FirstContactCentre | code/gring_code.py:187-207 | before snapping, the first square of a run is centred `minpSD/2` in from the cell edge |
| GuardRing.ContactsOnMetalWall | code/gring_code.py:285-303 | along the run (its y coordinate), the first square of the left and right columns is centred on the middle line of the bottom Metal1 wall: always in the "sub" variant, and in the "nwell" variant exactly when `pSD_a == nSDB_a` |
| GuardRing.ColumnOnMetalWall | code/gring_code.py:190-191 | the left column is centred on the Metal1 middle line iff `CntB_a == 0.16` ("sub"), and iff `pSD_a - nSDB_a == CntB_a - 0.16` ("nwell", where the frame comes from `minnSD`, lines 258-275, and `center_x` from `minpSD`, line 290) |
| GuardRing.CornerSquareTwice | code/gring_code.py:211-226 | with `CntB_a == 0.16`, the first square of the left column equals the first square of the bottom row, so that corner is created twice |
| GuardRing.ColumnsMirror | code/gring_code.py:187-213 | the left and right contact columns mirror each other about `l/2` exactly when `CntB_a == 0.16` |

## Left out

- The host layout API is not modelled: `Layer`, `Rect`, `Box` objects, `fgXor` and `destroy`, and the shapes' emission into a cell. Frames are kept as (outer, inner) box pairs, and the model does not compute the geometry of the boolean difference.
- The model does not capture the order in which the NWell box is emitted relative to the frames and contacts. It returns the three kinds of shape in separate lists.
- `defineParamSpecs` and `setupParams` are not modelled: parameter declaration, the technology lookup, and the `1e6` scaling of `w` and `l`. `GenLayout` takes the scaled `l`, `w`, the well choice, the rule values and the grid step `tech.getGridResolution()` (`self.grid`) as parameters.
- Binary floating point is not modelled. Every coordinate is an exact real, and `round` is applied to the exact value rather than to its nearest double.
- Values the generator computes but never uses are left out: `textlayer`, `Cell`, `metal_vertical_length`, the returned spacings `y_spacing_vert` and `x_spacing_horiz`, and the technology values `grid`, `Cnt_a`, `Cnt_b`, `CntB_a1` and `CntB_c`.
- `create_rectangle` is folded into `Squares.Square`, the box of a contact square.
- PointsOnLine.CalculatePointsOnLine: requires a nonzero effective pitch. The source raises ZeroDivisionError there, but its only callers pass the constants 0.18 and 0.16.
- Positions.AdjustToGrid: requires a nonzero grid step for a non-empty list. The source raises ZeroDivisionError there, and an empty list with step 0 gives the empty list, as in the model.
- Squares.CalculateAndCreateSquares: requires a nonzero grid step unless both lists are empty. The source raises ZeroDivisionError for a non-empty list, and its only caller substitutes 0.005 for 0.
- Positions.SnapIsNearest: the nearest-grid-line property is stated only for a positive grid step.
- Positions.SnapMonotone: stated only for a positive grid step.
- Positions.AdjustToGridKeepsOrder: stated only for a positive grid step.
- Positions.AdjustToGridNearest: the distance bound is stated only for a positive grid step.
