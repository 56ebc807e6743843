/** Axis-aligned boxes and mask layers, the values the layout generator
    produces in place of the host's `Box` and `Rect` objects. */
module Geometry {

  /** The mask layers the guard ring draws on. */
  datatype Layer = NWell | PSD | Activ | Metal1 | Cont

  /** `Box(x1, y1, x2, y2)`: lower-left and upper-right corners. */
  datatype Box = Box(x1: real, y1: real, x2: real, y2: real)

  /** A box with positive width and height. */
  predicate NonEmpty(b: Box)
  {
    b.x1 < b.x2 && b.y1 < b.y2
  }

  /** `inner` lies inside `outer` with a positive margin on all four sides. */
  predicate StrictlyInside(inner: Box, outer: Box)
  {
    outer.x1 < inner.x1 && outer.y1 < inner.y1 && inner.x2 < outer.x2 && inner.y2 < outer.y2
  }

  /** The box mirrored in the diagonal: x and y exchanged. */
  function Transpose(b: Box): Box
  {
    Box(b.y1, b.x1, b.y2, b.x2)
  }

  /** Both coordinates of the box centre, doubled (to stay clear of division). */
  function DoubledCentre(b: Box): (real, real)
  {
    (b.x1 + b.x2, b.y1 + b.y2)
  }
}
