// Axis-aligned boxes on the 800 x 600 playfield, and the overlap test the
// game uses for hovering, collisions and clamping.
//
// The edges and the overlap test belong to shapes/shape.h and shapes/rect.h,
// which are not part of this model. Their definitions here are an
// assumption: edges are centre plus or minus half the size, and two boxes
// overlap when their projections intersect strictly on both axes.
module Geometry {

  /** Window size in pixels (fixed, the window is not resizable). */
  const Width: int := 800
  const Height: int := 600

  /** The fills the game gives its rectangles. */
  datatype Color = BrickRed | Gray | White | OriginalFill | HoverFill | PressFill

  /** A rectangle: centre (x, y), size (w, h) and fill. */
  datatype Box = Box(x: real, y: real, w: real, h: real, fill: Color)

  function Left(b: Box): real { b.x - b.w / 2.0 }
  function Right(b: Box): real { b.x + b.w / 2.0 }
  function Bottom(b: Box): real { b.y - b.h / 2.0 }
  function Top(b: Box): real { b.y + b.h / 2.0 }

  /** Strict AABB overlap: touching edges do not overlap. */
  predicate Overlaps(a: Box, b: Box)
  {
    Left(a) < Right(b) && Right(a) > Left(b) && Bottom(a) < Top(b) && Top(a) > Bottom(b)
  }

  lemma OverlapsSymmetric(a: Box, b: Box)
    ensures Overlaps(a, b) <==> Overlaps(b, a)
  {
  }

  /** Two boxes of positive size with the same centre always overlap. */
  lemma SameCentreOverlaps(a: Box, b: Box)
    requires a.x == b.x && a.y == b.y
    requires a.w > 0.0 && a.h > 0.0 && b.w > 0.0 && b.h > 0.0
    ensures Overlaps(a, b)
  {
  }

  /** Boxes whose centres are at least the sum of their half-sizes apart on
      either axis never overlap. */
  lemma SeparatedDoNotOverlap(a: Box, b: Box)
    requires a.x - b.x >= (a.w + b.w) / 2.0 || b.x - a.x >= (a.w + b.w) / 2.0
          || a.y - b.y >= (a.h + b.h) / 2.0 || b.y - a.y >= (a.h + b.h) / 2.0
    ensures !Overlaps(a, b)
  {
  }

  /** The fill takes no part in the overlap test. */
  lemma OverlapsIgnoresFill(a: Box, b: Box, c: Color)
    ensures Overlaps(a.(fill := c), b) <==> Overlaps(a, b)
    ensures Overlaps(a, b.(fill := c)) <==> Overlaps(a, b)
  {
  }
}
