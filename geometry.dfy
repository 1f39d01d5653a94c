/**
 * Value types shared by the whole model: optional values, points and
 * rectangles in the CoreGraphics sense (origin plus size, all real-valued).
 */
module Geometry {

  datatype Option<+T> = None | Some(value: T)

  /** A CGPoint. */
  datatype Point = Point(x: real, y: real)

  /** A CGRect: origin (x, y) and size (width, height). */
  datatype Rect = Rect(x: real, y: real, width: real, height: real) {
    function Origin(): Point { Point(x, y) }

    /** CGRect.width and height are those of the standardized rectangle. */
    function Width(): (r: real)
      ensures r >= 0.0 && (r == width || r == -width)
    {
      if width >= 0.0 then width else -width
    }

    function Height(): (r: real)
      ensures r >= 0.0 && (r == height || r == -height)
    {
      if height >= 0.0 then height else -height
    }

    /** CGRect.minX / maxX / minY / maxY work on the standardized rectangle. */
    function MinX(): (r: real)
      ensures r <= x && r <= x + width && (r == x || r == x + width)
    {
      if width >= 0.0 then x else x + width
    }

    function MaxX(): (r: real)
      ensures x <= r && x + width <= r && (r == x || r == x + width)
    {
      if width >= 0.0 then x + width else x
    }

    function MinY(): (r: real)
      ensures r <= y && r <= y + height && (r == y || r == y + height)
    {
      if height >= 0.0 then y else y + height
    }

    function MaxY(): (r: real)
      ensures y <= r && y + height <= r && (r == y || r == y + height)
    {
      if height >= 0.0 then y + height else y
    }
  }

  /**
   * The overlap test behind CGRect.intersects, taken here as "the two
   * standardized rectangles share a region of positive area".  Rectangles
   * that only touch along an edge, and empty rectangles, do not intersect.
   */
  function Intersects(a: Rect, b: Rect): (r: bool)
    ensures r <==>
              a.Width() > 0.0 && a.Height() > 0.0 && b.Width() > 0.0 && b.Height() > 0.0 &&
              a.MinX() < b.MaxX() && b.MinX() < a.MaxX() && a.MinY() < b.MaxY() && b.MinY() < a.MaxY()
    ensures a.MinX() < a.MaxX() && a.MinY() < a.MaxY() && a == b ==> r
  {
    Max(a.MinX(), b.MinX()) < Min(a.MaxX(), b.MaxX()) &&
    Max(a.MinY(), b.MinY()) < Min(a.MaxY(), b.MaxY())
  }

  function Max(a: real, b: real): real { if a >= b then a else b }

  function Min(a: real, b: real): real { if a <= b then a else b }

  function Pow2(n: nat): (r: nat)
    ensures r >= 1
  {
    if n == 0 then 1 else 2 * Pow2(n - 1)
  }

  /** CGFloat.leastNormalMagnitude of a 64-bit CGFloat, 2^-1022. */
  const LeastNormalMagnitude: real := 1.0 / (Pow2(1022) as real)

  lemma LeastNormalMagnitudePositive()
    ensures 0.0 < LeastNormalMagnitude <= 1.0
  {
  }
}
