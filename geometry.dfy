/** Core Graphics value types as the face-tracking screen uses them: sizes,
    points and rectangles, with coordinates as exact reals. */
module Geometry {

  /** A CGSize. */
  datatype Size = Size(width: real, height: real)

  /** A CGPoint. */
  datatype Point = Point(x: real, y: real)

  /** A CGRect: an origin and a size, both stored as given (possibly negative). */
  datatype Rect = Rect(origin: Point, size: Size)

  /** CGSize.zero, CGPoint.zero */
  const ZeroSize := Size(0.0, 0.0)
  const ZeroPoint := Point(0.0, 0.0)

  function Abs(x: real): real {
    if x < 0.0 then -x else x
  }

  function Max(a: real, b: real): real {
    if a < b then b else a
  }

  /** Neither side of the size is negative. */
  predicate IsNonNegative(s: Size) {
    0.0 <= s.width && 0.0 <= s.height
  }

  /** The `width` getter of CGRect: the width of the standardised rectangle. */
  function Width(r: Rect): real {
    Abs(r.size.width)
  }

  /** The `height` getter of CGRect: the height of the standardised rectangle. */
  function Height(r: Rect): real {
    Abs(r.size.height)
  }

  /** CGRect.standardized: the same area, with its origin moved to the
      minimum corner and a non-negative size. */
  function Standardized(r: Rect): Rect {
    Rect(Point(if r.size.width < 0.0 then r.origin.x + r.size.width else r.origin.x,
               if r.size.height < 0.0 then r.origin.y + r.size.height else r.origin.y),
         Size(Width(r), Height(r)))
  }

  /** CGRect.offsetBy(dx:dy:): the standardised rectangle moved by (dx, dy). */
  function OffsetBy(r: Rect, dx: real, dy: real): Rect {
    var s := Standardized(r);
    Rect(Point(s.origin.x + dx, s.origin.y + dy), s.size)
  }

  /** The size with both sides multiplied by k. */
  function ScaleSize(s: Size, k: real): Size {
    Size(s.width * k, s.height * k)
  }

  /** The rectangle with every coordinate multiplied by k: the same
      rectangle measured in units k times smaller. */
  function ScaleRect(r: Rect, k: real): Rect {
    Rect(Point(r.origin.x * k, r.origin.y * k), ScaleSize(r.size, k))
  }
}
