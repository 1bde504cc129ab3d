/**
 Screen geometry of the 240x240 ST7789 panel: points, sizes and rectangles in
 the embedded-graphics sense (a rectangle is its top-left corner plus a size,
 and covers the half-open ranges [x, x + width) x [y, y + height)).
 */
module Geometry {

  datatype Point = Point(x: int, y: int)

  datatype Size = Size(width: nat, height: nat)

  datatype Rect = Rect(topLeft: Point, size: Size)

  /** Panel dimensions handed to the display driver at construction. */
  const PanelWidth: nat := 240
  const PanelHeight: nat := 240

  /** True iff the pixel at `p` is covered by `r`. */
  predicate Contains(r: Rect, p: Point) {
    && r.topLeft.x <= p.x < r.topLeft.x + r.size.width
    && r.topLeft.y <= p.y < r.topLeft.y + r.size.height
  }

  /** True iff every pixel of `r` is a pixel of the panel. */
  predicate WithinPanel(r: Rect) {
    && 0 <= r.topLeft.x && r.topLeft.x + r.size.width <= PanelWidth
    && 0 <= r.topLeft.y && r.topLeft.y + r.size.height <= PanelHeight
  }

  /** True iff no pixel is covered by both rectangles. */
  predicate Disjoint(a: Rect, b: Rect) {
    || a.topLeft.x + a.size.width <= b.topLeft.x
    || b.topLeft.x + b.size.width <= a.topLeft.x
    || a.topLeft.y + a.size.height <= b.topLeft.y
    || b.topLeft.y + b.size.height <= a.topLeft.y
  }

  /** `Disjoint` means what it says: no point lies in both rectangles. */
  lemma DisjointHasNoCommonPoint(a: Rect, b: Rect, p: Point)
    requires Disjoint(a, b)
    ensures !(Contains(a, p) && Contains(b, p))
  {
  }
}
