/** Screen geometry: the window and pygame's integer rectangles. */
module Geometry {
  const WindowWidth: int := 800
  const WindowHeight: int := 600

  /** An axis-aligned rectangle given by its left edge, top edge, width and height. */
  datatype Rect = Rect(x: int, y: int, w: int, h: int) {
    /** pygame's `collidepoint`: the left and top edges belong to the rectangle,
        the right and bottom edges do not. */
    predicate Contains(px: int, py: int) {
      x <= px < x + w && y <= py < y + h
    }

    /** The rectangle lies wholly inside the window. */
    predicate InWindow() {
      0 <= x && x + w <= WindowWidth && 0 <= y && y + h <= WindowHeight
    }
  }

  /** No point lies in both rectangles. */
  ghost predicate Disjoint(a: Rect, b: Rect) {
    forall px, py :: !(a.Contains(px, py) && b.Contains(px, py))
  }
}
