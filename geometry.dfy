/**
 * Axis-aligned hitbox rectangles as JavaFX reports them through
 * `getBoundsInParent()`, and the `intersects` test the collision code uses.
 */
module Geometry {

  /** Bounds of a hitbox rectangle in its parent: the minimum corner and the size. */
  datatype Box = Box(x: real, y: real, width: real, height: real)
  {
    function MaxX(): real { x + width }
    function MaxY(): real { y + height }

    /** The same rectangle with its minimum corner moved to (nx, ny). */
    function MovedTo(nx: real, ny: real): (b: Box)
      ensures b.x == nx && b.y == ny
      ensures b.width == width && b.height == height
    {
      Box(nx, ny, width, height)
    }

    /** The same rectangle with a new size and the same corner. */
    function Resized(w: real, h: real): (b: Box)
      ensures b.x == x && b.y == y
      ensures b.width == w && b.height == h
    {
      Box(x, y, w, h)
    }
  }

  /**
   * `Bounds.intersects`: closed intervals overlap on both axes; a box with a
   * negative size never intersects anything.
   */
  predicate Intersects(a: Box, b: Box)
  {
    && 0.0 <= a.width && 0.0 <= a.height
    && 0.0 <= b.width && 0.0 <= b.height
    && b.x <= a.MaxX() && a.x <= b.MaxX()
    && b.y <= a.MaxY() && a.y <= b.MaxY()
  }

  /** Intersection does not depend on which box asks. */
  lemma IntersectsSymmetric(a: Box, b: Box)
    ensures Intersects(a, b) <==> Intersects(b, a)
  {
  }

  /**
   * A box intersects a second one exactly when some point lies in both:
   * the overlap test agrees with its set-of-points meaning (a box with a
   * negative size holds no point).
   */
  lemma IntersectsMeansCommonPoint(a: Box, b: Box)
    ensures Intersects(a, b) <==>
      exists px: real, py: real :: Contains(a, px, py) && Contains(b, px, py)
  {
    if Intersects(a, b) {
      var px := if a.x <= b.x then b.x else a.x;
      var py := if a.y <= b.y then b.y else a.y;
      assert Contains(a, px, py) && Contains(b, px, py);
    }
  }

  /** The point (px, py) lies in the closed rectangle b. */
  predicate Contains(b: Box, px: real, py: real)
  {
    b.x <= px <= b.MaxX() && b.y <= py <= b.MaxY()
  }
}
