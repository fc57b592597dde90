/**
 * Integer rectangles as pygame builds them for the player and the obstacles,
 * Python's `int()` of a float, and `Rect.colliderect`.
 */
module Geometry {

  /** A rectangle: top-left corner, width and height, in whole pixels. */
  datatype Rect = Rect(x: int, y: int, w: int, h: int)

  /** Python's `int(v)` on a float: truncation toward zero. */
  function Trunc(v: real): (n: int)
    ensures v >= 0.0 ==> n as real <= v < n as real + 1.0
    ensures v < 0.0 ==> n as real - 1.0 < v <= n as real
  {
    if v >= 0.0 then v.Floor else -((-v).Floor)
  }

  /** Whole pixel `(px, py)` lies inside `a`. */
  predicate Covers(a: Rect, px: int, py: int) {
    a.x <= px < a.x + a.w && a.y <= py < a.y + a.h
  }

  /**
   * `a.colliderect(b)`: rectangles with no area never collide; otherwise the
   * open interiors must overlap on both axes (shared edges do not count).
   */
  predicate Collide(a: Rect, b: Rect) {
    a.w > 0 && a.h > 0 && b.w > 0 && b.h > 0 &&
    a.x < b.x + b.w && b.x < a.x + a.w &&
    a.y < b.y + b.h && b.y < a.y + a.h
  }

  /** Two rectangles collide exactly when some pixel lies in both. */
  lemma CollideIffSharedPixel(a: Rect, b: Rect)
    ensures Collide(a, b) <==> exists px, py :: Covers(a, px, py) && Covers(b, px, py)
  {
    if Collide(a, b) {
      var px := if a.x < b.x then b.x else a.x;
      var py := if a.y < b.y then b.y else a.y;
      assert Covers(a, px, py) && Covers(b, px, py);
    }
  }

  /** Collision does not depend on which rectangle is asked. */
  lemma CollideSymmetric(a: Rect, b: Rect)
    ensures Collide(a, b) == Collide(b, a)
  {
  }
}
