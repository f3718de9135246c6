/**
  Axis-aligned bounding boxes and the overlap test that the game uses for
  every ball/paddle collision.
 */
module Geometry {

  /** A rectangle with its top-left corner at (x, y); y grows downwards. */
  datatype Box = Box(x: real, y: real, width: real, height: real)

  /**
    The four-inequality AABB test. Every comparison is strict, so boxes that
    only touch along an edge do not collide.
   */
  predicate Collides(a: Box, b: Box) {
    a.x < b.x + b.width &&
    a.x + a.width > b.x &&
    a.y < b.y + b.height &&
    a.y + a.height > b.y
  }

  /** The point (px, py) lies strictly inside box b. */
  ghost predicate Inside(b: Box, px: real, py: real) {
    b.x < px < b.x + b.width && b.y < py < b.y + b.height
  }

  /** The geometric notion of overlap: the open interiors of a and b meet. */
  ghost predicate InteriorsMeet(a: Box, b: Box) {
    exists px: real, py: real :: Inside(a, px, py) && Inside(b, px, py)
  }

  /** The box lies entirely left of, right of, above or below the other one. */
  predicate Separated(a: Box, b: Box) {
    a.x + a.width <= b.x || b.x + b.width <= a.x ||
    a.y + a.height <= b.y || b.y + b.height <= a.y
  }

  function Max(u: real, v: real): real { if u >= v then u else v }

  function Min(u: real, v: real): real { if u <= v then u else v }

  lemma CollidesSymmetric(a: Box, b: Box)
    ensures Collides(a, b) <==> Collides(b, a)
  {
  }

  /** Separation on either axis rules a collision out, edges touching included. */
  lemma SeparatedDoesNotCollide(a: Box, b: Box)
    ensures Separated(a, b) ==> !Collides(a, b)
    ensures Collides(a, b) ==> !Separated(a, b)
  {
  }

  /**
    For boxes of positive size the strict test agrees exactly with the
    geometric notion of overlap: some point lies inside both boxes.
   */
  lemma CollidesIffInteriorsMeet(a: Box, b: Box)
    requires a.width > 0.0 && a.height > 0.0 && b.width > 0.0 && b.height > 0.0
    ensures Collides(a, b) <==> InteriorsMeet(a, b)
  {
    if Collides(a, b) {
      var px := (Max(a.x, b.x) + Min(a.x + a.width, b.x + b.width)) / 2.0;
      var py := (Max(a.y, b.y) + Min(a.y + a.height, b.y + b.height)) / 2.0;
      assert Inside(a, px, py) && Inside(b, px, py);
    }
    if InteriorsMeet(a, b) {
      var px: real, py: real :| Inside(a, px, py) && Inside(b, px, py);
    }
  }
}
