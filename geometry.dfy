/** Scene geometry of the map editor: points, rectangles, rectangle items and
    the exact axis-aligned tests the scene uses on them. Coordinates are
    `real`: the editor only subtracts, takes absolute values and compares. */
module Geometry {

  datatype Point = Point(x: real, y: real)

  /** An axis-aligned rectangle: top-left corner and size. */
  datatype Rect = Rect(x: real, y: real, w: real, h: real)

  /** A rectangle item of the scene. Its rectangle geometry (`setRect`) and
      its item position (`setPos`) are kept apart, as for a Qt rectangle
      item: where it is drawn is the rectangle translated by the position. */
  datatype Shape = Shape(rect: Rect, pos: Point)

  /** The size a rectangle gets when it is first created by a press. */
  const DefaultRectSize: real := 10.0

  function Sub(p: Point, q: Point): (r: Point)
    ensures r.x + q.x == p.x && r.y + q.y == p.y
  {
    Point(p.x - q.x, p.y - q.y)
  }

  function Abs(v: real): (r: real)
    ensures r >= 0.0 && (r == v || r == -v)
  {
    if v < 0.0 then -v else v
  }

  predicate NonNegativeSize(r: Rect)
  {
    r.w >= 0.0 && r.h >= 0.0
  }

  /** Closed containment of a point in a rectangle (edges included). */
  predicate Contains(r: Rect, p: Point)
  {
    r.x <= p.x <= r.x + r.w && r.y <= p.y <= r.y + r.h
  }

  /** Open containment: the point lies strictly inside the rectangle. */
  predicate StrictlyInside(r: Rect, p: Point)
  {
    r.x < p.x < r.x + r.w && r.y < p.y < r.y + r.h
  }

  /** The rectangle an item occupies in scene coordinates. */
  function Bounds(s: Shape): Rect
  {
    Rect(s.rect.x + s.pos.x, s.rect.y + s.pos.y, s.rect.w, s.rect.h)
  }

  /** A scene point lies in an item's bounds exactly when the same point,
      taken in item coordinates, lies in the item's rectangle. */
  lemma BoundsContains(s: Shape, q: Point)
    ensures Bounds(s).w == s.rect.w && Bounds(s).h == s.rect.h
    ensures Contains(Bounds(s), q) <==> Contains(s.rect, Sub(q, s.pos))
  {
  }

  /** The rectangle a creation drag from `anchor` to `p` gives the item
      (the arithmetic of main.py:58-69): the box spanning both points. */
  function NormalizedRect(anchor: Point, p: Point): (r: Rect)
    ensures NonNegativeSize(r)
    // the origin is the smaller coordinate on each axis ...
    ensures r.x <= anchor.x && r.x <= p.x && (r.x == anchor.x || r.x == p.x)
    ensures r.y <= anchor.y && r.y <= p.y && (r.y == anchor.y || r.y == p.y)
    // ... and the far corner the larger one
    ensures r.x + r.w >= anchor.x && r.x + r.w >= p.x && (r.x + r.w == anchor.x || r.x + r.w == p.x)
    ensures r.y + r.h >= anchor.y && r.y + r.h >= p.y && (r.y + r.h == anchor.y || r.y + r.h == p.y)
    ensures Contains(r, anchor) && Contains(r, p)
  {
    var width := Abs(anchor.x - p.x);
    var height := Abs(anchor.y - p.y);
    var startX := if anchor.x < p.x then anchor.x else p.x;
    var startY := if anchor.y < p.y then anchor.y else p.y;
    Rect(startX, startY, width, height)
  }

  /** Two open intervals (lo1, hi1) and (lo2, hi2) share a stretch of positive length. */
  predicate IntervalsOverlap(lo1: real, hi1: real, lo2: real, hi2: real)
  {
    lo1 < hi1 && lo2 < hi2 && lo1 < hi2 && lo2 < hi1
  }

  /** Two rectangles overlap when their intersection has positive area;
      rectangles that only touch along an edge or a corner do not overlap,
      and a rectangle of zero width or height overlaps nothing. */
  predicate Overlaps(a: Rect, b: Rect)
  {
    IntervalsOverlap(a.x, a.x + a.w, b.x, b.x + b.w) &&
    IntervalsOverlap(a.y, a.y + a.h, b.y, b.y + b.h)
  }

  /** Overlap is exactly "some point lies strictly inside both rectangles". */
  lemma OverlapsHasCommonInterior(a: Rect, b: Rect)
    ensures Overlaps(a, b) <==> exists q :: StrictlyInside(a, q) && StrictlyInside(b, q)
  {
    if Overlaps(a, b) {
      var lox := if a.x < b.x then b.x else a.x;
      var hix := if a.x + a.w < b.x + b.w then a.x + a.w else b.x + b.w;
      var loy := if a.y < b.y then b.y else a.y;
      var hiy := if a.y + a.h < b.y + b.h then a.y + a.h else b.y + b.h;
      var q := Point((lox + hix) / 2.0, (loy + hiy) / 2.0);
      assert StrictlyInside(a, q) && StrictlyInside(b, q);
    }
  }

  lemma OverlapsSymmetric(a: Rect, b: Rect)
    ensures Overlaps(a, b) <==> Overlaps(b, a)
  {
  }

  /** Rectangles that meet only along a vertical or horizontal edge do not overlap. */
  lemma EdgeTouchingDoesNotOverlap(a: Rect, b: Rect)
    requires a.x + a.w == b.x || b.x + b.w == a.x || a.y + a.h == b.y || b.y + b.h == a.y
    ensures !Overlaps(a, b)
  {
  }
}
