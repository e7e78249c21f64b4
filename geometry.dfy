/** Pixel-space geometry of app.js: `toPx`, `mid`, `dist` and the head-top
    extrapolation inside `measureProportions`. */
module Geometry {
  import opened Landmarks

  datatype Point = Point(x: real, y: real)

  /** `toPx(p, w, h)`: a normalised landmark scaled to an image of w by h pixels. */
  function ToPx(p: Landmark, w: real, h: real): (r: Point)
    requires w > 0.0 && h > 0.0
    ensures 0.0 <= p.x <= 1.0 ==> 0.0 <= r.x <= w
    ensures 0.0 <= p.y <= 1.0 ==> 0.0 <= r.y <= h
    ensures r.x / w == p.x && r.y / h == p.y
  {
    Point(Scale(p.x, w), Scale(p.y, h))
  }

  /** A normalised coordinate t scaled to a positive size: divided by the size it
      gives t back, and a coordinate in [0, 1] lands between 0 and the size. */
  function Scale(t: real, size: real): (s: real)
    requires size > 0.0
    ensures s / size == t
    ensures 0.0 <= t <= 1.0 ==> 0.0 <= s && s <= size
  {
    ScaleWithin(t, size);
    t * size
  }

  lemma ScaleWithin(t: real, size: real)
    requires size > 0.0
    ensures (t * size) / size == t
    ensures 0.0 <= t <= 1.0 ==> 0.0 <= t * size && t * size <= size
  {
    var scaled := t * size;
    assert scaled / size == t;
    if 0.0 <= t <= 1.0 {
      var rest := (1.0 - t) * size;
      assert 0.0 <= scaled by { assert t * size >= 0.0 * size; }
      assert 0.0 <= rest;
      assert scaled + rest == size;
    }
  }

  /** `mid(a, b)`: the point halfway between a and b. */
  function Mid(a: Point, b: Point): (m: Point)
    ensures m.x - a.x == b.x - m.x && m.y - a.y == b.y - m.y
  {
    Point((a.x + b.x) / 2.0, (a.y + b.y) / 2.0)
  }

  /** The midpoint does not depend on the order of its arguments, and the midpoint
      of a point with itself is that point. */
  lemma MidSymmetric(a: Point, b: Point)
    ensures Mid(a, b) == Mid(b, a)
    ensures Mid(a, a) == a
  {
  }

  /** What `Math.hypot(dx, dy)` promises, over the reals: a length that is never
      negative and is zero exactly for the zero vector. Dafny has no square root,
      so the hypot function is a parameter constrained by this predicate. */
  ghost predicate IsHypot(hypot: (real, real) -> real)
  {
    forall dx: real, dy: real {:trigger hypot(dx, dy)} ::
      0.0 <= hypot(dx, dy) && (hypot(dx, dy) == 0.0 <==> dx == 0.0 && dy == 0.0)
  }

  /** `dist(a, b)`: the length of the vector from b to a. It is non-negative and
      zero exactly on equal points. */
  function Dist(a: Point, b: Point, hypot: (real, real) -> real): (d: real)
    requires IsHypot(hypot)
    ensures 0.0 <= d
    ensures d == 0.0 <==> a == b
  {
    hypot(a.x - b.x, a.y - b.y)
  }

  /** The top of the head, extrapolated from the shoulder midpoint through the ear
      midpoint: the shoulder-to-ear vector is lengthened by a quarter horizontally
      and by 90 percent vertically. */
  function HeadTop(ear: Point, shoulder: Point): (t: Point)
    ensures t.x - shoulder.x == 1.25 * (ear.x - shoulder.x)
    ensures t.y - shoulder.y == 1.9 * (ear.y - shoulder.y)
    ensures t == shoulder <==> ear == shoulder
  {
    Point(ear.x + (ear.x - shoulder.x) * 0.25, ear.y + (ear.y - shoulder.y) * 0.90)
  }
}
