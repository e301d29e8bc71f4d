/**
 * The rectangle and point helpers of `math_utils.ts`. Plain records are datatypes; the
 * records the helpers write into are classes whose fields the methods assign.
 */
module MathUtils {
  import opened Numeric
  import opened Wrappers

  datatype Point = Point(x: real, y: real)

  datatype Rect = Rect(x: real, y: real, width: real, height: real)

  /** `is_rect_colliding`: the two rectangles are not separated along either axis. */
  predicate IsRectColliding(t1: Rect, t2: Rect) {
    !(t2.x > t1.x + t1.width
      || t2.x + t2.width < t1.x
      || t2.y > t1.y + t1.height
      || t2.y + t2.height < t1.y)
  }

  /** Closed intervals `[a, a + w]` and `[b, b + v]` share a point. */
  predicate IntervalsMeet(a: real, w: real, b: real, v: real) {
    b <= a + w && a <= b + v
  }

  /** Collision is overlap of the closed x and y extents, so it is symmetric. */
  lemma CollidingIffOverlap(t1: Rect, t2: Rect)
    ensures IsRectColliding(t1, t2) <==>
      IntervalsMeet(t1.x, t1.width, t2.x, t2.width) && IntervalsMeet(t1.y, t1.height, t2.y, t2.height)
    ensures IsRectColliding(t1, t2) == IsRectColliding(t2, t1)
  {
  }

  /** Rectangles that only share an edge collide: the comparisons are strict. */
  lemma TouchingRectsCollide(t1: Rect, t2: Rect)
    requires t1.width >= 0.0 && t2.width >= 0.0 && t1.height >= 0.0 && t2.height >= 0.0
    requires t2.x == t1.x + t1.width
    requires t2.y == t1.y
    ensures IsRectColliding(t1, t2)
  {
  }

  /** A rectangle with non-negative size collides with itself; one with a negative size does not. */
  lemma SelfCollision(r: Rect)
    ensures IsRectColliding(r, r) <==> r.width >= 0.0 && r.height >= 0.0
  {
  }

  /** `distance_square`: never negative. */
  function DistanceSquare(p1: Point, p2: Point): (d: real)
    ensures d >= 0.0
  {
    var dx := p1.x - p2.x;
    var dy := p1.y - p2.y;
    dx * dx + dy * dy
  }

  /** The squared distance is symmetric and zero from a point to itself. */
  lemma DistanceSquareSymmetric(p1: Point, p2: Point)
    ensures DistanceSquare(p1, p2) == DistanceSquare(p2, p1)
    ensures DistanceSquare(p1, p1) == 0.0
  {
  }

  /** `a ?? b` on an optional field. */
  function Coalesce(a: Option<real>, b: Option<real>): (r: Option<real>)
    ensures a.Some? ==> r == a
    ensures a.None? ==> r == b
  {
    if a.Some? then a else b
  }

  /** A `Partial<Rectangle>` source record. */
  datatype PartialRect = PartialRect(x: Option<real>, y: Option<real>, width: Option<real>, height: Option<real>)

  /** A `Partial<Point>` source record. */
  datatype PartialPoint = PartialPoint(x: Option<real>, y: Option<real>)

  /** A mutable `Partial<Rectangle>` destination. */
  class RectRecord {
    var x: Option<real>
    var y: Option<real>
    var width: Option<real>
    var height: Option<real>

    constructor (x: Option<real>, y: Option<real>, width: Option<real>, height: Option<real>)
      ensures this.x == x && this.y == y && this.width == width && this.height == height
    {
      this.x := x;
      this.y := y;
      this.width := width;
      this.height := height;
    }

    function Fields(): PartialRect
      reads this
    {
      PartialRect(x, y, width, height)
    }
  }

  /** A mutable `Partial<Point>` destination. */
  class PointRecord {
    var x: Option<real>
    var y: Option<real>

    constructor (x: Option<real>, y: Option<real>)
      ensures this.x == x && this.y == y
    {
      this.x := x;
      this.y := y;
    }

    function Fields(): PartialPoint
      reads this
    {
      PartialPoint(x, y)
    }
  }

  /** The record `copy_rect` leaves behind: every field `src` defines, `dest`'s value elsewhere. */
  function OverlayRect(dest: PartialRect, src: PartialRect): (r: PartialRect)
    ensures src == PartialRect(None, None, None, None) ==> r == dest
  {
    PartialRect(Coalesce(src.x, dest.x), Coalesce(src.y, dest.y),
                Coalesce(src.width, dest.width), Coalesce(src.height, dest.height))
  }

  function OverlayPoint(dest: PartialPoint, src: PartialPoint): (r: PartialPoint)
    ensures src == PartialPoint(None, None) ==> r == dest
  {
    PartialPoint(Coalesce(src.x, dest.x), Coalesce(src.y, dest.y))
  }

  /** Copying the same source twice is copying it once, and a fully defined source is copied whole. */
  lemma OverlayRectLaws(dest: PartialRect, src: PartialRect)
    ensures OverlayRect(OverlayRect(dest, src), src) == OverlayRect(dest, src)
    ensures src.x.Some? && src.y.Some? && src.width.Some? && src.height.Some? ==> OverlayRect(dest, src) == src
  {
  }

  /** `copy_rect(dest, src)`. */
  method CopyRect(dest: RectRecord, src: PartialRect)
    modifies dest
    ensures dest.Fields() == OverlayRect(old(dest.Fields()), src)
  {
    dest.x := Coalesce(src.x, dest.x);
    dest.y := Coalesce(src.y, dest.y);
    dest.width := Coalesce(src.width, dest.width);
    dest.height := Coalesce(src.height, dest.height);
  }

  /** `copy_point(dest, src)`. */
  method CopyPoint(dest: PointRecord, src: PartialPoint)
    modifies dest
    ensures dest.Fields() == OverlayPoint(old(dest.Fields()), src)
  {
    dest.x := Coalesce(src.x, dest.x);
    dest.y := Coalesce(src.y, dest.y);
  }

  /** A mutable point. */
  class MutablePoint {
    var x: real
    var y: real

    constructor (x: real, y: real)
      ensures this.x == x && this.y == y
    {
      this.x := x;
      this.y := y;
    }
  }

  /** `rotate_point(src, angle)`: a zero angle leaves the point alone; otherwise it turns about the origin. */
  method RotatePoint(src: MutablePoint, angle: real, fns: MathFns)
    modifies src
    ensures angle == 0.0 ==> src.x == old(src.x) && src.y == old(src.y)
    ensures angle != 0.0 ==>
      src.x == old(src.x) * fns.cos(angle) - old(src.y) * fns.sin(angle) &&
      src.y == old(src.x) * fns.sin(angle) + old(src.y) * fns.cos(angle)
  {
    if angle == 0.0 {
      return;
    }
    var s := fns.sin(angle);
    var c := fns.cos(angle);
    var xnew := src.x * c - src.y * s;
    var ynew := src.x * s + src.y * c;
    src.x := xnew;
    src.y := ynew;
  }

  /** `vec_from_angle(radians, radius)`: the point at `radius` along the angle. */
  function VecFromAngle(radians: real, radius: real, fns: MathFns): Point {
    Point(fns.cos(radians) * radius, fns.sin(radians) * radius)
  }

  /** With `cos^2 + sin^2 = 1`, the unit vector of an angle is at distance 1 from the origin. */
  lemma UnitVecFromAngle(radians: real, fns: MathFns)
    requires PythagoreanLaw(fns)
    ensures DistanceSquare(Point(0.0, 0.0), VecFromAngle(radians, 1.0, fns)) == 1.0
  {
    var c := fns.cos(radians);
    var s := fns.sin(radians);
    assert c * c + s * s == 1.0;
  }
}
