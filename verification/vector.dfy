/**
 * `Vector` of `vector.ts`: a 2D vector whose methods overwrite `x` and `y` in place. Each
 * method is specified by a function on the vector's value (a `Point`); the algebraic laws
 * the library relies on are lemmas about those functions.
 */
module Vectors {
  import opened Numeric
  import opened MathUtils
  import opened Wrappers

  function PerpOf(v: Point): Point { Point(v.y, -v.x) }

  function ReverseOf(v: Point): Point { Point(-v.x, -v.y) }

  function Plus(v: Point, w: Point): Point { Point(v.x + w.x, v.y + w.y) }

  function Minus(v: Point, w: Point): Point { Point(v.x - w.x, v.y - w.y) }

  function ScaleOf(v: Point, kx: real, ky: real): Point { Point(v.x * kx, v.y * ky) }

  function DotOf(v: Point, w: Point): real { v.x * w.x + v.y * w.y }

  /** `v` projected onto the line of `axis`; `axis` must not be the zero vector. */
  function ProjectOf(v: Point, axis: Point): Point
    requires DotOf(axis, axis) != 0.0
  {
    var amt := DotOf(v, axis) / DotOf(axis, axis);
    Point(amt * axis.x, amt * axis.y)
  }

  /** `v` projected onto `axis`, taking `axis` to be of unit length. */
  function ProjectNOf(v: Point, axis: Point): Point {
    var amt := DotOf(v, axis);
    Point(amt * axis.x, amt * axis.y)
  }

  /** Twice the projection minus the original: the mirror image across the axis line. */
  function ReflectNOf(v: Point, axis: Point): Point {
    Minus(ScaleOf(ProjectNOf(v, axis), 2.0, 2.0), v)
  }

  function ReflectOf(v: Point, axis: Point): Point
    requires DotOf(axis, axis) != 0.0
  {
    Minus(ScaleOf(ProjectOf(v, axis), 2.0, 2.0), v)
  }

  /** Four quarter turns are the identity; a reversal undoes itself. */
  lemma PerpReverseCycles(v: Point)
    ensures PerpOf(PerpOf(PerpOf(PerpOf(v)))) == v
    ensures PerpOf(PerpOf(v)) == ReverseOf(v)
    ensures ReverseOf(ReverseOf(v)) == v
  {
  }

  /** Subtracting what was added restores the vector (exact real arithmetic). */
  lemma AddThenSub(v: Point, w: Point)
    ensures Minus(Plus(v, w), w) == v
    ensures Plus(Minus(v, w), w) == v
  {
  }

  /** The dot product is symmetric, and a vector's squared length is never negative. */
  lemma DotLaws(v: Point, w: Point)
    ensures DotOf(v, w) == DotOf(w, v)
    ensures DotOf(v, v) >= 0.0
  {
  }

  /** The perpendicular is orthogonal to the original and has the same squared length. */
  lemma PerpOrthogonal(v: Point)
    ensures DotOf(v, PerpOf(v)) == 0.0
    ensures DotOf(PerpOf(v), PerpOf(v)) == DotOf(v, v)
  {
  }

  /** Projection onto a unit axis is linear in the projected vector. */
  lemma ProjectNLinear(v: Point, w: Point, k: real, axis: Point)
    ensures ProjectNOf(Minus(ScaleOf(v, k, k), w), axis)
         == Minus(ScaleOf(ProjectNOf(v, axis), k, k), ProjectNOf(w, axis))
  {
    var a := DotOf(Minus(ScaleOf(v, k, k), w), axis);
    assert a == k * DotOf(v, axis) - DotOf(w, axis);
    assert a * axis.x == k * DotOf(v, axis) * axis.x - DotOf(w, axis) * axis.x;
    assert a * axis.y == k * DotOf(v, axis) * axis.y - DotOf(w, axis) * axis.y;
  }

  /** For a unit axis, projecting twice is projecting once. */
  lemma ProjectNIdempotent(v: Point, axis: Point)
    requires DotOf(axis, axis) == 1.0
    ensures ProjectNOf(ProjectNOf(v, axis), axis) == ProjectNOf(v, axis)
  {
    var d := DotOf(v, axis);
    var p := ProjectNOf(v, axis);
    calc {
      DotOf(p, axis);
      d * axis.x * axis.x + d * axis.y * axis.y;
      d * (axis.x * axis.x + axis.y * axis.y);
      d * 1.0;
    }
  }

  /** For a unit axis, reflecting twice gives back the original vector. */
  lemma {:induction false} ReflectNInvolution(v: Point, axis: Point)
    requires DotOf(axis, axis) == 1.0
    ensures ReflectNOf(ReflectNOf(v, axis), axis) == v
  {
    var p := ProjectNOf(v, axis);
    var r := ReflectNOf(v, axis);
    ProjectNLinear(p, v, 2.0, axis);
    ProjectNIdempotent(v, axis);
    assert ProjectNOf(r, axis) == p;
  }

  class Vector {
    var x: real
    var y: real

    /** `new Vector(x, y)`; `Vector.from_point` builds the same vector from a point. */
    constructor (x: real, y: real)
      ensures this.x == x && this.y == y
    {
      this.x := x;
      this.y := y;
    }

    function Value(): Point
      reads this
    {
      Point(x, y)
    }

    method Copy(other: Vector)
      modifies this
      ensures Value() == old(other.Value())
    {
      x := other.x;
      y := other.y;
    }

    method Clone() returns (c: Vector)
      ensures fresh(c) && c.Value() == Value()
    {
      c := new Vector(x, y);
    }

    method Perp()
      modifies this
      ensures Value() == PerpOf(old(Value()))
    {
      var ox := x;
      x := y;
      y := -ox;
    }

    method Reverse()
      modifies this
      ensures Value() == ReverseOf(old(Value()))
    {
      x := -x;
      y := -y;
    }

    /** `normalize`: divides by the length when it is positive. */
    method Normalize(fns: MathFns)
      modifies this
      ensures var d := fns.sqrt(DotOf(old(Value()), old(Value())));
        Value() == if d > 0.0 then Point(old(x) / d, old(y) / d) else old(Value())
      ensures old(Value()) == Point(0.0, 0.0) ==> Value() == old(Value())
    {
      var d := fns.sqrt(Len2());
      if d > 0.0 {
        ZeroQuotient(d);
        x := x / d;
        y := y / d;
      }
    }

    method Add(other: Vector)
      modifies this
      ensures Value() == Plus(old(Value()), old(other.Value()))
    {
      x := x + other.x;
      y := y + other.y;
    }

    method Sub(other: Vector)
      modifies this
      ensures Value() == Minus(old(Value()), old(other.Value()))
    {
      x := x - other.x;
      y := y - other.y;
    }

    /** `scale(kx, ky?)`: the y factor defaults to the x factor. */
    method Scale(kx: real, ky: Option<real>)
      modifies this
      ensures Value() == ScaleOf(old(Value()), kx, if ky.Some? then ky.value else kx)
    {
      x := x * kx;
      y := y * (if ky.Some? then ky.value else kx);
    }

    method Project(other: Vector)
      requires other.Len2() != 0.0
      modifies this
      ensures Value() == ProjectOf(old(Value()), old(other.Value()))
    {
      var amt := Dot(other) / other.Len2();
      x := amt * other.x;
      y := amt * other.y;
    }

    method ProjectN(other: Vector)
      modifies this
      ensures Value() == ProjectNOf(old(Value()), old(other.Value()))
    {
      var amt := Dot(other);
      x := amt * other.x;
      y := amt * other.y;
    }

    method Reflect(axis: Vector)
      requires axis.Len2() != 0.0
      modifies this
      ensures Value() == ReflectOf(old(Value()), old(axis.Value()))
    {
      var ox, oy := x, y;
      Project(axis);
      Scale(2.0, None);
      x := x - ox;
      y := y - oy;
    }

    method ReflectN(axis: Vector)
      modifies this
      ensures Value() == ReflectNOf(old(Value()), old(axis.Value()))
    {
      var ox, oy := x, y;
      ProjectN(axis);
      Scale(2.0, None);
      x := x - ox;
      y := y - oy;
    }

    /** `dot`: written with the arguments swapped, the result is the same. */
    function Dot(other: Vector): (d: real)
      reads this, other
      ensures d == DotOf(other.Value(), Value())
    {
      x * other.x + y * other.y
    }

    /** `len2`: the squared length, never negative and zero for the zero vector. */
    function Len2(): (l: real)
      reads this
      ensures l >= 0.0
      ensures x == 0.0 && y == 0.0 ==> l == 0.0
    {
      Dot(this)
    }
  }

  lemma ZeroQuotient(d: real)
    requires d > 0.0
    ensures 0.0 / d == 0.0
  {
  }
}
