/**
  Vector arithmetic used by the procedural generator (the helpers `length`,
  `normalize` and `cross` of ProceduralGenerator.swift, and the vector sums the
  generators write out component by component).

  Components are exact reals rather than `Float`. The floating-point library
  (`sin`, `cos`, `sqrt`) is not interpreted: the generators receive it as a
  `FloatMath` value and nothing is assumed about what it returns.
 */
module Geometry {
  import opened RealArith

  /** A position, direction or offset (SceneKit's SCNVector3). */
  datatype Vec3 = Vec3(x: real, y: real, z: real)

  const Zero := Vec3(0.0, 0.0, 0.0)
  const UnitX := Vec3(1.0, 0.0, 0.0)
  const UnitY := Vec3(0.0, 1.0, 0.0)

  /** Swift's `Float.pi`: pi rounded toward zero to single precision (0x1.921fb4p1). */
  const FloatPi: real := 3.1415925025939941

  /** The elementary functions the generator calls; their values are left open. */
  datatype FloatMath = FloatMath(sin: real -> real, cos: real -> real, sqrt: real -> real)

  function Add(a: Vec3, b: Vec3): Vec3 {
    Vec3(a.x + b.x, a.y + b.y, a.z + b.z)
  }

  function Sub(a: Vec3, b: Vec3): Vec3 {
    Vec3(a.x - b.x, a.y - b.y, a.z - b.z)
  }

  function Scale(v: Vec3, k: real): Vec3 {
    Vec3(v.x * k, v.y * k, v.z * k)
  }

  function Dot(a: Vec3, b: Vec3): real {
    a.x * b.x + a.y * b.y + a.z * b.z
  }

  function LengthSquared(v: Vec3): (r: real)
    ensures r >= 0.0
  {
    SquareSign(v.x);
    SquareSign(v.y);
    SquareSign(v.z);
    Dot(v, v)
  }

  /** `length(from:to:)`: the library square root of the squared distance. */
  function Length(fm: FloatMath, a: Vec3, b: Vec3): real {
    fm.sqrt(LengthSquared(Sub(b, a)))
  }

  /** `cross(a, b)`: the result is orthogonal to both arguments. */
  function Cross(a: Vec3, b: Vec3): (r: Vec3)
    ensures Dot(r, a) == 0.0 && Dot(r, b) == 0.0
  {
    Vec3(a.y * b.z - a.z * b.y,
         a.z * b.x - a.x * b.z,
         a.x * b.y - a.y * b.x)
  }

  lemma CrossSelfIsZero(a: Vec3)
    ensures Cross(a, a) == Zero
  {
  }

  /** A vector is parallel to any scalar multiple of itself. */
  lemma CrossScaledSelfIsZero(v: Vec3, k: real)
    ensures Cross(Scale(v, k), v) == Zero
  {
    assert v.y * k * v.z == v.z * k * v.y;
    assert v.z * k * v.x == v.x * k * v.z;
    assert v.x * k * v.y == v.y * k * v.x;
  }

  lemma CrossAntiCommutes(a: Vec3, b: Vec3)
    ensures Cross(b, a) == Scale(Cross(a, b), -1.0)
  {
  }

  /** A scalar multiple of a vector keeps every orthogonality of that vector. */
  lemma ScaleKeepsOrthogonality(v: Vec3, k: real, e: Vec3)
    requires Dot(v, e) == 0.0
    ensures Dot(Scale(v, k), e) == 0.0
  {
    calc {
      Dot(Scale(v, k), e);
      v.x * k * e.x + v.y * k * e.y + v.z * k * e.z;
      k * (v.x * e.x) + k * (v.y * e.y) + k * (v.z * e.z);
      k * Dot(v, e);
    }
  }

  /** The sum of two vectors orthogonal to `e` is orthogonal to `e`. */
  lemma AddKeepsOrthogonality(u: Vec3, v: Vec3, e: Vec3)
    requires Dot(u, e) == 0.0 && Dot(v, e) == 0.0
    ensures Dot(Add(u, v), e) == 0.0
  {
  }

  /**
    `normalize(v)`: when the library length of `v` is not positive the argument
    comes back unchanged; otherwise it is scaled by the reciprocal of that length.
    Either way the result is a positive multiple of `v` and keeps every orthogonality of `v`.
   */
  function Normalize(fm: FloatMath, v: Vec3): (r: Vec3)
    ensures fm.sqrt(LengthSquared(v)) <= 0.0 ==> r == v
    ensures Cross(r, v) == Zero
    ensures forall e :: Dot(v, e) == 0.0 ==> Dot(r, e) == 0.0
    ensures fm.sqrt(LengthSquared(v)) > 0.0 ==> exists k :: k > 0.0 && r == Scale(v, k)
  {
    var len := fm.sqrt(LengthSquared(v));
    if len > 0.0 then
      var r := Scale(v, 1.0 / len);
      assert 1.0 / len > 0.0 && r == Scale(v, 1.0 / len);
      CrossScaledSelfIsZero(v, 1.0 / len);
      forall e | Dot(v, e) == 0.0 ensures Dot(r, e) == 0.0 {
        ScaleKeepsOrthogonality(v, 1.0 / len, e);
      }
      r
    else
      CrossSelfIsZero(v);
      v
  }

  /**
    The two unit axes spanning the plane orthogonal to `direction`, as
    `addCylinder` and `generateSpiral` both compute them: cross with the y axis,
    or with the x axis when that product is shorter than 0.001, normalized;
    then the cross product of `direction` with that first axis.
   */
  function PerpendicularAxes(fm: FloatMath, direction: Vec3): (r: (Vec3, Vec3))
    ensures Length(fm, Zero, Cross(direction, UnitY)) < 0.001 ==>
              r.0 == Normalize(fm, Cross(direction, UnitX))
    ensures Length(fm, Zero, Cross(direction, UnitY)) >= 0.001 ==>
              r.0 == Normalize(fm, Cross(direction, UnitY))
    ensures Dot(r.0, direction) == 0.0 && Dot(r.1, direction) == 0.0
    ensures Dot(r.1, r.0) == 0.0
  {
    var candidate := Cross(direction, UnitY);
    var axis := if Length(fm, Zero, candidate) < 0.001 then Cross(direction, UnitX) else candidate;
    var perp1 := Normalize(fm, axis);
    (perp1, Cross(direction, perp1))
  }

  /**
    The point at `angle` on the ring of the given radius spanned by the axes
    `perp1` and `perp2` around `center`:
    center + (perp1·cos(angle) + perp2·sin(angle))·radius.
    It lies in the plane through `center` orthogonal to any vector both axes
    are orthogonal to.
   */
  function RingPoint(fm: FloatMath, center: Vec3, perp1: Vec3, perp2: Vec3, angle: real, radius: real): (p: Vec3)
    ensures forall e :: Dot(perp1, e) == 0.0 && Dot(perp2, e) == 0.0 ==> Dot(Sub(p, center), e) == 0.0
  {
    var offset := Scale(Add(Scale(perp1, fm.cos(angle)), Scale(perp2, fm.sin(angle))), radius);
    forall e | Dot(perp1, e) == 0.0 && Dot(perp2, e) == 0.0 ensures Dot(offset, e) == 0.0 {
      ScaleKeepsOrthogonality(perp1, fm.cos(angle), e);
      ScaleKeepsOrthogonality(perp2, fm.sin(angle), e);
      AddKeepsOrthogonality(Scale(perp1, fm.cos(angle)), Scale(perp2, fm.sin(angle)), e);
      ScaleKeepsOrthogonality(Add(Scale(perp1, fm.cos(angle)), Scale(perp2, fm.sin(angle))), radius, e);
    }
    assert Sub(Add(center, offset), center) == offset;
    Add(center, offset)
  }
}
