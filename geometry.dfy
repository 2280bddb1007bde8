/**
 * Points, vectors, tolerance equality, normalisation and the standard datum IDs
 * of core/UnifiedTypes.h. Coordinates are reals; the square root is a stand-in
 * (see Sqrt) because only a few of its facts are used.
 */
module Geometry {
  import opened Wrappers

  /** Geometric comparison tolerance. */
  const Epsilon: real := 0.000001

  datatype UnitType = Meter | Centimeter | Millimeter | Inch | Foot

  /** CPoint3D and CVector3D: three coordinates, zero by default. */
  datatype Vec3 = Vec3(x: real, y: real, z: real)
  type Point3D = Vec3
  type Vector3D = Vec3

  const Zero: Vec3 := Vec3(0.0, 0.0, 0.0)

  function Abs(a: real): real { if a < 0.0 then -a else a }

  /** Point equality: every component differs by less than Epsilon. */
  predicate ApproxEqual(a: Point3D, b: Point3D)
  {
    Abs(a.x - b.x) < Epsilon && Abs(a.y - b.y) < Epsilon && Abs(a.z - b.z) < Epsilon
  }

  lemma ApproxEqualReflexiveSymmetric(a: Point3D, b: Point3D)
    ensures ApproxEqual(a, a)
    ensures ApproxEqual(a, b) <==> ApproxEqual(b, a)
  {
  }

  /** The tolerance equality is not transitive, so it is not an equivalence. */
  lemma ApproxEqualNotTransitive()
    ensures var a, b, c := Vec3(0.0, 0.0, 0.0), Vec3(0.0000006, 0.0, 0.0), Vec3(0.0000012, 0.0, 0.0);
      ApproxEqual(a, b) && ApproxEqual(b, c) && !ApproxEqual(a, c)
  {
  }

  function Neg(v: Vec3): Vec3 { Vec3(-v.x, -v.y, -v.z) }

  function Dot(a: Vector3D, b: Vector3D): real
  {
    a.x * b.x + a.y * b.y + a.z * b.z
  }

  function Cross(a: Vector3D, b: Vector3D): Vector3D
  {
    Vec3(a.y * b.z - a.z * b.y, a.z * b.x - a.x * b.z, a.x * b.y - a.y * b.x)
  }

  /** Over the reals the cross product is orthogonal to both operands. */
  lemma CrossOrthogonal(a: Vector3D, b: Vector3D)
    ensures Dot(Cross(a, b), a) == 0.0 && Dot(Cross(a, b), b) == 0.0
  {
  }

  lemma CrossAntiCommutative(a: Vector3D, b: Vector3D)
    ensures Cross(a, b) == Neg(Cross(b, a))
  {
  }

  function SquaredLength(v: Vector3D): (s: real)
    ensures s >= 0.0
  {
    v.x * v.x + v.y * v.y + v.z * v.z
  }

  /**
   * Stand-in for std::sqrt, used only for the value a vector is divided by
   * when it is normalised: one Newton step from the guess 1. Its results are
   * exact only at zero and one; every comparison of a length with a threshold
   * is made on squared lengths instead (see Normalized and IsParallel), so
   * no branch depends on it.
   */
  function Sqrt(x: real): (r: real)
    ensures r >= 0.0
    ensures x <= 0.0 ==> r == 0.0
    ensures x > 0.0 ==> r > 0.0
    ensures x == 1.0 ==> r == 1.0
  {
    if x <= 0.0 then 0.0 else (x + 1.0) / 2.0
  }

  function Length(v: Vector3D): real { Sqrt(SquaredLength(v)) }

  /**
   * For non-negative reals a < b exactly when a * a < b * b, so a length is
   * compared with a threshold by comparing squares: len > Epsilon is
   * SquaredLength(v) > Epsilon * Epsilon for the true root len.
   */
  lemma {:induction false} SquareMonotone(a: real, b: real)
    requires a >= 0.0 && b >= 0.0
    ensures a < b <==> a * a < b * b
  {
    if a < b {
      MulNonneg(a, b - a);
      MulPos(b, b - a);
      assert b * b - a * a == a * (b - a) + b * (b - a);
    } else {
      MulNonneg(b, a - b);
      MulNonneg(a, a - b);
      assert a * a - b * b == b * (a - b) + a * (a - b);
    }
  }

  lemma MulNonneg(x: real, y: real)
    requires x >= 0.0 && y >= 0.0
    ensures x * y >= 0.0
  {
  }

  lemma MulPos(x: real, y: real)
    requires x > 0.0 && y > 0.0
    ensures x * y > 0.0
  {
  }

  /** The squared guards agree with the source's guards on the true length. */
  lemma {:induction false} SquaredGuardExact(v: Vector3D, len: real, bound: real)
    requires len >= 0.0 && len * len == SquaredLength(v) && bound >= 0.0
    ensures len > bound <==> SquaredLength(v) > bound * bound
    ensures len < bound <==> SquaredLength(v) < bound * bound
  {
    SquareMonotone(bound, len);
    SquareMonotone(len, bound);
  }

  /**
   * CVector3D::Normalize: divides by the length when the length exceeds
   * Epsilon, and leaves the vector as it is otherwise.
   */
  function Normalized(v: Vector3D): (n: Vector3D)
    ensures SquaredLength(v) <= Epsilon * Epsilon ==> n == v
    ensures SquaredLength(v) > Epsilon * Epsilon ==>
      n == Vec3(v.x / Length(v), v.y / Length(v), v.z / Length(v))
  {
    if SquaredLength(v) > Epsilon * Epsilon then
      var len := Length(v);
      Vec3(v.x / len, v.y / len, v.z / len)
    else v
  }

  /** A vector not longer than Epsilon is left as it is, however close to Epsilon it comes. */
  lemma NearZeroKept()
    ensures Normalized(Vec3(0.0000001, 0.0, 0.0)) == Vec3(0.0000001, 0.0, 0.0)
    ensures Normalized(Vec3(0.0, -0.000000999, 0.0)) == Vec3(0.0, -0.000000999, 0.0)
  {
  }

  /** CVector3D::CreateNormalized. */
  function CreateNormalized(x: real, y: real, z: real): (n: Vector3D)
    ensures n == Normalized(Vec3(x, y, z))
  {
    Normalized(Vec3(x, y, z))
  }

  lemma {:induction false} NormalizedOfUnit(v: Vector3D)
    requires SquaredLength(v) == 1.0
    ensures Normalized(v) == v
  {
    assert Length(v) == 1.0;
  }

  lemma LengthNeg(v: Vector3D)
    ensures Length(Neg(v)) == Length(v)
  {
    assert SquaredLength(Neg(v)) == SquaredLength(v);
  }

  lemma DivNeg(a: real, len: real)
    requires len > 0.0
    ensures -a / len == -(a / len)
  {
  }

  /** Normalising commutes with negation. */
  lemma {:induction false} NormalizedNeg(v: Vector3D)
    ensures Normalized(Neg(v)) == Neg(Normalized(v))
  {
    LengthNeg(v);
    var len := Length(v);
    assert SquaredLength(Neg(v)) == SquaredLength(v);
    if SquaredLength(v) > Epsilon * Epsilon {
      DivNeg(v.x, len);
      DivNeg(v.y, len);
      DivNeg(v.z, len);
    }
  }

  lemma DotNeg(a: Vector3D, b: Vector3D)
    ensures Dot(a, Neg(b)) == -Dot(a, b)
    ensures Dot(Neg(a), b) == -Dot(a, b)
    ensures Dot(a, b) == Dot(b, a)
  {
  }

  /** The tolerance on the absolute cosine: |cos| must exceed 1 - 10 * Epsilon. */
  const ParallelCos: real := 1.0 - 10.0 * Epsilon

  /**
   * Parallel or anti-parallel: the absolute dot product of the normalised
   * vectors is within ten times Epsilon of one. Stated without the root:
   * both vectors are longer than Epsilon (a shorter one is left as it is by
   * Normalize, and its dot product with the other normalised vector is at
   * most Epsilon in size) and the squared cosine exceeds ParallelCos squared.
   * Over the reals this is the source's test: by the Cauchy-Schwarz
   * inequality the cosine of two longer vectors is at most one in size, so
   * it is within 10 * Epsilon of one exactly when its square exceeds
   * ParallelCos squared.
   */
  predicate IsParallel(a: Vector3D, b: Vector3D)
  {
    SquaredLength(a) > Epsilon * Epsilon && SquaredLength(b) > Epsilon * Epsilon &&
    Dot(a, b) * Dot(a, b) > ParallelCos * ParallelCos * (SquaredLength(a) * SquaredLength(b))
  }

  /** Negating either argument never changes the parallel test. */
  lemma {:induction false} IsParallelNeg(a: Vector3D, b: Vector3D)
    ensures IsParallel(a, Neg(b)) == IsParallel(a, b)
    ensures IsParallel(Neg(a), b) == IsParallel(a, b)
    ensures IsParallel(a, b) == IsParallel(b, a)
  {
    DotNeg(a, b);
    assert SquaredLength(Neg(a)) == SquaredLength(a);
    assert SquaredLength(Neg(b)) == SquaredLength(b);
    var d := Dot(a, b);
    assert (-d) * (-d) == d * d;
    assert SquaredLength(a) * SquaredLength(b) == SquaredLength(b) * SquaredLength(a);
  }

  lemma {:induction false} UnitIsParallelToItself(v: Vector3D)
    requires SquaredLength(v) == 1.0
    ensures IsParallel(v, v) && IsParallel(v, Neg(v))
  {
    assert Dot(v, v) == SquaredLength(v);
    IsParallelNeg(v, v);
  }

  // Standard datum IDs
  // Standard datum IDs
  const PlaneXY: string := "STD_DATUM_XY"
  const PlaneYZ: string := "STD_DATUM_YZ"
  const PlaneZX: string := "STD_DATUM_ZX"
  const AxisXId: string := "STD_AXIS_X"
  const AxisYId: string := "STD_AXIS_Y"
  const AxisZId: string := "STD_AXIS_Z"
  const OriginId: string := "STD_POINT_ORIGIN"

  const PlaneXYNormal: Vector3D := Vec3(0.0, 0.0, 1.0)
  const PlaneYZNormal: Vector3D := Vec3(1.0, 0.0, 0.0)
  const PlaneZXNormal: Vector3D := Vec3(0.0, 1.0, 0.0)
  const AxisX: Vector3D := Vec3(1.0, 0.0, 0.0)
  const AxisY: Vector3D := Vec3(0.0, 1.0, 0.0)
  const AxisZ: Vector3D := Vec3(0.0, 0.0, 1.0)

  /**
   * The standard-ID predicates are used by the builders and accessors but
   * defined outside the shown headers; they are taken here as membership in
   * the constants above.
   */
  predicate IsStandardPlane(id: string) { id == PlaneXY || id == PlaneYZ || id == PlaneZX }
  predicate IsStandardAxis(id: string) { id == AxisXId || id == AxisYId || id == AxisZId }
  predicate IsStandardPoint(id: string) { id == OriginId }

  /** The Y direction normalize(cross(normal, xDir)) gives for the XY frame. */
  lemma XYFrameYDir()
    ensures Normalized(Cross(Vec3(0.0, 0.0, 1.0), Vec3(1.0, 0.0, 0.0))) == Vec3(0.0, 1.0, 0.0)
  {
    assert Cross(Vec3(0.0, 0.0, 1.0), Vec3(1.0, 0.0, 0.0)) == Vec3(0.0, 1.0, 0.0);
    NormalizedOfUnit(Vec3(0.0, 1.0, 0.0));
  }

  /** The Y direction normalize(cross(normal, xDir)) gives for the YZ frame. */
  lemma YZFrameYDir()
    ensures Normalized(Cross(Vec3(1.0, 0.0, 0.0), Vec3(0.0, 1.0, 0.0))) == Vec3(0.0, 0.0, 1.0)
  {
    assert Cross(Vec3(1.0, 0.0, 0.0), Vec3(0.0, 1.0, 0.0)) == Vec3(0.0, 0.0, 1.0);
    NormalizedOfUnit(Vec3(0.0, 0.0, 1.0));
  }

  /** The Y direction normalize(cross(normal, xDir)) gives for the ZX frame. */
  lemma ZXFrameYDir()
    ensures Normalized(Cross(Vec3(0.0, 1.0, 0.0), Vec3(0.0, 0.0, 1.0))) == Vec3(1.0, 0.0, 0.0)
  {
    assert Cross(Vec3(0.0, 1.0, 0.0), Vec3(0.0, 0.0, 1.0)) == Vec3(1.0, 0.0, 0.0);
    NormalizedOfUnit(Vec3(1.0, 0.0, 0.0));
  }

  /** The three standard plane IDs differ, at their tenth character. */
  lemma StandardPlaneIdsDistinct()
    ensures PlaneXY != PlaneYZ && PlaneYZ != PlaneZX && PlaneXY != PlaneZX
  {
    assert PlaneXY[10] == 'X' && PlaneYZ[10] == 'Y' && PlaneZX[10] == 'Z';
  }

  /** Maps a normal to the first standard plane, in XY, YZ, ZX order, it is parallel to. */
  function MatchPlane(normal: Vector3D): (r: Option<string>)
    ensures r == Some(PlaneXY) <==> IsParallel(normal, PlaneXYNormal)
    ensures r == Some(PlaneYZ) <==> !IsParallel(normal, PlaneXYNormal) && IsParallel(normal, PlaneYZNormal)
    ensures r == Some(PlaneZX) <==>
      !IsParallel(normal, PlaneXYNormal) && !IsParallel(normal, PlaneYZNormal) && IsParallel(normal, PlaneZXNormal)
    ensures r.None? || r.value in {PlaneXY, PlaneYZ, PlaneZX}
    ensures SquaredLength(normal) <= Epsilon * Epsilon ==> r.None?
  {
    if IsParallel(normal, PlaneXYNormal) then Some(PlaneXY)
    else if IsParallel(normal, PlaneYZNormal) then Some(PlaneYZ)
    else if IsParallel(normal, PlaneZXNormal) then Some(PlaneZX)
    else None
  }

  /** Maps a direction to the first standard axis, in X, Y, Z order, it is parallel to. */
  function MatchAxis(direction: Vector3D): (r: Option<string>)
    ensures r == Some(AxisXId) <==> IsParallel(direction, AxisX)
    ensures r == Some(AxisYId) <==> !IsParallel(direction, AxisX) && IsParallel(direction, AxisY)
    ensures r == Some(AxisZId) <==>
      !IsParallel(direction, AxisX) && !IsParallel(direction, AxisY) && IsParallel(direction, AxisZ)
    ensures r.None? || r.value in {AxisXId, AxisYId, AxisZId}
    ensures SquaredLength(direction) <= Epsilon * Epsilon ==> r.None?
  {
    if IsParallel(direction, AxisX) then Some(AxisXId)
    else if IsParallel(direction, AxisY) then Some(AxisYId)
    else if IsParallel(direction, AxisZ) then Some(AxisZId)
    else None
  }

  /** A normal and its negation always match the same standard plane. */
  lemma {:induction false} MatchPlaneNeg(n: Vector3D)
    ensures MatchPlane(Neg(n)) == MatchPlane(n)
  {
    IsParallelNeg(n, PlaneXYNormal);
    IsParallelNeg(n, PlaneYZNormal);
    IsParallelNeg(n, PlaneZXNormal);
  }

  lemma {:induction false} MatchAxisNeg(d: Vector3D)
    ensures MatchAxis(Neg(d)) == MatchAxis(d)
  {
    IsParallelNeg(d, AxisX);
    IsParallelNeg(d, AxisY);
    IsParallelNeg(d, AxisZ);
  }

  /** Both (0,0,1) and (0,0,-1) are recognised as the XY plane. */
  lemma {:induction false} MatchPlaneOfXYNormals()
    ensures MatchPlane(PlaneXYNormal) == Some(PlaneXY)
    ensures MatchPlane(Vec3(0.0, 0.0, -1.0)) == Some(PlaneXY)
  {
    UnitIsParallelToItself(PlaneXYNormal);
    MatchPlaneNeg(PlaneXYNormal);
  }

  lemma {:induction false} MatchAxisOfStandardAxes()
    ensures MatchAxis(AxisX) == Some(AxisXId)
    ensures MatchAxis(Neg(AxisZ)) == MatchAxis(AxisZ)
  {
    UnitIsParallelToItself(AxisX);
    MatchAxisNeg(AxisZ);
  }

  /** A multiple k * u of a unit vector u longer than Epsilon is parallel to u. */
  lemma {:induction false} MultipleIsParallel(u: Vector3D, k: real)
    requires SquaredLength(u) == 1.0 && k * k > Epsilon * Epsilon
    ensures IsParallel(Vec3(k * u.x, k * u.y, k * u.z), u)
  {
    var v := Vec3(k * u.x, k * u.y, k * u.z);
    assert SquaredLength(v) == (k * k) * SquaredLength(u);
    assert Dot(v, u) == k * SquaredLength(u);
    var q := k * k;
    assert Dot(v, u) * Dot(v, u) == q;
    assert SquaredLength(v) * SquaredLength(u) == q;
    assert ParallelCos * ParallelCos < 1.0;
    MulPos(1.0 - ParallelCos * ParallelCos, q);
  }

  /** A vector orthogonal to u is never parallel to it. */
  lemma {:induction false} OrthogonalNotParallel(v: Vector3D, u: Vector3D)
    requires Dot(v, u) == 0.0
    ensures !IsParallel(v, u)
  {
    MulNonneg(SquaredLength(v), SquaredLength(u));
    MulNonneg(ParallelCos * ParallelCos, SquaredLength(v) * SquaredLength(u));
  }

  /** Scaling a literal unit vector, written with its components. */
  lemma {:induction false} ParallelMultiple(u: Vector3D, k: real, v: Vector3D)
    requires SquaredLength(u) == 1.0 && k * k > Epsilon * Epsilon
    requires v == Vec3(k * u.x, k * u.y, k * u.z)
    ensures IsParallel(v, u)
  {
    MultipleIsParallel(u, k);
  }

  lemma {:induction false} MatchPlaneXYOfMultiple(k: real)
    requires k * k > Epsilon * Epsilon
    ensures MatchPlane(Vec3(0.0, 0.0, k)) == Some(PlaneXY)
  {
    ParallelMultiple(PlaneXYNormal, k, Vec3(0.0, 0.0, k));
  }

  lemma {:induction false} MatchPlaneYZOfMultiple(k: real)
    requires k * k > Epsilon * Epsilon
    ensures MatchPlane(Vec3(k, 0.0, 0.0)) == Some(PlaneYZ)
  {
    ParallelMultiple(PlaneYZNormal, k, Vec3(k, 0.0, 0.0));
    OrthogonalNotParallel(Vec3(k, 0.0, 0.0), PlaneXYNormal);
  }

  lemma {:induction false} MatchPlaneZXOfMultiple(k: real)
    requires k * k > Epsilon * Epsilon
    ensures MatchPlane(Vec3(0.0, k, 0.0)) == Some(PlaneZX)
  {
    ParallelMultiple(PlaneZXNormal, k, Vec3(0.0, k, 0.0));
    OrthogonalNotParallel(Vec3(0.0, k, 0.0), PlaneXYNormal);
    OrthogonalNotParallel(Vec3(0.0, k, 0.0), PlaneYZNormal);
  }

  /** Any multiple of a standard normal longer than Epsilon matches its plane, whatever its sign. */
  lemma {:induction false} MatchPlaneOfMultiples(k: real)
    requires k * k > Epsilon * Epsilon
    ensures MatchPlane(Vec3(0.0, 0.0, k)) == Some(PlaneXY)
    ensures MatchPlane(Vec3(k, 0.0, 0.0)) == Some(PlaneYZ)
    ensures MatchPlane(Vec3(0.0, k, 0.0)) == Some(PlaneZX)
  {
    MatchPlaneXYOfMultiple(k);
    MatchPlaneYZOfMultiple(k);
    MatchPlaneZXOfMultiple(k);
  }

  lemma {:induction false} MatchAxisXOfMultiple(k: real)
    requires k * k > Epsilon * Epsilon
    ensures MatchAxis(Vec3(k, 0.0, 0.0)) == Some(AxisXId)
  {
    ParallelMultiple(AxisX, k, Vec3(k, 0.0, 0.0));
  }

  lemma {:induction false} MatchAxisYOfMultiple(k: real)
    requires k * k > Epsilon * Epsilon
    ensures MatchAxis(Vec3(0.0, k, 0.0)) == Some(AxisYId)
  {
    ParallelMultiple(AxisY, k, Vec3(0.0, k, 0.0));
    OrthogonalNotParallel(Vec3(0.0, k, 0.0), AxisX);
  }

  lemma {:induction false} MatchAxisZOfMultiple(k: real)
    requires k * k > Epsilon * Epsilon
    ensures MatchAxis(Vec3(0.0, 0.0, k)) == Some(AxisZId)
  {
    ParallelMultiple(AxisZ, k, Vec3(0.0, 0.0, k));
    OrthogonalNotParallel(Vec3(0.0, 0.0, k), AxisX);
    OrthogonalNotParallel(Vec3(0.0, 0.0, k), AxisY);
  }

  /** Any multiple of a standard axis longer than Epsilon matches that axis, whatever its sign. */
  lemma {:induction false} MatchAxisOfMultiples(k: real)
    requires k * k > Epsilon * Epsilon
    ensures MatchAxis(Vec3(k, 0.0, 0.0)) == Some(AxisXId)
    ensures MatchAxis(Vec3(0.0, k, 0.0)) == Some(AxisYId)
    ensures MatchAxis(Vec3(0.0, 0.0, k)) == Some(AxisZId)
  {
    MatchAxisXOfMultiple(k);
    MatchAxisYOfMultiple(k);
    MatchAxisZOfMultiple(k);
  }
}
