/**
 * core/TypeAdapters.h: conversions between user point and vector types and
 * the library's own. CPoint3D and CVector3D are both Vec3 here, so one
 * function stands for a PointAdapter and the matching VectorAdapter (and
 * Point/VectorWriter). Element types are taken to be double; a writer into
 * an array of another element type would also round, which is not modelled.
 */
module TypeAdapters {
  import opened Geometry

  /** Any user type with x, y and z members. */
  datatype MemberXYZ = MemberXYZ(x: real, y: real, z: real)

  /** The primary adapters: copy the x, y and z members. */
  function FromMembers(m: MemberXYZ): (p: Vec3)
    ensures p.x == m.x && p.y == m.y && p.z == m.z
  {
    Vec3(m.x, m.y, m.z)
  }

  /** The CPoint3D and CVector3D specialisations return their argument. */
  function FromVec3(v: Vec3): (p: Vec3)
    ensures p == v
  {
    v
  }

  /** The three-element array adapter: elements 0, 1 and 2 become x, y and z. */
  function FromArray(a: seq<real>): (p: Vec3)
    requires |a| == 3
    ensures p.x == a[0] && p.y == a[1] && p.z == a[2]
  {
    Vec3(a[0], a[1], a[2])
  }

  /** The primary writers: brace-initialise the user type from x, y and z. */
  function ToMembers(p: Vec3): (m: MemberXYZ)
    ensures m.x == p.x && m.y == p.y && m.z == p.z
  {
    MemberXYZ(p.x, p.y, p.z)
  }

  /** The std::array writers copy x, y and z into elements 0, 1 and 2. */
  function ToArray(p: Vec3): (a: seq<real>)
    ensures |a| == 3 && a[0] == p.x && a[1] == p.y && a[2] == p.z
  {
    [p.x, p.y, p.z]
  }

  /** Reading back what a writer produced gives the original, in both directions. */
  lemma {:induction false} MembersRoundTrip(p: Vec3, m: MemberXYZ)
    ensures FromMembers(ToMembers(p)) == p
    ensures ToMembers(FromMembers(m)) == m
  {
  }

  lemma {:induction false} ArrayRoundTrip(p: Vec3, a: seq<real>)
    requires |a| == 3
    ensures FromArray(ToArray(p)) == p
    ensures ToArray(FromArray(a)) == a
  {
    assert ToArray(FromArray(a)) == [a[0], a[1], a[2]];
  }

  /** Every adapter agrees with the identity on the value it reads. */
  lemma {:induction false} AdaptersAgree(p: Vec3)
    ensures FromMembers(ToMembers(p)) == FromVec3(p) == FromArray(ToArray(p))
  {
  }
}
