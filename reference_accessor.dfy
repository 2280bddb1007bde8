/**
 * service/accessors/ReferenceAccessor.h: read-only access to a reference
 * that may be null. The common getters fall back to a default when the
 * reference is null or of the wrong class; each geometric getter succeeds
 * only for its class. A C++ getter that writes an out-parameter and returns
 * true or false is a function returning Some(value) or None here: None
 * stands for "returned false and left the out-parameter alone".
 */
module ReferenceAccessors {
  import opened Wrappers
  import opened Geometry
  import opened Features
  import ServiceBuilderBase

  datatype ReferenceAccessor = ReferenceAccessor(ref: Option<Reference>)

  /** The accessor wraps a non-null reference. */
  predicate IsValid(a: ReferenceAccessor)
  {
    a.ref.Some?
  }

  /** The stored type, or FEATURE_DATUM_PLANE for a null reference. */
  function GetRefType(a: ReferenceAccessor): (t: RefType)
    ensures IsValid(a) ==> t == a.ref.value.refType
    ensures !IsValid(a) ==> t == FeatureDatumPlane
  {
    match a.ref
    case None => FeatureDatumPlane
    case Some(r) => r.refType
  }

  /** The parent feature of a face, edge, vertex or sketch-segment reference, else "". */
  function GetParentFeatureID(a: ReferenceAccessor): (id: string)
    ensures IsValid(a) && a.ref.value.IsSubTopo() ==> id == a.ref.value.parentFeatureID
    ensures !(IsValid(a) && a.ref.value.IsSubTopo()) ==> id == ""
  {
    match a.ref
    case Some(RefFace(_, parent, _, _, _, _, _)) => parent
    case Some(RefEdge(_, parent, _, _, _, _)) => parent
    case Some(RefVertex(_, parent, _, _)) => parent
    case Some(RefSketchSeg(_, parent, _, _)) => parent
    case _ => ""
  }

  /** The target of a bare feature, plane, sketch, axis or point reference, else "". */
  function GetTargetFeatureID(a: ReferenceAccessor): (id: string)
    ensures IsValid(a) && a.ref.value.IsFeatureRef() ==> id == a.ref.value.targetFeatureID
    ensures !(IsValid(a) && a.ref.value.IsFeatureRef()) ==> id == ""
  {
    match a.ref
    case Some(RefFeature(_, target)) => target
    case Some(RefPlane(_, target, _, _, _, _)) => target
    case Some(RefSketch(_, target)) => target
    case Some(RefAxis(_, target, _, _)) => target
    case Some(RefPoint(_, target, _)) => target
    case _ => ""
  }

  /**
   * A feature reference whose target is any standard ID (plane, axis or
   * origin); the class of the reference is not compared with the kind of ID.
   */
  function IsStandard(a: ReferenceAccessor): (b: bool)
    ensures b <==> IsValid(a) && a.ref.value.IsFeatureRef() &&
                   (IsStandardPlane(a.ref.value.targetFeatureID) ||
                    IsStandardAxis(a.ref.value.targetFeatureID) ||
                    IsStandardPoint(a.ref.value.targetFeatureID))
  {
    var id := GetTargetFeatureID(a);
    IsValid(a) && a.ref.value.IsFeatureRef() && (IsStandardPlane(id) || IsStandardAxis(id) || IsStandardPoint(id))
  }

  /** The topology index of a sub-topology reference, else -1. */
  function GetTopologyIndex(a: ReferenceAccessor): (i: int)
    ensures IsValid(a) && a.ref.value.IsSubTopo() ==> i == a.ref.value.topologyIndex
    ensures !(IsValid(a) && a.ref.value.IsSubTopo()) ==> i == -1
  {
    match a.ref
    case Some(RefFace(_, _, index, _, _, _, _)) => index
    case Some(RefEdge(_, _, index, _, _, _)) => index
    case Some(RefVertex(_, _, index, _)) => index
    case Some(RefSketchSeg(_, _, index, _)) => index
    case _ => -1
  }

  // Face fingerprint

  function GetFaceNormal(a: ReferenceAccessor): (r: Option<Vector3D>)
    ensures r.Some? <==> IsValid(a) && a.ref.value.RefFace?
    ensures r.Some? ==> r.value == a.ref.value.normal
  {
    match a.ref
    case Some(RefFace(_, _, _, normal, _, _, _)) => Some(normal)
    case _ => None
  }

  function GetFaceCentroid(a: ReferenceAccessor): (r: Option<Point3D>)
    ensures r.Some? <==> IsValid(a) && a.ref.value.RefFace?
    ensures r.Some? ==> r.value == a.ref.value.centroid
  {
    match a.ref
    case Some(RefFace(_, _, _, _, centroid, _, _)) => Some(centroid)
    case _ => None
  }

  function GetFaceUDir(a: ReferenceAccessor): (r: Option<Vector3D>)
    ensures r.Some? <==> IsValid(a) && a.ref.value.RefFace?
    ensures r.Some? ==> r.value == a.ref.value.uDir
  {
    match a.ref
    case Some(RefFace(_, _, _, _, _, u, _)) => Some(u)
    case _ => None
  }

  function GetFaceVDir(a: ReferenceAccessor): (r: Option<Vector3D>)
    ensures r.Some? <==> IsValid(a) && a.ref.value.RefFace?
    ensures r.Some? ==> r.value == a.ref.value.vDir
  {
    match a.ref
    case Some(RefFace(_, _, _, _, _, _, v)) => Some(v)
    case _ => None
  }

  // Edge fingerprint

  function GetEdgeStartPoint(a: ReferenceAccessor): (r: Option<Point3D>)
    ensures r.Some? <==> IsValid(a) && a.ref.value.RefEdge?
    ensures r.Some? ==> r.value == a.ref.value.startPoint
  {
    match a.ref
    case Some(RefEdge(_, _, _, _, start, _)) => Some(start)
    case _ => None
  }

  function GetEdgeEndPoint(a: ReferenceAccessor): (r: Option<Point3D>)
    ensures r.Some? <==> IsValid(a) && a.ref.value.RefEdge?
    ensures r.Some? ==> r.value == a.ref.value.endPoint
  {
    match a.ref
    case Some(RefEdge(_, _, _, _, _, end)) => Some(end)
    case _ => None
  }

  function GetEdgeMidPoint(a: ReferenceAccessor): (r: Option<Point3D>)
    ensures r.Some? <==> IsValid(a) && a.ref.value.RefEdge?
    ensures r.Some? ==> r.value == a.ref.value.midPoint
  {
    match a.ref
    case Some(RefEdge(_, _, _, mid, _, _)) => Some(mid)
    case _ => None
  }

  // Vertex fingerprint

  function GetVertexPosition(a: ReferenceAccessor): (r: Option<Point3D>)
    ensures r.Some? <==> IsValid(a) && a.ref.value.RefVertex?
    ensures r.Some? ==> r.value == a.ref.value.pos
  {
    match a.ref
    case Some(RefVertex(_, _, _, pos)) => Some(pos)
    case _ => None
  }

  // Datum plane fingerprint

  function GetPlaneOrigin(a: ReferenceAccessor): (r: Option<Point3D>)
    ensures r.Some? <==> IsValid(a) && a.ref.value.RefPlane?
    ensures r.Some? ==> r.value == a.ref.value.origin
  {
    match a.ref
    case Some(RefPlane(_, _, origin, _, _, _)) => Some(origin)
    case _ => None
  }

  function GetPlaneNormal(a: ReferenceAccessor): (r: Option<Vector3D>)
    ensures r.Some? <==> IsValid(a) && a.ref.value.RefPlane?
    ensures r.Some? ==> r.value == a.ref.value.normal
  {
    match a.ref
    case Some(RefPlane(_, _, _, _, _, normal)) => Some(normal)
    case _ => None
  }

  function GetPlaneXDir(a: ReferenceAccessor): (r: Option<Vector3D>)
    ensures r.Some? <==> IsValid(a) && a.ref.value.RefPlane?
    ensures r.Some? ==> r.value == a.ref.value.xDir
  {
    match a.ref
    case Some(RefPlane(_, _, _, x, _, _)) => Some(x)
    case _ => None
  }

  function GetPlaneYDir(a: ReferenceAccessor): (r: Option<Vector3D>)
    ensures r.Some? <==> IsValid(a) && a.ref.value.RefPlane?
    ensures r.Some? ==> r.value == a.ref.value.yDir
  {
    match a.ref
    case Some(RefPlane(_, _, _, _, y, _)) => Some(y)
    case _ => None
  }

  // Datum axis and point fingerprints

  function GetAxisOrigin(a: ReferenceAccessor): (r: Option<Point3D>)
    ensures r.Some? <==> IsValid(a) && a.ref.value.RefAxis?
    ensures r.Some? ==> r.value == a.ref.value.origin
  {
    match a.ref
    case Some(RefAxis(_, _, origin, _)) => Some(origin)
    case _ => None
  }

  function GetAxisDirection(a: ReferenceAccessor): (r: Option<Vector3D>)
    ensures r.Some? <==> IsValid(a) && a.ref.value.RefAxis?
    ensures r.Some? ==> r.value == a.ref.value.direction
  {
    match a.ref
    case Some(RefAxis(_, _, _, direction)) => Some(direction)
    case _ => None
  }

  function GetPointPosition(a: ReferenceAccessor): (r: Option<Point3D>)
    ensures r.Some? <==> IsValid(a) && a.ref.value.RefPoint?
    ensures r.Some? ==> r.value == a.ref.value.position
  {
    match a.ref
    case Some(RefPoint(_, _, position)) => Some(position)
    case _ => None
  }

  /**
   * A reference is read either as a feature reference or as a sub-topology
   * reference, never as both: at most one of the two IDs and, for feature
   * references, no topology index.
   */
  lemma {:induction false} ParentOrTarget(a: ReferenceAccessor)
    ensures GetParentFeatureID(a) == "" || GetTargetFeatureID(a) == ""
    ensures IsStandard(a) ==> GetParentFeatureID(a) == "" && GetTopologyIndex(a) == -1
    ensures IsValid(a) ==> (a.ref.value.IsFeatureRef() <==> !a.ref.value.IsSubTopo())
  {
    if IsValid(a) {
      var r := a.ref.value;
      assert r.IsFeatureRef() <==> !r.IsSubTopo();
    }
  }

  /** The face builder's fields read back unchanged through the accessor. */
  lemma {:induction false} FaceReadsBack(t: RefType, parent: string, index: int, n: Vector3D, c: Point3D, u: Vector3D, v: Vector3D)
    ensures var a := ReferenceAccessor(Some(RefFace(t, parent, index, n, c, u, v)));
            GetRefType(a) == t && GetParentFeatureID(a) == parent && GetTopologyIndex(a) == index &&
            GetTargetFeatureID(a) == "" && !IsStandard(a) &&
            GetFaceNormal(a) == Some(n) && GetFaceCentroid(a) == Some(c) &&
            GetFaceUDir(a) == Some(u) && GetFaceVDir(a) == Some(v) &&
            GetPlaneNormal(a).None? && GetEdgeMidPoint(a).None? && GetVertexPosition(a).None?
  {
    var a := ReferenceAccessor(Some(RefFace(t, parent, index, n, c, u, v)));
    assert a.ref.value.IsSubTopo() && !a.ref.value.IsFeatureRef();
  }

  /** The edge builder's fields read back unchanged through the accessor. */
  lemma {:induction false} EdgeReadsBack(t: RefType, parent: string, index: int, mid: Point3D, start: Point3D, end: Point3D)
    ensures var a := ReferenceAccessor(Some(RefEdge(t, parent, index, mid, start, end)));
            GetParentFeatureID(a) == parent && GetTopologyIndex(a) == index && GetTargetFeatureID(a) == "" &&
            GetEdgeStartPoint(a) == Some(start) && GetEdgeEndPoint(a) == Some(end) && GetEdgeMidPoint(a) == Some(mid) &&
            GetFaceNormal(a).None? && GetVertexPosition(a).None?
  {
    var a := ReferenceAccessor(Some(RefEdge(t, parent, index, mid, start, end)));
    assert a.ref.value.IsSubTopo() && !a.ref.value.IsFeatureRef();
  }

  /** The vertex builder's fields read back unchanged through the accessor. */
  lemma {:induction false} VertexReadsBack(t: RefType, parent: string, index: int, p: Point3D)
    ensures var a := ReferenceAccessor(Some(RefVertex(t, parent, index, p)));
            GetParentFeatureID(a) == parent && GetTopologyIndex(a) == index && GetTargetFeatureID(a) == "" &&
            GetVertexPosition(a) == Some(p) && GetPointPosition(a).None? && GetEdgeStartPoint(a).None?
  {
    var a := ReferenceAccessor(Some(RefVertex(t, parent, index, p)));
    assert a.ref.value.IsSubTopo() && !a.ref.value.IsFeatureRef();
  }

  /** The datum plane builder's fields read back unchanged through the accessor. */
  lemma {:induction false} PlaneReadsBack(t: RefType, target: string, o: Point3D, x: Vector3D, y: Vector3D, n: Vector3D)
    ensures var a := ReferenceAccessor(Some(RefPlane(t, target, o, x, y, n)));
            GetRefType(a) == t && GetTargetFeatureID(a) == target && GetParentFeatureID(a) == "" &&
            GetTopologyIndex(a) == -1 &&
            GetPlaneOrigin(a) == Some(o) && GetPlaneXDir(a) == Some(x) && GetPlaneYDir(a) == Some(y) &&
            GetPlaneNormal(a) == Some(n) && GetFaceNormal(a).None? && GetAxisOrigin(a).None?
  {
    var a := ReferenceAccessor(Some(RefPlane(t, target, o, x, y, n)));
    assert a.ref.value.IsFeatureRef() && !a.ref.value.IsSubTopo();
  }

  /** The datum axis and point builders' fields read back unchanged through the accessor. */
  lemma {:induction false} AxisAndPointReadBack(t: RefType, target: string, o: Point3D, d: Vector3D, p: Point3D)
    ensures var a := ReferenceAccessor(Some(RefAxis(t, target, o, d)));
            GetTargetFeatureID(a) == target && GetAxisOrigin(a) == Some(o) && GetAxisDirection(a) == Some(d) &&
            GetPlaneOrigin(a).None? && GetPointPosition(a).None?
    ensures var a := ReferenceAccessor(Some(RefPoint(t, target, p)));
            GetTargetFeatureID(a) == target && GetPointPosition(a) == Some(p) &&
            GetAxisOrigin(a).None? && GetVertexPosition(a).None?
  {
    var a := ReferenceAccessor(Some(RefAxis(t, target, o, d)));
    var b := ReferenceAccessor(Some(RefPoint(t, target, p)));
    assert a.ref.value.IsFeatureRef() && b.ref.value.IsFeatureRef();
  }

  /** A null accessor answers every getter with its default and every fingerprint getter with false. */
  lemma NullReadsDefaults()
    ensures var a := ReferenceAccessor(None);
            !IsValid(a) && GetRefType(a) == FeatureDatumPlane && GetParentFeatureID(a) == "" &&
            GetTargetFeatureID(a) == "" && !IsStandard(a) && GetTopologyIndex(a) == -1 &&
            GetFaceNormal(a).None? && GetEdgeStartPoint(a).None? && GetVertexPosition(a).None? &&
            GetPlaneOrigin(a).None? && GetAxisDirection(a).None? && GetPointPosition(a).None?
  {
  }

  /**
   * Every datum reference the builders let through without a model lookup
   * reads as standard; the converse fails, because IsStandard accepts any
   * standard ID on any feature reference.
   */
  lemma {:induction false} StandardTargetsReadAsStandard(r: Reference)
    requires ServiceBuilderBase.IsStandardTarget(r)
    ensures IsStandard(ReferenceAccessor(Some(r)))
  {
    match r
    case RefPlane(_, _, _, _, _, _) =>
    case RefAxis(_, _, _, _) =>
    case RefPoint(_, _, _) =>
  }

  /**
   * A datum plane reference aimed at a standard axis ID reads as standard,
   * yet ValidateReference looks it up in the model and rejects it in an
   * empty one.
   */
  lemma {:induction false} StandardIsNotAcceptance()
    ensures var r := RefPlane(FeatureDatumPlane, AxisXId, Zero, Zero, Zero, Zero);
            IsStandard(ReferenceAccessor(Some(r))) && !ServiceBuilderBase.ReferenceAccepted(Some(r), [])
  {
    var r := RefPlane(FeatureDatumPlane, AxisXId, Zero, Zero, Zero, Zero);
    assert IsStandardAxis(AxisXId);
    assert AxisXId[4] == 'A' && PlaneXY[4] == 'D' && PlaneYZ[4] == 'D' && PlaneZX[4] == 'D';
  }
}
