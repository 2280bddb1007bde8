/**
 * The attribute-map reference factory of builders/ReferenceFactory.*: a
 * reference kind and a map from key to a tagged value (string, int,
 * double, point or vector) build a reference. Every key is optional: a
 * missing key, or one holding another alternative, keeps the default of
 * the reference class.
 */
module ReferenceFactory {
  import opened Wrappers
  import opened Geometry
  import opened Features

  /** ReferenceKind, in declaration order. */
  datatype ReferenceKind =
    | FaceRef | EdgeRef | VertexRef | SketchSegmentRef | SketchRef | DatumPlaneRef | DatumAxisRef | DatumPointRef

  /** The factory's own point and vector structs: three doubles. */
  datatype Triple = Triple(x: real, y: real, z: real)

  /**
   * ReferenceAttributeValue: one of string, int, double, point or vector.
   * Both string constructors (std::string and const char*) store a
   * StringValue.
   */
  datatype AttrValue =
    | StringValue(s: string)
    | IntValue(i: int)
    | DoubleValue(d: real)
    | PointValue(p: Triple)
    | VectorValue(v: Triple)

  /** An unordered_map: at most one value per key. */
  type AttrMap = map<string, AttrValue>

  // GetAs<T>: the value when the stored alternative is T, null otherwise.

  function GetString(v: AttrValue): (r: Option<string>)
    ensures r.Some? <==> v.StringValue?
    ensures r.Some? ==> r.value == v.s
  {
    if v.StringValue? then Some(v.s) else None
  }

  function GetInt(v: AttrValue): (r: Option<int>)
    ensures r.Some? <==> v.IntValue?
    ensures r.Some? ==> r.value == v.i
  {
    if v.IntValue? then Some(v.i) else None
  }

  function GetDouble(v: AttrValue): (r: Option<real>)
    ensures r.Some? <==> v.DoubleValue?
    ensures r.Some? ==> r.value == v.d
  {
    if v.DoubleValue? then Some(v.d) else None
  }

  function GetPoint(v: AttrValue): (r: Option<Triple>)
    ensures r.Some? <==> v.PointValue?
    ensures r.Some? ==> r.value == v.p
  {
    if v.PointValue? then Some(v.p) else None
  }

  function GetVector(v: AttrValue): (r: Option<Triple>)
    ensures r.Some? <==> v.VectorValue?
    ensures r.Some? ==> r.value == v.v
  {
    if v.VectorValue? then Some(v.v) else None
  }

  /** Exactly one GetAs succeeds on any value, and it gives back what was stored. */
  lemma GetAsExactlyOne(v: AttrValue)
    ensures (if GetString(v).Some? then 1 else 0) + (if GetInt(v).Some? then 1 else 0) +
            (if GetDouble(v).Some? then 1 else 0) + (if GetPoint(v).Some? then 1 else 0) +
            (if GetVector(v).Some? then 1 else 0) == 1
  {
  }

  // The typed lookups: none when the key is absent or holds another alternative.

  function LookupString(attrs: AttrMap, key: string): (r: Option<string>)
    ensures r.Some? <==> key in attrs && attrs[key].StringValue?
    ensures r.Some? ==> r.value == attrs[key].s
  {
    if key !in attrs then None else GetString(attrs[key])
  }

  function LookupInt(attrs: AttrMap, key: string): (r: Option<int>)
    ensures r.Some? <==> key in attrs && attrs[key].IntValue?
    ensures r.Some? ==> r.value == attrs[key].i
  {
    if key !in attrs then None else GetInt(attrs[key])
  }

  function LookupDouble(attrs: AttrMap, key: string): (r: Option<real>)
    ensures r.Some? <==> key in attrs && attrs[key].DoubleValue?
    ensures r.Some? ==> r.value == attrs[key].d
  {
    if key !in attrs then None else GetDouble(attrs[key])
  }

  function LookupPoint(attrs: AttrMap, key: string): (r: Option<Triple>)
    ensures r.Some? <==> key in attrs && attrs[key].PointValue?
    ensures r.Some? ==> r.value == attrs[key].p
  {
    if key !in attrs then None else GetPoint(attrs[key])
  }

  function LookupVector(attrs: AttrMap, key: string): (r: Option<Triple>)
    ensures r.Some? <==> key in attrs && attrs[key].VectorValue?
    ensures r.Some? ==> r.value == attrs[key].v
  {
    if key !in attrs then None else GetVector(attrs[key])
  }

  /** ToCPoint / ToCVector: the core type with the same three components. */
  function ToCVec(t: Triple): (r: Vec3)
    ensures r.x == t.x && r.y == t.y && r.z == t.z
  {
    Vec3(t.x, t.y, t.z)
  }

  function FromCVec(v: Vec3): (t: Triple)
  {
    Triple(v.x, v.y, v.z)
  }

  lemma ToCVecInverse(t: Triple, v: Vec3)
    ensures ToCVec(FromCVec(v)) == v && FromCVec(ToCVec(t)) == t
  {
  }

  /** A point or vector lookup converted to the core type, or the given default. */
  function PointOr(attrs: AttrMap, key: string, default: Vec3): (r: Vec3)
    ensures LookupPoint(attrs, key).None? ==> r == default
    ensures LookupPoint(attrs, key).Some? ==> r == ToCVec(LookupPoint(attrs, key).value)
  {
    var p := LookupPoint(attrs, key);
    if p.Some? then ToCVec(p.value) else default
  }

  function VectorOr(attrs: AttrMap, key: string, default: Vec3): (r: Vec3)
    ensures LookupVector(attrs, key).None? ==> r == default
    ensures LookupVector(attrs, key).Some? ==> r == ToCVec(LookupVector(attrs, key).value)
  {
    var v := LookupVector(attrs, key);
    if v.Some? then ToCVec(v.value) else default
  }

  const ParentKey: string := "parentFeatureID"
  const IndexKey: string := "topologyIndex"
  const NormalKey: string := "normal"
  const CentroidKey: string := "centroid"
  const UDirKey: string := "uDir"
  const VDirKey: string := "vDir"
  const MidPointKey: string := "midPoint"
  const PosKey: string := "pos"
  const SegmentKey: string := "segmentLocalID"
  const TargetKey: string := "targetFeatureID"
  const OriginKey: string := "origin"
  const XDirKey: string := "xDir"
  const YDirKey: string := "yDir"

  function CreateFace(attrs: AttrMap): (r: Reference)
    ensures r.RefFace? && r.refType == TopoFace
    ensures r.parentFeatureID == LookupString(attrs, ParentKey).GetOr("")
    ensures r.topologyIndex == LookupInt(attrs, IndexKey).GetOr(-1)
    ensures r.normal == VectorOr(attrs, NormalKey, Zero) && r.centroid == PointOr(attrs, CentroidKey, Zero)
    ensures r.uDir == VectorOr(attrs, UDirKey, DefaultUDir) && r.vDir == VectorOr(attrs, VDirKey, DefaultVDir)
  {
    var f := NewRefFace();
    RefFace(f.refType,
            LookupString(attrs, ParentKey).GetOr(f.parentFeatureID),
            LookupInt(attrs, IndexKey).GetOr(f.topologyIndex),
            VectorOr(attrs, NormalKey, f.normal),
            PointOr(attrs, CentroidKey, f.centroid),
            VectorOr(attrs, UDirKey, f.uDir),
            VectorOr(attrs, VDirKey, f.vDir))
  }

  function CreateEdge(attrs: AttrMap): (r: Reference)
    ensures r.RefEdge? && r.refType == TopoEdge
    ensures r.parentFeatureID == LookupString(attrs, ParentKey).GetOr("")
    ensures r.topologyIndex == LookupInt(attrs, IndexKey).GetOr(-1)
    ensures r.midPoint == PointOr(attrs, MidPointKey, Zero)
    ensures r.startPoint == Zero && r.endPoint == Zero
  {
    var e := NewRefEdge();
    e.(parentFeatureID := LookupString(attrs, ParentKey).GetOr(e.parentFeatureID),
       topologyIndex := LookupInt(attrs, IndexKey).GetOr(e.topologyIndex),
       midPoint := PointOr(attrs, MidPointKey, e.midPoint))
  }

  function CreateVertex(attrs: AttrMap): (r: Reference)
    ensures r.RefVertex? && r.refType == TopoVertex
    ensures r.parentFeatureID == LookupString(attrs, ParentKey).GetOr("")
    ensures r.topologyIndex == LookupInt(attrs, IndexKey).GetOr(-1)
    ensures r.pos == PointOr(attrs, PosKey, Zero)
  {
    var v := NewRefVertex();
    v.(parentFeatureID := LookupString(attrs, ParentKey).GetOr(v.parentFeatureID),
       topologyIndex := LookupInt(attrs, IndexKey).GetOr(v.topologyIndex),
       pos := PointOr(attrs, PosKey, v.pos))
  }

  function CreateSketchSegment(attrs: AttrMap): (r: Reference)
    ensures r.RefSketchSeg? && r.refType == TopoSketchSeg
    ensures r.parentFeatureID == LookupString(attrs, ParentKey).GetOr("")
    ensures r.topologyIndex == LookupInt(attrs, IndexKey).GetOr(-1)
    ensures r.segmentLocalID == LookupString(attrs, SegmentKey).GetOr("")
  {
    var s := NewRefSketchSeg();
    s.(parentFeatureID := LookupString(attrs, ParentKey).GetOr(s.parentFeatureID),
       topologyIndex := LookupInt(attrs, IndexKey).GetOr(s.topologyIndex),
       segmentLocalID := LookupString(attrs, SegmentKey).GetOr(s.segmentLocalID))
  }

  function CreateSketch(attrs: AttrMap): (r: Reference)
    ensures r.RefSketch? && r.refType == FeatureWholeSketch
    ensures r.targetFeatureID == LookupString(attrs, TargetKey).GetOr("")
  {
    RefSketch(NewRefSketch().refType, LookupString(attrs, TargetKey).GetOr(""))
  }

  /** A plane: yDir from the map when present, else the normalised cross product of normal and xDir. */
  function CreatePlane(attrs: AttrMap): (r: Reference)
    ensures r.RefPlane? && r.refType == FeatureDatumPlane
  {
    var p := NewRefPlane();
    var origin := PointOr(attrs, OriginKey, p.origin);
    var xDir := VectorOr(attrs, XDirKey, p.xDir);
    var normal := VectorOr(attrs, NormalKey, p.normal);
    var yDir := if LookupVector(attrs, YDirKey).Some? then ToCVec(LookupVector(attrs, YDirKey).value)
                else Normalized(Cross(normal, xDir));
    RefPlane(p.refType, LookupString(attrs, TargetKey).GetOr(""), origin, xDir, yDir, normal)
  }

  /** A bare CRefFeature of the given type holding only targetFeatureID. */
  function CreateFeatureRef(t: RefType, attrs: AttrMap): (r: Reference)
    ensures r.RefFeature? && r.refType == t
    ensures r.targetFeatureID == LookupString(attrs, TargetKey).GetOr("")
  {
    RefFeature(NewRefFeature(t).refType, LookupString(attrs, TargetKey).GetOr(""))
  }

  /** The RefType the factory's result carries for each kind. */
  function KindRefType(kind: ReferenceKind): RefType
  {
    match kind
    case FaceRef => TopoFace
    case EdgeRef => TopoEdge
    case VertexRef => TopoVertex
    case SketchSegmentRef => TopoSketchSeg
    case SketchRef => FeatureWholeSketch
    case DatumPlaneRef => FeatureDatumPlane
    case DatumAxisRef => FeatureDatumAxis
    case DatumPointRef => FeatureDatumPoint
  }

  /** The class each kind builds: a bare feature reference for datum axes and points. */
  predicate ClassOf(kind: ReferenceKind, r: Reference)
  {
    match kind
    case FaceRef => r.RefFace?
    case EdgeRef => r.RefEdge?
    case VertexRef => r.RefVertex?
    case SketchSegmentRef => r.RefSketchSeg?
    case SketchRef => r.RefSketch?
    case DatumPlaneRef => r.RefPlane?
    case DatumAxisRef => r.RefFeature?
    case DatumPointRef => r.RefFeature?
  }

  /** ReferenceFactory::Create for the eight declared kinds. */
  function Create(kind: ReferenceKind, attrs: AttrMap): Reference
  {
    match kind
    case FaceRef => CreateFace(attrs)
    case EdgeRef => CreateEdge(attrs)
    case VertexRef => CreateVertex(attrs)
    case SketchSegmentRef => CreateSketchSegment(attrs)
    case SketchRef => CreateSketch(attrs)
    case DatumPlaneRef => CreatePlane(attrs)
    case DatumAxisRef => CreateFeatureRef(FeatureDatumAxis, attrs)
    case DatumPointRef => CreateFeatureRef(FeatureDatumPoint, attrs)
  }

  /**
   * Every kind other than a datum plane builds an object of its own class
   * whose refType is the one that class fixes. A datum plane is built by
   * CreatePlane, whose own contract says the same of it.
   */
  lemma {:induction false} CreateClass(kind: ReferenceKind, attrs: AttrMap)
    requires kind != DatumPlaneRef
    ensures Create(kind, attrs).refType == KindRefType(kind) && WellTyped(Create(kind, attrs))
    ensures ClassOf(kind, Create(kind, attrs))
  {
  }

  const UnsupportedKindError: string := "Unsupported reference kind"

  /** The kind with the given underlying value of the enum class, if it is one of the eight. */
  function KindOfCode(code: int): (k: Option<ReferenceKind>)
    ensures k.Some? <==> 0 <= code < 8
  {
    if code == 0 then Some(FaceRef)
    else if code == 1 then Some(EdgeRef)
    else if code == 2 then Some(VertexRef)
    else if code == 3 then Some(SketchSegmentRef)
    else if code == 4 then Some(SketchRef)
    else if code == 5 then Some(DatumPlaneRef)
    else if code == 6 then Some(DatumAxisRef)
    else if code == 7 then Some(DatumPointRef)
    else None
  }

  /**
   * Create called with any value of the enum's underlying type: a value
   * outside the switch gives null and the "Unsupported reference kind"
   * error.
   */
  function CreateByCode(code: int, attrs: AttrMap): (r: Result<Reference>)
    ensures r.Err? <==> !(0 <= code < 8)
    ensures r.Err? ==> r.message == UnsupportedKindError
    ensures r.Ok? ==> r.value == Create(KindOfCode(code).value, attrs)
  {
    var k := KindOfCode(code);
    if k.Some? then Ok(Create(k.value, attrs)) else Err(UnsupportedKindError)
  }

  /** With an empty map every kind gives the default object of its class. */
  lemma {:induction false} CreateOfEmptyMap(kind: ReferenceKind)
    ensures kind == FaceRef ==> Create(kind, map[]) == NewRefFace()
    ensures kind == EdgeRef ==> Create(kind, map[]) == NewRefEdge()
    ensures kind == VertexRef ==> Create(kind, map[]) == NewRefVertex()
    ensures kind == SketchSegmentRef ==> Create(kind, map[]) == NewRefSketchSeg()
    ensures kind == SketchRef ==> Create(kind, map[]) == NewRefSketch()
    ensures kind == DatumAxisRef ==> Create(kind, map[]) == NewRefFeature(FeatureDatumAxis)
    ensures kind == DatumPointRef ==> Create(kind, map[]) == NewRefFeature(FeatureDatumPoint)
    ensures kind == DatumPlaneRef ==> Create(kind, map[]) == NewRefPlane()
  {
    if kind == DatumPlaneRef {
      EmptyPlane();
    }
  }

  /** With no key the plane's normal and xDir are zero, and so is the normalised cross product. */
  lemma EmptyPlane()
    ensures CreatePlane(map[]) == NewRefPlane()
  {
    var empty: AttrMap := map[];
    var y := Cross(VectorOr(empty, NormalKey, Zero), VectorOr(empty, XDirKey, Zero));
    assert y == Zero;
    ZeroNotNormalized();
  }

  lemma ZeroNotNormalized()
    ensures Normalized(Zero) == Zero
  {
    assert SquaredLength(Zero) == 0.0;
  }

  /** The keys each kind reads. */
  function KeysOf(kind: ReferenceKind): set<string>
  {
    match kind
    case FaceRef => {ParentKey, IndexKey, CentroidKey, NormalKey, UDirKey, VDirKey}
    case EdgeRef => {ParentKey, IndexKey, MidPointKey}
    case VertexRef => {ParentKey, IndexKey, PosKey}
    case SketchSegmentRef => {ParentKey, IndexKey, SegmentKey}
    case SketchRef => {TargetKey}
    case DatumPlaneRef => {TargetKey, OriginKey, XDirKey, NormalKey, YDirKey}
    case DatumAxisRef => {TargetKey}
    case DatumPointRef => {TargetKey}
  }

  /** A key a kind does not read has no influence on what it builds. */
  lemma {:induction false} OtherKeysIgnored(kind: ReferenceKind, attrs: AttrMap, key: string, v: AttrValue)
    requires key !in KeysOf(kind)
    ensures Create(kind, attrs[key := v]) == Create(kind, attrs)
  {
    var a := attrs[key := v];
    forall k | k in KeysOf(kind)
      ensures LookupString(a, k) == LookupString(attrs, k) && LookupInt(a, k) == LookupInt(attrs, k)
      ensures LookupPoint(a, k) == LookupPoint(attrs, k) && LookupVector(a, k) == LookupVector(attrs, k)
    {
      assert k != key;
    }
  }

  /** The attribute map that describes a face completely. */
  function FaceAttributes(r: Reference): AttrMap
    requires r.RefFace?
  {
    map[ParentKey := StringValue(r.parentFeatureID), IndexKey := IntValue(r.topologyIndex),
        NormalKey := VectorValue(FromCVec(r.normal)), CentroidKey := PointValue(FromCVec(r.centroid)),
        UDirKey := VectorValue(FromCVec(r.uDir)), VDirKey := VectorValue(FromCVec(r.vDir))]
  }

  /** The attribute map that describes a plane completely. */
  function PlaneAttributes(r: Reference): AttrMap
    requires r.RefPlane?
  {
    map[TargetKey := StringValue(r.targetFeatureID), OriginKey := PointValue(FromCVec(r.origin)),
        XDirKey := VectorValue(FromCVec(r.xDir)), NormalKey := VectorValue(FromCVec(r.normal)),
        YDirKey := VectorValue(FromCVec(r.yDir))]
  }

  /** The attribute map that describes an edge: the factory reads only its midpoint. */
  function EdgeAttributes(r: Reference): AttrMap
    requires r.RefEdge?
  {
    map[ParentKey := StringValue(r.parentFeatureID), IndexKey := IntValue(r.topologyIndex),
        MidPointKey := PointValue(FromCVec(r.midPoint))]
  }

  function VertexAttributes(r: Reference): AttrMap
    requires r.RefVertex?
  {
    map[ParentKey := StringValue(r.parentFeatureID), IndexKey := IntValue(r.topologyIndex),
        PosKey := PointValue(FromCVec(r.pos))]
  }

  function SketchSegmentAttributes(r: Reference): AttrMap
    requires r.RefSketchSeg?
  {
    map[ParentKey := StringValue(r.parentFeatureID), IndexKey := IntValue(r.topologyIndex),
        SegmentKey := StringValue(r.segmentLocalID)]
  }

  /** The map for a whole-sketch or bare feature reference: its target alone. */
  function TargetAttributes(r: Reference): AttrMap
    requires r.RefSketch? || r.RefFeature?
  {
    map[TargetKey := StringValue(r.targetFeatureID)]
  }

  /** An edge is rebuilt from its keys, except its end points, which the factory never sets. */
  lemma EdgeFromAttributes(r: Reference)
    requires r.RefEdge? && r.refType == TopoEdge
    ensures Create(EdgeRef, EdgeAttributes(r)) == r.(startPoint := Zero, endPoint := Zero)
  {
  }

  lemma VertexFromAttributes(r: Reference)
    requires r.RefVertex? && r.refType == TopoVertex
    ensures Create(VertexRef, VertexAttributes(r)) == r
  {
  }

  lemma SketchSegmentFromAttributes(r: Reference)
    requires r.RefSketchSeg? && r.refType == TopoSketchSeg
    ensures Create(SketchSegmentRef, SketchSegmentAttributes(r)) == r
  {
  }

  lemma SketchFromAttributes(r: Reference)
    requires r.RefSketch? && r.refType == FeatureWholeSketch
    ensures Create(SketchRef, TargetAttributes(r)) == r
  {
  }

  /** A datum axis or point kind builds the bare feature reference of its type with the target given. */
  lemma FeatureRefFromAttributes(kind: ReferenceKind, r: Reference)
    requires kind == DatumAxisRef || kind == DatumPointRef
    requires r.RefFeature? && r.refType == KindRefType(kind)
    ensures Create(kind, TargetAttributes(r)) == r
  {
  }

  /** A face given by all its keys is rebuilt exactly. */
  lemma FaceFromAttributes(r: Reference)
    requires r.RefFace? && r.refType == TopoFace
    ensures Create(FaceRef, FaceAttributes(r)) == r
  {
  }

  /** A plane given by all its keys is rebuilt exactly, yDir included. */
  lemma PlaneFromAttributes(r: Reference)
    requires r.RefPlane? && r.refType == FeatureDatumPlane
    ensures Create(DatumPlaneRef, PlaneAttributes(r)) == r
  {
  }

  /** Without a yDir key the plane's Y axis is the normalised cross product of the normal and xDir read. */
  lemma {:induction false} PlaneYReconstructed(attrs: AttrMap)
    requires LookupVector(attrs, YDirKey).None?
    ensures Create(DatumPlaneRef, attrs).yDir ==
            Normalized(Cross(Create(DatumPlaneRef, attrs).normal, Create(DatumPlaneRef, attrs).xDir))
  {
  }

  /** A value of the wrong alternative counts as absent: a double under topologyIndex keeps -1. */
  lemma WrongAlternativeIgnored(d: real)
    ensures Create(FaceRef, map[IndexKey := DoubleValue(d)]).topologyIndex == -1
    ensures Create(EdgeRef, map[ParentKey := IntValue(3)]).parentFeatureID == ""
  {
  }
}
