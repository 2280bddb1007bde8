/**
 * The cereal field lists of serialization/UnifiedSerialization.h. Each
 * serialize function names the fields of one type in order. The same list
 * drives saving and loading, and a derived type writes its base class's list
 * first. An archive is a list of named values:
 *  - a struct is a Node of its fields;
 *  - a non-null polymorphic pointer is a Poly carrying its registered class name;
 *  - a null pointer or an empty optional is Null;
 *  - a vector is a List;
 *  - an enum is its underlying Int.
 * Loading a Poly builds a default object of the named class and fills in the
 * listed fields, so any field that is not listed keeps its default value.
 */
module FieldLists {
  import opened Wrappers
  import opened Geometry
  import opened Features
  import opened EnumCodes

  datatype Value =
    | Dbl(d: real)
    | Int(i: int)
    | Flag(b: bool)
    | Str(s: string)
    | Node(fields: seq<Field>)
    | Poly(className: string, fields: seq<Field>)
    | Null
    | List(items: seq<Value>)

  datatype Field = Field(name: string, value: Value)

  /** The names of a field list, in order. */
  function Names(fs: seq<Field>): (r: seq<string>)
    ensures |r| == |fs| && forall i :: 0 <= i < |fs| ==> r[i] == fs[i].name
  {
    if fs == [] then [] else Names(fs[..|fs| - 1]) + [fs[|fs| - 1].name]
  }

  /** A non-empty list is its front followed by its last element. */
  lemma SplitLast<T>(s: seq<T>)
    requires |s| > 0
    ensures s == s[..|s| - 1] + [s[|s| - 1]]
  {
  }

  // The field lists, each derived list starting with its base's list

  const RefBaseFields: seq<string> := ["RefType"]
  const FeatureRefFields: seq<string> := RefBaseFields + ["TargetFeatureID"]
  const SubTopoFields: seq<string> := RefBaseFields + ["ParentFeature", "TopologyIndex"]
  const PlaneFields: seq<string> := FeatureRefFields + ["Origin", "XDir", "YDir", "Normal"]
  const SketchRefFields: seq<string> := FeatureRefFields
  const FaceFields: seq<string> := SubTopoFields + ["Normal", "Centroid"]
  const EdgeFields: seq<string> := SubTopoFields + ["MidPoint"]
  const VertexFields: seq<string> := SubTopoFields + ["Position"]
  const SketchSegRefFields: seq<string> := SubTopoFields + ["SegmentLocalID"]

  const TripleFields: seq<string> := ["x", "y", "z"]

  const SegBaseFields: seq<string> := ["LocalID", "Construction"]
  const LineFields: seq<string> := SegBaseFields + ["Start", "End"]
  const CircleFields: seq<string> := SegBaseFields + ["Center", "Radius"]
  const ArcFields: seq<string> := SegBaseFields + ["Center", "Radius", "StartAngle", "EndAngle", "Clockwise"]
  const PointFields: seq<string> := SegBaseFields + ["Position"]
  const ConstraintFields: seq<string> := ["Type", "Entities", "Dimension"]

  const DraftFields: seq<string> := ["Angle", "Outward"]
  const ThinWallFields: seq<string> := ["Thickness", "OneSided", "Covered"]
  const EndConditionFields: seq<string> :=
    ["Type", "Depth", "Offset", "HasOffset", "Reference", "Flip", "FlipMaterialSide"]
  const AxisFields: seq<string> := ["Kind", "ReferenceLocalID", "ReferenceEntity", "Origin", "Direction"]

  const FeatureBaseFields: seq<string> := ["ID", "Name", "Suppressed"]
  const SketchFields: seq<string> := FeatureBaseFields + ["Plane", "Segments", "Constraints"]
  const ExtrudeFields: seq<string> := FeatureBaseFields +
    ["Profile", "Direction", "Operation", "EndCondition1", "EndCondition2", "Draft", "ThinWall"]
  const RevolveFields: seq<string> := FeatureBaseFields +
    ["ProfileSketchID", "Axis", "AngleKind", "PrimaryAngle", "SecondaryAngle"]

  // Reading scalar values

  function AsDbl(v: Value): (r: Option<real>)
    ensures r.Some? <==> v.Dbl?
    ensures r.Some? ==> r.value == v.d
  {
    if v.Dbl? then Some(v.d) else None
  }

  function AsInt(v: Value): (r: Option<int>)
    ensures r.Some? <==> v.Int?
    ensures r.Some? ==> r.value == v.i
  {
    if v.Int? then Some(v.i) else None
  }

  function AsFlag(v: Value): (r: Option<bool>)
    ensures r.Some? <==> v.Flag?
    ensures r.Some? ==> r.value == v.b
  {
    if v.Flag? then Some(v.b) else None
  }

  function AsStr(v: Value): (r: Option<string>)
    ensures r.Some? <==> v.Str?
    ensures r.Some? ==> r.value == v.s
  {
    if v.Str? then Some(v.s) else None
  }

  /** An enum field: the Int must hold one of the declared enumerators. */
  function AsRefType(v: Value): Option<RefType>
  {
    if v.Int? then RefTypeOfCode(v.i) else None
  }

  // Points and vectors

  function TripleValue(p: Vector3D): Value
  {
    Node([Field("x", Dbl(p.x)), Field("y", Dbl(p.y)), Field("z", Dbl(p.z))])
  }

  function LoadTriple(v: Value): (r: Option<Vector3D>)
    ensures r.Some? ==> v == TripleValue(r.value)
  {
    if v.Node? && Names(v.fields) == TripleFields && v.fields[0].value.Dbl? &&
       v.fields[1].value.Dbl? && v.fields[2].value.Dbl?
    then
      assert v.fields == [v.fields[0], v.fields[1], v.fields[2]];
      Some(Vec3(v.fields[0].value.d, v.fields[1].value.d, v.fields[2].value.d))
    else None
  }

  /** A point or vector is restored exactly. */
  lemma TripleRoundTrip(p: Vector3D)
    ensures LoadTriple(TripleValue(p)) == Some(p)
  {
    assert Names(TripleValue(p).fields) == TripleFields;
  }

  // References

  /** The classes the registry registers; CRefAxis and CRefPoint are not among them. */
  predicate Registered(r: Reference)
  {
    !r.RefAxis? && !r.RefPoint?
  }

  function OptRegistered(r: Option<Reference>): bool
  {
    r.Some? ==> Registered(r.value)
  }

  function RefClassName(r: Reference): string
  {
    match r
    case RefFeature(_, _) => "CRefFeature"
    case RefPlane(_, _, _, _, _, _) => "CRefPlane"
    case RefSketch(_, _) => "CRefSketch"
    case RefAxis(_, _, _, _) => "CRefAxis"
    case RefPoint(_, _, _) => "CRefPoint"
    case RefFace(_, _, _, _, _, _, _) => "CRefFace"
    case RefEdge(_, _, _, _, _, _) => "CRefEdge"
    case RefVertex(_, _, _, _) => "CRefVertex"
    case RefSketchSeg(_, _, _, _) => "CRefSketchSeg"
  }

  /** The field list each registered reference class writes. */
  function RefFieldNames(r: Reference): seq<string>
    requires Registered(r)
  {
    match r
    case RefFeature(_, _) => FeatureRefFields
    case RefPlane(_, _, _, _, _, _) => PlaneFields
    case RefSketch(_, _) => SketchRefFields
    case RefFace(_, _, _, _, _, _, _) => FaceFields
    case RefEdge(_, _, _, _, _, _) => EdgeFields
    case RefVertex(_, _, _, _) => VertexFields
    case RefSketchSeg(_, _, _, _) => SketchSegRefFields
  }

  function RefFieldList(r: Reference): (fs: seq<Field>)
    requires Registered(r)
    ensures Names(fs) == RefFieldNames(r)
  {
    var base := [Field("RefType", Int(RefTypeCode(r.refType)))];
    match r
    case RefFeature(_, id) => base + [Field("TargetFeatureID", Str(id))]
    case RefSketch(_, id) => base + [Field("TargetFeatureID", Str(id))]
    case RefPlane(_, id, o, x, y, n) =>
      base + [Field("TargetFeatureID", Str(id)), Field("Origin", TripleValue(o)), Field("XDir", TripleValue(x)),
              Field("YDir", TripleValue(y)), Field("Normal", TripleValue(n))]
    case RefFace(_, p, k, n, c, _, _) =>
      base + [Field("ParentFeature", Str(p)), Field("TopologyIndex", Int(k)),
              Field("Normal", TripleValue(n)), Field("Centroid", TripleValue(c))]
    case RefEdge(_, p, k, m, _, _) =>
      base + [Field("ParentFeature", Str(p)), Field("TopologyIndex", Int(k)), Field("MidPoint", TripleValue(m))]
    case RefVertex(_, p, k, pos) =>
      base + [Field("ParentFeature", Str(p)), Field("TopologyIndex", Int(k)), Field("Position", TripleValue(pos))]
    case RefSketchSeg(_, p, k, seg) =>
      base + [Field("ParentFeature", Str(p)), Field("TopologyIndex", Int(k)), Field("SegmentLocalID", Str(seg))]
  }

  /** A null pointer is Null; any other reference is a Poly of its class. */
  function RefValue(r: Option<Reference>): Value
    requires OptRegistered(r)
  {
    if r.None? then Null else Poly(RefClassName(r.value), RefFieldList(r.value))
  }

  /** What a reference is after a save and a load: the fields that are not listed are back at their defaults. */
  function StoredRef(r: Reference): (s: Reference)
    ensures s.refType == r.refType && RefClassName(s) == RefClassName(r)
  {
    match r
    case RefFace(_, _, _, _, _, _, _) => r.(uDir := DefaultUDir, vDir := DefaultVDir)
    case RefEdge(_, _, _, _, _, _) => r.(startPoint := Zero, endPoint := Zero)
    case _ => r
  }

  function StoredOptRef(r: Option<Reference>): Option<Reference>
  {
    if r.None? then None else Some(StoredRef(r.value))
  }

  /** CRefFeature and CRefSketch: RefType and TargetFeatureID. */
  function LoadFeatureRefFields(sketch: bool, fs: seq<Field>): Option<Reference>
  {
    if Names(fs) != FeatureRefFields then None
    else
      var t := AsRefType(fs[0].value);
      var id := AsStr(fs[1].value);
      if t.None? || id.None? then None
      else if sketch then Some(RefSketch(t.value, id.value))
      else Some(RefFeature(t.value, id.value))
  }

  function LoadPlaneFields(fs: seq<Field>): Option<Reference>
  {
    if Names(fs) != PlaneFields then None
    else
      var t := AsRefType(fs[0].value);
      var id := AsStr(fs[1].value);
      var o := LoadTriple(fs[2].value);
      var x := LoadTriple(fs[3].value);
      var y := LoadTriple(fs[4].value);
      var n := LoadTriple(fs[5].value);
      if t.None? || id.None? || o.None? || x.None? || y.None? || n.None? then None
      else Some(RefPlane(t.value, id.value, o.value, x.value, y.value, n.value))
  }

  /** A face keeps the default uDir and vDir of a new CRefFace. */
  function LoadFaceFields(fs: seq<Field>): Option<Reference>
  {
    if Names(fs) != FaceFields then None
    else
      var t := AsRefType(fs[0].value);
      var p := AsStr(fs[1].value);
      var k := AsInt(fs[2].value);
      var n := LoadTriple(fs[3].value);
      var c := LoadTriple(fs[4].value);
      if t.None? || p.None? || k.None? || n.None? || c.None? then None
      else Some(RefFace(t.value, p.value, k.value, n.value, c.value, DefaultUDir, DefaultVDir))
  }

  /** An edge keeps the zero start and end points of a new CRefEdge. */
  function LoadEdgeFields(fs: seq<Field>): Option<Reference>
  {
    if Names(fs) != EdgeFields then None
    else
      var t := AsRefType(fs[0].value);
      var p := AsStr(fs[1].value);
      var k := AsInt(fs[2].value);
      var m := LoadTriple(fs[3].value);
      if t.None? || p.None? || k.None? || m.None? then None
      else Some(RefEdge(t.value, p.value, k.value, m.value, Zero, Zero))
  }

  function LoadVertexFields(fs: seq<Field>): Option<Reference>
  {
    if Names(fs) != VertexFields then None
    else
      var t := AsRefType(fs[0].value);
      var p := AsStr(fs[1].value);
      var k := AsInt(fs[2].value);
      var pos := LoadTriple(fs[3].value);
      if t.None? || p.None? || k.None? || pos.None? then None
      else Some(RefVertex(t.value, p.value, k.value, pos.value))
  }

  function LoadSketchSegRefFields(fs: seq<Field>): Option<Reference>
  {
    if Names(fs) != SketchSegRefFields then None
    else
      var t := AsRefType(fs[0].value);
      var p := AsStr(fs[1].value);
      var k := AsInt(fs[2].value);
      var seg := AsStr(fs[3].value);
      if t.None? || p.None? || k.None? || seg.None? then None
      else Some(RefSketchSeg(t.value, p.value, k.value, seg.value))
  }

  /** The registered class named in the archive is built and filled from its field list. */
  function LoadRefFields(cls: string, fs: seq<Field>): Option<Reference>
  {
    if cls == "CRefFeature" then LoadFeatureRefFields(false, fs)
    else if cls == "CRefSketch" then LoadFeatureRefFields(true, fs)
    else if cls == "CRefPlane" then LoadPlaneFields(fs)
    else if cls == "CRefFace" then LoadFaceFields(fs)
    else if cls == "CRefEdge" then LoadEdgeFields(fs)
    else if cls == "CRefVertex" then LoadVertexFields(fs)
    else if cls == "CRefSketchSeg" then LoadSketchSegRefFields(fs)
    else None
  }

  /** A pointer field: Null is a null pointer; a Poly must load; anything else fails. */
  function LoadRef(v: Value): Option<Option<Reference>>
  {
    if v.Null? then Some(None)
    else if !v.Poly? then None
    else
      var r := LoadRefFields(v.className, v.fields);
      if r.None? then None else Some(Some(r.value))
  }

  lemma PlaneRoundTrip(r: Reference)
    requires r.RefPlane?
    ensures LoadPlaneFields(RefFieldList(r)) == Some(r)
  {
    TripleRoundTrip(r.origin); TripleRoundTrip(r.xDir); TripleRoundTrip(r.yDir); TripleRoundTrip(r.normal);
  }

  lemma FaceRoundTrip(r: Reference)
    requires r.RefFace?
    ensures LoadFaceFields(RefFieldList(r)) == Some(StoredRef(r))
  {
    TripleRoundTrip(r.normal); TripleRoundTrip(r.centroid);
  }

  lemma EdgeRoundTrip(r: Reference)
    requires r.RefEdge?
    ensures LoadEdgeFields(RefFieldList(r)) == Some(StoredRef(r))
  {
    TripleRoundTrip(r.midPoint);
  }

  lemma VertexRoundTrip(r: Reference)
    requires r.RefVertex?
    ensures LoadVertexFields(RefFieldList(r)) == Some(r)
  {
    TripleRoundTrip(r.pos);
  }

  /** Every registered reference loads back as its stored form. */
  lemma RefRoundTrip(r: Reference)
    requires Registered(r)
    ensures LoadRefFields(RefClassName(r), RefFieldList(r)) == Some(StoredRef(r))
  {
    if r.RefPlane? {
      PlaneRoundTrip(r);
    } else if r.RefFace? {
      FaceRoundTrip(r);
    } else if r.RefEdge? {
      EdgeRoundTrip(r);
    } else if r.RefVertex? {
      VertexRoundTrip(r);
    }
  }

  lemma OptRefRoundTrip(r: Option<Reference>)
    requires OptRegistered(r)
    ensures LoadRef(RefValue(r)) == Some(StoredOptRef(r))
  {
    if r.Some? {
      RefRoundTrip(r.value);
    }
  }

  /** The references that lose fields: a face its uDir and vDir, an edge its start and end points. */
  lemma StoredRefLosses(r: Reference)
    ensures r.RefFace? ==> StoredRef(r).uDir == DefaultUDir && StoredRef(r).vDir == DefaultVDir &&
                           StoredRef(r).normal == r.normal && StoredRef(r).centroid == r.centroid
    ensures r.RefEdge? ==> StoredRef(r).midPoint == r.midPoint &&
                           StoredRef(r).startPoint == Zero && StoredRef(r).endPoint == Zero
    ensures !r.RefFace? && !r.RefEdge? ==> StoredRef(r) == r
  {
  }
}
