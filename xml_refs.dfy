/**
 * Saving and loading reference entities as XML elements: the per-kind
 * registry of save and load functions and SaveRefEntity / LoadRefEntity of
 * src/TinyXMLSerializer.cpp.
 */
module XmlRefCodec {
  import opened Wrappers
  import opened Text
  import opened Geometry
  import opened Features
  import opened Xml
  import opened XmlNames
  import opened XmlTriples

  /** SaveFeatureReference: the target ID is written for any feature reference. */
  function SaveFeatureReference(e: Element, r: Reference): (out: Element)
    ensures r.IsFeatureRef() ==> out == SetAttribute(e, "TargetFeatureID", r.targetFeatureID)
    ensures !r.IsFeatureRef() ==> out == e
  {
    if r.IsFeatureRef() then SetAttribute(e, "TargetFeatureID", r.targetFeatureID) else e
  }

  /** The text of an attribute, or the given default when it is absent. */
  function AttributeOr(e: Element, name: string, default: string): (s: string)
    ensures name in e.attrs ==> s == e.attrs[name]
    ensures name !in e.attrs ==> s == default
  {
    if name in e.attrs then e.attrs[name] else default
  }

  /** LoadFeatureReference: a bare feature reference of the given kind. */
  function LoadFeatureReference(e: Element, t: RefType): (r: Reference)
    ensures r.RefFeature? && r.refType == t
    ensures r.targetFeatureID == AttributeOr(e, "TargetFeatureID", "")
  {
    RefFeature(t, AttributeOr(e, "TargetFeatureID", ""))
  }

  /** ComputePlaneYAxis: the normalised cross product of the normal and the X direction. */
  function ComputePlaneYAxis(normal: Vector3D, xDir: Vector3D): (y: Vector3D)
    ensures SquaredLength(Cross(normal, xDir)) <= Epsilon * Epsilon ==> y == Cross(normal, xDir)
  {
    Normalized(Cross(normal, xDir))
  }

  function SavePlane(f: RealFormat, e: Element, r: Reference): Element
  {
    if r.RefPlane? then
      var e1 := SetAttribute(e, "TargetFeatureID", r.targetFeatureID);
      var e2 := SetVecAttribute(f, e1, "Origin", r.origin);
      var e3 := SetVecAttribute(f, e2, "XDir", r.xDir);
      var e4 := SetVecAttribute(f, e3, "YDir", r.yDir);
      SetVecAttribute(f, e4, "Normal", r.normal)
    else e
  }

  function SaveSketchRef(e: Element, r: Reference): Element
  {
    if r.RefSketch? then SetAttribute(e, "TargetFeatureID", r.targetFeatureID) else e
  }

  function SaveFace(f: RealFormat, e: Element, r: Reference): Element
  {
    if r.RefFace? then
      var e1 := SetAttribute(e, "ParentFeatureID", r.parentFeatureID);
      var e2 := SetIntAttribute(e1, "TopologyIndex", r.topologyIndex);
      var e3 := SetVecAttribute(f, e2, "U", r.uDir);
      var e4 := SetVecAttribute(f, e3, "V", r.vDir);
      var e5 := SetVecAttribute(f, e4, "Normal", r.normal);
      SetVecAttribute(f, e5, "Center", r.centroid)
    else e
  }

  function SaveEdge(f: RealFormat, e: Element, r: Reference): Element
  {
    if r.RefEdge? then
      var e1 := SetAttribute(e, "ParentFeatureID", r.parentFeatureID);
      var e2 := SetIntAttribute(e1, "TopologyIndex", r.topologyIndex);
      SetVecAttribute(f, e2, "MidPoint", r.midPoint)
    else e
  }

  function SaveVertex(f: RealFormat, e: Element, r: Reference): Element
  {
    if r.RefVertex? then
      var e1 := SetAttribute(e, "ParentFeatureID", r.parentFeatureID);
      var e2 := SetIntAttribute(e1, "TopologyIndex", r.topologyIndex);
      SetVecAttribute(f, e2, "Position", r.pos)
    else e
  }

  function SaveSketchSegRef(e: Element, r: Reference): Element
  {
    if r.RefSketchSeg? then
      var e1 := SetAttribute(e, "ParentFeatureID", r.parentFeatureID);
      var e2 := SetIntAttribute(e1, "TopologyIndex", r.topologyIndex);
      if r.segmentLocalID != "" then SetAttribute(e2, "SegmentLocalID", r.segmentLocalID) else e2
    else e
  }

  /**
   * The save function of the registry entry for kind t. Each one writes only
   * when the reference is of the matching class (the dynamic_pointer_cast in
   * the source); axis and point entries write the target ID of any feature
   * reference.
   */
  function SaveByEntry(f: RealFormat, e: Element, t: RefType, r: Reference): Element
  {
    match t
    case FeatureDatumPlane => SavePlane(f, e, r)
    case FeatureDatumAxis => SaveFeatureReference(e, r)
    case FeatureDatumPoint => SaveFeatureReference(e, r)
    case FeatureWholeSketch => SaveSketchRef(e, r)
    case TopoFace => SaveFace(f, e, r)
    case TopoEdge => SaveEdge(f, e, r)
    case TopoVertex => SaveVertex(f, e, r)
    case TopoSketchSeg => SaveSketchSegRef(e, r)
  }

  /** The Y direction of a loaded plane: YDir when present, computed otherwise. */
  function LoadPlaneYDir(f: RealFormat, e: Element, normal: Vector3D, xDir: Vector3D): Vector3D
  {
    if "YDir" in e.attrs then ParseVecAttribute(f, e, "YDir") else ComputePlaneYAxis(normal, xDir)
  }

  function LoadPlane(f: RealFormat, e: Element): Reference
  {
    var xDir := ParseVecAttribute(f, e, "XDir");
    var normal := ParseVecAttribute(f, e, "Normal");
    RefPlane(FeatureDatumPlane, AttributeOr(e, "TargetFeatureID", ""),
             ParseVecAttribute(f, e, "Origin"), xDir, LoadPlaneYDir(f, e, normal, xDir), normal)
  }

  function LoadFace(f: RealFormat, e: Element): Reference
  {
    RefFace(TopoFace, AttributeOr(e, "ParentFeatureID", ""), QueryInt(e, "TopologyIndex", -1),
            ParseVecAttribute(f, e, "Normal"), ParseVecAttribute(f, e, "Center"),
            ParseVecAttribute(f, e, "U"), ParseVecAttribute(f, e, "V"))
  }

  function LoadEdge(f: RealFormat, e: Element): Reference
  {
    RefEdge(TopoEdge, AttributeOr(e, "ParentFeatureID", ""), QueryInt(e, "TopologyIndex", -1),
            ParseVecAttribute(f, e, "MidPoint"), Zero, Zero)
  }

  function LoadVertex(f: RealFormat, e: Element): Reference
  {
    RefVertex(TopoVertex, AttributeOr(e, "ParentFeatureID", ""), QueryInt(e, "TopologyIndex", -1),
              ParseVecAttribute(f, e, "Position"))
  }

  function LoadSketchSegRef(e: Element): Reference
  {
    RefSketchSeg(TopoSketchSeg, AttributeOr(e, "ParentFeatureID", ""), QueryInt(e, "TopologyIndex", -1),
                 AttributeOr(e, "SegmentLocalID", ""))
  }

  /**
   * The load function of the registry entry for kind t: a default object of
   * the entry's class with the attributes that are present read into it. A
   * plane without YDir computes it from the normal and the X direction.
   */
  function LoadByEntry(f: RealFormat, e: Element, t: RefType): Reference
  {
    match t
    case FeatureDatumPlane => LoadPlane(f, e)
    case FeatureDatumAxis => LoadFeatureReference(e, FeatureDatumAxis)
    case FeatureDatumPoint => LoadFeatureReference(e, FeatureDatumPoint)
    case FeatureWholeSketch => RefSketch(FeatureWholeSketch, AttributeOr(e, "TargetFeatureID", ""))
    case TopoFace => LoadFace(f, e)
    case TopoEdge => LoadEdge(f, e)
    case TopoVertex => LoadVertex(f, e)
    case TopoSketchSeg => LoadSketchSegRef(e)
  }

  /** The element SaveRefEntity builds for a reference under the given tag. */
  function SaveRefEntity(f: RealFormat, name: string, r: Reference): Element
  {
    var elem := NewElement(name);
    var entry := FindRefEntry(r.refType);
    if entry.Some? then SetAttribute(SaveByEntry(f, elem, entry.value.refType, r), "Type", entry.value.name)
    else SetAttribute(SaveFeatureReference(elem, r), "Type", RefTypeToString(r.refType))
  }

  /** SaveRefEntity into a parent: a null reference adds nothing; otherwise one child is appended. */
  function InsertRefEntity(f: RealFormat, parent: Element, name: string, r: Option<Reference>): (p: Element)
    ensures r.None? ==> p == parent
    ensures r.Some? ==> p == InsertEndChild(parent, SaveRefEntity(f, name, r.value))
  {
    if r.None? then parent else InsertEndChild(parent, SaveRefEntity(f, name, r.value))
  }

  /**
   * The first step of LoadRefEntity: a resolved kind loads through its
   * registry entry, and the axis and point kinds fall back to a bare feature
   * reference when they have no entry.
   */
  function LoadResolved(f: RealFormat, e: Element, resolved: Option<RefType>): Option<Reference>
  {
    if resolved.Some? then
      var entry := FindRefEntry(resolved.value);
      if entry.Some? then Some(LoadByEntry(f, e, entry.value.refType))
      else if resolved.value == FeatureDatumAxis || resolved.value == FeatureDatumPoint then
        Some(LoadFeatureReference(e, resolved.value))
      else None
    else None
  }

  /**
   * LoadRefEntity: no element or no Type gives null; a Type naming a registry
   * kind (in any letter case) loads through that entry; the legacy type
   * "feature" gives a bare datum-plane feature reference; the resolved kind is
   * written into the result's refType.
   */
  function LoadRefEntity(f: RealFormat, e: Option<Element>): Option<Reference>
  {
    if e.None? || "Type" !in e.value.attrs then None
    else
      var typeText := e.value.attrs["Type"];
      var resolved := RefTypeFromString(Some(typeText));
      var ref := LoadResolved(f, e.value, resolved);
      var ref' := if ref.None? && ToLower(typeText) == "feature" then Some(LoadFeatureReference(e.value, FeatureDatumPlane)) else ref;
      if ref'.Some? && resolved.Some? then Some(ref'.value.(refType := resolved.value)) else ref'
  }

  /** Every kind has an entry, so a resolved kind always loads through it. */
  lemma {:induction false} LoadResolvedSome(f: RealFormat, e: Element, t: RefType)
    ensures LoadResolved(f, e, Some(t)) == Some(LoadByEntry(f, e, t))
  {
    FindRefEntryTotal(t);
  }

  /** The face a load produces when the saved reference was not a face: absent U and V read as zero. */
  const LoadedDefaultFace: Reference := RefFace(TopoFace, "", -1, Zero, Zero, Zero, Zero)

  /**
   * What survives a save and load of a reference: the object is rebuilt as
   * the class of its refType's registry entry. A reference of that class
   * keeps every field the entry writes; any other reference comes back as
   * that class's default (an axis or point entry keeps the target ID of any
   * feature reference). Edge start and end points and the geometry of datum
   * axes and points are not written.
   */
  function RefSurvivor(r: Reference): Reference
  {
    match r.refType
    case FeatureDatumPlane =>
      if r.RefPlane? then RefPlane(FeatureDatumPlane, r.targetFeatureID, r.origin, r.xDir, r.yDir, r.normal)
      else NewRefPlane()
    case FeatureDatumAxis => RefFeature(FeatureDatumAxis, if r.IsFeatureRef() then r.targetFeatureID else "")
    case FeatureDatumPoint => RefFeature(FeatureDatumPoint, if r.IsFeatureRef() then r.targetFeatureID else "")
    case FeatureWholeSketch => if r.RefSketch? then RefSketch(FeatureWholeSketch, r.targetFeatureID) else NewRefSketch()
    case TopoFace =>
      if r.RefFace? then RefFace(TopoFace, r.parentFeatureID, r.topologyIndex, r.normal, r.centroid, r.uDir, r.vDir)
      else LoadedDefaultFace
    case TopoEdge =>
      if r.RefEdge? then RefEdge(TopoEdge, r.parentFeatureID, r.topologyIndex, r.midPoint, Zero, Zero)
      else NewRefEdge()
    case TopoVertex =>
      if r.RefVertex? then RefVertex(TopoVertex, r.parentFeatureID, r.topologyIndex, r.pos) else NewRefVertex()
    case TopoSketchSeg =>
      if r.RefSketchSeg? then RefSketchSeg(TopoSketchSeg, r.parentFeatureID, r.topologyIndex, r.segmentLocalID)
      else NewRefSketchSeg()
  }

  /** The element written for r carries its kind's registry name as Type. */
  lemma SavedTypeName(f: RealFormat, name: string, r: Reference)
    ensures SaveRefEntity(f, name, r).tag == name
    ensures Attribute(SaveRefEntity(f, name, r), "Type") == Some(RefTypeToString(r.refType))
    ensures RefTypeFromString(Attribute(SaveRefEntity(f, name, r), "Type")) == Some(r.refType)
  {
    FindRefEntryTotal(r.refType);
    RefTypeNamesRoundTrip(r.refType, "");
  }

  /** The TargetFeatureID, Origin, XDir, YDir and Normal attributes load as written. */
  lemma {:induction false} LoadPlaneFields(f: RealFormat, e: Element, target: string, o: Vec3, x: Vec3, y: Vec3, n: Vec3)
    requires Faithful(f)
    requires Attribute(e, "TargetFeatureID") == Some(target)
    requires Attribute(e, "Origin") == Some(FormatVec(f, o))
    requires Attribute(e, "XDir") == Some(FormatVec(f, x))
    requires Attribute(e, "YDir") == Some(FormatVec(f, y))
    requires Attribute(e, "Normal") == Some(FormatVec(f, n))
    ensures LoadPlane(f, e) == RefPlane(FeatureDatumPlane, target, o, x, y, n)
  {
    ParseVecOfText(f, e, "Origin", o);
    ParseVecOfText(f, e, "XDir", x);
    ParseVecOfText(f, e, "YDir", y);
    ParseVecOfText(f, e, "Normal", n);
  }

  /** The face attributes load as written. */
  lemma {:induction false} LoadFaceFields(f: RealFormat, e: Element, parent: string, index: int,
                                          u: Vec3, v: Vec3, n: Vec3, c: Vec3)
    requires Faithful(f)
    requires Attribute(e, "ParentFeatureID") == Some(parent)
    requires Attribute(e, "TopologyIndex") == Some(IntToString(index))
    requires Attribute(e, "U") == Some(FormatVec(f, u))
    requires Attribute(e, "V") == Some(FormatVec(f, v))
    requires Attribute(e, "Normal") == Some(FormatVec(f, n))
    requires Attribute(e, "Center") == Some(FormatVec(f, c))
    ensures LoadFace(f, e) == RefFace(TopoFace, parent, index, n, c, u, v)
  {
    ScanIntToString(index);
    ParseVecOfText(f, e, "U", u);
    ParseVecOfText(f, e, "V", v);
    ParseVecOfText(f, e, "Normal", n);
    ParseVecOfText(f, e, "Center", c);
  }

  /** An element holding only its Type loads as the entry's default object. */
  lemma {:induction false} LoadTypeOnlyPlane(f: RealFormat, e: Element)
    requires e.attrs.Keys == {"Type"}
    ensures LoadPlane(f, e) == NewRefPlane()
  {
    assert "TargetFeatureID" !in e.attrs && "YDir" !in e.attrs;
    ParseVecOfAbsent(f, e, "Origin");
    ParseVecOfAbsent(f, e, "XDir");
    ParseVecOfAbsent(f, e, "Normal");
    ComputePlaneYAxisOfZero();
  }

  lemma ComputePlaneYAxisOfZero()
    ensures ComputePlaneYAxis(Zero, Zero) == Zero
  {
  }

  lemma {:induction false} LoadTypeOnlyTopo(f: RealFormat, e: Element)
    requires e.attrs.Keys == {"Type"}
    ensures LoadFace(f, e) == LoadedDefaultFace
    ensures LoadEdge(f, e) == NewRefEdge()
    ensures LoadVertex(f, e) == NewRefVertex()
    ensures LoadSketchSegRef(e) == NewRefSketchSeg()
  {
    assert "ParentFeatureID" !in e.attrs && "TopologyIndex" !in e.attrs && "SegmentLocalID" !in e.attrs;
    ParseVecOfAbsent(f, e, "Normal");
    ParseVecOfAbsent(f, e, "U");
    ParseVecOfAbsent(f, e, "V");
    ParseVecOfAbsent(f, e, "Center");
    ParseVecOfAbsent(f, e, "MidPoint");
    ParseVecOfAbsent(f, e, "Position");
  }

  /** SaveRefEntity writes through the entry of r's own kind and then sets Type to the kind's name. */
  lemma {:induction false} SaveRefEntityUnfold(f: RealFormat, name: string, r: Reference)
    ensures SaveRefEntity(f, name, r) ==
      SetAttribute(SaveByEntry(f, NewElement(name), r.refType, r), "Type", RefTypeToString(r.refType))
  {
    FindRefEntryTotal(r.refType);
  }

  /** A Type that resolves to kind t loads through t's entry and gets t as its refType. */
  lemma {:induction false} LoadRefEntityResolved(f: RealFormat, e: Element, t: RefType)
    requires "Type" in e.attrs && RefTypeFromString(Some(e.attrs["Type"])) == Some(t)
    ensures LoadRefEntity(f, Some(e)) == Some(LoadByEntry(f, e, t).(refType := t))
  {
    var typeText := e.attrs["Type"];
    LoadResolvedSome(f, e, t);
    var ref := LoadResolved(f, e, RefTypeFromString(Some(typeText)));
    assert ref == Some(LoadByEntry(f, e, t));
  }

  /** The parent ID and topology index load as written. */
  lemma {:induction false} LoadTopoHeader(e: Element, parent: string, index: int)
    requires Attribute(e, "ParentFeatureID") == Some(parent)
    requires Attribute(e, "TopologyIndex") == Some(IntToString(index))
    ensures AttributeOr(e, "ParentFeatureID", "") == parent
    ensures QueryInt(e, "TopologyIndex", -1) == index
  {
    ScanIntToString(index);
  }

  lemma {:induction false} PlaneRoundTrip(f: RealFormat, name: string, r: Reference, typeText: string)
    requires Faithful(f) && r.refType == FeatureDatumPlane
    ensures LoadPlane(f, SetAttribute(SavePlane(f, NewElement(name), r), "Type", typeText)) == RefSurvivor(r)
    ensures LoadByEntry(f, SetAttribute(SaveByEntry(f, NewElement(name), FeatureDatumPlane, r), "Type", typeText), FeatureDatumPlane) == RefSurvivor(r)
  {
    var e := SetAttribute(SavePlane(f, NewElement(name), r), "Type", typeText);
    if r.RefPlane? {
      LoadPlaneFields(f, e, r.targetFeatureID, r.origin, r.xDir, r.yDir, r.normal);
    } else {
      assert e.attrs.Keys == {"Type"};
      LoadTypeOnlyPlane(f, e);
    }
  }

  lemma {:induction false} FaceRoundTrip(f: RealFormat, name: string, r: Reference, typeText: string)
    requires Faithful(f) && r.refType == TopoFace
    ensures LoadFace(f, SetAttribute(SaveFace(f, NewElement(name), r), "Type", typeText)) == RefSurvivor(r)
    ensures LoadByEntry(f, SetAttribute(SaveByEntry(f, NewElement(name), TopoFace, r), "Type", typeText), TopoFace) == RefSurvivor(r)
  {
    var e := SetAttribute(SaveFace(f, NewElement(name), r), "Type", typeText);
    if r.RefFace? {
      SavedFaceAttributes(f, name, r, typeText);
      LoadFaceFields(f, e, r.parentFeatureID, r.topologyIndex, r.uDir, r.vDir, r.normal, r.centroid);
    } else {
      assert e.attrs.Keys == {"Type"};
      LoadTypeOnlyTopo(f, e);
    }
  }

  lemma {:induction false} EdgeRoundTrip(f: RealFormat, name: string, r: Reference, typeText: string)
    requires Faithful(f) && r.refType == TopoEdge
    ensures LoadEdge(f, SetAttribute(SaveEdge(f, NewElement(name), r), "Type", typeText)) == RefSurvivor(r)
    ensures LoadByEntry(f, SetAttribute(SaveByEntry(f, NewElement(name), TopoEdge, r), "Type", typeText), TopoEdge) == RefSurvivor(r)
  {
    var e := SetAttribute(SaveEdge(f, NewElement(name), r), "Type", typeText);
    if r.RefEdge? {
      LoadTopoHeader(e, r.parentFeatureID, r.topologyIndex);
      ParseVecOfText(f, e, "MidPoint", r.midPoint);
    } else {
      assert e.attrs.Keys == {"Type"};
      LoadTypeOnlyTopo(f, e);
    }
  }

  lemma {:induction false} VertexRoundTrip(f: RealFormat, name: string, r: Reference, typeText: string)
    requires Faithful(f) && r.refType == TopoVertex
    ensures LoadVertex(f, SetAttribute(SaveVertex(f, NewElement(name), r), "Type", typeText)) == RefSurvivor(r)
    ensures LoadByEntry(f, SetAttribute(SaveByEntry(f, NewElement(name), TopoVertex, r), "Type", typeText), TopoVertex) == RefSurvivor(r)
  {
    var e := SetAttribute(SaveVertex(f, NewElement(name), r), "Type", typeText);
    if r.RefVertex? {
      LoadTopoHeader(e, r.parentFeatureID, r.topologyIndex);
      ParseVecOfText(f, e, "Position", r.pos);
    } else {
      assert e.attrs.Keys == {"Type"};
      LoadTypeOnlyTopo(f, e);
    }
  }

  lemma {:induction false} SketchSegRoundTrip(f: RealFormat, name: string, r: Reference, typeText: string)
    requires r.refType == TopoSketchSeg
    ensures LoadSketchSegRef(SetAttribute(SaveSketchSegRef(NewElement(name), r), "Type", typeText)) == RefSurvivor(r)
    ensures LoadByEntry(f, SetAttribute(SaveByEntry(f, NewElement(name), TopoSketchSeg, r), "Type", typeText), TopoSketchSeg) == RefSurvivor(r)
  {
    var e := SetAttribute(SaveSketchSegRef(NewElement(name), r), "Type", typeText);
    if r.RefSketchSeg? {
      LoadTopoHeader(e, r.parentFeatureID, r.topologyIndex);
      assert AttributeOr(e, "SegmentLocalID", "") == r.segmentLocalID;
    } else {
      assert e.attrs.Keys == {"Type"};
      LoadTypeOnlyTopo(f, e);
    }
  }

  lemma {:induction false} FeatureKindsRoundTrip(f: RealFormat, name: string, r: Reference, typeText: string)
    requires r.refType in {FeatureDatumAxis, FeatureDatumPoint, FeatureWholeSketch}
    ensures LoadByEntry(f, SetAttribute(SaveByEntry(f, NewElement(name), r.refType, r), "Type", typeText), r.refType)
              .(refType := r.refType) == RefSurvivor(r)
  {
  }

  lemma {:induction false} LoadSavedFeatureEntry(f: RealFormat, name: string, r: Reference, typeText: string)
    requires Faithful(f) && !r.refType.TopoFace? && !r.refType.TopoEdge? && !r.refType.TopoVertex? && !r.refType.TopoSketchSeg?
    ensures LoadByEntry(f, SetAttribute(SaveByEntry(f, NewElement(name), r.refType, r), "Type", typeText), r.refType)
              .(refType := r.refType) == RefSurvivor(r)
  {
    if r.refType == FeatureDatumPlane {
      PlaneRoundTrip(f, name, r, typeText);
    } else {
      FeatureKindsRoundTrip(f, name, r, typeText);
    }
  }

  lemma {:induction false} LoadSavedFaceOrEdgeEntry(f: RealFormat, name: string, r: Reference, typeText: string)
    requires Faithful(f) && (r.refType.TopoFace? || r.refType.TopoEdge?)
    ensures LoadByEntry(f, SetAttribute(SaveByEntry(f, NewElement(name), r.refType, r), "Type", typeText), r.refType)
              .(refType := r.refType) == RefSurvivor(r)
  {
    if r.refType == TopoFace {
      FaceRoundTrip(f, name, r, typeText);
    } else {
      EdgeRoundTrip(f, name, r, typeText);
    }
  }

  lemma {:induction false} LoadSavedVertexOrSegEntry(f: RealFormat, name: string, r: Reference, typeText: string)
    requires Faithful(f) && (r.refType.TopoVertex? || r.refType.TopoSketchSeg?)
    ensures LoadByEntry(f, SetAttribute(SaveByEntry(f, NewElement(name), r.refType, r), "Type", typeText), r.refType)
              .(refType := r.refType) == RefSurvivor(r)
  {
    if r.refType == TopoVertex {
      VertexRoundTrip(f, name, r, typeText);
    } else {
      SketchSegRoundTrip(f, name, r, typeText);
    }
  }

  lemma {:induction false} LoadSavedTopoEntry(f: RealFormat, name: string, r: Reference, typeText: string)
    requires Faithful(f) && (r.refType.TopoFace? || r.refType.TopoEdge? || r.refType.TopoVertex? || r.refType.TopoSketchSeg?)
    ensures LoadByEntry(f, SetAttribute(SaveByEntry(f, NewElement(name), r.refType, r), "Type", typeText), r.refType)
              .(refType := r.refType) == RefSurvivor(r)
  {
    if r.refType.TopoFace? || r.refType.TopoEdge? {
      LoadSavedFaceOrEdgeEntry(f, name, r, typeText);
    } else {
      LoadSavedVertexOrSegEntry(f, name, r, typeText);
    }
  }

  /** Loading the element the entry of r's kind writes gives RefSurvivor(r), whatever the Type text. */
  lemma {:induction false} LoadSavedByEntry(f: RealFormat, name: string, r: Reference, typeText: string)
    requires Faithful(f)
    ensures LoadByEntry(f, SetAttribute(SaveByEntry(f, NewElement(name), r.refType, r), "Type", typeText), r.refType)
              .(refType := r.refType) == RefSurvivor(r)
  {
    if r.refType.TopoFace? || r.refType.TopoEdge? || r.refType.TopoVertex? || r.refType.TopoSketchSeg? {
      LoadSavedTopoEntry(f, name, r, typeText);
    } else {
      LoadSavedFeatureEntry(f, name, r, typeText);
    }
  }

  /**
   * Save then load gives back RefSurvivor(r): with a faithful number format
   * every field the registry entry writes is restored exactly.
   */
  lemma {:induction false} RefEntityRoundTrip(f: RealFormat, name: string, r: Reference)
    requires Faithful(f)
    ensures LoadRefEntity(f, Some(SaveRefEntity(f, name, r))) == Some(RefSurvivor(r))
  {
    var e := SaveRefEntity(f, name, r);
    SaveRefEntityUnfold(f, name, r);
    SavedTypeName(f, name, r);
    LoadRefEntityResolved(f, e, r.refType);
    LoadSavedByEntry(f, name, r, RefTypeToString(r.refType));
  }

  /** For a reference whose class matches its refType, only the fields the XML format lacks are lost. */
  lemma WellTypedSurvivor(r: Reference)
    requires WellTyped(r)
    ensures r.RefPlane? || r.RefSketch? || r.RefFace? || r.RefVertex? || r.RefSketchSeg? ==> RefSurvivor(r) == r
    ensures r.RefEdge? ==> RefSurvivor(r) == r.(startPoint := Zero, endPoint := Zero)
    ensures r.RefAxis? || r.RefPoint? ==> RefSurvivor(r) == RefFeature(r.refType, r.targetFeatureID)
    ensures r.RefFeature? && r.refType == FeatureDatumPlane ==> RefSurvivor(r) == NewRefPlane()
    ensures r.RefFeature? && r.refType == FeatureWholeSketch ==> RefSurvivor(r) == NewRefSketch()
  {
  }

  /** A resolved Type always wins over the class default, and "feature" in any letter case is the legacy plane. */
  lemma {:induction false} LegacyFeatureType(f: RealFormat, e: Element)
    requires "Type" in e.attrs && ToLower(e.attrs["Type"]) == "feature"
    ensures LoadRefEntity(f, Some(e)) == Some(RefFeature(FeatureDatumPlane, AttributeOr(e, "TargetFeatureID", "")))
  {
    RefTypeFromStringExactly(e.attrs["Type"]);
  }

  /** LoadRefEntity gives null exactly when there is no element, no Type, or a Type that is neither a kind nor "feature". */
  lemma {:induction false} LoadRefEntityNull(f: RealFormat, e: Option<Element>)
    ensures LoadRefEntity(f, e).None? <==>
      e.None? || "Type" !in e.value.attrs ||
      (RefTypeFromString(Some(e.value.attrs["Type"])).None? && ToLower(e.value.attrs["Type"]) != "feature")
  {
    if e.Some? && "Type" in e.value.attrs {
      var resolved := RefTypeFromString(Some(e.value.attrs["Type"]));
      if resolved.Some? {
        LoadResolvedSome(f, e.value, resolved.value);
      }
    }
  }

  /** A plane element without YDir gets its Y axis from the normal and the X direction. */
  lemma {:induction false} PlaneYAxisComputed(f: RealFormat, e: Element, xDir: Vec3, normal: Vec3)
    requires Faithful(f)
    requires Attribute(e, "XDir") == Some(FormatVec(f, xDir))
    requires Attribute(e, "Normal") == Some(FormatVec(f, normal))
    requires "YDir" !in e.attrs
    ensures LoadPlane(f, e).yDir == ComputePlaneYAxis(normal, xDir)
  {
    ParseVecOfText(f, e, "XDir", xDir);
    ParseVecOfText(f, e, "Normal", normal);
  }

  /** When the cross product of the normal and the X direction is a unit vector, it is the computed Y axis. */
  lemma {:induction false} ComputePlaneYAxisOfUnitCross(normal: Vector3D, xDir: Vector3D)
    requires SquaredLength(Cross(normal, xDir)) == 1.0
    ensures ComputePlaneYAxis(normal, xDir) == Cross(normal, xDir)
  {
    NormalizedOfUnit(Cross(normal, xDir));
  }

  /** The attributes SaveFace writes are still there once the Type is added. */
  lemma SavedFaceAttributes(f: RealFormat, name: string, r: Reference, typeText: string)
    requires r.RefFace?
    ensures var e := SetAttribute(SaveFace(f, NewElement(name), r), "Type", typeText);
            Attribute(e, "ParentFeatureID") == Some(r.parentFeatureID) &&
            Attribute(e, "TopologyIndex") == Some(IntToString(r.topologyIndex)) &&
            Attribute(e, "U") == Some(FormatVec(f, r.uDir)) &&
            Attribute(e, "V") == Some(FormatVec(f, r.vDir)) &&
            Attribute(e, "Normal") == Some(FormatVec(f, r.normal)) &&
            Attribute(e, "Center") == Some(FormatVec(f, r.centroid))
  {
  }
}
