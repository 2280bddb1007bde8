/**
 * The field lists of the sketch geometry and feature types in
 * serialization/UnifiedSerialization.h, and what a feature is after one save
 * and one load through them.
 */
module FieldFeatures {
  import opened Wrappers
  import opened Geometry
  import opened Features
  import opened EnumCodes
  import opened FieldLists

  // Sketch segments

  function SegClassName(s: Segment): string
  {
    match s
    case SketchLine(_, _, _, _) => "CSketchLine"
    case SketchCircle(_, _, _, _) => "CSketchCircle"
    case SketchArc(_, _, _, _, _, _, _) => "CSketchArc"
    case SketchPoint(_, _, _) => "CSketchPoint"
  }

  function SegFieldNames(s: Segment): seq<string>
  {
    match s
    case SketchLine(_, _, _, _) => LineFields
    case SketchCircle(_, _, _, _) => CircleFields
    case SketchArc(_, _, _, _, _, _, _) => ArcFields
    case SketchPoint(_, _, _) => PointFields
  }

  /** The segment base fields (LocalID, Construction), then the fields of its class. */
  function SegmentFieldList(s: Segment): (fs: seq<Field>)
    ensures Names(fs) == SegFieldNames(s)
  {
    var base := [Field("LocalID", Str(s.localID)), Field("Construction", Flag(s.isConstruction))];
    match s
    case SketchLine(_, _, a, b) => base + [Field("Start", TripleValue(a)), Field("End", TripleValue(b))]
    case SketchCircle(_, _, c, r) => base + [Field("Center", TripleValue(c)), Field("Radius", Dbl(r))]
    case SketchArc(_, _, c, r, a0, a1, cw) =>
      base + [Field("Center", TripleValue(c)), Field("Radius", Dbl(r)), Field("StartAngle", Dbl(a0)),
              Field("EndAngle", Dbl(a1)), Field("Clockwise", Flag(cw))]
    case SketchPoint(_, _, p) => base + [Field("Position", TripleValue(p))]
  }

  function SegmentValue(s: Segment): Value
  {
    Poly(SegClassName(s), SegmentFieldList(s))
  }

  function LoadLineFields(fs: seq<Field>): Option<Segment>
  {
    if Names(fs) != LineFields then None
    else
      var id := AsStr(fs[0].value);
      var c := AsFlag(fs[1].value);
      var a := LoadTriple(fs[2].value);
      var b := LoadTriple(fs[3].value);
      if id.None? || c.None? || a.None? || b.None? then None
      else Some(SketchLine(id.value, c.value, a.value, b.value))
  }

  function LoadCircleFields(fs: seq<Field>): Option<Segment>
  {
    if Names(fs) != CircleFields then None
    else
      var id := AsStr(fs[0].value);
      var c := AsFlag(fs[1].value);
      var center := LoadTriple(fs[2].value);
      var r := AsDbl(fs[3].value);
      if id.None? || c.None? || center.None? || r.None? then None
      else Some(SketchCircle(id.value, c.value, center.value, r.value))
  }

  function LoadArcFields(fs: seq<Field>): Option<Segment>
  {
    if Names(fs) != ArcFields then None
    else
      var id := AsStr(fs[0].value);
      var c := AsFlag(fs[1].value);
      var center := LoadTriple(fs[2].value);
      var r := AsDbl(fs[3].value);
      var a0 := AsDbl(fs[4].value);
      var a1 := AsDbl(fs[5].value);
      var cw := AsFlag(fs[6].value);
      if id.None? || c.None? || center.None? || r.None? || a0.None? || a1.None? || cw.None? then None
      else Some(SketchArc(id.value, c.value, center.value, r.value, a0.value, a1.value, cw.value))
  }

  function LoadPointFields(fs: seq<Field>): Option<Segment>
  {
    if Names(fs) != PointFields then None
    else
      var id := AsStr(fs[0].value);
      var c := AsFlag(fs[1].value);
      var p := LoadTriple(fs[2].value);
      if id.None? || c.None? || p.None? then None
      else Some(SketchPoint(id.value, c.value, p.value))
  }

  /** A segment entry must be a Poly of one of the four registered segment classes. */
  function LoadSegment(v: Value): Option<Segment>
  {
    if !v.Poly? then None
    else if v.className == "CSketchLine" then LoadLineFields(v.fields)
    else if v.className == "CSketchCircle" then LoadCircleFields(v.fields)
    else if v.className == "CSketchArc" then LoadArcFields(v.fields)
    else if v.className == "CSketchPoint" then LoadPointFields(v.fields)
    else None
  }

  lemma LineRoundTrip(s: Segment)
    requires s.SketchLine?
    ensures LoadLineFields(SegmentFieldList(s)) == Some(s)
  {
    TripleRoundTrip(s.startPos); TripleRoundTrip(s.endPos);
  }

  lemma CircleRoundTrip(s: Segment)
    requires s.SketchCircle?
    ensures LoadCircleFields(SegmentFieldList(s)) == Some(s)
  {
    TripleRoundTrip(s.center);
  }

  lemma ArcRoundTrip(s: Segment)
    requires s.SketchArc?
    ensures LoadArcFields(SegmentFieldList(s)) == Some(s)
  {
    TripleRoundTrip(s.center);
  }

  lemma PointRoundTrip(s: Segment)
    requires s.SketchPoint?
    ensures LoadPointFields(SegmentFieldList(s)) == Some(s)
  {
    TripleRoundTrip(s.position);
  }

  /** Every field of a segment is listed, so a segment is restored exactly. */
  lemma SegmentRoundTrip(s: Segment)
    ensures LoadSegment(SegmentValue(s)) == Some(s)
  {
    match s
    case SketchLine(_, _, _, _) => LineRoundTrip(s);
    case SketchCircle(_, _, _, _) => CircleRoundTrip(s);
    case SketchArc(_, _, _, _, _, _, _) => ArcRoundTrip(s);
    case SketchPoint(_, _, _) => PointRoundTrip(s);
  }

  function SegmentValues(ss: seq<Segment>): (vs: seq<Value>)
    ensures |vs| == |ss|
  {
    if ss == [] then [] else SegmentValues(ss[..|ss| - 1]) + [SegmentValue(ss[|ss| - 1])]
  }

  /** Every entry must load; one that does not fails the whole vector. */
  function LoadSegments(vs: seq<Value>): (r: Option<seq<Segment>>)
    ensures r.Some? ==> |r.value| == |vs|
  {
    if vs == [] then Some([])
    else
      var front := LoadSegments(vs[..|vs| - 1]);
      var last := LoadSegment(vs[|vs| - 1]);
      if front.None? || last.None? then None else Some(front.value + [last.value])
  }

  lemma {:induction false} SegmentsRoundTrip(ss: seq<Segment>)
    ensures LoadSegments(SegmentValues(ss)) == Some(ss)
  {
    if ss != [] {
      var front, last := ss[..|ss| - 1], ss[|ss| - 1];
      var vs := SegmentValues(ss);
      assert vs[..|vs| - 1] == SegmentValues(front);
      assert vs[|vs| - 1] == SegmentValue(last);
      SegmentsRoundTrip(front);
      SegmentRoundTrip(last);
      SplitLast(ss);
    }
  }

  // Constraints

  function StrValues(ids: seq<string>): (vs: seq<Value>)
    ensures |vs| == |ids|
  {
    if ids == [] then [] else StrValues(ids[..|ids| - 1]) + [Str(ids[|ids| - 1])]
  }

  function LoadStrs(vs: seq<Value>): (r: Option<seq<string>>)
    ensures r.Some? ==> |r.value| == |vs|
  {
    if vs == [] then Some([])
    else
      var front := LoadStrs(vs[..|vs| - 1]);
      var last := AsStr(vs[|vs| - 1]);
      if front.None? || last.None? then None else Some(front.value + [last.value])
  }

  /** A vector of strings is restored exactly, whatever the strings hold. */
  lemma {:induction false} StrsRoundTrip(ids: seq<string>)
    ensures LoadStrs(StrValues(ids)) == Some(ids)
  {
    if ids != [] {
      var vs := StrValues(ids);
      assert vs[..|vs| - 1] == StrValues(ids[..|ids| - 1]);
      StrsRoundTrip(ids[..|ids| - 1]);
      SplitLast(ids);
    }
  }

  /** Type as its enum code, Entities as a vector of strings, Dimension. */
  function ConstraintValue(c: Constraint): Value
  {
    Node([Field("Type", Int(CodeOf(c.constraintType))), Field("Entities", List(StrValues(c.entityLocalIDs))),
          Field("Dimension", Dbl(c.dimensionValue))])
  }

  function LoadConstraint(v: Value): Option<Constraint>
  {
    if !v.Node? || Names(v.fields) != ConstraintFields then None
    else
      var t := AsInt(v.fields[0].value);
      var ids := if v.fields[1].value.List? then LoadStrs(v.fields[1].value.items) else None;
      var d := AsDbl(v.fields[2].value);
      if t.None? || ids.None? || d.None? then None
      else Some(Constraint(TypeOfCode(t.value), ids.value, d.value))
  }

  lemma ConstraintRoundTrip(c: Constraint)
    requires Canonical(c.constraintType)
    ensures LoadConstraint(ConstraintValue(c)) == Some(c)
  {
    StrsRoundTrip(c.entityLocalIDs);
    TypeOfCodeOf(c.constraintType);
    assert Names(ConstraintValue(c).fields) == ConstraintFields;
  }

  function ConstraintValues(cs: seq<Constraint>): (vs: seq<Value>)
    ensures |vs| == |cs|
  {
    if cs == [] then [] else ConstraintValues(cs[..|cs| - 1]) + [ConstraintValue(cs[|cs| - 1])]
  }

  function LoadConstraints(vs: seq<Value>): (r: Option<seq<Constraint>>)
    ensures r.Some? ==> |r.value| == |vs|
  {
    if vs == [] then Some([])
    else
      var front := LoadConstraints(vs[..|vs| - 1]);
      var last := LoadConstraint(vs[|vs| - 1]);
      if front.None? || last.None? then None else Some(front.value + [last.value])
  }

  predicate AllCanonical(cs: seq<Constraint>)
  {
    forall i :: 0 <= i < |cs| ==> Canonical(cs[i].constraintType)
  }

  lemma {:induction false} ConstraintsRoundTrip(cs: seq<Constraint>)
    requires AllCanonical(cs)
    ensures LoadConstraints(ConstraintValues(cs)) == Some(cs)
  {
    if cs != [] {
      var vs := ConstraintValues(cs);
      assert vs[..|vs| - 1] == ConstraintValues(cs[..|cs| - 1]);
      ConstraintsRoundTrip(cs[..|cs| - 1]);
      ConstraintRoundTrip(cs[|cs| - 1]);
      SplitLast(cs);
    }
  }

  // Extrude options

  function EndConditionValue(c: EndCondition): Value
    requires OptRegistered(c.referenceEntity)
  {
    Node([Field("Type", Int(EndTypeCode(c.endType))), Field("Depth", Dbl(c.depth)), Field("Offset", Dbl(c.offset)),
          Field("HasOffset", Flag(c.hasOffset)), Field("Reference", RefValue(c.referenceEntity)),
          Field("Flip", Flag(c.isFlip)), Field("FlipMaterialSide", Flag(c.isFlipMaterialSide))])
  }

  function LoadEndCondition(v: Value): Option<EndCondition>
  {
    if !v.Node? || Names(v.fields) != EndConditionFields then None
    else
      var fs := v.fields;
      var t := if fs[0].value.Int? then EndTypeOfCode(fs[0].value.i) else None;
      var depth := AsDbl(fs[1].value);
      var offset := AsDbl(fs[2].value);
      var has := AsFlag(fs[3].value);
      var ref := LoadRef(fs[4].value);
      var flip := AsFlag(fs[5].value);
      var side := AsFlag(fs[6].value);
      if t.None? || depth.None? || offset.None? || has.None? || ref.None? || flip.None? || side.None? then None
      else Some(EndCondition(t.value, depth.value, offset.value, has.value, ref.value, flip.value, side.value))
  }

  /** What an end condition is after a save and a load: its reference in stored form. */
  function StoredEnd(c: EndCondition): EndCondition
  {
    c.(referenceEntity := StoredOptRef(c.referenceEntity))
  }

  lemma EndConditionRoundTrip(c: EndCondition)
    requires OptRegistered(c.referenceEntity)
    ensures LoadEndCondition(EndConditionValue(c)) == Some(StoredEnd(c))
  {
    OptRefRoundTrip(c.referenceEntity);
    CodesRoundTrip(Single, AxisExplicit, Meter, Boss, c.endType, FeatureDatumPlane);
    assert Names(EndConditionValue(c).fields) == EndConditionFields;
  }

  /** An empty std::optional is Null; a present one is its value. */
  function OptEndValue(c: Option<EndCondition>): Value
    requires c.Some? ==> OptRegistered(c.value.referenceEntity)
  {
    if c.None? then Null else EndConditionValue(c.value)
  }

  function LoadOptEnd(v: Value): Option<Option<EndCondition>>
  {
    if v.Null? then Some(None)
    else
      var c := LoadEndCondition(v);
      if c.None? then None else Some(Some(c.value))
  }

  function DraftValue(d: Option<DraftOption>): Value
  {
    if d.None? then Null else Node([Field("Angle", Dbl(d.value.angle)), Field("Outward", Flag(d.value.outward))])
  }

  function LoadDraft(v: Value): Option<Option<DraftOption>>
  {
    if v.Null? then Some(None)
    else if !v.Node? || Names(v.fields) != DraftFields then None
    else
      var a := AsDbl(v.fields[0].value);
      var o := AsFlag(v.fields[1].value);
      if a.None? || o.None? then None else Some(Some(DraftOption(a.value, o.value)))
  }

  function ThinWallValue(t: Option<ThinWallOption>): Value
  {
    if t.None? then Null
    else Node([Field("Thickness", Dbl(t.value.thickness)), Field("OneSided", Flag(t.value.isOneSided)),
               Field("Covered", Flag(t.value.isCovered))])
  }

  function LoadThinWall(v: Value): Option<Option<ThinWallOption>>
  {
    if v.Null? then Some(None)
    else if !v.Node? || Names(v.fields) != ThinWallFields then None
    else
      var t := AsDbl(v.fields[0].value);
      var one := AsFlag(v.fields[1].value);
      var cov := AsFlag(v.fields[2].value);
      if t.None? || one.None? || cov.None? then None
      else Some(Some(ThinWallOption(t.value, one.value, cov.value)))
  }

  /** Draft and thin-wall options, present or absent, are restored exactly. */
  lemma OptionsRoundTrip(d: Option<DraftOption>, t: Option<ThinWallOption>)
    ensures LoadDraft(DraftValue(d)) == Some(d)
    ensures LoadThinWall(ThinWallValue(t)) == Some(t)
  {
    if d.Some? {
      assert Names(DraftValue(d).fields) == DraftFields;
    }
    if t.Some? {
      assert Names(ThinWallValue(t).fields) == ThinWallFields;
    }
  }

  // Revolve axis

  function AxisValue(a: RevolveAxis): Value
    requires OptRegistered(a.referenceEntity)
  {
    Node([Field("Kind", Int(AxisKindCode(a.kind))), Field("ReferenceLocalID", Str(a.referenceLocalID)),
          Field("ReferenceEntity", RefValue(a.referenceEntity)), Field("Origin", TripleValue(a.origin)),
          Field("Direction", TripleValue(a.direction))])
  }

  function LoadAxis(v: Value): Option<RevolveAxis>
  {
    if !v.Node? || Names(v.fields) != AxisFields then None
    else
      var fs := v.fields;
      var k := if fs[0].value.Int? then AxisKindOfCode(fs[0].value.i) else None;
      var id := AsStr(fs[1].value);
      var ref := LoadRef(fs[2].value);
      var o := LoadTriple(fs[3].value);
      var d := LoadTriple(fs[4].value);
      if k.None? || id.None? || ref.None? || o.None? || d.None? then None
      else Some(RevolveAxis(k.value, id.value, ref.value, o.value, d.value))
  }

  function StoredAxis(a: RevolveAxis): RevolveAxis
  {
    a.(referenceEntity := StoredOptRef(a.referenceEntity))
  }

  lemma AxisRoundTrip(a: RevolveAxis)
    requires OptRegistered(a.referenceEntity)
    ensures LoadAxis(AxisValue(a)) == Some(StoredAxis(a))
  {
    OptRefRoundTrip(a.referenceEntity);
    TripleRoundTrip(a.origin);
    TripleRoundTrip(a.direction);
    CodesRoundTrip(Single, a.kind, Meter, Boss, Blind, FeatureDatumPlane);
    assert Names(AxisValue(a).fields) == AxisFields;
  }

  // Features

  /**
   * A feature cereal can save: every reference it holds is of a registered
   * class, and an extrude profile is a sketch (its static type is CSketch).
   */
  predicate Saveable(f: Feature)
  {
    match f
    case Sketch(_, _, _, _, plane, _, _) => OptRegistered(plane)
    case Extrude(_, _, _, _, profile, _, ec1, ec2, _, _, _) =>
      (profile.Some? ==> profile.value.Sketch? && OptRegistered(profile.value.referencePlane)) &&
      OptRegistered(ec1.referenceEntity) && (ec2.Some? ==> OptRegistered(ec2.value.referenceEntity))
    case Revolve(_, _, _, _, _, axis, _, _, _) => OptRegistered(axis.referenceEntity)
  }

  /** ID, Name and Suppressed: the externalID is not listed. */
  function BaseFieldList(f: Feature): (fs: seq<Field>)
    ensures Names(fs) == FeatureBaseFields
  {
    [Field("ID", Str(f.featureID)), Field("Name", Str(f.featureName)), Field("Suppressed", Flag(f.isSuppressed))]
  }

  /** A sketch's list from its already written parts: the base fields, then Plane, Segments, Constraints. */
  function SketchFieldsOf(base: seq<Field>, plane: Value, segs: Value, cons: Value): seq<Field>
  {
    base + [Field("Plane", plane), Field("Segments", segs), Field("Constraints", cons)]
  }

  function SketchFieldList(f: Feature): (fs: seq<Field>)
    requires f.Sketch? && OptRegistered(f.referencePlane)
    ensures Names(fs) == SketchFields
  {
    SketchFieldsOf(BaseFieldList(f), RefValue(f.referencePlane), List(SegmentValues(f.segments)),
                   List(ConstraintValues(f.constraints)))
  }

  /** A profile pointer: Null, or the sketch written as any feature pointer is. */
  function ProfileValue(p: Option<Feature>): Value
    requires p.Some? ==> p.value.Sketch? && OptRegistered(p.value.referencePlane)
    decreases p, 0
  {
    if p.None? then Null else FeatureValue(p.value)
  }

  function ExtrudeFieldsOf(base: seq<Field>, profile: Value, dir: Value, op: Value, ec1: Value, ec2: Value,
                           draft: Value, thin: Value): seq<Field>
  {
    base + [Field("Profile", profile), Field("Direction", dir), Field("Operation", op), Field("EndCondition1", ec1),
            Field("EndCondition2", ec2), Field("Draft", draft), Field("ThinWall", thin)]
  }

  function ExtrudeFieldList(f: Feature): (fs: seq<Field>)
    requires f.Extrude? && Saveable(f)
    ensures Names(fs) == ExtrudeFields
    decreases f, 1
  {
    ExtrudeFieldsOf(BaseFieldList(f), ProfileValue(f.sketchProfile), TripleValue(f.direction),
                    Int(BooleanOpCode(f.operation)), EndConditionValue(f.endCondition1),
                    OptEndValue(f.endCondition2), DraftValue(f.draft), ThinWallValue(f.thinWall))
  }

  function RevolveFieldsOf(base: seq<Field>, profile: Value, axis: Value, kind: Value, a1: Value, a2: Value): seq<Field>
  {
    base + [Field("ProfileSketchID", profile), Field("Axis", axis), Field("AngleKind", kind),
            Field("PrimaryAngle", a1), Field("SecondaryAngle", a2)]
  }

  function RevolveFieldList(f: Feature): (fs: seq<Field>)
    requires f.Revolve? && Saveable(f)
    ensures Names(fs) == RevolveFields
  {
    RevolveFieldsOf(BaseFieldList(f), Str(f.profileSketchID), AxisValue(f.axis), Int(AngleKindCode(f.angleKind)),
                    Dbl(f.primaryAngle), Dbl(f.secondaryAngle))
  }

  function FeatureClassName(f: Feature): string
  {
    match f
    case Sketch(_, _, _, _, _, _, _) => "CSketch"
    case Extrude(_, _, _, _, _, _, _, _, _, _, _) => "CExtrude"
    case Revolve(_, _, _, _, _, _, _, _, _) => "CRevolve"
  }

  /** A feature pointer entry: a Poly of the feature's class holding its field list. */
  function FeatureValue(f: Feature): Value
    requires Saveable(f)
    decreases f, 3
  {
    Poly(FeatureClassName(f), FeatureFieldList(f))
  }

  /** The field list of a feature of any class. */
  function FeatureFieldList(f: Feature): seq<Field>
    requires Saveable(f)
    decreases f, 2
  {
    match f
      case Sketch(_, _, _, _, _, _, _) => SketchFieldList(f)
      case Extrude(_, _, _, _, _, _, _, _, _, _, _) => ExtrudeFieldList(f)
      case Revolve(_, _, _, _, _, _, _, _, _) => RevolveFieldList(f)
  }

  /** The three base fields; a new feature's externalID stays empty. */
  function LoadBase(fs: seq<Field>): Option<(string, string, bool)>
    requires |fs| >= 3
  {
    var id := AsStr(fs[0].value);
    var name := AsStr(fs[1].value);
    var supp := AsFlag(fs[2].value);
    if id.None? || name.None? || supp.None? then None else Some((id.value, name.value, supp.value))
  }

  function LoadSketchFields(fs: seq<Field>): Option<Feature>
  {
    if Names(fs) != SketchFields then None
    else
      BuildSketch(LoadBase(fs), LoadRef(fs[3].value),
                  if fs[4].value.List? then LoadSegments(fs[4].value.items) else None,
                  if fs[5].value.List? then LoadConstraints(fs[5].value.items) else None)
  }

  /** A sketch from its loaded parts; the load fails when any part does. */
  function BuildSketch(base: Option<(string, string, bool)>, plane: Option<Option<Reference>>,
                       segs: Option<seq<Segment>>, cons: Option<seq<Constraint>>): Option<Feature>
  {
    if base.None? || plane.None? || segs.None? || cons.None? then None
    else Some(Sketch(base.value.0, base.value.1, "", base.value.2, plane.value, segs.value, cons.value))
  }

  /** Profile: Null, or a feature pointer of class CSketch. */
  function LoadProfile(v: Value): Option<Option<Feature>>
    decreases v, 4
  {
    if v.Null? then Some(None)
    else if !v.Poly? || v.className != "CSketch" then None
    else LoadFeatureValue(v)
  }

  function LoadExtrudeFields(fs: seq<Field>): Option<Feature>
    decreases fs, 1
  {
    if Names(fs) != ExtrudeFields then None
    else
      BuildExtrude(LoadBase(fs), LoadProfile(fs[3].value), LoadTriple(fs[4].value),
                   if fs[5].value.Int? then BooleanOpOfCode(fs[5].value.i) else None,
                   LoadEndCondition(fs[6].value), LoadOptEnd(fs[7].value), LoadDraft(fs[8].value),
                   LoadThinWall(fs[9].value))
  }

  /** An extrude from its loaded parts; the load fails when any part does. */
  function BuildExtrude(base: Option<(string, string, bool)>, profile: Option<Option<Feature>>, dir: Option<Vector3D>,
                        op: Option<BooleanOp>, ec1: Option<EndCondition>, ec2: Option<Option<EndCondition>>,
                        draft: Option<Option<DraftOption>>, thin: Option<Option<ThinWallOption>>): Option<Feature>
  {
    if base.None? || profile.None? || dir.None? || op.None? || ec1.None? || ec2.None? ||
       draft.None? || thin.None? then None
    else Some(Extrude(base.value.0, base.value.1, "", base.value.2, profile.value, dir.value,
                      ec1.value, ec2.value, op.value, draft.value, thin.value))
  }

  function LoadRevolveFields(fs: seq<Field>): Option<Feature>
  {
    if Names(fs) != RevolveFields then None
    else
      BuildRevolve(LoadBase(fs), AsStr(fs[3].value), LoadAxis(fs[4].value),
                   if fs[5].value.Int? then AngleKindOfCode(fs[5].value.i) else None,
                   AsDbl(fs[6].value), AsDbl(fs[7].value))
  }

  /** A revolve from its loaded parts; the load fails when any part does. */
  function BuildRevolve(base: Option<(string, string, bool)>, profile: Option<string>, axis: Option<RevolveAxis>,
                        kind: Option<AngleKind>, a1: Option<real>, a2: Option<real>): Option<Feature>
  {
    if base.None? || profile.None? || axis.None? || kind.None? || a1.None? || a2.None? then None
    else Some(Revolve(base.value.0, base.value.1, "", base.value.2, profile.value, axis.value,
                      kind.value, a1.value, a2.value))
  }

  /** A feature pointer: Null is a null pointer; a Poly of a registered feature class must load. */
  function LoadFeatureValue(v: Value): Option<Option<Feature>>
    decreases v, 3
  {
    if v.Null? then Some(None)
    else if !v.Poly? then None
    else
      var f := LoadFeatureFields(v.className, v.fields);
      if f.None? then None else Some(Some(f.value))
  }

  /** The fields of a feature pointer, read as the class its name registers. */
  function LoadFeatureFields(className: string, fs: seq<Field>): Option<Feature>
    decreases fs, 2
  {
    if className == "CSketch" then LoadSketchFields(fs)
    else if className == "CExtrude" then LoadExtrudeFields(fs)
    else if className == "CRevolve" then LoadRevolveFields(fs)
    else None
  }

  /**
   * What a feature is after a save and a load: the externalID is empty and
   * every reference it holds, also inside its profile, is in stored form.
   */
  function StoredFeature(f: Feature): (s: Feature)
    ensures s.Kind() == f.Kind() && s.featureID == f.featureID && s.featureName == f.featureName
    ensures s.isSuppressed == f.isSuppressed && s.externalID == ""
  {
    match f
    case Sketch(_, _, _, _, plane, _, _) => f.(externalID := "", referencePlane := StoredOptRef(plane))
    case Extrude(_, _, _, _, profile, _, ec1, ec2, _, _, _) =>
      f.(externalID := "",
         sketchProfile := if profile.None? then None else Some(StoredFeature(profile.value)),
         endCondition1 := StoredEnd(ec1),
         endCondition2 := if ec2.None? then None else Some(StoredEnd(ec2.value)))
    case Revolve(_, _, _, _, _, axis, _, _, _) => f.(externalID := "", axis := StoredAxis(axis))
  }

  /** Every constraint type, also in an extrude's profile, is canonical. */
  predicate CanonicalFeature(f: Feature)
  {
    match f
    case Sketch(_, _, _, _, _, _, cs) => AllCanonical(cs)
    case Extrude(_, _, _, _, profile, _, _, _, _, _, _) =>
      profile.Some? && profile.value.Sketch? ==> AllCanonical(profile.value.constraints)
    case Revolve(_, _, _, _, _, _, _, _, _) => true
  }

  /** The sketch loader reads each part from the position the field list gives it. */
  lemma LoadSketchOf(f: Feature, plane: Value, segs: Value, cons: Value)
    requires segs.List? && cons.List?
    ensures LoadSketchFields(SketchFieldsOf(BaseFieldList(f), plane, segs, cons)) ==
            BuildSketch(Some((f.featureID, f.featureName, f.isSuppressed)), LoadRef(plane),
                        LoadSegments(segs.items), LoadConstraints(cons.items))
  {
    var fs := SketchFieldsOf(BaseFieldList(f), plane, segs, cons);
    assert Names(fs) == SketchFields;
  }

  lemma SketchRoundTrip(f: Feature)
    requires f.Sketch? && OptRegistered(f.referencePlane) && AllCanonical(f.constraints)
    ensures LoadSketchFields(SketchFieldList(f)) == Some(StoredFeature(f))
  {
    OptRefRoundTrip(f.referencePlane);
    SegmentsRoundTrip(f.segments);
    ConstraintsRoundTrip(f.constraints);
    LoadSketchOf(f, RefValue(f.referencePlane), List(SegmentValues(f.segments)), List(ConstraintValues(f.constraints)));
  }

  /** The extrude loader reads each part from the position the field list gives it. */
  lemma LoadExtrudeOf(f: Feature, profile: Value, dir: Value, op: Value, ec1: Value, ec2: Value,
                      draft: Value, thin: Value)
    requires op.Int?
    ensures LoadExtrudeFields(ExtrudeFieldsOf(BaseFieldList(f), profile, dir, op, ec1, ec2, draft, thin)) ==
            BuildExtrude(Some((f.featureID, f.featureName, f.isSuppressed)), LoadProfile(profile), LoadTriple(dir),
                         BooleanOpOfCode(op.i), LoadEndCondition(ec1), LoadOptEnd(ec2), LoadDraft(draft),
                         LoadThinWall(thin))
  {
    var fs := ExtrudeFieldsOf(BaseFieldList(f), profile, dir, op, ec1, ec2, draft, thin);
    assert Names(fs) == ExtrudeFields;
  }

  /** A profile pointer loads back as the stored sketch. */
  lemma ProfileRoundTrip(p: Option<Feature>)
    requires p.Some? ==> p.value.Sketch? && OptRegistered(p.value.referencePlane) && AllCanonical(p.value.constraints)
    ensures LoadProfile(ProfileValue(p)) == if p.None? then Some(None) else Some(Some(StoredFeature(p.value)))
  {
    if p.Some? {
      var sk := p.value;
      SketchRoundTrip(sk);
      assert FeatureFieldList(sk) == SketchFieldList(sk);
      assert LoadFeatureFields("CSketch", SketchFieldList(sk)) == LoadSketchFields(SketchFieldList(sk));
    }
  }

  /** The pointer-valued parts of an extrude load back in stored form. */
  lemma ExtrudePartsRoundTrip(f: Feature)
    requires f.Extrude? && Saveable(f) && CanonicalFeature(f)
    ensures LoadProfile(ProfileValue(f.sketchProfile)) == Some(StoredFeature(f).sketchProfile)
    ensures LoadEndCondition(EndConditionValue(f.endCondition1)) == Some(StoredFeature(f).endCondition1)
    ensures LoadOptEnd(OptEndValue(f.endCondition2)) == Some(StoredFeature(f).endCondition2)
  {
    ProfileRoundTrip(f.sketchProfile);
    EndConditionRoundTrip(f.endCondition1);
    if f.endCondition2.Some? {
      EndConditionRoundTrip(f.endCondition2.value);
    }
  }

  lemma ExtrudeRoundTrip(f: Feature)
    requires f.Extrude? && Saveable(f) && CanonicalFeature(f)
    ensures LoadExtrudeFields(ExtrudeFieldList(f)) == Some(StoredFeature(f))
  {
    var s := StoredFeature(f);
    ExtrudePartsRoundTrip(f);
    TripleRoundTrip(f.direction);
    CodesRoundTrip(Single, AxisExplicit, Meter, f.operation, Blind, FeatureDatumPlane);
    OptionsRoundTrip(f.draft, f.thinWall);
    LoadExtrudeOf(f, ProfileValue(f.sketchProfile), TripleValue(f.direction), Int(BooleanOpCode(f.operation)),
                  EndConditionValue(f.endCondition1), OptEndValue(f.endCondition2), DraftValue(f.draft),
                  ThinWallValue(f.thinWall));
  }

  /** The revolve loader reads each part from the position the field list gives it. */
  lemma LoadRevolveOf(f: Feature, profile: Value, axis: Value, kind: Value, a1: Value, a2: Value)
    requires kind.Int?
    ensures LoadRevolveFields(RevolveFieldsOf(BaseFieldList(f), profile, axis, kind, a1, a2)) ==
            BuildRevolve(Some((f.featureID, f.featureName, f.isSuppressed)), AsStr(profile), LoadAxis(axis),
                         AngleKindOfCode(kind.i), AsDbl(a1), AsDbl(a2))
  {
    var fs := RevolveFieldsOf(BaseFieldList(f), profile, axis, kind, a1, a2);
    assert Names(fs) == RevolveFields;
  }

  lemma RevolveRoundTrip(f: Feature)
    requires f.Revolve? && Saveable(f)
    ensures LoadRevolveFields(RevolveFieldList(f)) == Some(StoredFeature(f))
  {
    AxisRoundTrip(f.axis);
    CodesRoundTrip(f.angleKind, AxisExplicit, Meter, Boss, Blind, FeatureDatumPlane);
    LoadRevolveOf(f, Str(f.profileSketchID), AxisValue(f.axis), Int(AngleKindCode(f.angleKind)),
                  Dbl(f.primaryAngle), Dbl(f.secondaryAngle));
  }

  /** A saveable feature with canonical constraint types loads back as its stored form. */
  lemma FeatureRoundTrip(f: Feature)
    requires Saveable(f) && CanonicalFeature(f)
    ensures LoadFeatureValue(FeatureValue(f)) == Some(Some(StoredFeature(f)))
  {
    match f
    case Sketch(_, _, _, _, _, _, _) =>
      SketchRoundTrip(f);
      assert LoadFeatureFields("CSketch", SketchFieldList(f)) == LoadSketchFields(SketchFieldList(f));
    case Extrude(_, _, _, _, _, _, _, _, _, _, _) =>
      ExtrudeRoundTrip(f);
      assert LoadFeatureFields("CExtrude", ExtrudeFieldList(f)) == LoadExtrudeFields(ExtrudeFieldList(f));
    case Revolve(_, _, _, _, _, _, _, _, _) =>
      RevolveRoundTrip(f);
      assert LoadFeatureFields("CRevolve", RevolveFieldList(f)) == LoadRevolveFields(RevolveFieldList(f));
  }
}
