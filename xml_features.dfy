/**
 * Saving and loading whole features in the XML codec of
 * src/TinyXMLSerializer.cpp: the Feature element with its Type, ID, Name
 * and Suppressed attributes, and the extrude and revolve bodies.
 */
module XmlFeatureCodec {
  import opened Wrappers
  import opened Text
  import opened Geometry
  import opened Features
  import opened Xml
  import opened XmlNames
  import opened XmlTriples
  import opened XmlRefCodec
  import opened XmlSketchCodec
  import opened EnumCodes

  // End conditions

  /** EndCondition1 carries every field of the condition, its reference as a ReferenceEntity child. */
  function SaveEndCondition1(fx: Formats, c: EndCondition): Element
  {
    var e1 := SetAttribute(NewElement("EndCondition1"), "Type", EndTypeToString(c.endType));
    var e2 := SetRealAttribute(fx.attr, e1, "Depth", c.depth);
    var e3 := SetRealAttribute(fx.attr, e2, "Offset", c.offset);
    var e4 := SetBoolAttribute(e3, "HasOffset", c.hasOffset);
    var e5 := SetBoolAttribute(e4, "Flip", c.isFlip);
    var e6 := SetBoolAttribute(e5, "FlipMaterialSide", c.isFlipMaterialSide);
    InsertRefEntity(fx.triple, e6, "ReferenceEntity", c.referenceEntity)
  }

  /** EndCondition2 carries only Type, Depth, HasOffset and Offset. */
  function SaveEndCondition2(fx: Formats, c: EndCondition): Element
  {
    var e1 := SetAttribute(NewElement("EndCondition2"), "Type", EndTypeToString(c.endType));
    var e2 := SetRealAttribute(fx.attr, e1, "Depth", c.depth);
    var e3 := SetBoolAttribute(e2, "HasOffset", c.hasOffset);
    SetRealAttribute(fx.attr, e3, "Offset", c.offset)
  }

  /** Both end conditions load into a default condition: Type when it names a kind, and Depth. */
  function LoadEndCondition(fx: Formats, e: Element): (c: EndCondition)
    ensures c.offset == 0.0 && !c.hasOffset && c.referenceEntity.None? && !c.isFlip && !c.isFlipMaterialSide
    ensures c.endType != Unknown
  {
    var t := EndTypeFromString(Attribute(e, "Type"));
    EndTypeFromStringNeverUnknown(Attribute(e, "Type"));
    EndCondition(if t.Some? then t.value else Blind, QueryReal(fx.attr, e, "Depth", 0.0), 0.0, false, None, false, false)
  }

  lemma EndTypeFromStringNeverUnknown(text: Option<string>)
    ensures EndTypeFromString(text) != Some(Unknown)
  {
  }

  /** What a save and load keeps of an end condition: its type (Unknown reads back as Blind) and depth. */
  function EndConditionSurvivor(c: EndCondition): EndCondition
  {
    EndCondition(if c.endType == Unknown then Blind else c.endType, c.depth, 0.0, false, None, false, false)
  }

  /** The Type and Depth attributes of an end-condition element load as written. */
  lemma {:induction false} LoadEndConditionFields(fx: Formats, e: Element, c: EndCondition)
    requires Faithful(fx.attr)
    requires Attribute(e, "Type") == Some(EndTypeToString(c.endType))
    requires Attribute(e, "Depth") == Some(fx.attr.show(c.depth))
    ensures LoadEndCondition(fx, e) == EndConditionSurvivor(c)
  {
    EnumNamesRoundTrip(Meter, Boss, c.endType);
    assert fx.attr.read(fx.attr.show(c.depth)) == Some(c.depth);
  }

  lemma {:induction false} EndCondition1RoundTrip(fx: Formats, c: EndCondition)
    requires Faithful(fx.attr)
    ensures SaveEndCondition1(fx, c).tag == "EndCondition1"
    ensures LoadEndCondition(fx, SaveEndCondition1(fx, c)) == EndConditionSurvivor(c)
  {
    var e1 := SetAttribute(NewElement("EndCondition1"), "Type", EndTypeToString(c.endType));
    var e2 := SetRealAttribute(fx.attr, e1, "Depth", c.depth);
    var e3 := SetRealAttribute(fx.attr, e2, "Offset", c.offset);
    var e4 := SetBoolAttribute(e3, "HasOffset", c.hasOffset);
    var e5 := SetBoolAttribute(e4, "Flip", c.isFlip);
    var e6 := SetBoolAttribute(e5, "FlipMaterialSide", c.isFlipMaterialSide);
    var e := SaveEndCondition1(fx, c);
    assert e.attrs == e6.attrs;
    SetAttributeFrame(e1, "Depth", fx.attr.show(c.depth), "Type");
    SetAttributeFrame(e2, "Offset", fx.attr.show(c.offset), "Type");
    SetAttributeFrame(e2, "Offset", fx.attr.show(c.offset), "Depth");
    SetAttributeFrame(e3, "HasOffset", BoolToString(c.hasOffset), "Type");
    SetAttributeFrame(e3, "HasOffset", BoolToString(c.hasOffset), "Depth");
    SetAttributeFrame(e4, "Flip", BoolToString(c.isFlip), "Type");
    SetAttributeFrame(e4, "Flip", BoolToString(c.isFlip), "Depth");
    SetAttributeFrame(e5, "FlipMaterialSide", BoolToString(c.isFlipMaterialSide), "Type");
    SetAttributeFrame(e5, "FlipMaterialSide", BoolToString(c.isFlipMaterialSide), "Depth");
    LoadEndConditionFields(fx, e, c);
  }

  lemma {:induction false} EndCondition2RoundTrip(fx: Formats, c: EndCondition)
    requires Faithful(fx.attr)
    ensures SaveEndCondition2(fx, c).tag == "EndCondition2"
    ensures LoadEndCondition(fx, SaveEndCondition2(fx, c)) == EndConditionSurvivor(c)
  {
    var e1 := SetAttribute(NewElement("EndCondition2"), "Type", EndTypeToString(c.endType));
    var e2 := SetRealAttribute(fx.attr, e1, "Depth", c.depth);
    var e3 := SetBoolAttribute(e2, "HasOffset", c.hasOffset);
    var e := SaveEndCondition2(fx, c);
    SetAttributeFrame(e1, "Depth", fx.attr.show(c.depth), "Type");
    SetAttributeFrame(e2, "HasOffset", BoolToString(c.hasOffset), "Type");
    SetAttributeFrame(e2, "HasOffset", BoolToString(c.hasOffset), "Depth");
    SetAttributeFrame(e3, "Offset", fx.attr.show(c.offset), "Type");
    SetAttributeFrame(e3, "Offset", fx.attr.show(c.offset), "Depth");
    LoadEndConditionFields(fx, e, c);
  }

  // Extrude

  /** The ProfileSketchID child, with the profile's ID as Value. */
  function ProfileElement(id: string): Element
  {
    SetAttribute(NewElement("ProfileSketchID"), "Value", id)
  }

  /** The Direction child, with the direction as Value. */
  function DirectionElement(fx: Formats, d: Vector3D): Element
  {
    SetVecAttribute(fx.triple, NewElement("Direction"), "Value", d)
  }

  /**
   * SaveExtrude: a ProfileSketchID child when there is a profile, a
   * Direction child, the Operation attribute, an EndCondition1 child and an
   * EndCondition2 child when the second condition is present. Draft and
   * thin wall are not written.
   */
  function SaveExtrudeBody(fx: Formats, e: Element, profile: Option<Feature>, direction: Vector3D,
                           operation: BooleanOp, ec1: EndCondition, ec2: Option<EndCondition>): Element
  {
    var e1 := if profile.Some? then InsertEndChild(e, ProfileElement(profile.value.featureID)) else e;
    var e2 := InsertEndChild(e1, DirectionElement(fx, direction));
    var e3 := SetAttribute(e2, "Operation", BooleanOpToString(operation));
    var e4 := InsertEndChild(e3, SaveEndCondition1(fx, ec1));
    if ec2.Some? then InsertEndChild(e4, SaveEndCondition2(fx, ec2.value)) else e4
  }

  /** The stand-in sketch LoadExtrude makes for a profile ID: a default sketch with only that ID. */
  function PlaceholderSketch(id: string): (s: Feature)
    ensures s.Sketch? && s.featureID == id && s.segments == [] && s.constraints == [] && s.referencePlane.None?
  {
    Sketch(id, "", "", false, None, [], [])
  }

  /**
   * LoadExtrude into a fresh CExtrude: the profile is a placeholder sketch
   * when the ProfileSketchID child has a Value; the direction is read only
   * when the Direction child exists; Operation only when it names a
   * boolean operation; each end condition through LoadEndCondition.
   */
  function LoadExtrude(fx: Formats, e: Element): (x: Feature)
    ensures x.Extrude? && x.featureID == "" && x.featureName == "" && x.externalID == "" && !x.isSuppressed
    ensures x.draft.None? && x.thinWall.None? && x.ProfilesAreSketches()
  {
    var p := FirstChildElement(e, "ProfileSketchID");
    var profile := if p.Some? && "Value" in p.value.attrs then Some(PlaceholderSketch(p.value.attrs["Value"])) else None;
    var d := FirstChildElement(e, "Direction");
    var op := BooleanOpFromString(Attribute(e, "Operation"));
    var c1 := FirstChildElement(e, "EndCondition1");
    var c2 := FirstChildElement(e, "EndCondition2");
    Extrude("", "", "", false, profile,
            if d.Some? then ParseVecAttribute(fx.triple, d.value, "Value") else DefaultDirection,
            if c1.Some? then LoadEndCondition(fx, c1.value) else DefaultEndCondition(),
            if c2.Some? then Some(LoadEndCondition(fx, c2.value)) else None,
            if op.Some? then op.value else Boss, None, None)
  }

  /**
   * What a save and load keeps of an extrude body: the profile's ID in a
   * placeholder sketch, the direction, the operation and the surviving end
   * conditions; draft and thin wall are lost.
   */
  function ExtrudeBodySurvivor(profile: Option<Feature>, direction: Vector3D, operation: BooleanOp,
                               ec1: EndCondition, ec2: Option<EndCondition>): (x: Feature)
    ensures x.Extrude?
  {
    Extrude("", "", "", false,
            if profile.Some? then Some(PlaceholderSketch(profile.value.featureID)) else None,
            direction, EndConditionSurvivor(ec1),
            if ec2.Some? then Some(EndConditionSurvivor(ec2.value)) else None,
            operation, None, None)
  }

  /** The children SaveExtrudeBody writes: an optional profile, the direction, EndCondition1 and an optional EndCondition2. */
  predicate ExtrudeChildren(c: seq<Element>, front: seq<Element>, dirElem: Element, ec1Elem: Element, back: seq<Element>)
  {
    |front| <= 1 && (forall i :: 0 <= i < |front| ==> front[i].tag == "ProfileSketchID") &&
    dirElem.tag == "Direction" && ec1Elem.tag == "EndCondition1" &&
    |back| <= 1 && (forall i :: 0 <= i < |back| ==> back[i].tag == "EndCondition2") &&
    c == front + [dirElem, ec1Elem] + back
  }

  lemma {:induction false} ExtrudeProfileLookup(c: seq<Element>, front: seq<Element>, dirElem: Element, ec1Elem: Element, back: seq<Element>)
    requires ExtrudeChildren(c, front, dirElem, ec1Elem, back)
    ensures FirstNamed(c, "ProfileSketchID") == if front == [] then None else Some(front[0])
  {
    if front != [] {
      FirstNamedAt(c, "ProfileSketchID", 0);
    } else {
      assert forall j :: 0 <= j < |c| ==> c[j] == dirElem || c[j] == ec1Elem || c[j] in back;
    }
  }

  lemma {:induction false} ExtrudeDirectionLookup(c: seq<Element>, front: seq<Element>, dirElem: Element, ec1Elem: Element, back: seq<Element>)
    requires ExtrudeChildren(c, front, dirElem, ec1Elem, back)
    ensures FirstNamed(c, "Direction") == Some(dirElem)
  {
    assert c[|front|] == dirElem;
    FirstNamedAt(c, "Direction", |front|);
  }

  lemma {:induction false} ExtrudeEndCondition1Lookup(c: seq<Element>, front: seq<Element>, dirElem: Element, ec1Elem: Element, back: seq<Element>)
    requires ExtrudeChildren(c, front, dirElem, ec1Elem, back)
    ensures FirstNamed(c, "EndCondition1") == Some(ec1Elem)
  {
    assert c[|front| + 1] == ec1Elem;
    assert forall j :: 0 <= j < |front| + 1 ==> c[j] == dirElem || c[j] in front;
    FirstNamedAt(c, "EndCondition1", |front| + 1);
  }

  lemma {:induction false} ExtrudeEndCondition2Lookup(c: seq<Element>, front: seq<Element>, dirElem: Element, ec1Elem: Element, back: seq<Element>)
    requires ExtrudeChildren(c, front, dirElem, ec1Elem, back)
    ensures FirstNamed(c, "EndCondition2") == if back == [] then None else Some(back[0])
  {
    if back != [] {
      assert c[|front| + 2] == back[0];
      assert forall j :: 0 <= j < |front| + 2 ==> c[j] == dirElem || c[j] == ec1Elem || c[j] in front;
      FirstNamedAt(c, "EndCondition2", |front| + 2);
    } else {
      assert forall j :: 0 <= j < |c| ==> c[j] == dirElem || c[j] == ec1Elem || c[j] in front;
    }
  }

  /** LoadExtrude of an element with the children and Operation attribute SaveExtrudeBody writes. */
  lemma {:induction false} LoadExtrudeOfChildren(fx: Formats, e: Element, front: seq<Element>, dirElem: Element,
                                                 ec1Elem: Element, back: seq<Element>, profileID: Option<string>,
                                                 direction: Vector3D, operation: BooleanOp)
    requires Faithful(fx.triple)
    requires e.children == front + [dirElem, ec1Elem] + back
    requires profileID.None? ==> front == []
    requires profileID.Some? ==> front == [ProfileElement(profileID.value)]
    requires dirElem == DirectionElement(fx, direction) && ec1Elem.tag == "EndCondition1"
    requires |back| <= 1 && (forall i :: 0 <= i < |back| ==> back[i].tag == "EndCondition2")
    requires Attribute(e, "Operation") == Some(BooleanOpToString(operation))
    ensures LoadExtrude(fx, e) ==
      Extrude("", "", "", false, if profileID.Some? then Some(PlaceholderSketch(profileID.value)) else None,
              direction, LoadEndCondition(fx, ec1Elem),
              if back == [] then None else Some(LoadEndCondition(fx, back[0])), operation, None, None)
  {
    assert ExtrudeChildren(e.children, front, dirElem, ec1Elem, back);
    ExtrudeProfileLookup(e.children, front, dirElem, ec1Elem, back);
    ExtrudeDirectionLookup(e.children, front, dirElem, ec1Elem, back);
    ExtrudeEndCondition1Lookup(e.children, front, dirElem, ec1Elem, back);
    ExtrudeEndCondition2Lookup(e.children, front, dirElem, ec1Elem, back);
    ParseVecOfText(fx.triple, dirElem, "Value", direction);
    EnumNamesRoundTrip(Meter, operation, Blind);
    if profileID.Some? {
      assert Attribute(ProfileElement(profileID.value), "Value") == Some(profileID.value);
    }
  }

  /** SaveExtrudeBody appends the optional profile, the direction, EndCondition1 and the optional EndCondition2. */
  lemma SaveExtrudeChildren(fx: Formats, e: Element, profile: Option<Feature>, direction: Vector3D,
                            operation: BooleanOp, ec1: EndCondition, ec2: Option<EndCondition>)
    ensures SaveExtrudeBody(fx, e, profile, direction, operation, ec1, ec2).children ==
            e.children + (if profile.Some? then [ProfileElement(profile.value.featureID)] else []) +
            [DirectionElement(fx, direction), SaveEndCondition1(fx, ec1)] +
            (if ec2.Some? then [SaveEndCondition2(fx, ec2.value)] else [])
  {
    var front := if profile.Some? then [ProfileElement(profile.value.featureID)] else [];
    var e1 := if profile.Some? then InsertEndChild(e, ProfileElement(profile.value.featureID)) else e;
    assert e1.children == e.children + front;
    var e2 := InsertEndChild(e1, DirectionElement(fx, direction));
    var e3 := SetAttribute(e2, "Operation", BooleanOpToString(operation));
    var e4 := InsertEndChild(e3, SaveEndCondition1(fx, ec1));
    assert e4.children == e.children + front + [DirectionElement(fx, direction), SaveEndCondition1(fx, ec1)];
  }

  /** The extrude body read back from the children SaveExtrudeBody appended to a childless element. */
  lemma {:induction false} ExtrudeBodyRoundTrip(fx: Formats, e0: Element, e: Element,
                                                profile: Option<Feature>, direction: Vector3D, operation: BooleanOp,
                                                ec1: EndCondition, ec2: Option<EndCondition>)
    requires FaithfulFormats(fx)
    requires e0.children == []
    requires e.children == SaveExtrudeBody(fx, e0, profile, direction, operation, ec1, ec2).children
    requires Attribute(e, "Operation") == Some(BooleanOpToString(operation))
    ensures LoadExtrude(fx, e) == ExtrudeBodySurvivor(profile, direction, operation, ec1, ec2)
  {
    var front := if profile.Some? then [ProfileElement(profile.value.featureID)] else [];
    var back := if ec2.Some? then [SaveEndCondition2(fx, ec2.value)] else [];
    SaveExtrudeChildren(fx, e0, profile, direction, operation, ec1, ec2);
    EndCondition1RoundTrip(fx, ec1);
    if ec2.Some? {
      EndCondition2RoundTrip(fx, ec2.value);
    }
    LoadExtrudeOfChildren(fx, e, front, DirectionElement(fx, direction), SaveEndCondition1(fx, ec1), back,
                          if profile.Some? then Some(profile.value.featureID) else None, direction, operation);
  }

  /** SaveExtrudeBody sets only the Operation attribute of the feature element. */
  lemma {:induction false} SaveExtrudeOperation(fx: Formats, e: Element, profile: Option<Feature>, direction: Vector3D,
                                                operation: BooleanOp, ec1: EndCondition, ec2: Option<EndCondition>)
    ensures SaveExtrudeBody(fx, e, profile, direction, operation, ec1, ec2).attrs == e.attrs[ "Operation" := BooleanOpToString(operation)]
    ensures SaveExtrudeBody(fx, e, profile, direction, operation, ec1, ec2).tag == e.tag
  {
  }

  // Revolve

  /** The Axis child: Kind code, RefLocalID, Origin, Direction and the axis reference. */
  function SaveAxis(fx: Formats, a: RevolveAxis): Element
  {
    var e1 := SetIntAttribute(NewElement("Axis"), "Kind", AxisKindCode(a.kind));
    var e2 := SetAttribute(e1, "RefLocalID", a.referenceLocalID);
    var e3 := SetVecAttribute(fx.triple, e2, "Origin", a.origin);
    var e4 := SetVecAttribute(fx.triple, e3, "Direction", a.direction);
    InsertRefEntity(fx.triple, e4, "ReferenceEntity", a.referenceEntity)
  }

  /** SaveRevolve: ProfileSketchID, AngleKind code and both angles as attributes, then the Axis child. */
  function SaveRevolveBody(fx: Formats, e: Element, profileSketchID: string, axis: RevolveAxis,
                           angleKind: AngleKind, primary: real, secondary: real): Element
  {
    var e1 := SetAttribute(e, "ProfileSketchID", profileSketchID);
    var e2 := SetIntAttribute(e1, "AngleKind", AngleKindCode(angleKind));
    var e3 := SetRealAttribute(fx.attr, e2, "PrimaryAngle", primary);
    var e4 := SetRealAttribute(fx.attr, e3, "SecondaryAngle", secondary);
    InsertEndChild(e4, SaveAxis(fx, axis))
  }

  /** The revolve attributes are all written, though the loader reads none of them. */
  lemma {:induction false} RevolveAttributesWritten(fx: Formats, e: Element, profileSketchID: string, axis: RevolveAxis,
                                                    angleKind: AngleKind, primary: real, secondary: real)
    requires Faithful(fx.attr)
    ensures var r := SaveRevolveBody(fx, e, profileSketchID, axis, angleKind, primary, secondary);
      AttributeOr(r, "ProfileSketchID", "") == profileSketchID &&
      QueryInt(r, "AngleKind", 0) == AngleKindCode(angleKind) &&
      QueryReal(fx.attr, r, "PrimaryAngle", 0.0) == primary &&
      QueryReal(fx.attr, r, "SecondaryAngle", 0.0) == secondary &&
      r.children == e.children + [SaveAxis(fx, axis)]
  {
    var e1 := SetAttribute(e, "ProfileSketchID", profileSketchID);
    var e2 := SetIntAttribute(e1, "AngleKind", AngleKindCode(angleKind));
    var e3 := SetRealAttribute(fx.attr, e2, "PrimaryAngle", primary);
    var e4 := SetRealAttribute(fx.attr, e3, "SecondaryAngle", secondary);
    SetAttributeFrame(e1, "AngleKind", IntToString(AngleKindCode(angleKind)), "ProfileSketchID");
    SetAttributeFrame(e2, "PrimaryAngle", fx.attr.show(primary), "ProfileSketchID");
    SetAttributeFrame(e2, "PrimaryAngle", fx.attr.show(primary), "AngleKind");
    SetAttributeFrame(e3, "SecondaryAngle", fx.attr.show(secondary), "ProfileSketchID");
    SetAttributeFrame(e3, "SecondaryAngle", fx.attr.show(secondary), "AngleKind");
    SetAttributeFrame(e3, "SecondaryAngle", fx.attr.show(secondary), "PrimaryAngle");
    QueryIntOfSet(e1, "AngleKind", AngleKindCode(angleKind), 0);
    QueryRealOfSet(fx.attr, e2, "PrimaryAngle", primary, 0.0);
    QueryRealOfSet(fx.attr, e3, "SecondaryAngle", secondary, 0.0);
  }

  // Features

  function FeatureTypeName(f: Feature): string
  {
    match f.Kind()
    case SketchKind => "Sketch"
    case ExtrudeKind => "Extrude"
    case RevolveKind => "Revolve"
  }

  /** The body of the feature element, as the save function of its class writes it. */
  function SaveFeatureBody(fx: Formats, e: Element, f: Feature): Element
  {
    match f
    case Sketch(_, _, _, _, plane, segs, cons) => SaveSketchBody(fx, e, plane, segs, cons)
    case Extrude(_, _, _, _, profile, direction, ec1, ec2, operation, _, _) =>
      SaveExtrudeBody(fx, e, profile, direction, operation, ec1, ec2)
    case Revolve(_, _, _, _, profileSketchID, axis, angleKind, primary, secondary) =>
      SaveRevolveBody(fx, e, profileSketchID, axis, angleKind, primary, secondary)
  }

  /** ID, Name and Suppressed, written after the body; the external ID is not written. */
  function SaveFeatureBase(e: Element, f: Feature): Element
  {
    SetBoolAttribute(SetAttribute(SetAttribute(e, "ID", f.featureID), "Name", f.featureName), "Suppressed", f.isSuppressed)
  }

  /** SaveFeature: a Feature element with Type, the body of its class, then the base fields. */
  function SaveFeature(fx: Formats, f: Feature): Element
  {
    var e0 := SetAttribute(NewElement("Feature"), "Type", FeatureTypeName(f));
    SaveFeatureBase(SaveFeatureBody(fx, e0, f), f)
  }

  /**
   * LoadFeature: a missing Type, or one other than "Sketch", "Extrude" and
   * "Revolve" (exact case), gives null; otherwise the body of that class is
   * loaded (a revolve body is left at its defaults) and ID, Name (default
   * "") and Suppressed (default false) are read.
   */
  function LoadFeature(fx: Formats, e: Element): Option<Feature>
  {
    if "Type" !in e.attrs then None
    else
      var t := e.attrs["Type"];
      var body := if t == "Sketch" then Some(LoadSketch(fx, e))
                  else if t == "Extrude" then Some(LoadExtrude(fx, e))
                  else if t == "Revolve" then Some(NewRevolve())
                  else None;
      if body.None? then None
      else Some(body.value.(featureID := AttributeOr(e, "ID", ""), featureName := AttributeOr(e, "Name", ""),
                            isSuppressed := QueryBool(e, "Suppressed", false)))
  }

  /** A Feature element loads as null exactly when its Type is missing or names no feature class. */
  lemma LoadFeatureNull(fx: Formats, e: Element)
    ensures LoadFeature(fx, e).None? <==>
      !(Attribute(e, "Type") == Some("Sketch") || Attribute(e, "Type") == Some("Extrude") || Attribute(e, "Type") == Some("Revolve"))
    ensures LoadFeature(fx, e).Some? ==>
      LoadFeature(fx, e).value.featureID == AttributeOr(e, "ID", "") &&
      LoadFeature(fx, e).value.featureName == AttributeOr(e, "Name", "") &&
      LoadFeature(fx, e).value.externalID == ""
  {
  }

  /**
   * What a save and load keeps of a feature: ID, name and suppression,
   * never the external ID; a sketch's plane as RefSurvivor, its lines and
   * circles and its constraints as ConstraintSurvivor; an extrude as
   * ExtrudeBodySurvivor; a revolve only as a default revolve.
   */
  function FeatureSurvivor(f: Feature): (s: Feature)
    ensures s.Kind() == f.Kind() && s.featureID == f.featureID && s.featureName == f.featureName
    ensures s.isSuppressed == f.isSuppressed && s.externalID == ""
  {
    var body := match f
      case Sketch(_, _, _, _, plane, segs, cons) =>
        Sketch("", "", "", false, OptionalRefSurvivor(plane), SurvivingSegments(segs), ConstraintSurvivors(cons))
      case Extrude(_, _, _, _, profile, direction, ec1, ec2, operation, _, _) =>
        ExtrudeBodySurvivor(profile, direction, operation, ec1, ec2)
      case Revolve(_, _, _, _, _, _, _, _, _) => NewRevolve();
    body.(featureID := f.featureID, featureName := f.featureName, isSuppressed := f.isSuppressed)
  }

  /** The base attributes load as written and leave the children and the other attributes alone. */
  lemma {:induction false} SaveFeatureBaseFields(e: Element, f: Feature)
    ensures SaveFeatureBase(e, f).children == e.children
    ensures AttributeOr(SaveFeatureBase(e, f), "ID", "") == f.featureID
    ensures AttributeOr(SaveFeatureBase(e, f), "Name", "") == f.featureName
    ensures QueryBool(SaveFeatureBase(e, f), "Suppressed", false) == f.isSuppressed
    ensures Attribute(SaveFeatureBase(e, f), "Type") == Attribute(e, "Type")
    ensures Attribute(SaveFeatureBase(e, f), "Operation") == Attribute(e, "Operation")
  {
    var e1 := SetAttribute(e, "ID", f.featureID);
    var e2 := SetAttribute(e1, "Name", f.featureName);
    SetAttributeFrame(e1, "Name", f.featureName, "ID");
    SetAttributeFrame(e2, "Suppressed", BoolToString(f.isSuppressed), "ID");
    SetAttributeFrame(e2, "Suppressed", BoolToString(f.isSuppressed), "Name");
    QueryBoolOfSet(e2, "Suppressed", f.isSuppressed, false);
    SetAttributeFrame(e, "ID", f.featureID, "Type");
    SetAttributeFrame(e1, "Name", f.featureName, "Type");
    SetAttributeFrame(e2, "Suppressed", BoolToString(f.isSuppressed), "Type");
    SetAttributeFrame(e, "ID", f.featureID, "Operation");
    SetAttributeFrame(e1, "Name", f.featureName, "Operation");
    SetAttributeFrame(e2, "Suppressed", BoolToString(f.isSuppressed), "Operation");
  }

  /** The body writes no Type attribute, so the feature's Type is the one set first. */
  lemma {:induction false} SaveFeatureBodyType(fx: Formats, e: Element, f: Feature)
    ensures Attribute(SaveFeatureBody(fx, e, f), "Type") == Attribute(e, "Type")
    ensures SaveFeatureBody(fx, e, f).tag == e.tag
  {
    match f
    case Sketch(_, _, _, _, _, _, _) =>
    case Extrude(_, _, _, _, profile, direction, ec1, ec2, operation, _, _) =>
      SaveExtrudeOperation(fx, e, profile, direction, operation, ec1, ec2);
    case Revolve(_, _, _, _, profileSketchID, axis, angleKind, primary, secondary) =>
      var e1 := SetAttribute(e, "ProfileSketchID", profileSketchID);
      var e2 := SetIntAttribute(e1, "AngleKind", AngleKindCode(angleKind));
      var e3 := SetRealAttribute(fx.attr, e2, "PrimaryAngle", primary);
      SetAttributeFrame(e, "ProfileSketchID", profileSketchID, "Type");
      SetAttributeFrame(e1, "AngleKind", IntToString(AngleKindCode(angleKind)), "Type");
      SetAttributeFrame(e2, "PrimaryAngle", fx.attr.show(primary), "Type");
      SetAttributeFrame(e3, "SecondaryAngle", fx.attr.show(secondary), "Type");
  }

  /** SaveFeature always writes a Feature element. */
  lemma SaveFeatureTag(fx: Formats, f: Feature)
    ensures SaveFeature(fx, f).tag == "Feature"
  {
    SaveFeatureBodyType(fx, SetAttribute(NewElement("Feature"), "Type", FeatureTypeName(f)), f);
  }

  lemma {:induction false} SketchFeatureRoundTrip(fx: Formats, f: Feature)
    requires FaithfulFormats(fx) && f.Sketch?
    ensures LoadFeature(fx, SaveFeature(fx, f)) == Some(FeatureSurvivor(f))
  {
    var e0 := SetAttribute(NewElement("Feature"), "Type", "Sketch");
    var body := SaveFeatureBody(fx, e0, f);
    var e := SaveFeature(fx, f);
    SaveFeatureBodyType(fx, e0, f);
    SaveFeatureBaseFields(body, f);
    SketchBodyRoundTrip(fx, e0, e, f.referencePlane, f.segments, f.constraints);
  }

  lemma {:induction false} ExtrudeFeatureRoundTrip(fx: Formats, f: Feature)
    requires FaithfulFormats(fx) && f.Extrude?
    ensures LoadFeature(fx, SaveFeature(fx, f)) == Some(FeatureSurvivor(f))
  {
    var e0 := SetAttribute(NewElement("Feature"), "Type", "Extrude");
    var body := SaveFeatureBody(fx, e0, f);
    var e := SaveFeature(fx, f);
    SaveFeatureBodyType(fx, e0, f);
    SaveFeatureBaseFields(body, f);
    SaveExtrudeOperation(fx, e0, f.sketchProfile, f.direction, f.operation, f.endCondition1, f.endCondition2);
    ExtrudeBodyRoundTrip(fx, e0, e, f.sketchProfile, f.direction, f.operation, f.endCondition1, f.endCondition2);
  }

  lemma {:induction false} RevolveFeatureRoundTrip(fx: Formats, f: Feature)
    requires FaithfulFormats(fx) && f.Revolve?
    ensures LoadFeature(fx, SaveFeature(fx, f)) == Some(FeatureSurvivor(f))
  {
    var e0 := SetAttribute(NewElement("Feature"), "Type", "Revolve");
    var body := SaveFeatureBody(fx, e0, f);
    SaveFeatureBodyType(fx, e0, f);
    SaveFeatureBaseFields(body, f);
  }

  /** Save then load of any feature gives back FeatureSurvivor of it. */
  lemma {:induction false} FeatureRoundTrip(fx: Formats, f: Feature)
    requires FaithfulFormats(fx)
    ensures LoadFeature(fx, SaveFeature(fx, f)) == Some(FeatureSurvivor(f))
  {
    match f.Kind()
    case SketchKind => SketchFeatureRoundTrip(fx, f);
    case ExtrudeKind => ExtrudeFeatureRoundTrip(fx, f);
    case RevolveKind => RevolveFeatureRoundTrip(fx, f);
  }

  /**
   * A feature the format carries whole comes back unchanged: a sketch with
   * an empty external ID, no plane, only lines and circles, and
   * constraints that survive whole.
   */
  lemma {:induction false} PlainSketchSurvives(f: Feature)
    requires f.Sketch? && f.externalID == "" && f.referencePlane.None?
    requires forall i :: 0 <= i < |f.segments| ==> f.segments[i].SketchLine? || f.segments[i].SketchCircle?
    requires forall i :: 0 <= i < |f.constraints| ==> ConstraintSurvivor(f.constraints[i]) == f.constraints[i]
    ensures FeatureSurvivor(f) == f
  {
    SurvivingLinesAndCircles(f.segments);
    ConstraintSurvivorsWhole(f.constraints);
  }

  lemma {:induction false} ConstraintSurvivorsWhole(cons: seq<Constraint>)
    requires forall i :: 0 <= i < |cons| ==> ConstraintSurvivor(cons[i]) == cons[i]
    ensures ConstraintSurvivors(cons) == cons
  {
    if cons != [] {
      ConstraintSurvivorsWhole(cons[..|cons| - 1]);
      assert cons[..|cons| - 1] + [cons[|cons| - 1]] == cons;
    }
  }

  /** LoadFeature with the loops of LoadSketch. */
  method LoadFeatureElement(fx: Formats, e: Element) returns (f: Option<Feature>)
    ensures f == LoadFeature(fx, e)
  {
    var t := Attribute(e, "Type");
    if t.None? {
      return None;
    }
    var body: Feature;
    if t.value == "Sketch" {
      body := LoadSketchElement(fx, e);
    } else if t.value == "Extrude" {
      body := LoadExtrude(fx, e);
    } else if t.value == "Revolve" {
      body := NewRevolve();
    } else {
      return None;
    }
    f := Some(body.(featureID := AttributeOr(e, "ID", ""), featureName := AttributeOr(e, "Name", ""),
                    isSuppressed := QueryBool(e, "Suppressed", false)));
  }

  /** SaveFeature with the loops of SaveSketch. */
  method SaveFeatureElement(fx: Formats, f: Feature) returns (e: Element)
    ensures e == SaveFeature(fx, f)
  {
    e := SetAttribute(NewElement("Feature"), "Type", FeatureTypeName(f));
    if f.Sketch? {
      e := SaveSketch(fx, e, f.referencePlane, f.segments, f.constraints);
    } else {
      e := SaveFeatureBody(fx, e, f);
    }
    e := SaveFeatureBase(e, f);
  }
}
