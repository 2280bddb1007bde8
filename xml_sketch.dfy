/**
 * Saving and loading sketch contents in the XML codec of
 * src/TinyXMLSerializer.cpp: segments, constraints with their integer type
 * code and comma-joined entity IDs, and the sketch body (reference plane,
 * Segments and Constraints children).
 */
module XmlSketchCodec {
  import opened Wrappers
  import opened Text
  import opened Geometry
  import opened Features
  import opened Xml
  import opened XmlTriples
  import opened XmlRefCodec
  import opened EnumCodes

  // Constraint entity IDs

  /** The Entities text: the IDs with a ',' between consecutive ones. */
  function JoinIds(ids: seq<string>): string
  {
    if |ids| == 0 then ""
    else if |ids| == 1 then ids[0]
    else ids[0] + "," + JoinIds(ids[1..])
  }

  predicate NoComma(s: string)
  {
    forall k :: 0 <= k < |s| ==> s[k] != ','
  }

  /**
   * The items std::getline(ss, item, ',') yields from the rest of the text
   * when `item` has been read so far: a ',' ends an item, even an empty one,
   * and the end of the text ends the last item only when it is non-empty.
   */
  function SplitFrom(item: string, rest: string): (r: seq<string>)
    requires NoComma(item)
    ensures forall i :: 0 <= i < |r| ==> NoComma(r[i])
    decreases |rest|
  {
    if rest == [] then (if item == "" then [] else [item])
    else if rest[0] == ',' then [item] + SplitFrom("", rest[1..])
    else SplitFrom(item + [rest[0]], rest[1..])
  }

  /** The entity IDs the getline loop reads from an Entities text. */
  function SplitIds(text: string): seq<string>
  {
    SplitFrom("", text)
  }

  lemma {:induction false} JoinIdsSnoc(ids: seq<string>, x: string)
    requires ids != []
    ensures JoinIds(ids + [x]) == JoinIds(ids) + "," + x
  {
    if |ids| == 1 {
      assert (ids + [x])[1..] == [x];
    } else {
      assert (ids + [x])[1..] == ids[1..] + [x];
      JoinIdsSnoc(ids[1..], x);
    }
  }

  /** An item without commas followed by a ',' is read as one item. */
  lemma {:induction false} SplitFromItem(item: string, a: string, rest: string)
    requires NoComma(item) && NoComma(a)
    ensures SplitFrom(item, a + "," + rest) == [item + a] + SplitFrom("", rest)
    decreases |a|
  {
    if a == [] {
      assert a + "," + rest == [','] + rest;
      assert (a + "," + rest)[1..] == rest;
      assert item + a == item;
    } else {
      assert (a + "," + rest)[0] == a[0];
      assert (a + "," + rest)[1..] == a[1..] + "," + rest;
      assert item + [a[0]] + a[1..] == item + a;
      SplitFromItem(item + [a[0]], a[1..], rest);
    }
  }

  /** The last item, without a trailing ',', is read when it is non-empty. */
  lemma {:induction false} SplitFromLast(item: string, a: string)
    requires NoComma(item) && NoComma(a)
    ensures SplitFrom(item, a) == if item + a == "" then [] else [item + a]
    decreases |a|
  {
    if a == [] {
      assert item + a == item;
    } else {
      assert a[1..] == a[1..];
      assert item + [a[0]] + a[1..] == item + a;
      SplitFromLast(item + [a[0]], a[1..]);
    }
  }

  /**
   * The IDs round-trip through the Entities text when no ID contains ','
   * and the last ID is non-empty; the empty list is the empty text.
   */
  lemma {:induction false} SplitJoinRoundTrip(ids: seq<string>)
    requires forall i :: 0 <= i < |ids| ==> NoComma(ids[i])
    requires ids == [] || ids[|ids| - 1] != ""
    ensures SplitIds(JoinIds(ids)) == ids
  {
    if |ids| == 1 {
      SplitFromLast("", ids[0]);
      assert "" + ids[0] == ids[0];
    } else if |ids| > 1 {
      SplitFromItem("", ids[0], JoinIds(ids[1..]));
      assert "" + ids[0] == ids[0];
      SplitJoinRoundTrip(ids[1..]);
      assert ids == [ids[0]] + ids[1..];
    }
  }

  lemma {:induction false} SplitFromEmpty(item: string, rest: string)
    requires NoComma(item)
    ensures SplitFrom(item, rest) == [] <==> item == "" && rest == ""
    decreases |rest|
  {
    if rest != [] && rest[0] != ',' {
      SplitFromEmpty(item + [rest[0]], rest[1..]);
    }
  }

  lemma {:induction false} JoinSplitFrom(item: string, rest: string)
    requires NoComma(item)
    requires rest == [] || rest[|rest| - 1] != ','
    ensures JoinIds(SplitFrom(item, rest)) == item + rest
    decreases |rest|
  {
    if rest == [] {
      assert item + rest == item;
    } else if rest[0] == ',' {
      var tail := SplitFrom("", rest[1..]);
      SplitFromEmpty("", rest[1..]);
      JoinSplitFrom("", rest[1..]);
      assert ([item] + tail)[1..] == tail;
      assert "" + rest[1..] == rest[1..];
      assert item + "," + rest[1..] == item + rest;
    } else {
      JoinSplitFrom(item + [rest[0]], rest[1..]);
      assert item + [rest[0]] + rest[1..] == item + rest;
    }
  }

  /** Conversely, a text that does not end in ',' is written back unchanged from the IDs read from it. */
  lemma {:induction false} JoinSplitRoundTrip(text: string)
    requires text == [] || text[|text| - 1] != ','
    ensures JoinIds(SplitIds(text)) == text
  {
    JoinSplitFrom("", text);
    assert "" + text == text;
  }

  /** A trailing empty ID is lost. */
  lemma TrailingEmptyIdLost()
    ensures SplitIds(JoinIds(["a", ""])) == ["a"]
  {
    assert JoinIds(["a", ""]) == "a" + "," + "";
    SplitFromItem("", "a", "");
    assert "" + "a" == "a";
  }

  /** An ID holding a ',' comes back as two IDs. */
  lemma CommaInIdSplits()
    ensures SplitIds(JoinIds(["a,b"])) == ["a", "b"]
  {
    assert JoinIds(["a,b"]) == "a" + "," + "b";
    SplitFromItem("", "a", "b");
    SplitFromLast("", "b");
    assert "" + "a" == "a" && "" + "b" == "b";
  }

  /** The string-building loop of SaveConstraint. */
  method JoinEntityIds(ids: seq<string>) returns (s: string)
    ensures s == JoinIds(ids)
  {
    s := "";
    var i := 0;
    while i < |ids|
      invariant 0 <= i <= |ids|
      invariant s == if i == 0 then "" else JoinIds(ids[..i]) + (if i < |ids| then "," else "")
    {
      if i > 0 {
        JoinIdsSnoc(ids[..i], ids[i]);
      }
      assert ids[..i + 1] == ids[..i] + [ids[i]];
      s := s + ids[i];
      if i < |ids| - 1 {
        s := s + ",";
      }
      i := i + 1;
    }
    assert ids[..|ids|] == ids;
  }

  /** The getline loop of LoadConstraint, one character at a time. */
  method SplitEntities(text: string) returns (items: seq<string>)
    ensures items == SplitIds(text)
  {
    items := [];
    var item := "";
    var i := 0;
    while i < |text|
      invariant 0 <= i <= |text|
      invariant NoComma(item)
      invariant items + SplitFrom(item, text[i..]) == SplitIds(text)
    {
      assert text[i..][0] == text[i] && text[i..][1..] == text[i + 1..];
      if text[i] == ',' {
        items := items + [item];
        item := "";
      } else {
        item := item + [text[i]];
      }
      i := i + 1;
    }
    if item != "" {
      items := items + [item];
    }
  }

  // Segments

  function SegmentTypeName(s: Segment): string
  {
    match s
    case SketchLine(_, _, _, _) => "Line"
    case SketchCircle(_, _, _, _) => "Circle"
    case SketchArc(_, _, _, _, _, _, _) => "Arc"
    case SketchPoint(_, _, _) => "Point"
  }

  /** SaveSketchSeg: LocalID always, Construction except for points, Type, then the geometry of the segment's class. */
  function SaveSegment(fx: Formats, s: Segment): Element
  {
    var e0 := SetAttribute(NewElement("Segment"), "LocalID", s.localID);
    var e1 := if s.SketchPoint? then e0 else SetBoolAttribute(e0, "Construction", s.isConstruction);
    var e2 := SetAttribute(e1, "Type", SegmentTypeName(s));
    match s
    case SketchLine(_, _, start, end) =>
      SetVecAttribute(fx.triple, SetVecAttribute(fx.triple, e2, "Start", start), "End", end)
    case SketchCircle(_, _, center, radius) =>
      SetRealAttribute(fx.attr, SetVecAttribute(fx.triple, e2, "Center", center), "Radius", radius)
    case SketchArc(_, _, center, radius, startAngle, endAngle, clockwise) =>
      var e3 := SetVecAttribute(fx.triple, e2, "Center", center);
      var e4 := SetRealAttribute(fx.attr, e3, "Radius", radius);
      var e5 := SetRealAttribute(fx.attr, e4, "StartAngle", startAngle);
      var e6 := SetRealAttribute(fx.attr, e5, "EndAngle", endAngle);
      SetBoolAttribute(e6, "Clockwise", clockwise)
    case SketchPoint(_, _, position) =>
      SetVecAttribute(fx.triple, e2, "Position", position)
  }

  /**
   * LoadSketchSeg: only the Types "Line" and "Circle" (exact case) are
   * rebuilt; a missing LocalID is "", a missing Construction false and a
   * missing Radius 0.
   */
  function LoadSegment(fx: Formats, e: Element): Option<Segment>
  {
    if "Type" !in e.attrs then None
    else
      var t := e.attrs["Type"];
      var localID := AttributeOr(e, "LocalID", "");
      var construction := QueryBool(e, "Construction", false);
      if t == "Line" then
        Some(SketchLine(localID, construction, ParseVecAttribute(fx.triple, e, "Start"), ParseVecAttribute(fx.triple, e, "End")))
      else if t == "Circle" then
        Some(SketchCircle(localID, construction, ParseVecAttribute(fx.triple, e, "Center"), QueryReal(fx.attr, e, "Radius", 0.0)))
      else None
  }

  /** A segment element is rebuilt exactly when its Type is "Line" or "Circle". */
  lemma LoadSegmentNull(fx: Formats, e: Element)
    ensures LoadSegment(fx, e).Some? <==> Attribute(e, "Type") == Some("Line") || Attribute(e, "Type") == Some("Circle")
    ensures LoadSegment(fx, e).Some? ==> LoadSegment(fx, e).value.localID == AttributeOr(e, "LocalID", "")
  {
  }

  /** What a save and load keeps of a segment: lines and circles whole, nothing of arcs and points. */
  function SegmentSurvivor(s: Segment): Option<Segment>
  {
    if s.SketchLine? || s.SketchCircle? then Some(s) else None
  }

  /** The LocalID and Construction attributes load as written. */
  lemma {:induction false} SegmentHeader(e: Element, localID: string, construction: bool)
    requires Attribute(e, "LocalID") == Some(localID)
    requires Attribute(e, "Construction") == Some(BoolToString(construction))
    ensures AttributeOr(e, "LocalID", "") == localID
    ensures QueryBool(e, "Construction", false) == construction
  {
    ParseBoolToString(construction);
  }

  /** The element of a line or circle before its geometry is written. */
  function SegmentHead(s: Segment): Element
  {
    SetAttribute(SetBoolAttribute(SetAttribute(NewElement("Segment"), "LocalID", s.localID),
                                  "Construction", s.isConstruction), "Type", SegmentTypeName(s))
  }

  lemma {:induction false} SegmentHeadAttributes(s: Segment)
    requires !s.SketchPoint?
    ensures Attribute(SegmentHead(s), "LocalID") == Some(s.localID)
    ensures Attribute(SegmentHead(s), "Construction") == Some(BoolToString(s.isConstruction))
    ensures Attribute(SegmentHead(s), "Type") == Some(SegmentTypeName(s))
  {
    var e0 := SetAttribute(NewElement("Segment"), "LocalID", s.localID);
    var e1 := SetBoolAttribute(e0, "Construction", s.isConstruction);
    SetAttributeFrame(e0, "Construction", BoolToString(s.isConstruction), "LocalID");
    SetAttributeFrame(e1, "Type", SegmentTypeName(s), "LocalID");
    SetAttributeFrame(e1, "Type", SegmentTypeName(s), "Construction");
  }

  lemma {:induction false} LineRoundTrip(fx: Formats, s: Segment)
    requires FaithfulFormats(fx) && s.SketchLine?
    ensures LoadSegment(fx, SaveSegment(fx, s)) == Some(s)
  {
    var h := SegmentHead(s);
    var e3 := SetVecAttribute(fx.triple, h, "Start", s.startPos);
    var e := SetVecAttribute(fx.triple, e3, "End", s.endPos);
    assert SaveSegment(fx, s) == e;
    SegmentHeadAttributes(s);
    SetAttributeFrame(h, "Start", FormatVec(fx.triple, s.startPos), "LocalID");
    SetAttributeFrame(h, "Start", FormatVec(fx.triple, s.startPos), "Construction");
    SetAttributeFrame(h, "Start", FormatVec(fx.triple, s.startPos), "Type");
    SetAttributeFrame(e3, "End", FormatVec(fx.triple, s.endPos), "LocalID");
    SetAttributeFrame(e3, "End", FormatVec(fx.triple, s.endPos), "Construction");
    SetAttributeFrame(e3, "End", FormatVec(fx.triple, s.endPos), "Type");
    SetAttributeFrame(e3, "End", FormatVec(fx.triple, s.endPos), "Start");
    SegmentHeader(e, s.localID, s.isConstruction);
    ParseVecOfText(fx.triple, e, "Start", s.startPos);
    ParseVecOfText(fx.triple, e, "End", s.endPos);
  }

  lemma {:induction false} CircleRoundTrip(fx: Formats, s: Segment)
    requires FaithfulFormats(fx) && s.SketchCircle?
    ensures LoadSegment(fx, SaveSegment(fx, s)) == Some(s)
  {
    var h := SegmentHead(s);
    var e3 := SetVecAttribute(fx.triple, h, "Center", s.center);
    var e := SetRealAttribute(fx.attr, e3, "Radius", s.radius);
    assert SaveSegment(fx, s) == e;
    SegmentHeadAttributes(s);
    SetAttributeFrame(h, "Center", FormatVec(fx.triple, s.center), "LocalID");
    SetAttributeFrame(h, "Center", FormatVec(fx.triple, s.center), "Construction");
    SetAttributeFrame(h, "Center", FormatVec(fx.triple, s.center), "Type");
    SetAttributeFrame(e3, "Radius", fx.attr.show(s.radius), "LocalID");
    SetAttributeFrame(e3, "Radius", fx.attr.show(s.radius), "Construction");
    SetAttributeFrame(e3, "Radius", fx.attr.show(s.radius), "Type");
    SetAttributeFrame(e3, "Radius", fx.attr.show(s.radius), "Center");
    SegmentHeader(e, s.localID, s.isConstruction);
    ParseVecOfText(fx.triple, e, "Center", s.center);
    QueryRealOfSet(fx.attr, e3, "Radius", s.radius, 0.0);
  }

  /** Arcs and points are written with Types the loader does not rebuild. */
  lemma {:induction false} ArcOrPointDropped(fx: Formats, s: Segment)
    requires s.SketchArc? || s.SketchPoint?
    ensures LoadSegment(fx, SaveSegment(fx, s)).None?
  {
    var e0 := SetAttribute(NewElement("Segment"), "LocalID", s.localID);
    var e1 := if s.SketchPoint? then e0 else SetBoolAttribute(e0, "Construction", s.isConstruction);
    var e2 := SetAttribute(e1, "Type", SegmentTypeName(s));
    var e := SaveSegment(fx, s);
    if s.SketchArc? {
      var e3 := SetVecAttribute(fx.triple, e2, "Center", s.center);
      var e4 := SetRealAttribute(fx.attr, e3, "Radius", s.radius);
      var e5 := SetRealAttribute(fx.attr, e4, "StartAngle", s.startAngle);
      var e6 := SetRealAttribute(fx.attr, e5, "EndAngle", s.endAngle);
      assert e == SetBoolAttribute(e6, "Clockwise", s.isClockwise);
      SetAttributeFrame(e2, "Center", FormatVec(fx.triple, s.center), "Type");
      SetAttributeFrame(e3, "Radius", fx.attr.show(s.radius), "Type");
      SetAttributeFrame(e4, "StartAngle", fx.attr.show(s.startAngle), "Type");
      SetAttributeFrame(e5, "EndAngle", fx.attr.show(s.endAngle), "Type");
      SetAttributeFrame(e6, "Clockwise", BoolToString(s.isClockwise), "Type");
      assert Attribute(e, "Type") == Some("Arc");
    } else {
      assert e == SetVecAttribute(fx.triple, e2, "Position", s.position);
      SetAttributeFrame(e2, "Position", FormatVec(fx.triple, s.position), "Type");
      assert Attribute(e, "Type") == Some("Point");
    }
  }

  /** Lines and circles survive a save and load whole; arcs and points are lost. */
  lemma {:induction false} SegmentRoundTrip(fx: Formats, s: Segment)
    requires FaithfulFormats(fx)
    ensures LoadSegment(fx, SaveSegment(fx, s)) == SegmentSurvivor(s)
  {
    if s.SketchLine? {
      LineRoundTrip(fx, s);
    } else if s.SketchCircle? {
      CircleRoundTrip(fx, s);
    } else {
      ArcOrPointDropped(fx, s);
    }
  }

  /** Saving the segments in order, as SaveSketch's first loop does. */
  function SaveSegmentList(fx: Formats, segs: seq<Segment>): (r: seq<Element>)
    ensures |r| == |segs|
  {
    if segs == [] then [] else SaveSegmentList(fx, segs[..|segs| - 1]) + [SaveSegment(fx, segs[|segs| - 1])]
  }

  /** The segments rebuilt from a list of Segment elements, in order, skipping those that load as null. */
  function LoadSegmentList(fx: Formats, elems: seq<Element>): seq<Segment>
  {
    if elems == [] then []
    else
      var s := LoadSegment(fx, elems[|elems| - 1]);
      LoadSegmentList(fx, elems[..|elems| - 1]) + (if s.Some? then [s.value] else [])
  }

  /** The lines and circles of a segment list, in order. */
  function SurvivingSegments(segs: seq<Segment>): (r: seq<Segment>)
    ensures |r| <= |segs|
    ensures forall i :: 0 <= i < |r| ==> r[i] in segs && (r[i].SketchLine? || r[i].SketchCircle?)
  {
    if segs == [] then []
    else
      var s := SegmentSurvivor(segs[|segs| - 1]);
      SurvivingSegments(segs[..|segs| - 1]) + (if s.Some? then [s.value] else [])
  }

  lemma {:induction false} SegmentListRoundTrip(fx: Formats, segs: seq<Segment>)
    requires FaithfulFormats(fx)
    ensures LoadSegmentList(fx, SaveSegmentList(fx, segs)) == SurvivingSegments(segs)
  {
    if segs != [] {
      var saved := SaveSegmentList(fx, segs);
      assert saved[..|saved| - 1] == SaveSegmentList(fx, segs[..|segs| - 1]);
      SegmentListRoundTrip(fx, segs[..|segs| - 1]);
      SegmentRoundTrip(fx, segs[|segs| - 1]);
    }
  }

  /** A sketch made only of lines and circles keeps all its segments. */
  lemma {:induction false} SurvivingLinesAndCircles(segs: seq<Segment>)
    requires forall i :: 0 <= i < |segs| ==> segs[i].SketchLine? || segs[i].SketchCircle?
    ensures SurvivingSegments(segs) == segs
  {
    if segs != [] {
      SurvivingLinesAndCircles(segs[..|segs| - 1]);
      assert segs[..|segs| - 1] + [segs[|segs| - 1]] == segs;
    }
  }

  lemma SavedSegmentTag(fx: Formats, s: Segment)
    ensures SaveSegment(fx, s).tag == "Segment"
  {
  }

  /** Every saved segment element is tagged Segment, so the sibling walk visits them all. */
  lemma {:induction false} NamedSavedSegments(fx: Formats, segs: seq<Segment>)
    ensures Named(SaveSegmentList(fx, segs), "Segment") == SaveSegmentList(fx, segs)
  {
    if segs != [] {
      var init := SaveSegmentList(fx, segs[..|segs| - 1]);
      var last := SaveSegment(fx, segs[|segs| - 1]);
      assert SaveSegmentList(fx, segs) == init + [last];
      NamedSavedSegments(fx, segs[..|segs| - 1]);
      SavedSegmentTag(fx, segs[|segs| - 1]);
      assert Named([last], "Segment") == [last];
      NamedAppend(init, [last], "Segment");
    }
  }

  // Constraints

  /** SaveConstraint: the type as its integer code, the dimension and the joined entity IDs. */
  function SaveConstraint(fx: Formats, c: Constraint): Element
  {
    var e0 := SetIntAttribute(NewElement("Constraint"), "Type", CodeOf(c.constraintType));
    var e1 := SetRealAttribute(fx.attr, e0, "Dimension", c.dimensionValue);
    SetAttribute(e1, "Entities", JoinIds(c.entityLocalIDs))
  }

  /** LoadConstraint: a missing Type is code 0, a missing Dimension 0, missing Entities no IDs. */
  function LoadConstraint(fx: Formats, e: Element): Constraint
  {
    Constraint(TypeOfCode(QueryInt(e, "Type", 0)),
               if "Entities" in e.attrs then SplitIds(e.attrs["Entities"]) else [],
               QueryReal(fx.attr, e, "Dimension", 0.0))
  }

  /** What a save and load keeps of a constraint: the code's type, the re-split IDs and the dimension. */
  function ConstraintSurvivor(c: Constraint): Constraint
  {
    Constraint(TypeOfCode(CodeOf(c.constraintType)), SplitIds(JoinIds(c.entityLocalIDs)), c.dimensionValue)
  }

  lemma {:induction false} ConstraintRoundTrip(fx: Formats, c: Constraint)
    requires FaithfulFormats(fx)
    ensures LoadConstraint(fx, SaveConstraint(fx, c)) == ConstraintSurvivor(c)
  {
    var e0 := SetIntAttribute(NewElement("Constraint"), "Type", CodeOf(c.constraintType));
    var e1 := SetRealAttribute(fx.attr, e0, "Dimension", c.dimensionValue);
    var e := SaveConstraint(fx, c);
    QueryIntOfSet(NewElement("Constraint"), "Type", CodeOf(c.constraintType), 0);
    QueryRealOfSet(fx.attr, e0, "Dimension", c.dimensionValue, 0.0);
    SetAttributeFrame(e1, "Entities", JoinIds(c.entityLocalIDs), "Type");
    SetAttributeFrame(e1, "Entities", JoinIds(c.entityLocalIDs), "Dimension");
  }

  /** A constraint with a canonical type and IDs that are free of ',' with a non-empty last one comes back unchanged. */
  lemma {:induction false} ConstraintSurvivesWhole(c: Constraint)
    requires Canonical(c.constraintType)
    requires forall i :: 0 <= i < |c.entityLocalIDs| ==> NoComma(c.entityLocalIDs[i])
    requires c.entityLocalIDs == [] || c.entityLocalIDs[|c.entityLocalIDs| - 1] != ""
    ensures ConstraintSurvivor(c) == c
  {
    TypeOfCodeOf(c.constraintType);
    SplitJoinRoundTrip(c.entityLocalIDs);
  }

  function SaveConstraintList(fx: Formats, cons: seq<Constraint>): (r: seq<Element>)
    ensures |r| == |cons|
  {
    if cons == [] then [] else SaveConstraintList(fx, cons[..|cons| - 1]) + [SaveConstraint(fx, cons[|cons| - 1])]
  }

  function LoadConstraintList(fx: Formats, elems: seq<Element>): (r: seq<Constraint>)
    ensures |r| == |elems|
  {
    if elems == [] then [] else LoadConstraintList(fx, elems[..|elems| - 1]) + [LoadConstraint(fx, elems[|elems| - 1])]
  }

  function ConstraintSurvivors(cons: seq<Constraint>): (r: seq<Constraint>)
    ensures |r| == |cons|
  {
    if cons == [] then [] else ConstraintSurvivors(cons[..|cons| - 1]) + [ConstraintSurvivor(cons[|cons| - 1])]
  }

  lemma {:induction false} ConstraintListRoundTrip(fx: Formats, cons: seq<Constraint>)
    requires FaithfulFormats(fx)
    ensures LoadConstraintList(fx, SaveConstraintList(fx, cons)) == ConstraintSurvivors(cons)
  {
    if cons != [] {
      var saved := SaveConstraintList(fx, cons);
      assert saved[..|saved| - 1] == SaveConstraintList(fx, cons[..|cons| - 1]);
      ConstraintListRoundTrip(fx, cons[..|cons| - 1]);
      ConstraintRoundTrip(fx, cons[|cons| - 1]);
    }
  }

  lemma {:induction false} NamedSavedConstraints(fx: Formats, cons: seq<Constraint>)
    ensures Named(SaveConstraintList(fx, cons), "Constraint") == SaveConstraintList(fx, cons)
  {
    if cons != [] {
      NamedSavedConstraints(fx, cons[..|cons| - 1]);
      NamedAppend(SaveConstraintList(fx, cons[..|cons| - 1]), [SaveConstraint(fx, cons[|cons| - 1])], "Constraint");
    }
  }

  // The sketch body

  /**
   * SaveSketch: the reference plane when there is one, then a Segments
   * child and a Constraints child, each holding one element per item in
   * order.
   */
  function SaveSketchBody(fx: Formats, e: Element, plane: Option<Reference>,
                          segs: seq<Segment>, cons: seq<Constraint>): Element
  {
    var e1 := InsertRefEntity(fx.triple, e, "ReferencePlane", plane);
    var e2 := InsertEndChild(e1, Element("Segments", map[], SaveSegmentList(fx, segs)));
    InsertEndChild(e2, Element("Constraints", map[], SaveConstraintList(fx, cons)))
  }

  /** The segments under the first Segments child, or none. */
  function LoadSegmentsOf(fx: Formats, e: Element): seq<Segment>
  {
    var segsElem := FirstChildElement(e, "Segments");
    if segsElem.Some? then LoadSegmentList(fx, Named(segsElem.value.children, "Segment")) else []
  }

  /** The constraints under the first Constraints child, or none. */
  function LoadConstraintsOf(fx: Formats, e: Element): seq<Constraint>
  {
    var consElem := FirstChildElement(e, "Constraints");
    if consElem.Some? then LoadConstraintList(fx, Named(consElem.value.children, "Constraint")) else []
  }

  /** LoadSketch into a fresh CSketch: the first ReferencePlane child, then the segments and constraints. */
  function LoadSketch(fx: Formats, e: Element): (s: Feature)
    ensures s.Sketch? && s.featureID == "" && s.featureName == "" && s.externalID == "" && !s.isSuppressed
  {
    Sketch("", "", "", false, LoadRefEntity(fx.triple, FirstChildElement(e, "ReferencePlane")),
           LoadSegmentsOf(fx, e), LoadConstraintsOf(fx, e))
  }

  /** What a save and load keeps of a reference that may be null. */
  function OptionalRefSurvivor(r: Option<Reference>): Option<Reference>
  {
    if r.Some? then Some(RefSurvivor(r.value)) else None
  }

  /** LoadSketch of an element whose children are an optional ReferencePlane, then Segments, then Constraints. */
  lemma {:induction false} LoadSketchOfChildren(fx: Formats, e: Element, front: seq<Element>,
                                                segsElem: Element, consElem: Element)
    requires |front| <= 1 && (forall i :: 0 <= i < |front| ==> front[i].tag == "ReferencePlane")
    requires segsElem.tag == "Segments" && consElem.tag == "Constraints"
    requires e.children == front + [segsElem, consElem]
    ensures LoadSketch(fx, e) ==
      Sketch("", "", "", false, LoadRefEntity(fx.triple, if front == [] then None else Some(front[0])),
             LoadSegmentList(fx, Named(segsElem.children, "Segment")),
             LoadConstraintList(fx, Named(consElem.children, "Constraint")))
  {
    FirstNamedAppend(front, [segsElem, consElem], "Segments");
    FirstNamedAppend(front, [segsElem, consElem], "Constraints");
    FirstNamedAppend(front, [segsElem, consElem], "ReferencePlane");
    assert FirstNamed([segsElem, consElem], "Constraints") == Some(consElem) by {
      assert [segsElem, consElem][1..] == [consElem];
    }
    assert FirstNamed([segsElem, consElem], "ReferencePlane") == None by {
      assert [segsElem, consElem][1..] == [consElem];
    }
  }

  /**
   * The sketch body read back from an element whose children are the ones
   * SaveSketchBody appended to a childless element: the plane as
   * RefSurvivor, the lines and circles, and every constraint as
   * ConstraintSurvivor.
   */
  lemma {:induction false} SketchBodyRoundTrip(fx: Formats, e0: Element, e: Element, plane: Option<Reference>,
                                               segs: seq<Segment>, cons: seq<Constraint>)
    requires FaithfulFormats(fx)
    requires e0.children == []
    requires e.children == SaveSketchBody(fx, e0, plane, segs, cons).children
    ensures LoadSketch(fx, e) ==
      Sketch("", "", "", false, OptionalRefSurvivor(plane), SurvivingSegments(segs), ConstraintSurvivors(cons))
  {
    var segsElem := Element("Segments", map[], SaveSegmentList(fx, segs));
    var consElem := Element("Constraints", map[], SaveConstraintList(fx, cons));
    var front := if plane.Some? then [SaveRefEntity(fx.triple, "ReferencePlane", plane.value)] else [];
    if plane.Some? {
      SavedTypeName(fx.triple, "ReferencePlane", plane.value);
    }
    SketchBodyChildren(fx, e0, plane, segs, cons);
    LoadSketchOfChildren(fx, e, front, segsElem, consElem);
    assert LoadSegmentList(fx, Named(segsElem.children, "Segment")) == SurvivingSegments(segs) by {
      NamedSavedSegments(fx, segs);
      SegmentListRoundTrip(fx, segs);
    }
    assert LoadConstraintList(fx, Named(consElem.children, "Constraint")) == ConstraintSurvivors(cons) by {
      NamedSavedConstraints(fx, cons);
      ConstraintListRoundTrip(fx, cons);
    }
    assert LoadRefEntity(fx.triple, if front == [] then None else Some(front[0])) == OptionalRefSurvivor(plane) by {
      if plane.Some? {
        RefEntityRoundTrip(fx.triple, "ReferencePlane", plane.value);
      }
    }
  }

  /** The children SaveSketchBody gives a childless element. */
  lemma SketchBodyChildren(fx: Formats, e0: Element, plane: Option<Reference>, segs: seq<Segment>, cons: seq<Constraint>)
    requires e0.children == []
    ensures SaveSketchBody(fx, e0, plane, segs, cons).children ==
      (if plane.Some? then [SaveRefEntity(fx.triple, "ReferencePlane", plane.value)] else []) +
      [Element("Segments", map[], SaveSegmentList(fx, segs)), Element("Constraints", map[], SaveConstraintList(fx, cons))]
  {
  }

  /** SaveConstraint with its string-building loop. */
  method SaveConstraintElement(fx: Formats, c: Constraint) returns (e: Element)
    ensures e == SaveConstraint(fx, c)
  {
    e := SetIntAttribute(NewElement("Constraint"), "Type", CodeOf(c.constraintType));
    e := SetRealAttribute(fx.attr, e, "Dimension", c.dimensionValue);
    var ids := JoinEntityIds(c.entityLocalIDs);
    e := SetAttribute(e, "Entities", ids);
  }

  /** SaveSketch's first loop: one Segment child per segment, in order. */
  method SaveSegmentsElement(fx: Formats, segs: seq<Segment>) returns (segsElem: Element)
    ensures segsElem == Element("Segments", map[], SaveSegmentList(fx, segs))
  {
    segsElem := NewElement("Segments");
    var i := 0;
    while i < |segs|
      invariant 0 <= i <= |segs|
      invariant segsElem == Element("Segments", map[], SaveSegmentList(fx, segs[..i]))
    {
      assert segs[..i + 1][..i] == segs[..i];
      segsElem := InsertEndChild(segsElem, SaveSegment(fx, segs[i]));
      i := i + 1;
    }
    assert segs[..|segs|] == segs;
  }

  /** SaveSketch's second loop: one Constraint child per constraint, in order. */
  method SaveConstraintsElement(fx: Formats, cons: seq<Constraint>) returns (consElem: Element)
    ensures consElem == Element("Constraints", map[], SaveConstraintList(fx, cons))
  {
    consElem := NewElement("Constraints");
    var j := 0;
    while j < |cons|
      invariant 0 <= j <= |cons|
      invariant consElem == Element("Constraints", map[], SaveConstraintList(fx, cons[..j]))
    {
      assert cons[..j + 1][..j] == cons[..j];
      var conElem := SaveConstraintElement(fx, cons[j]);
      consElem := InsertEndChild(consElem, conElem);
      j := j + 1;
    }
    assert cons[..|cons|] == cons;
  }

  /** SaveSketch: the reference plane, then the two loops. */
  method SaveSketch(fx: Formats, e: Element, plane: Option<Reference>,
                    segs: seq<Segment>, cons: seq<Constraint>) returns (r: Element)
    ensures r == SaveSketchBody(fx, e, plane, segs, cons)
  {
    var withPlane := InsertRefEntity(fx.triple, e, "ReferencePlane", plane);
    var segsElem := SaveSegmentsElement(fx, segs);
    var consElem := SaveConstraintsElement(fx, cons);
    r := InsertEndChild(InsertEndChild(withPlane, segsElem), consElem);
  }

  lemma {:induction false} LoadSegmentListAppend(fx: Formats, a: seq<Element>, b: seq<Element>)
    ensures LoadSegmentList(fx, a + b) == LoadSegmentList(fx, a) + LoadSegmentList(fx, b)
    decreases |b|
  {
    if b == [] {
      assert a + b == a;
    } else {
      assert (a + b)[..|a + b| - 1] == a + b[..|b| - 1];
      LoadSegmentListAppend(fx, a, b[..|b| - 1]);
    }
  }

  lemma {:induction false} LoadConstraintListAppend(fx: Formats, a: seq<Element>, b: seq<Element>)
    ensures LoadConstraintList(fx, a + b) == LoadConstraintList(fx, a) + LoadConstraintList(fx, b)
    decreases |b|
  {
    if b == [] {
      assert a + b == a;
    } else {
      assert (a + b)[..|a + b| - 1] == a + b[..|b| - 1];
      LoadConstraintListAppend(fx, a, b[..|b| - 1]);
    }
  }

  lemma NamedSingle(c: Element, tag: string)
    ensures Named([c], tag) == if c.tag == tag then [c] else []
  {
    assert [c][1..] == [];
  }

  /** One more child extends the segments read by the sibling walk. */
  lemma {:induction false} LoadSegmentListStep(fx: Formats, children: seq<Element>, i: nat)
    requires i < |children|
    ensures LoadSegmentList(fx, Named(children[..i + 1], "Segment")) ==
      LoadSegmentList(fx, Named(children[..i], "Segment")) +
      (if children[i].tag == "Segment" && LoadSegment(fx, children[i]).Some? then [LoadSegment(fx, children[i]).value] else [])
  {
    assert children[..i + 1] == children[..i] + [children[i]];
    NamedAppend(children[..i], [children[i]], "Segment");
    NamedSingle(children[i], "Segment");
    LoadSegmentListAppend(fx, Named(children[..i], "Segment"), Named([children[i]], "Segment"));
    assert [children[i]][..0] == [];
  }

  /** One more child extends the constraints read by the sibling walk. */
  lemma {:induction false} LoadConstraintListStep(fx: Formats, children: seq<Element>, i: nat)
    requires i < |children|
    ensures LoadConstraintList(fx, Named(children[..i + 1], "Constraint")) ==
      LoadConstraintList(fx, Named(children[..i], "Constraint")) +
      (if children[i].tag == "Constraint" then [LoadConstraint(fx, children[i])] else [])
  {
    assert children[..i + 1] == children[..i] + [children[i]];
    NamedAppend(children[..i], [children[i]], "Constraint");
    NamedSingle(children[i], "Constraint");
    LoadConstraintListAppend(fx, Named(children[..i], "Constraint"), Named([children[i]], "Constraint"));
    assert [children[i]][..0] == [];
  }

  /** LoadSketch's segment loop: the Segment children of the Segments element, in order, non-null ones kept. */
  method LoadSketchSegments(fx: Formats, segsElem: Element) returns (segs: seq<Segment>)
    ensures segs == LoadSegmentList(fx, Named(segsElem.children, "Segment"))
  {
    segs := [];
    var i := 0;
    var children := segsElem.children;
    while i < |children|
      invariant 0 <= i <= |children|
      invariant segs == LoadSegmentList(fx, Named(children[..i], "Segment"))
    {
      LoadSegmentListStep(fx, children, i);
      if children[i].tag == "Segment" {
        var seg := LoadSegment(fx, children[i]);
        if seg.Some? {
          segs := segs + [seg.value];
        }
      }
      i := i + 1;
    }
    assert children[..|children|] == children;
  }

  /** LoadSketch's constraint loop: one constraint per Constraint child, in order. */
  method LoadSketchConstraints(fx: Formats, consElem: Element) returns (cons: seq<Constraint>)
    ensures cons == LoadConstraintList(fx, Named(consElem.children, "Constraint"))
  {
    cons := [];
    var i := 0;
    var children := consElem.children;
    while i < |children|
      invariant 0 <= i <= |children|
      invariant cons == LoadConstraintList(fx, Named(children[..i], "Constraint"))
    {
      LoadConstraintListStep(fx, children, i);
      if children[i].tag == "Constraint" {
        var c := LoadConstraintElement(fx, children[i]);
        cons := cons + [c];
      }
      i := i + 1;
    }
    assert children[..|children|] == children;
  }

  /** LoadConstraint with its getline loop. */
  method LoadConstraintElement(fx: Formats, e: Element) returns (c: Constraint)
    ensures c == LoadConstraint(fx, e)
  {
    var ids: seq<string> := [];
    if "Entities" in e.attrs {
      ids := SplitEntities(e.attrs["Entities"]);
    }
    c := Constraint(TypeOfCode(QueryInt(e, "Type", 0)), ids, QueryReal(fx.attr, e, "Dimension", 0.0));
  }

  /** LoadSketch with its two loops. */
  method LoadSketchElement(fx: Formats, e: Element) returns (s: Feature)
    ensures s == LoadSketch(fx, e)
  {
    var segs: seq<Segment> := [];
    var segsElem := FirstChildElement(e, "Segments");
    if segsElem.Some? {
      segs := LoadSketchSegments(fx, segsElem.value);
    }
    var cons: seq<Constraint> := [];
    var consElem := FirstChildElement(e, "Constraints");
    if consElem.Some? {
      cons := LoadSketchConstraints(fx, consElem.value);
    }
    s := Sketch("", "", "", false, LoadRefEntity(fx.triple, FirstChildElement(e, "ReferencePlane")), segs, cons);
  }
}
