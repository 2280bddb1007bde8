/**
 * service/accessors/SketchAccessor.h, SketchSegmentAccessor: read-only
 * access to one sketch segment that may be null. The common getters fall
 * back to LINE, "" and false; each typed getter succeeds only for its
 * segment class and then returns that class's fields.
 */
module SegmentAccessors {
  import opened Wrappers
  import opened Geometry
  import opened Features

  datatype SegmentAccessor = SegmentAccessor(seg: Option<Segment>)

  /** The out-parameters of GetArcParams, in the order the method takes them. */
  datatype ArcParams = ArcParams(center: Point3D, startAngle: real, endAngle: real, radius: real, isClockwise: bool)

  predicate IsValid(a: SegmentAccessor)
  {
    a.seg.Some?
  }

  /** The segment's type, or LINE for a null segment. */
  function GetType(a: SegmentAccessor): (t: SegType)
    ensures IsValid(a) ==> t == a.seg.value.Type()
    ensures !IsValid(a) ==> t == SegLine
  {
    if a.seg.Some? then a.seg.value.Type() else SegLine
  }

  function GetLocalID(a: SegmentAccessor): (id: string)
    ensures IsValid(a) ==> id == a.seg.value.localID
    ensures !IsValid(a) ==> id == ""
  {
    if a.seg.Some? then a.seg.value.localID else ""
  }

  function IsConstruction(a: SegmentAccessor): (b: bool)
    ensures b <==> IsValid(a) && a.seg.value.isConstruction
  {
    a.seg.Some? && a.seg.value.isConstruction
  }

  /** The start and end of a line. */
  function GetLineCoords(a: SegmentAccessor): (r: Option<(Point3D, Point3D)>)
    ensures r.Some? <==> IsValid(a) && a.seg.value.SketchLine?
    ensures r.Some? ==> r.value == (a.seg.value.startPos, a.seg.value.endPos)
  {
    match a.seg
    case Some(SketchLine(_, _, start, end)) => Some((start, end))
    case _ => None
  }

  /** The center and radius of a full circle (an arc is not a circle here). */
  function GetCircleParams(a: SegmentAccessor): (r: Option<(Point3D, real)>)
    ensures r.Some? <==> IsValid(a) && a.seg.value.SketchCircle?
    ensures r.Some? ==> r.value == (a.seg.value.center, a.seg.value.radius)
  {
    match a.seg
    case Some(SketchCircle(_, _, center, radius)) => Some((center, radius))
    case _ => None
  }

  function GetArcParams(a: SegmentAccessor): (r: Option<ArcParams>)
    ensures r.Some? <==> IsValid(a) && a.seg.value.SketchArc?
    ensures r.Some? ==> r.value.center == a.seg.value.center && r.value.radius == a.seg.value.radius &&
                        r.value.startAngle == a.seg.value.startAngle && r.value.endAngle == a.seg.value.endAngle &&
                        r.value.isClockwise == a.seg.value.isClockwise
  {
    match a.seg
    case Some(SketchArc(_, _, center, radius, start, end, cw)) => Some(ArcParams(center, start, end, radius, cw))
    case _ => None
  }

  function GetPointCoord(a: SegmentAccessor): (r: Option<Point3D>)
    ensures r.Some? <==> IsValid(a) && a.seg.value.SketchPoint?
    ensures r.Some? ==> r.value == a.seg.value.position
  {
    match a.seg
    case Some(SketchPoint(_, _, position)) => Some(position)
    case _ => None
  }

  /** The segment a reader recovers from the accessor's public getters alone. */
  function Reassemble(a: SegmentAccessor): Option<Segment>
  {
    var id := GetLocalID(a);
    var c := IsConstruction(a);
    if GetLineCoords(a).Some? then Some(SketchLine(id, c, GetLineCoords(a).value.0, GetLineCoords(a).value.1))
    else if GetCircleParams(a).Some? then Some(SketchCircle(id, c, GetCircleParams(a).value.0, GetCircleParams(a).value.1))
    else if GetArcParams(a).Some? then
      var p := GetArcParams(a).value;
      Some(SketchArc(id, c, p.center, p.radius, p.startAngle, p.endAngle, p.isClockwise))
    else if GetPointCoord(a).Some? then Some(SketchPoint(id, c, GetPointCoord(a).value))
    else None
  }

  /**
   * The getters lose nothing: exactly the typed getter matching GetType
   * succeeds, and together with the common getters it rebuilds the segment.
   */
  lemma {:induction false} GettersRebuildSegment(a: SegmentAccessor)
    ensures Reassemble(a) == a.seg
    ensures IsValid(a) ==> (GetLineCoords(a).Some? <==> GetType(a) == SegLine) &&
                           (GetCircleParams(a).Some? <==> GetType(a) == SegCircle) &&
                           (GetArcParams(a).Some? <==> GetType(a) == SegArc) &&
                           (GetPointCoord(a).Some? <==> GetType(a) == SegPoint)
  {
    match a.seg
    case None =>
    case Some(s) =>
      match s
      case SketchLine(_, _, _, _) =>
      case SketchCircle(_, _, _, _) =>
      case SketchArc(_, _, _, _, _, _, _) =>
      case SketchPoint(_, _, _) =>
  }

  /** A null accessor reports type LINE, yet its line getter fails. */
  lemma NullReportsLineWithoutCoords()
    ensures GetType(SegmentAccessor(None)) == SegLine && GetLineCoords(SegmentAccessor(None)).None?
    ensures GetLocalID(SegmentAccessor(None)) == "" && !IsConstruction(SegmentAccessor(None))
  {
  }
}

/**
 * service/accessors/SketchAccessor.h, SketchAccessor: a sketch accessor is
 * a feature accessor of the sketch class. Its reference plane, segments
 * and constraints are read by position, and segments also by local ID.
 */
module SketchAccessors {
  import opened Wrappers
  import opened Features
  import opened FeatureAccessors
  import opened LocalIds
  import ReferenceAccessors
  import SegmentAccessors

  /** A sketch accessor: the derived class's view of a feature. */
  predicate IsSketchAccessor(a: FeatureAccessor)
  {
    a.view == SketchView
  }

  /** The reference plane wrapped in an accessor, or a null accessor. */
  function GetReferencePlane(a: FeatureAccessor): (r: ReferenceAccessors.ReferenceAccessor)
    requires IsSketchAccessor(a)
    ensures ReferenceAccessors.IsValid(r) <==> IsValid(a) && a.feature.value.referencePlane.Some?
    ensures ReferenceAccessors.IsValid(r) ==> r.ref == a.feature.value.referencePlane
  {
    if !IsValid(a) || a.feature.value.referencePlane.None? then ReferenceAccessors.ReferenceAccessor(None)
    else ReferenceAccessors.ReferenceAccessor(a.feature.value.referencePlane)
  }

  function HasReferencePlane(a: FeatureAccessor): (b: bool)
    requires IsSketchAccessor(a)
    ensures b <==> IsValid(a) && a.feature.value.referencePlane.Some?
  {
    IsValid(a) && a.feature.value.referencePlane.Some?
  }

  function GetSegmentCount(a: FeatureAccessor): (n: nat)
    requires IsSketchAccessor(a)
    ensures IsValid(a) ==> n == |a.feature.value.segments|
    ensures !IsValid(a) ==> n == 0
  {
    if IsValid(a) then |a.feature.value.segments| else 0
  }

  /** The segment at the index, or a null accessor outside [0, count). */
  function GetSegment(a: FeatureAccessor, index: int): (r: SegmentAccessors.SegmentAccessor)
    requires IsSketchAccessor(a)
    ensures SegmentAccessors.IsValid(r) <==> 0 <= index < GetSegmentCount(a)
    ensures SegmentAccessors.IsValid(r) ==> r.seg.value == a.feature.value.segments[index]
  {
    if !IsValid(a) || index < 0 || index >= |a.feature.value.segments| then SegmentAccessors.SegmentAccessor(None)
    else SegmentAccessors.SegmentAccessor(Some(a.feature.value.segments[index]))
  }

  /** The position of the first segment with the local ID. */
  function FirstWithLocalId(segs: seq<Segment>, id: string): (r: Option<nat>)
    ensures r.Some? ==> r.value < |segs| && segs[r.value].localID == id &&
                        forall j :: 0 <= j < r.value ==> segs[j].localID != id
    ensures r.None? ==> forall j :: 0 <= j < |segs| ==> segs[j].localID != id
  {
    if segs == [] then None
    else if segs[0].localID == id then Some(0)
    else
      var r := FirstWithLocalId(segs[1..], id);
      if r.Some? then Some(r.value + 1) else None
  }

  /** The first segment with the local ID, or a null accessor when none has it. */
  function GetSegmentByLocalID(a: FeatureAccessor, id: string): (r: SegmentAccessors.SegmentAccessor)
    requires IsSketchAccessor(a)
    ensures !SegmentAccessors.IsValid(r) <==>
              !IsValid(a) || forall j :: 0 <= j < |a.feature.value.segments| ==> a.feature.value.segments[j].localID != id
    ensures SegmentAccessors.IsValid(r) ==>
              exists k :: 0 <= k < |a.feature.value.segments| && r.seg.value == a.feature.value.segments[k] &&
                          r.seg.value.localID == id &&
                          forall j :: 0 <= j < k ==> a.feature.value.segments[j].localID != id
  {
    if !IsValid(a) then SegmentAccessors.SegmentAccessor(None)
    else
      var k := FirstWithLocalId(a.feature.value.segments, id);
      if k.None? then SegmentAccessors.SegmentAccessor(None)
      else SegmentAccessors.SegmentAccessor(Some(a.feature.value.segments[k.value]))
  }

  function GetConstraintCount(a: FeatureAccessor): (n: nat)
    requires IsSketchAccessor(a)
    ensures IsValid(a) ==> n == |a.feature.value.constraints|
    ensures !IsValid(a) ==> n == 0
  {
    if IsValid(a) then |a.feature.value.constraints| else 0
  }

  /** The constraint at the index, or null outside [0, count). */
  function GetConstraint(a: FeatureAccessor, index: int): (r: Option<Constraint>)
    requires IsSketchAccessor(a)
    ensures r.Some? <==> 0 <= index < GetConstraintCount(a)
    ensures r.Some? ==> r.value == a.feature.value.constraints[index]
  {
    if !IsValid(a) || index < 0 || index >= |a.feature.value.constraints| then None
    else Some(a.feature.value.constraints[index])
  }

  /**
   * In a sketch whose segments the builders numbered, looking a segment up
   * by the local ID the builder returned finds exactly that segment: the
   * by-position and by-ID readers agree.
   */
  lemma {:induction false} BuilderIdsFindTheirSegment(a: FeatureAccessor, i: nat)
    requires IsSketchAccessor(a) && IsValid(a) && a.feature.value.Sketch?
    requires Numbered(a.feature.value.segments) && i < |a.feature.value.segments|
    ensures GetSegmentByLocalID(a, SegmentAccessors.GetLocalID(GetSegment(a, i))) == GetSegment(a, i)
  {
    var segs := a.feature.value.segments;
    var seg := GetSegment(a, i);
    assert seg == SegmentAccessors.SegmentAccessor(Some(segs[i]));
    var id := segs[i].localID;
    assert SegmentAccessors.GetLocalID(seg) == id;
    var k := FirstWithLocalId(segs, id);
    assert k.Some?;
    if k.value < i {
      NumberedIdsDistinct(segs, k.value, i);
    }
    assert k.value == i;
  }
}
