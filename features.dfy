/**
 * The feature-history data model of include/UnifiedFeatures.h as tagged
 * unions. A null shared_ptr is None; each constructor function below builds
 * the object a default-constructed C++ struct holds.
 */
module Features {
  import opened Wrappers
  import opened Geometry

  datatype BooleanOp = Boss | Cut | Merge

  datatype RefType =
    | FeatureDatumPlane
    | FeatureDatumAxis
    | FeatureDatumPoint
    | FeatureWholeSketch
    | TopoFace
    | TopoEdge
    | TopoVertex
    | TopoSketchSeg

  /**
   * The reference hierarchy. RefFeature is a bare CRefFeature; RefPlane,
   * RefSketch, RefAxis and RefPoint derive from it; the four topology
   * references derive from CRefSubTopo. The refType field is kept in every
   * constructor because the C++ field is mutable. RefAxis, RefPoint and the
   * edge's start and end points belong to the service-layer header, which
   * declares them beside the shown ones.
   */
  datatype Reference =
    | RefFeature(refType: RefType, targetFeatureID: string)
    | RefPlane(refType: RefType, targetFeatureID: string,
               origin: Point3D, xDir: Vector3D, yDir: Vector3D, normal: Vector3D)
    | RefSketch(refType: RefType, targetFeatureID: string)
    | RefAxis(refType: RefType, targetFeatureID: string, origin: Point3D, direction: Vector3D)
    | RefPoint(refType: RefType, targetFeatureID: string, position: Point3D)
    | RefFace(refType: RefType, parentFeatureID: string, topologyIndex: int,
              normal: Vector3D, centroid: Point3D, uDir: Vector3D, vDir: Vector3D)
    | RefEdge(refType: RefType, parentFeatureID: string, topologyIndex: int,
              midPoint: Point3D, startPoint: Point3D, endPoint: Point3D)
    | RefVertex(refType: RefType, parentFeatureID: string, topologyIndex: int, pos: Point3D)
    | RefSketchSeg(refType: RefType, parentFeatureID: string, topologyIndex: int, segmentLocalID: string)
  {
    /** dynamic_cast to CRefFeature succeeds. */
    predicate IsFeatureRef() { RefFeature? || RefPlane? || RefSketch? || RefAxis? || RefPoint? }

    /** dynamic_cast to CRefSubTopo succeeds. */
    predicate IsSubTopo() { RefFace? || RefEdge? || RefVertex? || RefSketchSeg? }
  }

  function NewRefFeature(t: RefType): (r: Reference)
    ensures r.RefFeature? && r.refType == t && r.targetFeatureID == ""
  {
    RefFeature(t, "")
  }

  /** CRefFeature with its default argument. */
  function DefaultRefFeature(): (r: Reference)
    ensures r.RefFeature? && r.refType == FeatureDatumPlane && r.targetFeatureID == ""
  {
    NewRefFeature(FeatureDatumPlane)
  }

  function NewRefPlane(): (r: Reference)
    ensures r.RefPlane? && r.refType == FeatureDatumPlane && r.targetFeatureID == ""
    ensures r.origin == Zero && r.xDir == Zero && r.yDir == Zero && r.normal == Zero
  {
    RefPlane(FeatureDatumPlane, "", Zero, Zero, Zero, Zero)
  }

  function NewRefSketch(): (r: Reference)
    ensures r.RefSketch? && r.refType == FeatureWholeSketch && r.targetFeatureID == ""
  {
    RefSketch(FeatureWholeSketch, "")
  }

  function NewRefAxis(): (r: Reference)
    ensures r.RefAxis? && r.refType == FeatureDatumAxis && r.targetFeatureID == ""
  {
    RefAxis(FeatureDatumAxis, "", Zero, Zero)
  }

  function NewRefPoint(): (r: Reference)
    ensures r.RefPoint? && r.refType == FeatureDatumPoint && r.targetFeatureID == ""
  {
    RefPoint(FeatureDatumPoint, "", Zero)
  }

  const DefaultUDir: Vector3D := Vec3(1.0, 0.0, 0.0)
  const DefaultVDir: Vector3D := Vec3(0.0, 1.0, 0.0)

  function NewRefFace(): (r: Reference)
    ensures r.RefFace? && r.refType == TopoFace && r.parentFeatureID == "" && r.topologyIndex == -1
    ensures r.normal == Zero && r.centroid == Zero && r.uDir == DefaultUDir && r.vDir == DefaultVDir
  {
    RefFace(TopoFace, "", -1, Zero, Zero, DefaultUDir, DefaultVDir)
  }

  function NewRefEdge(): (r: Reference)
    ensures r.RefEdge? && r.refType == TopoEdge && r.parentFeatureID == "" && r.topologyIndex == -1
    ensures r.midPoint == Zero && r.startPoint == Zero && r.endPoint == Zero
  {
    RefEdge(TopoEdge, "", -1, Zero, Zero, Zero)
  }

  function NewRefVertex(): (r: Reference)
    ensures r.RefVertex? && r.refType == TopoVertex && r.parentFeatureID == "" && r.topologyIndex == -1
    ensures r.pos == Zero
  {
    RefVertex(TopoVertex, "", -1, Zero)
  }

  function NewRefSketchSeg(): (r: Reference)
    ensures r.RefSketchSeg? && r.refType == TopoSketchSeg && r.parentFeatureID == "" && r.topologyIndex == -1
    ensures r.segmentLocalID == ""
  {
    RefSketchSeg(TopoSketchSeg, "", -1, "")
  }

  /** The RefType each concrete reference class fixes in its constructor. */
  function FixedRefType(r: Reference): Option<RefType>
  {
    match r
    case RefFeature(_, _) => None
    case RefPlane(_, _, _, _, _, _) => Some(FeatureDatumPlane)
    case RefSketch(_, _) => Some(FeatureWholeSketch)
    case RefAxis(_, _, _, _) => Some(FeatureDatumAxis)
    case RefPoint(_, _, _) => Some(FeatureDatumPoint)
    case RefFace(_, _, _, _, _, _, _) => Some(TopoFace)
    case RefEdge(_, _, _, _, _, _) => Some(TopoEdge)
    case RefVertex(_, _, _, _) => Some(TopoVertex)
    case RefSketchSeg(_, _, _, _) => Some(TopoSketchSeg)
  }

  /** A reference whose refType is the one its class fixes (a bare CRefFeature may carry any). */
  predicate WellTyped(r: Reference)
  {
    FixedRefType(r).None? || FixedRefType(r) == Some(r.refType)
  }

  // Sketch segments

  datatype SegType = SegLine | SegCircle | SegArc | SegSpline | SegPoint

  datatype Segment =
    | SketchLine(localID: string, isConstruction: bool, startPos: Point3D, endPos: Point3D)
    | SketchCircle(localID: string, isConstruction: bool, center: Point3D, radius: real)
    | SketchArc(localID: string, isConstruction: bool, center: Point3D, radius: real,
                startAngle: real, endAngle: real, isClockwise: bool)
    | SketchPoint(localID: string, isConstruction: bool, position: Point3D)
  {
    /** The SegType each segment class sets in its constructor. */
    function Type(): SegType
    {
      match this
      case SketchLine(_, _, _, _) => SegLine
      case SketchCircle(_, _, _, _) => SegCircle
      case SketchArc(_, _, _, _, _, _, _) => SegArc
      case SketchPoint(_, _, _) => SegPoint
    }
  }

  function NewLine(): (s: Segment)
    ensures s.Type() == SegLine && s.localID == "" && !s.isConstruction
  {
    SketchLine("", false, Zero, Zero)
  }

  function NewCircle(): (s: Segment)
    ensures s.Type() == SegCircle && s.localID == "" && !s.isConstruction && s.radius == 0.0
  {
    SketchCircle("", false, Zero, 0.0)
  }

  function NewArc(): (s: Segment)
    ensures s.Type() == SegArc && s.localID == "" && !s.isConstruction && !s.isClockwise
    ensures s.radius == 0.0 && s.startAngle == 0.0 && s.endAngle == 0.0
  {
    SketchArc("", false, Zero, 0.0, 0.0, 0.0, false)
  }

  function NewPoint(): (s: Segment)
    ensures s.Type() == SegPoint && s.localID == "" && !s.isConstruction
  {
    SketchPoint("", false, Zero)
  }

  // Sketch constraints

  /**
   * CSketchConstraint::ConstraintType. OtherCode stands for an integer outside
   * the nine enumerators that a static_cast can still store in the enum.
   */
  datatype ConstraintType =
    | Horizontal | Vertical | Coincident | Concentric | Tangent
    | Equal | Parallel | Perpendicular | Dimensional
    | OtherCode(code: int)

  datatype Constraint = Constraint(constraintType: ConstraintType, entityLocalIDs: seq<string>, dimensionValue: real)

  // Extrude options

  datatype DraftOption = DraftOption(angle: real, outward: bool)

  datatype ThinWallOption = ThinWallOption(thickness: real, isOneSided: bool, isCovered: bool)

  const DefaultDraft: DraftOption := DraftOption(0.0, false)
  const DefaultThinWall: ThinWallOption := ThinWallOption(0.0, true, false)

  /**
   * ExtrudeEndCondition::Type. Unknown is the extra enumerator the
   * service-layer header adds and the service builders test for.
   */
  datatype EndType = Blind | ThroughAll | UpToNext | UpToFace | UpToVertex | MidPlane | Unknown

  datatype EndCondition = EndCondition(
    endType: EndType,
    depth: real,
    offset: real,
    hasOffset: bool,
    referenceEntity: Option<Reference>,
    isFlip: bool,
    isFlipMaterialSide: bool)

  function DefaultEndCondition(): (c: EndCondition)
    ensures c.endType == Blind && c.depth == 0.0 && c.offset == 0.0 && !c.hasOffset
    ensures c.referenceEntity.None? && !c.isFlip && !c.isFlipMaterialSide
  {
    EndCondition(Blind, 0.0, 0.0, false, None, false, false)
  }

  // Revolve axis

  datatype AxisKind = AxisSketchLine | AxisExplicit | AxisReference

  datatype RevolveAxis = RevolveAxis(
    kind: AxisKind,
    referenceLocalID: string,
    referenceEntity: Option<Reference>,
    origin: Point3D,
    direction: Vector3D)

  function DefaultRevolveAxis(): (a: RevolveAxis)
    ensures a.kind == AxisExplicit && a.referenceLocalID == "" && a.referenceEntity.None?
    ensures a.origin == Zero && a.direction == Zero
  {
    RevolveAxis(AxisExplicit, "", None, Zero, Zero)
  }

  datatype AngleKind = Single | TwoWay | Symmetric

  // Features

  datatype FeatureKind = SketchKind | ExtrudeKind | RevolveKind

  /**
   * CSketch, CExtrude and CRevolve with the CFeatureBase fields shared by all
   * three. An extrude's sketchProfile is a shared_ptr to a CSketch, so it is
   * always a Sketch when present.
   */
  datatype Feature =
    | Sketch(featureID: string, featureName: string, externalID: string, isSuppressed: bool,
             referencePlane: Option<Reference>, segments: seq<Segment>, constraints: seq<Constraint>)
    | Extrude(featureID: string, featureName: string, externalID: string, isSuppressed: bool,
              sketchProfile: Option<Feature>, direction: Vector3D,
              endCondition1: EndCondition, endCondition2: Option<EndCondition>,
              operation: BooleanOp, draft: Option<DraftOption>, thinWall: Option<ThinWallOption>)
    | Revolve(featureID: string, featureName: string, externalID: string, isSuppressed: bool,
              profileSketchID: string, axis: RevolveAxis,
              angleKind: AngleKind, primaryAngle: real, secondaryAngle: real)
  {
    function Kind(): FeatureKind
    {
      match this
      case Sketch(_, _, _, _, _, _, _) => SketchKind
      case Extrude(_, _, _, _, _, _, _, _, _, _, _) => ExtrudeKind
      case Revolve(_, _, _, _, _, _, _, _, _) => RevolveKind
    }

    /** Every extrude profile that is present is a sketch. */
    predicate ProfilesAreSketches()
    {
      Extrude? ==> (sketchProfile.Some? ==> sketchProfile.value.Sketch?)
    }
  }

  const DefaultDirection: Vector3D := Vec3(0.0, 0.0, 1.0)

  function NewSketch(): (f: Feature)
    ensures f.Sketch? && f.featureID == "" && f.featureName == "" && f.externalID == "" && !f.isSuppressed
    ensures f.referencePlane.None? && f.segments == [] && f.constraints == []
  {
    Sketch("", "", "", false, None, [], [])
  }

  function NewExtrude(): (f: Feature)
    ensures f.Extrude? && f.featureID == "" && f.featureName == "" && f.externalID == "" && !f.isSuppressed
    ensures f.sketchProfile.None? && f.direction == DefaultDirection && f.operation == Boss
    ensures f.endCondition1 == DefaultEndCondition()
    ensures f.endCondition2.None? && f.draft.None? && f.thinWall.None?
  {
    Extrude("", "", "", false, None, DefaultDirection, DefaultEndCondition(), None, Boss, None, None)
  }

  function NewRevolve(): (f: Feature)
    ensures f.Revolve? && f.featureID == "" && f.featureName == "" && f.externalID == "" && !f.isSuppressed
    ensures f.profileSketchID == "" && f.axis == DefaultRevolveAxis()
    ensures f.angleKind == Single && f.primaryAngle == 0.0 && f.secondaryAngle == 0.0
  {
    Revolve("", "", "", false, "", DefaultRevolveAxis(), Single, 0.0, 0.0)
  }

  /** A default-constructed feature of the given kind. */
  function NewFeature(k: FeatureKind): (f: Feature)
    ensures f.Kind() == k && f.featureID == "" && f.featureName == "" && f.externalID == "" && !f.isSuppressed
  {
    match k
    case SketchKind => NewSketch()
    case ExtrudeKind => NewExtrude()
    case RevolveKind => NewRevolve()
  }

  /** Every reference constructor fixes the RefType of its class. */
  lemma ConstructorsAreWellTyped()
    ensures WellTyped(NewRefPlane()) && WellTyped(NewRefSketch()) && WellTyped(NewRefAxis())
    ensures WellTyped(NewRefPoint()) && WellTyped(NewRefFace()) && WellTyped(NewRefEdge())
    ensures WellTyped(NewRefVertex()) && WellTyped(NewRefSketchSeg())
    ensures forall t: RefType :: WellTyped(NewRefFeature(t))
  {
  }
}
