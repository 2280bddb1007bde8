/**
 * include/SketchBuilder.h: the older sketch builder. It sets the sketch plane
 * from an origin, an X direction and a normal (or from a standard plane ID,
 * or a face), with no validation, and numbers segments like the service
 * builder. Arcs take their direction from the order of their angles.
 */
module IncludeSketchBuilder {
  import opened Wrappers
  import opened Geometry
  import opened Features
  import opened LegacyModel
  import opened Ids
  import opened LocalIds
  import opened IncludeBuilderBase

  const RadiusError: string := "radius must be positive"

  class SketchBuilder {
    const base: FeatureBuilder
    var localCounter: nat

    /** The feature is a sketch whose segments are exactly the ones this builder numbered. */
    ghost predicate Valid()
      reads this, base
    {
      base.feature.Sketch? && |base.feature.segments| == localCounter && Numbered(base.feature.segments)
    }

    constructor (model: UnifiedModel, name: string, generator: IdCounter)
      modifies generator
      ensures Valid() && fresh(base) && base.model == model
      ensures generator.count == old(generator.count) + 1
      ensures base.feature == Sketch(GeneratedId(generator.count), name, "", false, None, [], [])
    {
      base := new FeatureBuilder(model, name, SketchKind, generator);
      localCounter := 0;
    }

    /** A new datum plane with no target; its Y direction is the normalised normal x X. */
    method SetPlane(origin: Point3D, xDir: Vector3D, normal: Vector3D)
      requires Valid()
      modifies base
      ensures Valid()
      ensures base.feature == old(base.feature).(referencePlane :=
                Some(RefPlane(FeatureDatumPlane, "", origin, xDir, Normalized(Cross(normal, xDir)), normal)))
    {
      var yDir := Normalized(Cross(normal, xDir));
      base.feature := base.feature.(referencePlane := Some(RefPlane(FeatureDatumPlane, "", origin, xDir, yDir, normal)));
    }

    /**
     * The YZ frame for STD_DATUM_YZ, the ZX frame for STD_DATUM_ZX and the XY
     * frame for every other ID, unknown ones included; the plane then records
     * the given ID as its target.
     */
    method SetReferencePlane(planeID: string)
      requires Valid()
      modifies base
      ensures Valid()
      ensures base.feature == old(base.feature).(referencePlane := base.feature.referencePlane)
      ensures base.feature.referencePlane == Some(StandardPlaneFor(planeID))
    {
      var (xDir, normal) := StandardFrameAxes(planeID);
      SetPlane(Zero, xDir, normal);
      StandardFrameYDir(planeID);
      RetargetPlane(planeID);
    }

    /** The dynamic_cast step of SetReferencePlane: a datum plane records the given ID as its target. */
    method RetargetPlane(planeID: string)
      requires Valid()
      modifies base
      ensures Valid()
      ensures var plane := old(base.feature.referencePlane);
              base.feature == old(base.feature).(referencePlane :=
                if plane.Some? && plane.value.RefPlane?
                then Some(RefPlane(plane.value.refType, planeID, plane.value.origin, plane.value.xDir, plane.value.yDir, plane.value.normal))
                else plane)
    {
      var plane := base.feature.referencePlane;
      if plane.Some? && plane.value.RefPlane? {
        var p := plane.value;
        base.feature := base.feature.(referencePlane := Some(RefPlane(p.refType, planeID, p.origin, p.xDir, p.yDir, p.normal)));
      }
    }

    /** The sketch plane becomes a copy of the given face. */
    method SetReferenceFace(face: Reference)
      requires Valid() && face.RefFace?
      modifies base
      ensures Valid()
      ensures base.feature == old(base.feature).(referencePlane := Some(face))
    {
      base.feature := base.feature.(referencePlane := Some(face));
    }

    /** Advances the shared counter and names the next segment. */
    method GenerateLocalID(prefix: string) returns (id: string)
      modifies this
      ensures localCounter == old(localCounter) + 1
      ensures id == LocalId(prefix, localCounter)
    {
      localCounter := localCounter + 1;
      id := LocalId(prefix, localCounter);
    }

    /** Appends a segment already numbered with the current counter value. */
    method Append(s: Segment)
      requires base.feature.Sketch? && |base.feature.segments| + 1 == localCounter && Numbered(base.feature.segments)
      requires s.localID == LocalId(SegmentPrefix(s), localCounter)
      modifies base
      ensures Valid()
      ensures base.feature == old(base.feature).(segments := old(base.feature.segments) + [s])
    {
      AppendNumbered(base.feature.segments, s);
      base.feature := base.feature.(segments := base.feature.segments + [s]);
    }

    method AddLine(start: Point3D, end: Point3D, isConstruction: bool) returns (id: string)
      requires Valid()
      modifies this, base
      ensures Valid() && localCounter == old(localCounter) + 1
      ensures id == LocalId("L", localCounter)
      ensures base.feature == old(base.feature).(segments := old(base.feature.segments) + [SketchLine(id, isConstruction, start, end)])
    {
      id := GenerateLocalID("L");
      Append(SketchLine(id, isConstruction, start, end));
    }

    /** A radius that is not positive throws and appends nothing. */
    method AddCircle(center: Point3D, radius: real, isConstruction: bool) returns (status: Status, id: string)
      requires Valid()
      modifies this, base
      ensures Valid()
      ensures radius <= 0.0 ==> status == Threw(InvalidArgument, RadiusError) && id == "" &&
                                localCounter == old(localCounter) && base.feature == old(base.feature)
      ensures radius > 0.0 ==> status == Done && localCounter == old(localCounter) + 1 && id == LocalId("C", localCounter) &&
                               base.feature == old(base.feature).(segments := old(base.feature.segments) + [SketchCircle(id, isConstruction, center, radius)])
    {
      if radius <= 0.0 {
        return Threw(InvalidArgument, RadiusError), "";
      }
      id := GenerateLocalID("C");
      Append(SketchCircle(id, isConstruction, center, radius));
      status := Done;
    }

    /** The arc runs clockwise exactly when it starts at a larger angle than it ends; it is never construction geometry. */
    method AddArc(center: Point3D, radius: real, startAngle: real, endAngle: real) returns (status: Status, id: string)
      requires Valid()
      modifies this, base
      ensures Valid()
      ensures radius <= 0.0 ==> status == Threw(InvalidArgument, RadiusError) && id == "" &&
                                localCounter == old(localCounter) && base.feature == old(base.feature)
      ensures radius > 0.0 ==> status == Done && localCounter == old(localCounter) + 1 && id == LocalId("A", localCounter) &&
                               base.feature == old(base.feature).(segments := old(base.feature.segments) +
                                 [SketchArc(id, false, center, radius, startAngle, endAngle, startAngle > endAngle)])
    {
      if radius <= 0.0 {
        return Threw(InvalidArgument, RadiusError), "";
      }
      id := GenerateLocalID("A");
      Append(SketchArc(id, false, center, radius, startAngle, endAngle, startAngle > endAngle));
      status := Done;
    }

    /** A point is never construction geometry. */
    method AddPoint(position: Point3D) returns (id: string)
      requires Valid()
      modifies this, base
      ensures Valid() && localCounter == old(localCounter) + 1
      ensures id == LocalId("P", localCounter)
      ensures base.feature == old(base.feature).(segments := old(base.feature.segments) + [SketchPoint(id, false, position)])
    {
      id := GenerateLocalID("P");
      Append(SketchPoint(id, false, position));
    }

    /** Appends one constraint with the entity IDs in argument order. */
    method AddConstraint(constraintType: ConstraintType, ids: seq<string>, value: real)
      requires Valid()
      modifies base
      ensures Valid()
      ensures base.feature == old(base.feature).(constraints := old(base.feature.constraints) + [Constraint(constraintType, ids, value)])
    {
      base.feature := base.feature.(constraints := base.feature.constraints + [Constraint(constraintType, ids, value)]);
    }

    method AddCoincident(entity1: string, entity2: string)
      requires Valid()
      modifies base
      ensures Valid()
      ensures base.feature == old(base.feature).(constraints := old(base.feature.constraints) + [Constraint(Coincident, [entity1, entity2], 0.0)])
    {
      AddConstraint(Coincident, [entity1, entity2], 0.0);
    }

    method AddHorizontal(line: string)
      requires Valid()
      modifies base
      ensures Valid()
      ensures base.feature == old(base.feature).(constraints := old(base.feature.constraints) + [Constraint(Horizontal, [line], 0.0)])
    {
      AddConstraint(Horizontal, [line], 0.0);
    }

    method AddVertical(line: string)
      requires Valid()
      modifies base
      ensures Valid()
      ensures base.feature == old(base.feature).(constraints := old(base.feature.constraints) + [Constraint(Vertical, [line], 0.0)])
    {
      AddConstraint(Vertical, [line], 0.0);
    }

    method AddTangent(entity1: string, entity2: string)
      requires Valid()
      modifies base
      ensures Valid()
      ensures base.feature == old(base.feature).(constraints := old(base.feature.constraints) + [Constraint(Tangent, [entity1, entity2], 0.0)])
    {
      AddConstraint(Tangent, [entity1, entity2], 0.0);
    }

    method AddDistanceDimension(entity1: string, entity2: string, value: real)
      requires Valid()
      modifies base
      ensures Valid()
      ensures base.feature == old(base.feature).(constraints := old(base.feature.constraints) + [Constraint(Dimensional, [entity1, entity2], value)])
    {
      AddConstraint(Dimensional, [entity1, entity2], value);
    }
  }

  /**
   * The plane SetReferencePlane ends with: the YZ frame for STD_DATUM_YZ, the
   * ZX frame for STD_DATUM_ZX and the XY frame for every other ID, with the
   * given ID as its target.
   */
  function StandardPlaneFor(planeID: string): (r: Reference)
    ensures r.RefPlane? && r.refType == FeatureDatumPlane && r.targetFeatureID == planeID && r.origin == Zero
  {
    if planeID == PlaneYZ then
      RefPlane(FeatureDatumPlane, planeID, Zero, Vec3(0.0, 1.0, 0.0), Vec3(0.0, 0.0, 1.0), Vec3(1.0, 0.0, 0.0))
    else if planeID == PlaneZX then
      RefPlane(FeatureDatumPlane, planeID, Zero, Vec3(0.0, 0.0, 1.0), Vec3(1.0, 0.0, 0.0), Vec3(0.0, 1.0, 0.0))
    else
      RefPlane(FeatureDatumPlane, planeID, Zero, Vec3(1.0, 0.0, 0.0), Vec3(0.0, 1.0, 0.0), Vec3(0.0, 0.0, 1.0))
  }

  /** The X direction and normal SetReferencePlane passes to SetPlane for a plane ID. */
  function StandardFrameAxes(planeID: string): (Vector3D, Vector3D)
  {
    if planeID == PlaneYZ then (Vec3(0.0, 1.0, 0.0), Vec3(1.0, 0.0, 0.0))
    else if planeID == PlaneZX then (Vec3(0.0, 0.0, 1.0), Vec3(0.0, 1.0, 0.0))
    else (Vec3(1.0, 0.0, 0.0), Vec3(0.0, 0.0, 1.0))
  }

  /** SetPlane on the chosen axes produces the frame of StandardPlaneFor. */
  lemma StandardFrameYDir(planeID: string)
    ensures StandardFrameAxes(planeID).0 == StandardPlaneFor(planeID).xDir
    ensures StandardFrameAxes(planeID).1 == StandardPlaneFor(planeID).normal
    ensures Normalized(Cross(StandardFrameAxes(planeID).1, StandardFrameAxes(planeID).0)) == StandardPlaneFor(planeID).yDir
  {
    StandardAxesMatch(planeID);
    if planeID == PlaneYZ {
      YZFrame(planeID);
    } else if planeID == PlaneZX {
      ZXFrame(planeID);
    } else {
      XYFrame(planeID);
    }
  }

  lemma StandardAxesMatch(planeID: string)
    ensures StandardFrameAxes(planeID).0 == StandardPlaneFor(planeID).xDir
    ensures StandardFrameAxes(planeID).1 == StandardPlaneFor(planeID).normal
  {
  }

  lemma YZFrame(planeID: string)
    requires planeID == PlaneYZ
    ensures Normalized(Cross(StandardFrameAxes(planeID).1, StandardFrameAxes(planeID).0)) == StandardPlaneFor(planeID).yDir
  {
    assert StandardFrameAxes(planeID) == (Vec3(0.0, 1.0, 0.0), Vec3(1.0, 0.0, 0.0));
    assert StandardPlaneFor(planeID).yDir == Vec3(0.0, 0.0, 1.0);
    YZFrameYDir();
  }

  lemma ZXFrame(planeID: string)
    requires planeID == PlaneZX
    ensures Normalized(Cross(StandardFrameAxes(planeID).1, StandardFrameAxes(planeID).0)) == StandardPlaneFor(planeID).yDir
  {
    StandardPlaneIdsDistinct();
    assert StandardFrameAxes(planeID) == (Vec3(0.0, 0.0, 1.0), Vec3(0.0, 1.0, 0.0));
    assert StandardPlaneFor(planeID).yDir == Vec3(1.0, 0.0, 0.0);
    ZXFrameYDir();
  }

  lemma XYFrame(planeID: string)
    requires planeID != PlaneYZ && planeID != PlaneZX
    ensures Normalized(Cross(StandardFrameAxes(planeID).1, StandardFrameAxes(planeID).0)) == StandardPlaneFor(planeID).yDir
  {
    assert StandardFrameAxes(planeID) == (Vec3(1.0, 0.0, 0.0), Vec3(0.0, 0.0, 1.0));
    assert StandardPlaneFor(planeID).yDir == Vec3(0.0, 1.0, 0.0);
    XYFrameYDir();
  }


  /** Any two segments of a valid builder's sketch have different local IDs. */
  lemma BuilderIdsDistinct(b: SketchBuilder, i: nat, j: nat)
    requires b.Valid() && i < j < |b.base.feature.segments|
    ensures b.base.feature.segments[i].localID != b.base.feature.segments[j].localID
  {
    NumberedIdsDistinct(b.base.feature.segments, i, j);
  }
}
