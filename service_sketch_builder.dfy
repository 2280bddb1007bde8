/**
 * service/builders/SketchBuilder.h: builds a sketch segment by segment. Each
 * Add* call draws the next value of the builder's local counter, appends one
 * segment and returns its local ID; the constraint helpers append one
 * constraint each. The reference plane is checked against the model.
 */
module ServiceSketchBuilder {
  import opened Wrappers
  import opened Geometry
  import opened Features
  import opened CoreModel
  import opened Ids
  import opened LocalIds
  import opened ServiceBuilderBase

  const NullPlaneError: string := "Reference plane cannot be null"
  const RadiusError: string := "radius must be positive"

  class SketchBuilder {
    const base: FeatureBuilder
    var localCounter: nat

    /** The feature is a sketch whose segments are exactly the ones this builder numbered. */
    ghost predicate Valid()
      reads this, base
    {
      base.feature.Sketch? && |base.feature.segments| == localCounter && Numbered(base.feature.segments)
    }

    constructor (model: UnifiedModel, name: string, uuids: IdCounter)
      modifies uuids
      ensures Valid() && fresh(base) && base.model == model
      ensures uuids.count == old(uuids.count) + 1
      ensures base.feature == Sketch(GeneratedId(uuids.count), name, "", false, None, [], [])
    {
      base := new FeatureBuilder(model, name, SketchKind, uuids);
      localCounter := 0;
    }

    /**
     * A null plane throws invalid_argument; a plane ValidateReference rejects
     * throws its runtime_error; either way the sketch keeps its plane.
     */
    method SetReferencePlane(ref: Option<Reference>) returns (status: Status)
      requires Valid() && base.model.Valid()
      modifies base
      ensures Valid()
      ensures ref.None? ==> status == Threw(InvalidArgument, NullPlaneError) && base.feature == old(base.feature)
      ensures ref.Some? && !ReferenceAccepted(ref, base.model.features) ==>
                status == Threw(RuntimeError, RejectionMessage(ref.value)) && base.feature == old(base.feature)
      ensures ref.Some? && ReferenceAccepted(ref, base.model.features) ==>
                status == Done && base.feature == old(base.feature).(referencePlane := ref)
    {
      if ref.None? {
        return Threw(InvalidArgument, NullPlaneError);
      }
      status := base.ValidateReference(ref);
      if status.Done? {
        base.feature := base.feature.(referencePlane := ref);
      }
    }

    /** Advances the shared counter and names the next segment. */
    method GenerateLocalID(prefix: string) returns (id: string)
      modifies this
      ensures localCounter == old(localCounter) + 1
      ensures id == LocalId(prefix, localCounter)
    {
      localCounter := localCounter + 1;
      id := LocalId(prefix, localCounter);
    }

    /** Appends a segment already numbered with the current counter value. */
    method Append(s: Segment)
      requires base.feature.Sketch? && |base.feature.segments| + 1 == localCounter && Numbered(base.feature.segments)
      requires s.localID == LocalId(SegmentPrefix(s), localCounter)
      modifies base
      ensures Valid()
      ensures base.feature == old(base.feature).(segments := old(base.feature.segments) + [s])
    {
      AppendNumbered(base.feature.segments, s);
      base.feature := base.feature.(segments := base.feature.segments + [s]);
    }

    method AddLine(start: Point3D, end: Point3D, isConstruction: bool) returns (id: string)
      requires Valid()
      modifies this, base
      ensures Valid() && localCounter == old(localCounter) + 1
      ensures id == LocalId("L", localCounter)
      ensures base.feature == old(base.feature).(segments := old(base.feature.segments) + [SketchLine(id, isConstruction, start, end)])
    {
      id := GenerateLocalID("L");
      Append(SketchLine(id, isConstruction, start, end));
    }

    /** A radius that is not positive throws and appends nothing. */
    method AddCircle(center: Point3D, radius: real, isConstruction: bool) returns (status: Status, id: string)
      requires Valid()
      modifies this, base
      ensures Valid()
      ensures radius <= 0.0 ==> status == Threw(InvalidArgument, RadiusError) && id == "" &&
                                localCounter == old(localCounter) && base.feature == old(base.feature)
      ensures radius > 0.0 ==> status == Done && localCounter == old(localCounter) + 1 && id == LocalId("C", localCounter) &&
                               base.feature == old(base.feature).(segments := old(base.feature.segments) + [SketchCircle(id, isConstruction, center, radius)])
    {
      if radius <= 0.0 {
        return Threw(InvalidArgument, RadiusError), "";
      }
      id := GenerateLocalID("C");
      Append(SketchCircle(id, isConstruction, center, radius));
      status := Done;
    }

    /** The caller chooses the arc's direction and construction flag. */
    method AddArc(center: Point3D, radius: real, startAngle: real, endAngle: real, isClockwise: bool, isConstruction: bool)
      returns (status: Status, id: string)
      requires Valid()
      modifies this, base
      ensures Valid()
      ensures radius <= 0.0 ==> status == Threw(InvalidArgument, RadiusError) && id == "" &&
                                localCounter == old(localCounter) && base.feature == old(base.feature)
      ensures radius > 0.0 ==> status == Done && localCounter == old(localCounter) + 1 && id == LocalId("A", localCounter) &&
                               base.feature == old(base.feature).(segments := old(base.feature.segments) +
                                 [SketchArc(id, isConstruction, center, radius, startAngle, endAngle, isClockwise)])
    {
      if radius <= 0.0 {
        return Threw(InvalidArgument, RadiusError), "";
      }
      id := GenerateLocalID("A");
      Append(SketchArc(id, isConstruction, center, radius, startAngle, endAngle, isClockwise));
      status := Done;
    }

    /** A point is never construction geometry. */
    method AddPoint(position: Point3D) returns (id: string)
      requires Valid()
      modifies this, base
      ensures Valid() && localCounter == old(localCounter) + 1
      ensures id == LocalId("P", localCounter)
      ensures base.feature == old(base.feature).(segments := old(base.feature.segments) + [SketchPoint(id, false, position)])
    {
      id := GenerateLocalID("P");
      Append(SketchPoint(id, false, position));
    }

    /** Appends one constraint with the entity IDs in argument order. */
    method AddConstraint(constraintType: ConstraintType, ids: seq<string>, value: real)
      requires Valid()
      modifies base
      ensures Valid()
      ensures base.feature == old(base.feature).(constraints := old(base.feature.constraints) + [Constraint(constraintType, ids, value)])
    {
      base.feature := base.feature.(constraints := base.feature.constraints + [Constraint(constraintType, ids, value)]);
    }

    method AddCoincident(entity1: string, entity2: string)
      requires Valid()
      modifies base
      ensures Valid()
      ensures base.feature == old(base.feature).(constraints := old(base.feature.constraints) + [Constraint(Coincident, [entity1, entity2], 0.0)])
    {
      AddConstraint(Coincident, [entity1, entity2], 0.0);
    }

    method AddHorizontal(line: string)
      requires Valid()
      modifies base
      ensures Valid()
      ensures base.feature == old(base.feature).(constraints := old(base.feature.constraints) + [Constraint(Horizontal, [line], 0.0)])
    {
      AddConstraint(Horizontal, [line], 0.0);
    }

    method AddVertical(line: string)
      requires Valid()
      modifies base
      ensures Valid()
      ensures base.feature == old(base.feature).(constraints := old(base.feature.constraints) + [Constraint(Vertical, [line], 0.0)])
    {
      AddConstraint(Vertical, [line], 0.0);
    }

    method AddTangent(entity1: string, entity2: string)
      requires Valid()
      modifies base
      ensures Valid()
      ensures base.feature == old(base.feature).(constraints := old(base.feature.constraints) + [Constraint(Tangent, [entity1, entity2], 0.0)])
    {
      AddConstraint(Tangent, [entity1, entity2], 0.0);
    }

    method AddDistanceDimension(entity1: string, entity2: string, value: real)
      requires Valid()
      modifies base
      ensures Valid()
      ensures base.feature == old(base.feature).(constraints := old(base.feature.constraints) + [Constraint(Dimensional, [entity1, entity2], value)])
    {
      AddConstraint(Dimensional, [entity1, entity2], value);
    }
  }

  /** Any two segments of a valid builder's sketch have different local IDs. */
  lemma BuilderIdsDistinct(b: SketchBuilder, i: nat, j: nat)
    requires b.Valid() && i < j < |b.base.feature.segments|
    ensures b.base.feature.segments[i].localID != b.base.feature.segments[j].localID
  {
    NumberedIdsDistinct(b.base.feature.segments, i, j);
  }
}
