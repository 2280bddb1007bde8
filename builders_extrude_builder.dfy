/**
 * builders/ExtrudeBuilder.h: the middle-generation extrude builder. Its
 * profile, operation, draft and thin-wall setters are the service-layer
 * ones, which it runs through a service builder it holds; its direction is
 * normalised with no length check, and its end conditions are stored as
 * given, with no type test and no reference validation. The
 * FeatureBuilderBase header this generation includes is not part of this
 * model; the builder is bound to the core-layer model as the service one is.
 */
module BuildersExtrudeBuilder {
  import opened Wrappers
  import opened Geometry
  import opened Features
  import opened ModelIndex
  import opened CoreModel
  import opened Ids
  import ServiceExtrudeBuilder

  class ExtrudeBuilder {
    const inner: ServiceExtrudeBuilder.ExtrudeBuilder

    ghost predicate Valid()
      reads this, inner, inner.base
    {
      inner.Valid()
    }

    /** The constructor sets direction (0,0,1), which is also the default. */
    constructor (model: UnifiedModel, name: string, uuids: IdCounter)
      modifies uuids
      ensures Valid() && fresh(inner) && fresh(inner.base) && inner.base.model == model
      ensures uuids.count == old(uuids.count) + 1
      ensures inner.base.feature == Extrude(GeneratedId(uuids.count), name, "", false, None, Vec3(0.0, 0.0, 1.0),
                                            DefaultEndCondition(), None, Boss, None, None)
    {
      inner := new ServiceExtrudeBuilder.ExtrudeBuilder(model, name, uuids);
      new;
      inner.base.feature := inner.base.feature.(direction := Vec3(0.0, 0.0, 1.0));
    }

    method SetProfile(sketchID: string) returns (status: Status)
      requires Valid() && inner.base.model.Valid()
      modifies inner.base
      ensures Valid()
      ensures SketchWithId(inner.base.model.features, sketchID).Some? ==>
                status == Done &&
                inner.base.feature == old(inner.base.feature).(sketchProfile := SketchWithId(inner.base.model.features, sketchID))
      ensures SketchWithId(inner.base.model.features, sketchID).None? ==>
                status == Threw(RuntimeError, ServiceExtrudeBuilder.ProfileNotFound(sketchID)) &&
                inner.base.feature == old(inner.base.feature)
    {
      status := inner.SetProfile(sketchID);
    }

    method SetProfileByExternalID(externalID: string) returns (status: Status)
      requires Valid() && inner.base.model.Valid()
      modifies inner.base
      ensures Valid()
      ensures SketchWithExternalId(inner.base.model.features, externalID).Some? ==>
                status == Done &&
                inner.base.feature == old(inner.base.feature).(sketchProfile := SketchWithExternalId(inner.base.model.features, externalID))
      ensures SketchWithExternalId(inner.base.model.features, externalID).None? ==>
                status == Threw(RuntimeError, ServiceExtrudeBuilder.ExternalNotFound(externalID)) &&
                inner.base.feature == old(inner.base.feature)
    {
      status := inner.SetProfileByExternalID(externalID);
    }

    /** Stores the normalised vector; a near-zero vector is stored as it is, since Normalize leaves it. */
    method SetDirection(dir: Vector3D)
      requires Valid()
      modifies inner.base
      ensures Valid()
      ensures inner.base.feature == old(inner.base.feature).(direction := Normalized(dir))
      ensures SquaredLength(dir) <= Epsilon * Epsilon ==> inner.base.feature.direction == dir
    {
      inner.base.feature := inner.base.feature.(direction := Normalized(dir));
    }

    method SetOperation(op: BooleanOp)
      requires Valid()
      modifies inner.base
      ensures Valid()
      ensures inner.base.feature == old(inner.base.feature).(operation := op)
    {
      inner.SetOperation(op);
    }

    /** Stores the condition as given, Unknown type and unvalidated references included. */
    method SetEndCondition1(cond: EndCondition)
      requires Valid()
      modifies inner.base
      ensures Valid()
      ensures inner.base.feature == old(inner.base.feature).(endCondition1 := cond)
    {
      inner.base.feature := inner.base.feature.(endCondition1 := cond);
    }

    method SetEndCondition2(cond: EndCondition)
      requires Valid()
      modifies inner.base
      ensures Valid()
      ensures inner.base.feature == old(inner.base.feature).(endCondition2 := Some(cond))
    {
      inner.base.feature := inner.base.feature.(endCondition2 := Some(cond));
    }

    method SetDraft(angle: real, outward: bool) returns (status: Status)
      requires Valid()
      modifies inner.base
      ensures Valid()
      ensures angle < 0.0 ==> status == Threw(RuntimeError, ServiceExtrudeBuilder.DraftError) && inner.base.feature == old(inner.base.feature)
      ensures angle >= 0.0 ==>
                status == Done && inner.base.feature == old(inner.base.feature).(draft := Some(DraftOption(angle, outward)))
    {
      status := inner.SetDraft(angle, outward);
    }

    method SetThinWall(thickness: real, isOneSided: bool, isCovered: bool) returns (status: Status)
      requires Valid()
      modifies inner.base
      ensures Valid()
      ensures thickness <= 0.0 ==>
                status == Threw(RuntimeError, ServiceExtrudeBuilder.ThicknessError) && inner.base.feature == old(inner.base.feature)
      ensures thickness > 0.0 ==>
                status == Done &&
                inner.base.feature == old(inner.base.feature).(thinWall := Some(ThinWallOption(thickness, isOneSided, isCovered)))
    {
      status := inner.SetThinWall(thickness, isOneSided, isCovered);
    }
  }
}
