/**
 * service/builders/RevolveBuilder.h: builds a revolve. The profile is kept
 * as a sketch ID string, checked against the model when it is set; the axis
 * setters each write their own fields and never the axis kind; the angle
 * setters fix the angle kind and both angles.
 */
module ServiceRevolveBuilder {
  import opened Wrappers
  import opened Geometry
  import opened Features
  import opened ModelIndex
  import opened CoreModel
  import opened Ids
  import opened ServiceBuilderBase

  function ProfileNotFound(sketchID: string): string { "Sketch profile not found: " + sketchID }
  function ExternalNotFound(x: string): string { "Sketch profile not found by external ID: " + x }

  class RevolveBuilder {
    const base: FeatureBuilder

    ghost predicate Valid()
      reads this, base
    {
      base.feature.Revolve?
    }

    constructor (model: UnifiedModel, name: string, uuids: IdCounter)
      modifies uuids
      ensures Valid() && fresh(base) && base.model == model
      ensures uuids.count == old(uuids.count) + 1
      ensures base.feature == Revolve(GeneratedId(uuids.count), name, "", false, "", DefaultRevolveAxis(), Single, 0.0, 0.0)
    {
      base := new FeatureBuilder(model, name, RevolveKind, uuids);
    }

    /** Stores the ID string itself once the model holds a sketch under it. */
    method SetProfile(sketchID: string) returns (status: Status)
      requires Valid() && base.model.Valid()
      modifies base
      ensures Valid()
      ensures SketchWithId(base.model.features, sketchID).Some? ==>
                status == Done && base.feature == old(base.feature).(profileSketchID := sketchID)
      ensures SketchWithId(base.model.features, sketchID).None? ==>
                status == Threw(RuntimeError, ProfileNotFound(sketchID)) && base.feature == old(base.feature)
      ensures status.Done? ==> SketchWithId(base.model.features, base.feature.profileSketchID).Some?
    {
      var sketch := base.model.GetFeatureAs(sketchID, SketchKind);
      if sketch.None? {
        return Threw(RuntimeError, ProfileNotFound(sketchID));
      }
      base.feature := base.feature.(profileSketchID := sketchID);
      status := Done;
    }

    /** Stores the internal feature ID of the sketch the external ID finds. */
    method SetProfileByExternalID(externalID: string) returns (status: Status)
      requires Valid() && base.model.Valid()
      modifies base
      ensures Valid()
      ensures SketchWithExternalId(base.model.features, externalID).Some? ==>
                status == Done &&
                base.feature == old(base.feature).(profileSketchID := SketchWithExternalId(base.model.features, externalID).value.featureID)
      ensures SketchWithExternalId(base.model.features, externalID).None? ==>
                status == Threw(RuntimeError, ExternalNotFound(externalID)) && base.feature == old(base.feature)
    {
      var sketch := base.model.GetFeatureByExternalIDAs(externalID, SketchKind);
      if sketch.None? {
        return Threw(RuntimeError, ExternalNotFound(externalID));
      }
      base.feature := base.feature.(profileSketchID := sketch.value.featureID);
      status := Done;
    }

    /** Names the sketch line the axis follows; the kind and the other axis fields stay. */
    method SetAxisFromSketchLine(sketchLineID: string)
      requires Valid()
      modifies base
      ensures Valid()
      ensures base.feature == old(base.feature).(axis := old(base.feature.axis).(referenceLocalID := sketchLineID))
    {
      base.feature := base.feature.(axis := base.feature.axis.(referenceLocalID := sketchLineID));
    }

    /** Sets origin and normalised direction; the kind and the references stay. */
    method SetAxisExplicit(origin: Point3D, direction: Vector3D)
      requires Valid()
      modifies base
      ensures Valid()
      ensures base.feature == old(base.feature).(axis := old(base.feature.axis).(origin := origin, direction := Normalized(direction)))
    {
      var axis := base.feature.axis.(origin := origin, direction := direction);
      axis := axis.(direction := Normalized(axis.direction));
      base.feature := base.feature.(axis := axis);
    }

    /** Sets the axis reference entity, null included; the kind and the other axis fields stay. */
    method SetAxisRef(edgeRef: Option<Reference>)
      requires Valid()
      modifies base
      ensures Valid()
      ensures base.feature == old(base.feature).(axis := old(base.feature.axis).(referenceEntity := edgeRef))
    {
      base.feature := base.feature.(axis := base.feature.axis.(referenceEntity := edgeRef));
    }

    /** A one-sided revolve by the given angle. */
    method SetAngle(angle: real)
      requires Valid()
      modifies base
      ensures Valid()
      ensures base.feature == old(base.feature).(angleKind := Single, primaryAngle := angle, secondaryAngle := 0.0)
    {
      base.feature := base.feature.(angleKind := Single, primaryAngle := angle, secondaryAngle := 0.0);
    }

    /** A revolve in both directions by the two given angles. */
    method SetTwoWayAngle(angle1: real, angle2: real)
      requires Valid()
      modifies base
      ensures Valid()
      ensures base.feature == old(base.feature).(angleKind := TwoWay, primaryAngle := angle1, secondaryAngle := angle2)
    {
      base.feature := base.feature.(angleKind := TwoWay, primaryAngle := angle1, secondaryAngle := angle2);
    }

    /** A symmetric revolve: both angles hold the total angle. */
    method SetSymmetricAngle(totalAngle: real)
      requires Valid()
      modifies base
      ensures Valid()
      ensures base.feature == old(base.feature).(angleKind := Symmetric, primaryAngle := totalAngle, secondaryAngle := totalAngle)
    {
      base.feature := base.feature.(angleKind := Symmetric, primaryAngle := totalAngle, secondaryAngle := totalAngle);
    }
  }

  /** No axis setter changes the axis kind, whatever the axis held. */
  lemma AxisSettersKeepKind(axis: RevolveAxis, line: string, origin: Point3D, direction: Vector3D, ref: Option<Reference>)
    ensures axis.(referenceLocalID := line).kind == axis.kind
    ensures axis.(origin := origin, direction := Normalized(direction)).kind == axis.kind
    ensures axis.(referenceEntity := ref).kind == axis.kind
  {
  }

  /**
   * When the model's feature IDs are unique, the ID SetProfileByExternalID
   * stores finds the same sketch again by ID. With a repeated ID a later
   * feature under the same ID can shadow it.
   */
  lemma {:induction false} ExternalProfileIdResolves(fs: seq<Feature>, x: string)
    requires forall i, j :: 0 <= i < j < |fs| ==> fs[i].featureID != fs[j].featureID
    requires SketchWithExternalId(fs, x).Some?
    ensures SketchWithId(fs, SketchWithExternalId(fs, x).value.featureID) == SketchWithExternalId(fs, x)
  {
    var k := LastWithExternalId(fs, x).value;
    assert LastWithId(fs, fs[k].featureID).Some?;
  }
}
