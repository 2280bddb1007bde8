/**
 * service/builders/ExtrudeBuilder.h: builds an extrude. The profile is looked
 * up in the model by ID, by name or by external ID; the direction is
 * normalised after a near-zero check; end conditions of type Unknown are
 * ignored and the others have their reference validated; draft and
 * thin-wall parameters are range-checked. A rejected call leaves the
 * extrude as it was.
 */
module ServiceExtrudeBuilder {
  import opened Wrappers
  import opened Geometry
  import opened Features
  import opened ModelIndex
  import opened CoreModel
  import opened Ids
  import opened ServiceBuilderBase

  /** The name the source treats as a failed name lookup besides the empty ID. */
  const UnknownSketchId: string := "UnknownSketchId"

  /** A direction shorter than this is refused. */
  const MinDirectionLength: real := 0.000000001

  const DirectionError: string := "Direction vector is too small (near zero)."
  const DraftError: string := "Draft angle must be non-negative."
  const ThicknessError: string := "Thickness must be positive."

  function ProfileNotFound(sketchID: string): string { "Sketch profile not found: " + sketchID }
  function NameNotFound(name: string): string { "Sketch not found by name: " + name }
  function ExternalNotFound(x: string): string { "Sketch profile not found by external ID: " + x }

  /** The ID GetFeatureIdByName answers: that of the first feature with the name, or "". */
  function IdByName(fs: seq<Feature>, name: string): string
  {
    var k := FirstWithName(fs, name);
    if k.Some? then fs[k.value].featureID else ""
  }

  class ExtrudeBuilder {
    const base: FeatureBuilder

    /** The feature is an extrude whose profile, when set, is a sketch. */
    ghost predicate Valid()
      reads this, base
    {
      base.feature.Extrude? && base.feature.ProfilesAreSketches()
    }

    /** A default extrude: no profile, direction (0,0,1), one blind end condition, Boss. */
    constructor (model: UnifiedModel, name: string, uuids: IdCounter)
      modifies uuids
      ensures Valid() && fresh(base) && base.model == model
      ensures uuids.count == old(uuids.count) + 1
      ensures base.feature == Extrude(GeneratedId(uuids.count), name, "", false, None, DefaultDirection,
                                      DefaultEndCondition(), None, Boss, None, None)
    {
      base := new FeatureBuilder(model, name, ExtrudeKind, uuids);
    }

    /** Sets the profile to the sketch the ID finds, or throws when it finds none. */
    method SetProfile(sketchID: string) returns (status: Status)
      requires Valid() && base.model.Valid()
      modifies base
      ensures Valid()
      ensures SketchWithId(base.model.features, sketchID).Some? ==>
                status == Done && base.feature == old(base.feature).(sketchProfile := SketchWithId(base.model.features, sketchID))
      ensures SketchWithId(base.model.features, sketchID).None? ==>
                status == Threw(RuntimeError, ProfileNotFound(sketchID)) && base.feature == old(base.feature)
    {
      var sketch := base.model.GetFeatureAs(sketchID, SketchKind);
      if sketch.None? {
        return Threw(RuntimeError, ProfileNotFound(sketchID));
      }
      base.feature := base.feature.(sketchProfile := sketch);
      status := Done;
    }

    /**
     * Resolves the name to the first matching feature's ID and sets that
     * profile; an empty ID or the placeholder "UnknownSketchId" throws.
     */
    method SetProfileByName(sketchName: string) returns (status: Status)
      requires Valid() && base.model.Valid()
      modifies base
      ensures Valid()
      ensures var id := IdByName(base.model.features, sketchName);
              if id == "" || id == UnknownSketchId then
                status == Threw(RuntimeError, NameNotFound(sketchName)) && base.feature == old(base.feature)
              else if SketchWithId(base.model.features, id).Some? then
                status == Done && base.feature == old(base.feature).(sketchProfile := SketchWithId(base.model.features, id))
              else
                status == Threw(RuntimeError, ProfileNotFound(id)) && base.feature == old(base.feature)
    {
      var sketchId := base.model.GetFeatureIdByName(sketchName);
      if sketchId == "" || sketchId == UnknownSketchId {
        return Threw(RuntimeError, NameNotFound(sketchName));
      }
      status := SetProfile(sketchId);
    }

    /** Sets the profile to the sketch the external ID finds, or throws. */
    method SetProfileByExternalID(externalID: string) returns (status: Status)
      requires Valid() && base.model.Valid()
      modifies base
      ensures Valid()
      ensures SketchWithExternalId(base.model.features, externalID).Some? ==>
                status == Done &&
                base.feature == old(base.feature).(sketchProfile := SketchWithExternalId(base.model.features, externalID))
      ensures SketchWithExternalId(base.model.features, externalID).None? ==>
                status == Threw(RuntimeError, ExternalNotFound(externalID)) && base.feature == old(base.feature)
    {
      var sketch := base.model.GetFeatureByExternalIDAs(externalID, SketchKind);
      if sketch.None? {
        return Threw(RuntimeError, ExternalNotFound(externalID));
      }
      base.feature := base.feature.(sketchProfile := sketch);
      status := Done;
    }

    /** Refuses a vector shorter than 1e-9 and otherwise stores it normalised. */
    method SetDirection(dir: Vector3D) returns (status: Status)
      requires Valid()
      modifies base
      ensures Valid()
      ensures SquaredLength(dir) < MinDirectionLength * MinDirectionLength ==>
                status == Threw(RuntimeError, DirectionError) && base.feature == old(base.feature)
      ensures SquaredLength(dir) >= MinDirectionLength * MinDirectionLength ==>
                status == Done && base.feature == old(base.feature).(direction := Normalized(dir))
    {
      // The length is compared squared: for the true root the outcome is the same.
      if SquaredLength(dir) < MinDirectionLength * MinDirectionLength {
        return Threw(RuntimeError, DirectionError);
      }
      base.feature := base.feature.(direction := Normalized(dir));
      status := Done;
    }

    method SetOperation(op: BooleanOp)
      requires Valid()
      modifies base
      ensures Valid()
      ensures base.feature == old(base.feature).(operation := op)
    {
      base.feature := base.feature.(operation := op);
    }

    /**
     * Ignores a condition of type Unknown; otherwise validates its reference
     * and, when that passes, stores it as the first end condition.
     */
    method SetEndCondition1(cond: EndCondition) returns (status: Status)
      requires Valid() && base.model.Valid()
      modifies base
      ensures Valid()
      ensures cond.endType == Unknown ==> status == Done && base.feature == old(base.feature)
      ensures cond.endType != Unknown && !ReferenceAccepted(cond.referenceEntity, base.model.features) ==>
                status == Threw(RuntimeError, RejectionMessage(cond.referenceEntity.value)) &&
                base.feature == old(base.feature)
      ensures cond.endType != Unknown && ReferenceAccepted(cond.referenceEntity, base.model.features) ==>
                status == Done && base.feature == old(base.feature).(endCondition1 := cond)
    {
      if cond.endType == Unknown {
        return Done;
      }
      status := base.ValidateReference(cond.referenceEntity);
      if status.Done? {
        base.feature := base.feature.(endCondition1 := cond);
      }
    }

    /** As SetEndCondition1, for the second direction, which becomes present. */
    method SetEndCondition2(cond: EndCondition) returns (status: Status)
      requires Valid() && base.model.Valid()
      modifies base
      ensures Valid()
      ensures cond.endType == Unknown ==> status == Done && base.feature == old(base.feature)
      ensures cond.endType != Unknown && !ReferenceAccepted(cond.referenceEntity, base.model.features) ==>
                status == Threw(RuntimeError, RejectionMessage(cond.referenceEntity.value)) &&
                base.feature == old(base.feature)
      ensures cond.endType != Unknown && ReferenceAccepted(cond.referenceEntity, base.model.features) ==>
                status == Done && base.feature == old(base.feature).(endCondition2 := Some(cond))
    {
      if cond.endType == Unknown {
        return Done;
      }
      status := base.ValidateReference(cond.referenceEntity);
      if status.Done? {
        base.feature := base.feature.(endCondition2 := Some(cond));
      }
    }

    /** Refuses a negative angle; otherwise stores exactly the given draft. */
    method SetDraft(angle: real, outward: bool) returns (status: Status)
      requires Valid()
      modifies base
      ensures Valid()
      ensures angle < 0.0 ==> status == Threw(RuntimeError, DraftError) && base.feature == old(base.feature)
      ensures angle >= 0.0 ==> status == Done && base.feature == old(base.feature).(draft := Some(DraftOption(angle, outward)))
    {
      if angle < 0.0 {
        return Threw(RuntimeError, DraftError);
      }
      base.feature := base.feature.(draft := Some(DraftOption(angle, outward)));
      status := Done;
    }

    /** Refuses a thickness that is not positive; otherwise stores exactly the given thin wall. */
    method SetThinWall(thickness: real, isOneSided: bool, isCovered: bool) returns (status: Status)
      requires Valid()
      modifies base
      ensures Valid()
      ensures thickness <= 0.0 ==> status == Threw(RuntimeError, ThicknessError) && base.feature == old(base.feature)
      ensures thickness > 0.0 ==>
                status == Done && base.feature == old(base.feature).(thinWall := Some(ThinWallOption(thickness, isOneSided, isCovered)))
    {
      if thickness <= 0.0 {
        return Threw(RuntimeError, ThicknessError);
      }
      base.feature := base.feature.(thinWall := Some(ThinWallOption(thickness, isOneSided, isCovered)));
      status := Done;
    }
  }

  /**
   * A profile found by the name lookup is a sketch of the model, and it is
   * the last sketch carrying the ID of the first feature with that name.
   */
  lemma NamedProfileIsSketch(fs: seq<Feature>, name: string)
    requires IdByName(fs, name) != ""
    requires SketchWithId(fs, IdByName(fs, name)).Some?
    ensures FirstWithName(fs, name).Some?
    ensures SketchWithId(fs, IdByName(fs, name)).value.Sketch?
    ensures SketchWithId(fs, IdByName(fs, name)).value.featureID == fs[FirstWithName(fs, name).value].featureID
  {
    SketchLookupsFindSketches(fs, IdByName(fs, name), "");
  }
}
