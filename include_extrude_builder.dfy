/**
 * include/ExtrudeBuilder.h: the oldest extrude builder, bound to the older
 * UnifiedModel. Besides storing whole end conditions it edits single fields
 * of the first one (SetDepth, SetThroughAll, SetUpToSurface, SetUpToNext)
 * and replaces the second one by a fresh condition (SetDirection2*).
 */
module IncludeExtrudeBuilder {
  import opened Wrappers
  import opened Geometry
  import opened Features
  import opened ModelIndex
  import opened LegacyModel
  import opened Ids
  import opened IncludeBuilderBase
  import ServiceEndConditions

  const DepthError: string := "Depth must be non-negative."
  const Direction2DepthError: string := "Direction2 depth must be non-negative."
  const DraftError: string := "Draft angle must be non-negative."
  const ThicknessError: string := "Thickness must be positive."

  function ProfileNotFound(sketchID: string): string { "Sketch profile not found: " + sketchID }

  class ExtrudeBuilder {
    const base: FeatureBuilder

    ghost predicate Valid()
      reads this, base
    {
      base.feature.Extrude? && base.feature.ProfilesAreSketches()
    }

    /** A new builder's extrude points along (0,0,1). */
    constructor (model: UnifiedModel, name: string, generator: IdCounter)
      modifies generator
      ensures Valid() && fresh(base) && base.model == model
      ensures generator.count == old(generator.count) + 1
      ensures base.feature == Extrude(GeneratedId(generator.count), name, "", false, None, Vec3(0.0, 0.0, 1.0),
                                      DefaultEndCondition(), None, Boss, None, None)
    {
      base := new FeatureBuilder(model, name, ExtrudeKind, generator);
      new;
      base.feature := base.feature.(direction := Vec3(0.0, 0.0, 1.0));
    }

    method SetProfile(sketchID: string) returns (status: Status)
      requires Valid() && base.model.Valid()
      modifies base
      ensures Valid()
      ensures SketchWithId(base.model.features, sketchID).Some? ==>
                status == Done && base.feature == old(base.feature).(sketchProfile := SketchWithId(base.model.features, sketchID))
      ensures SketchWithId(base.model.features, sketchID).None? ==>
                status == Threw(RuntimeError, ProfileNotFound(sketchID)) && base.feature == old(base.feature)
    {
      var sketch := base.model.GetFeatureAs(sketchID, SketchKind);
      if sketch.None? {
        return Threw(RuntimeError, ProfileNotFound(sketchID));
      }
      base.feature := base.feature.(sketchProfile := sketch);
      status := Done;
    }

    /** Normalises with no zero check: a vector not longer than Epsilon is stored unchanged. */
    method SetDirection(dir: Vector3D)
      requires Valid()
      modifies base
      ensures Valid()
      ensures base.feature == old(base.feature).(direction := Normalized(dir))
      ensures SquaredLength(dir) <= Epsilon * Epsilon ==> base.feature.direction == dir
    {
      base.feature := base.feature.(direction := Normalized(dir));
    }

    method SetOperation(op: BooleanOp)
      requires Valid()
      modifies base
      ensures Valid()
      ensures base.feature == old(base.feature).(operation := op)
    {
      base.feature := base.feature.(operation := op);
    }

    method SetEndCondition1(cond: EndCondition)
      requires Valid()
      modifies base
      ensures Valid()
      ensures base.feature == old(base.feature).(endCondition1 := cond)
    {
      base.feature := base.feature.(endCondition1 := cond);
    }

    method SetEndCondition2(cond: EndCondition)
      requires Valid()
      modifies base
      ensures Valid()
      ensures base.feature == old(base.feature).(endCondition2 := Some(cond))
    {
      base.feature := base.feature.(endCondition2 := Some(cond));
    }

    /** Refuses a negative depth; otherwise makes the first condition blind with that depth, keeping its other fields. */
    method SetDepth(depth: real) returns (status: Status)
      requires Valid()
      modifies base
      ensures Valid()
      ensures depth < 0.0 ==> status == Threw(RuntimeError, DepthError) && base.feature == old(base.feature)
      ensures depth >= 0.0 ==>
                status == Done &&
                base.feature == old(base.feature).(endCondition1 := old(base.feature.endCondition1).(endType := Blind, depth := depth))
    {
      if depth < 0.0 {
        return Threw(RuntimeError, DepthError);
      }
      base.feature := base.feature.(endCondition1 := base.feature.endCondition1.(endType := Blind, depth := depth));
      status := Done;
    }

    /** Changes only the first condition's type; its depth, reference and offset stay. */
    method SetThroughAll()
      requires Valid()
      modifies base
      ensures Valid()
      ensures base.feature == old(base.feature).(endCondition1 := old(base.feature.endCondition1).(endType := ThroughAll))
    {
      base.feature := base.feature.(endCondition1 := base.feature.endCondition1.(endType := ThroughAll));
    }

    /** Up to a copy of the face, with the offset; hasOffset exactly when |offset| > 1e-6. */
    method SetUpToSurface(face: Reference, offset: real)
      requires Valid() && face.RefFace?
      modifies base
      ensures Valid()
      ensures base.feature == old(base.feature).(endCondition1 := UpToSurfaceOf(old(base.feature.endCondition1), face, offset))
    {
      var targetFace := face;
      base.feature := base.feature.(endCondition1 := base.feature.endCondition1.(
        endType := UpToFace, referenceEntity := Some(targetFace), hasOffset := Abs(offset) > Epsilon, offset := offset));
    }

    method SetUpToNext()
      requires Valid()
      modifies base
      ensures Valid()
      ensures base.feature == old(base.feature).(endCondition1 := old(base.feature.endCondition1).(endType := UpToNext))
    {
      base.feature := base.feature.(endCondition1 := base.feature.endCondition1.(endType := UpToNext));
    }

    /** Refuses a negative depth; otherwise the second condition becomes a fresh blind one of that depth. */
    method SetDirection2Depth(depth: real) returns (status: Status)
      requires Valid()
      modifies base
      ensures Valid()
      ensures depth < 0.0 ==> status == Threw(RuntimeError, Direction2DepthError) && base.feature == old(base.feature)
      ensures depth >= 0.0 ==>
                status == Done && base.feature == old(base.feature).(endCondition2 := Some(DefaultEndCondition().(depth := depth)))
    {
      if depth < 0.0 {
        return Threw(RuntimeError, Direction2DepthError);
      }
      var cond := DefaultEndCondition();
      cond := cond.(endType := Blind);
      cond := cond.(depth := depth);
      base.feature := base.feature.(endCondition2 := Some(cond));
      status := Done;
    }

    /** The second condition becomes a fresh through-all one; whatever it held before is dropped. */
    method SetDirection2ThroughAll()
      requires Valid()
      modifies base
      ensures Valid()
      ensures base.feature == old(base.feature).(endCondition2 := Some(DefaultEndCondition().(endType := ThroughAll)))
    {
      var cond := DefaultEndCondition();
      cond := cond.(endType := ThroughAll);
      base.feature := base.feature.(endCondition2 := Some(cond));
    }

    method SetDraft(angle: real, outward: bool) returns (status: Status)
      requires Valid()
      modifies base
      ensures Valid()
      ensures angle < 0.0 ==> status == Threw(RuntimeError, DraftError) && base.feature == old(base.feature)
      ensures angle >= 0.0 ==> status == Done && base.feature == old(base.feature).(draft := Some(DraftOption(angle, outward)))
    {
      if angle < 0.0 {
        return Threw(RuntimeError, DraftError);
      }
      base.feature := base.feature.(draft := Some(DraftOption(angle, outward)));
      status := Done;
    }

    method SetThinWall(thickness: real, isOneSided: bool, isCovered: bool) returns (status: Status)
      requires Valid()
      modifies base
      ensures Valid()
      ensures thickness <= 0.0 ==> status == Threw(RuntimeError, ThicknessError) && base.feature == old(base.feature)
      ensures thickness > 0.0 ==>
                status == Done && base.feature == old(base.feature).(thinWall := Some(ThinWallOption(thickness, isOneSided, isCovered)))
    {
      if thickness <= 0.0 {
        return Threw(RuntimeError, ThicknessError);
      }
      base.feature := base.feature.(thinWall := Some(ThinWallOption(thickness, isOneSided, isCovered)));
      status := Done;
    }
  }

  /** The end condition SetUpToSurface leaves as the first one, as a function of the one before. */
  function UpToSurfaceOf(before: EndCondition, face: Reference, offset: real): EndCondition
  {
    before.(endType := UpToFace, referenceEntity := Some(face), hasOffset := Abs(offset) > Epsilon, offset := offset)
  }

  /**
   * This builder counts an offset from 1e-6 on, the service-layer factory
   * from 1e-9 on: an offset of 1e-7 is recorded by the factory and not here.
   */
  lemma {:induction false} OffsetThresholdsDiffer(face: Reference)
    requires face.RefFace?
    ensures ServiceEndConditions.UpToFace(Some(face), 0.0000001).hasOffset
    ensures !UpToSurfaceOf(DefaultEndCondition(), face, 0.0000001).hasOffset
    ensures forall offset: real :: Abs(offset) > Epsilon ==> ServiceEndConditions.UpToFace(Some(face), offset).hasOffset
  {
    assert Abs(0.0000001) == 0.0000001;
  }

  /** SetUpToSurface and the service factory agree on everything but hasOffset when they start from a default condition. */
  lemma UpToSurfaceMatchesFactory(face: Reference, offset: real)
    ensures UpToSurfaceOf(DefaultEndCondition(), face, offset).(hasOffset := false) ==
            ServiceEndConditions.UpToFace(Some(face), offset).(hasOffset := false)
    ensures (Abs(offset) > Epsilon || Abs(offset) <= ServiceEndConditions.OffsetTolerance) ==>
              UpToSurfaceOf(DefaultEndCondition(), face, offset) == ServiceEndConditions.UpToFace(Some(face), offset)
  {
  }
}
