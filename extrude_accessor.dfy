/**
 * service/accessors/ExtrudeAccessor.h: read-only access to an extrude. An
 * invalid accessor (null, or not an extrude) answers direction (0,0,1),
 * BOSS, a blind end condition with depth and offset 0, false flags and a
 * null reference; the second direction, the draft and the thin wall answer
 * the same defaults when they are absent.
 */
module ExtrudeAccessors {
  import opened Wrappers
  import opened Geometry
  import opened Features
  import opened ModelIndex
  import opened FeatureAccessors
  import ReferenceAccessors

  predicate IsExtrudeAccessor(a: FeatureAccessor)
  {
    a.view == ExtrudeView
  }

  /** The profile sketch's ID, or "" when invalid or without a profile. */
  function GetProfileSketchID(a: FeatureAccessor): (id: string)
    requires IsExtrudeAccessor(a)
    ensures IsValid(a) && a.feature.value.sketchProfile.Some? ==> id == a.feature.value.sketchProfile.value.featureID
    ensures !(IsValid(a) && a.feature.value.sketchProfile.Some?) ==> id == ""
  {
    if !IsValid(a) || a.feature.value.sketchProfile.None? then "" else a.feature.value.sketchProfile.value.featureID
  }

  function GetDirection(a: FeatureAccessor): (d: Vector3D)
    requires IsExtrudeAccessor(a)
    ensures IsValid(a) ==> d == a.feature.value.direction
    ensures !IsValid(a) ==> d == Vec3(0.0, 0.0, 1.0)
  {
    if IsValid(a) then a.feature.value.direction else Vec3(0.0, 0.0, 1.0)
  }

  function GetOperation(a: FeatureAccessor): (op: BooleanOp)
    requires IsExtrudeAccessor(a)
    ensures IsValid(a) ==> op == a.feature.value.operation
    ensures !IsValid(a) ==> op == Boss
  {
    if IsValid(a) then a.feature.value.operation else Boss
  }

  // Direction 1

  function GetEndType1(a: FeatureAccessor): (t: EndType)
    requires IsExtrudeAccessor(a)
    ensures IsValid(a) ==> t == a.feature.value.endCondition1.endType
    ensures !IsValid(a) ==> t == Blind
  {
    if IsValid(a) then a.feature.value.endCondition1.endType else Blind
  }

  function GetDepth1(a: FeatureAccessor): (d: real)
    requires IsExtrudeAccessor(a)
    ensures IsValid(a) ==> d == a.feature.value.endCondition1.depth
    ensures !IsValid(a) ==> d == 0.0
  {
    if IsValid(a) then a.feature.value.endCondition1.depth else 0.0
  }

  function GetOffset1(a: FeatureAccessor): (d: real)
    requires IsExtrudeAccessor(a)
    ensures IsValid(a) ==> d == a.feature.value.endCondition1.offset
    ensures !IsValid(a) ==> d == 0.0
  {
    if IsValid(a) then a.feature.value.endCondition1.offset else 0.0
  }

  function HasOffset1(a: FeatureAccessor): (b: bool)
    requires IsExtrudeAccessor(a)
    ensures b <==> IsValid(a) && a.feature.value.endCondition1.hasOffset
  {
    IsValid(a) && a.feature.value.endCondition1.hasOffset
  }

  function IsFlip1(a: FeatureAccessor): (b: bool)
    requires IsExtrudeAccessor(a)
    ensures b <==> IsValid(a) && a.feature.value.endCondition1.isFlip
  {
    IsValid(a) && a.feature.value.endCondition1.isFlip
  }

  function IsFlipMaterialSide1(a: FeatureAccessor): (b: bool)
    requires IsExtrudeAccessor(a)
    ensures b <==> IsValid(a) && a.feature.value.endCondition1.isFlipMaterialSide
  {
    IsValid(a) && a.feature.value.endCondition1.isFlipMaterialSide
  }

  /** The first condition's reference in an accessor; null when invalid or when the condition has none. */
  function GetReference1(a: FeatureAccessor): (r: ReferenceAccessors.ReferenceAccessor)
    requires IsExtrudeAccessor(a)
    ensures IsValid(a) ==> r.ref == a.feature.value.endCondition1.referenceEntity
    ensures !IsValid(a) ==> r.ref.None?
  {
    if IsValid(a) then ReferenceAccessors.ReferenceAccessor(a.feature.value.endCondition1.referenceEntity)
    else ReferenceAccessors.ReferenceAccessor(None)
  }

  // Direction 2, optional

  function HasDirection2(a: FeatureAccessor): (b: bool)
    requires IsExtrudeAccessor(a)
    ensures b <==> IsValid(a) && a.feature.value.endCondition2.Some?
  {
    IsValid(a) && a.feature.value.endCondition2.Some?
  }

  function GetEndType2(a: FeatureAccessor): (t: EndType)
    requires IsExtrudeAccessor(a)
    ensures HasDirection2(a) ==> t == a.feature.value.endCondition2.value.endType
    ensures !HasDirection2(a) ==> t == Blind
  {
    if HasDirection2(a) then a.feature.value.endCondition2.value.endType else Blind
  }

  function GetDepth2(a: FeatureAccessor): (d: real)
    requires IsExtrudeAccessor(a)
    ensures HasDirection2(a) ==> d == a.feature.value.endCondition2.value.depth
    ensures !HasDirection2(a) ==> d == 0.0
  {
    if HasDirection2(a) then a.feature.value.endCondition2.value.depth else 0.0
  }

  function GetOffset2(a: FeatureAccessor): (d: real)
    requires IsExtrudeAccessor(a)
    ensures HasDirection2(a) ==> d == a.feature.value.endCondition2.value.offset
    ensures !HasDirection2(a) ==> d == 0.0
  {
    if HasDirection2(a) then a.feature.value.endCondition2.value.offset else 0.0
  }

  function HasOffset2(a: FeatureAccessor): (b: bool)
    requires IsExtrudeAccessor(a)
    ensures b <==> HasDirection2(a) && a.feature.value.endCondition2.value.hasOffset
  {
    HasDirection2(a) && a.feature.value.endCondition2.value.hasOffset
  }

  function IsFlip2(a: FeatureAccessor): (b: bool)
    requires IsExtrudeAccessor(a)
    ensures b <==> HasDirection2(a) && a.feature.value.endCondition2.value.isFlip
  {
    HasDirection2(a) && a.feature.value.endCondition2.value.isFlip
  }

  function IsFlipMaterialSide2(a: FeatureAccessor): (b: bool)
    requires IsExtrudeAccessor(a)
    ensures b <==> HasDirection2(a) && a.feature.value.endCondition2.value.isFlipMaterialSide
  {
    HasDirection2(a) && a.feature.value.endCondition2.value.isFlipMaterialSide
  }

  function GetReference2(a: FeatureAccessor): (r: ReferenceAccessors.ReferenceAccessor)
    requires IsExtrudeAccessor(a)
    ensures HasDirection2(a) ==> r.ref == a.feature.value.endCondition2.value.referenceEntity
    ensures !HasDirection2(a) ==> r.ref.None?
  {
    if HasDirection2(a) then ReferenceAccessors.ReferenceAccessor(a.feature.value.endCondition2.value.referenceEntity)
    else ReferenceAccessors.ReferenceAccessor(None)
  }

  // Draft and thin wall, optional

  function HasDraft(a: FeatureAccessor): (b: bool)
    requires IsExtrudeAccessor(a)
    ensures b <==> IsValid(a) && a.feature.value.draft.Some?
  {
    IsValid(a) && a.feature.value.draft.Some?
  }

  function GetDraftAngle(a: FeatureAccessor): (angle: real)
    requires IsExtrudeAccessor(a)
    ensures HasDraft(a) ==> angle == a.feature.value.draft.value.angle
    ensures !HasDraft(a) ==> angle == 0.0
  {
    if HasDraft(a) then a.feature.value.draft.value.angle else 0.0
  }

  function IsDraftOutward(a: FeatureAccessor): (b: bool)
    requires IsExtrudeAccessor(a)
    ensures b <==> HasDraft(a) && a.feature.value.draft.value.outward
  {
    HasDraft(a) && a.feature.value.draft.value.outward
  }

  function HasThinWall(a: FeatureAccessor): (b: bool)
    requires IsExtrudeAccessor(a)
    ensures b <==> IsValid(a) && a.feature.value.thinWall.Some?
  {
    IsValid(a) && a.feature.value.thinWall.Some?
  }

  function GetThinWallThickness(a: FeatureAccessor): (t: real)
    requires IsExtrudeAccessor(a)
    ensures HasThinWall(a) ==> t == a.feature.value.thinWall.value.thickness
    ensures !HasThinWall(a) ==> t == 0.0
  {
    if HasThinWall(a) then a.feature.value.thinWall.value.thickness else 0.0
  }

  function IsThinWallOneSided(a: FeatureAccessor): (b: bool)
    requires IsExtrudeAccessor(a)
    ensures b <==> HasThinWall(a) && a.feature.value.thinWall.value.isOneSided
  {
    HasThinWall(a) && a.feature.value.thinWall.value.isOneSided
  }

  function IsThinWallCovered(a: FeatureAccessor): (b: bool)
    requires IsExtrudeAccessor(a)
    ensures b <==> HasThinWall(a) && a.feature.value.thinWall.value.isCovered
  {
    HasThinWall(a) && a.feature.value.thinWall.value.isCovered
  }

  /** The first end condition as the direction-1 getters report it. */
  function ReadEnd1(a: FeatureAccessor): EndCondition
    requires IsExtrudeAccessor(a)
  {
    EndCondition(GetEndType1(a), GetDepth1(a), GetOffset1(a), HasOffset1(a), GetReference1(a).ref,
                 IsFlip1(a), IsFlipMaterialSide1(a))
  }

  /** The second end condition as the direction-2 getters report it. */
  function ReadEnd2(a: FeatureAccessor): EndCondition
    requires IsExtrudeAccessor(a)
  {
    EndCondition(GetEndType2(a), GetDepth2(a), GetOffset2(a), HasOffset2(a), GetReference2(a).ref,
                 IsFlip2(a), IsFlipMaterialSide2(a))
  }

  /**
   * The end-condition getters lose nothing: together they give back the
   * stored condition, and the default condition when there is none to read.
   */
  lemma {:induction false} EndConditionsReadBack(a: FeatureAccessor)
    requires IsExtrudeAccessor(a)
    ensures IsValid(a) ==> ReadEnd1(a) == a.feature.value.endCondition1
    ensures !IsValid(a) ==> ReadEnd1(a) == DefaultEndCondition()
    ensures HasDirection2(a) ==> ReadEnd2(a) == a.feature.value.endCondition2.value
    ensures !HasDirection2(a) ==> ReadEnd2(a) == DefaultEndCondition()
  {
    if IsValid(a) {
      var c := a.feature.value.endCondition1;
      assert ReadEnd1(a) == EndCondition(c.endType, c.depth, c.offset, c.hasOffset, c.referenceEntity,
                                         c.isFlip, c.isFlipMaterialSide);
    }
    if HasDirection2(a) {
      var c := a.feature.value.endCondition2.value;
      assert ReadEnd2(a) == EndCondition(c.endType, c.depth, c.offset, c.hasOffset, c.referenceEntity,
                                         c.isFlip, c.isFlipMaterialSide);
    }
  }

  /**
   * The draft and thin-wall getters give back a present option exactly. An
   * absent draft reads as the default draft; an absent thin wall reads as
   * one-sided false, unlike a default-constructed thin wall.
   */
  lemma {:induction false} OptionsReadBack(a: FeatureAccessor)
    requires IsExtrudeAccessor(a)
    ensures HasDraft(a) ==> DraftOption(GetDraftAngle(a), IsDraftOutward(a)) == a.feature.value.draft.value
    ensures !HasDraft(a) ==> DraftOption(GetDraftAngle(a), IsDraftOutward(a)) == DefaultDraft
    ensures HasThinWall(a) ==>
              ThinWallOption(GetThinWallThickness(a), IsThinWallOneSided(a), IsThinWallCovered(a)) == a.feature.value.thinWall.value
    ensures !HasThinWall(a) ==>
              ThinWallOption(GetThinWallThickness(a), IsThinWallOneSided(a), IsThinWallCovered(a)) != DefaultThinWall
  {
    if HasDraft(a) {
      var d := a.feature.value.draft.value;
      assert d == DraftOption(d.angle, d.outward);
    }
    if HasThinWall(a) {
      var t := a.feature.value.thinWall.value;
      assert t == ThinWallOption(t.thickness, t.isOneSided, t.isCovered);
    }
  }

  /**
   * A profile set from a sketch the model finds by ID reads back as that ID;
   * one set by external ID reads back as the ID of a sketch carrying that
   * external ID.
   */
  lemma {:induction false} ProfileIdReadsBack(f: Feature, fs: seq<Feature>, id: string, x: string)
    requires f.Extrude?
    ensures SketchWithId(fs, id).Some? ==>
              GetProfileSketchID(FeatureAccessor(ExtrudeView, Some(f.(sketchProfile := SketchWithId(fs, id))))) == id
    ensures x != "" && SketchWithExternalId(fs, x).Some? ==>
              var p := GetProfileSketchID(FeatureAccessor(ExtrudeView, Some(f.(sketchProfile := SketchWithExternalId(fs, x)))));
              exists k :: 0 <= k < |fs| && fs[k].Sketch? && fs[k].featureID == p && fs[k].externalID == x
  {
    SketchLookupsFindSketches(fs, id, x);
    if x != "" && SketchWithExternalId(fs, x).Some? {
      var k := LastWithExternalId(fs, x).value;
      assert fs[k] == SketchWithExternalId(fs, x).value;
    }
  }
}
