/**
 * service/accessors/RevolveAccessor.h: read-only access to a revolve. An
 * invalid accessor answers profile "", axis origin (0,0,0), axis direction
 * (0,0,1), a null axis reference, angle kind Single and angles 0.
 */
module RevolveAccessors {
  import opened Wrappers
  import opened Geometry
  import opened Features
  import opened FeatureAccessors
  import ReferenceAccessors

  predicate IsRevolveAccessor(a: FeatureAccessor)
  {
    a.view == RevolveView
  }

  function GetProfileSketchID(a: FeatureAccessor): (id: string)
    requires IsRevolveAccessor(a)
    ensures IsValid(a) ==> id == a.feature.value.profileSketchID
    ensures !IsValid(a) ==> id == ""
  {
    if IsValid(a) then a.feature.value.profileSketchID else ""
  }

  function GetAxisOrigin(a: FeatureAccessor): (p: Point3D)
    requires IsRevolveAccessor(a)
    ensures IsValid(a) ==> p == a.feature.value.axis.origin
    ensures !IsValid(a) ==> p == Zero
  {
    if IsValid(a) then a.feature.value.axis.origin else Vec3(0.0, 0.0, 0.0)
  }

  function GetAxisDirection(a: FeatureAccessor): (d: Vector3D)
    requires IsRevolveAccessor(a)
    ensures IsValid(a) ==> d == a.feature.value.axis.direction
    ensures !IsValid(a) ==> d == Vec3(0.0, 0.0, 1.0)
  {
    if IsValid(a) then a.feature.value.axis.direction else Vec3(0.0, 0.0, 1.0)
  }

  function GetAxisReference(a: FeatureAccessor): (r: ReferenceAccessors.ReferenceAccessor)
    requires IsRevolveAccessor(a)
    ensures IsValid(a) ==> r.ref == a.feature.value.axis.referenceEntity
    ensures !IsValid(a) ==> r.ref.None?
  {
    if IsValid(a) then ReferenceAccessors.ReferenceAccessor(a.feature.value.axis.referenceEntity)
    else ReferenceAccessors.ReferenceAccessor(None)
  }

  function GetAngleKind(a: FeatureAccessor): (k: AngleKind)
    requires IsRevolveAccessor(a)
    ensures IsValid(a) ==> k == a.feature.value.angleKind
    ensures !IsValid(a) ==> k == Single
  {
    if IsValid(a) then a.feature.value.angleKind else Single
  }

  function GetPrimaryAngle(a: FeatureAccessor): (x: real)
    requires IsRevolveAccessor(a)
    ensures IsValid(a) ==> x == a.feature.value.primaryAngle
    ensures !IsValid(a) ==> x == 0.0
  {
    if IsValid(a) then a.feature.value.primaryAngle else 0.0
  }

  function GetSecondaryAngle(a: FeatureAccessor): (x: real)
    requires IsRevolveAccessor(a)
    ensures IsValid(a) ==> x == a.feature.value.secondaryAngle
    ensures !IsValid(a) ==> x == 0.0
  {
    if IsValid(a) then a.feature.value.secondaryAngle else 0.0
  }

  /**
   * The axis getters give back the stored origin, direction and reference;
   * the axis kind and the sketch-line ID have no getter.
   */
  lemma {:induction false} AxisReadsBack(a: FeatureAccessor)
    requires IsRevolveAccessor(a) && IsValid(a)
    ensures var axis := a.feature.value.axis;
            RevolveAxis(axis.kind, axis.referenceLocalID, GetAxisReference(a).ref, GetAxisOrigin(a), GetAxisDirection(a)) == axis
  {
    var axis := a.feature.value.axis;
    assert axis == RevolveAxis(axis.kind, axis.referenceLocalID, axis.referenceEntity, axis.origin, axis.direction);
  }

  /**
   * The angle setters' results read back as set: Single with a zero second
   * angle, TwoWay with both, Symmetric with the total twice.
   */
  lemma {:induction false} AnglesReadBack(f: Feature, angle1: real, angle2: real)
    requires f.Revolve?
    ensures var a := FeatureAccessor(RevolveView, Some(f.(angleKind := Single, primaryAngle := angle1, secondaryAngle := 0.0)));
            GetAngleKind(a) == Single && GetPrimaryAngle(a) == angle1 && GetSecondaryAngle(a) == 0.0
    ensures var a := FeatureAccessor(RevolveView, Some(f.(angleKind := TwoWay, primaryAngle := angle1, secondaryAngle := angle2)));
            GetAngleKind(a) == TwoWay && GetPrimaryAngle(a) == angle1 && GetSecondaryAngle(a) == angle2
    ensures var a := FeatureAccessor(RevolveView, Some(f.(angleKind := Symmetric, primaryAngle := angle1, secondaryAngle := angle1)));
            GetAngleKind(a) == Symmetric && GetPrimaryAngle(a) == angle1 && GetSecondaryAngle(a) == angle1
  {
    assert IsValid(FeatureAccessor(RevolveView, Some(f.(angleKind := Single, primaryAngle := angle1, secondaryAngle := 0.0))));
    assert IsValid(FeatureAccessor(RevolveView, Some(f.(angleKind := TwoWay, primaryAngle := angle1, secondaryAngle := angle2))));
    assert IsValid(FeatureAccessor(RevolveView, Some(f.(angleKind := Symmetric, primaryAngle := angle1, secondaryAngle := angle1))));
  }

  /**
   * The two defaults disagree: a default-constructed revolve stores a zero
   * axis direction, while an invalid accessor reports (0,0,1).
   */
  lemma DefaultsDisagreeOnDirection()
    ensures GetAxisDirection(FeatureAccessor(RevolveView, Some(NewRevolve()))) == Zero
    ensures GetAxisDirection(FeatureAccessor(RevolveView, None)) == Vec3(0.0, 0.0, 1.0)
  {
  }
}
