/**
 * service/accessors/FeatureAccessorBase.h: read-only access to a feature
 * that may be null. The derived accessors override IsValid() to require
 * their own class, and the base getters call it virtually, so the same
 * feature reads as "" / false through an accessor of the wrong class. The
 * accessor classes are told apart here by a View tag.
 */
module FeatureAccessors {
  import opened Wrappers
  import opened Features

  /** The accessor class: the base class or one of the three derived ones. */
  datatype View = AnyFeature | SketchView | ExtrudeView | RevolveView

  /** The feature class a derived accessor's dynamic_cast requires. */
  function ViewKind(v: View): (k: Option<FeatureKind>)
    ensures k.None? <==> v == AnyFeature
  {
    match v
    case AnyFeature => None
    case SketchView => Some(SketchKind)
    case ExtrudeView => Some(ExtrudeKind)
    case RevolveView => Some(RevolveKind)
  }

  /** The derived accessor class that reads features of the given class. */
  function KindView(k: FeatureKind): (v: View)
    ensures ViewKind(v) == Some(k)
  {
    match k
    case SketchKind => SketchView
    case ExtrudeKind => ExtrudeView
    case RevolveKind => RevolveView
  }

  datatype FeatureAccessor = FeatureAccessor(view: View, feature: Option<Feature>)

  /** IsValid() as the accessor class overrides it: non-null and, for a derived class, of its class. */
  predicate IsValid(a: FeatureAccessor)
  {
    a.feature.Some? && (a.view == AnyFeature || ViewKind(a.view) == Some(a.feature.value.Kind()))
  }

  /**
   * The derived accessors' constructors that take another accessor (by
   * reference, or by pointer that may be null) and wrap its raw feature.
   */
  function ViewOf(v: View, other: Option<FeatureAccessor>): (r: FeatureAccessor)
    ensures r.view == v
    ensures IsValid(r) <==> other.Some? && other.value.feature.Some? &&
                            (v == AnyFeature || ViewKind(v) == Some(other.value.feature.value.Kind()))
  {
    FeatureAccessor(v, if other.Some? then other.value.feature else None)
  }

  /** As<T>(): an accessor of class T on the same feature, present exactly when it is valid. */
  function As(a: FeatureAccessor, v: View): (r: Option<FeatureAccessor>)
    ensures r.Some? <==> a.feature.Some? && (v == AnyFeature || ViewKind(v) == Some(a.feature.value.Kind()))
    ensures r.Some? ==> r.value.view == v && r.value.feature == a.feature && IsValid(r.value)
  {
    var b := FeatureAccessor(v, a.feature);
    if IsValid(b) then Some(b) else None
  }

  function GetID(a: FeatureAccessor): (id: string)
    ensures IsValid(a) ==> id == a.feature.value.featureID
    ensures !IsValid(a) ==> id == ""
  {
    if IsValid(a) then a.feature.value.featureID else ""
  }

  function GetName(a: FeatureAccessor): (name: string)
    ensures IsValid(a) ==> name == a.feature.value.featureName
    ensures !IsValid(a) ==> name == ""
  {
    if IsValid(a) then a.feature.value.featureName else ""
  }

  function GetExternalID(a: FeatureAccessor): (x: string)
    ensures IsValid(a) ==> x == a.feature.value.externalID
    ensures !IsValid(a) ==> x == ""
  {
    if IsValid(a) then a.feature.value.externalID else ""
  }

  function IsSuppressed(a: FeatureAccessor): (b: bool)
    ensures b <==> IsValid(a) && a.feature.value.isSuppressed
  {
    IsValid(a) && a.feature.value.isSuppressed
  }

  /** IsType<T>(): valid and of class T. */
  function IsType(a: FeatureAccessor, k: FeatureKind): (b: bool)
    ensures b <==> IsValid(a) && a.feature.value.Kind() == k
  {
    IsValid(a) && a.feature.value.Kind() == k
  }

  /** On a base accessor, As<T>() succeeds exactly when IsType<T>() holds, and then reads the same fields. */
  lemma {:induction false} AsAgreesWithIsType(f: Option<Feature>, k: FeatureKind)
    ensures var a := FeatureAccessor(AnyFeature, f);
            (As(a, KindView(k)).Some? <==> IsType(a, k)) &&
            (As(a, KindView(k)).Some? ==> GetID(As(a, KindView(k)).value) == GetID(a) &&
                                          GetName(As(a, KindView(k)).value) == GetName(a))
  {
    var a := FeatureAccessor(AnyFeature, f);
    if f.Some? && f.value.Kind() == k {
      assert IsValid(As(a, KindView(k)).value) && IsValid(a);
    }
  }

  /**
   * Through a derived accessor of another class a feature hides its ID, name
   * and flags, whatever they are; through a base accessor it shows them.
   */
  lemma {:induction false} WrongViewHidesFields(v: View, f: Feature)
    requires v != AnyFeature && ViewKind(v) != Some(f.Kind())
    ensures var a := FeatureAccessor(v, Some(f));
            GetID(a) == "" && GetName(a) == "" && GetExternalID(a) == "" && !IsSuppressed(a) &&
            !IsType(a, f.Kind())
    ensures var b := FeatureAccessor(AnyFeature, Some(f));
            GetID(b) == f.featureID && GetName(b) == f.featureName && GetExternalID(b) == f.externalID &&
            IsSuppressed(b) == f.isSuppressed && IsType(b, f.Kind())
  {
    assert !IsValid(FeatureAccessor(v, Some(f)));
    assert IsValid(FeatureAccessor(AnyFeature, Some(f)));
  }
}
