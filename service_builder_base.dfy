/**
 * service/builders/FeatureBuilderBase.h: a builder owns one feature under
 * construction, bound to the core-layer model it will be added to, and
 * checks datum references against that model.
 */
module ServiceBuilderBase {
  import opened Wrappers
  import opened Geometry
  import opened Features
  import opened ModelIndex
  import opened CoreModel
  import opened Ids

  /**
   * The references ValidateReference inspects: a datum plane, axis or point
   * reference that is also of the matching class. The refType is tested
   * first, so a RefAxis whose refType says plane is not inspected.
   */
  predicate IsCheckedDatum(r: Reference)
  {
    (r.refType == FeatureDatumPlane && r.RefPlane?) ||
    (r.refType == FeatureDatumAxis && r.RefAxis?) ||
    (r.refType == FeatureDatumPoint && r.RefPoint?)
  }

  /** The standard IDs that need no feature in the model, by datum kind. */
  predicate IsStandardTarget(r: Reference)
  {
    match r
    case RefPlane(_, target, _, _, _, _) => IsStandardPlane(target)
    case RefAxis(_, target, _, _) => IsStandardAxis(target)
    case RefPoint(_, target, _) => IsStandardPoint(target)
    case _ => false
  }

  /** A reference ValidateReference lets through for a model with these features. */
  predicate ReferenceAccepted(ref: Option<Reference>, fs: seq<Feature>)
  {
    ref.None? || !IsCheckedDatum(ref.value) || IsStandardTarget(ref.value) ||
    LastWithId(fs, ref.value.targetFeatureID).Some?
  }

  /** The message ValidateReference throws for a rejected datum reference. */
  function RejectionMessage(r: Reference): (m: string)
    requires r.RefPlane? || r.RefAxis? || r.RefPoint?
    ensures r.RefPlane? ==> m == "Reference plane feature not found in model: " + r.targetFeatureID
    ensures r.RefAxis? ==> m == "Reference axis feature not found in model: " + r.targetFeatureID
    ensures r.RefPoint? ==> m == "Reference point feature not found in model: " + r.targetFeatureID
  {
    if r.RefPlane? then "Reference plane feature not found in model: " + r.targetFeatureID
    else if r.RefAxis? then "Reference axis feature not found in model: " + r.targetFeatureID
    else "Reference point feature not found in model: " + r.targetFeatureID
  }

  /** Null references, topology references, sketch references and bare feature references always pass. */
  lemma UncheckedReferencesPass(r: Reference, fs: seq<Feature>)
    requires r.IsSubTopo() || r.RefSketch? || r.RefFeature?
    ensures ReferenceAccepted(Some(r), fs) && ReferenceAccepted(None, fs)
  {
  }

  /** A datum reference to a standard ID passes whatever the model holds. */
  lemma StandardTargetsPass(r: Reference, fs: seq<Feature>)
    requires IsStandardTarget(r)
    ensures ReferenceAccepted(Some(r), fs)
  {
  }

  /** Adding features never makes an accepted reference fail. */
  lemma AcceptedStaysAccepted(ref: Option<Reference>, fs: seq<Feature>, more: seq<Feature>)
    requires ReferenceAccepted(ref, fs)
    ensures ReferenceAccepted(ref, fs + more)
  {
    if ref.Some? && IsCheckedDatum(ref.value) && !IsStandardTarget(ref.value) {
      var id := ref.value.targetFeatureID;
      var k := LastWithId(fs, id).value;
      assert (fs + more)[k] == fs[k];
    }
  }

  /**
   * The builder state: the feature under construction and the model it is
   * bound to. The derived builders hold one of these.
   */
  class FeatureBuilder {
    var feature: Feature
    const model: UnifiedModel

    /** A fresh feature of the requested class with the given name and the next UUID. */
    constructor (model: UnifiedModel, name: string, kind: FeatureKind, uuids: IdCounter)
      modifies uuids
      ensures this.model == model
      ensures uuids.count == old(uuids.count) + 1
      ensures feature == NewFeature(kind).(featureName := name, featureID := GeneratedId(uuids.count))
    {
      this.model := model;
      var id := uuids.Generate();
      feature := NewFeature(kind).(featureName := name, featureID := id);
    }

    method SetSuppressed(isSuppressed: bool)
      modifies this
      ensures feature == old(feature).(isSuppressed := isSuppressed)
    {
      feature := feature.(isSuppressed := isSuppressed);
    }

    method SetExternalID(externalID: string)
      modifies this
      ensures feature == old(feature).(externalID := externalID)
    {
      feature := feature.(externalID := externalID);
    }

    /** Adds the feature to the model and returns its ID, which GetFeature then finds. */
    method Build() returns (id: string)
      requires model.Valid()
      modifies model
      ensures model.Valid()
      ensures model.unit == old(model.unit) && model.modelName == old(model.modelName)
      ensures model.features == old(model.features) + [feature]
      ensures id == feature.featureID
      ensures LastWithId(model.features, id) == Some(|model.features| - 1)
    {
      model.AddFeature(Some(feature));
      id := feature.featureID;
      AddedIsFound(old(model.features), feature, id);
    }

    /**
     * Throws when a datum plane, axis or point reference names neither a
     * standard ID nor a feature of the model; everything else passes.
     */
    method ValidateReference(ref: Option<Reference>) returns (status: Status)
      requires model.Valid()
      ensures status.Done? <==> ReferenceAccepted(ref, model.features)
      ensures status.Threw? ==> status == Threw(RuntimeError, RejectionMessage(ref.value))
    {
      if ref.None? {
        return Done;
      }
      var r := ref.value;
      status := Done;
      if r.refType == FeatureDatumPlane {
        if r.RefPlane? && !IsStandardPlane(r.targetFeatureID) {
          var found := model.GetFeature(r.targetFeatureID);
          if found.None? {
            status := Threw(RuntimeError, "Reference plane feature not found in model: " + r.targetFeatureID);
          }
        }
      } else if r.refType == FeatureDatumAxis {
        if r.RefAxis? && !IsStandardAxis(r.targetFeatureID) {
          var found := model.GetFeature(r.targetFeatureID);
          if found.None? {
            status := Threw(RuntimeError, "Reference axis feature not found in model: " + r.targetFeatureID);
          }
        }
      } else if r.refType == FeatureDatumPoint {
        if r.RefPoint? && !IsStandardPoint(r.targetFeatureID) {
          var found := model.GetFeature(r.targetFeatureID);
          if found.None? {
            status := Threw(RuntimeError, "Reference point feature not found in model: " + r.targetFeatureID);
          }
        }
      }
    }
  }
}
