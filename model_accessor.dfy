/**
 * service/accessors/ModelAccessor.h: the entry point of the read side. It
 * holds its own copy of a core-layer model and hands out base feature
 * accessors by position, by ID (first match in list order) or all at once.
 */
module ModelAccessors {
  import opened Wrappers
  import opened Features
  import opened ModelIndex
  import opened CoreModel
  import opened FeatureAccessors

  class ModelAccessor {
    var model: UnifiedModel

    /** An accessor over a default-constructed, empty model. */
    constructor ()
      ensures fresh(model) && model.Valid() && model.features == []
    {
      model := new UnifiedModel();
    }

    /** The model holds at least one feature. */
    function IsValid(): (b: bool)
      reads this, model
      ensures b <==> |model.features| > 0
    {
      |model.features| != 0
    }

    function GetFeatureCount(): (n: nat)
      reads this, model
      ensures n == |model.features|
    {
      |model.features|
    }

    /** A base accessor on the feature at the index, or null outside [0, count). */
    function GetFeature(index: int): (r: Option<FeatureAccessor>)
      reads this, model
      ensures r.Some? <==> 0 <= index < GetFeatureCount()
      ensures r.Some? ==> r.value == FeatureAccessor(AnyFeature, Some(model.features[index]))
    {
      if index < 0 || index >= |model.features| then None
      else Some(FeatureAccessor(AnyFeature, Some(model.features[index])))
    }

    /** A base accessor on the first feature with the ID, or null when none has it. */
    function GetFeatureByID(featureID: string): (r: Option<FeatureAccessor>)
      reads this, model
      ensures r.None? <==> forall j :: 0 <= j < |model.features| ==> model.features[j].featureID != featureID
      ensures r.Some? ==> exists k :: 0 <= k < |model.features| && r.value == FeatureAccessor(AnyFeature, Some(model.features[k])) &&
                                      model.features[k].featureID == featureID &&
                                      forall j :: 0 <= j < k ==> model.features[j].featureID != featureID
    {
      var k := FirstWithId(model.features, featureID);
      if k.None? then None else Some(FeatureAccessor(AnyFeature, Some(model.features[k.value])))
    }

    /** One base accessor per feature, in list order. */
    method GetAllFeatures() returns (result: seq<FeatureAccessor>)
      ensures |result| == |model.features|
      ensures forall i :: 0 <= i < |result| ==> result[i] == FeatureAccessor(AnyFeature, Some(model.features[i]))
    {
      result := [];
      var i := 0;
      while i < GetFeatureCount()
        invariant 0 <= i <= |model.features|
        invariant |result| == i
        invariant forall j :: 0 <= j < i ==> result[j] == FeatureAccessor(AnyFeature, Some(model.features[j]))
      {
        var feat := GetFeature(i);
        if feat.Some? {
          result := result + [feat.value];
        }
        i := i + 1;
      }
    }

    /** Replaces the held model with a fresh copy of the given one. */
    method SetModel(m: UnifiedModel)
      modifies this
      ensures fresh(model)
      ensures model.unit == m.unit && model.modelName == m.modelName && model.features == m.features
      ensures m.Valid() ==> model.Valid()
    {
      model := new UnifiedModel.CopyOf(m);
    }
  }

  /** The accessor is valid exactly when its first feature can be read. */
  lemma {:induction false} ValidMeansFirstFeature(a: ModelAccessor)
    ensures a.IsValid() <==> a.GetFeature(0).Some?
    ensures a.IsValid() ==> GetID(a.GetFeature(0).value) == a.model.features[0].featureID
  {
    if a.IsValid() {
      assert IsValid(a.GetFeature(0).value);
    }
  }

  /** With a repeated ID the two lookups part: the accessor reads the first, the model the last. */
  lemma RepeatedIdsSplitLookups(f: Feature, g: Feature)
    requires f.featureID == g.featureID
    ensures FirstWithId([f, g], f.featureID) == Some(0)
    ensures LastWithId([f, g], f.featureID) == Some(1)
  {
  }
}
