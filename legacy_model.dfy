/**
 * The older feature container of the public headers. It behaves like
 * CoreModel.UnifiedModel but has only the default constructor and no
 * name or first-match lookups.
 */
module LegacyModel {
  import opened Wrappers
  import opened Geometry
  import opened Features
  import opened ModelIndex

  class UnifiedModel {
    var unit: UnitType
    var modelName: string
    var features: seq<Feature>
    var index: map<string, Feature>
    var externalIndex: map<string, Feature>

    /** The indexes agree with the feature list. */
    ghost predicate Valid()
      reads this
    {
      index == IndexOf(features) && externalIndex == ExternalIndexOf(features)
    }

    /** The default model: metres, no name, no features. */
    constructor ()
      ensures Valid()
      ensures unit == Meter && modelName == "" && features == []
    {
      unit := Meter;
      modelName := "";
      features := [];
      index := map[];
      externalIndex := map[];
    }

    /** Appends a feature and registers it in the indexes; a null feature is ignored. */
    method AddFeature(feature: Option<Feature>)
      requires Valid()
      modifies this
      ensures Valid()
      ensures unit == old(unit) && modelName == old(modelName)
      ensures feature.None? ==> features == old(features)
      ensures feature.Some? ==> features == old(features) + [feature.value]
    {
      if feature.None? {
        return;
      }
      var f := feature.value;
      assert (features + [f])[..|features|] == features;
      features := features + [f];
      index := index[f.featureID := f];
      if f.externalID != "" {
        externalIndex := externalIndex[f.externalID := f];
      }
    }

    /** The last feature added with the given ID, or null. */
    method GetFeature(featureID: string) returns (r: Option<Feature>)
      requires Valid()
      ensures r.Some? <==> LastWithId(features, featureID).Some?
      ensures r.Some? ==> r.value == features[LastWithId(features, featureID).value]
    {
      IndexOfIsLast(features, featureID);
      if featureID in index {
        r := Some(index[featureID]);
      } else {
        r := None;
      }
    }

    /** The last feature added with the given non-empty external ID, or null. */
    method GetFeatureByExternalID(externalID: string) returns (r: Option<Feature>)
      requires Valid()
      ensures r.Some? <==> externalID != "" && LastWithExternalId(features, externalID).Some?
      ensures r.Some? ==> r.value == features[LastWithExternalId(features, externalID).value]
    {
      ExternalIndexOfIsLast(features, externalID);
      if externalID in externalIndex {
        r := Some(externalIndex[externalID]);
      } else {
        r := None;
      }
    }

    /** GetFeature followed by a checked downcast to the requested kind. */
    method GetFeatureAs(featureID: string, kind: FeatureKind) returns (r: Option<Feature>)
      requires Valid()
      ensures r.Some? <==> LastWithId(features, featureID).Some? &&
                           features[LastWithId(features, featureID).value].Kind() == kind
      ensures r.Some? ==> r.value == features[LastWithId(features, featureID).value]
    {
      var base := GetFeature(featureID);
      if base.None? {
        return None;
      }
      r := if base.value.Kind() == kind then base else None;
    }

    /** GetFeatureByExternalID followed by a checked downcast to the requested kind. */
    method GetFeatureByExternalIDAs(externalID: string, kind: FeatureKind) returns (r: Option<Feature>)
      requires Valid()
      ensures r.Some? <==> externalID != "" && LastWithExternalId(features, externalID).Some? &&
                           features[LastWithExternalId(features, externalID).value].Kind() == kind
      ensures r.Some? ==> r.value == features[LastWithExternalId(features, externalID).value]
    {
      var base := GetFeatureByExternalID(externalID);
      if base.None? {
        return None;
      }
      r := if base.value.Kind() == kind then base else None;
    }

    /** Drops every feature and both indexes; unit and name stay. */
    method Clear()
      modifies this
      ensures Valid()
      ensures features == [] && unit == old(unit) && modelName == old(modelName)
    {
      features := [];
      index := map[];
      externalIndex := map[];
    }

    /** One error per feature with an empty ID; valid exactly when there is none; no warnings. */
    method Validate() returns (report: ValidationReport)
      ensures report.isValid <==> forall i :: 0 <= i < |features| ==> features[i].featureID != ""
      ensures report.errors == EmptyIdErrors(EmptyIdCount(features))
      ensures report.warnings == []
    {
      report := ValidationReport(true, [], []);
      var i := 0;
      while i < |features|
        invariant 0 <= i <= |features|
        invariant report.isValid <==> EmptyIdCount(features[..i]) == 0
        invariant report.errors == EmptyIdErrors(EmptyIdCount(features[..i]))
        invariant report.warnings == []
      {
        assert features[..i + 1][..i] == features[..i];
        if features[i].featureID == "" {
          report := report.(isValid := false, errors := report.errors + [EmptyIdError]);
        }
        i := i + 1;
      }
      assert features[..i] == features;
    }
  }
}
