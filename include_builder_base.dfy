/**
 * include/FeatureBuilderBase.h: the older builder base. It binds the feature
 * under construction to the older UnifiedModel and draws feature IDs from
 * IDGenerator; it has no reference validation.
 */
module IncludeBuilderBase {
  import opened Wrappers
  import opened Features
  import opened ModelIndex
  import opened LegacyModel
  import opened Ids

  class FeatureBuilder {
    var feature: Feature
    const model: UnifiedModel

    /** A fresh feature of the requested class with the given name and the next generated ID. */
    constructor (model: UnifiedModel, name: string, kind: FeatureKind, generator: IdCounter)
      modifies generator
      ensures this.model == model
      ensures generator.count == old(generator.count) + 1
      ensures feature == NewFeature(kind).(featureName := name, featureID := GeneratedId(generator.count))
    {
      this.model := model;
      var id := generator.Generate();
      feature := NewFeature(kind).(featureName := name, featureID := id);
    }

    method SetSuppressed(isSuppressed: bool)
      modifies this
      ensures feature == old(feature).(isSuppressed := isSuppressed)
    {
      feature := feature.(isSuppressed := isSuppressed);
    }

    method SetExternalID(externalID: string)
      modifies this
      ensures feature == old(feature).(externalID := externalID)
    {
      feature := feature.(externalID := externalID);
    }

    /** Appends the feature to the model and returns its ID, which GetFeature then finds. */
    method Build() returns (id: string)
      requires model.Valid()
      modifies model
      ensures model.Valid()
      ensures model.unit == old(model.unit) && model.modelName == old(model.modelName)
      ensures model.features == old(model.features) + [feature]
      ensures id == feature.featureID
      ensures LastWithId(model.features, id) == Some(|model.features| - 1)
    {
      model.AddFeature(Some(feature));
      id := feature.featureID;
      AddedIsFound(old(model.features), feature, id);
    }
  }
}
