/**
 * The whole-model XML document of src/TinyXMLSerializer.cpp: a
 * UnifiedModel root with UnitSystem, ModelName and FeatureCount attributes
 * and one Feature child per feature; and loading such a document back into
 * a CoreModel.UnifiedModel.
 */
module XmlModelCodec {
  import opened Wrappers
  import opened Text
  import opened Geometry
  import opened Features
  import opened Xml
  import opened XmlNames
  import opened XmlTriples
  import opened XmlFeatureCodec
  import opened ModelIndex
  import opened CoreModel

  const MissingRootError: string := "Missing UnifiedModel root element"

  /** The root element before its features: unit name, model name and feature count. */
  function ModelHeader(unit: UnitType, name: string, count: int): Element
  {
    SetIntAttribute(SetAttribute(SetAttribute(NewElement("UnifiedModel"), "UnitSystem", UnitTypeToString(unit)),
                                 "ModelName", name), "FeatureCount", count)
  }

  /** One Feature element per feature, in order. */
  function SaveFeatureList(fx: Formats, fs: seq<Feature>): (r: seq<Element>)
    ensures |r| == |fs|
  {
    if fs == [] then [] else SaveFeatureList(fx, fs[..|fs| - 1]) + [SaveFeature(fx, fs[|fs| - 1])]
  }

  /** The document Save writes for a model (the XML declaration is not modelled). */
  function SaveModelDocument(fx: Formats, unit: UnitType, name: string, fs: seq<Feature>): Document
  {
    Document([ModelHeader(unit, name, |fs|).(children := SaveFeatureList(fx, fs))])
  }

  /** The features Load adds for a walk over Feature elements: null loads are skipped. */
  function LoadFeatureList(fx: Formats, elems: seq<Element>): (r: seq<Feature>)
    ensures |r| <= |elems|
  {
    if elems == [] then []
    else
      var f := LoadFeature(fx, elems[|elems| - 1]);
      LoadFeatureList(fx, elems[..|elems| - 1]) + (if f.Some? then [f.value] else [])
  }

  /** FeatureSurvivor of every feature, in order. */
  function FeatureSurvivors(fs: seq<Feature>): (r: seq<Feature>)
    ensures |r| == |fs|
    ensures forall i :: 0 <= i < |r| ==> r[i] == FeatureSurvivor(fs[i])
  {
    if fs == [] then [] else FeatureSurvivors(fs[..|fs| - 1]) + [FeatureSurvivor(fs[|fs| - 1])]
  }

  /** The header attributes read back as written. */
  lemma ModelHeaderAttributes(unit: UnitType, name: string, count: int)
    ensures Attribute(ModelHeader(unit, name, count), "UnitSystem") == Some(UnitTypeToString(unit))
    ensures Attribute(ModelHeader(unit, name, count), "ModelName") == Some(name)
    ensures Attribute(ModelHeader(unit, name, count), "FeatureCount") == Some(IntToString(count))
    ensures ModelHeader(unit, name, count).tag == "UnifiedModel"
  {
    var e1 := SetAttribute(NewElement("UnifiedModel"), "UnitSystem", UnitTypeToString(unit));
    var e2 := SetAttribute(e1, "ModelName", name);
    SetAttributeFrame(e1, "ModelName", name, "UnitSystem");
    SetAttributeFrame(e2, "FeatureCount", IntToString(count), "UnitSystem");
    SetAttributeFrame(e2, "FeatureCount", IntToString(count), "ModelName");
  }

  /** Every saved feature is a Feature element, so the walk over Feature children visits them all. */
  lemma {:induction false} NamedSavedFeatures(fx: Formats, fs: seq<Feature>)
    ensures Named(SaveFeatureList(fx, fs), "Feature") == SaveFeatureList(fx, fs)
  {
    if fs != [] {
      var front := SaveFeatureList(fx, fs[..|fs| - 1]);
      var e := SaveFeature(fx, fs[|fs| - 1]);
      NamedSavedFeatures(fx, fs[..|fs| - 1]);
      SaveFeatureTag(fx, fs[|fs| - 1]);
      NamedAppend(front, [e], "Feature");
      assert Named([e], "Feature") == [e];
    }
  }

  /** Every saved feature loads back as its survivor. */
  lemma {:induction false} FeatureListRoundTrip(fx: Formats, fs: seq<Feature>)
    requires FaithfulFormats(fx)
    ensures LoadFeatureList(fx, SaveFeatureList(fx, fs)) == FeatureSurvivors(fs)
  {
    if fs != [] {
      var saved := SaveFeatureList(fx, fs);
      assert saved[..|saved| - 1] == SaveFeatureList(fx, fs[..|fs| - 1]);
      FeatureListRoundTrip(fx, fs[..|fs| - 1]);
      FeatureRoundTrip(fx, fs[|fs| - 1]);
    }
  }

  /**
   * Save then Load: the root is found, the unit and the name read back, the
   * count parses to the number of features, and the features that come
   * back are the survivors of the saved ones.
   */
  lemma {:induction false} ModelRoundTrip(fx: Formats, unit: UnitType, name: string, fs: seq<Feature>)
    requires FaithfulFormats(fx)
    ensures FirstNamed(SaveModelDocument(fx, unit, name, fs).roots, "UnifiedModel").Some?
    ensures var root := FirstNamed(SaveModelDocument(fx, unit, name, fs).roots, "UnifiedModel").value;
      UnitTypeFromString(Attribute(root, "UnitSystem")) == Some(unit) &&
      Attribute(root, "ModelName") == Some(name) &&
      ParseInt(root.attrs["FeatureCount"]) == Some(|fs|) &&
      LoadFeatureList(fx, Named(root.children, "Feature")) == FeatureSurvivors(fs)
  {
    var h := ModelHeader(unit, name, |fs|);
    ModelHeaderAttributes(unit, name, |fs|);
    var root := h.(children := SaveFeatureList(fx, fs));
    assert Attribute(root, "UnitSystem") == Attribute(h, "UnitSystem");
    assert Attribute(root, "ModelName") == Attribute(h, "ModelName");
    assert Attribute(root, "FeatureCount") == Attribute(h, "FeatureCount");
    FirstNamedAt([root], "UnifiedModel", 0);
    EnumNamesRoundTrip(unit, Boss, Blind);
    ParseIntToString(|fs|);
    NamedSavedFeatures(fx, fs);
    FeatureListRoundTrip(fx, fs);
  }

  /** Survivors keep every ID and name, so ID and name lookups answer as before the save. */
  lemma SurvivorsKeepLookups(fs: seq<Feature>, id: string, name: string)
    ensures LastWithId(FeatureSurvivors(fs), id) == LastWithId(fs, id)
    ensures FirstWithId(FeatureSurvivors(fs), id) == FirstWithId(fs, id)
    ensures FirstWithName(FeatureSurvivors(fs), name) == FirstWithName(fs, name)
  {
    var s := FeatureSurvivors(fs);
    forall j | 0 <= j < |fs|
      ensures s[j].featureID == fs[j].featureID && s[j].featureName == fs[j].featureName
    {
      assert s[j] == FeatureSurvivor(fs[j]);
    }
    SameKeysSameLookups(s, fs, id, name);
  }

  /** External IDs are not written, so a reloaded model's external index is empty. */
  lemma {:induction false} SurvivorsHaveNoExternalIndex(fs: seq<Feature>)
    ensures ExternalIndexOf(FeatureSurvivors(fs)) == map[]
  {
    if fs != [] {
      SurvivorsHaveNoExternalIndex(fs[..|fs| - 1]);
      assert FeatureSurvivors(fs)[..|fs| - 1] == FeatureSurvivors(fs[..|fs| - 1]);
    }
  }

  lemma SaveFeatureListStep(fx: Formats, fs: seq<Feature>, i: nat)
    requires i < |fs|
    ensures SaveFeatureList(fx, fs[..i + 1]) == SaveFeatureList(fx, fs[..i]) + [SaveFeature(fx, fs[i])]
  {
    assert fs[..i + 1][..i] == fs[..i];
  }

  /** Save: the root with its attributes, then one Feature child per feature in order. */
  method SaveModel(fx: Formats, model: UnifiedModel) returns (doc: Document)
    ensures doc == SaveModelDocument(fx, model.unit, model.modelName, model.features)
  {
    var fs := model.features;
    var root := ModelHeader(model.unit, model.modelName, |fs|);
    var i := 0;
    while i < |fs|
      invariant 0 <= i <= |fs|
      invariant root == ModelHeader(model.unit, model.modelName, |fs|).(children := SaveFeatureList(fx, fs[..i]))
    {
      var e := SaveFeatureElement(fx, fs[i]);
      SaveFeatureListStep(fx, fs, i);
      root := InsertEndChild(root, e);
      i := i + 1;
    }
    assert fs[..i] == fs;
    doc := Document([root]);
  }

  /** One step of Load's walk over the root's children. */
  lemma LoadFeatureListStep(fx: Formats, cs: seq<Element>, i: nat, f: Option<Feature>)
    requires i < |cs|
    requires f == if cs[i].tag == "Feature" then LoadFeature(fx, cs[i]) else None
    ensures LoadFeatureList(fx, Named(cs[..i + 1], "Feature")) == LoadFeatureList(fx, Named(cs[..i], "Feature")) + Loaded(f)
  {
    assert cs[..i + 1] == cs[..i] + [cs[i]];
    NamedAppend(cs[..i], [cs[i]], "Feature");
    var a := Named(cs[..i], "Feature");
    if cs[i].tag == "Feature" {
      assert Named([cs[i]], "Feature") == [cs[i]];
      assert (a + [cs[i]])[..|a|] == a;
    } else {
      assert Named([cs[i]], "Feature") == [];
      assert a + [] == a;
    }
  }

  /** Load's walk over the root's children: every Feature child that loads is added, in order. */
  method AddFeatureElements(fx: Formats, model: UnifiedModel, cs: seq<Element>)
    requires model.Valid()
    modifies model
    ensures model.Valid()
    ensures model.unit == old(model.unit) && model.modelName == old(model.modelName)
    ensures model.features == old(model.features) + LoadFeatureList(fx, Named(cs, "Feature"))
  {
    var i := 0;
    ghost var loaded: seq<Feature> := [];
    while i < |cs|
      invariant 0 <= i <= |cs|
      invariant model.Valid()
      invariant model.unit == old(model.unit) && model.modelName == old(model.modelName)
      invariant loaded == LoadFeatureList(fx, Named(cs[..i], "Feature"))
      invariant model.features == old(model.features) + loaded
    {
      ghost var pre := model.features;
      ghost var feature := AddFeatureElement(fx, model, cs[i]);
      LoadFeatureListStep(fx, cs, i, feature);
      AppendLoaded(old(model.features), loaded, pre, model.features, feature);
      loaded := loaded + Loaded(feature);
      i := i + 1;
    }
    assert cs[..i] == cs;
  }

  /** One child of the walk: a Feature element is loaded and the result added, any other is skipped. */
  method AddFeatureElement(fx: Formats, model: UnifiedModel, e: Element) returns (ghost feature: Option<Feature>)
    requires model.Valid()
    modifies model
    ensures model.Valid()
    ensures model.unit == old(model.unit) && model.modelName == old(model.modelName)
    ensures feature == if e.tag == "Feature" then LoadFeature(fx, e) else None
    ensures feature.None? ==> model.features == old(model.features)
    ensures feature.Some? ==> model.features == old(model.features) + [feature.value]
  {
    var f: Option<Feature> := None;
    if e.tag == "Feature" {
      f := LoadFeatureElement(fx, e);
    }
    model.AddFeature(f);
    feature := f;
  }

  /**
   * Load: a document that failed to parse, or has no UnifiedModel root,
   * reports its error and leaves the model as it was. Otherwise the unit is
   * taken only when its text names a unit, the name only when present, and
   * the features are replaced by every non-null load of a Feature child.
   */
  method LoadModel(fx: Formats, model: UnifiedModel, file: Result<Document>) returns (ok: bool, errorMessage: Option<string>)
    requires model.Valid()
    modifies model
    ensures model.Valid()
    ensures ok <==> file.Ok? && FirstNamed(file.value.roots, "UnifiedModel").Some?
    ensures ok <==> errorMessage.None?
    ensures file.Err? ==> errorMessage == Some(file.message)
    ensures file.Ok? && !ok ==> errorMessage == Some(MissingRootError)
    ensures !ok ==> model.unit == old(model.unit) && model.modelName == old(model.modelName) &&
                    model.features == old(model.features)
    ensures ok ==>
      var root := FirstNamed(file.value.roots, "UnifiedModel").value;
      model.unit == UnitTypeFromString(Attribute(root, "UnitSystem")).GetOr(old(model.unit)) &&
      model.modelName == Attribute(root, "ModelName").GetOr(old(model.modelName)) &&
      model.features == LoadFeatureList(fx, Named(root.children, "Feature"))
  {
    if file.Err? {
      return false, Some(file.message);
    }
    var found := FirstNamed(file.value.roots, "UnifiedModel");
    if found.None? {
      return false, Some(MissingRootError);
    }
    var root := found.value;
    var unitOpt := UnitTypeFromString(Attribute(root, "UnitSystem"));
    if unitOpt.Some? {
      model.unit := unitOpt.value;
    }
    var name := Attribute(root, "ModelName");
    if name.Some? {
      model.modelName := name.value;
    }
    model.Clear();
    AddFeatureElements(fx, model, root.children);
    return true, None;
  }
}
