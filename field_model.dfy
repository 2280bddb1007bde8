/**
 * The cereal form of a whole UnifiedModel: a flat archive holding the unit
 * system, the model name, the feature count and then one "Feature" entry per
 * feature. Saving walks the feature list; loading reads the header into the
 * model as it goes, clears it and adds every feature it reads back.
 */
module FieldModelCodec {
  import opened Wrappers
  import opened Geometry
  import opened Features
  import opened EnumCodes
  import opened FieldLists
  import opened FieldFeatures
  import opened ModelIndex
  import opened CoreModel

  /** What a save throws when a feature holds a reference of an unregistered class. */
  const UnregisteredTypeError: string := "Trying to save an unregistered polymorphic type"

  /** What a load throws when an entry is missing or does not have the expected form. */
  const ArchiveError: string := "Archive entry missing or malformed"

  /** The three header entries. */
  function ModelHeaderFields(unit: UnitType, name: string, count: nat): (h: seq<Field>)
    ensures Names(h) == ["UnitSystem", "ModelName", "FeatureCount"]
  {
    [Field("UnitSystem", Int(UnitCode(unit))), Field("ModelName", Str(name)), Field("FeatureCount", Int(count))]
  }

  predicate AllSaveable(fs: seq<Feature>)
  {
    forall i :: 0 <= i < |fs| ==> Saveable(fs[i])
  }

  /**
   * The archive a save writes: the header, with the number of features, then
   * one "Feature" entry per feature holding that feature's pointer value.
   */
  ghost predicate IsArchiveOf(a: seq<Field>, unit: UnitType, name: string, fs: seq<Feature>)
  {
    |a| == 3 + |fs| && a[..3] == ModelHeaderFields(unit, name, |fs|) &&
    forall i :: 0 <= i < |fs| ==> Saveable(fs[i]) && a[3 + i] == Field("Feature", FeatureValue(fs[i]))
  }

  /** Writes the header, then each feature; the first unsaveable feature throws. */
  method SaveModel(model: UnifiedModel) returns (r: Result<seq<Field>>)
    ensures r.Ok? <==> AllSaveable(model.features)
    ensures r.Ok? ==> IsArchiveOf(r.value, model.unit, model.modelName, model.features)
    ensures r.Err? ==> r.message == UnregisteredTypeError
  {
    var fs := model.features;
    var entries := ModelHeaderFields(model.unit, model.modelName, |fs|);
    var i := 0;
    while i < |fs|
      invariant 0 <= i <= |fs| && |entries| == 3 + i
      invariant entries[..3] == ModelHeaderFields(model.unit, model.modelName, |fs|)
      invariant forall j :: 0 <= j < i ==> Saveable(fs[j]) && entries[3 + j] == Field("Feature", FeatureValue(fs[j]))
    {
      if !Saveable(fs[i]) {
        return Err(UnregisteredTypeError);
      }
      entries := entries + [Field("Feature", FeatureValue(fs[i]))];
      i := i + 1;
    }
    r := Ok(entries);
  }

  /** Entry k's value when it exists and carries the expected name. */
  function Entry(a: seq<Field>, k: nat, name: string): (v: Option<Value>)
    ensures v.Some? <==> k < |a| && a[k].name == name
    ensures v.Some? ==> v.value == a[k].value
  {
    if k < |a| && a[k].name == name then Some(a[k].value) else None
  }

  function ReadUnit(a: seq<Field>): Option<UnitType>
  {
    var v := Entry(a, 0, "UnitSystem");
    if v.Some? && v.value.Int? then UnitOfCode(v.value.i) else None
  }

  function ReadName(a: seq<Field>): Option<string>
  {
    var v := Entry(a, 1, "ModelName");
    if v.Some? then AsStr(v.value) else None
  }

  /** The count is an unsigned size: a negative value does not load. */
  function ReadCount(a: seq<Field>): Option<nat>
  {
    var v := Entry(a, 2, "FeatureCount");
    if v.Some? && v.value.Int? && v.value.i >= 0 then Some(v.value.i) else None
  }

  /** Feature entry i: a null pointer, a loaded feature, or a failure. */
  function ReadFeature(a: seq<Field>, i: nat): Option<Option<Feature>>
  {
    var v := Entry(a, 3 + i, "Feature");
    if v.Some? then LoadFeatureValue(v.value) else None
  }

  /**
   * The features the first k feature entries add, and whether all of them
   * loaded: reading stops at the first failure, null pointers add nothing.
   */
  function ReadFeatures(a: seq<Field>, k: nat): (seq<Feature>, bool)
  {
    if k == 0 then ([], true)
    else
      var prev := ReadFeatures(a, k - 1);
      if !prev.1 then prev
      else
        var f := ReadFeature(a, k - 1);
        if f.None? then (prev.0, false) else (prev.0 + Loaded(f.value), true)
  }

  /** Once an entry has failed, reading further entries changes nothing. */
  lemma {:induction false} ReadFeaturesStops(a: seq<Feature>, arch: seq<Field>, k: nat, m: nat)
    requires k <= m && !ReadFeatures(arch, k).1 && ReadFeatures(arch, k).0 == a
    ensures ReadFeatures(arch, m) == (a, false)
    decreases m
  {
    if m > k {
      ReadFeaturesStops(a, arch, k, m - 1);
    }
  }

  /**
   * Reads the unit and the name straight into the model, then the count;
   * clears the model and adds each feature it reads. A failing entry throws
   * and leaves the model as far as the load got.
   */
  method LoadModel(model: UnifiedModel, archive: seq<Field>) returns (status: Status)
    requires model.Valid()
    modifies model
    ensures model.Valid()
    ensures ReadUnit(archive).None? ==>
              status == Threw(RuntimeError, ArchiveError) && model.unit == old(model.unit) &&
              model.modelName == old(model.modelName) && model.features == old(model.features)
    ensures ReadUnit(archive).Some? ==> model.unit == ReadUnit(archive).value
    ensures ReadUnit(archive).Some? && ReadName(archive).None? ==>
              status == Threw(RuntimeError, ArchiveError) &&
              model.modelName == old(model.modelName) && model.features == old(model.features)
    ensures ReadUnit(archive).Some? && ReadName(archive).Some? ==> model.modelName == ReadName(archive).value
    ensures ReadUnit(archive).Some? && ReadName(archive).Some? && ReadCount(archive).None? ==>
              status == Threw(RuntimeError, ArchiveError) && model.features == old(model.features)
    ensures ReadUnit(archive).Some? && ReadName(archive).Some? && ReadCount(archive).Some? ==>
              var read := ReadFeatures(archive, ReadCount(archive).value);
              model.features == read.0 &&
              (status == if read.1 then Done else Threw(RuntimeError, ArchiveError))
  {
    var unit := ReadUnit(archive);
    if unit.None? {
      return Threw(RuntimeError, ArchiveError);
    }
    model.unit := unit.value;
    var name := ReadName(archive);
    if name.None? {
      return Threw(RuntimeError, ArchiveError);
    }
    model.modelName := name.value;
    var count := ReadCount(archive);
    if count.None? {
      return Threw(RuntimeError, ArchiveError);
    }
    model.Clear();
    var i := 0;
    while i < count.value
      invariant 0 <= i <= count.value
      invariant model.Valid()
      invariant model.unit == unit.value && model.modelName == name.value
      invariant ReadFeatures(archive, i) == (model.features, true)
    {
      var f := ReadFeature(archive, i);
      if f.None? {
        ReadFeaturesStops(model.features, archive, i + 1, count.value);
        return Threw(RuntimeError, ArchiveError);
      }
      ghost var before := model.features;
      assert ReadFeatures(archive, i + 1) == (before + Loaded(f.value), true);
      model.AddFeature(f.value);
      assert model.features == before + Loaded(f.value);
      i := i + 1;
    }
    status := Done;
  }

  /** What a whole feature list is after a save and a load. */
  function StoredFeatures(fs: seq<Feature>): (r: seq<Feature>)
    ensures |r| == |fs|
  {
    if fs == [] then [] else StoredFeatures(fs[..|fs| - 1]) + [StoredFeature(fs[|fs| - 1])]
  }

  /** A reloaded model has no external IDs, so its external index is empty. */
  lemma {:induction false} StoredFeaturesHaveNoExternalIds(fs: seq<Feature>)
    ensures ExternalIndexOf(StoredFeatures(fs)) == map[]
  {
    if fs != [] {
      StoredFeaturesHaveNoExternalIds(fs[..|fs| - 1]);
      var r := StoredFeatures(fs);
      assert r[..|r| - 1] == StoredFeatures(fs[..|fs| - 1]);
    }
  }

  predicate AllCanonicalFeatures(fs: seq<Feature>)
  {
    forall i :: 0 <= i < |fs| ==> CanonicalFeature(fs[i])
  }

  /** The first k feature entries of a saved archive read back as the first k stored features. */
  lemma {:induction false} ReadSavedFeatures(a: seq<Field>, unit: UnitType, name: string, fs: seq<Feature>, k: nat)
    requires IsArchiveOf(a, unit, name, fs) && AllCanonicalFeatures(fs) && k <= |fs|
    ensures ReadFeatures(a, k) == (StoredFeatures(fs[..k]), true)
  {
    if k > 0 {
      ReadSavedFeatures(a, unit, name, fs, k - 1);
      FeatureRoundTrip(fs[k - 1]);
      assert fs[..k][..k - 1] == fs[..k - 1];
    }
  }

  /**
   * A saved model loads back: same unit, same name, the count of its
   * features, and every feature in stored form, with no entry failing.
   */
  lemma ModelRoundTrip(a: seq<Field>, unit: UnitType, name: string, fs: seq<Feature>)
    requires IsArchiveOf(a, unit, name, fs) && AllCanonicalFeatures(fs)
    ensures ReadUnit(a) == Some(unit) && ReadName(a) == Some(name) && ReadCount(a) == Some(|fs|)
    ensures ReadFeatures(a, |fs|) == (StoredFeatures(fs), true)
  {
    assert a[0] == a[..3][0] && a[1] == a[..3][1] && a[2] == a[..3][2];
    CodesRoundTrip(Single, AxisExplicit, unit, Boss, Blind, FeatureDatumPlane);
    ReadSavedFeatures(a, unit, name, fs, |fs|);
    assert fs[..|fs|] == fs;
  }
}
