/**
 * The dependency map of examples/PartReconstructionDemo.cpp, AnalyzeDependencies:
 * a std::map from feature ID to the IDs the feature depends on, filled by one
 * pass over the model's features through the accessors. A std::map keeps its
 * keys in ascending std::string order, so it is modelled as a list of entries
 * sorted by ID; characters compare by code point, the order UTF-8 byte
 * comparison gives.
 */
module DependencyGraph {
  import opened Wrappers
  import opened Geometry
  import opened Features
  import opened ModelIndex
  import opened FeatureAccessors
  import ReferenceAccessors
  import SketchAccessors
  import ExtrudeAccessors
  import RevolveAccessors
  import ModelAccessors

  // String order

  /** std::string's operator<: lexicographic, a proper prefix first. */
  function LexLess(a: string, b: string): bool
  {
    if |a| == 0 then |b| > 0
    else if |b| == 0 then false
    else if a[0] != b[0] then a[0] < b[0]
    else LexLess(a[1..], b[1..])
  }

  lemma {:induction false} LexLessIrreflexive(a: string)
    ensures !LexLess(a, a)
  {
    if |a| > 0 {
      LexLessIrreflexive(a[1..]);
    }
  }

  lemma {:induction false} LexLessTransitive(a: string, b: string, c: string)
    requires LexLess(a, b) && LexLess(b, c)
    ensures LexLess(a, c)
  {
    if |a| > 0 && a[0] == b[0] && b[0] == c[0] {
      LexLessTransitive(a[1..], b[1..], c[1..]);
    }
  }

  /** Any two different strings are ordered one way or the other. */
  lemma {:induction false} LexLessTotal(a: string, b: string)
    requires a != b
    ensures LexLess(a, b) || LexLess(b, a)
  {
    if |a| > 0 && |b| > 0 && a[0] == b[0] {
      assert a == [a[0]] + a[1..] && b == [b[0]] + b[1..];
      LexLessTotal(a[1..], b[1..]);
    }
  }

  // The map as a sorted list of entries

  datatype Entry = Entry(id: string, deps: seq<string>)

  /** Keys strictly ascending, hence distinct. */
  predicate Sorted(l: seq<Entry>)
  {
    forall i, j :: 0 <= i < j < |l| ==> LexLess(l[i].id, l[j].id)
  }

  function Keys(l: seq<Entry>): set<string>
  {
    if l == [] then {} else {l[0].id} + Keys(l[1..])
  }

  lemma {:induction false} KeyAt(l: seq<Entry>, i: nat)
    requires i < |l|
    ensures l[i].id in Keys(l)
  {
    if i > 0 {
      KeyAt(l[1..], i - 1);
    }
  }

  lemma {:induction false} KeyIndex(l: seq<Entry>, x: string) returns (i: nat)
    requires x in Keys(l)
    ensures i < |l| && l[i].id == x
  {
    if l[0].id == x {
      i := 0;
    } else {
      var j := KeyIndex(l[1..], x);
      i := j + 1;
    }
  }

  /** The value stored under the key; the first entry with it. */
  function Lookup(l: seq<Entry>, k: string): (r: Option<seq<string>>)
    ensures r.None? <==> k !in Keys(l)
  {
    if l == [] then None
    else if l[0].id == k then Some(l[0].deps)
    else Lookup(l[1..], k)
  }

  /** `m[k] = v`: replaces the entry with key k, or inserts one in key order. */
  function Upsert(l: seq<Entry>, k: string, v: seq<string>): (r: seq<Entry>)
    ensures Keys(r) == Keys(l) + {k}
    ensures |r| == |l| || |r| == |l| + 1
  {
    if l == [] then [Entry(k, v)]
    else if l[0].id == k then
      assert ([Entry(k, v)] + l[1..])[1..] == l[1..];
      [Entry(k, v)] + l[1..]
    else if LexLess(k, l[0].id) then
      assert ([Entry(k, v)] + l)[1..] == l;
      [Entry(k, v)] + l
    else
      var rest := Upsert(l[1..], k, v);
      assert ([l[0]] + rest)[1..] == rest;
      [l[0]] + rest
  }

  /** Storing under a key keeps the list sorted, stores the value, and leaves the other keys' values alone. */
  lemma {:induction false} UpsertSpec(l: seq<Entry>, k: string, v: seq<string>, other: string)
    requires Sorted(l)
    ensures Sorted(Upsert(l, k, v))
    ensures Lookup(Upsert(l, k, v), k) == Some(v)
    ensures other != k ==> Lookup(Upsert(l, k, v), other) == Lookup(l, other)
  {
    if l == [] {
    } else if l[0].id == k {
      var r := [Entry(k, v)] + l[1..];
      assert forall i :: 0 < i < |l| ==> r[i] == l[i];
      assert Sorted(r);
      assert r[1..] == l[1..];
    } else if LexLess(k, l[0].id) {
      var r := [Entry(k, v)] + l;
      forall j | 0 < j < |r|
        ensures LexLess(k, r[j].id)
      {
        if j > 1 { LexLessTransitive(k, l[0].id, l[j - 1].id); }
      }
      assert Sorted(r);
      assert r[1..] == l;
    } else {
      LexLessTotal(k, l[0].id);
      var rest := Upsert(l[1..], k, v);
      UpsertSpec(l[1..], k, v, other);
      var r := [l[0]] + rest;
      forall j | 0 < j < |r|
        ensures LexLess(l[0].id, r[j].id)
      {
        assert r[j] == rest[j - 1];
        KeyAt(rest, j - 1);
        var x := r[j].id;
        if x != k {
          var i := KeyIndex(l[1..], x);
          assert l[i + 1].id == x;
        }
      }
      assert Sorted(r);
      assert r[1..] == rest;
    }
  }

  // Dependencies of one feature

  /** A reference's dependency: its target ID, or else its parent ID, when non-empty. */
  function RefDeps(r: ReferenceAccessors.ReferenceAccessor): (ds: seq<string>)
    ensures |ds| <= 1 && (ds != [] ==> ds[0] != "")
    ensures ds != [] <==> r.ref.Some? && (r.ref.value.IsFeatureRef() ==> r.ref.value.targetFeatureID != "") &&
                          (r.ref.value.IsSubTopo() ==> r.ref.value.parentFeatureID != "")
  {
    if !ReferenceAccessors.IsValid(r) then []
    else
      var target := ReferenceAccessors.GetTargetFeatureID(r);
      var id := if target == "" then ReferenceAccessors.GetParentFeatureID(r) else target;
      assert r.ref.value.IsFeatureRef() <==> !r.ref.value.IsSubTopo();
      if id == "" then [] else [id]
  }

  /**
   * A sketch's dependency: by the plane's refType, the target of a datum
   * plane or the parent of a face; nothing for any other refType.
   */
  function SketchDeps(s: FeatureAccessor): (ds: seq<string>)
    requires SketchAccessors.IsSketchAccessor(s)
    ensures |ds| <= 1 && (ds != [] ==> ds[0] != "")
  {
    if !SketchAccessors.HasReferencePlane(s) then []
    else
      var plane := SketchAccessors.GetReferencePlane(s);
      var refType := ReferenceAccessors.GetRefType(plane);
      var id := if refType == FeatureDatumPlane then ReferenceAccessors.GetTargetFeatureID(plane)
                else if refType == TopoFace then ReferenceAccessors.GetParentFeatureID(plane)
                else "";
      if id == "" then [] else [id]
  }

  /** A non-empty profile ID as a one-element list. */
  function ProfileDeps(id: string): (ds: seq<string>)
    ensures ds == [] <==> id == ""
    ensures ds != [] ==> ds == [id]
  {
    if id == "" then [] else [id]
  }

  /** An extrude's dependencies: profile, first-condition reference, second-condition reference. */
  function ExtrudeDeps(e: FeatureAccessor): (ds: seq<string>)
    requires ExtrudeAccessors.IsExtrudeAccessor(e)
    ensures |ds| <= 3
  {
    ProfileDeps(ExtrudeAccessors.GetProfileSketchID(e)) +
    RefDeps(ExtrudeAccessors.GetReference1(e)) +
    (if ExtrudeAccessors.HasDirection2(e) then RefDeps(ExtrudeAccessors.GetReference2(e)) else [])
  }

  /** A revolve's dependencies: profile, then the axis reference. */
  function RevolveDeps(r: FeatureAccessor): (ds: seq<string>)
    requires RevolveAccessors.IsRevolveAccessor(r)
    ensures |ds| <= 2
  {
    ProfileDeps(RevolveAccessors.GetProfileSketchID(r)) + RefDeps(RevolveAccessors.GetAxisReference(r))
  }

  /** The dependency list built for one feature accessor, by the first As<T>() that succeeds. */
  function DepsOf(feat: FeatureAccessor): (ds: seq<string>)
    ensures forall i :: 0 <= i < |ds| ==> ds[i] != ""
    ensures |ds| <= 3
  {
    var sketch := As(feat, SketchView);
    if sketch.Some? then SketchDeps(sketch.value)
    else
      var extrude := As(feat, ExtrudeView);
      if extrude.Some? then
        var ds := ExtrudeDeps(extrude.value);
        assert forall i :: 0 <= i < |ds| ==> ds[i] != "";
        ds
      else
        var revolve := As(feat, RevolveView);
        if revolve.Some? then RevolveDeps(revolve.value) else []
  }

  /** The dependencies of a feature of the model, read through a base accessor. */
  function FeatureDeps(f: Feature): seq<string>
  {
    DepsOf(FeatureAccessor(AnyFeature, Some(f)))
  }

  /**
   * A sketch depends on nothing but its plane's target or face's parent,
   * chosen by the refType field: a datum-plane reference aimed at a standard
   * plane still counts, and a plane whose refType was changed to a face
   * type contributes its (empty) parent, so nothing.
   */
  lemma {:induction false} SketchDepsByRefType(f: Feature, target: string, parent: string, o: Point3D)
    requires f.Sketch?
    ensures target != "" ==>
              FeatureDeps(f.(referencePlane := Some(RefPlane(FeatureDatumPlane, target, o, o, o, o)))) == [target]
    ensures parent != "" ==>
              FeatureDeps(f.(referencePlane := Some(RefFace(TopoFace, parent, 0, o, o, o, o)))) == [parent]
    ensures FeatureDeps(f.(referencePlane := Some(RefPlane(TopoFace, target, o, o, o, o)))) == []
    ensures FeatureDeps(f.(referencePlane := None)) == []
  {
    var f1 := f.(referencePlane := Some(RefPlane(FeatureDatumPlane, target, o, o, o, o)));
    var f2 := f.(referencePlane := Some(RefFace(TopoFace, parent, 0, o, o, o, o)));
    var f3 := f.(referencePlane := Some(RefPlane(TopoFace, target, o, o, o, o)));
    assert As(FeatureAccessor(AnyFeature, Some(f1)), SketchView).Some?;
    assert As(FeatureAccessor(AnyFeature, Some(f2)), SketchView).Some?;
    assert As(FeatureAccessor(AnyFeature, Some(f3)), SketchView).Some?;
    assert As(FeatureAccessor(AnyFeature, Some(f.(referencePlane := None))), SketchView).Some?;
  }

  /**
   * An extrude depends on its profile, then on each end-condition reference
   * by target ID or else parent ID; the second condition counts only when present.
   */
  lemma {:induction false} ExtrudeDepsOfFields(f: Feature)
    requires f.Extrude?
    ensures FeatureDeps(f) ==
              (if f.sketchProfile.Some? then ProfileDeps(f.sketchProfile.value.featureID) else []) +
              RefDeps(ReferenceAccessors.ReferenceAccessor(f.endCondition1.referenceEntity)) +
              (if f.endCondition2.Some? then RefDeps(ReferenceAccessors.ReferenceAccessor(f.endCondition2.value.referenceEntity)) else [])
  {
    var a := FeatureAccessor(AnyFeature, Some(f));
    assert As(a, SketchView).None?;
    assert As(a, ExtrudeView) == Some(FeatureAccessor(ExtrudeView, Some(f)));
  }

  /** A revolve depends on its profile ID, then on its axis reference. */
  lemma {:induction false} RevolveDepsOfFields(f: Feature)
    requires f.Revolve?
    ensures FeatureDeps(f) == ProfileDeps(f.profileSketchID) + RefDeps(ReferenceAccessors.ReferenceAccessor(f.axis.referenceEntity))
  {
    var a := FeatureAccessor(AnyFeature, Some(f));
    assert As(a, SketchView).None? && As(a, ExtrudeView).None?;
    assert As(a, RevolveView) == Some(FeatureAccessor(RevolveView, Some(f)));
  }

  // The whole map

  /** The map after the extraction loop over the features: each ID keeps the last feature's list. */
  function DependencyList(fs: seq<Feature>): (l: seq<Entry>)
  {
    if fs == [] then []
    else Upsert(DependencyList(fs[..|fs| - 1]), fs[|fs| - 1].featureID, FeatureDeps(fs[|fs| - 1]))
  }

  /**
   * The map is sorted, and each ID of the model maps to the dependencies of
   * the last feature carrying that ID (a later duplicate resets the entry).
   */
  lemma {:induction false} DependencyListSpec(fs: seq<Feature>, id: string)
    ensures Sorted(DependencyList(fs))
    ensures LastWithId(fs, id).Some? ==> Lookup(DependencyList(fs), id) == Some(FeatureDeps(fs[LastWithId(fs, id).value]))
    ensures LastWithId(fs, id).None? ==> Lookup(DependencyList(fs), id).None?
    decreases |fs|
  {
    if fs != [] {
      var front := fs[..|fs| - 1];
      var last := fs[|fs| - 1];
      DependencyListSpec(front, id);
      UpsertSpec(DependencyList(front), last.featureID, FeatureDeps(last), id);
      if last.featureID != id && LastWithId(fs, id).Some? {
        assert LastWithId(fs, id) == LastWithId(front, id);
        assert fs[LastWithId(fs, id).value] == front[LastWithId(front, id).value];
      }
    }
  }

  /** The extraction loop: one base accessor per position, its ID, and the dependencies its class gives. */
  method BuildDependencies(m: ModelAccessors.ModelAccessor) returns (entries: seq<Entry>)
    ensures entries == DependencyList(m.model.features)
  {
    entries := [];
    var i := 0;
    while i < m.GetFeatureCount()
      invariant 0 <= i <= |m.model.features|
      invariant entries == DependencyList(m.model.features[..i])
    {
      var feat := m.GetFeature(i);
      assert m.model.features[..i + 1][..i] == m.model.features[..i];
      if feat.Some? && IsValid(feat.value) {
        var featID := GetID(feat.value);
        entries := Upsert(entries, featID, DepsOf(feat.value));
      }
      i := i + 1;
    }
    assert m.model.features[..i] == m.model.features;
  }
}
