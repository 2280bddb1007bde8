/**
 * The lookup structures both UnifiedModel classes keep beside their feature
 * list, as functions of the list: the ID index and the external-ID index
 * that AddFeature fills in list order, and the validation report.
 */
module ModelIndex {
  import opened Wrappers
  import opened Features

  /** The ID index after adding the features in order: each add overwrites the entry of its ID. */
  function IndexOf(fs: seq<Feature>): map<string, Feature>
  {
    if fs == [] then map[]
    else IndexOf(fs[..|fs| - 1])[fs[|fs| - 1].featureID := fs[|fs| - 1]]
  }

  /** The external-ID index: only features with a non-empty external ID are entered. */
  function ExternalIndexOf(fs: seq<Feature>): map<string, Feature>
  {
    if fs == [] then map[]
    else
      var last := fs[|fs| - 1];
      if last.externalID != "" then ExternalIndexOf(fs[..|fs| - 1])[last.externalID := last]
      else ExternalIndexOf(fs[..|fs| - 1])
  }

  /** The position of the most recently added feature with the given ID. */
  function LastWithId(fs: seq<Feature>, id: string): (r: Option<nat>)
    ensures r.Some? ==> r.value < |fs| && fs[r.value].featureID == id &&
                        forall j :: r.value < j < |fs| ==> fs[j].featureID != id
    ensures r.None? ==> forall j :: 0 <= j < |fs| ==> fs[j].featureID != id
  {
    if fs == [] then None
    else if fs[|fs| - 1].featureID == id then Some(|fs| - 1)
    else LastWithId(fs[..|fs| - 1], id)
  }

  /** The position of the most recently added feature with the given external ID. */
  function LastWithExternalId(fs: seq<Feature>, x: string): (r: Option<nat>)
    ensures r.Some? ==> r.value < |fs| && fs[r.value].externalID == x &&
                        forall j :: r.value < j < |fs| ==> fs[j].externalID != x
    ensures r.None? ==> forall j :: 0 <= j < |fs| ==> fs[j].externalID != x
  {
    if fs == [] then None
    else if fs[|fs| - 1].externalID == x then Some(|fs| - 1)
    else LastWithExternalId(fs[..|fs| - 1], x)
  }

  /** The ID index maps each ID to the last feature added with it, and holds no other ID. */
  lemma {:induction false} IndexOfIsLast(fs: seq<Feature>, id: string)
    ensures id in IndexOf(fs) <==> LastWithId(fs, id).Some?
    ensures id in IndexOf(fs) ==> IndexOf(fs)[id] == fs[LastWithId(fs, id).value]
  {
    if fs != [] {
      IndexOfIsLast(fs[..|fs| - 1], id);
    }
  }

  /** The external index maps each non-empty external ID to the last feature added with it. */
  lemma {:induction false} ExternalIndexOfIsLast(fs: seq<Feature>, x: string)
    ensures x in ExternalIndexOf(fs) <==> x != "" && LastWithExternalId(fs, x).Some?
    ensures x in ExternalIndexOf(fs) ==> ExternalIndexOf(fs)[x] == fs[LastWithExternalId(fs, x).value]
  {
    if fs != [] {
      ExternalIndexOfIsLast(fs[..|fs| - 1], x);
    }
  }

  /** The first feature with the given name: GetFeatureIdByName's loop. */
  function FirstWithName(fs: seq<Feature>, name: string): (r: Option<nat>)
    ensures r.Some? ==> r.value < |fs| && fs[r.value].featureName == name &&
                        forall j :: 0 <= j < r.value ==> fs[j].featureName != name
    ensures r.None? ==> forall j :: 0 <= j < |fs| ==> fs[j].featureName != name
  {
    if fs == [] then None
    else if fs[0].featureName == name then Some(0)
    else
      var r := FirstWithName(fs[1..], name);
      if r.Some? then Some(r.value + 1) else None
  }

  /** The first feature with the given ID: GetFeatureIndexByID's loop. */
  function FirstWithId(fs: seq<Feature>, id: string): (r: Option<nat>)
    ensures r.Some? ==> r.value < |fs| && fs[r.value].featureID == id &&
                        forall j :: 0 <= j < r.value ==> fs[j].featureID != id
    ensures r.None? ==> forall j :: 0 <= j < |fs| ==> fs[j].featureID != id
  {
    if fs == [] then None
    else if fs[0].featureID == id then Some(0)
    else
      var r := FirstWithId(fs[1..], id);
      if r.Some? then Some(r.value + 1) else None
  }

  /** A name match at k with none before it is what FirstWithName finds. */
  lemma {:induction false} FirstWithNameAt(fs: seq<Feature>, name: string, k: nat)
    requires k < |fs| && fs[k].featureName == name
    requires forall j :: 0 <= j < k ==> fs[j].featureName != name
    ensures FirstWithName(fs, name) == Some(k)
    decreases k
  {
    if k > 0 {
      FirstWithNameAt(fs[1..], name, k - 1);
    }
  }

  /** An ID match at k with none before it is what FirstWithId finds. */
  lemma {:induction false} FirstWithIdAt(fs: seq<Feature>, id: string, k: nat)
    requires k < |fs| && fs[k].featureID == id
    requires forall j :: 0 <= j < k ==> fs[j].featureID != id
    ensures FirstWithId(fs, id) == Some(k)
    decreases k
  {
    if k > 0 {
      FirstWithIdAt(fs[1..], id, k - 1);
    }
  }

  /** An ID match at k with none after it is what LastWithId finds. */
  lemma {:induction false} LastWithIdAt(fs: seq<Feature>, id: string, k: nat)
    requires k < |fs| && fs[k].featureID == id
    requires forall j :: k < j < |fs| ==> fs[j].featureID != id
    ensures LastWithId(fs, id) == Some(k)
    decreases |fs|
  {
    if k < |fs| - 1 {
      LastWithIdAt(fs[..|fs| - 1], id, k);
    }
  }

  /**
   * The first-match scan and the index find an ID in exactly the same lists,
   * and when IDs are unique they find the same feature.
   */
  lemma IdLookupsAgree(fs: seq<Feature>, id: string)
    ensures FirstWithId(fs, id).Some? <==> LastWithId(fs, id).Some?
    ensures ((forall i, j :: 0 <= i < j < |fs| ==> fs[i].featureID != fs[j].featureID) &&
             FirstWithId(fs, id).Some?) ==> FirstWithId(fs, id) == LastWithId(fs, id)
  {
  }

  /** After adding f, its ID and its non-empty external ID find f; other IDs find what they found before. */
  lemma AddedIsFound(fs: seq<Feature>, f: Feature, id: string)
    ensures LastWithId(fs + [f], f.featureID) == Some(|fs|)
    ensures f.externalID != "" ==> ExternalIndexOf(fs + [f])[f.externalID] == f
    ensures id != f.featureID ==> LastWithId(fs + [f], id) == LastWithId(fs, id)
    ensures IndexOf(fs + [f]) == IndexOf(fs)[f.featureID := f]
  {
    assert (fs + [f])[..|fs|] == fs;
  }

  /** Lists that agree on every ID and name answer every ID and name lookup alike. */
  lemma {:induction false} SameKeysSameLookups(a: seq<Feature>, b: seq<Feature>, id: string, name: string)
    requires |a| == |b|
    requires forall j :: 0 <= j < |a| ==> a[j].featureID == b[j].featureID && a[j].featureName == b[j].featureName
    ensures LastWithId(a, id) == LastWithId(b, id)
    ensures FirstWithId(a, id) == FirstWithId(b, id)
    ensures FirstWithName(a, name) == FirstWithName(b, name)
  {
    var l := LastWithId(b, id);
    if l.Some? {
      LastWithIdAt(a, id, l.value);
    }
    var f := FirstWithId(b, id);
    if f.Some? {
      FirstWithIdAt(a, id, f.value);
    }
    var n := FirstWithName(b, name);
    if n.Some? {
      FirstWithNameAt(a, name, n.value);
    }
  }

  /** What GetFeatureAs<CSketch> finds: the last feature with the ID, when it is a sketch. */
  function SketchWithId(fs: seq<Feature>, id: string): Option<Feature>
  {
    var k := LastWithId(fs, id);
    if k.Some? && fs[k.value].Sketch? then Some(fs[k.value]) else None
  }

  /** What GetFeatureByExternalIDAs<CSketch> finds: the last feature with a non-empty external ID, when it is a sketch. */
  function SketchWithExternalId(fs: seq<Feature>, x: string): Option<Feature>
  {
    var k := LastWithExternalId(fs, x);
    if x != "" && k.Some? && fs[k.value].Sketch? then Some(fs[k.value]) else None
  }

  /** A found profile is a sketch of the list that carries the ID asked for. */
  lemma SketchLookupsFindSketches(fs: seq<Feature>, id: string, x: string)
    ensures SketchWithId(fs, id).Some? ==>
              SketchWithId(fs, id).value.Sketch? && SketchWithId(fs, id).value.featureID == id && SketchWithId(fs, id).value in fs
    ensures SketchWithExternalId(fs, x).Some? ==>
              SketchWithExternalId(fs, x).value.Sketch? && SketchWithExternalId(fs, x).value.externalID == x &&
              x != "" && SketchWithExternalId(fs, x).value in fs
  {
  }

  /** A sketch just added to the model is the profile its ID (and its non-empty external ID) finds. */
  lemma {:induction false} AddedSketchIsFound(fs: seq<Feature>, s: Feature)
    requires s.Sketch?
    ensures SketchWithId(fs + [s], s.featureID) == Some(s)
    ensures s.externalID != "" ==> SketchWithExternalId(fs + [s], s.externalID) == Some(s)
  {
    AddedIsFound(fs, s, s.featureID);
    assert (fs + [s])[|fs|] == s;
  }

  /** ValidationReport: valid by default, with error and warning lists. */
  datatype ValidationReport = ValidationReport(isValid: bool, errors: seq<string>, warnings: seq<string>)

  const EmptyIdError: string := "Feature with empty ID found."

  /** The number of features whose ID is empty. */
  function EmptyIdCount(fs: seq<Feature>): (n: nat)
    ensures n <= |fs|
    ensures n == 0 <==> forall i :: 0 <= i < |fs| ==> fs[i].featureID != ""
  {
    if fs == [] then 0
    else EmptyIdCount(fs[..|fs| - 1]) + (if fs[|fs| - 1].featureID == "" then 1 else 0)
  }

  /** A list of n copies of the empty-ID error. */
  function EmptyIdErrors(n: nat): (r: seq<string>)
    ensures |r| == n && forall i :: 0 <= i < n ==> r[i] == EmptyIdError
  {
    if n == 0 then [] else EmptyIdErrors(n - 1) + [EmptyIdError]
  }

  /** The features a load adds: none for null, else the one loaded. */
  function Loaded(f: Option<Feature>): (r: seq<Feature>)
    ensures f.None? <==> r == []
  {
    if f.Some? then [f.value] else []
  }

  /** One AddFeature step of a loop that appends what it loads to a base list. */
  lemma AppendLoaded(base: seq<Feature>, loaded: seq<Feature>, pre: seq<Feature>, post: seq<Feature>, f: Option<Feature>)
    requires pre == base + loaded
    requires f.None? ==> post == pre
    requires f.Some? ==> post == pre + [f.value]
    ensures post == base + (loaded + Loaded(f))
  {
  }
}
