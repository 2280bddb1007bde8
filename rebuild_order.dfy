/**
 * The rebuild order of examples/PartReconstructionDemo.cpp, AnalyzeDependencies:
 * repeated passes over the dependency map in key order, each emitting every
 * feature not yet processed whose dependencies are all processed (including
 * those emitted earlier in the same pass). The loop ends once every key is
 * processed, after |map|² passes, or at the first pass that emits nothing,
 * which is reported as a cycle or an unrecognised dependency together with
 * the features left unsorted.
 */
module RebuildOrder {
  import opened Wrappers
  import opened DependencyGraph
  import CoreModel
  import ModelAccessors

  // Specification

  function Elems(s: seq<string>): set<string>
  {
    set x | x in s
  }

  /** Every element of the list is in the set. */
  predicate AllIn(ds: seq<string>, done: set<string>)
  {
    forall i :: 0 <= i < |ds| ==> ds[i] in done
  }

  /** The IDs one pass emits, visiting the entries in order, starting from the processed set. */
  function PassFrom(es: seq<Entry>, done: set<string>): seq<string>
    decreases |es|
  {
    if es == [] then []
    else if es[0].id !in done && AllIn(es[0].deps, done) then [es[0].id] + PassFrom(es[1..], done + {es[0].id})
    else PassFrom(es[1..], done)
  }

  /** The IDs emitted by the passes from here on, and whether a pass stalled. */
  function Passes(es: seq<Entry>, done: set<string>, iterations: nat, maxIterations: nat): (seq<string>, bool)
    decreases maxIterations - iterations
  {
    if |done| >= |es| || iterations >= maxIterations then ([], false)
    else
      var p := PassFrom(es, done);
      if p == [] then ([], true)
      else
        var rest := Passes(es, done + Elems(p), iterations + 1, maxIterations);
        (p + rest.0, rest.1)
  }

  /** The whole loop: nothing processed, at most |map|² passes. */
  function Rebuild(es: seq<Entry>): (seq<string>, bool)
  {
    Passes(es, {}, 0, |es| * |es|)
  }

  /** The IDs the stall report lists: the unprocessed entries, in key order. */
  function Unprocessed(es: seq<Entry>, done: set<string>): (u: seq<string>)
    ensures forall i :: 0 <= i < |u| ==> u[i] !in done && u[i] in Keys(es)
    ensures forall k :: 0 <= k < |es| && es[k].id !in done ==> es[k].id in Elems(u)
  {
    if es == [] then []
    else
      var rest := Unprocessed(es[1..], done);
      assert forall k :: 1 <= k < |es| ==> es[k] == es[1..][k - 1];
      forall i | 0 <= i < |rest| ensures rest[i] in Keys(es) {
        assert rest[i] in Keys(es[1..]);
      }
      if es[0].id in done then rest else [es[0].id] + rest
  }

  /**
   * A valid emission order starting from a processed set: each ID emitted
   * once, never one already processed, each a key of the map, and each only
   * after all of its dependencies are processed or emitted before it.
   */
  predicate RespectsDeps(es: seq<Entry>, done: set<string>, out: seq<string>)
  {
    forall i :: 0 <= i < |out| ==>
      out[i] !in done && out[i] !in out[..i] &&
      Lookup(es, out[i]).Some? && AllIn(Lookup(es, out[i]).value, done + Elems(out[..i]))
  }

  // The loop

  lemma {:induction false} ElemsConcat(a: seq<string>, b: seq<string>)
    ensures Elems(a + b) == Elems(a) + Elems(b)
  {
    forall x | x in Elems(a) + Elems(b) ensures x in Elems(a + b) {
      if x in a {
        var i :| 0 <= i < |a| && a[i] == x;
        assert (a + b)[i] == x;
      } else {
        var i :| 0 <= i < |b| && b[i] == x;
        assert (a + b)[|a| + i] == x;
      }
    }
  }

  /** The inner check: every dependency already processed, stopping at the first that is not. */
  method AllDepsProcessed(deps: seq<string>, processed: set<string>) returns (allDepProcessed: bool)
    ensures allDepProcessed == AllIn(deps, processed)
  {
    allDepProcessed := true;
    var d := 0;
    while d < |deps|
      invariant 0 <= d <= |deps|
      invariant allDepProcessed ==> forall i :: 0 <= i < d ==> deps[i] in processed
      invariant !allDepProcessed ==> !AllIn(deps, processed)
      decreases if allDepProcessed then |deps| - d + 1 else 0
    {
      if deps[d] !in processed {
        allDepProcessed := false;
        break;
      }
      d := d + 1;
    }
  }

  /** One pass of the outer loop: the IDs it emits and the processed set after it. */
  method RunPass(entries: seq<Entry>, processed0: set<string>) returns (processed: set<string>, emitted: seq<string>)
    ensures emitted == PassFrom(entries, processed0)
    ensures processed == processed0 + Elems(emitted)
    ensures |processed| == |processed0| + |emitted|
  {
    processed := processed0;
    emitted := [];
    var j := 0;
    while j < |entries|
      invariant 0 <= j <= |entries|
      invariant PassFrom(entries, processed0) == emitted + PassFrom(entries[j..], processed)
      invariant processed == processed0 + Elems(emitted)
      invariant |processed| == |processed0| + |emitted|
    {
      var e := entries[j];
      assert entries[j..][1..] == entries[j + 1..];
      if e.id !in processed {
        var allDepProcessed := AllDepsProcessed(e.deps, processed);
        if allDepProcessed {
          ElemsConcat(emitted, [e.id]);
          processed := processed + {e.id};
          emitted := emitted + [e.id];
        }
      }
      j := j + 1;
    }
    assert entries[j..] == [];
  }

  /** The stall report: the keys not processed, in key order. */
  method ListUnsorted(entries: seq<Entry>, processed: set<string>) returns (unsorted: seq<string>)
    ensures unsorted == Unprocessed(entries, processed)
  {
    unsorted := [];
    var k := 0;
    while k < |entries|
      invariant 0 <= k <= |entries|
      invariant Unprocessed(entries, processed) == unsorted + Unprocessed(entries[k..], processed)
    {
      assert entries[k..][1..] == entries[k + 1..];
      if entries[k].id !in processed {
        unsorted := unsorted + [entries[k].id];
      }
      k := k + 1;
    }
    assert entries[k..] == [];
  }

  /** One step of the outer loop, as Passes takes it. */
  lemma PassesStep(es: seq<Entry>, done: set<string>, iterations: nat, maxIterations: nat, p: seq<string>, after: set<string>)
    requires |done| < |es| && iterations < maxIterations
    requires p == PassFrom(es, done) && after == done + Elems(p)
    ensures p == [] ==> Passes(es, done, iterations, maxIterations) == ([], true)
    ensures p != [] ==> Passes(es, done, iterations, maxIterations) ==
                          (p + Passes(es, after, iterations + 1, maxIterations).0, Passes(es, after, iterations + 1, maxIterations).1)
  {
  }

  lemma PassesEnd(es: seq<Entry>, done: set<string>, iterations: nat, maxIterations: nat, stalled: bool)
    requires !stalled ==> |done| >= |es| || iterations >= maxIterations
    ensures !stalled ==> Passes(es, done, iterations, maxIterations) == ([], false)
  {
  }

  /** The ordering loop over the map, with the stall report's unsorted IDs. */
  method EmitOrder(entries: seq<Entry>) returns (emitted: seq<string>, stalled: bool, unsorted: seq<string>)
    ensures (emitted, stalled) == Rebuild(entries)
    ensures unsorted == (if stalled then Unprocessed(entries, Elems(emitted)) else [])
  {
    var processed: set<string> := {};
    emitted := [];
    stalled := false;
    unsorted := [];
    var maxIterations := |entries| * |entries|;
    var iterations := 0;
    ghost var result := Rebuild(entries);
    ghost var remaining := result;
    assert result.0 == [] + remaining.0;
    while |processed| < |entries| && iterations < maxIterations
      invariant processed == Elems(emitted) && !stalled && unsorted == []
      invariant remaining == Passes(entries, processed, iterations, maxIterations)
      invariant result.0 == emitted + remaining.0 && result.1 == remaining.1
      decreases maxIterations - iterations
    {
      var previousSize := |processed|;
      ghost var done0 := processed;
      ghost var emitted0 := emitted;
      var passEmitted;
      processed, passEmitted := RunPass(entries, processed);
      PassesStep(entries, done0, iterations, maxIterations, passEmitted, processed);
      ElemsConcat(emitted, passEmitted);
      emitted := emitted + passEmitted;
      if |processed| == previousSize {
        stalled := true;
        unsorted := ListUnsorted(entries, processed);
        assert passEmitted == [] && emitted == emitted0;
        assert remaining == ([], true);
        assert result.0 == emitted0 + [];
        assert result == (emitted, stalled);
        break;
      }
      ghost var next := Passes(entries, processed, iterations + 1, maxIterations);
      assert remaining == (passEmitted + next.0, next.1);
      assert emitted0 + (passEmitted + next.0) == emitted + next.0;
      remaining := next;
      iterations := iterations + 1;
    }
    PassesEnd(entries, processed, iterations, maxIterations, stalled);
    if !stalled {
      assert remaining == ([], false);
      assert emitted + [] == emitted;
      assert result == (emitted, stalled);
    }
  }

  // Properties of the order

  lemma {:induction false} SortedTail(l: seq<Entry>)
    requires Sorted(l) && l != []
    ensures Sorted(l[1..])
  {
    forall i, j | 0 <= i < j < |l| - 1
      ensures LexLess(l[1..][i].id, l[1..][j].id)
    {
      assert l[1..][i] == l[i + 1] && l[1..][j] == l[j + 1];
    }
  }

  lemma {:induction false} HeadBelowTail(l: seq<Entry>, x: string)
    requires Sorted(l) && l != [] && x in Keys(l[1..])
    ensures LexLess(l[0].id, x) && x != l[0].id
  {
    var i := KeyIndex(l[1..], x);
    assert l[1..][i] == l[i + 1];
    LexLessIrreflexive(l[0].id);
  }

  /** In a sorted map, looking up an entry's key finds that entry's value. */
  lemma {:induction false} LookupAt(l: seq<Entry>, k: nat)
    requires Sorted(l) && k < |l|
    ensures Lookup(l, l[k].id) == Some(l[k].deps)
  {
    if k > 0 {
      LexLessIrreflexive(l[0].id);
      SortedTail(l);
      assert l[1..][k - 1] == l[k];
      LookupAt(l[1..], k - 1);
    }
  }

  /** A sorted map has as many keys as entries. */
  lemma {:induction false} KeysCount(l: seq<Entry>)
    requires Sorted(l)
    ensures |Keys(l)| == |l|
  {
    if l != [] {
      SortedTail(l);
      KeysCount(l[1..]);
      if l[0].id in Keys(l[1..]) {
        HeadBelowTail(l, l[0].id);
      }
    }
  }

  lemma {:induction false} SubsetCard(a: set<string>, b: set<string>)
    requires a <= b
    ensures |a| <= |b|
    decreases a
  {
    if a != {} {
      var x :| x in a;
      SubsetCard(a - {x}, b - {x});
      assert a == (a - {x}) + {x};
      assert b == (b - {x}) + {x};
    }
  }

  lemma {:induction false} SubsetFull(a: set<string>, b: set<string>)
    requires a <= b && |a| >= |b|
    ensures a == b
  {
    if a != b {
      assert b - a != {} by {
        if b - a == {} {
          forall y | y in b ensures y in a {
            assert y !in b - a;
          }
        }
      }
      var x :| x in b - a;
      SubsetCard(a, b - {x});
    }
  }

  /** One pass emits a valid order: new IDs, each once, each after its dependencies. */
  lemma {:induction false} PassRespects(es: seq<Entry>, done: set<string>)
    requires Sorted(es)
    ensures RespectsDeps(es, done, PassFrom(es, done))
    decreases |es|
  {
    if es != [] {
      SortedTail(es);
      var h := es[0].id;
      if h !in done && AllIn(es[0].deps, done) {
        var rest := PassFrom(es[1..], done + {h});
        PassRespects(es[1..], done + {h});
        var out := [h] + rest;
        forall i | 0 <= i < |out|
          ensures out[i] !in done && out[i] !in out[..i] &&
                  Lookup(es, out[i]).Some? && AllIn(Lookup(es, out[i]).value, done + Elems(out[..i]))
        {
          if i == 0 {
            assert out[..i] == [];
          } else {
            assert out[i] == rest[i - 1];
            assert out[..i] == [h] + rest[..i - 1];
            ElemsConcat([h], rest[..i - 1]);
            assert Elems([h]) == {h};
            assert done + Elems(out[..i]) == (done + {h}) + Elems(rest[..i - 1]);
          }
        }
        assert PassFrom(es, done) == out;
      } else {
        var out := PassFrom(es[1..], done);
        PassRespects(es[1..], done);
        forall i | 0 <= i < |out|
          ensures Lookup(es, out[i]) == Lookup(es[1..], out[i])
        {
          HeadBelowTail(es, out[i]);
        }
      }
    }
  }

  lemma {:induction false} AppendRespects(es: seq<Entry>, done: set<string>, a: seq<string>, b: seq<string>)
    requires RespectsDeps(es, done, a) && RespectsDeps(es, done + Elems(a), b)
    ensures RespectsDeps(es, done, a + b)
  {
    forall i | 0 <= i < |a + b|
      ensures (a + b)[i] !in done && (a + b)[i] !in (a + b)[..i] &&
              Lookup(es, (a + b)[i]).Some? && AllIn(Lookup(es, (a + b)[i]).value, done + Elems((a + b)[..i]))
    {
      if i < |a| {
        assert (a + b)[i] == a[i] && (a + b)[..i] == a[..i];
      } else {
        var k := i - |a|;
        assert (a + b)[i] == b[k] && (a + b)[..i] == a + b[..k];
        ElemsConcat(a, b[..k]);
      }
    }
  }

  lemma {:induction false} PassesRespect(es: seq<Entry>, done: set<string>, iterations: nat, maxIterations: nat)
    requires Sorted(es)
    ensures RespectsDeps(es, done, Passes(es, done, iterations, maxIterations).0)
    decreases maxIterations - iterations
  {
    if |done| < |es| && iterations < maxIterations {
      var p := PassFrom(es, done);
      if p != [] {
        PassRespects(es, done);
        PassesRespect(es, done + Elems(p), iterations + 1, maxIterations);
        AppendRespects(es, done, p, Passes(es, done + Elems(p), iterations + 1, maxIterations).0);
      }
    }
  }

  /**
   * The rebuild order is valid: every ID is a key of the map and appears
   * once, and every dependency of a feature is emitted before it.
   */
  lemma RebuildRespectsDeps(es: seq<Entry>)
    requires Sorted(es)
    ensures RespectsDeps(es, {}, Rebuild(es).0)
  {
    PassesRespect(es, {}, 0, |es| * |es|);
  }

  /** A pass that emits nothing leaves every unprocessed entry with an unprocessed dependency. */
  lemma {:induction false} EmptyPassBlocked(es: seq<Entry>, done: set<string>)
    requires PassFrom(es, done) == []
    ensures forall k :: 0 <= k < |es| && es[k].id !in done ==> !AllIn(es[k].deps, done)
    decreases |es|
  {
    if es != [] {
      EmptyPassBlocked(es[1..], done);
      assert forall k :: 1 <= k < |es| ==> es[k] == es[1..][k - 1];
    }
  }

  lemma {:induction false} PassesStall(es: seq<Entry>, done: set<string>, iterations: nat, maxIterations: nat)
    ensures var r := Passes(es, done, iterations, maxIterations);
            var d := done + Elems(r.0);
            r.1 ==> |d| < |es| && forall k :: 0 <= k < |es| && es[k].id !in d ==> !AllIn(es[k].deps, d)
    decreases maxIterations - iterations
  {
    if |done| < |es| && iterations < maxIterations {
      var p := PassFrom(es, done);
      if p == [] {
        EmptyPassBlocked(es, done);
        assert done + Elems([]) == done;
      } else {
        var rest := Passes(es, done + Elems(p), iterations + 1, maxIterations);
        PassesStall(es, done + Elems(p), iterations + 1, maxIterations);
        ElemsConcat(p, rest.0);
        assert (done + Elems(p)) + Elems(rest.0) == done + Elems(p + rest.0);
      }
    }
  }

  /**
   * A stall is reported only with something left to sort, and every
   * feature the report lists has a dependency that was never processed.
   */
  lemma StallReportsBlockedFeatures(es: seq<Entry>)
    requires Sorted(es) && Rebuild(es).1
    ensures var d := Elems(Rebuild(es).0);
            var u := Unprocessed(es, d);
            u != [] && forall i :: 0 <= i < |u| ==> Lookup(es, u[i]).Some? && !AllIn(Lookup(es, u[i]).value, d)
  {
    var d := Elems(Rebuild(es).0);
    var u := Unprocessed(es, d);
    PassesStall(es, {}, 0, |es| * |es|);
    assert {} + d == d;
    KeysCount(es);
    if Keys(es) <= d {
      SubsetCard(Keys(es), d);
    }
    var x :| x in Keys(es) && x !in d;
    var k := KeyIndex(es, x);
    assert es[k].id in Elems(u);
    forall i | 0 <= i < |u|
      ensures Lookup(es, u[i]).Some? && !AllIn(Lookup(es, u[i]).value, d)
    {
      var j := KeyIndex(es, u[i]);
      LookupAt(es, j);
    }
  }

  lemma NoMoreThanSquare(n: nat)
    ensures n <= n * n
  {
    if n > 0 {
      assert n * n == n * (n - 1) + n;
    }
  }

  /** A pass that emits something adds that many keys of the map to the processed set. */
  lemma PassGrows(es: seq<Entry>, done: set<string>)
    requires Sorted(es) && done <= Keys(es) && PassFrom(es, done) != []
    ensures done + Elems(PassFrom(es, done)) <= Keys(es)
    ensures |done + Elems(PassFrom(es, done))| > |done|
  {
    var p := PassFrom(es, done);
    PassRespects(es, done);
    forall x | x in Elems(p) ensures x in Keys(es) {
      var i :| 0 <= i < |p| && p[i] == x;
    }
    assert done + {p[0]} <= done + Elems(p);
    SubsetCard(done + {p[0]}, done + Elems(p));
  }

  lemma PassesCompleteAtEnd(es: seq<Entry>, done: set<string>, iterations: nat, maxIterations: nat)
    requires Sorted(es) && done <= Keys(es) && |done| >= iterations && |es| <= maxIterations
    requires |done| >= |es| || iterations >= maxIterations
    ensures done == Keys(es)
  {
    KeysCount(es);
    SubsetFull(done, Keys(es));
  }

  lemma {:induction false} PassesComplete(es: seq<Entry>, done: set<string>, iterations: nat, maxIterations: nat)
    requires Sorted(es) && done <= Keys(es) && |done| >= iterations && |es| <= maxIterations
    ensures var r := Passes(es, done, iterations, maxIterations);
            !r.1 ==> done + Elems(r.0) == Keys(es)
    decreases maxIterations - iterations
  {
    if |done| >= |es| || iterations >= maxIterations {
      PassesCompleteAtEnd(es, done, iterations, maxIterations);
      assert done + Elems([]) == done;
    } else {
      var p := PassFrom(es, done);
      if p != [] {
        PassGrows(es, done);
        var after := done + Elems(p);
        var rest := Passes(es, after, iterations + 1, maxIterations);
        PassesComplete(es, after, iterations + 1, maxIterations);
        ElemsConcat(p, rest.0);
        assert after + Elems(rest.0) == done + Elems(p + rest.0);
      }
    }
  }

  /**
   * Unless a pass stalls, every feature ID of the map is emitted: the |map|²
   * bound on the passes never cuts the loop short.
   */
  lemma RebuildComplete(es: seq<Entry>)
    requires Sorted(es)
    ensures !Rebuild(es).1 ==> Elems(Rebuild(es).0) == Keys(es)
  {
    NoMoreThanSquare(|es|);
    PassesComplete(es, {}, 0, |es| * |es|);
    assert {} + Elems(Rebuild(es).0) == Elems(Rebuild(es).0);
  }

  /** A feature depending on an ID that is not a key of the map (STD_DATUM_XY, say) is never emitted. */
  lemma UnknownDependencyBlocks(es: seq<Entry>, x: string, dep: string)
    requires Sorted(es) && Lookup(es, x).Some? && dep in Lookup(es, x).value && dep !in Keys(es)
    ensures x !in Elems(Rebuild(es).0)
  {
    var out := Rebuild(es).0;
    RebuildRespectsDeps(es);
  }

  /**
   * A rank that every dependency undercuts: the dependencies are
   * acyclic and every dependency is a key of the map.
   */
  predicate Ranked(es: seq<Entry>, rank: map<string, nat>)
  {
    (forall k :: 0 <= k < |es| ==> es[k].id in rank) &&
    forall k, d :: 0 <= k < |es| && 0 <= d < |es[k].deps| ==>
      es[k].deps[d] in Keys(es) && es[k].deps[d] in rank && rank[es[k].deps[d]] < rank[es[k].id]
  }

  lemma {:induction false} MinRank(s: set<string>, rank: map<string, nat>) returns (x: string)
    requires s != {} && s <= rank.Keys
    ensures x in s && forall y :: y in s ==> rank[x] <= rank[y]
    decreases s
  {
    var y :| y in s;
    if s == {y} {
      x := y;
    } else {
      var m := MinRank(s - {y}, rank);
      x := if rank[m] <= rank[y] then m else y;
    }
  }

  /** With acyclic dependencies on known features, ordering never stalls, so every feature is emitted. */
  lemma AcyclicNeverStalls(es: seq<Entry>, rank: map<string, nat>)
    requires Sorted(es) && Ranked(es, rank)
    ensures !Rebuild(es).1 && Elems(Rebuild(es).0) == Keys(es)
  {
    RebuildComplete(es);
    if Rebuild(es).1 {
      var d := Elems(Rebuild(es).0);
      PassesStall(es, {}, 0, |es| * |es|);
      assert {} + d == d;
      RebuildRespectsDeps(es);
      assert d <= Keys(es) by {
        forall x | x in d ensures x in Keys(es) {
          var i :| 0 <= i < |Rebuild(es).0| && Rebuild(es).0[i] == x;
        }
      }
      KeysCount(es);
      if Keys(es) <= d {
        SubsetCard(Keys(es), d);
      }
      forall x | x in Keys(es) ensures x in rank {
        var k := KeyIndex(es, x);
      }
      var x := MinRank(Keys(es) - d, rank);
      var k := KeyIndex(es, x);
      assert false;
    }
  }

  predicate Ascending(p: seq<string>)
  {
    forall i, j :: 0 <= i < j < |p| ==> LexLess(p[i], p[j])
  }

  /** Within one pass the emitted IDs ascend, as the map's iteration order does. */
  lemma {:induction false} PassAscending(es: seq<Entry>, done: set<string>)
    requires Sorted(es)
    ensures Ascending(PassFrom(es, done))
    decreases |es|
  {
    if es != [] {
      SortedTail(es);
      var h := es[0].id;
      if h !in done && AllIn(es[0].deps, done) {
        var rest := PassFrom(es[1..], done + {h});
        PassAscending(es[1..], done + {h});
        PassRespects(es[1..], done + {h});
        var out := [h] + rest;
        forall i, j | 0 <= i < j < |out| ensures LexLess(out[i], out[j]) {
          assert out[j] == rest[j - 1];
          assert Lookup(es[1..], rest[j - 1]).Some?;
          if i == 0 {
            assert out[0] == h;
            HeadBelowTail(es, rest[j - 1]);
          } else {
            assert out[i] == rest[i - 1];
          }
        }
        assert PassFrom(es, done) == out;
      } else {
        assert PassFrom(es, done) == PassFrom(es[1..], done);
        PassAscending(es[1..], done);
      }
    }
  }

  /** A feature is emitted in the same pass as a dependency visited before it. */
  lemma SamePassExample()
    ensures PassFrom([Entry("A", []), Entry("B", ["A"])], {}) == ["A", "B"]
  {
    var es := [Entry("A", []), Entry("B", ["A"])];
    assert es[1..] == [Entry("B", ["A"])] && es[1..][1..] == [];
    assert AllIn(["A"], {"A"});
    assert PassFrom(es[1..], {"A"}) == ["B"] + PassFrom([], {"A", "B"});
  }

  /** A dependency with a later key holds its feature back to the next pass. */
  lemma LaterPassExample()
    ensures PassFrom([Entry("A", ["B"]), Entry("B", [])], {}) == ["B"]
    ensures PassFrom([Entry("A", ["B"]), Entry("B", [])], {"B"}) == ["A"]
  {
    var es := [Entry("A", ["B"]), Entry("B", [])];
    assert es[1..] == [Entry("B", [])] && es[1..][1..] == [];
    assert ["B"][0] == "B";
    assert AllIn(["B"], {"B"});
    assert PassFrom(es[1..], {"A", "B"}) == [];
  }

  /** A cycle, or a dependency on an ID that is no key (a standard plane), stalls the first pass. */
  lemma StallExamples()
    ensures PassFrom([Entry("A", ["B"]), Entry("B", ["A"])], {}) == []
    ensures PassFrom([Entry("A", ["STD_DATUM_XY"])], {}) == []
  {
    var es := [Entry("A", ["B"]), Entry("B", ["A"])];
    assert es[1..] == [Entry("B", ["A"])] && es[1..][1..] == [];
    assert ["B"][0] == "B" && ["A"][0] == "A" && ["STD_DATUM_XY"][0] == "STD_DATUM_XY";
    assert [Entry("A", ["STD_DATUM_XY"])][1..] == [];
  }

  /**
   * AnalyzeDependencies: copy the model into an accessor, extract the map,
   * order it. The order is valid; unless a pass stalls it holds every
   * feature ID, and a stall lists the features whose dependencies were
   * never processed.
   */
  method AnalyzeDependencies(model: CoreModel.UnifiedModel) returns (order: seq<string>, stalled: bool, unsorted: seq<string>)
    ensures (order, stalled) == Rebuild(DependencyList(model.features))
    ensures unsorted == (if stalled then Unprocessed(DependencyList(model.features), Elems(order)) else [])
    ensures RespectsDeps(DependencyList(model.features), {}, order)
    ensures !stalled ==> Elems(order) == Keys(DependencyList(model.features))
    ensures stalled ==> unsorted != []
    ensures stalled ==> forall i :: 0 <= i < |unsorted| ==>
                          Lookup(DependencyList(model.features), unsorted[i]).Some? &&
                          !AllIn(Lookup(DependencyList(model.features), unsorted[i]).value, Elems(order))
  {
    var modelAccessor := new ModelAccessors.ModelAccessor();
    modelAccessor.SetModel(model);
    var dependencies := BuildDependencies(modelAccessor);
    order, stalled, unsorted := EmitOrder(dependencies);
    DependencyListSpec(model.features, "");
    RebuildRespectsDeps(dependencies);
    RebuildComplete(dependencies);
    if stalled {
      StallReportsBlockedFeatures(dependencies);
    }
  }
}
