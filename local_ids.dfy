/**
 * The local IDs both sketch builders give their segments: a one-letter
 * prefix per segment kind, an underscore and the value of the builder's
 * segment counter after its increment. One counter serves every kind.
 */
module LocalIds {
  import opened Features
  import opened Text

  /** GenerateLocalID's result for the given prefix and counter value. */
  function LocalId(prefix: string, n: nat): (id: string)
    ensures |id| == |prefix| + 1 + |NatToString(n)|
  {
    prefix + "_" + NatToString(n)
  }

  /** The prefix each Add* method passes: L, C, A or P. */
  function SegmentPrefix(s: Segment): (p: string)
    ensures |p| == 1
  {
    match s
    case SketchLine(_, _, _, _) => "L"
    case SketchCircle(_, _, _, _) => "C"
    case SketchArc(_, _, _, _, _, _, _) => "A"
    case SketchPoint(_, _, _) => "P"
  }

  /** Segment i of the list carries the local ID of its kind and of counter value i + 1. */
  predicate Numbered(segments: seq<Segment>)
  {
    forall i :: 0 <= i < |segments| ==> segments[i].localID == LocalId(SegmentPrefix(segments[i]), i + 1)
  }

  /** Local IDs with one-letter prefixes are equal only when their counter values are. */
  lemma LocalIdInjective(p: string, q: string, a: nat, b: nat)
    requires |p| == 1 && |q| == 1
    requires LocalId(p, a) == LocalId(q, b)
    ensures a == b && p == q
  {
    assert LocalId(p, a)[2..] == NatToString(a);
    assert LocalId(q, b)[2..] == NatToString(b);
    NatToStringInjective(a, b);
    assert p == LocalId(p, a)[..1];
    assert q == LocalId(q, b)[..1];
  }

  /** The segments of a numbered list have pairwise distinct local IDs, whatever their kinds. */
  lemma NumberedIdsDistinct(segments: seq<Segment>, i: nat, j: nat)
    requires Numbered(segments) && i < j < |segments|
    ensures segments[i].localID != segments[j].localID
  {
    if segments[i].localID == segments[j].localID {
      LocalIdInjective(SegmentPrefix(segments[i]), SegmentPrefix(segments[j]), i + 1, j + 1);
    }
  }

  /** Appending a segment numbered with the next counter value keeps the list numbered. */
  lemma AppendNumbered(segments: seq<Segment>, s: Segment)
    requires Numbered(segments) && s.localID == LocalId(SegmentPrefix(s), |segments| + 1)
    ensures Numbered(segments + [s])
  {
  }
}
