/**
 * The "(x,y,z)" text of points and vectors in the XML codec, and the
 * attribute readers that fall back to (0,0,0) (src/TinyXMLSerializer.cpp).
 */
module XmlTriples {
  import opened Wrappers
  import opened Text
  import opened Geometry
  import opened Xml

  /**
   * The two number formats the codec uses: `triple` is the stream format of
   * FormatTriple read back by std::stod, `attr` is tinyxml2's own format for
   * double attributes.
   */
  datatype Formats = Formats(triple: RealFormat, attr: RealFormat)

  ghost predicate FaithfulFormats(fx: Formats)
  {
    Faithful(fx.triple) && Faithful(fx.attr)
  }

  function FormatTriple(f: RealFormat, x: real, y: real, z: real): string
  {
    "(" + f.show(x) + "," + f.show(y) + "," + f.show(z) + ")"
  }

  function FormatVec(f: RealFormat, v: Vec3): string
  {
    FormatTriple(f, v.x, v.y, v.z)
  }

  /** std::string::find of a character from a position: the first index at or after it. */
  function Find(s: string, c: char, from: nat): (r: Option<nat>)
    ensures r.Some? ==> from <= r.value < |s| && s[r.value] == c
    decreases |s| - from
  {
    if from >= |s| then None
    else if s[from] == c then Some(from)
    else Find(s, c, from + 1)
  }

  /** Find stops at the first occurrence at or after the start. */
  lemma {:induction false} FindFirst(s: string, c: char, from: nat, k: nat)
    requires from <= k < |s| && s[k] == c
    requires forall j :: from <= j < k ==> s[j] != c
    ensures Find(s, c, from) == Some(k)
    decreases k - from
  {
    if from < k {
      FindFirst(s, c, from + 1, k);
    }
  }

  /** The parentheses are removed only when the text both starts with '(' and ends with ')'. */
  function StripParens(s: string): (r: string)
    ensures |s| > 0 && s[0] == '(' && s[|s| - 1] == ')' ==> |s| >= 2 && r == s[1..|s| - 1]
    ensures !(|s| > 0 && s[0] == '(' && s[|s| - 1] == ')') ==> r == s
  {
    if |s| > 0 && s[0] == '(' && s[|s| - 1] == ')' then s[1..|s| - 1] else s
  }

  /**
   * TryParseTriple: null text fails; after the optional parentheses the text
   * needs a first comma and a second one after it; the three parts are read
   * as numbers and any unreadable part fails the whole parse.
   */
  function TryParseTriple(f: RealFormat, text: Option<string>): Option<Vec3>
  {
    if text.None? then None
    else
      var str := StripParens(text.value);
      var first := Find(str, ',', 0);
      if first.None? then None
      else
        var second := Find(str, ',', first.value + 1);
        if second.None? then None
        else
          var x := f.read(str[..first.value]);
          var y := f.read(str[first.value + 1..second.value]);
          var z := f.read(str[second.value + 1..]);
          if x.Some? && y.Some? && z.Some? then Some(Vec3(x.value, y.value, z.value)) else None
  }

  /** ParsePointAttribute / ParseVectorAttribute / LoadPoint3D / LoadVector3D. */
  function ParseVecAttribute(f: RealFormat, e: Element, name: string): Vec3
  {
    var t := TryParseTriple(f, Attribute(e, name));
    if t.Some? then t.value else Zero
  }

  function SetVecAttribute(f: RealFormat, e: Element, name: string, v: Vec3): Element
  {
    SetAttribute(e, name, FormatVec(f, v))
  }

  function CountChar(s: string, c: char): nat
  {
    if s == [] then 0 else (if s[0] == c then 1 else 0) + CountChar(s[1..], c)
  }

  lemma {:induction false} CountCharFrom(s: string, c: char, from: nat)
    requires from <= |s|
    requires Find(s, c, from).None?
    ensures CountChar(s[from..], c) == 0
    decreases |s| - from
  {
    if from < |s| {
      assert s[from..][1..] == s[from + 1..];
      CountCharFrom(s, c, from + 1);
    }
  }

  lemma {:induction false} CountCharSplit(s: string, c: char, i: nat)
    requires i <= |s|
    ensures CountChar(s, c) == CountChar(s[..i], c) + CountChar(s[i..], c)
    decreases i
  {
    if i > 0 {
      assert s[1..][..i - 1] == s[..i][1..];
      assert s[1..][i - 1..] == s[i..];
      CountCharSplit(s[1..], c, i - 1);
    } else {
      assert s[i..] == s;
    }
  }

  lemma CountCharFound(s: string, c: char, from: nat)
    requires Find(s, c, from).Some?
    ensures CountChar(s[Find(s, c, from).value..], c) >= 1
  {
    var k := Find(s, c, from).value;
    assert s[k..][0] == c;
  }

  /** Only text with at least two commas, after the optional parentheses, parses as a triple. */
  lemma {:induction false} TryParseTripleNeedsTwoCommas(f: RealFormat, s: string)
    requires TryParseTriple(f, Some(s)).Some?
    ensures CountChar(StripParens(s), ',') >= 2
  {
    var str := StripParens(s);
    var i := Find(str, ',', 0).value;
    var j := Find(str, ',', i + 1).value;
    CountCharSplit(str, ',', i + 1);
    assert str[..i + 1][i..] == [','];
    CountCharSplit(str[..i + 1], ',', i);
    assert CountChar([','], ',') == 1;
    CountCharSplit(str[i + 1..], ',', j - (i + 1));
    assert str[i + 1..][j - (i + 1)..] == str[j..];
    CountCharFound(str, ',', i + 1);
  }

  lemma {:induction false} FindInTriple(f: RealFormat, a: string, b: string, c: string)
    requires NoDelimiter(a) && NoDelimiter(b)
    ensures Find(a + "," + b + "," + c, ',', 0) == Some(|a|)
    ensures Find(a + "," + b + "," + c, ',', |a| + 1) == Some(|a| + 1 + |b|)
  {
    var s := a + "," + b + "," + c;
    assert forall k :: 0 <= k < |a| ==> s[k] == a[k];
    assert s[|a|] == ',';
    FindFirst(s, ',', 0, |a|);
    assert forall k :: |a| + 1 <= k < |a| + 1 + |b| ==> s[k] == b[k - |a| - 1];
    assert s[|a| + 1 + |b|] == ',';
    FindFirst(s, ',', |a| + 1, |a| + 1 + |b|);
  }

  /** A written triple reads back as the same vector when the number format is faithful. */
  lemma {:induction false} TryParseFormatTriple(f: RealFormat, v: Vec3)
    requires Faithful(f)
    ensures TryParseTriple(f, Some(FormatVec(f, v))) == Some(v)
  {
    var a, b, c := f.show(v.x), f.show(v.y), f.show(v.z);
    assert f.read(a) == Some(v.x) && NoDelimiter(a);
    assert f.read(b) == Some(v.y) && NoDelimiter(b);
    assert f.read(c) == Some(v.z) && NoDelimiter(c);
    var s := FormatVec(f, v);
    var inner := a + "," + b + "," + c;
    assert s == "(" + inner + ")";
    assert StripParens(s) == inner;
    FindInTriple(f, a, b, c);
    assert inner[..|a|] == a;
    assert inner[|a| + 1..|a| + 1 + |b|] == b;
    assert inner[|a| + 1 + |b| + 1..] == c;
  }

  lemma ParseVecOfText(f: RealFormat, e: Element, name: string, v: Vec3)
    requires Faithful(f)
    requires Attribute(e, name) == Some(FormatVec(f, v))
    ensures ParseVecAttribute(f, e, name) == v
  {
    TryParseFormatTriple(f, v);
  }

  /** An absent attribute reads as (0,0,0). */
  lemma ParseVecOfAbsent(f: RealFormat, e: Element, name: string)
    requires name !in e.attrs
    ensures ParseVecAttribute(f, e, name) == Zero
  {
  }
}
