/**
 * The XML document the serializer builds and reads: an element is a tag, a
 * map of string attributes and an ordered list of child elements. The
 * tinyxml2 DOM and the file it is saved to are outside the model.
 */
module Xml {
  import opened Wrappers
  import opened Text

  datatype Element = Element(tag: string, attrs: map<string, string>, children: seq<Element>)

  /** The top-level elements of a document, in order. */
  datatype Document = Document(roots: seq<Element>)

  function NewElement(tag: string): (e: Element)
    ensures e.tag == tag && e.attrs == map[] && e.children == []
  {
    Element(tag, map[], [])
  }

  /** XMLElement::Attribute: the attribute text, or null when absent. */
  function Attribute(e: Element, name: string): (r: Option<string>)
    ensures r.Some? <==> name in e.attrs
    ensures r.Some? ==> r.value == e.attrs[name]
  {
    if name in e.attrs then Some(e.attrs[name]) else None
  }

  /** XMLElement::SetAttribute: adds the attribute or overwrites its text. */
  function SetAttribute(e: Element, name: string, value: string): (r: Element)
    ensures r.tag == e.tag && r.children == e.children
    ensures Attribute(r, name) == Some(value)
  {
    e.(attrs := e.attrs[name := value])
  }

  /** Setting one attribute leaves every other attribute as it was. */
  lemma SetAttributeFrame(e: Element, name: string, value: string, other: string)
    requires other != name
    ensures Attribute(SetAttribute(e, name, value), other) == Attribute(e, other)
  {
  }

  function SetIntAttribute(e: Element, name: string, value: int): Element
  {
    SetAttribute(e, name, IntToString(value))
  }

  function SetBoolAttribute(e: Element, name: string, value: bool): Element
  {
    SetAttribute(e, name, BoolToString(value))
  }

  function SetRealAttribute(f: RealFormat, e: Element, name: string, value: real): Element
  {
    SetAttribute(e, name, f.show(value))
  }

  /** XMLNode::InsertEndChild. */
  function InsertEndChild(e: Element, child: Element): (r: Element)
    ensures r.tag == e.tag && r.attrs == e.attrs && r.children == e.children + [child]
  {
    e.(children := e.children + [child])
  }

  /** The first element of the list with the given tag. */
  function FirstNamed(elems: seq<Element>, tag: string): (r: Option<Element>)
    ensures r.Some? <==> exists i :: 0 <= i < |elems| && elems[i].tag == tag
    ensures r.Some? ==> r.value.tag == tag && r.value in elems
  {
    if elems == [] then None
    else if elems[0].tag == tag then Some(elems[0])
    else
      var rest := FirstNamed(elems[1..], tag);
      assert forall i :: 1 <= i < |elems| ==> elems[i] == elems[1..][i - 1];
      rest
  }

  /** XMLNode::FirstChildElement(tag); null when there is none. */
  function FirstChildElement(e: Element, tag: string): Option<Element>
  {
    FirstNamed(e.children, tag)
  }

  /**
   * The elements with the given tag, in order: what a FirstChildElement /
   * NextSiblingElement walk visits.
   */
  function Named(elems: seq<Element>, tag: string): (r: seq<Element>)
    ensures forall x :: x in r ==> x.tag == tag && x in elems
    ensures |r| <= |elems|
  {
    if elems == [] then []
    else (if elems[0].tag == tag then [elems[0]] else []) + Named(elems[1..], tag)
  }

  lemma NamedAppend(a: seq<Element>, b: seq<Element>, tag: string)
    ensures Named(a + b, tag) == Named(a, tag) + Named(b, tag)
  {
    if a != [] {
      assert (a + b)[1..] == a[1..] + b;
      NamedAppend(a[1..], b, tag);
    } else {
      assert a + b == b;
    }
  }

  lemma FirstNamedAppend(a: seq<Element>, b: seq<Element>, tag: string)
    ensures FirstNamed(a + b, tag) == if FirstNamed(a, tag).Some? then FirstNamed(a, tag) else FirstNamed(b, tag)
  {
    if a != [] {
      assert (a + b)[1..] == a[1..] + b;
      FirstNamedAppend(a[1..], b, tag);
    } else {
      assert a + b == b;
    }
  }

  /** The search lands on the first element with the tag. */
  lemma {:induction false} FirstNamedAt(elems: seq<Element>, tag: string, k: nat)
    requires k < |elems| && elems[k].tag == tag
    requires forall j :: 0 <= j < k ==> elems[j].tag != tag
    ensures FirstNamed(elems, tag) == Some(elems[k])
    decreases k
  {
    if k > 0 {
      FirstNamedAt(elems[1..], tag, k - 1);
    }
  }

  /** XMLElement::QueryIntAttribute: the target keeps its value unless the text reads as an integer. */
  function QueryInt(e: Element, name: string, current: int): int
  {
    var t := Attribute(e, name);
    if t.Some? && ScanInt(t.value).Some? then ScanInt(t.value).value else current
  }

  /** XMLElement::QueryBoolAttribute, with the same rule. */
  function QueryBool(e: Element, name: string, current: bool): bool
  {
    var t := Attribute(e, name);
    if t.Some? && ParseBool(t.value).Some? then ParseBool(t.value).value else current
  }

  /** XMLElement::QueryDoubleAttribute, with the same rule. */
  function QueryReal(f: RealFormat, e: Element, name: string, current: real): real
  {
    var t := Attribute(e, name);
    if t.Some? && f.read(t.value).Some? then f.read(t.value).value else current
  }

  lemma QueryIntOfSet(e: Element, name: string, value: int, current: int)
    ensures QueryInt(SetIntAttribute(e, name, value), name, current) == value
  {
    ScanIntToString(value);
  }

  lemma QueryBoolOfSet(e: Element, name: string, value: bool, current: bool)
    ensures QueryBool(SetBoolAttribute(e, name, value), name, current) == value
  {
    ParseBoolToString(value);
  }

  lemma QueryRealOfSet(f: RealFormat, e: Element, name: string, value: real, current: real)
    requires Faithful(f)
    ensures QueryReal(f, SetRealAttribute(f, e, name, value), name, current) == value
  {
    assert f.read(f.show(value)) == Some(value);
  }
}
