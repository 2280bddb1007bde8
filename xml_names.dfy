/**
 * The text forms the XML codec writes for enumerations, and the registry of
 * reference kinds (src/TinyXMLSerializer.cpp). The registry's save and load
 * procedures live in XmlCodec and are chosen by the entry's RefType.
 */
module XmlNames {
  import opened Wrappers
  import opened Text
  import opened Geometry
  import opened Features

  function UnitTypeToString(u: UnitType): string
  {
    match u
    case Meter => "Meter"
    case Centimeter => "Centimeter"
    case Millimeter => "Millimeter"
    case Inch => "Inch"
    case Foot => "Foot"
  }

  /** Case-insensitive reading of a unit name; null or any other text gives none. */
  function UnitTypeFromString(text: Option<string>): Option<UnitType>
  {
    if text.None? then None
    else
      var value := ToLower(text.value);
      if value == "meter" then Some(Meter)
      else if value == "centimeter" then Some(Centimeter)
      else if value == "millimeter" then Some(Millimeter)
      else if value == "inch" then Some(Inch)
      else if value == "foot" then Some(Foot)
      else None
  }

  function BooleanOpToString(op: BooleanOp): string
  {
    match op
    case Boss => "BOSS"
    case Cut => "Cut"
    case Merge => "Merge"
  }

  function BooleanOpFromString(text: Option<string>): Option<BooleanOp>
  {
    if text.None? then None
    else
      var value := ToLower(text.value);
      if value == "boss" then Some(Boss)
      else if value == "cut" then Some(Cut)
      else if value == "merge" then Some(Merge)
      else None
  }

  /** The extra Unknown enumerator falls to the switch's "Unknown". */
  function EndTypeToString(t: EndType): string
  {
    match t
    case Blind => "Blind"
    case ThroughAll => "ThroughAll"
    case UpToNext => "UpToNext"
    case UpToFace => "UpToFace"
    case UpToVertex => "UpToVertex"
    case MidPlane => "MidPlane"
    case Unknown => "Unknown"
  }

  function EndTypeFromString(text: Option<string>): Option<EndType>
  {
    if text.None? then None
    else
      var value := ToLower(text.value);
      if value == "blind" then Some(Blind)
      else if value == "throughall" then Some(ThroughAll)
      else if value == "uptonext" then Some(UpToNext)
      else if value == "uptoface" then Some(UpToFace)
      else if value == "uptovertex" then Some(UpToVertex)
      else if value == "midplane" then Some(MidPlane)
      else None
  }

  lemma UnitNamesLower(u: UnitType)
    ensures ToLower(UnitTypeToString(u)) == UnitLowerName(u)
  {
    match u {
      case Meter => assert ToLower("Meter") == "meter";
      case Centimeter => assert ToLower("Centimeter") == "centimeter";
      case Millimeter => assert ToLower("Millimeter") == "millimeter";
      case Inch => assert ToLower("Inch") == "inch";
      case Foot => assert ToLower("Foot") == "foot";
    }
  }

  lemma BooleanOpNamesLower(op: BooleanOp)
    ensures ToLower(BooleanOpToString(op)) == BooleanOpLowerName(op)
  {
    match op {
      case Boss => assert ToLower("BOSS") == "boss";
      case Cut => assert ToLower("Cut") == "cut";
      case Merge => assert ToLower("Merge") == "merge";
    }
  }

  lemma EndTypeNamesLower(t: EndType)
    ensures ToLower(EndTypeToString(t)) == EndTypeLowerName(t)
  {
    match t {
      case Blind => assert ToLower("Blind") == "blind";
      case ThroughAll => assert ToLower("ThroughAll") == "throughall";
      case UpToNext => assert ToLower("UpToNext") == "uptonext";
      case UpToFace => assert ToLower("UpToFace") == "uptoface";
      case UpToVertex => assert ToLower("UpToVertex") == "uptovertex";
      case MidPlane => assert ToLower("MidPlane") == "midplane";
      case Unknown => assert ToLower("Unknown") == "unknown";
    }
  }

  function UnitLowerName(u: UnitType): string
  {
    match u
    case Meter => "meter"
    case Centimeter => "centimeter"
    case Millimeter => "millimeter"
    case Inch => "inch"
    case Foot => "foot"
  }

  function BooleanOpLowerName(op: BooleanOp): string
  {
    match op
    case Boss => "boss"
    case Cut => "cut"
    case Merge => "merge"
  }

  function EndTypeLowerName(t: EndType): string
  {
    match t
    case Blind => "blind"
    case ThroughAll => "throughall"
    case UpToNext => "uptonext"
    case UpToFace => "uptoface"
    case UpToVertex => "uptovertex"
    case MidPlane => "midplane"
    case Unknown => "unknown"
  }

  /**
   * A text reads as a unit exactly when, ignoring case, it is that unit's
   * name; null and every other text read as none.
   */
  lemma {:induction false} UnitTypeFromStringExactly(s: string, u: UnitType)
    ensures UnitTypeFromString(Some(s)) == Some(u) <==> ToLower(s) == ToLower(UnitTypeToString(u))
    ensures UnitTypeFromString(None) == None
  {
    UnitNamesLower(u);
  }

  lemma {:induction false} BooleanOpFromStringExactly(s: string, op: BooleanOp)
    ensures BooleanOpFromString(Some(s)) == Some(op) <==> ToLower(s) == ToLower(BooleanOpToString(op))
    ensures BooleanOpFromString(None) == None
  {
    BooleanOpNamesLower(op);
  }

  /** The same for end types, except that the extra Unknown enumerator is never read. */
  lemma {:induction false} EndTypeFromStringExactly(s: string, t: EndType)
    ensures t != Unknown ==>
      (EndTypeFromString(Some(s)) == Some(t) <==> ToLower(s) == ToLower(EndTypeToString(t)))
    ensures EndTypeFromString(Some(s)) != Some(Unknown)
    ensures EndTypeFromString(None) == None
  {
    EndTypeNamesLower(t);
  }

  /** Every unit, boolean operation and end type except Unknown reads back from its own name. */
  lemma {:induction false} EnumNamesRoundTrip(u: UnitType, op: BooleanOp, t: EndType)
    ensures UnitTypeFromString(Some(UnitTypeToString(u))) == Some(u)
    ensures BooleanOpFromString(Some(BooleanOpToString(op))) == Some(op)
    ensures t != Unknown ==> EndTypeFromString(Some(EndTypeToString(t))) == Some(t)
    ensures EndTypeFromString(Some(EndTypeToString(Unknown))) == None
  {
    UnitTypeFromStringExactly(UnitTypeToString(u), u);
    BooleanOpFromStringExactly(BooleanOpToString(op), op);
    EndTypeFromStringExactly(EndTypeToString(t), t);
    EndTypeNamesLower(Unknown);
  }

  /** Matching ignores case: a text and its lower-case form read the same way. */
  lemma {:induction false} EnumNamesIgnoreCase(s: string)
    ensures UnitTypeFromString(Some(s)) == UnitTypeFromString(Some(ToLower(s)))
    ensures BooleanOpFromString(Some(s)) == BooleanOpFromString(Some(ToLower(s)))
    ensures EndTypeFromString(Some(s)) == EndTypeFromString(Some(ToLower(s)))
  {
    ToLowerIdempotent(s);
  }

  // The reference registry

  /** One row of kRefSerializerEntries: the kind, its tag name and that name in lower case. */
  datatype RefEntry = RefEntry(refType: RefType, name: string, lowerName: string)

  const RefEntries: seq<RefEntry> := [
    RefEntry(FeatureDatumPlane, "Plane", "plane"),
    RefEntry(FeatureDatumAxis, "Axis", "axis"),
    RefEntry(FeatureDatumPoint, "Point", "point"),
    RefEntry(FeatureWholeSketch, "Sketch", "sketch"),
    RefEntry(TopoFace, "Face", "face"),
    RefEntry(TopoEdge, "Edge", "edge"),
    RefEntry(TopoVertex, "Vertex", "vertex"),
    RefEntry(TopoSketchSeg, "SketchSeg", "sketchseg")
  ]

  /** First entry of the list whose type is t. */
  function FindByType(entries: seq<RefEntry>, t: RefType): (r: Option<RefEntry>)
    ensures r.Some? ==> r.value in entries && r.value.refType == t
    ensures r.None? ==> forall e :: e in entries ==> e.refType != t
  {
    if entries == [] then None
    else if entries[0].refType == t then Some(entries[0])
    else FindByType(entries[1..], t)
  }

  /** First entry of the list whose lowerName is value. */
  function FindByLowerName(entries: seq<RefEntry>, value: string): (r: Option<RefEntry>)
    ensures r.Some? ==> r.value in entries && r.value.lowerName == value
    ensures r.None? ==> forall e :: e in entries ==> e.lowerName != value
  {
    if entries == [] then None
    else if entries[0].lowerName == value then Some(entries[0])
    else FindByLowerName(entries[1..], value)
  }

  function FindRefEntry(t: RefType): Option<RefEntry>
  {
    FindByType(RefEntries, t)
  }

  function FindRefEntryByName(value: string): Option<RefEntry>
  {
    FindByLowerName(RefEntries, value)
  }

  function RefTypeToString(t: RefType): string
  {
    var entry := FindRefEntry(t);
    if entry.Some? then entry.value.name else "Unknown"
  }

  function RefTypeFromString(text: Option<string>): Option<RefType>
  {
    if text.None? then None
    else
      var entry := FindRefEntryByName(ToLower(text.value));
      if entry.Some? then Some(entry.value.refType) else None
  }

  /** Index of t's row in the registry table. */
  function EntryIndex(t: RefType): (i: nat)
    ensures i < |RefEntries| && RefEntries[i].refType == t
  {
    match t
    case FeatureDatumPlane => 0
    case FeatureDatumAxis => 1
    case FeatureDatumPoint => 2
    case FeatureWholeSketch => 3
    case TopoFace => 4
    case TopoEdge => 5
    case TopoVertex => 6
    case TopoSketchSeg => 7
  }

  /** The registry has eight entries, one per RefType, with pairwise distinct types and names. */
  lemma RegistryDistinct()
    ensures |RefEntries| == 8
    ensures forall i, j :: 0 <= i < j < |RefEntries| ==>
      RefEntries[i].refType != RefEntries[j].refType &&
      RefEntries[i].name != RefEntries[j].name &&
      RefEntries[i].lowerName != RefEntries[j].lowerName
  {
  }

  /** Each entry's lowerName is its name in lower case. */
  lemma RegistryLowerNames()
    ensures forall i :: 0 <= i < |RefEntries| ==> RefEntries[i].lowerName == ToLower(RefEntries[i].name)
  {
    assert ToLower("Plane") == "plane";
    assert ToLower("Axis") == "axis";
    assert ToLower("Point") == "point";
    assert ToLower("Sketch") == "sketch";
    assert ToLower("Face") == "face";
    assert ToLower("Edge") == "edge";
    assert ToLower("Vertex") == "vertex";
    assert ToLower("SketchSeg") == "sketchseg";
  }

  /** Every RefType has an entry, so the "Unknown" fallback of RefTypeToString never fires. */
  lemma {:induction false} FindRefEntryTotal(t: RefType)
    ensures FindRefEntry(t) == Some(RefEntries[EntryIndex(t)])
    ensures RefTypeToString(t) == RefEntries[EntryIndex(t)].name != "Unknown"
  {
    RegistryDistinct();
  }

  /** A kind's name reads back as that kind, in any letter case. */
  lemma {:induction false} RefTypeNamesRoundTrip(t: RefType, s: string)
    ensures RefTypeFromString(Some(RefTypeToString(t))) == Some(t)
    ensures ToLower(s) == ToLower(RefTypeToString(t)) ==> RefTypeFromString(Some(s)) == Some(t)
  {
    FindRefEntryTotal(t);
    RegistryLowerNames();
    RegistryDistinct();
    var i := EntryIndex(t);
    assert FindRefEntryByName(RefEntries[i].lowerName) == Some(RefEntries[i]);
  }

  /** A text reads as a kind exactly when its lower-case form is one of the eight lowerNames. */
  lemma {:induction false} RefTypeFromStringExactly(s: string)
    ensures RefTypeFromString(Some(s)).Some? <==>
      ToLower(s) in ["plane", "axis", "point", "sketch", "face", "edge", "vertex", "sketchseg"]
    ensures RefTypeFromString(None).None?
  {
  }
}
