/**
 * The underlying integer of every enum class of the data model
 * (static_cast<int>), which both codecs persist, and its inverse. The
 * enumerators count from 0 in declaration order.
 */
module EnumCodes {
  import opened Wrappers
  import opened Geometry
  import opened Features

  /** static_cast<int> of a constraint type. */
  function CodeOf(t: ConstraintType): int
  {
    match t
    case Horizontal => 0
    case Vertical => 1
    case Coincident => 2
    case Concentric => 3
    case Tangent => 4
    case Equal => 5
    case Parallel => 6
    case Perpendicular => 7
    case Dimensional => 8
    case OtherCode(c) => c
  }

  /** An OtherCode never holds the code of a named enumerator. */
  predicate Canonical(t: ConstraintType)
  {
    t.OtherCode? ==> !(0 <= t.code <= 8)
  }

  /** static_cast<ConstraintType> of an integer: every integer is kept as its code. */
  function TypeOfCode(c: int): (t: ConstraintType)
    ensures CodeOf(t) == c && Canonical(t)
  {
    if c == 0 then Horizontal
    else if c == 1 then Vertical
    else if c == 2 then Coincident
    else if c == 3 then Concentric
    else if c == 4 then Tangent
    else if c == 5 then Equal
    else if c == 6 then Parallel
    else if c == 7 then Perpendicular
    else if c == 8 then Dimensional
    else OtherCode(c)
  }

  /** A canonical type is restored from its code. */
  lemma TypeOfCodeOf(t: ConstraintType)
    requires Canonical(t)
    ensures TypeOfCode(CodeOf(t)) == t
  {
  }

  function AngleKindCode(k: AngleKind): int
  {
    match k
    case Single => 0
    case TwoWay => 1
    case Symmetric => 2
  }

  function AxisKindCode(k: AxisKind): int
  {
    match k
    case AxisSketchLine => 0
    case AxisExplicit => 1
    case AxisReference => 2
  }

  function UnitCode(u: UnitType): int
  {
    match u
    case Meter => 0
    case Centimeter => 1
    case Millimeter => 2
    case Inch => 3
    case Foot => 4
  }

  function BooleanOpCode(op: BooleanOp): int
  {
    match op
    case Boss => 0
    case Cut => 1
    case Merge => 2
  }

  /** Unknown is the enumerator the service-layer header appends after MidPlane. */
  function EndTypeCode(t: EndType): int
  {
    match t
    case Blind => 0
    case ThroughAll => 1
    case UpToNext => 2
    case UpToFace => 3
    case UpToVertex => 4
    case MidPlane => 5
    case Unknown => 6
  }

  function RefTypeCode(t: RefType): int
  {
    match t
    case FeatureDatumPlane => 0
    case FeatureDatumAxis => 1
    case FeatureDatumPoint => 2
    case FeatureWholeSketch => 3
    case TopoFace => 4
    case TopoEdge => 5
    case TopoVertex => 6
    case TopoSketchSeg => 7
  }

  /** The enumerator with a given code; None outside the declared range. */
  function AngleKindOfCode(c: int): (k: Option<AngleKind>)
    ensures k.Some? <==> 0 <= c < 3
    ensures k.Some? ==> AngleKindCode(k.value) == c
  {
    if c == 0 then Some(Single) else if c == 1 then Some(TwoWay)
    else if c == 2 then Some(Symmetric) else None
  }

  function AxisKindOfCode(c: int): (k: Option<AxisKind>)
    ensures k.Some? <==> 0 <= c < 3
    ensures k.Some? ==> AxisKindCode(k.value) == c
  {
    if c == 0 then Some(AxisSketchLine) else if c == 1 then Some(AxisExplicit)
    else if c == 2 then Some(AxisReference) else None
  }

  function UnitOfCode(c: int): (u: Option<UnitType>)
    ensures u.Some? <==> 0 <= c < 5
    ensures u.Some? ==> UnitCode(u.value) == c
  {
    if c == 0 then Some(Meter) else if c == 1 then Some(Centimeter)
    else if c == 2 then Some(Millimeter) else if c == 3 then Some(Inch)
    else if c == 4 then Some(Foot) else None
  }

  function BooleanOpOfCode(c: int): (op: Option<BooleanOp>)
    ensures op.Some? <==> 0 <= c < 3
    ensures op.Some? ==> BooleanOpCode(op.value) == c
  {
    if c == 0 then Some(Boss) else if c == 1 then Some(Cut)
    else if c == 2 then Some(Merge) else None
  }

  function EndTypeOfCode(c: int): (t: Option<EndType>)
    ensures t.Some? <==> 0 <= c < 7
    ensures t.Some? ==> EndTypeCode(t.value) == c
  {
    if c == 0 then Some(Blind) else if c == 1 then Some(ThroughAll)
    else if c == 2 then Some(UpToNext) else if c == 3 then Some(UpToFace)
    else if c == 4 then Some(UpToVertex) else if c == 5 then Some(MidPlane)
    else if c == 6 then Some(Unknown) else None
  }

  function RefTypeOfCode(c: int): (t: Option<RefType>)
    ensures t.Some? <==> 0 <= c < 8
    ensures t.Some? ==> RefTypeCode(t.value) == c
  {
    if c == 0 then Some(FeatureDatumPlane) else if c == 1 then Some(FeatureDatumAxis)
    else if c == 2 then Some(FeatureDatumPoint) else if c == 3 then Some(FeatureWholeSketch)
    else if c == 4 then Some(TopoFace) else if c == 5 then Some(TopoEdge)
    else if c == 6 then Some(TopoVertex) else if c == 7 then Some(TopoSketchSeg) else None
  }

  /** Every enumerator is restored from its code. */
  lemma CodesRoundTrip(a: AngleKind, x: AxisKind, u: UnitType, op: BooleanOp, t: EndType, r: RefType)
    ensures AngleKindOfCode(AngleKindCode(a)) == Some(a)
    ensures AxisKindOfCode(AxisKindCode(x)) == Some(x)
    ensures UnitOfCode(UnitCode(u)) == Some(u)
    ensures BooleanOpOfCode(BooleanOpCode(op)) == Some(op)
    ensures EndTypeOfCode(EndTypeCode(t)) == Some(t)
    ensures RefTypeOfCode(RefTypeCode(r)) == Some(r)
  {
  }
}
