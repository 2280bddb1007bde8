/**
 * service/builders/EndConditionBuilder.h: static factories for extrude end
 * conditions. Each starts from a default-constructed condition and sets the
 * type and, where it takes them, the depth or the reference and the offset.
 */
module ServiceEndConditions {
  import opened Wrappers
  import opened Geometry
  import opened Features

  /** An offset whose magnitude exceeds this counts as an offset. */
  const OffsetTolerance: real := 0.000000001

  /** The shared body of the four referenced factories. */
  function Referenced(endType: EndType, ref: Option<Reference>, offset: real): (c: EndCondition)
    ensures c == DefaultEndCondition().(endType := endType, referenceEntity := ref, offset := offset,
                                        hasOffset := Abs(offset) > OffsetTolerance)
  {
    EndCondition(endType, 0.0, offset, Abs(offset) > OffsetTolerance, ref, false, false)
  }

  /** A default condition of type Blind with the given depth. */
  function Blind(depth: real): (c: EndCondition)
    ensures c == DefaultEndCondition().(depth := depth)
    ensures c.endType == EndType.Blind
  {
    EndCondition(EndType.Blind, depth, 0.0, false, None, false, false)
  }

  /** A default condition whose type alone is ThroughAll. */
  function ThroughAll(): (c: EndCondition)
    ensures c == DefaultEndCondition().(endType := EndType.ThroughAll)
  {
    EndCondition(EndType.ThroughAll, 0.0, 0.0, false, None, false, false)
  }

  /** Up to a face (any reference): the reference, the offset, and hasOffset when |offset| > 1e-9. */
  function UpToFace(ref: Option<Reference>, offset: real): (c: EndCondition)
    ensures c == DefaultEndCondition().(endType := EndType.UpToFace, referenceEntity := ref, offset := offset,
                                        hasOffset := Abs(offset) > OffsetTolerance)
  {
    Referenced(EndType.UpToFace, ref, offset)
  }

  /** Up to a datum plane: the same condition as UpToFace, for a plane reference. */
  function UpToRefPlane(ref: Option<Reference>, offset: real): (c: EndCondition)
    requires ref.Some? ==> ref.value.RefPlane?
    ensures c == DefaultEndCondition().(endType := EndType.UpToFace, referenceEntity := ref, offset := offset,
                                        hasOffset := Abs(offset) > OffsetTolerance)
  {
    Referenced(EndType.UpToFace, ref, offset)
  }

  /** Up to a vertex (any reference), with the same offset rule. */
  function UpToVertex(ref: Option<Reference>, offset: real): (c: EndCondition)
    ensures c == DefaultEndCondition().(endType := EndType.UpToVertex, referenceEntity := ref, offset := offset,
                                        hasOffset := Abs(offset) > OffsetTolerance)
  {
    Referenced(EndType.UpToVertex, ref, offset)
  }

  /** Up to a datum point: the same condition as UpToVertex, for a point reference. */
  function UpToRefPoint(ref: Option<Reference>, offset: real): (c: EndCondition)
    requires ref.Some? ==> ref.value.RefPoint?
    ensures c == DefaultEndCondition().(endType := EndType.UpToVertex, referenceEntity := ref, offset := offset,
                                        hasOffset := Abs(offset) > OffsetTolerance)
  {
    Referenced(EndType.UpToVertex, ref, offset)
  }

  /** A default condition whose type alone is UpToNext. */
  function UpToNext(): (c: EndCondition)
    ensures c == DefaultEndCondition().(endType := EndType.UpToNext)
  {
    EndCondition(EndType.UpToNext, 0.0, 0.0, false, None, false, false)
  }

  /**
   * The conditions the factories produce: no flip flag is set, a reference
   * or an offset appears only on the referenced types, and hasOffset holds
   * exactly when the offset is outside the tolerance.
   */
  predicate FactoryMade(c: EndCondition)
  {
    !c.isFlip && !c.isFlipMaterialSide &&
    (c.hasOffset <==> Abs(c.offset) > OffsetTolerance) &&
    (c.endType != EndType.UpToFace && c.endType != EndType.UpToVertex ==> c.referenceEntity.None? && c.offset == 0.0) &&
    (c.endType != EndType.Blind ==> c.depth == 0.0)
  }

  /** Every factory yields such a condition, and none is of type Unknown or MidPlane. */
  lemma FactoriesAreFactoryMade(depth: real, ref: Option<Reference>, offset: real)
    ensures FactoryMade(Blind(depth)) && FactoryMade(ThroughAll()) && FactoryMade(UpToNext())
    ensures FactoryMade(UpToFace(ref, offset)) && FactoryMade(UpToVertex(ref, offset))
    ensures ref.Some? && ref.value.RefPlane? ==> FactoryMade(UpToRefPlane(ref, offset))
    ensures ref.Some? && ref.value.RefPoint? ==> FactoryMade(UpToRefPoint(ref, offset))
    ensures UpToFace(ref, offset).endType != EndType.Unknown && UpToVertex(ref, offset).endType != EndType.MidPlane
  {
  }

  /** A recorded offset is never zero, and an offset of zero is never recorded. */
  lemma {:induction false} HasOffsetMeansNonzero(c: EndCondition)
    requires FactoryMade(c)
    ensures c.hasOffset ==> c.offset != 0.0
    ensures c.offset == 0.0 ==> !c.hasOffset
  {
    assert Abs(0.0) == 0.0;
  }
}

/**
 * builders/EndConditionBuilder.h: the older factory set. UpToSurface is the
 * service-layer UpToFace under another name; there are no datum-plane or
 * datum-point variants.
 */
module BuildersEndConditions {
  import opened Wrappers
  import opened Geometry
  import opened Features
  import ServiceEndConditions

  function Blind(depth: real): (c: EndCondition)
    ensures c.endType == EndType.Blind && c.depth == depth
    ensures ServiceEndConditions.FactoryMade(c) && c.referenceEntity.None?
  {
    ServiceEndConditions.Blind(depth)
  }

  function ThroughAll(): (c: EndCondition)
    ensures c == DefaultEndCondition().(endType := EndType.ThroughAll)
  {
    ServiceEndConditions.ThroughAll()
  }

  /** Up to a face: type UpToFace, the reference, the offset, hasOffset when |offset| > 1e-9. */
  function UpToSurface(ref: Option<Reference>, offset: real): (c: EndCondition)
    ensures c.endType == EndType.UpToFace && c.referenceEntity == ref && c.offset == offset
    ensures c.hasOffset <==> Abs(offset) > ServiceEndConditions.OffsetTolerance
    ensures ServiceEndConditions.FactoryMade(c) && c.depth == 0.0
  {
    ServiceEndConditions.UpToFace(ref, offset)
  }

  /** Up to a vertex, with the same offset rule. */
  function UpToVertex(ref: Option<Reference>, offset: real): (c: EndCondition)
    ensures c.endType == EndType.UpToVertex && c.referenceEntity == ref && c.offset == offset
    ensures c.hasOffset <==> Abs(offset) > ServiceEndConditions.OffsetTolerance
    ensures ServiceEndConditions.FactoryMade(c) && c.depth == 0.0
  {
    ServiceEndConditions.UpToVertex(ref, offset)
  }

  function UpToNext(): (c: EndCondition)
    ensures c == DefaultEndCondition().(endType := EndType.UpToNext)
  {
    ServiceEndConditions.UpToNext()
  }
}
