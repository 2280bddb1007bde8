/**
 * builders/ReferenceBuilder.h: the older reference facade. Its face, vertex
 * and edge builders behave as the service-layer ones (same constructors,
 * same field-by-field setters, of which it offers only the three-double
 * forms, and for edges only MidPoint), so the model uses those classes.
 * Its datum planes are bare feature references of type datum plane that
 * carry an ID and no frame.
 */
module BuildersReferenceBuilder {
  import opened Wrappers
  import opened Geometry
  import opened Features
  import opened ServiceReferenceBuilder
  import ServiceBuilderBase

  method Face(parentID: string, index: int) returns (b: RefFaceBuilder)
    ensures fresh(b) && b.Valid() && b.ref == RefFace(TopoFace, parentID, index, Zero, Zero, DefaultUDir, DefaultVDir)
  {
    b := new RefFaceBuilder(parentID, index);
  }

  method Vertex(parentID: string, index: int) returns (b: RefVertexBuilder)
    ensures fresh(b) && b.Valid() && b.ref == RefVertex(TopoVertex, parentID, index, Zero)
  {
    b := new RefVertexBuilder(parentID, index);
  }

  method Edge(parentID: string, index: int) returns (b: RefEdgeBuilder)
    ensures fresh(b) && b.Valid() && b.ref == RefEdge(TopoEdge, parentID, index, Zero, Zero, Zero)
  {
    b := new RefEdgeBuilder(parentID, index);
  }

  /** A bare feature reference of type datum plane with the given target. */
  function Plane(planeID: string): (r: Reference)
    ensures r.RefFeature? && r.refType == FeatureDatumPlane && r.targetFeatureID == planeID
  {
    RefFeature(NewRefFeature(FeatureDatumPlane).refType, planeID)
  }

  function XY(): (r: Reference)
    ensures r == RefFeature(FeatureDatumPlane, PlaneXY)
  {
    Plane(PlaneXY)
  }

  function YZ(): (r: Reference)
    ensures r == RefFeature(FeatureDatumPlane, PlaneYZ)
  {
    Plane(PlaneYZ)
  }

  function ZX(): (r: Reference)
    ensures r == RefFeature(FeatureDatumPlane, PlaneZX)
  {
    Plane(PlaneZX)
  }

  /**
   * Being bare feature references, these planes are never inspected by the
   * service layer's ValidateReference: a plane naming an ID the model does
   * not hold is accepted.
   */
  lemma {:induction false} PlaneRefsAreNeverRejected(planeID: string, fs: seq<Feature>)
    ensures ServiceBuilderBase.ReferenceAccepted(Some(Plane(planeID)), fs)
    ensures !ServiceBuilderBase.IsCheckedDatum(Plane(planeID))
  {
    assert Plane(planeID).RefFeature?;
  }
}
