/**
 * service/builders/ReferenceBuilder.h: one small builder per reference
 * class, each holding the reference it fills in, and the Ref facade that
 * creates them, including the three standard datum-plane frames. The point
 * and vector setters of service/builders/BuilderMacros.h overwrite one field
 * each; their template overloads convert their argument through the
 * adapters of core/TypeAdapters.h, which are the identity on Vec3, so one
 * setter with a Vec3 argument stands for both overloads.
 */
module ServiceReferenceBuilder {
  import opened Geometry
  import opened Features
  import XmlRefCodec

  class RefFaceBuilder {
    var ref: Reference

    ghost predicate Valid()
      reads this
    {
      ref.RefFace? && ref.refType == TopoFace
    }

    /** A default face with the given parent and topology index (0 when the caller omits it). */
    constructor (parentID: string, index: int)
      ensures Valid()
      ensures ref == RefFace(TopoFace, parentID, index, Zero, Zero, DefaultUDir, DefaultVDir)
    {
      var face := NewRefFace();
      ref := RefFace(face.refType, parentID, index, face.normal, face.centroid, face.uDir, face.vDir);
    }

    method Centroid(p: Point3D)
      requires Valid()
      modifies this
      ensures Valid() && ref == old(ref).(centroid := p)
    {
      ref := ref.(centroid := p);
    }

    method Normal(v: Vector3D)
      requires Valid()
      modifies this
      ensures Valid()
      ensures ref == RefFace(old(ref).refType, old(ref).parentFeatureID, old(ref).topologyIndex, v,
                             old(ref).centroid, old(ref).uDir, old(ref).vDir)
    {
      ref := RefFace(ref.refType, ref.parentFeatureID, ref.topologyIndex, v, ref.centroid, ref.uDir, ref.vDir);
    }

    method UDir(v: Vector3D)
      requires Valid()
      modifies this
      ensures Valid() && ref == old(ref).(uDir := v)
    {
      ref := ref.(uDir := v);
    }

    method VDir(v: Vector3D)
      requires Valid()
      modifies this
      ensures Valid() && ref == old(ref).(vDir := v)
    {
      ref := ref.(vDir := v);
    }
  }

  class RefVertexBuilder {
    var ref: Reference

    ghost predicate Valid()
      reads this
    {
      ref.RefVertex? && ref.refType == TopoVertex
    }

    constructor (parentID: string, index: int)
      ensures Valid() && ref == RefVertex(TopoVertex, parentID, index, Zero)
    {
      ref := RefVertex(TopoVertex, parentID, index, NewRefVertex().pos);
    }

    method Pos(p: Point3D)
      requires Valid()
      modifies this
      ensures Valid() && ref == old(ref).(pos := p)
    {
      ref := ref.(pos := p);
    }
  }

  class RefEdgeBuilder {
    var ref: Reference

    ghost predicate Valid()
      reads this
    {
      ref.RefEdge? && ref.refType == TopoEdge
    }

    constructor (parentID: string, index: int)
      ensures Valid() && ref == RefEdge(TopoEdge, parentID, index, Zero, Zero, Zero)
    {
      var edge := NewRefEdge();
      ref := RefEdge(edge.refType, parentID, index, edge.midPoint, edge.startPoint, edge.endPoint);
    }

    method StartPoint(p: Point3D)
      requires Valid()
      modifies this
      ensures Valid() && ref == old(ref).(startPoint := p)
    {
      ref := ref.(startPoint := p);
    }

    method EndPoint(p: Point3D)
      requires Valid()
      modifies this
      ensures Valid() && ref == old(ref).(endPoint := p)
    {
      ref := ref.(endPoint := p);
    }

    method MidPoint(p: Point3D)
      requires Valid()
      modifies this
      ensures Valid() && ref == old(ref).(midPoint := p)
    {
      ref := ref.(midPoint := p);
    }
  }

  class RefSketchBuilder {
    var ref: Reference

    ghost predicate Valid()
      reads this
    {
      ref.RefSketch? && ref.refType == FeatureWholeSketch
    }

    constructor (sketchID: string)
      ensures Valid() && ref == RefSketch(FeatureWholeSketch, sketchID)
    {
      ref := RefSketch(NewRefSketch().refType, sketchID);
    }
  }

  class RefPlaneBuilder {
    var ref: Reference

    ghost predicate Valid()
      reads this
    {
      ref.RefPlane? && ref.refType == FeatureDatumPlane
    }

    /** A default plane (every vector zero) targeting the given ID. */
    constructor (planeID: string)
      ensures Valid() && ref == RefPlane(FeatureDatumPlane, planeID, Zero, Zero, Zero, Zero)
    {
      var plane := NewRefPlane();
      ref := RefPlane(plane.refType, planeID, plane.origin, plane.xDir, plane.yDir, plane.normal);
    }

    method Origin(p: Point3D)
      requires Valid()
      modifies this
      ensures Valid()
      ensures ref == RefPlane(old(ref).refType, old(ref).targetFeatureID, p, old(ref).xDir, old(ref).yDir, old(ref).normal)
    {
      ref := RefPlane(ref.refType, ref.targetFeatureID, p, ref.xDir, ref.yDir, ref.normal);
    }

    method XDir(v: Vector3D)
      requires Valid()
      modifies this
      ensures Valid() && ref == old(ref).(xDir := v)
    {
      ref := ref.(xDir := v);
    }

    method YDir(v: Vector3D)
      requires Valid()
      modifies this
      ensures Valid() && ref == old(ref).(yDir := v)
    {
      ref := ref.(yDir := v);
    }

    method Normal(v: Vector3D)
      requires Valid()
      modifies this
      ensures Valid()
      ensures ref == RefPlane(old(ref).refType, old(ref).targetFeatureID, old(ref).origin, old(ref).xDir, old(ref).yDir, v)
    {
      ref := RefPlane(ref.refType, ref.targetFeatureID, ref.origin, ref.xDir, ref.yDir, v);
    }
  }

  class RefAxisBuilder {
    var ref: Reference

    ghost predicate Valid()
      reads this
    {
      ref.RefAxis? && ref.refType == FeatureDatumAxis
    }

    constructor (axisID: string)
      ensures Valid() && ref == RefAxis(FeatureDatumAxis, axisID, Zero, Zero)
    {
      var axis := NewRefAxis();
      ref := RefAxis(axis.refType, axisID, axis.origin, axis.direction);
    }

    method Origin(p: Point3D)
      requires Valid()
      modifies this
      ensures Valid() && ref == RefAxis(old(ref).refType, old(ref).targetFeatureID, p, old(ref).direction)
    {
      ref := RefAxis(ref.refType, ref.targetFeatureID, p, ref.direction);
    }

    method Direction(v: Vector3D)
      requires Valid()
      modifies this
      ensures Valid() && ref == old(ref).(direction := v)
    {
      ref := ref.(direction := v);
    }
  }

  class RefPointBuilder {
    var ref: Reference

    ghost predicate Valid()
      reads this
    {
      ref.RefPoint? && ref.refType == FeatureDatumPoint
    }

    constructor (pointID: string)
      ensures Valid() && ref == RefPoint(FeatureDatumPoint, pointID, Zero)
    {
      ref := RefPoint(NewRefPoint().refType, pointID, NewRefPoint().position);
    }

    method Position(p: Point3D)
      requires Valid()
      modifies this
      ensures Valid() && ref == old(ref).(position := p)
    {
      ref := ref.(position := p);
    }
  }

  class RefSketchSegBuilder {
    var ref: Reference

    ghost predicate Valid()
      reads this
    {
      ref.RefSketchSeg? && ref.refType == TopoSketchSeg
    }

    constructor (parentSketchID: string, segmentLocalID: string, index: int)
      ensures Valid() && ref == RefSketchSeg(TopoSketchSeg, parentSketchID, index, segmentLocalID)
    {
      ref := RefSketchSeg(NewRefSketchSeg().refType, parentSketchID, index, segmentLocalID);
    }
  }

  // The Ref facade

  method Face(parentID: string, index: int) returns (b: RefFaceBuilder)
    ensures fresh(b) && b.Valid() && b.ref == RefFace(TopoFace, parentID, index, Zero, Zero, DefaultUDir, DefaultVDir)
  {
    b := new RefFaceBuilder(parentID, index);
  }

  method Vertex(parentID: string, index: int) returns (b: RefVertexBuilder)
    ensures fresh(b) && b.Valid() && b.ref == RefVertex(TopoVertex, parentID, index, Zero)
  {
    b := new RefVertexBuilder(parentID, index);
  }

  method Edge(parentID: string, index: int) returns (b: RefEdgeBuilder)
    ensures fresh(b) && b.Valid() && b.ref == RefEdge(TopoEdge, parentID, index, Zero, Zero, Zero)
  {
    b := new RefEdgeBuilder(parentID, index);
  }

  method Plane(planeID: string) returns (b: RefPlaneBuilder)
    ensures fresh(b) && b.Valid() && b.ref == RefPlane(FeatureDatumPlane, planeID, Zero, Zero, Zero, Zero)
  {
    b := new RefPlaneBuilder(planeID);
  }

  method Axis(axisID: string) returns (b: RefAxisBuilder)
    ensures fresh(b) && b.Valid() && b.ref == RefAxis(FeatureDatumAxis, axisID, Zero, Zero)
  {
    b := new RefAxisBuilder(axisID);
  }

  method Point(pointID: string) returns (b: RefPointBuilder)
    ensures fresh(b) && b.Valid() && b.ref == RefPoint(FeatureDatumPoint, pointID, Zero)
  {
    b := new RefPointBuilder(pointID);
  }

  method Sketch(sketchID: string) returns (b: RefSketchBuilder)
    ensures fresh(b) && b.Valid() && b.ref == RefSketch(FeatureWholeSketch, sketchID)
  {
    b := new RefSketchBuilder(sketchID);
  }

  method SketchSegment(parentSketchID: string, segmentLocalID: string, index: int) returns (b: RefSketchSegBuilder)
    ensures fresh(b) && b.Valid() && b.ref == RefSketchSeg(TopoSketchSeg, parentSketchID, index, segmentLocalID)
  {
    b := new RefSketchSegBuilder(parentSketchID, segmentLocalID, index);
  }

  /** The XY datum plane: x (1,0,0), y (0,1,0), normal (0,0,1), at the origin. */
  method XY() returns (b: RefPlaneBuilder)
    ensures fresh(b) && b.Valid()
    ensures b.ref == RefPlane(FeatureDatumPlane, PlaneXY, Vec3(0.0, 0.0, 0.0),
                              Vec3(1.0, 0.0, 0.0), Vec3(0.0, 1.0, 0.0), Vec3(0.0, 0.0, 1.0))
  {
    b := new RefPlaneBuilder(PlaneXY);
    b.Origin(Zero);
    b.XDir(AxisX);
    b.YDir(AxisY);
    b.Normal(PlaneXYNormal);
  }

  /** The YZ datum plane: x (0,1,0), y (0,0,1), normal (1,0,0), at the origin. */
  method YZ() returns (b: RefPlaneBuilder)
    ensures fresh(b) && b.Valid()
    ensures b.ref == RefPlane(FeatureDatumPlane, PlaneYZ, Vec3(0.0, 0.0, 0.0),
                              Vec3(0.0, 1.0, 0.0), Vec3(0.0, 0.0, 1.0), Vec3(1.0, 0.0, 0.0))
  {
    b := new RefPlaneBuilder(PlaneYZ);
    b.Origin(Zero);
    b.XDir(AxisY);
    b.YDir(AxisZ);
    b.Normal(PlaneYZNormal);
  }

  /** The ZX datum plane: x (0,0,1), y (1,0,0), normal (0,1,0), at the origin. */
  method ZX() returns (b: RefPlaneBuilder)
    ensures fresh(b) && b.Valid()
    ensures b.ref == RefPlane(FeatureDatumPlane, PlaneZX, Vec3(0.0, 0.0, 0.0),
                              Vec3(0.0, 0.0, 1.0), Vec3(1.0, 0.0, 0.0), Vec3(0.0, 1.0, 0.0))
  {
    b := new RefPlaneBuilder(PlaneZX);
    b.Origin(Zero);
    b.XDir(AxisZ);
    b.YDir(AxisX);
    b.Normal(PlaneZXNormal);
  }

  /**
   * For each standard frame the stored Y direction is the one the XML
   * decoder reconstructs from the normal and the X direction, so the frame
   * survives a save that drops YDir.
   */
  lemma {:induction false} XYFrameReconstructs()
    ensures XmlRefCodec.ComputePlaneYAxis(Vec3(0.0, 0.0, 1.0), Vec3(1.0, 0.0, 0.0)) == Vec3(0.0, 1.0, 0.0)
  {
    XYFrameYDir();
  }

  lemma {:induction false} YZFrameReconstructs()
    ensures XmlRefCodec.ComputePlaneYAxis(Vec3(1.0, 0.0, 0.0), Vec3(0.0, 1.0, 0.0)) == Vec3(0.0, 0.0, 1.0)
  {
    YZFrameYDir();
  }

  lemma {:induction false} ZXFrameReconstructs()
    ensures XmlRefCodec.ComputePlaneYAxis(Vec3(0.0, 1.0, 0.0), Vec3(0.0, 0.0, 1.0)) == Vec3(1.0, 0.0, 0.0)
  {
    ZXFrameYDir();
  }
}
