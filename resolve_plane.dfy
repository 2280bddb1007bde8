/**
 * test/SolidWorks/WritePartTest.cpp, ResolveReferencePlane: the SolidWorks
 * plane name a sketch's reference plane is selected by. The three standard
 * datum planes, when referenced through a plane reference, map to the
 * SolidWorks default planes; any other feature reference maps to the ID it
 * targets; a null or sub-topology reference maps to "UnknownPlane".
 */
module ResolvePlane {
  import opened Wrappers
  import opened Geometry
  import opened Features
  import BuildersReferenceBuilder

  const UnknownPlane: string := "UnknownPlane"
  const FrontPlane: string := "Front Plane"
  const RightPlane: string := "Right Plane"
  const TopPlane: string := "Top Plane"

  /** A plane reference whose target is one of the standard datum planes. */
  predicate IsStandardPlaneRef(r: Reference)
  {
    r.RefPlane? && IsStandardPlane(r.targetFeatureID)
  }

  /** The SolidWorks name of a standard datum plane. */
  function SolidWorksName(id: string): (name: string)
    requires IsStandardPlane(id)
    ensures name == FrontPlane <==> id == PlaneXY
    ensures name == RightPlane <==> id == PlaneYZ
    ensures name == TopPlane <==> id == PlaneZX
  {
    assert PlaneXY[10] == 'X' && PlaneYZ[10] == 'Y' && PlaneZX[10] == 'Z';
    if id == PlaneXY then FrontPlane else if id == PlaneYZ then RightPlane else TopPlane
  }

  /**
   * The name is never empty, and names a SolidWorks default plane exactly
   * when the reference is that standard plane or targets a feature of that
   * very name.
   */
  function ResolveReferencePlane(ref: Option<Reference>): (name: string)
    ensures name != ""
    ensures name == FrontPlane <==>
              ref.Some? && ((ref.value.RefPlane? && ref.value.targetFeatureID == PlaneXY) ||
                            (ref.value.IsFeatureRef() && ref.value.targetFeatureID == FrontPlane))
    ensures name == UnknownPlane <==>
              ref.None? || ref.value.IsSubTopo() || ref.value.targetFeatureID == "" || ref.value.targetFeatureID == UnknownPlane
  {
    assert PlaneXY[10] == 'X' && PlaneYZ[10] == 'Y' && PlaneZX[10] == 'Z';
    assert FrontPlane[0] == 'F' && RightPlane[0] == 'R' && TopPlane[0] == 'T' && UnknownPlane[0] == 'U';
    if ref.None? then UnknownPlane
    else
      var r := ref.value;
      if r.RefPlane? && r.targetFeatureID == PlaneXY then FrontPlane
      else if r.RefPlane? && r.targetFeatureID == PlaneYZ then RightPlane
      else if r.RefPlane? && r.targetFeatureID == PlaneZX then TopPlane
      else if r.IsFeatureRef() then (if r.targetFeatureID == "" then UnknownPlane else r.targetFeatureID)
      else UnknownPlane
  }

  /**
   * The cases of the resolution: a standard plane reference by its
   * SolidWorks name, any other feature reference by its target (or
   * "UnknownPlane" when empty), a sub-topology reference as unknown.
   */
  lemma {:induction false} ResolutionCases(r: Reference)
    ensures IsStandardPlaneRef(r) ==> ResolveReferencePlane(Some(r)) == SolidWorksName(r.targetFeatureID)
    ensures r.IsFeatureRef() && !IsStandardPlaneRef(r) ==>
              ResolveReferencePlane(Some(r)) == (if r.targetFeatureID == "" then UnknownPlane else r.targetFeatureID)
    ensures r.IsSubTopo() ==> ResolveReferencePlane(Some(r)) == UnknownPlane
  {
    assert r.IsFeatureRef() <==> !r.IsSubTopo();
  }

  /** The three standard planes get three different names, none of them "UnknownPlane". */
  lemma StandardNamesDistinct()
    ensures SolidWorksName(PlaneXY) != SolidWorksName(PlaneYZ)
    ensures SolidWorksName(PlaneYZ) != SolidWorksName(PlaneZX)
    ensures SolidWorksName(PlaneXY) != SolidWorksName(PlaneZX)
    ensures UnknownPlane !in {SolidWorksName(PlaneXY), SolidWorksName(PlaneYZ), SolidWorksName(PlaneZX)}
  {
    assert FrontPlane[0] == 'F' && RightPlane[0] == 'R' && TopPlane[0] == 'T' && UnknownPlane[0] == 'U';
  }

  /**
   * The datum planes the service-layer reference facade builds resolve to
   * the SolidWorks default planes, whatever frame they carry.
   */
  lemma {:induction false} ServicePlanesResolve(o: Point3D, x: Vector3D, y: Vector3D, n: Vector3D)
    ensures ResolveReferencePlane(Some(RefPlane(FeatureDatumPlane, PlaneXY, o, x, y, n))) == FrontPlane
    ensures ResolveReferencePlane(Some(RefPlane(FeatureDatumPlane, PlaneYZ, o, x, y, n))) == RightPlane
    ensures ResolveReferencePlane(Some(RefPlane(FeatureDatumPlane, PlaneZX, o, x, y, n))) == TopPlane
  {
    ResolutionCases(RefPlane(FeatureDatumPlane, PlaneYZ, o, x, y, n));
    ResolutionCases(RefPlane(FeatureDatumPlane, PlaneZX, o, x, y, n));
  }

  /**
   * The older facade's datum planes are bare feature references, so they
   * are not recognised and resolve to their raw IDs.
   */
  lemma {:induction false} BareStandardPlanesKeepTheirIds()
    ensures ResolveReferencePlane(Some(BuildersReferenceBuilder.XY())) == PlaneXY
    ensures ResolveReferencePlane(Some(BuildersReferenceBuilder.YZ())) == PlaneYZ
    ensures ResolveReferencePlane(Some(BuildersReferenceBuilder.ZX())) == PlaneZX
  {
    ResolutionCases(BuildersReferenceBuilder.XY());
    ResolutionCases(BuildersReferenceBuilder.YZ());
    ResolutionCases(BuildersReferenceBuilder.ZX());
  }

  /**
   * The names do not identify the reference: a feature whose ID is
   * "Front Plane" resolves like the XY datum plane, so a caller cannot tell
   * them apart.
   */
  lemma NamesCollide()
    ensures ResolveReferencePlane(Some(RefFeature(FeatureDatumPlane, FrontPlane))) ==
            ResolveReferencePlane(Some(RefPlane(FeatureDatumPlane, PlaneXY, Zero, Zero, Zero, Zero)))
  {
    assert FrontPlane[0] == 'F' && PlaneXY[0] == 'S';
  }
}
