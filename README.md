# CADExchange core in Dafny

CADExchange keeps a CAD part's feature history in memory. A part is a list of
sketches, extrudes and revolves. Features point at one another through
references: to datum planes, axes and points, to whole sketches and sketch
segments, and to faces, edges and vertices of other features. Around that data
model the library has a container with lookup indexes, three generations of
builders that create features, read-only accessors with documented defaults,
and two codecs: cereal field lists and a human-readable XML format. This
project models those parts and proves what they promise and what they lose.

The modules follow the source:

- **Data model.** `Features` holds every struct of `include/UnifiedFeatures.h` as a
  tagged union with its constructor defaults. `Geometry` has points and vectors,
  tolerance equality, cross and dot products, normalisation and the standard
  datum IDs with plane and axis matching. `EnumCodes` gives the enums' integer
  codes. `TypeAdapters` converts user point types.
- **Containers.** `ModelIndex` holds the ID and external-ID indexes and the
  validation report as functions of the feature list. `CoreModel` and
  `LegacyModel` are the two `UnifiedModel` classes. Each keeps its indexes equal
  to those functions, where the last insertion wins.
- **Builders.**
  - `Ids` and `LocalIds` are the counters.
  - The service layer: `ServiceBuilderBase`, `ServiceSketchBuilder`,
    `ServiceExtrudeBuilder`, `ServiceRevolveBuilder`, `ServiceEndConditions` and
    `ServiceReferenceBuilder`.
  - The middle layer: `BuildersExtrudeBuilder`, `BuildersEndConditions` and
    `BuildersReferenceBuilder`.
  - The oldest public headers: `IncludeBuilderBase`, `IncludeSketchBuilder` and
    `IncludeExtrudeBuilder`.
  - Builders are classes over the model they add to. A rejected call reports its
    exception as an error status and leaves the state as it was.
- **Accessors.** `ReferenceAccessors`, `FeatureAccessors`, `SegmentAccessors`,
  `SketchAccessors`, `ExtrudeAccessors`, `RevolveAccessors` and
  `ModelAccessors`.
- **Codecs.**
  - cereal: `FieldLists`, `FieldFeatures` and `FieldModelCodec`.
  - XML: `Xml`, `Text`, `XmlTriples`, `XmlNames`, `XmlRefCodec`,
    `XmlSketchCodec`, `XmlFeatureCodec` and `XmlModelCodec`.
  - The attribute-map decoder is `ReferenceFactory`.
  - Each codec comes with a "survivor" function: the value a save then a load
    gives back. It is proved equal to what the round trip produces.
- **Example and test routines.**
  - `DependencyGraph` and `RebuildOrder` model the dependency analysis of the
    part reconstruction demo. The rebuild order is proved to respect every
    dependency, and to be complete unless a pass stalls. A stall is proved to
    list exactly the blocked features.
  - `ResolvePlane` models the SolidWorks test's plane-name mapping.

Coordinates are reals. Floating-point text is a pair of functions passed in
(a `RealFormat`). The round-trip lemmas require that pair to be faithful.
Platform string conversion is a function parameter. Null pointers,
`std::optional` values and thrown exceptions become `Option` and `Result`
values.

## Model

| member | source | states |
|---|---|---|
| Text.ToLower | src/TinyXMLSerializer.cpp:43-48 | the result has the input's length and each character lowered as std::tolower does |
| Text.ToLowerIdempotent | src/TinyXMLSerializer.cpp:43-48 | lowering an already lowered name changes nothing, so matching a lowered name is stable |
| Text.NatToString | include/FeatureBuilderBase.h:19-20 | std::to_string of a count is a non-empty string of decimal digits, at least two for 10 and above |
| Text.IntToString | src/TinyXMLSerializer.cpp:320 | an integer attribute such as TopologyIndex is written as non-empty text |
| Text.ParseNat | src/TinyXMLSerializer.cpp:331 | the value of a digit run: reading succeeds exactly on a non-empty string of digits |
| Text.SkipSpace | src/TinyXMLSerializer.cpp:331 | the text QueryIntAttribute scans is the input without its leading white space, and only white space is dropped |
| Text.DigitRun | src/TinyXMLSerializer.cpp:331 | "%d" reads the longest prefix of digits: all digits, and the next character is not one |
| Text.HexRun | src/TinyXMLSerializer.cpp:331 | "%x" reads the longest prefix of hexadecimal digits |
| Text.FromUnsigned32 | src/TinyXMLSerializer.cpp:331 | a "%x" value stored into an int wraps to the 32-bit range and agrees with it modulo 2^32 |
| Text.ScanDecimal | src/TinyXMLSerializer.cpp:331 | "%d" succeeds exactly when at least one digit follows the optional sign |
| Text.ScanInt | src/TinyXMLSerializer.cpp:331 | after white space, a 0x prefix reads hexadecimal (and fails with no digit after it), anything else reads "%d" (also lines 351, 368, 385, 791) |
| Text.ScanIntOfStrict | src/TinyXMLSerializer.cpp:331 | every text the strict reader accepts is read by QueryIntAttribute as the same number |
| Text.ScanIntToString | src/TinyXMLSerializer.cpp:320-331 | a written TopologyIndex reads back as itself through QueryIntAttribute |
| Text.ScanIntLenient | src/TinyXMLSerializer.cpp:331 | " 12", "+12", "12abc", "-3x" and "0x1F" are read as 12, 12, 12, -3 and 31; "abc", "", "- 1" and "0x" give no value |
| Text.ParseNatToString | src/TinyXMLSerializer.cpp:320-331 | a written natural reads back as itself |
| Text.ParseIntToString | src/TinyXMLSerializer.cpp:320-331 | a written TopologyIndex, negative ones included, reads back as itself |
| Text.NatToStringInjective | include/FeatureBuilderBase.h:17-21 | distinct counter values give distinct texts, the basis of distinct builder IDs |
| Text.ParseBoolToString | src/TinyXMLSerializer.cpp:464-724 | a written Suppressed or Construction flag reads back as itself |
| Geometry.ApproxEqualReflexiveSymmetric | core/UnifiedTypes.h:42-46 | point equality within Epsilon per component is reflexive and symmetric |
| Geometry.ApproxEqualNotTransitive | core/UnifiedTypes.h:42-46 | point equality is not transitive: (0,0,0)≈(6e-7,0,0)≈(1.2e-6,0,0) but the ends differ |
| Geometry.CrossOrthogonal | core/UnifiedTypes.h:69-72 | the cross product is orthogonal to both operands |
| Geometry.CrossAntiCommutative | core/UnifiedTypes.h:69-72 | swapping the operands negates the cross product |
| Geometry.Sqrt | core/UnifiedTypes.h:55 | the root a vector is divided by is non-negative, zero at zero, positive for positive input, one at one; no comparison uses it |
| Geometry.SquareMonotone | core/UnifiedTypes.h:55-56 | for non-negative reals, a < b exactly when a * a < b * b |
| Geometry.SquaredGuardExact | core/UnifiedTypes.h:55-56 | comparing the squared length with a squared bound decides exactly what comparing the true length with the bound decides |
| Geometry.Normalized | core/UnifiedTypes.h:54-61 | a vector whose length is at most Epsilon (squared length at most Epsilon squared) is left as it is; a longer one is divided by its length |
| Geometry.NearZeroKept | core/UnifiedTypes.h:54-61 | vectors of length 1e-7 and 9.99e-7 are left unchanged |
| Geometry.NormalizedOfUnit | core/UnifiedTypes.h:54-61 | normalising a unit vector changes nothing |
| Geometry.NormalizedNeg | core/UnifiedTypes.h:54-61 | normalising commutes with negation |
| Geometry.DotNeg | core/UnifiedTypes.h:100-102 | the dot product is symmetric and flips sign with either operand |
| Geometry.IsParallelNeg | core/UnifiedTypes.h:107-113 | the parallel test is symmetric and blind to the sign of either vector |
| Geometry.UnitIsParallelToItself | core/UnifiedTypes.h:107-113 | a unit vector is parallel to itself and to its negation |
| Geometry.XYFrameYDir | src/TinyXMLSerializer.cpp:240-244 | normalize(cross(normal, xDir)) rebuilds Y = (0,1,0) for the XY frame |
| Geometry.YZFrameYDir | src/TinyXMLSerializer.cpp:240-244 | it rebuilds Y = (0,0,1) for the YZ frame |
| Geometry.ZXFrameYDir | src/TinyXMLSerializer.cpp:240-244 | it rebuilds Y = (1,0,0) for the ZX frame |
| Geometry.StandardPlaneIdsDistinct | core/UnifiedTypes.h:79-81 | the three standard plane IDs differ |
| Geometry.MatchPlane | core/UnifiedTypes.h:120-132 | the result is the first of XY, YZ, ZX whose normal is parallel to the input, tried in that order, or none; a vector no longer than Epsilon matches none |
| Geometry.MatchAxis | core/UnifiedTypes.h:136-148 | the result is the first of X, Y, Z axes parallel to the input, tried in that order, or none; a vector no longer than Epsilon matches none |
| Geometry.MatchPlaneNeg | core/UnifiedTypes.h:120-132 | a normal and its negation match the same plane |
| Geometry.MatchAxisNeg | core/UnifiedTypes.h:136-148 | a direction and its negation match the same axis |
| Geometry.MatchPlaneOfXYNormals | core/UnifiedTypes.h:120-123 | (0,0,1) and (0,0,-1) both match the XY plane |
| Geometry.MatchAxisOfStandardAxes | core/UnifiedTypes.h:136-139 | the X axis matches STD_AXIS_X, and the Z axis and its negation match alike |
| Geometry.MultipleIsParallel | core/UnifiedTypes.h:107-113 | any multiple longer than Epsilon of a unit vector, either sign, is parallel to it |
| Geometry.OrthogonalNotParallel | core/UnifiedTypes.h:107-113 | orthogonal vectors are never parallel |
| Geometry.MatchPlaneOfMultiples | core/UnifiedTypes.h:120-132 | any multiple longer than Epsilon of (0,0,1), (1,0,0) or (0,1,0) matches XY, YZ or ZX respectively |
| Geometry.MatchAxisOfMultiples | core/UnifiedTypes.h:136-148 | any multiple longer than Epsilon of (1,0,0), (0,1,0) or (0,0,1) matches the X, Y or Z axis respectively |
| Features.NewRefFeature | include/UnifiedFeatures.h:50-54 | a feature reference has the RefType it is given and an empty target ID |
| Features.DefaultRefFeature | include/UnifiedFeatures.h:53 | with the default argument it is a datum-plane reference with an empty target |
| Features.NewRefPlane | include/UnifiedFeatures.h:63-70 | a plane reference is typed FEATURE_DATUM_PLANE, targets "" and has a zero origin and zero frame |
| Features.NewRefSketch | include/UnifiedFeatures.h:72-74 | a sketch reference is typed FEATURE_WHOLE_SKETCH and targets "" |
| Features.NewRefAxis | service/builders/ReferenceBuilder.h:193-196 | an axis reference is typed FEATURE_DATUM_AXIS and targets "" |
| Features.NewRefPoint | service/builders/ReferenceBuilder.h:222-225 | a point reference is typed FEATURE_DATUM_POINT and targets "" |
| Features.NewRefFace | include/UnifiedFeatures.h:56-61 | a face reference has no parent, topology index -1, zero normal and centroid, uDir (1,0,0) and vDir (0,1,0) (also lines 76-83) |
| Features.NewRefEdge | include/UnifiedFeatures.h:85-89 | an edge reference has no parent, topology index -1 and zero points |
| Features.NewRefVertex | include/UnifiedFeatures.h:91-95 | a vertex reference has no parent, topology index -1 and a zero position |
| Features.NewRefSketchSeg | include/UnifiedFeatures.h:97-101 | a sketch-segment reference has no parent, topology index -1 and an empty segment ID |
| Features.NewLine | include/UnifiedFeatures.h:106-117 | a new line is a LINE segment with an empty local ID, not construction geometry |
| Features.NewCircle | include/UnifiedFeatures.h:119-123 | a new circle is a CIRCLE segment with radius 0 |
| Features.NewArc | include/UnifiedFeatures.h:125-132 | a new arc is an ARC segment with radius and both angles 0, counter-clockwise |
| Features.NewPoint | include/UnifiedFeatures.h:134-137 | a new point is a POINT segment with an empty local ID |
| Features.DefaultEndCondition | include/UnifiedFeatures.h:184-199 | an end condition starts Blind with depth and offset 0, no offset, no reference and no flips |
| Features.DefaultRevolveAxis | include/UnifiedFeatures.h:217-223 | a revolve axis starts Explicit with no sketch line, no reference, zero origin and direction |
| Features.NewSketch | include/UnifiedFeatures.h:23-29 | a new sketch has empty ID, name and external ID, is not suppressed, has no plane, segments or constraints (also lines 161-165) |
| Features.NewExtrude | include/UnifiedFeatures.h:204-212 | a new extrude has no profile, direction (0,0,1), operation BOSS, the default first end condition and no second, draft or thin wall |
| Features.NewRevolve | include/UnifiedFeatures.h:228-238 | a new revolve has an empty profile ID, the default axis, angle kind Single and both angles 0 |
| Features.NewFeature | include/UnifiedFeatures.h:23-29 | a new feature of any kind is of that kind with the base defaults, not suppressed |
| Features.ConstructorsAreWellTyped | include/UnifiedFeatures.h:50-101 | every reference constructor fixes the RefType matching its class |
| EnumCodes.TypeOfCode | src/TinyXMLSerializer.cpp:791-792 | casting any integer to a constraint type keeps that integer as its code, in canonical form |
| EnumCodes.TypeOfCodeOf | src/TinyXMLSerializer.cpp:521 | a written constraint type is restored by the cast on load (also line 792) |
| EnumCodes.AngleKindOfCode | serialization/UnifiedSerialization.h:261 | an angle-kind code names an enumerator exactly when it is in 0..2, and that one has the code |
| EnumCodes.AxisKindOfCode | serialization/UnifiedSerialization.h:247 | an axis-kind code names an enumerator exactly in 0..2 |
| EnumCodes.UnitOfCode | serialization/UnifiedSerialization.h:274 | a unit code names an enumerator exactly in 0..4 |
| EnumCodes.BooleanOpOfCode | serialization/UnifiedSerialization.h:236 | an operation code names an enumerator exactly in 0..2 |
| EnumCodes.EndTypeOfCode | serialization/UnifiedSerialization.h:202 | an end-condition type code names an enumerator exactly in 0..6 |
| EnumCodes.RefTypeOfCode | serialization/UnifiedSerialization.h:47 | a RefType code names an enumerator exactly in 0..7 |
| EnumCodes.CodesRoundTrip | serialization/UnifiedSerialization.h:47-274 | every enumerator written as its integer is read back as itself |
| Ids.GeneratedId | service/builders/StringHelper.h:18-22 | a generated ID is "FB-" followed by the decimal counter value |
| Ids.GeneratedIdInjective | service/builders/StringHelper.h:16-22 | two generated IDs are equal exactly when they came from the same counter value |
| Ids.IdCounter.constructor | service/builders/StringHelper.h:19 | a counter starts at 0 |
| Ids.IdCounter.Generate | service/builders/StringHelper.h:18-22 | each call raises the counter by one and names the ID after the new value, so the first ID is "FB-1" |
| Ids.LaterIdsDiffer | service/builders/StringHelper.h:18-22 | an ID handed out earlier differs from every ID handed out later by the same counter |
| Ids.ToUtf8 | service/builders/StringHelper.h:30-43 | the empty wide string converts to the empty string; any other goes to the platform converter |
| Ids.ToUtf8Pointer | service/builders/StringHelper.h:48-58 | a null pointer converts to the empty string; any other pointer converts as its string does |
| Ids.ToWide | service/builders/StringHelper.h:66-77 | the empty string converts to the empty wide string; any other goes to the platform converter |
| ModelIndex.LastWithId | core/UnifiedModel.h:38-47 | the position of the most recently added feature with the ID, or none when no feature has it |
| ModelIndex.LastWithExternalId | core/UnifiedModel.h:44-46 | the position of the most recently added feature with the external ID, or none |
| ModelIndex.IndexOfIsLast | core/UnifiedModel.h:38-60 | the ID index holds exactly the IDs of the list, each mapped to the last feature added with it |
| ModelIndex.ExternalIndexOfIsLast | core/UnifiedModel.h:44-46 | the external index holds exactly the non-empty external IDs, each mapped to the last feature with it (also lines 69-75) |
| ModelIndex.FirstWithName | core/UnifiedModel.h:83-90 | the position of the first feature with the name, or none when no feature has it |
| ModelIndex.FirstWithId | core/UnifiedModel.h:96-103 | the position of the first feature with the ID, or none |
| ModelIndex.FirstWithNameAt | core/UnifiedModel.h:83-90 | a name match with none before it is what the name scan finds |
| ModelIndex.FirstWithIdAt | core/UnifiedModel.h:96-103 | an ID match with none before it is what the index scan finds |
| ModelIndex.LastWithIdAt | core/UnifiedModel.h:38-60 | an ID match with none after it is what the ID index finds |
| ModelIndex.IdLookupsAgree | core/UnifiedModel.h:55-60 | the first-match scan and the index find an ID in the same lists, and the same feature when IDs are unique (also lines 96-103) |
| ModelIndex.AddedIsFound | core/UnifiedModel.h:38-47 | after adding a feature its ID and non-empty external ID find it, and every other ID finds what it found before |
| ModelIndex.SameKeysSameLookups | core/UnifiedModel.h:55-103 | lists that agree on IDs and names answer all three lookups alike |
| ModelIndex.SketchLookupsFindSketches | core/UnifiedModel.h:113-136 | a profile found by ID or external ID is a sketch of the list carrying that ID |
| ModelIndex.AddedSketchIsFound | core/UnifiedModel.h:38-47 | a sketch just added is the profile its ID and non-empty external ID find (also lines 113-136) |
| ModelIndex.EmptyIdCount | core/UnifiedModel.h:164-175 | the number of features with an empty ID is zero exactly when no feature has one |
| ModelIndex.EmptyIdErrors | core/UnifiedModel.h:169 | n copies of the empty-ID message |
| ModelIndex.Loaded | src/TinyXMLSerializer.cpp:600-639 | a null load adds nothing, a loaded feature adds itself |
| ModelIndex.AppendLoaded | src/TinyXMLSerializer.cpp:600-639 | one AddFeature step of the load loop appends what was loaded |
| CoreModel.UnifiedModel.constructor | core/UnifiedModel.h:29 | the default model is in metres with no name and no features, its indexes consistent |
| CoreModel.UnifiedModel.WithUnit | core/UnifiedModel.h:30-31 | the two-argument constructor stores the unit and name and no features |
| CoreModel.UnifiedModel.CopyOf | core/UnifiedModel.h:24-183 | the implicit copy has the same unit, name and features, and consistent indexes when the original has |
| CoreModel.UnifiedModel.AddFeature | core/UnifiedModel.h:38-47 | a null feature changes nothing; any other is appended and the indexes stay consistent; unit and name stay |
| CoreModel.UnifiedModel.GetFeature | core/UnifiedModel.h:55-60 | the last feature added with the ID, or null exactly when no feature has it |
| CoreModel.UnifiedModel.GetFeatureByExternalID | core/UnifiedModel.h:69-75 | the last feature with the non-empty external ID, or null |
| CoreModel.UnifiedModel.GetFeatureIdByName | core/UnifiedModel.h:83-90 | the ID of the first feature with the name, or "" when there is none |
| CoreModel.UnifiedModel.GetFeatureIndexByID | core/UnifiedModel.h:96-103 | the position of the first feature with the ID, or -1 exactly when none has it |
| CoreModel.UnifiedModel.GetFeatureAs | core/UnifiedModel.h:113-121 | the feature GetFeature finds when it is of the requested kind, else null |
| CoreModel.UnifiedModel.GetFeatureByExternalIDAs | core/UnifiedModel.h:128-136 | the feature GetFeatureByExternalID finds when it is of the requested kind, else null |
| CoreModel.UnifiedModel.Clear | core/UnifiedModel.h:155-159 | all features and both indexes are dropped; unit and name stay |
| CoreModel.UnifiedModel.Validate | core/UnifiedModel.h:164-175 | one error per empty-ID feature, valid exactly when there is none, no warnings |
| LegacyModel.UnifiedModel.constructor | include/UnifiedModel.h:26 | the default model is in metres with no name and no features |
| LegacyModel.UnifiedModel.AddFeature | include/UnifiedModel.h:33-42 | a null feature changes nothing; any other is appended and indexed |
| LegacyModel.UnifiedModel.GetFeature | include/UnifiedModel.h:50-55 | the last feature added with the ID, or null |
| LegacyModel.UnifiedModel.GetFeatureByExternalID | include/UnifiedModel.h:63-70 | the last feature with the non-empty external ID, or null |
| LegacyModel.UnifiedModel.GetFeatureAs | include/UnifiedModel.h:79-88 | the found feature when it is of the requested kind, else null |
| LegacyModel.UnifiedModel.GetFeatureByExternalIDAs | include/UnifiedModel.h:93-103 | the feature found by external ID when it is of the requested kind, else null |
| LegacyModel.UnifiedModel.Clear | include/UnifiedModel.h:122-126 | all features and both indexes are dropped; unit and name stay |
| LegacyModel.UnifiedModel.Validate | include/UnifiedModel.h:131-142 | one error per empty-ID feature, valid exactly when there is none, no warnings |
| FieldLists.LoadTriple | serialization/UnifiedSerialization.h:27-38 | a triple loads only from a node that a saved point or vector could be |
| FieldLists.TripleRoundTrip | serialization/UnifiedSerialization.h:27-38 | a point or vector written as x, y, z is restored exactly |
| FieldLists.RefFieldList | serialization/UnifiedSerialization.h:46-116 | each reference writes its base class fields first, then its own, under the listed names |
| FieldLists.StoredRef | serialization/UnifiedSerialization.h:46-116 | after a save and a load a reference keeps its RefType and class; unlisted fields are back at their defaults |
| FieldLists.PlaneRoundTrip | serialization/UnifiedSerialization.h:70-75 | a plane reference, all of whose fields are listed, is restored exactly |
| FieldLists.FaceRoundTrip | serialization/UnifiedSerialization.h:87-91 | a face reference is restored in stored form |
| FieldLists.EdgeRoundTrip | serialization/UnifiedSerialization.h:96-99 | an edge reference is restored in stored form |
| FieldLists.VertexRoundTrip | serialization/UnifiedSerialization.h:104-107 | a vertex reference is restored exactly |
| FieldLists.RefRoundTrip | serialization/UnifiedSerialization.h:46-116 | every registered reference loads back, by its class name, as its stored form |
| FieldLists.OptRefRoundTrip | serialization/UnifiedSerialization.h:46-116 | a reference pointer, null or not, loads back as its stored form |
| FieldLists.StoredRefLosses | serialization/UnifiedSerialization.h:87-99 | a face loses its uDir and vDir, an edge its start and end points; every other reference survives intact |
| FieldFeatures.SegmentFieldList | serialization/UnifiedSerialization.h:124-165 | a segment writes LocalID and Construction, then the fields of its class |
| FieldFeatures.LineRoundTrip | serialization/UnifiedSerialization.h:132-136 | a line is restored exactly |
| FieldFeatures.CircleRoundTrip | serialization/UnifiedSerialization.h:141-145 | a circle is restored exactly |
| FieldFeatures.ArcRoundTrip | serialization/UnifiedSerialization.h:150-157 | an arc is restored exactly |
| FieldFeatures.PointRoundTrip | serialization/UnifiedSerialization.h:162-165 | a point segment is restored exactly |
| FieldFeatures.SegmentRoundTrip | serialization/UnifiedSerialization.h:124-165 | every segment, loaded by its class name, is restored exactly |
| FieldFeatures.SegmentValues | serialization/UnifiedSerialization.h:225 | the segment vector has one entry per segment |
| FieldFeatures.LoadSegments | serialization/UnifiedSerialization.h:225 | a loaded segment vector has one segment per entry; any failing entry fails it |
| FieldFeatures.SegmentsRoundTrip | serialization/UnifiedSerialization.h:225 | a segment vector is restored exactly |
| FieldFeatures.StrValues | serialization/UnifiedSerialization.h:173 | the entity ID vector has one entry per ID |
| FieldFeatures.LoadStrs | serialization/UnifiedSerialization.h:173 | a loaded ID vector has one string per entry |
| FieldFeatures.StrsRoundTrip | serialization/UnifiedSerialization.h:173 | a vector of strings is restored exactly |
| FieldFeatures.ConstraintRoundTrip | serialization/UnifiedSerialization.h:171-175 | a constraint with a canonical type is restored exactly |
| FieldFeatures.ConstraintValues | serialization/UnifiedSerialization.h:226 | the constraint vector has one entry per constraint |
| FieldFeatures.LoadConstraints | serialization/UnifiedSerialization.h:226 | a loaded constraint vector has one constraint per entry |
| FieldFeatures.ConstraintsRoundTrip | serialization/UnifiedSerialization.h:226 | a constraint vector is restored exactly |
| FieldFeatures.EndConditionRoundTrip | serialization/UnifiedSerialization.h:201-208 | an end condition is restored with its reference in stored form |
| FieldFeatures.OptionsRoundTrip | serialization/UnifiedSerialization.h:183-195 | draft and thin-wall options, present or absent, are restored exactly |
| FieldFeatures.AxisRoundTrip | serialization/UnifiedSerialization.h:246-252 | a revolve axis is restored with its reference in stored form |
| FieldFeatures.BaseFieldList | serialization/UnifiedSerialization.h:213-217 | a feature writes ID, Name and Suppressed, and not its external ID |
| FieldFeatures.SketchFieldList | serialization/UnifiedSerialization.h:222-227 | a sketch adds Plane, Segments and Constraints |
| FieldFeatures.ExtrudeFieldList | serialization/UnifiedSerialization.h:232-241 | an extrude adds Profile, Direction, Operation, both end conditions, Draft and ThinWall |
| FieldFeatures.RevolveFieldList | serialization/UnifiedSerialization.h:257-264 | a revolve adds ProfileSketchID, Axis, AngleKind and both angles |
| FieldFeatures.StoredFeature | serialization/UnifiedSerialization.h:213-264 | after a save and a load a feature keeps its kind, ID, name and suppression and has an empty external ID |
| FieldFeatures.LoadSketchOf | serialization/UnifiedSerialization.h:222-227 | the sketch loader reads each part from its place in the list |
| FieldFeatures.SketchRoundTrip | serialization/UnifiedSerialization.h:213-227 | a sketch loads back as its stored form |
| FieldFeatures.LoadExtrudeOf | serialization/UnifiedSerialization.h:232-241 | the extrude loader reads each part from its place in the list |
| FieldFeatures.ProfileRoundTrip | serialization/UnifiedSerialization.h:234 | a profile pointer, null or not, loads back as the stored sketch |
| FieldFeatures.ExtrudePartsRoundTrip | serialization/UnifiedSerialization.h:234-238 | profile and both end conditions load back in stored form |
| FieldFeatures.ExtrudeRoundTrip | serialization/UnifiedSerialization.h:213-217 | an extrude loads back as its stored form (also lines 232-241) |
| FieldFeatures.LoadRevolveOf | serialization/UnifiedSerialization.h:257-264 | the revolve loader reads each part from its place in the list |
| FieldFeatures.RevolveRoundTrip | serialization/UnifiedSerialization.h:213-217 | a revolve loads back as its stored form (also lines 257-264) |
| FieldFeatures.FeatureRoundTrip | serialization/UnifiedSerialization.h:213-264 | a saveable feature with canonical constraint types loads back as its stored form |
| FieldModelCodec.ModelHeaderFields | serialization/UnifiedSerialization.h:274-279 | the header holds UnitSystem, ModelName and FeatureCount in that order |
| FieldModelCodec.SaveModel | serialization/UnifiedSerialization.h:273-285 | a save succeeds exactly when every feature is saveable, giving the header and one entry per feature; otherwise it throws the unregistered-type error |
| FieldModelCodec.Entry | serialization/UnifiedSerialization.h:287-292 | an entry is read only when it exists and has the expected name |
| FieldModelCodec.ReadFeaturesStops | serialization/UnifiedSerialization.h:295-299 | once an entry has failed, the remaining entries change nothing |
| FieldModelCodec.LoadModel | serialization/UnifiedSerialization.h:287-300 | unit and name are read into the model as they come, the model is cleared, then each read feature is added; a failure leaves the model as far as the load got |
| FieldModelCodec.StoredFeatures | serialization/UnifiedSerialization.h:282-299 | a reloaded feature list has as many features as the saved one |
| FieldModelCodec.StoredFeaturesHaveNoExternalIds | serialization/UnifiedSerialization.h:213-217 | a reloaded model has an empty external-ID index |
| FieldModelCodec.ReadSavedFeatures | serialization/UnifiedSerialization.h:282-299 | the first k entries of a saved archive read back as the first k stored features |
| FieldModelCodec.ModelRoundTrip | serialization/UnifiedSerialization.h:273-300 | a saved model loads back with the same unit, name and count, every feature in stored form |
| Xml.NewElement | src/TinyXMLSerializer.cpp:428 | a new element has the tag and no attributes or children |
| Xml.Attribute | src/TinyXMLSerializer.cpp:228 | an attribute's text, or null exactly when the element lacks it |
| Xml.SetAttribute | src/TinyXMLSerializer.cpp:164 | setting an attribute makes it read back as the value and keeps tag and children |
| Xml.SetAttributeFrame | src/TinyXMLSerializer.cpp:164 | setting one attribute leaves every other one as it was |
| Xml.InsertEndChild | src/TinyXMLSerializer.cpp:429 | the child is appended after the existing children, nothing else changes |
| Xml.FirstNamed | src/TinyXMLSerializer.cpp:611 | FirstChildElement finds an element of the tag exactly when one exists |
| Xml.Named | src/TinyXMLSerializer.cpp:629-635 | a sibling walk visits only elements of the tag, drawn from the children |
| Xml.FirstNamedAt | src/TinyXMLSerializer.cpp:611 | the search lands on the first element with the tag |
| Xml.QueryIntOfSet | src/TinyXMLSerializer.cpp:320 | an integer attribute that was set reads back as itself (also line 331) |
| Xml.QueryBoolOfSet | src/TinyXMLSerializer.cpp:464 | a boolean attribute that was set reads back as itself (also line 724) |
| Xml.QueryRealOfSet | src/TinyXMLSerializer.cpp:503 | a real attribute that was set reads back as itself under a faithful number format (also line 772) |
| XmlNames.UnitNamesLower | src/TinyXMLSerializer.cpp:50-81 | each unit's name lowers to the text UnitTypeFromString compares with |
| XmlNames.BooleanOpNamesLower | src/TinyXMLSerializer.cpp:83-106 | each operation's name lowers to the text BooleanOpFromString compares with |
| XmlNames.EndTypeNamesLower | src/TinyXMLSerializer.cpp:108-144 | each end type's name lowers to the text its reader compares with |
| XmlNames.UnitTypeFromStringExactly | src/TinyXMLSerializer.cpp:66-81 | a text reads as a unit exactly when it is that unit's name ignoring case; null reads as none |
| XmlNames.BooleanOpFromStringExactly | src/TinyXMLSerializer.cpp:95-106 | a text reads as an operation exactly when it is that operation's name ignoring case |
| XmlNames.EndTypeFromStringExactly | src/TinyXMLSerializer.cpp:127-144 | a text reads as an end type exactly when it is its name ignoring case; Unknown is never read |
| XmlNames.EnumNamesRoundTrip | src/TinyXMLSerializer.cpp:50-144 | every unit, operation and end type except Unknown reads back from its own name |
| XmlNames.EnumNamesIgnoreCase | src/TinyXMLSerializer.cpp:43-48 | a text and its lower-case form read alike (also lines 66-144) |
| XmlNames.FindByType | src/TinyXMLSerializer.cpp:391-397 | the entry found for a kind has that kind, and none is found only when no entry has it |
| XmlNames.FindByLowerName | src/TinyXMLSerializer.cpp:399-405 | the entry found for a lowered name has it, and none only when no entry has it |
| XmlNames.EntryIndex | src/TinyXMLSerializer.cpp:262-389 | each kind has a row in the registry table |
| XmlNames.RegistryDistinct | src/TinyXMLSerializer.cpp:262-389 | the registry has eight rows with pairwise distinct kinds and names |
| XmlNames.RegistryLowerNames | src/TinyXMLSerializer.cpp:263-372 | each row's lowerName is its name in lower case |
| XmlNames.FindRefEntryTotal | src/TinyXMLSerializer.cpp:391-411 | every kind has an entry, so RefTypeToString never falls back to "Unknown" |
| XmlNames.RefTypeNamesRoundTrip | src/TinyXMLSerializer.cpp:407-420 | a kind's name reads back as that kind in any letter case |
| XmlNames.RefTypeFromStringExactly | src/TinyXMLSerializer.cpp:413-420 | a text reads as a kind exactly when its lower-case form is one of the eight lower names; null reads as none |
| XmlTriples.Find | src/TinyXMLSerializer.cpp:26-31 | a found comma lies at or after the start position |
| XmlTriples.FindFirst | src/TinyXMLSerializer.cpp:26-31 | the search stops at the first comma at or after the start |
| XmlTriples.StripParens | src/TinyXMLSerializer.cpp:23-25 | the parentheses are removed only when the text starts with '(' and ends with ')' |
| XmlTriples.TryParseTripleNeedsTwoCommas | src/TinyXMLSerializer.cpp:19-41 | only text with at least two commas after the optional parentheses parses as a triple |
| XmlTriples.TryParseFormatTriple | src/TinyXMLSerializer.cpp:13-41 | a formatted triple parses back as the same vector under a faithful number format |
| XmlTriples.ParseVecOfText | src/TinyXMLSerializer.cpp:214-223 | an attribute holding a written vector reads as that vector |
| XmlTriples.ParseVecOfAbsent | src/TinyXMLSerializer.cpp:214-223 | an absent attribute reads as (0,0,0) |
| XmlRefCodec.SaveFeatureReference | src/TinyXMLSerializer.cpp:233-238 | the target ID is written for every feature reference and nothing for any other |
| XmlRefCodec.AttributeOr | src/TinyXMLSerializer.cpp:228 | the attribute's text, or the default when it is absent |
| XmlRefCodec.LoadFeatureReference | src/TinyXMLSerializer.cpp:225-231 | a bare feature reference of the given kind whose target is the attribute or "" |
| XmlRefCodec.ComputePlaneYAxis | src/TinyXMLSerializer.cpp:240-244 | a cross product whose length is at most Epsilon (compared squared) is returned as it is |
| XmlRefCodec.InsertRefEntity | src/TinyXMLSerializer.cpp:422-438 | a null reference adds nothing; any other appends exactly one child |
| XmlRefCodec.LoadResolvedSome | src/TinyXMLSerializer.cpp:675-681 | every resolved kind has an entry, so it always loads through it |
| XmlRefCodec.SavedTypeName | src/TinyXMLSerializer.cpp:422-438 | the element written carries its kind's registry name as Type, which reads back as that kind |
| XmlRefCodec.LoadPlaneFields | src/TinyXMLSerializer.cpp:274-286 | a plane element's TargetFeatureID, Origin, XDir, YDir and Normal load as written |
| XmlRefCodec.LoadFaceFields | src/TinyXMLSerializer.cpp:326-336 | a face element's attributes load as written |
| XmlRefCodec.LoadTypeOnlyPlane | src/TinyXMLSerializer.cpp:274-286 | a plane element holding only its Type loads as a default plane reference |
| XmlRefCodec.ComputePlaneYAxisOfZero | src/TinyXMLSerializer.cpp:240-244 | zero normal and X direction give a zero Y axis |
| XmlRefCodec.LoadTypeOnlyTopo | src/TinyXMLSerializer.cpp:315-389 | topology elements holding only a Type load with index -1; a face then has zero U and V |
| XmlRefCodec.SaveRefEntityUnfold | src/TinyXMLSerializer.cpp:422-438 | SaveRefEntity writes through the entry of the reference's own kind, then sets Type |
| XmlRefCodec.LoadRefEntityResolved | src/TinyXMLSerializer.cpp:675-689 | a Type resolving to a kind loads through its entry and forces that refType |
| XmlRefCodec.LoadTopoHeader | src/TinyXMLSerializer.cpp:329-331 | the parent ID and topology index load as written |
| XmlRefCodec.PlaneRoundTrip | src/TinyXMLSerializer.cpp:263-287 | a plane entry's save then load gives its survivor |
| XmlRefCodec.FaceRoundTrip | src/TinyXMLSerializer.cpp:315-337 | a face entry's save then load gives its survivor |
| XmlRefCodec.EdgeRoundTrip | src/TinyXMLSerializer.cpp:338-354 | an edge entry's save then load gives its survivor |
| XmlRefCodec.VertexRoundTrip | src/TinyXMLSerializer.cpp:355-371 | a vertex entry's save then load gives its survivor |
| XmlRefCodec.SketchSegRoundTrip | src/TinyXMLSerializer.cpp:372-389 | a sketch-segment entry's save then load gives its survivor |
| XmlRefCodec.FeatureKindsRoundTrip | src/TinyXMLSerializer.cpp:288-314 | axis, point and sketch entries' save then load give their survivors |
| XmlRefCodec.LoadSavedByEntry | src/TinyXMLSerializer.cpp:262-389 | loading what the entry of a reference's kind writes gives its survivor, whatever the Type text |
| XmlRefCodec.RefEntityRoundTrip | src/TinyXMLSerializer.cpp:422-438 | a saved reference loads back as its survivor: every field the entry writes is restored (also lines 664-691) |
| XmlRefCodec.WellTypedSurvivor | src/TinyXMLSerializer.cpp:262-389 | for a well-typed reference only unwritten fields are lost: edge start and end, the axis and point geometry |
| XmlRefCodec.LegacyFeatureType | src/TinyXMLSerializer.cpp:684-685 | the Type "feature" in any case loads as a datum-plane feature reference |
| XmlRefCodec.LoadRefEntityNull | src/TinyXMLSerializer.cpp:664-691 | the load is null exactly when there is no element, no Type, or a Type that is neither a kind nor "feature" |
| XmlRefCodec.PlaneYAxisComputed | src/TinyXMLSerializer.cpp:281-285 | a plane element without YDir gets its Y axis from the normal and the X direction |
| XmlRefCodec.ComputePlaneYAxisOfUnitCross | src/TinyXMLSerializer.cpp:240-244 | a unit cross product is itself the computed Y axis |
| XmlSketchCodec.SplitFrom | src/TinyXMLSerializer.cpp:797-800 | no item read by the getline loop contains a ',' |
| XmlSketchCodec.JoinIdsSnoc | src/TinyXMLSerializer.cpp:524-530 | appending an ID appends a ',' and that ID to the Entities text |
| XmlSketchCodec.SplitFromItem | src/TinyXMLSerializer.cpp:797-800 | an item without commas followed by ',' is read as one item |
| XmlSketchCodec.SplitFromLast | src/TinyXMLSerializer.cpp:797-800 | the end of the text ends the last item only when it is non-empty |
| XmlSketchCodec.SplitJoinRoundTrip | src/TinyXMLSerializer.cpp:524-530 | IDs free of ',' with a non-empty last one round-trip through the Entities text (also lines 795-801) |
| XmlSketchCodec.SplitFromEmpty | src/TinyXMLSerializer.cpp:797-800 | nothing is read exactly when nothing is left |
| XmlSketchCodec.JoinSplitFrom | src/TinyXMLSerializer.cpp:524-530 | joining what the loop reads gives back the text when it does not end in ',' (also lines 797-800) |
| XmlSketchCodec.JoinSplitRoundTrip | src/TinyXMLSerializer.cpp:524-530 | a text not ending in ',' is written back unchanged from the IDs read from it (also lines 795-801) |
| XmlSketchCodec.TrailingEmptyIdLost | src/TinyXMLSerializer.cpp:524-530 | a trailing empty ID is lost: ["a", ""] comes back as ["a"] (also lines 797-800) |
| XmlSketchCodec.CommaInIdSplits | src/TinyXMLSerializer.cpp:524-530 | an ID holding ',' comes back as two IDs (also lines 797-800) |
| XmlSketchCodec.JoinEntityIds | src/TinyXMLSerializer.cpp:524-530 | the string-building loop writes the IDs joined by ',' |
| XmlSketchCodec.SplitEntities | src/TinyXMLSerializer.cpp:795-801 | the getline loop yields exactly the items the split specification gives |
| XmlSketchCodec.LoadSegmentNull | src/TinyXMLSerializer.cpp:757-786 | a segment element is rebuilt exactly when its Type is "Line" or "Circle", with its LocalID |
| XmlSketchCodec.SegmentHeader | src/TinyXMLSerializer.cpp:779-784 | LocalID and Construction load as written |
| XmlSketchCodec.SegmentHeadAttributes | src/TinyXMLSerializer.cpp:488-496 | a segment element carries its LocalID, Construction flag and type name |
| XmlSketchCodec.LineRoundTrip | src/TinyXMLSerializer.cpp:497-500 | a line survives a save and load exactly (also lines 765-769) |
| XmlSketchCodec.CircleRoundTrip | src/TinyXMLSerializer.cpp:501-504 | a circle survives a save and load exactly (also lines 770-774) |
| XmlSketchCodec.ArcOrPointDropped | src/TinyXMLSerializer.cpp:505-514 | arcs and points are written but never rebuilt (also lines 764-776) |
| XmlSketchCodec.SegmentRoundTrip | src/TinyXMLSerializer.cpp:484-515 | a segment comes back whole when it is a line or circle and is lost otherwise (also lines 757-786) |
| XmlSketchCodec.SaveSegmentList | src/TinyXMLSerializer.cpp:471-476 | one Segment element per segment |
| XmlSketchCodec.SurvivingSegments | src/TinyXMLSerializer.cpp:737-745 | the segments that come back are the lines and circles, in order |
| XmlSketchCodec.SegmentListRoundTrip | src/TinyXMLSerializer.cpp:471-476 | a saved segment list loads back as its lines and circles (also lines 737-745) |
| XmlSketchCodec.SurvivingLinesAndCircles | src/TinyXMLSerializer.cpp:737-745 | a sketch of lines and circles keeps all its segments |
| XmlSketchCodec.NamedSavedSegments | src/TinyXMLSerializer.cpp:488-489 | every saved segment element is tagged Segment, so the sibling walk visits all (also lines 738-744) |
| XmlSketchCodec.ConstraintRoundTrip | src/TinyXMLSerializer.cpp:517-531 | a constraint comes back as its survivor: type by code, dimension, IDs through the split (also lines 788-804) |
| XmlSketchCodec.ConstraintSurvivesWhole | src/TinyXMLSerializer.cpp:517-531 | a canonical constraint whose IDs are free of ',' with a non-empty last one comes back unchanged (also lines 788-804) |
| XmlSketchCodec.SaveConstraintList | src/TinyXMLSerializer.cpp:477-481 | one Constraint element per constraint |
| XmlSketchCodec.LoadConstraintList | src/TinyXMLSerializer.cpp:747-753 | one constraint per Constraint element; none is dropped |
| XmlSketchCodec.ConstraintSurvivors | src/TinyXMLSerializer.cpp:747-753 | one survivor per constraint |
| XmlSketchCodec.ConstraintListRoundTrip | src/TinyXMLSerializer.cpp:477-481 | a saved constraint list loads back as the survivors (also lines 747-753) |
| XmlSketchCodec.NamedSavedConstraints | src/TinyXMLSerializer.cpp:519-520 | every saved constraint is tagged Constraint (also lines 748-752) |
| XmlSketchCodec.LoadSketch | src/TinyXMLSerializer.cpp:730-754 | a loaded sketch body has default base fields |
| XmlSketchCodec.LoadSketchOfChildren | src/TinyXMLSerializer.cpp:730-754 | the plane comes from the first ReferencePlane, then the segments and constraints |
| XmlSketchCodec.SketchBodyRoundTrip | src/TinyXMLSerializer.cpp:467-482 | a written sketch body reads back as the plane's survivor, its lines and circles and the constraint survivors (also lines 730-754) |
| XmlSketchCodec.SaveConstraintElement | src/TinyXMLSerializer.cpp:517-531 | the method with its loop builds the constraint element the specification gives |
| XmlSketchCodec.SaveSegmentsElement | src/TinyXMLSerializer.cpp:471-476 | the loop builds a Segments element with one child per segment in order |
| XmlSketchCodec.SaveConstraintsElement | src/TinyXMLSerializer.cpp:477-481 | the loop builds a Constraints element with one child per constraint in order |
| XmlSketchCodec.SaveSketch | src/TinyXMLSerializer.cpp:467-482 | the plane, then the two loops, give the sketch body the specification gives |
| XmlSketchCodec.LoadSketchSegments | src/TinyXMLSerializer.cpp:735-745 | the segment loop keeps the non-null segments of the Segment children in order |
| XmlSketchCodec.LoadSketchConstraints | src/TinyXMLSerializer.cpp:747-753 | the constraint loop loads one constraint per Constraint child in order |
| XmlSketchCodec.LoadConstraintElement | src/TinyXMLSerializer.cpp:788-804 | the method with its getline loop loads the constraint the specification gives |
| XmlSketchCodec.LoadSketchElement | src/TinyXMLSerializer.cpp:730-754 | the method with its two loops loads the sketch the specification gives |
| XmlFeatureCodec.LoadEndCondition | src/TinyXMLSerializer.cpp:840-856 | a loaded end condition has no offset, reference or flips, and is never of type Unknown |
| XmlFeatureCodec.EndTypeFromStringNeverUnknown | src/TinyXMLSerializer.cpp:127-144 | no text reads as the Unknown end type |
| XmlFeatureCodec.LoadEndConditionFields | src/TinyXMLSerializer.cpp:840-845 | Type and Depth load as written |
| XmlFeatureCodec.EndCondition1RoundTrip | src/TinyXMLSerializer.cpp:550-565 | the first end condition comes back with its type and depth only (also lines 840-846) |
| XmlFeatureCodec.EndCondition2RoundTrip | src/TinyXMLSerializer.cpp:566-576 | the second end condition comes back with its type and depth only (also lines 847-856) |
| XmlFeatureCodec.PlaceholderSketch | src/TinyXMLSerializer.cpp:820-827 | the profile stand-in is a default sketch carrying only the ID |
| XmlFeatureCodec.LoadExtrude | src/TinyXMLSerializer.cpp:806-858 | a loaded extrude body has default base fields, no draft or thin wall, and sketch profiles |
| XmlFeatureCodec.ExtrudeBodySurvivor | src/TinyXMLSerializer.cpp:533-577 | what survives of an extrude body is an extrude: profile ID in a placeholder sketch, direction, operation and end-condition survivors, no draft or thin wall (also lines 806-858) |
| XmlFeatureCodec.ExtrudeProfileLookup | src/TinyXMLSerializer.cpp:808 | the ProfileSketchID child is found when it was written |
| XmlFeatureCodec.ExtrudeDirectionLookup | src/TinyXMLSerializer.cpp:830 | the Direction child is found |
| XmlFeatureCodec.ExtrudeEndCondition1Lookup | src/TinyXMLSerializer.cpp:839 | the EndCondition1 child is found |
| XmlFeatureCodec.ExtrudeEndCondition2Lookup | src/TinyXMLSerializer.cpp:847 | the EndCondition2 child is found when it was written |
| XmlFeatureCodec.LoadExtrudeOfChildren | src/TinyXMLSerializer.cpp:806-858 | the extrude loader reads each child SaveExtrude writes |
| XmlFeatureCodec.ExtrudeBodyRoundTrip | src/TinyXMLSerializer.cpp:533-577 | a written extrude body loads back as its survivor: profile ID, direction, operation, end conditions (also lines 806-858) |
| XmlFeatureCodec.SaveExtrudeOperation | src/TinyXMLSerializer.cpp:533-577 | the body sets only the Operation attribute of the feature element |
| XmlFeatureCodec.RevolveAttributesWritten | src/TinyXMLSerializer.cpp:579-594 | every revolve attribute is written, though the loader reads none (also lines 860-863) |
| XmlFeatureCodec.LoadFeatureNull | src/TinyXMLSerializer.cpp:694-728 | a feature element loads as null exactly when its Type is missing or names no feature class |
| XmlFeatureCodec.FeatureSurvivor | src/TinyXMLSerializer.cpp:440-465 | a survivor keeps kind, ID, name and suppression and has no external ID (also lines 694-728) |
| XmlFeatureCodec.SaveFeatureBaseFields | src/TinyXMLSerializer.cpp:462-464 | ID, Name and Suppressed load as written and touch nothing else (also lines 718-725) |
| XmlFeatureCodec.SaveFeatureBodyType | src/TinyXMLSerializer.cpp:449-461 | the body writes no Type, so the Type set first stands |
| XmlFeatureCodec.SaveFeatureTag | src/TinyXMLSerializer.cpp:446 | a saved feature is always a Feature element |
| XmlFeatureCodec.SketchFeatureRoundTrip | src/TinyXMLSerializer.cpp:440-482 | a sketch loads back as its survivor (also lines 694-754) |
| XmlFeatureCodec.ExtrudeFeatureRoundTrip | src/TinyXMLSerializer.cpp:440-465 | an extrude loads back as its survivor (also lines 533-577, 694-728, 806-858) |
| XmlFeatureCodec.RevolveFeatureRoundTrip | src/TinyXMLSerializer.cpp:440-465 | a revolve loads back with only its base fields (also lines 579-594, 694-728, 860-863) |
| XmlFeatureCodec.FeatureRoundTrip | src/TinyXMLSerializer.cpp:440-465 | every feature loads back as its survivor (also lines 694-728) |
| XmlFeatureCodec.PlainSketchSurvives | src/TinyXMLSerializer.cpp:440-482 | a sketch with no external ID, no plane, only lines and circles and whole constraints comes back unchanged (also lines 694-754) |
| XmlFeatureCodec.ConstraintSurvivorsWhole | src/TinyXMLSerializer.cpp:517-531 | constraints that each survive whole survive whole as a list (also lines 788-804) |
| XmlFeatureCodec.LoadFeatureElement | src/TinyXMLSerializer.cpp:694-754 | the method with the sketch loops loads the feature the specification gives |
| XmlFeatureCodec.SaveFeatureElement | src/TinyXMLSerializer.cpp:440-482 | the method with the sketch loops saves the element the specification gives |
| XmlModelCodec.SaveFeatureList | src/TinyXMLSerializer.cpp:170-172 | one Feature element per feature |
| XmlModelCodec.LoadFeatureList | src/TinyXMLSerializer.cpp:629-636 | null loads are skipped, so at most one feature per element |
| XmlModelCodec.FeatureSurvivors | src/TinyXMLSerializer.cpp:170-172 | the survivor of each feature, in order (also lines 629-636) |
| XmlModelCodec.ModelHeaderAttributes | src/TinyXMLSerializer.cpp:160-167 | the root is UnifiedModel with UnitSystem, ModelName and FeatureCount as written |
| XmlModelCodec.NamedSavedFeatures | src/TinyXMLSerializer.cpp:446 | every saved feature is a Feature element, so the walk visits them all (also lines 629-635) |
| XmlModelCodec.FeatureListRoundTrip | src/TinyXMLSerializer.cpp:170-172 | every saved feature loads back as its survivor (also lines 629-636) |
| XmlModelCodec.ModelRoundTrip | src/TinyXMLSerializer.cpp:151-181 | the root is found, unit and name read back, the count parses to the number of features, and the features are the survivors (also lines 600-639) |
| XmlModelCodec.SurvivorsKeepLookups | src/TinyXMLSerializer.cpp:718-723 | survivors keep every ID and name, so ID and name lookups answer as before |
| XmlModelCodec.SurvivorsHaveNoExternalIndex | src/TinyXMLSerializer.cpp:440-465 | external IDs are not written, so a reloaded model's external index is empty |
| XmlModelCodec.SaveModel | src/TinyXMLSerializer.cpp:151-172 | the method builds the root with its attributes and one Feature child per feature |
| XmlModelCodec.AddFeatureElements | src/TinyXMLSerializer.cpp:629-636 | the walk adds every Feature child that loads, in order, and keeps unit and name |
| XmlModelCodec.LoadModel | src/TinyXMLSerializer.cpp:600-639 | a failed parse or a missing root reports an error and changes nothing; otherwise unit and name are taken when present and valid, the model cleared and refilled |
| ReferenceFactory.GetString | builders/ReferenceFactory.h:43-44 | GetAs<std::string> succeeds exactly on a string value and gives it back |
| ReferenceFactory.GetInt | builders/ReferenceFactory.h:43-44 | GetAs<int> succeeds exactly on an int value |
| ReferenceFactory.GetDouble | builders/ReferenceFactory.h:43-44 | GetAs<double> succeeds exactly on a double value |
| ReferenceFactory.GetPoint | builders/ReferenceFactory.h:43-44 | GetAs<Point3D> succeeds exactly on a point value |
| ReferenceFactory.GetVector | builders/ReferenceFactory.h:43-44 | GetAs<Vector3D> succeeds exactly on a vector value |
| ReferenceFactory.GetAsExactlyOne | builders/ReferenceFactory.h:34-44 | exactly one GetAs succeeds on any value of the variant |
| ReferenceFactory.LookupString | builders/ReferenceFactory.cpp:24-33 | a string is found exactly when the key is present with a string value |
| ReferenceFactory.LookupInt | builders/ReferenceFactory.cpp:35-43 | an int is found exactly when the key is present with an int value |
| ReferenceFactory.LookupDouble | builders/ReferenceFactory.cpp:45-54 | a double is found exactly when the key is present with a double value |
| ReferenceFactory.LookupPoint | builders/ReferenceFactory.cpp:56-65 | a point is found exactly when the key is present with a point value |
| ReferenceFactory.LookupVector | builders/ReferenceFactory.cpp:67-76 | a vector is found exactly when the key is present with a vector value |
| ReferenceFactory.ToCVec | builders/ReferenceFactory.cpp:78-82 | the conversion keeps all three components |
| ReferenceFactory.ToCVecInverse | builders/ReferenceFactory.cpp:78-82 | the conversion is a bijection between the builder and core vector types |
| ReferenceFactory.PointOr | builders/ReferenceFactory.cpp:91-92 | a present point is converted, an absent one leaves the default |
| ReferenceFactory.VectorOr | builders/ReferenceFactory.cpp:93-98 | a present vector is converted, an absent one leaves the default |
| ReferenceFactory.CreateFace | builders/ReferenceFactory.cpp:84-101 | a TOPO_FACE face whose parent, index, normal, centroid, uDir and vDir are the values of the matching type under their keys, or the face defaults ("", -1, zero, zero, (1,0,0), (0,1,0)) |
| ReferenceFactory.CreateEdge | builders/ReferenceFactory.cpp:103-113 | a TOPO_EDGE edge whose parent, index and midpoint come from their keys or the defaults ("", -1, zero); start and end points stay zero |
| ReferenceFactory.CreateVertex | builders/ReferenceFactory.cpp:115-125 | a TOPO_VERTEX vertex whose parent, index and position come from their keys or the defaults ("", -1, zero) |
| ReferenceFactory.CreateSketchSegment | builders/ReferenceFactory.cpp:127-137 | a TOPO_SKETCH_SEG reference whose parent, index and segment ID come from their keys or the defaults ("", -1, "") |
| ReferenceFactory.CreateSketch | builders/ReferenceFactory.cpp:139-145 | a FEATURE_WHOLE_SKETCH reference whose target is the string under targetFeatureID, or empty |
| ReferenceFactory.CreatePlane | builders/ReferenceFactory.cpp:147-165 | the plane factory builds a FEATURE_DATUM_PLANE plane reference |
| ReferenceFactory.CreateFeatureRef | builders/ReferenceFactory.cpp:167-173 | the axis and point kinds build a bare feature reference of the given type whose target is the string under targetFeatureID, or empty |
| ReferenceFactory.CreateClass | builders/ReferenceFactory.cpp:177-198 | every kind other than a datum plane (covered by CreatePlane) builds an object of its own class whose RefType matches it |
| ReferenceFactory.KindOfCode | builders/ReferenceFactory.h:22-31 | an underlying value names a kind exactly in 0..7 |
| ReferenceFactory.CreateByCode | builders/ReferenceFactory.cpp:177-204 | a value outside the switch gives null and the unsupported-kind error; any other builds what Create builds |
| ReferenceFactory.CreateOfEmptyMap | builders/ReferenceFactory.cpp:84-173 | with an empty map every kind gives the default object of its class, the plane included (its computed Y axis is zero) |
| ReferenceFactory.OtherKeysIgnored | builders/ReferenceFactory.cpp:84-173 | a key a kind does not read does not change what it builds |
| ReferenceFactory.FaceFromAttributes | builders/ReferenceFactory.cpp:84-101 | a face given by all its keys is rebuilt exactly |
| ReferenceFactory.PlaneFromAttributes | builders/ReferenceFactory.cpp:147-165 | a plane given by all its keys is rebuilt exactly |
| ReferenceFactory.EdgeFromAttributes | builders/ReferenceFactory.cpp:103-113 | an edge given by its keys is rebuilt except its start and end points, which the factory never sets |
| ReferenceFactory.VertexFromAttributes | builders/ReferenceFactory.cpp:115-125 | a vertex given by its keys is rebuilt exactly |
| ReferenceFactory.SketchSegmentFromAttributes | builders/ReferenceFactory.cpp:127-137 | a sketch-segment reference given by its keys is rebuilt exactly |
| ReferenceFactory.SketchFromAttributes | builders/ReferenceFactory.cpp:139-145 | a whole-sketch reference given by its target is rebuilt exactly |
| ReferenceFactory.FeatureRefFromAttributes | builders/ReferenceFactory.cpp:194-197 | a bare datum-axis or datum-point reference given by its target is rebuilt exactly |
| ReferenceFactory.PlaneYReconstructed | builders/ReferenceFactory.cpp:158-163 | without a yDir key the Y axis is the normalised cross product of normal and xDir |
| ReferenceFactory.WrongAlternativeIgnored | builders/ReferenceFactory.cpp:35-43 | a value of the wrong alternative counts as absent (also lines 84-113) |
| LocalIds.LocalId | service/builders/SketchBuilder.h:155-157 | a local ID is the prefix, "_" and the counter value |
| LocalIds.SegmentPrefix | service/builders/SketchBuilder.h:46-107 | each Add method uses a one-letter prefix L, C, A or P |
| LocalIds.LocalIdInjective | service/builders/SketchBuilder.h:155-157 | local IDs with one-letter prefixes are equal only when prefix and counter are |
| LocalIds.NumberedIdsDistinct | service/builders/SketchBuilder.h:153-157 | the segments of a numbered list have pairwise distinct local IDs, whatever their kinds |
| LocalIds.AppendNumbered | service/builders/SketchBuilder.h:153-157 | appending the segment named with the next counter value keeps the list numbered |
| ServiceBuilderBase.RejectionMessage | service/builders/FeatureBuilderBase.h:96-123 | the thrown message names plane, axis or point and the missing target ID |
| ServiceBuilderBase.UncheckedReferencesPass | service/builders/FeatureBuilderBase.h:87-127 | null, topology, sketch and bare feature references always pass |
| ServiceBuilderBase.StandardTargetsPass | service/builders/FeatureBuilderBase.h:93-121 | a datum reference to a standard ID passes whatever the model holds |
| ServiceBuilderBase.AcceptedStaysAccepted | service/builders/FeatureBuilderBase.h:87-127 | adding features never makes an accepted reference fail |
| ServiceBuilderBase.FeatureBuilder.constructor | service/builders/FeatureBuilderBase.h:32-37 | a fresh feature of the class with the given name and the next UUID as its ID |
| ServiceBuilderBase.FeatureBuilder.SetSuppressed | service/builders/FeatureBuilderBase.h:57-62 | only the suppression flag changes |
| ServiceBuilderBase.FeatureBuilder.SetExternalID | service/builders/FeatureBuilderBase.h:65-68 | only the external ID changes |
| ServiceBuilderBase.FeatureBuilder.Build | service/builders/FeatureBuilderBase.h:73-76 | the feature is appended to the model, which stays consistent, and its ID is returned |
| ServiceBuilderBase.FeatureBuilder.ValidateReference | service/builders/FeatureBuilderBase.h:87-127 | it throws exactly when a datum plane, axis or point names neither a standard ID nor a model feature |
| ServiceSketchBuilder.SketchBuilder.constructor | service/builders/SketchBuilder.h:18-19 | a fresh empty sketch with the name and the next UUID |
| ServiceSketchBuilder.SketchBuilder.SetReferencePlane | service/builders/SketchBuilder.h:32-41 | a null plane throws invalid_argument, a rejected one throws its runtime_error, both keeping the sketch; an accepted one is stored |
| ServiceSketchBuilder.SketchBuilder.GenerateLocalID | service/builders/SketchBuilder.h:155-157 | the counter rises by one and names the ID |
| ServiceSketchBuilder.SketchBuilder.AddLine | service/builders/SketchBuilder.h:46-56 | one line with the next "L" ID is appended |
| ServiceSketchBuilder.SketchBuilder.AddCircle | service/builders/SketchBuilder.h:61-74 | a radius not above 0 throws and appends nothing; otherwise a circle with the next "C" ID is appended |
| ServiceSketchBuilder.SketchBuilder.AddArc | service/builders/SketchBuilder.h:79-96 | a radius not above 0 throws; otherwise an arc with the next "A" ID is appended |
| ServiceSketchBuilder.SketchBuilder.AddPoint | service/builders/SketchBuilder.h:101-107 | one non-construction point with the next "P" ID is appended |
| ServiceSketchBuilder.SketchBuilder.AddConstraint | service/builders/SketchBuilder.h:159-168 | one constraint with the entity IDs in argument order is appended |
| ServiceSketchBuilder.SketchBuilder.AddCoincident | service/builders/SketchBuilder.h:112-150 | a coincident constraint on the two IDs is appended |
| ServiceSketchBuilder.SketchBuilder.AddHorizontal | service/builders/SketchBuilder.h:112-150 | a horizontal constraint on the ID is appended |
| ServiceSketchBuilder.SketchBuilder.AddVertical | service/builders/SketchBuilder.h:112-150 | a vertical constraint on the ID is appended |
| ServiceSketchBuilder.SketchBuilder.AddTangent | service/builders/SketchBuilder.h:112-150 | a tangent constraint on the two IDs is appended |
| ServiceSketchBuilder.SketchBuilder.AddDistanceDimension | service/builders/SketchBuilder.h:112-150 | a dimensional constraint on the IDs with the value is appended |
| ServiceSketchBuilder.BuilderIdsDistinct | service/builders/SketchBuilder.h:46-107 | any two segments a builder added have different local IDs (also lines 153-157) |
| IncludeBuilderBase.FeatureBuilder.constructor | include/FeatureBuilderBase.h:41-46 | a fresh feature of the class with the given name and the next generated ID |
| IncludeBuilderBase.FeatureBuilder.SetSuppressed | include/FeatureBuilderBase.h:56-59 | only the suppression flag changes |
| IncludeBuilderBase.FeatureBuilder.SetExternalID | include/FeatureBuilderBase.h:64-67 | only the external ID changes |
| IncludeBuilderBase.FeatureBuilder.Build | include/FeatureBuilderBase.h:72-75 | the feature is appended to the model, which stays consistent, and its ID is returned |
| IncludeSketchBuilder.SketchBuilder.constructor | include/SketchBuilder.h:17-18 | a fresh empty sketch with the name and the next generated ID |
| IncludeSketchBuilder.SketchBuilder.SetPlane | include/SketchBuilder.h:23-34 | the sketch gets a new untargeted datum plane whose Y direction is the normalised normal x X |
| IncludeSketchBuilder.SketchBuilder.SetReferencePlane | include/SketchBuilder.h:39-55 | the YZ frame for STD_DATUM_YZ, the ZX frame for STD_DATUM_ZX, the XY frame for any other ID, targeting the given ID; nothing else changes |
| IncludeSketchBuilder.SketchBuilder.RetargetPlane | include/SketchBuilder.h:50-53 | a datum plane records the given ID as its target |
| IncludeSketchBuilder.SketchBuilder.SetReferenceFace | include/SketchBuilder.h:60-64 | the sketch plane becomes a copy of the face |
| IncludeSketchBuilder.SketchBuilder.GenerateLocalID | include/SketchBuilder.h:174-178 | the counter rises by one and names the ID |
| IncludeSketchBuilder.SketchBuilder.AddLine | include/SketchBuilder.h:69-79 | one line with the next "L" ID is appended |
| IncludeSketchBuilder.SketchBuilder.AddCircle | include/SketchBuilder.h:84-97 | a radius not above 0 throws and appends nothing; otherwise a circle with the next "C" ID |
| IncludeSketchBuilder.SketchBuilder.AddArc | include/SketchBuilder.h:102-117 | a radius not above 0 throws; otherwise an arc with the next "A" ID, clockwise exactly when the start angle exceeds the end |
| IncludeSketchBuilder.SketchBuilder.AddPoint | include/SketchBuilder.h:122-128 | one non-construction point with the next "P" ID is appended |
| IncludeSketchBuilder.SketchBuilder.AddConstraint | include/SketchBuilder.h:180-189 | one constraint with the IDs in argument order is appended |
| IncludeSketchBuilder.SketchBuilder.AddCoincident | include/SketchBuilder.h:133-171 | a coincident constraint on the two IDs is appended |
| IncludeSketchBuilder.SketchBuilder.AddHorizontal | include/SketchBuilder.h:133-171 | a horizontal constraint on the ID is appended |
| IncludeSketchBuilder.SketchBuilder.AddVertical | include/SketchBuilder.h:133-171 | a vertical constraint on the ID is appended |
| IncludeSketchBuilder.SketchBuilder.AddTangent | include/SketchBuilder.h:133-171 | a tangent constraint on the two IDs is appended |
| IncludeSketchBuilder.SketchBuilder.AddDistanceDimension | include/SketchBuilder.h:133-171 | a dimensional constraint on the IDs with the value is appended |
| IncludeSketchBuilder.StandardPlaneFor | include/SketchBuilder.h:39-55 | the plane it ends with is a datum plane at the origin that targets the given ID |
| IncludeSketchBuilder.StandardFrameYDir | include/SketchBuilder.h:23-55 | SetPlane on the chosen axes yields exactly the frame of the standard plane |
| IncludeSketchBuilder.YZFrame | include/SketchBuilder.h:40-41 | the YZ axes give the YZ frame's Y direction |
| IncludeSketchBuilder.ZXFrame | include/SketchBuilder.h:42-43 | the ZX axes give the ZX frame's Y direction |
| IncludeSketchBuilder.XYFrame | include/SketchBuilder.h:44-46 | the XY axes give the XY frame's Y direction |
| IncludeSketchBuilder.BuilderIdsDistinct | include/SketchBuilder.h:69-128 | any two segments a builder added have different local IDs (also lines 174-178) |
| ServiceEndConditions.Blind | service/builders/EndConditionBuilder.h:13-18 | a Blind condition with the depth, every other field at its default |
| ServiceEndConditions.ThroughAll | service/builders/EndConditionBuilder.h:21-25 | a default condition whose type alone is ThroughAll |
| ServiceEndConditions.UpToFace | service/builders/EndConditionBuilder.h:28-36 | up to a face with the reference and offset, recording the offset exactly when its size exceeds 1e-9 |
| ServiceEndConditions.UpToRefPlane | service/builders/EndConditionBuilder.h:39-47 | the same condition as UpToFace, for a plane reference |
| ServiceEndConditions.UpToVertex | service/builders/EndConditionBuilder.h:50-58 | up to a vertex with the same offset rule |
| ServiceEndConditions.UpToRefPoint | service/builders/EndConditionBuilder.h:61-68 | the same condition as UpToVertex, for a point reference |
| ServiceEndConditions.UpToNext | service/builders/EndConditionBuilder.h:71-75 | a default condition whose type alone is UpToNext |
| ServiceEndConditions.FactoriesAreFactoryMade | service/builders/EndConditionBuilder.h:10-76 | every factory yields a condition of the factory shape, never Unknown or MidPlane |
| ServiceEndConditions.HasOffsetMeansNonzero | service/builders/EndConditionBuilder.h:34 | a recorded offset is never zero, and a zero offset is never recorded |
| BuildersEndConditions.Blind | builders/EndConditionBuilder.h:12-17 | a Blind condition with the depth and no reference |
| BuildersEndConditions.ThroughAll | builders/EndConditionBuilder.h:20-24 | a default condition whose type alone is ThroughAll |
| BuildersEndConditions.UpToSurface | builders/EndConditionBuilder.h:27-35 | up to a face with the reference and offset, recording the offset exactly when its size exceeds 1e-9 |
| BuildersEndConditions.UpToVertex | builders/EndConditionBuilder.h:38-46 | up to a vertex with the same offset rule |
| BuildersEndConditions.UpToNext | builders/EndConditionBuilder.h:49-53 | a default condition whose type alone is UpToNext |
| ServiceExtrudeBuilder.ExtrudeBuilder.constructor | service/builders/ExtrudeBuilder.h:27-28 | a default extrude with the name and next UUID: no profile, direction (0,0,1), one blind end condition, BOSS |
| ServiceExtrudeBuilder.ExtrudeBuilder.SetProfile | service/builders/ExtrudeBuilder.h:37-44 | the profile becomes the sketch the ID finds; when none is found it throws and nothing changes |
| ServiceExtrudeBuilder.ExtrudeBuilder.SetProfileByName | service/builders/ExtrudeBuilder.h:56-62 | the name resolves to the first matching feature's ID; an empty ID or "UnknownSketchId" throws, any other is passed to SetProfile |
| ServiceExtrudeBuilder.ExtrudeBuilder.SetProfileByExternalID | service/builders/ExtrudeBuilder.h:71-79 | the profile becomes the sketch the external ID finds, or it throws and nothing changes |
| ServiceExtrudeBuilder.ExtrudeBuilder.SetDirection | service/builders/ExtrudeBuilder.h:91-102 | a vector shorter than 1e-9 (squared length below 1e-18) throws and changes nothing; any other is stored normalised and nothing else changes |
| ServiceExtrudeBuilder.ExtrudeBuilder.SetOperation | service/builders/ExtrudeBuilder.h:110-113 | only the operation changes |
| ServiceExtrudeBuilder.ExtrudeBuilder.SetEndCondition1 | service/builders/ExtrudeBuilder.h:123-132 | an Unknown condition is ignored; a rejected reference throws; otherwise it becomes the first end condition |
| ServiceExtrudeBuilder.ExtrudeBuilder.SetEndCondition2 | service/builders/ExtrudeBuilder.h:142-151 | the same for the second end condition, which becomes present |
| ServiceExtrudeBuilder.ExtrudeBuilder.SetDraft | service/builders/ExtrudeBuilder.h:161-167 | a negative angle throws and changes nothing; otherwise exactly the given draft is stored |
| ServiceExtrudeBuilder.ExtrudeBuilder.SetThinWall | service/builders/ExtrudeBuilder.h:178-185 | a thickness not above 0 throws and changes nothing; otherwise exactly the given thin wall is stored |
| ServiceExtrudeBuilder.NamedProfileIsSketch | service/builders/ExtrudeBuilder.h:56-62 | a profile found through the name is a sketch of the model carrying the first named feature's ID |
| BuildersExtrudeBuilder.ExtrudeBuilder.constructor | builders/ExtrudeBuilder.h:17-20 | a default extrude whose direction is (0,0,1) |
| BuildersExtrudeBuilder.ExtrudeBuilder.SetProfile | builders/ExtrudeBuilder.h:22-29 | the profile becomes the sketch the ID finds, or it throws and nothing changes |
| BuildersExtrudeBuilder.ExtrudeBuilder.SetProfileByExternalID | builders/ExtrudeBuilder.h:31-39 | the profile becomes the sketch the external ID finds, or it throws |
| BuildersExtrudeBuilder.ExtrudeBuilder.SetDirection | builders/ExtrudeBuilder.h:41-46 | the normalised vector is stored and nothing else changes; one no longer than Epsilon (compared squared) is stored as it is |
| BuildersExtrudeBuilder.ExtrudeBuilder.SetOperation | builders/ExtrudeBuilder.h:48-51 | only the operation changes |
| BuildersExtrudeBuilder.ExtrudeBuilder.SetEndCondition1 | builders/ExtrudeBuilder.h:53-56 | the condition is stored as given, unvalidated |
| BuildersExtrudeBuilder.ExtrudeBuilder.SetEndCondition2 | builders/ExtrudeBuilder.h:57-60 | the second condition is stored as given and becomes present |
| BuildersExtrudeBuilder.ExtrudeBuilder.SetDraft | builders/ExtrudeBuilder.h:62-68 | a negative angle throws; otherwise exactly the draft is stored |
| BuildersExtrudeBuilder.ExtrudeBuilder.SetThinWall | builders/ExtrudeBuilder.h:70-77 | a thickness not above 0 throws; otherwise exactly the thin wall is stored |
| IncludeExtrudeBuilder.ExtrudeBuilder.constructor | include/ExtrudeBuilder.h:15-18 | a default extrude whose direction is (0,0,1) |
| IncludeExtrudeBuilder.ExtrudeBuilder.SetProfile | include/ExtrudeBuilder.h:20-27 | the profile becomes the sketch the ID finds, or it throws and nothing changes |
| IncludeExtrudeBuilder.ExtrudeBuilder.SetDirection | include/ExtrudeBuilder.h:29-34 | the normalised vector is stored with no zero check and nothing else changes; one no longer than Epsilon (compared squared) is stored as it is |
| IncludeExtrudeBuilder.ExtrudeBuilder.SetOperation | include/ExtrudeBuilder.h:36-39 | only the operation changes |
| IncludeExtrudeBuilder.ExtrudeBuilder.SetEndCondition1 | include/ExtrudeBuilder.h:41-44 | the first condition is stored as given |
| IncludeExtrudeBuilder.ExtrudeBuilder.SetEndCondition2 | include/ExtrudeBuilder.h:45-48 | the second condition is stored and becomes present |
| IncludeExtrudeBuilder.ExtrudeBuilder.SetDepth | include/ExtrudeBuilder.h:50-57 | a negative depth throws; otherwise the first condition becomes blind with that depth, keeping its other fields |
| IncludeExtrudeBuilder.ExtrudeBuilder.SetThroughAll | include/ExtrudeBuilder.h:59-62 | only the first condition's type changes |
| IncludeExtrudeBuilder.ExtrudeBuilder.SetUpToSurface | include/ExtrudeBuilder.h:64-72 | up to a copy of the face with the offset, recorded exactly when its size exceeds 1e-6 |
| IncludeExtrudeBuilder.ExtrudeBuilder.SetUpToNext | include/ExtrudeBuilder.h:74-77 | only the first condition's type changes |
| IncludeExtrudeBuilder.ExtrudeBuilder.SetDirection2Depth | include/ExtrudeBuilder.h:79-87 | a negative depth throws; otherwise the second condition becomes a fresh blind one of that depth |
| IncludeExtrudeBuilder.ExtrudeBuilder.SetDirection2ThroughAll | include/ExtrudeBuilder.h:89-93 | the second condition becomes a fresh through-all one |
| IncludeExtrudeBuilder.ExtrudeBuilder.SetDraft | include/ExtrudeBuilder.h:95-101 | a negative angle throws; otherwise exactly the draft is stored |
| IncludeExtrudeBuilder.ExtrudeBuilder.SetThinWall | include/ExtrudeBuilder.h:103-110 | a thickness not above 0 throws; otherwise exactly the thin wall is stored |
| IncludeExtrudeBuilder.OffsetThresholdsDiffer | include/ExtrudeBuilder.h:64-72 | this builder records an offset from 1e-6, the service factory from 1e-9: 1e-7 is recorded there and not here |
| IncludeExtrudeBuilder.UpToSurfaceMatchesFactory | include/ExtrudeBuilder.h:64-72 | from a default condition it agrees with the service factory on everything but the offset flag |
| ServiceRevolveBuilder.RevolveBuilder.constructor | service/builders/RevolveBuilder.h:14-15 | a default revolve with the name and next UUID |
| ServiceRevolveBuilder.RevolveBuilder.SetProfile | service/builders/RevolveBuilder.h:17-24 | the ID itself is stored once the model holds a sketch under it; otherwise it throws |
| ServiceRevolveBuilder.RevolveBuilder.SetProfileByExternalID | service/builders/RevolveBuilder.h:26-34 | the internal ID of the sketch the external ID finds is stored; otherwise it throws |
| ServiceRevolveBuilder.RevolveBuilder.SetAxisFromSketchLine | service/builders/RevolveBuilder.h:36-40 | only the axis's sketch line ID changes |
| ServiceRevolveBuilder.RevolveBuilder.SetAxisExplicit | service/builders/RevolveBuilder.h:42-49 | only the axis origin and normalised direction change |
| ServiceRevolveBuilder.RevolveBuilder.SetAxisRef | service/builders/RevolveBuilder.h:51-55 | only the axis reference changes, null included |
| ServiceRevolveBuilder.RevolveBuilder.SetAngle | service/builders/RevolveBuilder.h:57-62 | a one-sided revolve by the angle, second angle 0 |
| ServiceRevolveBuilder.RevolveBuilder.SetTwoWayAngle | service/builders/RevolveBuilder.h:64-69 | a two-way revolve by both angles |
| ServiceRevolveBuilder.RevolveBuilder.SetSymmetricAngle | service/builders/RevolveBuilder.h:71-76 | a symmetric revolve with both angles the total |
| ServiceRevolveBuilder.AxisSettersKeepKind | service/builders/RevolveBuilder.h:36-55 | no axis setter changes the axis kind |
| ServiceRevolveBuilder.ExternalProfileIdResolves | service/builders/RevolveBuilder.h:26-34 | with unique IDs the stored ID finds the same sketch again |
| ServiceReferenceBuilder.RefFaceBuilder.constructor | service/builders/ReferenceBuilder.h:26-30 | a face reference on the parent and topology index, every other field at its default |
| ServiceReferenceBuilder.RefFaceBuilder.Centroid | service/builders/BuilderMacros.h:51-60 | only the centroid changes, to the point given |
| ServiceReferenceBuilder.RefFaceBuilder.Normal | service/builders/BuilderMacros.h:92-101 | only the normal changes, to the vector given |
| ServiceReferenceBuilder.RefFaceBuilder.UDir | service/builders/BuilderMacros.h:92-101 | only the U direction changes |
| ServiceReferenceBuilder.RefFaceBuilder.VDir | service/builders/BuilderMacros.h:92-101 | only the V direction changes |
| ServiceReferenceBuilder.RefVertexBuilder.constructor | service/builders/ReferenceBuilder.h:65-69 | a vertex reference on the parent and index at the origin |
| ServiceReferenceBuilder.RefVertexBuilder.Pos | service/builders/BuilderMacros.h:51-60 | only the position changes |
| ServiceReferenceBuilder.RefEdgeBuilder.constructor | service/builders/ReferenceBuilder.h:90-94 | an edge reference on the parent and index with zero points |
| ServiceReferenceBuilder.RefEdgeBuilder.StartPoint | service/builders/BuilderMacros.h:51-60 | only the start point changes |
| ServiceReferenceBuilder.RefEdgeBuilder.EndPoint | service/builders/BuilderMacros.h:51-60 | only the end point changes |
| ServiceReferenceBuilder.RefEdgeBuilder.MidPoint | service/builders/BuilderMacros.h:51-60 | only the mid point changes |
| ServiceReferenceBuilder.RefSketchBuilder.constructor | service/builders/ReferenceBuilder.h:125-128 | a whole-sketch reference to the sketch ID |
| ServiceReferenceBuilder.RefPlaneBuilder.constructor | service/builders/ReferenceBuilder.h:149-152 | a datum-plane reference to the ID with a zero frame |
| ServiceReferenceBuilder.RefPlaneBuilder.Origin | service/builders/BuilderMacros.h:51-60 | only the plane origin changes |
| ServiceReferenceBuilder.RefPlaneBuilder.XDir | service/builders/BuilderMacros.h:92-101 | only the X direction changes |
| ServiceReferenceBuilder.RefPlaneBuilder.YDir | service/builders/BuilderMacros.h:92-101 | only the Y direction changes |
| ServiceReferenceBuilder.RefPlaneBuilder.Normal | service/builders/BuilderMacros.h:92-101 | only the plane normal changes |
| ServiceReferenceBuilder.RefAxisBuilder.constructor | service/builders/ReferenceBuilder.h:193-196 | a datum-axis reference to the ID with zero origin and direction |
| ServiceReferenceBuilder.RefAxisBuilder.Origin | service/builders/BuilderMacros.h:51-60 | only the axis origin changes |
| ServiceReferenceBuilder.RefAxisBuilder.Direction | service/builders/BuilderMacros.h:92-101 | only the axis direction changes |
| ServiceReferenceBuilder.RefPointBuilder.constructor | service/builders/ReferenceBuilder.h:222-225 | a datum-point reference to the ID at the origin |
| ServiceReferenceBuilder.RefPointBuilder.Position | service/builders/BuilderMacros.h:51-60 | only the position changes |
| ServiceReferenceBuilder.RefSketchSegBuilder.constructor | service/builders/ReferenceBuilder.h:248-255 | a sketch-segment reference on the sketch, index and segment local ID |
| ServiceReferenceBuilder.Face | service/builders/ReferenceBuilder.h:270-271 | a fresh face builder, as its constructor states |
| ServiceReferenceBuilder.Vertex | service/builders/ReferenceBuilder.h:277-278 | a fresh vertex builder |
| ServiceReferenceBuilder.Edge | service/builders/ReferenceBuilder.h:284-285 | a fresh edge builder |
| ServiceReferenceBuilder.Plane | service/builders/ReferenceBuilder.h:291-292 | a fresh plane builder |
| ServiceReferenceBuilder.Axis | service/builders/ReferenceBuilder.h:298-299 | a fresh axis builder |
| ServiceReferenceBuilder.Point | service/builders/ReferenceBuilder.h:305-306 | a fresh point builder |
| ServiceReferenceBuilder.Sketch | service/builders/ReferenceBuilder.h:312-313 | a fresh whole-sketch builder |
| ServiceReferenceBuilder.SketchSegment | service/builders/ReferenceBuilder.h:319-322 | a fresh sketch-segment builder |
| ServiceReferenceBuilder.XY | service/builders/ReferenceBuilder.h:326-332 | the XY datum plane at the origin with axes X, Y and normal Z |
| ServiceReferenceBuilder.YZ | service/builders/ReferenceBuilder.h:334-340 | the YZ datum plane with axes Y, Z and normal X |
| ServiceReferenceBuilder.ZX | service/builders/ReferenceBuilder.h:342-348 | the ZX datum plane with axes Z, X and normal Y |
| ServiceReferenceBuilder.XYFrameReconstructs | service/builders/ReferenceBuilder.h:326-332 | normal cross X direction gives back the stored Y direction, so the frame survives a save that drops it |
| ServiceReferenceBuilder.YZFrameReconstructs | service/builders/ReferenceBuilder.h:334-340 | the same for the YZ frame |
| ServiceReferenceBuilder.ZXFrameReconstructs | service/builders/ReferenceBuilder.h:342-348 | the same for the ZX frame |
| BuildersReferenceBuilder.Face | builders/ReferenceBuilder.h:77-78 | a fresh face builder on the parent and index with default geometry |
| BuildersReferenceBuilder.Vertex | builders/ReferenceBuilder.h:80-81 | a fresh vertex builder at the origin |
| BuildersReferenceBuilder.Edge | builders/ReferenceBuilder.h:83-84 | a fresh edge builder with zero points |
| BuildersReferenceBuilder.Plane | builders/ReferenceBuilder.h:87-91 | a bare feature reference of datum-plane type targeting the ID, with no frame |
| BuildersReferenceBuilder.XY | builders/ReferenceBuilder.h:94-96 | the bare datum-plane reference to the XY standard ID |
| BuildersReferenceBuilder.YZ | builders/ReferenceBuilder.h:97-99 | the bare datum-plane reference to the YZ standard ID |
| BuildersReferenceBuilder.ZX | builders/ReferenceBuilder.h:100-102 | the bare datum-plane reference to the ZX standard ID |
| BuildersReferenceBuilder.PlaneRefsAreNeverRejected | builders/ReferenceBuilder.h:87-91 | a bare plane reference passes the service layer's reference check whatever ID it names |
| TypeAdapters.FromMembers | core/TypeAdapters.h:12-18 | the x, y and z members become the point's coordinates |
| TypeAdapters.FromVec3 | core/TypeAdapters.h:21-23 | a CPoint3D or CVector3D is passed through unchanged |
| TypeAdapters.FromArray | core/TypeAdapters.h:28-34 | elements 0, 1 and 2 become x, y and z |
| TypeAdapters.ToMembers | core/TypeAdapters.h:61-63 | the user type is built from x, y and z |
| TypeAdapters.ToArray | core/TypeAdapters.h:69-74 | a three-element array of x, y and z |
| TypeAdapters.MembersRoundTrip | core/TypeAdapters.h:61-63 | writing then reading a member type, and reading then writing, are both the identity |
| TypeAdapters.ArrayRoundTrip | core/TypeAdapters.h:69-74 | the same two round trips for three-element arrays |
| TypeAdapters.AdaptersAgree | core/TypeAdapters.h:12-34 | all three readers agree on what the writers produce |
| ReferenceAccessors.GetRefType | service/accessors/ReferenceAccessor.h:34-38 | the stored type, or the datum-plane type for a null reference |
| ReferenceAccessors.GetParentFeatureID | service/accessors/ReferenceAccessor.h:46-51 | the parent of a face, edge, vertex or sketch-segment reference, "" for anything else or null |
| ReferenceAccessors.GetTargetFeatureID | service/accessors/ReferenceAccessor.h:57-62 | the target of a feature, plane, sketch, axis or point reference, "" for anything else or null |
| ReferenceAccessors.IsStandard | service/accessors/ReferenceAccessor.h:67-74 | true exactly for a feature reference whose target is one of the seven standard IDs |
| ReferenceAccessors.GetTopologyIndex | service/accessors/ReferenceAccessor.h:79-84 | the topology index of a sub-topology reference, -1 otherwise |
| ReferenceAccessors.GetFaceNormal | service/accessors/ReferenceAccessor.h:92-98 | succeeds exactly on a face reference and yields its normal |
| ReferenceAccessors.GetFaceCentroid | service/accessors/ReferenceAccessor.h:111-117 | succeeds exactly on a face reference and yields its centroid |
| ReferenceAccessors.GetFaceUDir | service/accessors/ReferenceAccessor.h:130-136 | succeeds exactly on a face reference and yields its U direction |
| ReferenceAccessors.GetFaceVDir | service/accessors/ReferenceAccessor.h:149-155 | succeeds exactly on a face reference and yields its V direction |
| ReferenceAccessors.GetEdgeStartPoint | service/accessors/ReferenceAccessor.h:168-174 | succeeds exactly on an edge reference and yields its start point |
| ReferenceAccessors.GetEdgeEndPoint | service/accessors/ReferenceAccessor.h:187-193 | succeeds exactly on an edge reference and yields its end point |
| ReferenceAccessors.GetEdgeMidPoint | service/accessors/ReferenceAccessor.h:206-212 | succeeds exactly on an edge reference and yields its mid point |
| ReferenceAccessors.GetVertexPosition | service/accessors/ReferenceAccessor.h:225-231 | succeeds exactly on a vertex reference and yields its position |
| ReferenceAccessors.GetPlaneOrigin | service/accessors/ReferenceAccessor.h:244-250 | succeeds exactly on a datum-plane reference and yields its origin |
| ReferenceAccessors.GetPlaneNormal | service/accessors/ReferenceAccessor.h:263-269 | succeeds exactly on a datum-plane reference and yields its normal |
| ReferenceAccessors.GetPlaneXDir | service/accessors/ReferenceAccessor.h:282-288 | succeeds exactly on a datum-plane reference and yields its X direction |
| ReferenceAccessors.GetPlaneYDir | service/accessors/ReferenceAccessor.h:301-307 | succeeds exactly on a datum-plane reference and yields its Y direction |
| ReferenceAccessors.GetAxisOrigin | service/accessors/ReferenceAccessor.h:320-326 | succeeds exactly on a datum-axis reference and yields its origin |
| ReferenceAccessors.GetAxisDirection | service/accessors/ReferenceAccessor.h:339-345 | succeeds exactly on a datum-axis reference and yields its direction |
| ReferenceAccessors.GetPointPosition | service/accessors/ReferenceAccessor.h:358-364 | succeeds exactly on a datum-point reference and yields its position |
| ReferenceAccessors.ParentOrTarget | service/accessors/ReferenceAccessor.h:46-84 | a reference never yields both a parent and a target; a standard one has no parent and index -1 |
| ReferenceAccessors.FaceReadsBack | service/accessors/ReferenceAccessor.h:92-155 | every face field the builder sets reads back unchanged, and no edge, vertex or plane getter succeeds |
| ReferenceAccessors.EdgeReadsBack | service/accessors/ReferenceAccessor.h:168-212 | every edge field the builder sets reads back unchanged |
| ReferenceAccessors.VertexReadsBack | service/accessors/ReferenceAccessor.h:225-231 | the vertex position reads back unchanged |
| ReferenceAccessors.PlaneReadsBack | service/accessors/ReferenceAccessor.h:244-307 | the plane's whole frame reads back unchanged |
| ReferenceAccessors.AxisAndPointReadBack | service/accessors/ReferenceAccessor.h:320-364 | axis origin, direction and point position read back unchanged |
| ReferenceAccessors.NullReadsDefaults | service/accessors/ReferenceAccessor.h:31-84 | a null accessor gives the datum-plane type, empty IDs, index -1 and fails every geometry getter |
| ReferenceAccessors.StandardTargetsReadAsStandard | service/accessors/ReferenceAccessor.h:67-74 | every datum reference aimed at a standard ID reads as standard |
| ReferenceAccessors.StandardIsNotAcceptance | service/accessors/ReferenceAccessor.h:67-74 | a plane aimed at a standard axis ID reads as standard yet the builder check rejects it in an empty model |
| FeatureAccessors.ViewKind | service/accessors/ExtrudeAccessor.h:25-28 | only the base accessor class accepts a feature of any class |
| FeatureAccessors.KindView | service/accessors/ExtrudeAccessor.h:25-28 | each feature class has a derived accessor class whose cast it passes |
| FeatureAccessors.ViewOf | service/accessors/ExtrudeAccessor.h:30-38 | wrapping another accessor, or a null pointer to one, is valid exactly when its feature is present and of the class |
| FeatureAccessors.As | service/accessors/FeatureAccessorBase.h:40-47 | an accessor of the class on the same feature, present exactly when that accessor is valid |
| FeatureAccessors.GetID | service/accessors/FeatureAccessorBase.h:50 | the feature ID when valid, "" otherwise |
| FeatureAccessors.GetName | service/accessors/FeatureAccessorBase.h:52-54 | the feature name when valid, "" otherwise |
| FeatureAccessors.GetExternalID | service/accessors/FeatureAccessorBase.h:56-58 | the external ID when valid, "" otherwise |
| FeatureAccessors.IsSuppressed | service/accessors/FeatureAccessorBase.h:60-62 | true exactly when valid and suppressed |
| FeatureAccessors.IsType | service/accessors/FeatureAccessorBase.h:75-78 | true exactly when valid and of the class asked |
| FeatureAccessors.AsAgreesWithIsType | service/accessors/FeatureAccessorBase.h:40-78 | on a base accessor the cast succeeds exactly when the type test holds, and reads the same ID and name |
| FeatureAccessors.WrongViewHidesFields | service/accessors/FeatureAccessorBase.h:30-62 | through an accessor of the wrong class every common getter gives its default; through a base accessor the stored value |
| SegmentAccessors.GetType | service/accessors/SketchAccessor.h:30-32 | the segment's type, LINE for a null segment |
| SegmentAccessors.GetLocalID | service/accessors/SketchAccessor.h:34 | the local ID, "" for a null segment |
| SegmentAccessors.IsConstruction | service/accessors/SketchAccessor.h:36-38 | true exactly for a present construction segment |
| SegmentAccessors.GetLineCoords | service/accessors/SketchAccessor.h:41-48 | succeeds exactly on a line and yields its start and end |
| SegmentAccessors.GetCircleParams | service/accessors/SketchAccessor.h:61-68 | succeeds exactly on a full circle and yields its centre and radius |
| SegmentAccessors.GetArcParams | service/accessors/SketchAccessor.h:82-93 | succeeds exactly on an arc and yields centre, radius, angles and end points |
| SegmentAccessors.GetPointCoord | service/accessors/SketchAccessor.h:112-118 | succeeds exactly on a point and yields its position |
| SegmentAccessors.GettersRebuildSegment | service/accessors/SketchAccessor.h:27-118 | exactly the typed getter matching the type succeeds, and the getters together rebuild the segment |
| SegmentAccessors.NullReportsLineWithoutCoords | service/accessors/SketchAccessor.h:30-48 | a null segment reports type LINE yet yields no line coordinates |
| SketchAccessors.GetReferencePlane | service/accessors/SketchAccessor.h:179 | the reference plane in an accessor, null when invalid or without one |
| SketchAccessors.HasReferencePlane | service/accessors/SketchAccessor.h:181-183 | true exactly when valid and a plane is set |
| SketchAccessors.GetSegmentCount | service/accessors/SketchAccessor.h:212-216 | the number of segments, 0 when invalid |
| SketchAccessors.GetSegment | service/accessors/SketchAccessor.h:218-223 | the segment at the index, a null accessor outside the range |
| SketchAccessors.FirstWithLocalId | service/accessors/SketchAccessor.h:228-232 | the first position holding the local ID, none when no segment has it |
| SketchAccessors.GetSegmentByLocalID | service/accessors/SketchAccessor.h:225-234 | the first segment with the local ID, null when none has it or the accessor is invalid |
| SketchAccessors.GetConstraintCount | service/accessors/SketchAccessor.h:237-241 | the number of constraints, 0 when invalid |
| SketchAccessors.GetConstraint | service/accessors/SketchAccessor.h:243-248 | the constraint at the index, null outside the range |
| SketchAccessors.BuilderIdsFindTheirSegment | service/accessors/SketchAccessor.h:218-234 | with the builders' unique local IDs, lookup by the ID read at a position finds that same segment |
| ExtrudeAccessors.GetProfileSketchID | service/accessors/ExtrudeAccessor.h:48-53 | the profile sketch's ID, "" when invalid or without a profile |
| ExtrudeAccessors.GetDirection | service/accessors/ExtrudeAccessor.h:56-59 | the stored direction, (0,0,1) when invalid |
| ExtrudeAccessors.GetOperation | service/accessors/ExtrudeAccessor.h:60 | the stored operation, BOSS when invalid |
| ExtrudeAccessors.GetEndType1 | service/accessors/ExtrudeAccessor.h:76-79 | the first condition's type, BLIND when invalid |
| ExtrudeAccessors.GetDepth1 | service/accessors/ExtrudeAccessor.h:81-83 | the first depth, 0 when invalid |
| ExtrudeAccessors.GetOffset1 | service/accessors/ExtrudeAccessor.h:85-87 | the first offset, 0 when invalid |
| ExtrudeAccessors.HasOffset1 | service/accessors/ExtrudeAccessor.h:89-91 | true exactly when valid and the first condition has an offset |
| ExtrudeAccessors.IsFlip1 | service/accessors/ExtrudeAccessor.h:93 | true exactly when valid and the first condition is flipped |
| ExtrudeAccessors.IsFlipMaterialSide1 | service/accessors/ExtrudeAccessor.h:95-97 | true exactly when valid and the material side is flipped |
| ExtrudeAccessors.GetReference1 | service/accessors/ExtrudeAccessor.h:99-104 | the first condition's reference, null when invalid |
| ExtrudeAccessors.HasDirection2 | service/accessors/ExtrudeAccessor.h:109-111 | true exactly when valid and a second condition is set |
| ExtrudeAccessors.GetEndType2 | service/accessors/ExtrudeAccessor.h:113-117 | the second condition's type, BLIND without one |
| ExtrudeAccessors.GetDepth2 | service/accessors/ExtrudeAccessor.h:119-123 | the second depth, 0 without a second condition |
| ExtrudeAccessors.GetOffset2 | service/accessors/ExtrudeAccessor.h:125-129 | the second offset, 0 without a second condition |
| ExtrudeAccessors.HasOffset2 | service/accessors/ExtrudeAccessor.h:131-133 | true exactly when the second condition exists and has an offset |
| ExtrudeAccessors.IsFlip2 | service/accessors/ExtrudeAccessor.h:135-137 | true exactly when the second condition exists and is flipped |
| ExtrudeAccessors.IsFlipMaterialSide2 | service/accessors/ExtrudeAccessor.h:139-141 | true exactly when the second condition exists and flips the material side |
| ExtrudeAccessors.GetReference2 | service/accessors/ExtrudeAccessor.h:143-148 | the second condition's reference, null without one |
| ExtrudeAccessors.HasDraft | service/accessors/ExtrudeAccessor.h:151 | true exactly when valid and a draft is set |
| ExtrudeAccessors.GetDraftAngle | service/accessors/ExtrudeAccessor.h:152 | the draft angle, 0 without a draft |
| ExtrudeAccessors.IsDraftOutward | service/accessors/ExtrudeAccessor.h:157-161 | true exactly when a draft is set and is outward |
| ExtrudeAccessors.HasThinWall | service/accessors/ExtrudeAccessor.h:164 | true exactly when valid and a thin wall is set |
| ExtrudeAccessors.GetThinWallThickness | service/accessors/ExtrudeAccessor.h:165 | the wall thickness, 0 without a thin wall |
| ExtrudeAccessors.IsThinWallOneSided | service/accessors/ExtrudeAccessor.h:167-171 | true exactly when a thin wall is set and is one-sided |
| ExtrudeAccessors.IsThinWallCovered | service/accessors/ExtrudeAccessor.h:173-177 | true exactly when a thin wall is set and is covered |
| ExtrudeAccessors.EndConditionsReadBack | service/accessors/ExtrudeAccessor.h:76-148 | the getters together give back each stored end condition, and the default condition when there is none |
| ExtrudeAccessors.OptionsReadBack | service/accessors/ExtrudeAccessor.h:151-177 | a present draft or thin wall reads back exactly; an absent one reads as the defaults |
| ExtrudeAccessors.ProfileIdReadsBack | service/accessors/ExtrudeAccessor.h:48-53 | a profile the builder set by ID or by external ID reads back as the found sketch's ID |
| RevolveAccessors.GetProfileSketchID | service/accessors/RevolveAccessor.h:45 | the profile sketch ID, "" when invalid |
| RevolveAccessors.GetAxisOrigin | service/accessors/RevolveAccessor.h:49-51 | the axis origin, (0,0,0) when invalid |
| RevolveAccessors.GetAxisDirection | service/accessors/RevolveAccessor.h:53-55 | the axis direction, (0,0,1) when invalid |
| RevolveAccessors.GetAxisReference | service/accessors/RevolveAccessor.h:57-62 | the axis reference, null when invalid |
| RevolveAccessors.GetAngleKind | service/accessors/RevolveAccessor.h:65-66 | the angle kind, Single when invalid |
| RevolveAccessors.GetPrimaryAngle | service/accessors/RevolveAccessor.h:67 | the first angle, 0 when invalid |
| RevolveAccessors.GetSecondaryAngle | service/accessors/RevolveAccessor.h:68 | the second angle, 0 when invalid |
| RevolveAccessors.AxisReadsBack | service/accessors/RevolveAccessor.h:49-62 | the axis getters with the stored kind and line ID rebuild the stored axis |
| RevolveAccessors.AnglesReadBack | service/accessors/RevolveAccessor.h:65-68 | what each angle setter stores reads back as its kind and angles |
| RevolveAccessors.DefaultsDisagreeOnDirection | service/accessors/RevolveAccessor.h:53-55 | a default revolve reads a zero direction while an invalid accessor reads (0,0,1) |
| ModelAccessors.ModelAccessor.constructor | service/accessors/ModelAccessor.h:25 | an accessor over a fresh empty model |
| ModelAccessors.ModelAccessor.IsValid | service/accessors/ModelAccessor.h:51 | true exactly when the model holds a feature |
| ModelAccessors.ModelAccessor.GetFeatureCount | service/accessors/ModelAccessor.h:56 | the number of features |
| ModelAccessors.ModelAccessor.GetFeature | service/accessors/ModelAccessor.h:64-70 | a base accessor on the feature at the index, null outside the range |
| ModelAccessors.ModelAccessor.GetFeatureByID | service/accessors/ModelAccessor.h:75-84 | a base accessor on the first feature with the ID, null when none has it |
| ModelAccessors.ModelAccessor.GetAllFeatures | service/accessors/ModelAccessor.h:95-103 | one base accessor per feature, in list order |
| ModelAccessors.ModelAccessor.SetModel | service/accessors/ModelAccessor.h:117 | the accessor now holds a fresh copy of the model |
| ModelAccessors.ValidMeansFirstFeature | service/accessors/ModelAccessor.h:51-70 | valid exactly when feature 0 can be read, which then carries the first feature's ID |
| ModelAccessors.RepeatedIdsSplitLookups | service/accessors/ModelAccessor.h:75-84 | with a repeated ID the accessor finds the first feature and the model index the last |
| DependencyGraph.LexLessIrreflexive | examples/PartReconstructionDemo.cpp:524 | the std::map key order never puts a string before itself |
| DependencyGraph.LexLessTransitive | examples/PartReconstructionDemo.cpp:524 | the key order is transitive |
| DependencyGraph.LexLessTotal | examples/PartReconstructionDemo.cpp:524 | any two different keys are ordered one way or the other |
| DependencyGraph.Lookup | examples/PartReconstructionDemo.cpp:524 | a key is found exactly when the map holds it |
| DependencyGraph.Upsert | examples/PartReconstructionDemo.cpp:531 | assigning under a key adds that key and no other |
| DependencyGraph.UpsertSpec | examples/PartReconstructionDemo.cpp:531 | assigning keeps the map ordered, stores the value and leaves every other key's value alone |
| DependencyGraph.RefDeps | examples/PartReconstructionDemo.cpp:564-573 | at most one non-empty ID: the target, or else the parent, of a present reference |
| DependencyGraph.SketchDeps | examples/PartReconstructionDemo.cpp:535-553 | at most one non-empty ID, chosen by the plane's refType |
| DependencyGraph.ProfileDeps | examples/PartReconstructionDemo.cpp:558-561 | a non-empty profile ID as the one dependency, nothing for "" |
| DependencyGraph.ExtrudeDeps | examples/PartReconstructionDemo.cpp:556-588 | at most three dependencies: profile and the two condition references |
| DependencyGraph.RevolveDeps | examples/PartReconstructionDemo.cpp:590-608 | at most two dependencies: profile and axis reference |
| DependencyGraph.DepsOf | examples/PartReconstructionDemo.cpp:534-608 | no empty ID is ever listed, and at most three are |
| DependencyGraph.SketchDepsByRefType | examples/PartReconstructionDemo.cpp:540-552 | a datum-plane refType gives the target, a face refType the parent, any other refType or no plane nothing |
| DependencyGraph.ExtrudeDepsOfFields | examples/PartReconstructionDemo.cpp:556-588 | the profile, then the first reference, then the second only when a second condition exists |
| DependencyGraph.RevolveDepsOfFields | examples/PartReconstructionDemo.cpp:590-608 | the profile ID, then the axis reference |
| DependencyGraph.DependencyListSpec | examples/PartReconstructionDemo.cpp:526-609 | the map is ordered, and each model ID maps to the dependencies of the last feature with that ID |
| DependencyGraph.BuildDependencies | examples/PartReconstructionDemo.cpp:526-609 | the extraction loop builds exactly that map |
| RebuildOrder.Unprocessed | examples/PartReconstructionDemo.cpp:672-673 | exactly the map's keys not yet processed, each listed |
| RebuildOrder.AllDepsProcessed | examples/PartReconstructionDemo.cpp:650-656 | true exactly when every dependency is processed |
| RebuildOrder.RunPass | examples/PartReconstructionDemo.cpp:646-666 | the pass emits the IDs the pass specification gives and adds each of them, new, to the processed set |
| RebuildOrder.ListUnsorted | examples/PartReconstructionDemo.cpp:669-690 | the stall report lists the unprocessed keys in key order |
| RebuildOrder.EmitOrder | examples/PartReconstructionDemo.cpp:638-695 | the ordering loop yields the rebuild specification's order and stall flag, and the stall report's IDs |
| RebuildOrder.PassRespects | examples/PartReconstructionDemo.cpp:646-666 | one pass emits only new keys, each once, each after all its dependencies |
| RebuildOrder.PassesRespect | examples/PartReconstructionDemo.cpp:643-695 | every pass up to the stall or the end keeps that order valid |
| RebuildOrder.RebuildRespectsDeps | examples/PartReconstructionDemo.cpp:638-695 | the rebuild order holds map keys only, each once, each after its dependencies |
| RebuildOrder.EmptyPassBlocked | examples/PartReconstructionDemo.cpp:669 | after a pass that emits nothing every unprocessed feature has an unprocessed dependency |
| RebuildOrder.PassesStall | examples/PartReconstructionDemo.cpp:669-691 | the loop reports a stall only when a pass emitted nothing with features left |
| RebuildOrder.StallReportsBlockedFeatures | examples/PartReconstructionDemo.cpp:669-691 | a stall leaves something unsorted, and every feature listed waits on a dependency never processed |
| RebuildOrder.PassGrows | examples/PartReconstructionDemo.cpp:663 | a pass that emits something grows the processed set within the map's keys |
| RebuildOrder.PassesComplete | examples/PartReconstructionDemo.cpp:640-643 | without a stall the passes end with every key processed |
| RebuildOrder.RebuildComplete | examples/PartReconstructionDemo.cpp:640-643 | without a stall every feature ID is emitted; the square bound never cuts the loop short |
| RebuildOrder.UnknownDependencyBlocks | examples/PartReconstructionDemo.cpp:651-656 | a feature depending on an ID outside the map is never emitted |
| RebuildOrder.AcyclicNeverStalls | examples/PartReconstructionDemo.cpp:643-695 | with acyclic dependencies on known features the loop never stalls and emits every feature |
| RebuildOrder.PassAscending | examples/PartReconstructionDemo.cpp:646 | within one pass the IDs come out in key order |
| RebuildOrder.SamePassExample | examples/PartReconstructionDemo.cpp:646-666 | a dependency visited earlier lets its feature go in the same pass |
| RebuildOrder.LaterPassExample | examples/PartReconstructionDemo.cpp:646-666 | a dependency with a later key delays its feature to the next pass |
| RebuildOrder.StallExamples | examples/PartReconstructionDemo.cpp:669-691 | a cycle or a standard-plane dependency stalls the first pass |
| RebuildOrder.AnalyzeDependencies | examples/PartReconstructionDemo.cpp:514-696 | the order is valid, complete unless stalled, and a stall lists the blocked features |
| ResolvePlane.SolidWorksName | test/SolidWorks/WritePartTest.cpp:53-60 | XY to Front Plane, YZ to Right Plane, ZX to Top Plane, one for one |
| ResolvePlane.ResolveReferencePlane | test/SolidWorks/WritePartTest.cpp:48-68 | never empty; Front Plane exactly for the XY plane or a feature named so; UnknownPlane exactly for null, sub-topology, empty or so-named targets |
| ResolvePlane.ResolutionCases | test/SolidWorks/WritePartTest.cpp:53-67 | standard planes by SolidWorks name, other feature references by target, sub-topology as unknown |
| ResolvePlane.StandardNamesDistinct | test/SolidWorks/WritePartTest.cpp:53-60 | the three standard planes get three different names, none UnknownPlane |
| ResolvePlane.ServicePlanesResolve | test/SolidWorks/WritePartTest.cpp:53-60 | the service facade's XY, YZ and ZX planes resolve to Front, Right and Top Plane |
| ResolvePlane.BareStandardPlanesKeepTheirIds | test/SolidWorks/WritePartTest.cpp:62-65 | the older facade's bare standard planes resolve to their raw IDs |
| ResolvePlane.NamesCollide | test/SolidWorks/WritePartTest.cpp:53-65 | a feature named Front Plane resolves like the XY datum plane |

## Left out

- The tinyxml2 DOM, `SaveFile`/`LoadFile` and their error strings. An XML document is a value, and the parsed input is a parameter.
- cereal's archive formats, type registration and shared-pointer tracking. An archive is a list of named values, so only which fields are listed, and in what order, is modelled.
- The JSON feature formatters, `CADSerializer`'s format dispatch and stream opening, and the serializer declarations header. They wrap library calls.
- The exact text of doubles (`ostringstream` and `std::stod`). It is a `RealFormat` parameter, and the round trips assume it is faithful; IEEE rounding and precision loss are not modelled.
- Text.ScanInt: tinyxml2's source is not part of this model, so its reader follows sscanf's documented "%d" and "%x" rules. A decimal value outside the 32-bit range, which C leaves undefined, is returned unbounded. "0x" with no hexadecimal digit after it is read as a failure, although some C libraries read it as 0.
- Geometry.IsParallel: the test is stated without the square root and is the source's test over the reals (see its comment). Floating-point rounding is not modelled.
- Geometry.Sqrt: the value a vector is divided by in `Normalize` (and so in `ComputePlaneYAxis`, `CreateNormalized` and the stored extrude direction) is a stand-in that is exact only at zero and one, so a normalised vector is not promised unit length; every comparison of a length with a threshold is made on squared lengths and is exact.
- Fixed-width integer overflow. `int` counters, `maxIterations = size * size` and topology indexes are unbounded integers here.
- The `std::atomic` counters are plain sequential counters, so their thread safety is not modelled.
- `WideCharToMultiByte`/`MultiByteToWideChar` are foreign calls. Only the empty-input guards around them are modelled; the conversion itself is a parameter.
- `shared_ptr` aliasing. A reference or feature held by two owners is a value here, so a change through one owner is not seen through the other.
- The mutable `Features()` accessor of both model classes (core/UnifiedModel.h:150, include/UnifiedModel.h:117) hands out the feature vector itself, so a caller can add, remove or reorder features without the ID and name indexes being updated; the model offers only the indexed operations, and its index invariant does not cover changes made that way.
- The builders' returned `*this` for chaining. A setter is a method on the builder, and the chain is a sequence of calls.
- Default arguments are explicit parameters.
- Template adapters for user types other than x/y/z members, `CPoint3D`/`CVector3D` and three-element arrays. Their element types are taken to be double.
- builders/FeatureBuilderBase.h is not part of this model. The middle-generation extrude builder is bound to the service-layer base instead.
- FeatureAccessorBase's `GetFeatureType` and SketchAccessor's `GetCSys`. The `featureType` and `sketchCSys` fields they read are not declared in the data model's headers.
- Null entries inside the model's feature list and inside a sketch's segment list. Lists hold values, and the source's null-pointer skips are never taken.
- The raw-pointer accessors (`Data()`, `operator->`, `GetRaw`, `GetRawModel`). They expose the same values the getters read.
- The SPLINE segment type. No segment struct carries it, so the model reads a segment's type from its class.
- `LoadRevolve` has an empty body in the source. The model loads a revolve body as a default revolve, and the lemmas state that loss.
- AnalyzeDependencies: the `std::cout` output, the feature-name printing and `LoadModel` from a file path are left out. The model starts from the loaded model.
- RebuildOrder.AnalyzeDependencies: the printed rebuild order is returned as a list of IDs, and the stall message is the list of unsorted IDs.
- ResolvePlane: the MockSW selection calls around `ResolveReferencePlane` are left out. Only the name mapping is modelled.
- The demo drivers, `main` functions and other tests are left out. They only call the modelled operations.
