# BioMimicry procedural core in Dafny

This project models the core of the BioMimicry Engine, an iOS app that
generates wireframe 3D structures inspired by natural patterns. The model
covers five parts:

- **The procedural generator** (`ProceduralGenerator.swift`). `generateMesh`
  dispatches on the pattern type to one of five generators: honeycomb,
  Voronoi-like cells, branching, spiral and gyroid. Every generator appends
  flat-shaded triangles to a `MeshData` accumulator. The helpers `length`,
  `normalize` and `cross` do the vector math.
- **The pattern catalogue** (`BiomimicryPattern.swift`). It holds the
  `PatternType` enum, the five pattern constants and `allPatterns`.
- **The reference lookups** (`BiomimicryDatabase.swift`). These are
  `getPattern`, `getAllPatterns`, `getRandomPattern` and
  `getEngineeringApplications`.
- **The design store** (`StorageService.swift`). It keeps the saved designs,
  newest first, and writes them through to the persistent store on every
  change.
- **The gallery's view model** (`GalleryViewModel.swift`). It holds a copy of
  the store's list and the current selection.

## How the source maps onto the model

- Every `Float` is an exact `real`. The `sqrt` in the honeycomb distance
  test is read as the exact real square root (`Honeycomb.WithinRadius`). All
  other `sqrt`, `sin` and `cos` calls are fields of a `FloatMath` value passed
  to every generator, so no property depends on their values. `.pi` is the constant 3.1415925025939941, Swift's `Float.pi`
  (π rounded toward zero to single precision).
- Each random draw becomes a nondeterministic choice (`:|`) from the range the
  source draws from. This covers `drand48`, `Int.random`, `Float.random` and
  `randomElement`. The generators report their draws through ghost
  out-parameters: Voronoi centers and side counts, branching limbs and spiral
  rings.
- `MeshData` is a class with three sequence fields. `AddTriangle` appends
  three vertices, one face normal three times, and three sequential indices.
  The invariant `Valid()` says:
  - the normals run parallel to the vertices;
  - index k names vertex k;
  - every face's normal is orthogonal to the face's edges.
- `addHexagonalPrism` and `addVoronoiCell` share one face loop, modelled once
  as `Extrusion.ExtrudePolygon`.
- Swift's `Int(x)` truncates toward zero (`Design.TruncToInt`). A count that
  comes out negative makes the source's range `-g...g` or `0...n` trap, so
  each generator requires its count to be non-negative. Every non-negative
  density meets this (`Generator.NonNegativeDensityGenerable`).
- Counting functions give the number of triangles each generator emits:
  - `Honeycomb.CellCount` counts the accepted cells;
  - `Branching.CylinderCount` counts the cylinders;
  - `Gyroid.VolumeCount` counts the crossed cubes.

  Each generator's method is proved to emit exactly that many triangles. The
  bounds, monotonicity and closed forms are then proved about the counting
  functions.
- The branching code emits C(0) cylinders, where C(d) = 1 for d ≥ m and
  C(d) = 1 + k(d)·C(d + 1) otherwise, with k(0) = 3 and k(d) = 2 for d > 0.
  For a depth limit m > 0 that is 3·2^m − 2 cylinders including the trunk,
  94 at the cap m = 5 (`Branching.BranchingCylindersBound`).
- `GalleryViewModel.deleteDesign` reloads the list but keeps the selection,
  even when the selection is the deleted design. The model states this
  outright (`selectedDesign == old(selectedDesign)`).

## Model

| member | source | states |
|---|---|---|
| Patterns.RawValueInjective | BioMimicryEngine/Models/BiomimicryPattern.swift:3-9 | distinct enum cases have distinct raw strings |
| Patterns.AllPatternsWellFormed | BioMimicryEngine/Models/BiomimicryPattern.swift:22-80 | every constant's id is its type's raw value; it has four use cases; its three ratings lie in [0, 1] |
| Patterns.AllPatternsListsEachTypeOnce | BioMimicryEngine/Models/BiomimicryPattern.swift:82-84 | `allPatterns` has five entries, one per type, each at its case's declaration position, with no type repeated |
| Database.GetPattern | BioMimicryEngine/Services/BiomimicryDatabase.swift:8-16 | the entry returned has the requested type and that type's raw value as id, and is a well-formed member of `allPatterns` |
| Database.GetPatternInjective | BioMimicryEngine/Services/BiomimicryDatabase.swift:8-16 | different types give entries with different ids |
| Database.GetAllPatterns | BioMimicryEngine/Services/BiomimicryDatabase.swift:18-20 | the list is `getPattern` of honeycomb, voronoi, branching, spiral and gyroid, in that order |
| Database.GetAllPatternsByOrdinal | BioMimicryEngine/Services/BiomimicryDatabase.swift:18-20 | each type's entry sits at the type's ordinal in the list |
| Database.RandomElement | BioMimicryEngine/Services/BiomimicryDatabase.swift:23 | `randomElement()` gives nil exactly for an empty sequence, and otherwise one of its elements |
| Database.GetRandomPattern | BioMimicryEngine/Services/BiomimicryDatabase.swift:22-24 | the result is a catalogue entry and equals `getPattern` of its own type; the `?? .honeycomb` fallback is never needed |
| Database.GetEngineeringApplications | BioMimicryEngine/Services/BiomimicryDatabase.swift:70-107 | every pattern type gets exactly three applications |
| Database.EngineeringFieldsDistinct | BioMimicryEngine/Services/BiomimicryDatabase.swift:70-107 | a pattern's three applications name three different fields |
| Design.TruncToInt | BioMimicryEngine/Services/ProceduralGenerator.swift:34 | `Int(x)` is the integer part of x, rounded toward zero, for both signs |
| Design.TruncToIntMonotone | BioMimicryEngine/Services/ProceduralGenerator.swift:34 | truncation preserves order |
| Geometry.Cross | BioMimicryEngine/Services/ProceduralGenerator.swift:457-463 | `cross(a, b)` is orthogonal to a and to b |
| Geometry.CrossSelfIsZero | BioMimicryEngine/Services/ProceduralGenerator.swift:457-463 | a vector crossed with itself is zero |
| Geometry.CrossScaledSelfIsZero | BioMimicryEngine/Services/ProceduralGenerator.swift:457-463 | a vector crossed with a multiple of itself is zero |
| Geometry.CrossAntiCommutes | BioMimicryEngine/Services/ProceduralGenerator.swift:457-463 | swapping the arguments negates the cross product |
| Geometry.Normalize | BioMimicryEngine/Services/ProceduralGenerator.swift:451-455 | when the length is not positive the vector is returned unchanged; otherwise the result is a positive multiple of the input (same direction), and it is orthogonal to whatever the input is orthogonal to |
| Geometry.PerpendicularAxes | BioMimicryEngine/Services/ProceduralGenerator.swift:226-232 | perp1 is the normalized `cross(d, (0,1,0))`, or `cross(d, (1,0,0))` when the first has length below 0.001; perp1 and perp2 are orthogonal to d and to each other |
| Geometry.RingPoint | BioMimicryEngine/Services/ProceduralGenerator.swift:238-246 | a ring point's offset from its center is orthogonal to every vector that both axes are orthogonal to |
| Mesh.MeshData.constructor | BioMimicryEngine/Services/ProceduralGenerator.swift:31 | `MeshData()` is the empty, valid mesh |
| Mesh.MeshData.TriangleCount | BioMimicryEngine/Services/ProceduralGenerator.swift:426 | the triangle count `indices.count / 3` is a third of the vertex count in a valid mesh |
| Mesh.MeshData.AddTriangle | BioMimicryEngine/Services/ProceduralGenerator.swift:67-71 | `addTriangle(a, b, c)` appends exactly a, b, c, then three copies of the face normal `normalize(cross(b−a, c−a))`, then the next three indices; it keeps the mesh valid and adds one triangle |
| Extrusion.SideVerticesLayout | BioMimicryEngine/Services/ProceduralGenerator.swift:66-90 | one side's twelve vertices: the top cap is the fan triangle (center, p, q) at topY, the bottom cap the same at bottomY wound (center, q, p), and the wall is the quad over p and q split along the diagonal from q at bottomY to p at topY |
| Extrusion.AddSide | BioMimicryEngine/Services/ProceduralGenerator.swift:66-90 | one pass of the face loop appends exactly the twelve side vertices, in order, as four triangles |
| Extrusion.PrismVerticesSide | BioMimicryEngine/Services/ProceduralGenerator.swift:63-90 | in the appended vertices, side i takes vertices 12i to 12i + 11 and joins outline point i to point (i + 1) mod n, so the last side closes the polygon |
| Extrusion.ExtrudePolygon | BioMimicryEngine/Services/ProceduralGenerator.swift:59-91 | four triangles per outline point: per side a top cap, a bottom cap (both flat at center.y ± height/2) and two wall triangles spanning both heights; the appended vertices are exactly the sides in outline order; earlier vertices are kept |
| Honeycomb.GridSize | BioMimicryEngine/Services/ProceduralGenerator.swift:34 | `gridSize = Int(5·density) + 2` is at least 2 for a non-negative density |
| Honeycomb.GridSizeMonotone | BioMimicryEngine/Services/ProceduralGenerator.swift:34 | a denser design never has a smaller grid |
| Honeycomb.CellInsideScaleFree | BioMimicryEngine/Services/ProceduralGenerator.swift:38-41 | for a positive hexRadius, whether a cell is kept does not depend on the scale: the test is the same in lattice units |
| Honeycomb.CellInsideNeedsPositiveRadius | BioMimicryEngine/Services/ProceduralGenerator.swift:41 | with a non-positive hexRadius, no cell passes the strict distance test |
| Honeycomb.CellInsideGrows | BioMimicryEngine/Services/ProceduralGenerator.swift:41 | a cell kept for grid size g1 is kept for any larger g2 |
| Honeycomb.AcceptedCellsGrow | BioMimicryEngine/Services/ProceduralGenerator.swift:36-41 | the set of accepted (row, col) cells grows with the grid size |
| Honeycomb.CellCountBound | BioMimicryEngine/Services/ProceduralGenerator.swift:36-45 | at most (2g + 1)² cells are kept |
| Honeycomb.CellCountMonotone | BioMimicryEngine/Services/ProceduralGenerator.swift:36-45 | a larger grid keeps at least as many cells |
| Honeycomb.HoneycombTrianglesBound | BioMimicryEngine/Services/ProceduralGenerator.swift:30-48 | a honeycomb mesh has at most 24·(2g + 1)² triangles |
| Honeycomb.HoneycombTrianglesMonotone | BioMimicryEngine/Services/ProceduralGenerator.swift:30-48 | at a fixed positive scale, a higher density never gives fewer triangles |
| Honeycomb.HexagonPoints | BioMimicryEngine/Services/ProceduralGenerator.swift:51-57 | six corners at angles i·π/3, all at the center's height |
| Honeycomb.AddHexagonalPrism | BioMimicryEngine/Services/ProceduralGenerator.swift:50-92 | the prism appends exactly 24 triangles: the appended vertices are the six extruded sides over the corners at angles i·π/3, in order; earlier vertices are kept |
| Honeycomb.CellVertices | BioMimicryEngine/Services/ProceduralGenerator.swift:38-42 | a kept cell contributes the 72 vertices of its prism, a rejected cell none |
| Honeycomb.RowVertices | BioMimicryEngine/Services/ProceduralGenerator.swift:37-44 | a row contributes 72 vertices per kept cell |
| Honeycomb.BlockVertices | BioMimicryEngine/Services/ProceduralGenerator.swift:36-45 | a block of rows contributes 72 vertices per kept cell |
| Honeycomb.VisitCell | BioMimicryEngine/Services/ProceduralGenerator.swift:38-43 | one pass of the column loop appends the prism of cell (row, col), with radius 0.9·hexRadius at the cell's offset, exactly when the cell passes the distance test, and nothing otherwise |
| Honeycomb.VisitRow | BioMimicryEngine/Services/ProceduralGenerator.swift:37-44 | one row of the grid adds 24 triangles per accepted cell of that row, and appends the prisms of those cells in column order |
| Honeycomb.VisitRows | BioMimicryEngine/Services/ProceduralGenerator.swift:36-45 | the row loop fills an empty mesh with 24 triangles per kept cell, the prisms of the kept cells row by row |
| Honeycomb.GenerateHoneycomb | BioMimicryEngine/Services/ProceduralGenerator.swift:30-48 | the mesh is valid and has 24 triangles per kept cell of the (2g + 1)² block; its vertices are exactly the prisms of the kept cells, row by row and column by column |
| Voronoi.NumPoints | BioMimicryEngine/Services/ProceduralGenerator.swift:99 | `numPoints = Int(15·density) + 5` is at least 5 for a non-negative density |
| Voronoi.NumPointsMonotone | BioMimicryEngine/Services/ProceduralGenerator.swift:99 | a denser design never has fewer seed points |
| Voronoi.SeedPoints | BioMimicryEngine/Services/ProceduralGenerator.swift:103-107 | numPoints points, all on the ground plane inside the square of half-side \|scale\| |
| Voronoi.CornerDrawn | BioMimicryEngine/Services/ProceduralGenerator.swift:125-129 | a corner built from a jitter in [−0.2, 0.2] and a radius factor in [0.7, 1] is a jittered corner |
| Voronoi.CellOutline | BioMimicryEngine/Services/ProceduralGenerator.swift:124-130 | `sides` corners at the center's height, corner i at angle i·2π/sides plus its jitter and at 0.7 to 1 times the radius |
| Voronoi.AddVoronoiCell | BioMimicryEngine/Services/ProceduralGenerator.swift:120-164 | the side count lies in 5..8; the cell appends four triangles per side, the extruded prism over the drawn jittered corners in angular order, and keeps earlier vertices |
| Voronoi.CellsVerticesAppend | BioMimicryEngine/Services/ProceduralGenerator.swift:113-115 | one more cell continues the mesh's vertex list by that cell's prism |
| Voronoi.CellsDrawnAppend | BioMimicryEngine/Services/ProceduralGenerator.swift:113-115 | one more drawn cell extends the record of drawn cells |
| Voronoi.CellsDrawnAt | BioMimicryEngine/Services/ProceduralGenerator.swift:113-115 | in the record, cell k was drawn around seed point k with as many jittered corners as its side count |
| Voronoi.VisitPoint | BioMimicryEngine/Services/ProceduralGenerator.swift:113-115 | one pass of the cell loop adds the next seed point's cell: four triangles per side, its prism after the earlier cells, and its draw in the record |
| Voronoi.AddCells | BioMimicryEngine/Services/ProceduralGenerator.swift:113-115 | the cell loop fills an empty mesh with one cell per seed point, in order: the vertices are the cells' prisms in seed-point order |
| Voronoi.SumBounds | BioMimicryEngine/Services/ProceduralGenerator.swift:121 | n cells of 5 to 8 sides have between 5n and 8n sides in all |
| Voronoi.VoronoiTrianglesBounds | BioMimicryEngine/Services/ProceduralGenerator.swift:113-115 | a Voronoi mesh has between 20 and 32 triangles per seed point |
| Voronoi.GenerateVoronoi | BioMimicryEngine/Services/ProceduralGenerator.swift:95-118 | numPoints cells with seed points in the square, each of 5 to 8 sides; triangle count is four times the total side count; cell i is drawn around seed point i, and the vertices are the cells' prisms in seed-point order |
| Branching.MaxDepth | BioMimicryEngine/Services/ProceduralGenerator.swift:171 | `min(iterations + 2, 5)`: never above 5, equal to iterations + 2 up to 3 iterations and 5 from there |
| Branching.CylinderCountBelowTrunk | BioMimicryEngine/Services/ProceduralGenerator.swift:187-220 | a limb below the trunk at depth d heads a binary subtree of 2^(m−d+1) − 1 cylinders |
| Branching.CylinderCountFromTrunk | BioMimicryEngine/Services/ProceduralGenerator.swift:187-220 | the trunk's tree has 3·2^m − 2 cylinders for m > 0, and 1 otherwise |
| Branching.BranchingCylindersBound | BioMimicryEngine/Services/ProceduralGenerator.swift:167-185 | at most 94 cylinders for any iterations, and exactly 94 from 3 iterations up |
| Branching.CylinderRings | BioMimicryEngine/Services/ProceduralGenerator.swift:234-247 | start ring point i is at angle i·2π/segments around start; each end ring point has the same offset from end |
| Branching.RingsSquareToAxis | BioMimicryEngine/Services/ProceduralGenerator.swift:224-247 | every ring point's offset is orthogonal to the cylinder's axis direction |
| Branching.AddCylinder | BioMimicryEngine/Services/ProceduralGenerator.swift:222-260 | a cylinder appends exactly 24 triangles and keeps earlier vertices |
| Branching.ChildEnd | BioMimicryEngine/Services/ProceduralGenerator.swift:195-209 | a child ends branchLength from `end` along a direction with azimuth i·2π/n plus a jitter in [−0.3, 0.3] and spread angle in [0.4, 0.8] |
| Branching.TaperedShift | BioMimicryEngine/Services/ProceduralGenerator.swift:215 | tapering a child's radius 0.65·r k times equals tapering r k + 1 times |
| Branching.SubtreeTaper | BioMimicryEngine/Services/ProceduralGenerator.swift:211-218 | a child's subtree, tapered from 0.65·r at depth + 1, is tapered from r at depth |
| Branching.GenerateBranch | BioMimicryEngine/Services/ProceduralGenerator.swift:187-220 | emits CylinderCount(depth, maxDepth) cylinders, 24 triangles each: this limb first, every limb at radius·0.65^(its depth − depth), none below maxDepth |
| Branching.GrowChildren | BioMimicryEngine/Services/ProceduralGenerator.swift:192-219 | the child loop: numBranches full subtrees in a row, 24 triangles per limb |
| Branching.TaperedShrinks | BioMimicryEngine/Services/ProceduralGenerator.swift:215 | tapering a positive radius keeps it positive and, at least once, strictly smaller |
| Branching.DeeperLimbsAreThinner | BioMimicryEngine/Services/ProceduralGenerator.swift:215 | with a positive trunk radius every deeper limb is strictly thinner and still positive |
| Branching.GenerateBranching | BioMimicryEngine/Services/ProceduralGenerator.swift:167-185 | 24 triangles per cylinder of the depth-min(iterations + 2, 5) tree; every limb at depth 0..5 with radius 0.08·scale·0.65^depth |
| Spiral.Segments | BioMimicryEngine/Services/ProceduralGenerator.swift:266-267 | `segments = Int((3 + 2·density)·20)` is at least 60 for a non-negative density |
| Spiral.SegmentsMonotone | BioMimicryEngine/Services/ProceduralGenerator.swift:266-267 | a denser design never has fewer segments |
| Spiral.SampleT | BioMimicryEngine/Services/ProceduralGenerator.swift:273 | t = i/segments lies in [0, 1] for every sample |
| Spiral.SampleTEnds | BioMimicryEngine/Services/ProceduralGenerator.swift:273 | the first sample has t = 0 and the last t = 1 |
| Spiral.SampleTIncreases | BioMimicryEngine/Services/ProceduralGenerator.swift:273 | later samples have strictly larger t |
| Spiral.SpiralRisesAndWidens | BioMimicryEngine/Services/ProceduralGenerator.swift:275-278 | for a positive scale the tube axis climbs and the spiral radius grows with t |
| Spiral.AxisHeightEnds | BioMimicryEngine/Services/ProceduralGenerator.swift:278 | the axis runs from −0.4·scale at t = 0 to 0.4·scale at t = 1 |
| Spiral.TubeRing | BioMimicryEngine/Services/ProceduralGenerator.swift:298-306 | six points, point j at angle j·2π/6 around the center |
| Spiral.RingSquareToTangent | BioMimicryEngine/Services/ProceduralGenerator.swift:285-306 | each tube ring lies in the plane through its center orthogonal to the tangent |
| Spiral.SampleRing | BioMimicryEngine/Services/ProceduralGenerator.swift:273-306 | ring i is the sample ring at t = i/segments |
| Spiral.JoinRings | BioMimicryEngine/Services/ProceduralGenerator.swift:308-314 | joining two rings appends exactly 12 triangles and keeps earlier vertices |
| Spiral.GenerateSpiral | BioMimicryEngine/Services/ProceduralGenerator.swift:263-320 | segments + 1 sample rings, each joined to the one before: 12·segments triangles |
| Gyroid.Resolution | BioMimicryEngine/Services/ProceduralGenerator.swift:326 | `resolution = Int(10·density) + 8` is at least 8 for a non-negative density |
| Gyroid.ResolutionMonotone | BioMimicryEngine/Services/ProceduralGenerator.swift:326 | a denser design never has a coarser grid |
| Gyroid.GyroidValueCyclic | BioMimicryEngine/Services/ProceduralGenerator.swift:360-362 | the field is unchanged by a cyclic shift of x, y, z |
| Gyroid.CornerOffsetsCoverCube | BioMimicryEngine/Services/ProceduralGenerator.swift:340-349 | the sampling order lists eight distinct corners of the unit cube, so each corner exactly once |
| Gyroid.CornerValues | BioMimicryEngine/Services/ProceduralGenerator.swift:340-349 | sample i is the field at corner i of the cube (x, y, z) + {0, step}³, in the source's order |
| Gyroid.ZeroIsNeitherSign | BioMimicryEngine/Services/ProceduralGenerator.swift:365-375 | the test is strict: corners all ≥ 0 or all ≤ 0 never count as a crossing |
| Gyroid.ScanSigns | BioMimicryEngine/Services/ProceduralGenerator.swift:368-373 | hasPositive holds iff some corner exceeds 0, and hasNegative iff some corner is below 0 |
| Gyroid.PatchVertices | BioMimicryEngine/Services/ProceduralGenerator.swift:378-393 | two triangles sharing the edge from (cx + s, cy, cz − s) to (cx, cy + s, cz + s); the quad's low edge lies at the cube center's height and its far corner s = 0.4·step higher; for a non-zero step its four corners are distinct |
| Gyroid.PatchInsideCube | BioMimicryEngine/Services/ProceduralGenerator.swift:378-393 | for a positive step, every patch vertex lies inside its cube |
| Gyroid.AddGyroidTriangles | BioMimicryEngine/Services/ProceduralGenerator.swift:364-394 | appends exactly the two-triangle patch when the corners have mixed signs, and nothing otherwise |
| Gyroid.ColumnCountBound | BioMimicryEngine/Services/ProceduralGenerator.swift:334 | at most n crossed cubes in a column |
| Gyroid.SliceCountBound | BioMimicryEngine/Services/ProceduralGenerator.swift:333-334 | at most m·n crossed cubes in a slice |
| Gyroid.VolumeCountBound | BioMimicryEngine/Services/ProceduralGenerator.swift:332-334 | at most l·n² crossed cubes in the volume |
| Gyroid.GyroidTrianglesBound | BioMimicryEngine/Services/ProceduralGenerator.swift:323-358 | a gyroid mesh has at most 2·resolution³ triangles |
| Gyroid.VisitColumn | BioMimicryEngine/Services/ProceduralGenerator.swift:334-353 | two triangles per crossed cube of the column |
| Gyroid.VisitSlice | BioMimicryEngine/Services/ProceduralGenerator.swift:333-354 | two triangles per crossed cube of the slice |
| Gyroid.VisitVolume | BioMimicryEngine/Services/ProceduralGenerator.swift:332-355 | two triangles per crossed cube of the grid |
| Gyroid.GenerateGyroid | BioMimicryEngine/Services/ProceduralGenerator.swift:323-358 | the mesh has two triangles per crossed cube of the resolution³ grid |
| Generator.NonNegativeDensityGenerable | BioMimicryEngine/Services/ProceduralGenerator.swift:14-27 | every design with a non-negative density can be generated without trapping |
| Generator.GenerateMesh | BioMimicryEngine/Services/ProceduralGenerator.swift:14-27 | dispatches on the pattern type; the mesh is valid and has that generator's triangle count (for Voronoi, 20 to 32 per seed point) |
| Storage.RemoveById | BioMimicryEngine/Services/StorageService.swift:20 | `removeAll { $0.id == id }` keeps exactly the designs with other ids, and never lengthens the list |
| Storage.RemoveByIdAppend | BioMimicryEngine/Services/StorageService.swift:20 | removal distributes over concatenation, so the survivors keep their order |
| Storage.RemoveByIdAbsent | BioMimicryEngine/Services/StorageService.swift:20 | removing an id that no design carries leaves the list unchanged |
| Storage.RemoveByIdIdempotent | BioMimicryEngine/Services/StorageService.swift:19-22 | deleting the same design twice is the same as deleting it once |
| Storage.RemoveByIdCommutes | BioMimicryEngine/Services/StorageService.swift:19-22 | deleting two designs gives the same list in either order |
| Storage.SaveThenDelete | BioMimicryEngine/Services/StorageService.swift:14-22 | saving a design with a new id and then deleting it restores the previous list |
| Storage.StorageService.constructor | BioMimicryEngine/Services/StorageService.swift:29-35 | the list starts from the decoded stored list, or empty when there is none |
| Storage.StorageService.Save | BioMimicryEngine/Services/StorageService.swift:14-17 | the design is inserted at index 0, the rest follow unchanged, and the list is persisted |
| Storage.StorageService.Delete | BioMimicryEngine/Services/StorageService.swift:19-22 | every design with the given id is removed, the rest keep their order, and the list is persisted |
| Storage.StorageService.DeleteAll | BioMimicryEngine/Services/StorageService.swift:24-27 | the list is emptied and the empty list is persisted |
| Gallery.GalleryViewModel.constructor | BioMimicryEngine/Features/Gallery/GalleryViewModel.swift:11-13 | the gallery starts with the store's list and no selection |
| Gallery.GalleryViewModel.LoadDesigns | BioMimicryEngine/Features/Gallery/GalleryViewModel.swift:15-17 | the list becomes the store's list; the selection is kept |
| Gallery.GalleryViewModel.SelectDesign | BioMimicryEngine/Features/Gallery/GalleryViewModel.swift:19-21 | the design becomes the selection; the list is kept |
| Gallery.GalleryViewModel.DeleteDesign | BioMimicryEngine/Features/Gallery/GalleryViewModel.swift:23-26 | the store loses every design with that id and persists; the gallery shows the store's new list; the selection is kept |
| Gallery.GalleryViewModel.DeleteAll | BioMimicryEngine/Features/Gallery/GalleryViewModel.swift:28-31 | store and gallery are both empty, the store is persisted, and the selection is kept |

## Left out

- `createGeometry` and `generateGeometry` (ProceduralGenerator.swift:9-12, 397-441) are not modelled. They only build SceneKit geometry sources and materials, which are foreign calls.
- Floating-point rounding, NaN and infinity are not modelled, because floats are exact reals here.
  - The distance and sign tests are therefore exact.
  - A division whose divisor can be zero (`/ Float(segments)`, `/ Float(turns)`, `size / Float(resolution)`) evaluates to 0 (`Design.SafeDiv`). In Swift it gives NaN or infinity; this happens only for negative densities.
- The values of `sin`, `cos`, the gyroid field and every `sqrt` except the honeycomb distance test are uninterpreted. Properties that would need them (unit-length normals, exact vertex coordinates) are not claimed.
- Random-number seeding is not modelled. This covers `srand48` and the order of `drand48` draws, so no claim of reproducibility from the seed is made. `Int.random` and `Float.random` ignore the seed anyway. The `seed` argument of `addVoronoiCell` is unused in the source and is dropped.
- Integer overflow is not modelled: `Int(...)` of a huge density traps in Swift, and counts here are unbounded integers. The `Int32` index buffer of `createGeometry` is outside the model.
- UserDefaults I/O and JSON coding in `loadDesigns` and `persistDesigns` (StorageService.swift:29-40) are replaced by a ghost snapshot `persisted`. A failed `JSONEncoder` call would skip the write; it is not modelled.
- The `StorageService.shared` singleton, `@Published` change notification and `@MainActor` isolation are not modelled. The gallery receives the store as a constructor argument.
- `getDetailedDescription` (BiomimicryDatabase.swift:26-68) is not modelled. It returns prose only.
- The random `UUID` of `EngineeringApplication` is not modelled.
- The source file that defines `MeshData` and `GeneratedDesign` is not part of this model.
  - `MeshData` follows its use at the call sites: flat, unshared vertices with one face normal per triangle.
  - `GeneratedDesign` keeps only the id, the pattern and the parameters the generator and the store read.
- Branching.AddCylinder: states the triangle count and that earlier vertices are kept, not where the 24 triangles lie. `CylinderRings` and `RingsSquareToAxis` state the ring geometry.
- Spiral.JoinRings: states the triangle count and that earlier vertices are kept, not which ring points each triangle uses.
- Spiral.GenerateSpiral: states the rings and the triangle count, not which vertices of the mesh come from which ring.
- Branching.GenerateBranch: reports each limb's depth and radius, not its end points. `ChildEnd` states where each child ends.
- Gyroid.GenerateGyroid: states the number of triangles, not their positions. `AddGyroidTriangles` states the patch for one cube.
- Generator.GenerateMesh: states only the 20n to 32n bound for the Voronoi case. The exact count depends on side counts drawn inside the generator, which `GenerateVoronoi` reports.
- Generator.GenerateMesh, Honeycomb.GenerateHoneycomb, Voronoi.GenerateVoronoi, Spiral.GenerateSpiral, Gyroid.GenerateGyroid: each requires its grid, point, segment or resolution count to be non-negative (`Generator.Generable`), because for a negative count the source's range `-g...g` or `0..<n` traps instead of returning a mesh.
- Database.GetEngineeringApplications: its contract states only the number of applications. The texts are the constants themselves, and `EngineeringFieldsDistinct` proves the distinct fields.
