/**
  `generateMesh(for:)`: the entry point of the procedural generator, which
  picks the generator by the design's pattern type and passes it the design's
  parameters.
 */
module Generator {
  import opened Geometry
  import opened Mesh
  import opened Patterns
  import opened Design
  import HC = Honeycomb
  import VO = Voronoi
  import BR = Branching
  import SP = Spiral
  import GY = Gyroid

  /**
    The generator for the design's type runs without trapping: its grid,
    point, segment or resolution count is not negative (a negative count
    makes the source's closed range `a...b` with a > b, or `0..<n`, trap).
    Every non-negative density meets it; the branching generator has no such
    range.
   */
  predicate Generable(design: GeneratedDesign) {
    var d := design.parameters.density;
    match design.pattern.patternType
    case Honeycomb => HC.GridSize(d) >= 0
    case Voronoi => VO.NumPoints(d) >= 0
    case Branching => true
    case Spiral => SP.Segments(d) >= 0
    case Gyroid => GY.Resolution(d) >= 0
  }

  /** Every design whose density is not negative can be generated. */
  lemma NonNegativeDensityGenerable(design: GeneratedDesign)
    requires design.parameters.density >= 0.0
    ensures Generable(design)
  {
    var d := design.parameters.density;
    assert HC.GridSize(d) >= 2 && VO.NumPoints(d) >= 5;
    assert SP.Segments(d) >= 60 && GY.Resolution(d) >= 8;
  }

  /**
    `generateMesh(for:)`: the mesh of the generator selected by the pattern
    type, with that generator's triangle count.
   */
  method GenerateMesh(fm: FloatMath, design: GeneratedDesign) returns (mesh: MeshData)
    requires Generable(design)
    ensures fresh(mesh) && mesh.Valid()
    ensures var p := design.parameters;
            match design.pattern.patternType
            case Honeycomb => mesh.TriangleCount() == HC.HoneycombTriangles(p)
            case Voronoi => 20 * VO.NumPoints(p.density) <= mesh.TriangleCount() <= 32 * VO.NumPoints(p.density)
            case Branching => mesh.TriangleCount() == 24 * BR.CylinderCount(0, BR.MaxDepth(p.iterations))
            case Spiral => mesh.TriangleCount() == 12 * SP.Segments(p.density)
            case Gyroid => mesh.TriangleCount() == GY.GyroidTriangles(fm, p)
  {
    var params := design.parameters;
    match design.pattern.patternType {
      case Honeycomb =>
        mesh := HC.GenerateHoneycomb(fm, params);
      case Voronoi =>
        ghost var centers, sides, outlines;
        mesh, centers, sides, outlines := VO.GenerateVoronoi(fm, params);
        VO.VoronoiTrianglesBounds(sides);
      case Branching =>
        ghost var limbs;
        mesh, limbs := BR.GenerateBranching(fm, params);
      case Spiral =>
        ghost var rings;
        mesh, rings := SP.GenerateSpiral(fm, params);
      case Gyroid =>
        mesh := GY.GenerateGyroid(fm, params);
    }
  }
}
