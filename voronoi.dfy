/**
  The Voronoi-like generator (`generateVoronoi`, `addVoronoiCell`): random seed
  points in the square [-scale, scale]² of the ground plane, each carrying a
  prism over a jittered polygon of 5 to 8 sides.

  The seeded `drand48` draws and the unseeded `Int.random` / `Float.random`
  draws are both choices the model leaves open: each becomes a value picked
  from the range the source draws from.
 */
module Voronoi {
  import opened Geometry
  import opened Mesh
  import opened Extrusion
  import opened Design
  import opened RealArith

  /** `numPoints = Int(15 * density) + 5`: at least 5 for every non-negative density. */
  function NumPoints(density: real): (n: int)
    ensures density >= 0.0 ==> n >= 5
    ensures density < 0.0 ==> n <= 5
  {
    TruncToInt(15.0 * density) + 5
  }

  lemma NumPointsMonotone(d1: real, d2: real)
    requires d1 <= d2
    ensures NumPoints(d1) <= NumPoints(d2)
  {
    TruncToIntMonotone(15.0 * d1, 15.0 * d2);
  }

  function Abs(x: real): real {
    if x < 0.0 then -x else x
  }

  /** A seed point: on the ground plane, inside the square of half-side |scale|. */
  predicate InSquare(p: Vec3, scale: real) {
    p.y == 0.0 && -Abs(scale) <= p.x <= Abs(scale) && -Abs(scale) <= p.z <= Abs(scale)
  }

  /** A factor in [-1, 1] times s stays within |s| of zero. */
  lemma UnitFactorBound(k: real, s: real)
    requires -1.0 <= k <= 1.0
    ensures -Abs(s) <= k * s <= Abs(s)
  {
    if s >= 0.0 {
      MulNonneg(1.0 - k, s);
      MulNonneg(1.0 + k, s);
    } else {
      MulNonneg(1.0 - k, -s);
      MulNonneg(1.0 + k, -s);
    }
  }

  /**
    The seed-point loop: `count` points (drand48()·2 − 1)·scale on both axes,
    drand48() being any value in [0, 1).
   */
  method SeedPoints(count: int, scale: real) returns (points: seq<Vec3>)
    requires count >= 0
    ensures |points| == count
    ensures forall i :: 0 <= i < count ==> InSquare(points[i], scale)
  {
    points := [];
    for i := 0 to count
      invariant |points| == i
      invariant forall j :: 0 <= j < i ==> InSquare(points[j], scale)
    {
      var ux: real :| 0.0 <= ux < 1.0;
      var uz: real :| 0.0 <= uz < 1.0;
      var kx, kz := ux * 2.0 - 1.0, uz * 2.0 - 1.0;
      UnitFactorBound(kx, scale);
      UnitFactorBound(kz, scale);
      points := points + [Vec3(kx * scale, 0.0, kz * scale)];
    }
  }

  /**
    Corner i of a cell with `sides` corners: angle i·2π/sides plus a jitter,
    at `factor`·radius from the center, at the height of the center.
   */
  function OutlinePoint(fm: FloatMath, center: Vec3, radius: real, sides: int, i: int, jitter: real, factor: real): Vec3
    requires sides > 0
  {
    var angle := i as real * 2.0 * FloatPi / sides as real + jitter;
    var r := radius * factor;
    Vec3(center.x + r * fm.cos(angle), center.y, center.z + r * fm.sin(angle))
  }

  /** Corner i was drawn with a jitter in [-0.2, 0.2] and a radius factor in [0.7, 1.0]. */
  ghost predicate JitteredCorner(fm: FloatMath, center: Vec3, radius: real, sides: int, i: int, p: Vec3) {
    sides > 0 && exists jitter: real, factor: real ::
      -0.2 <= jitter <= 0.2 && 0.7 <= factor <= 1.0 && p == OutlinePoint(fm, center, radius, sides, i, jitter, factor)
  }

  /** A corner computed from drawn values within their ranges is a jittered corner. */
  lemma CornerDrawn(fm: FloatMath, center: Vec3, radius: real, sides: int, i: int, jitter: real, factor: real)
    requires sides > 0 && Between(-0.2, jitter, 0.2) && Between(0.7, factor, 1.0)
    ensures JitteredCorner(fm, center, radius, sides, i, OutlinePoint(fm, center, radius, sides, i, jitter, factor))
  {
  }

  /** The `cellPoints` loop of `addVoronoiCell`: `sides` jittered corners in angular order. */
  method CellOutline(fm: FloatMath, center: Vec3, radius: real, sides: int) returns (points: seq<Vec3>)
    requires sides > 0
    ensures |points| == sides
    ensures forall i :: 0 <= i < sides ==> points[i].y == center.y
    ensures forall i :: 0 <= i < sides ==> JitteredCorner(fm, center, radius, sides, i, points[i])
  {
    points := [];
    for i := 0 to sides
      invariant |points| == i
      invariant forall j :: 0 <= j < i ==> points[j].y == center.y
      invariant forall j :: 0 <= j < i ==> JitteredCorner(fm, center, radius, sides, j, points[j])
    {
      assert Between(-0.2, 0.0, 0.2) && Between(0.7, 1.0, 1.0);
      var jitter: real :| Between(-0.2, jitter, 0.2);
      var factor: real :| Between(0.7, factor, 1.0);
      var p := OutlinePoint(fm, center, radius, sides, i, jitter, factor);
      CornerDrawn(fm, center, radius, sides, i, jitter, factor);
      points := points + [p];
    }
  }

  /** `outline` is a drawn cell outline around `center`: 5 to 8 jittered corners in angular order. */
  ghost predicate CellDrawn(fm: FloatMath, center: Vec3, radius: real, outline: seq<Vec3>) {
    && 5 <= |outline| <= 8
    && forall j :: 0 <= j < |outline| ==> JitteredCorner(fm, center, radius, |outline|, j, outline[j])
  }

  /** The vertices of one cell: the prism of `height` around `center` over `outline`. */
  function CellPrism(center: Vec3, outline: seq<Vec3>, height: real): seq<Vec3> {
    PrismVertices(center, outline, |outline|, center.y + height / 2.0, center.y - height / 2.0)
  }

  /**
    `addVoronoiCell`: a prism over a polygon of 5 to 8 sides (the count drawn
    afresh for each cell), four triangles per side. `sides` and `outline`
    report the draws: the side count and the jittered corners.
   */
  method AddVoronoiCell(fm: FloatMath, mesh: MeshData, center: Vec3, radius: real, height: real)
    returns (ghost sides: int, ghost outline: seq<Vec3>)
    requires mesh.Valid()
    modifies mesh
    ensures 5 <= sides <= 8
    ensures mesh.Valid()
    ensures mesh.TriangleCount() == old(mesh.TriangleCount()) + 4 * sides
    ensures old(mesh.vertices) <= mesh.vertices
    ensures ExtrudedSides(mesh.vertices, old(mesh.TriangleCount()), sides, center.y + height / 2.0, center.y - height / 2.0)
    ensures |outline| == sides && CellDrawn(fm, center, radius, outline)
    ensures mesh.vertices == old(mesh.vertices) + CellPrism(center, outline, height)
  {
    var count: int :| 5 <= count <= 8;
    var cellPoints := CellOutline(fm, center, radius, count);
    ExtrudePolygon(fm, mesh, center, cellPoints, height);
    sides, outline := count, cellPoints;
  }

  /**
    The vertices of the first |outlines| cells: cell k is the prism around
    centers[k] over the drawn outline outlines[k], cells in order.
   */
  function CellsVertices(centers: seq<Vec3>, outlines: seq<seq<Vec3>>, height: real): (vs: seq<Vec3>)
    requires |outlines| <= |centers|
  {
    if |outlines| == 0 then []
    else
      var n := |outlines| - 1;
      CellsVertices(centers, outlines[..n], height) + CellPrism(centers[n], outlines[n], height)
  }

  /** One more cell continues the vertex list. */
  lemma CellsVerticesAppend(centers: seq<Vec3>, outlines: seq<seq<Vec3>>, o: seq<Vec3>, height: real)
    requires |outlines| < |centers|
    ensures CellsVertices(centers, outlines + [o], height)
            == CellsVertices(centers, outlines, height) + CellPrism(centers[|outlines|], o, height)
  {
    assert (outlines + [o])[..|outlines|] == outlines;
  }

  /**
    Cell k, for k < |outlines|, was drawn around centers[k] with the outline
    outlines[k] of sides[k] corners.
   */
  ghost predicate CellsDrawn(fm: FloatMath, centers: seq<Vec3>, radius: real, sides: seq<int>, outlines: seq<seq<Vec3>>) {
    && |sides| == |outlines| <= |centers|
    && (|outlines| == 0 ||
        var n := |outlines| - 1;
        && CellsDrawn(fm, centers, radius, sides[..n], outlines[..n])
        && |outlines[n]| == sides[n] && CellDrawn(fm, centers[n], radius, outlines[n]))
  }

  lemma CellsDrawnAppend(fm: FloatMath, centers: seq<Vec3>, radius: real, sides: seq<int>, outlines: seq<seq<Vec3>>,
                         n: int, o: seq<Vec3>)
    requires CellsDrawn(fm, centers, radius, sides, outlines) && |outlines| < |centers|
    requires |o| == n && CellDrawn(fm, centers[|outlines|], radius, o)
    ensures CellsDrawn(fm, centers, radius, sides + [n], outlines + [o])
  {
    assert (sides + [n])[..|sides|] == sides;
    assert (outlines + [o])[..|outlines|] == outlines;
  }

  /** Every drawn cell lies around its own center, with as many corners as its side count. */
  lemma {:induction false} CellsDrawnAt(fm: FloatMath, centers: seq<Vec3>, radius: real, sides: seq<int>, outlines: seq<seq<Vec3>>, k: int)
    requires CellsDrawn(fm, centers, radius, sides, outlines)
    requires 0 <= k < |outlines|
    ensures |outlines[k]| == sides[k] && CellDrawn(fm, centers[k], radius, outlines[k])
  {
    var n := |outlines| - 1;
    if k < n {
      CellsDrawnAt(fm, centers, radius, sides[..n], outlines[..n], k);
    }
  }

  /** The sum of a sequence of side counts. */
  function Sum(s: seq<int>): int {
    if |s| == 0 then 0 else Sum(s[..|s| - 1]) + s[|s| - 1]
  }

  predicate AllCellSizes(s: seq<int>) {
    forall i :: 0 <= i < |s| ==> 5 <= s[i] <= 8
  }

  /** n cells of 5 to 8 sides have between 5n and 8n sides in all. */
  lemma {:induction false} SumBounds(s: seq<int>)
    requires AllCellSizes(s)
    ensures 5 * |s| <= Sum(s) <= 8 * |s|
  {
    if |s| > 0 {
      assert AllCellSizes(s[..|s| - 1]);
      SumBounds(s[..|s| - 1]);
    }
  }

  /** The triangle count of a Voronoi mesh lies between 20 and 32 per seed point. */
  lemma VoronoiTrianglesBounds(sides: seq<int>)
    requires AllCellSizes(sides)
    ensures 20 * |sides| <= 4 * Sum(sides) <= 32 * |sides|
  {
    SumBounds(sides);
  }

  /**
    One iteration of the cell loop: draws the cell of the next seed point and
    extends the draw record and the vertex list by it.
   */
  method VisitPoint(fm: FloatMath, mesh: MeshData, points: seq<Vec3>, i: nat, radius: real, height: real,
                    ghost sides: seq<int>, ghost outlines: seq<seq<Vec3>>)
    returns (ghost sides': seq<int>, ghost outlines': seq<seq<Vec3>>)
    requires mesh.Valid()
    requires |sides| == |outlines| == i < |points|
    requires AllCellSizes(sides) && mesh.TriangleCount() == 4 * Sum(sides)
    requires CellsDrawn(fm, points, radius, sides, outlines)
    requires mesh.vertices == CellsVertices(points, outlines, height)
    modifies mesh
    ensures mesh.Valid()
    ensures |sides'| == |outlines'| == |outlines| + 1
    ensures AllCellSizes(sides') && mesh.TriangleCount() == 4 * Sum(sides')
    ensures CellsDrawn(fm, points, radius, sides', outlines')
    ensures mesh.vertices == CellsVertices(points, outlines', height)
  {
    ghost var n, outline := AddVoronoiCell(fm, mesh, points[i], radius, height);
    CellsVerticesAppend(points, outlines, outline, height);
    CellsDrawnAppend(fm, points, radius, sides, outlines, n, outline);
    sides', outlines' := sides + [n], outlines + [outline];
    assert sides'[..|sides'| - 1] == sides;
  }

  /** A Voronoi cell's radius and prism height: 0.15 and 0.2 times the scale. */
  function CellRadius(scale: real): real { 0.15 * scale }

  function CellHeight(scale: real): real { 0.2 * scale }

  /** The cell loop of `generateVoronoi`: one cell per seed point, in order. */
  method AddCells(fm: FloatMath, mesh: MeshData, points: seq<Vec3>, radius: real, height: real)
    returns (ghost sides: seq<int>, ghost outlines: seq<seq<Vec3>>)
    requires mesh.Valid() && mesh.TriangleCount() == 0 && mesh.vertices == []
    modifies mesh
    ensures mesh.Valid()
    ensures |sides| == |outlines| == |points|
    ensures AllCellSizes(sides) && mesh.TriangleCount() == 4 * Sum(sides)
    ensures CellsDrawn(fm, points, radius, sides, outlines)
    ensures mesh.vertices == CellsVertices(points, outlines, height)
  {
    sides, outlines := [], [];
    for i := 0 to |points|
      invariant mesh.Valid()
      invariant |sides| == |outlines| == i
      invariant AllCellSizes(sides) && mesh.TriangleCount() == 4 * Sum(sides)
      invariant CellsDrawn(fm, points, radius, sides, outlines)
      invariant mesh.vertices == CellsVertices(points, outlines, height)
    {
      sides, outlines := VisitPoint(fm, mesh, points, i, radius, height, sides, outlines);
    }
  }

  /**
    `generateVoronoi`: numPoints seed points, one cell per point (radius
    0.15·scale, height 0.2·scale), 4 triangles per cell side. `centers`,
    `sides` and `outlines` report the draws: the seed points, each cell's side
    count and each cell's jittered corners.
   */
  method GenerateVoronoi(fm: FloatMath, params: GenerationParameters)
    returns (mesh: MeshData, ghost centers: seq<Vec3>, ghost sides: seq<int>, ghost outlines: seq<seq<Vec3>>)
    requires NumPoints(params.density) >= 0
    ensures fresh(mesh) && mesh.Valid()
    ensures |centers| == |sides| == |outlines| == NumPoints(params.density)
    ensures forall i :: 0 <= i < |centers| ==> InSquare(centers[i], params.scale)
    ensures AllCellSizes(sides)
    ensures mesh.TriangleCount() == 4 * Sum(sides)
    ensures CellsDrawn(fm, centers, CellRadius(params.scale), sides, outlines)
    ensures mesh.vertices == CellsVertices(centers, outlines, CellHeight(params.scale))
  {
    mesh := new MeshData();
    var numPoints := NumPoints(params.density);
    var points := SeedPoints(numPoints, params.scale);
    centers := points;
    sides, outlines := AddCells(fm, mesh, points, CellRadius(params.scale), CellHeight(params.scale));
  }
}
