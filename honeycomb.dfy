/**
  The honeycomb generator (`generateHoneycomb`, `addHexagonalPrism`): a square
  block of hexagonal-lattice cells, rows and columns from -gridSize to gridSize,
  each cell whose lattice center lies strictly inside the circle of radius
  gridSize·hexRadius carrying one hexagonal prism.
 */
module Honeycomb {
  import opened Geometry
  import opened Mesh
  import opened Extrusion
  import opened Design
  import opened RealArith

  /** `gridSize = Int(5 * density) + 2`: at least 2 for every non-negative density. */
  function GridSize(density: real): (g: int)
    ensures density >= 0.0 ==> g >= 2
    ensures density < 0.0 ==> g <= 2
  {
    TruncToInt(5.0 * density) + 2
  }

  lemma GridSizeMonotone(d1: real, d2: real)
    requires d1 <= d2
    ensures GridSize(d1) <= GridSize(d2)
  {
    TruncToIntMonotone(5.0 * d1, 5.0 * d2);
  }

  /** `hexRadius = 0.15 * scale` */
  function HexRadius(scale: real): real {
    0.15 * scale
  }

  /** `hexHeight = 0.3 * scale` */
  function HexHeight(scale: real): real {
    0.3 * scale
  }

  /**
    The lattice offset of cell (row, col): x = col·hexRadius·1.75 and
    z = row·hexRadius·1.5, plus hexRadius·0.75 on odd columns. Swift's
    `col % 2` truncates, so a negative odd column gives -1; it is still
    non-zero, which is all the test looks at, so Dafny's `%` agrees.
   */
  function CellOffset(hexRadius: real, row: int, col: int): Vec3 {
    Vec3(col as real * hexRadius * 1.75,
         0.0,
         row as real * hexRadius * 1.5 + (if col % 2 == 0 then 0.0 else hexRadius * 0.75))
  }

  /**
    The distance test `sqrt(x*x + z*z) < bound` over exact reals: a square root
    is never negative, so the test holds exactly when the bound is positive and
    the squared distance lies below the squared bound.
   */
  predicate WithinRadius(x: real, z: real, bound: real) {
    bound > 0.0 && x * x + z * z < bound * bound
  }

  /** Cell (row, col) is kept when its offset lies within gridSize·hexRadius of the origin. */
  predicate CellInside(g: int, hexRadius: real, row: int, col: int) {
    var c := CellOffset(hexRadius, row, col);
    WithinRadius(c.x, c.z, g as real * hexRadius)
  }

  /** The same test in lattice units: (1.75·col)² + (1.5·row + (odd col ? 0.75 : 0))² < g². */
  predicate InUnitLattice(g: int, row: int, col: int) {
    var u := 1.75 * col as real;
    var v := 1.5 * row as real + (if col % 2 == 0 then 0.0 else 0.75);
    u * u + v * v < (g * g) as real
  }

  lemma WithinRadiusUnfold(x: real, z: real, bound: real)
    ensures WithinRadius(x, z, bound) <==> bound > 0.0 && x * x + z * z < bound * bound
  {
  }

  /** With a positive radius h, the bound g·h is positive exactly when g is. */
  lemma BoundSign(gr: real, h: real)
    requires h > 0.0
    ensures gr * h > 0.0 <==> gr > 0.0
  {
    if gr > 0.0 {
      MulPos(gr, h);
    } else {
      MulNonneg(-gr, h);
    }
  }

  /** Scaling both the point and the bound by h > 0 does not change their comparison. */
  lemma ScaledSquaresCompare(h: real, u: real, v: real, gr: real)
    requires h > 0.0
    ensures (h * u) * (h * u) + (h * v) * (h * v) < (gr * h) * (gr * h) <==> u * u + v * v < gr * gr
  {
    SquareScaledOrder(h, u * u, v * v, gr * gr);
  }

  /** Scaling a point and the bound by the same positive factor leaves the test unchanged. */
  lemma WithinRadiusScaled(h: real, u: real, v: real, gr: real)
    requires h > 0.0
    ensures WithinRadius(h * u, h * v, gr * h) <==> gr > 0.0 && u * u + v * v < gr * gr
  {
    BoundSign(gr, h);
    ScaledSquaresCompare(h, u, v, gr);
    WithinRadiusUnfold(h * u, h * v, gr * h);
  }

  /** For a positive radius the test does not depend on the radius. */
  lemma CellInsideScaleFree(g: int, h: real, row: int, col: int)
    requires h > 0.0
    ensures CellInside(g, h, row, col) <==> g > 0 && InUnitLattice(g, row, col)
  {
    var u := 1.75 * col as real;
    var v := 1.5 * row as real + (if col % 2 == 0 then 0.0 else 0.75);
    var c := CellOffset(h, row, col);
    assert c.x == h * u;
    assert c.z == h * v;
    assert CellInside(g, h, row, col) <==> WithinRadius(h * u, h * v, g as real * h);
    WithinRadiusScaled(h, u, v, g as real);
    assert (g * g) as real == (g as real) * (g as real);
    assert InUnitLattice(g, row, col) <==> u * u + v * v < (g as real) * (g as real);
  }

  /** A radius that is not positive (scale <= 0) accepts no cell. */
  lemma CellInsideNeedsPositiveRadius(g: int, h: real, row: int, col: int)
    requires g >= 0 && h <= 0.0
    ensures !CellInside(g, h, row, col)
  {
    var c := CellOffset(h, row, col);
    MulNonneg(g as real, -h);
    WithinRadiusUnfold(c.x, c.z, g as real * h);
  }

  /** A cell that passes the test for grid size g1 passes it for every larger grid size. */
  lemma CellInsideGrows(g1: int, g2: int, h: real, row: int, col: int)
    requires 0 <= g1 <= g2 && h > 0.0
    requires CellInside(g1, h, row, col)
    ensures CellInside(g2, h, row, col)
  {
    var c := CellOffset(h, row, col);
    WithinRadiusUnfold(c.x, c.z, g1 as real * h);
    WithinRadiusUnfold(c.x, c.z, g2 as real * h);
    MulNonneg((g2 - g1) as real, h);
    SquareMonotone(g1 as real * h, g2 as real * h);
  }

  /**
    The accepted cell set only grows with the grid size: a cell of the block
    for g1 that passes the test still lies in the block for any g2 >= g1 and
    still passes it there.
   */
  lemma AcceptedCellsGrow(g1: int, g2: int, h: real, row: int, col: int)
    requires 0 <= g1 <= g2 && h > 0.0
    requires -g1 <= row <= g1 && -g1 <= col <= g1 && CellInside(g1, h, row, col)
    ensures -g2 <= row <= g2 && -g2 <= col <= g2 && CellInside(g2, h, row, col)
  {
    CellInsideGrows(g1, g2, h, row, col);
  }

  /** The number of accepted cells of row `row` among columns lo .. hi-1. */
  function RowCount(g: int, h: real, row: int, lo: int, hi: int): nat
    decreases hi - lo
  {
    if hi <= lo then 0
    else RowCount(g, h, row, lo, hi - 1) + (if CellInside(g, h, row, hi - 1) then 1 else 0)
  }

  /** The number of accepted cells of rows rlo .. rhi-1 and columns clo .. chi-1. */
  function BlockCount(g: int, h: real, rlo: int, rhi: int, clo: int, chi: int): nat
    decreases rhi - rlo
  {
    if rhi <= rlo then 0
    else BlockCount(g, h, rlo, rhi - 1, clo, chi) + RowCount(g, h, rhi - 1, clo, chi)
  }

  /** The number of prisms the lattice of grid size g emits: accepted cells with row, col in [-g, g]. */
  function CellCount(g: int, h: real): nat {
    BlockCount(g, h, -g, g + 1, -g, g + 1)
  }

  lemma {:induction false} RowCountBound(g: int, h: real, row: int, lo: int, hi: int)
    requires lo <= hi
    ensures RowCount(g, h, row, lo, hi) <= hi - lo
    decreases hi - lo
  {
    if lo < hi {
      RowCountBound(g, h, row, lo, hi - 1);
    }
  }

  lemma {:induction false} BlockCountBound(g: int, h: real, rlo: int, rhi: int, clo: int, chi: int)
    requires rlo <= rhi && clo <= chi
    ensures BlockCount(g, h, rlo, rhi, clo, chi) <= (rhi - rlo) * (chi - clo)
    decreases rhi - rlo
  {
    if rlo < rhi {
      BlockCountBound(g, h, rlo, rhi - 1, clo, chi);
      RowCountBound(g, h, rhi - 1, clo, chi);
      assert (rhi - 1 - rlo) * (chi - clo) + (chi - clo) == (rhi - rlo) * (chi - clo);
    }
  }

  /** At most (2g+1)² prisms: only the cells of the square block are visited. */
  lemma CellCountBound(g: int, h: real)
    requires g >= 0
    ensures CellCount(g, h) <= (2 * g + 1) * (2 * g + 1)
  {
    BlockCountBound(g, h, -g, g + 1, -g, g + 1);
  }

  /** Counting a column range in two consecutive pieces. */
  lemma {:induction false} RowCountSplit(g: int, h: real, row: int, lo: int, mid: int, hi: int)
    requires lo <= mid <= hi
    ensures RowCount(g, h, row, lo, hi) == RowCount(g, h, row, lo, mid) + RowCount(g, h, row, mid, hi)
    decreases hi - mid
  {
    if mid < hi {
      RowCountSplit(g, h, row, lo, mid, hi - 1);
    }
  }

  /** Counting a row range in two consecutive pieces. */
  lemma {:induction false} BlockCountSplit(g: int, h: real, rlo: int, rmid: int, rhi: int, clo: int, chi: int)
    requires rlo <= rmid <= rhi
    ensures BlockCount(g, h, rlo, rhi, clo, chi) == BlockCount(g, h, rlo, rmid, clo, chi) + BlockCount(g, h, rmid, rhi, clo, chi)
    decreases rhi - rmid
  {
    if rmid < rhi {
      BlockCountSplit(g, h, rlo, rmid, rhi - 1, clo, chi);
    }
  }

  /** A row of the larger grid accepts at least the cells the smaller grid accepts, over a wider column range. */
  lemma {:induction false} RowCountGrows(g1: int, g2: int, h: real, row: int, lo: int, hi: int, lo2: int, hi2: int)
    requires 0 <= g1 <= g2 && h > 0.0
    requires lo2 <= lo <= hi <= hi2
    ensures RowCount(g1, h, row, lo, hi) <= RowCount(g2, h, row, lo2, hi2)
    decreases hi - lo
  {
    if lo < hi {
      RowCountGrows(g1, g2, h, row, lo, hi - 1, lo, hi - 1);
      if CellInside(g1, h, row, hi - 1) {
        CellInsideGrows(g1, g2, h, row, hi - 1);
      }
      assert RowCount(g1, h, row, lo, hi) <= RowCount(g2, h, row, lo, hi);
      RowCountSplit(g2, h, row, lo2, lo, hi2);
      RowCountSplit(g2, h, row, lo, hi, hi2);
    }
  }

  /** The block count of the larger grid dominates, over wider row and column ranges. */
  lemma {:induction false} BlockCountGrows(g1: int, g2: int, h: real, rlo: int, rhi: int, rlo2: int, rhi2: int,
                                            clo: int, chi: int, clo2: int, chi2: int)
    requires 0 <= g1 <= g2 && h > 0.0
    requires rlo2 <= rlo <= rhi <= rhi2 && clo2 <= clo <= chi <= chi2
    ensures BlockCount(g1, h, rlo, rhi, clo, chi) <= BlockCount(g2, h, rlo2, rhi2, clo2, chi2)
    decreases rhi - rlo
  {
    if rlo < rhi {
      BlockCountGrows(g1, g2, h, rlo, rhi - 1, rlo, rhi - 1, clo, chi, clo2, chi2);
      RowCountGrows(g1, g2, h, rhi - 1, clo, chi, clo2, chi2);
      assert BlockCount(g1, h, rlo, rhi, clo, chi) <= BlockCount(g2, h, rlo, rhi, clo2, chi2);
      BlockCountSplit(g2, h, rlo2, rlo, rhi2, clo2, chi2);
      BlockCountSplit(g2, h, rlo, rhi, rhi2, clo2, chi2);
    }
  }

  /** A larger grid never emits fewer prisms. */
  lemma CellCountMonotone(g1: int, g2: int, h: real)
    requires 0 <= g1 <= g2 && h > 0.0
    ensures CellCount(g1, h) <= CellCount(g2, h)
  {
    BlockCountGrows(g1, g2, h, -g1, g1 + 1, -g2, g2 + 1, -g1, g1 + 1, -g2, g2 + 1);
  }

  /** The triangle count of the honeycomb mesh: 24 per accepted cell. */
  function HoneycombTriangles(params: GenerationParameters): nat {
    24 * CellCount(GridSize(params.density), HexRadius(params.scale))
  }

  /** At most 24·(2·gridSize + 1)² triangles. */
  lemma HoneycombTrianglesBound(params: GenerationParameters)
    requires GridSize(params.density) >= 0
    ensures var g := GridSize(params.density);
            HoneycombTriangles(params) <= 24 * ((2 * g + 1) * (2 * g + 1))
  {
    CellCountBound(GridSize(params.density), HexRadius(params.scale));
  }

  /** For a positive scale, raising the density never lowers the triangle count. */
  lemma HoneycombTrianglesMonotone(p1: GenerationParameters, p2: GenerationParameters)
    requires p1.scale == p2.scale && p1.scale > 0.0
    requires 0.0 <= p1.density <= p2.density
    ensures HoneycombTriangles(p1) <= HoneycombTriangles(p2)
  {
    GridSizeMonotone(p1.density, p2.density);
    CellCountMonotone(GridSize(p1.density), GridSize(p2.density), HexRadius(p1.scale));
  }

  /** A corner of the hexagon: angle i·π/3 from the x axis, in the plane of `center`. */
  function HexCorner(fm: FloatMath, center: Vec3, radius: real, i: int): Vec3 {
    var angle := i as real * FloatPi / 3.0;
    Vec3(center.x + radius * fm.cos(angle), center.y, center.z + radius * fm.sin(angle))
  }

  /** The `hexPoints` loop: the six corners, in order, all at the height of `center`. */
  /** The six corners of the hexagon around `center`, in angular order. */
  function HexOutline(fm: FloatMath, center: Vec3, radius: real): (points: seq<Vec3>)
    ensures |points| == 6
    ensures forall i :: 0 <= i < 6 ==> points[i] == HexCorner(fm, center, radius, i)
  {
    [HexCorner(fm, center, radius, 0), HexCorner(fm, center, radius, 1), HexCorner(fm, center, radius, 2),
     HexCorner(fm, center, radius, 3), HexCorner(fm, center, radius, 4), HexCorner(fm, center, radius, 5)]
  }

  method HexagonPoints(fm: FloatMath, center: Vec3, radius: real) returns (points: seq<Vec3>)
    ensures |points| == 6
    ensures forall i :: 0 <= i < 6 ==> points[i] == HexCorner(fm, center, radius, i)
    ensures forall i :: 0 <= i < 6 ==> points[i].y == center.y
  {
    points := [];
    for i := 0 to 6
      invariant |points| == i
      invariant forall j :: 0 <= j < i ==> points[j] == HexCorner(fm, center, radius, j)
    {
      var angle := i as real * FloatPi / 3.0;
      var x := center.x + radius * fm.cos(angle);
      var z := center.z + radius * fm.sin(angle);
      points := points + [Vec3(x, center.y, z)];
    }
  }

  /**
    `addHexagonalPrism`: exactly 24 triangles, 6 top-cap, 6 bottom-cap and 12
    wall triangles (two per side quad), appended after what the mesh held.
   */
  method AddHexagonalPrism(fm: FloatMath, mesh: MeshData, center: Vec3, radius: real, height: real)
    requires mesh.Valid()
    modifies mesh
    ensures mesh.Valid()
    ensures mesh.TriangleCount() == old(mesh.TriangleCount()) + 24
    ensures ExtrudedSides(mesh.vertices, old(mesh.TriangleCount()), 6, center.y + height / 2.0, center.y - height / 2.0)
    ensures var hex := HexOutline(fm, center, radius);
            mesh.vertices == old(mesh.vertices) + PrismVertices(center, hex, |hex|, center.y + height / 2.0, center.y - height / 2.0)
  {
    var hexPoints := HexagonPoints(fm, center, radius);
    assert hexPoints == HexOutline(fm, center, radius);
    ExtrudePolygon(fm, mesh, center, hexPoints, height);
  }

  /** The vertices a cell contributes: the hexagonal prism at its offset when it is kept, nothing otherwise. */
  function CellVertices(fm: FloatMath, g: int, h: real, height: real, row: int, col: int): (vs: seq<Vec3>)
    ensures |vs| == if CellInside(g, h, row, col) then 72 else 0
  {
    if CellInside(g, h, row, col) then
      var c := CellOffset(h, row, col);
      var hex := HexOutline(fm, c, h * 0.9);
      PrismVertices(c, hex, |hex|, c.y + height / 2.0, c.y - height / 2.0)
    else []
  }

  /** The vertices of columns lo .. hi-1 of one row, in column order. */
  function RowVertices(fm: FloatMath, g: int, h: real, height: real, row: int, lo: int, hi: int): (vs: seq<Vec3>)
    ensures |vs| == 72 * RowCount(g, h, row, lo, hi)
    decreases hi - lo
  {
    if hi <= lo then []
    else RowVertices(fm, g, h, height, row, lo, hi - 1) + CellVertices(fm, g, h, height, row, hi - 1)
  }

  /** The vertices of rows rlo .. rhi-1, each over columns clo .. chi-1, in row-major order. */
  function BlockVertices(fm: FloatMath, g: int, h: real, height: real, rlo: int, rhi: int, clo: int, chi: int): (vs: seq<Vec3>)
    ensures |vs| == 72 * BlockCount(g, h, rlo, rhi, clo, chi)
    decreases rhi - rlo
  {
    if rhi <= rlo then []
    else BlockVertices(fm, g, h, height, rlo, rhi - 1, clo, chi) + RowVertices(fm, g, h, height, rhi - 1, clo, chi)
  }

  /** One more row continues the block's vertex list. */
  lemma BlockVerticesAppend(done: seq<Vec3>, after: seq<Vec3>,
                            fm: FloatMath, g: int, h: real, height: real, rlo: int, row: int, clo: int, chi: int)
    requires rlo <= row
    requires done == BlockVertices(fm, g, h, height, rlo, row, clo, chi)
    requires after == done + RowVertices(fm, g, h, height, row, clo, chi)
    ensures after == BlockVertices(fm, g, h, height, rlo, row + 1, clo, chi)
  {
  }

  /** One more column continues the row's vertex list. */
  lemma RowVerticesAppend(start: seq<Vec3>, done: seq<Vec3>, after: seq<Vec3>,
                          fm: FloatMath, g: int, h: real, height: real, row: int, lo: int, col: int)
    requires lo <= col
    requires done == start + RowVertices(fm, g, h, height, row, lo, col)
    requires after == done + CellVertices(fm, g, h, height, row, col)
    ensures after == start + RowVertices(fm, g, h, height, row, lo, col + 1)
  {
  }

  /** The prisms of the kept cells of the block [-g, g]², row by row. */
  function HoneycombBlock(fm: FloatMath, g: int, h: real, height: real): seq<Vec3> {
    BlockVertices(fm, g, h, height, -g, g + 1, -g, g + 1)
  }

  /**
    `generateHoneycomb`: visits every (row, col) of the block [-gridSize, gridSize]²
    row by row and adds one prism per cell that passes the distance test, so the
    mesh holds 24 triangles per accepted cell. The count depends on the
    parameters alone: the generator draws nothing at random.
   */
  method GenerateHoneycomb(fm: FloatMath, params: GenerationParameters) returns (mesh: MeshData)
    requires GridSize(params.density) >= 0
    ensures fresh(mesh) && mesh.Valid()
    ensures mesh.TriangleCount() == HoneycombTriangles(params)
    ensures mesh.vertices == HoneycombBlock(fm, GridSize(params.density), HexRadius(params.scale), HexHeight(params.scale))
  {
    mesh := new MeshData();
    var hexRadius := HexRadius(params.scale);
    var hexHeight := HexHeight(params.scale);
    var gridSize := GridSize(params.density);

    VisitRows(fm, mesh, gridSize, hexRadius, hexHeight);
  }

  /** The outer `for row` loop of `generateHoneycomb`, on an empty mesh. */
  method VisitRows(fm: FloatMath, mesh: MeshData, gridSize: int, hexRadius: real, hexHeight: real)
    requires gridSize >= 0 && mesh.Valid() && mesh.TriangleCount() == 0 && mesh.vertices == []
    modifies mesh
    ensures mesh.Valid()
    ensures mesh.TriangleCount() == 24 * CellCount(gridSize, hexRadius)
    ensures mesh.vertices == HoneycombBlock(fm, gridSize, hexRadius, hexHeight)
  {
    for row := -gridSize to gridSize + 1
      invariant mesh.Valid()
      invariant mesh.TriangleCount() == 24 * BlockCount(gridSize, hexRadius, -gridSize, row, -gridSize, gridSize + 1)
      invariant mesh.vertices == BlockVertices(fm, gridSize, hexRadius, hexHeight, -gridSize, row, -gridSize, gridSize + 1)
    {
      ghost var done := mesh.vertices;
      VisitRow(fm, mesh, gridSize, hexRadius, hexHeight, row);
      BlockVerticesAppend(done, mesh.vertices, fm, gridSize, hexRadius, hexHeight, -gridSize, row, -gridSize, gridSize + 1);
    }
    assert mesh.TriangleCount() == 24 * BlockCount(gridSize, hexRadius, -gridSize, gridSize + 1, -gridSize, gridSize + 1);
    assert mesh.vertices == BlockVertices(fm, gridSize, hexRadius, hexHeight, -gridSize, gridSize + 1, -gridSize, gridSize + 1);
  }

  /** The inner `for col` loop of `generateHoneycomb`: a prism for every accepted cell of the row. */
  method VisitRow(fm: FloatMath, mesh: MeshData, gridSize: int, hexRadius: real, hexHeight: real, row: int)
    requires gridSize >= 0 && mesh.Valid()
    modifies mesh
    ensures mesh.Valid()
    ensures mesh.TriangleCount() == old(mesh.TriangleCount()) + 24 * RowCount(gridSize, hexRadius, row, -gridSize, gridSize + 1)
    ensures mesh.vertices == old(mesh.vertices) + RowVertices(fm, gridSize, hexRadius, hexHeight, row, -gridSize, gridSize + 1)
  {
    ghost var count, start := mesh.TriangleCount(), mesh.vertices;
    ghost var lo := -gridSize;
    for col := -gridSize to gridSize + 1
      invariant mesh.Valid()
      invariant mesh.TriangleCount() == count + 24 * RowCount(gridSize, hexRadius, row, lo, col)
      invariant mesh.vertices == start + RowVertices(fm, gridSize, hexRadius, hexHeight, row, lo, col)
    {
      ghost var done := mesh.vertices;
      VisitCell(fm, mesh, gridSize, hexRadius, hexHeight, row, col);
      RowVerticesAppend(start, done, mesh.vertices, fm, gridSize, hexRadius, hexHeight, row, lo, col);
    }
    assert mesh.vertices == start + RowVertices(fm, gridSize, hexRadius, hexHeight, row, -gridSize, gridSize + 1);
  }

  /** The body of the `for col` loop: the prism of cell (row, col) when the cell is kept. */
  method VisitCell(fm: FloatMath, mesh: MeshData, gridSize: int, hexRadius: real, hexHeight: real, row: int, col: int)
    requires mesh.Valid()
    modifies mesh
    ensures mesh.Valid()
    ensures mesh.TriangleCount() == old(mesh.TriangleCount()) + (if CellInside(gridSize, hexRadius, row, col) then 24 else 0)
    ensures mesh.vertices == old(mesh.vertices) + CellVertices(fm, gridSize, hexRadius, hexHeight, row, col)
  {
    var offset := CellOffset(hexRadius, row, col);
    if CellInside(gridSize, hexRadius, row, col) {
      AddHexagonalPrism(fm, mesh, offset, hexRadius * 0.9, hexHeight);
    } else {
      assert old(mesh.vertices) + [] == old(mesh.vertices);
    }
  }
}
