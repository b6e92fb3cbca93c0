/**
  The gyroid generator (`generateGyroid`, `gyroidValue`, `addGyroidTriangles`):
  a resolution³ grid of cubes over [-size/2, size/2)³; every cube whose eight
  corner samples of the gyroid field include a strictly positive and a
  strictly negative value gets a fixed two-triangle patch near its center.
 */
module Gyroid {
  import opened Geometry
  import opened Mesh
  import opened Design

  /** `resolution = Int(10 * density) + 8`: at least 8 for every non-negative density. */
  function Resolution(density: real): (n: int)
    ensures density >= 0.0 ==> n >= 8
    ensures density < 0.0 ==> n <= 8
  {
    TruncToInt(10.0 * density) + 8
  }

  lemma ResolutionMonotone(d1: real, d2: real)
    requires d1 <= d2
    ensures Resolution(d1) <= Resolution(d2)
  {
    TruncToIntMonotone(10.0 * d1, 10.0 * d2);
  }

  /** The sampling frequency of the field. */
  const Frequency: real := 4.0

  /** `gyroidValue`: sin(fx)·cos(fy) + sin(fy)·cos(fz) + sin(fz)·cos(fx). */
  function GyroidValue(fm: FloatMath, x: real, y: real, z: real, freq: real): real {
    fm.sin(freq * x) * fm.cos(freq * y) + fm.sin(freq * y) * fm.cos(freq * z) + fm.sin(freq * z) * fm.cos(freq * x)
  }

  /** The gyroid field is unchanged by a cyclic shift of the axes. */
  lemma GyroidValueCyclic(fm: FloatMath, x: real, y: real, z: real, freq: real)
    ensures GyroidValue(fm, y, z, x, freq) == GyroidValue(fm, x, y, z, freq)
  {
  }

  /**
    Corner `i` of a cube, as its offset in steps (0 or 1) from the low corner
    along x, y and z, in the order the source samples the corners.
   */
  function CornerOffset(i: int): (int, int, int)
    requires 0 <= i < 8
  {
    match i
    case 0 => (0, 0, 0)
    case 1 => (1, 0, 0)
    case 2 => (1, 1, 0)
    case 3 => (0, 1, 0)
    case 4 => (0, 0, 1)
    case 5 => (1, 0, 1)
    case 6 => (1, 1, 1)
    case _ => (0, 1, 1)
  }

  /** The sampling order visits each of the cube's eight corners exactly once. */
  lemma CornerOffsetsCoverCube()
    ensures forall i :: 0 <= i < 8 ==>
              0 <= CornerOffset(i).0 <= 1 && 0 <= CornerOffset(i).1 <= 1 && 0 <= CornerOffset(i).2 <= 1
    ensures forall i, j :: 0 <= i < j < 8 ==> CornerOffset(i) != CornerOffset(j)
  {
  }

  /** A coordinate moved `k` steps (k is 0 or 1). */
  function Shifted(a: real, k: int, step: real): real {
    if k == 1 then a + step else a
  }

  /** The field at the eight corners of the cube at (x, y, z), in the order the source lists them. */
  function CornerValues(fm: FloatMath, x: real, y: real, z: real, step: real): (c: seq<real>)
    ensures |c| == 8
    ensures forall i :: 0 <= i < 8 ==>
              c[i] == GyroidValue(fm, Shifted(x, CornerOffset(i).0, step), Shifted(y, CornerOffset(i).1, step),
                                  Shifted(z, CornerOffset(i).2, step), Frequency)
  {
    [GyroidValue(fm, x, y, z, Frequency),
     GyroidValue(fm, x + step, y, z, Frequency),
     GyroidValue(fm, x + step, y + step, z, Frequency),
     GyroidValue(fm, x, y + step, z, Frequency),
     GyroidValue(fm, x, y, z + step, Frequency),
     GyroidValue(fm, x + step, y, z + step, Frequency),
     GyroidValue(fm, x + step, y + step, z + step, Frequency),
     GyroidValue(fm, x, y + step, z + step, Frequency)]
  }

  predicate HasPositive(corners: seq<real>) {
    exists i :: 0 <= i < |corners| && corners[i] > 0.0
  }

  predicate HasNegative(corners: seq<real>) {
    exists i :: 0 <= i < |corners| && corners[i] < 0.0
  }

  /** The surface crosses the cube: some corner strictly above the threshold 0 and some strictly below. */
  predicate MixedSigns(corners: seq<real>) {
    HasPositive(corners) && HasNegative(corners)
  }

  /** The test is strict: corners that are all zero or above (or all zero or below) never count as a crossing. */
  lemma ZeroIsNeitherSign(corners: seq<real>)
    requires (forall i :: 0 <= i < |corners| ==> corners[i] >= 0.0) ||
             (forall i :: 0 <= i < |corners| ==> corners[i] <= 0.0)
    ensures !MixedSigns(corners)
  {
  }

  /** The `for c in corners` scan of `addGyroidTriangles`. */
  method ScanSigns(corners: seq<real>) returns (hasPositive: bool, hasNegative: bool)
    ensures hasPositive <==> HasPositive(corners)
    ensures hasNegative <==> HasNegative(corners)
  {
    var threshold := 0.0;
    hasPositive, hasNegative := false, false;
    for k := 0 to |corners|
      invariant hasPositive <==> exists i :: 0 <= i < k && corners[i] > threshold
      invariant hasNegative <==> exists i :: 0 <= i < k && corners[i] < threshold
    {
      if corners[k] > threshold { hasPositive := true; }
      if corners[k] < threshold { hasNegative := true; }
    }
  }

  /**
    The patch placed in a crossed cube: two triangles around the cube center
    (cx, cy, cz) = (x, y, z) + step/2, spanning s = 0.4·step.
   */
  function PatchVertices(x: real, y: real, z: real, step: real): (vs: seq<Vec3>)
    ensures |vs| == 6
    // the two triangles share the edge from vs[1] to vs[2]
    ensures vs[3] == vs[1] && vs[5] == vs[2]
    // the quad's low edge lies at the center height, its far corner s higher
    ensures vs[0].y == y + step / 2.0 && vs[1].y == vs[0].y && vs[4].y == vs[0].y
    ensures vs[2].y == vs[0].y + step * 0.4
    // in a cube of non-zero size the quad's four corners are distinct
    ensures step != 0.0 ==> vs[0] != vs[1] && vs[0] != vs[2] && vs[0] != vs[4] &&
                            vs[1] != vs[2] && vs[1] != vs[4] && vs[2] != vs[4]
  {
    var cx, cy, cz := x + step / 2.0, y + step / 2.0, z + step / 2.0;
    var s := step * 0.4;
    [Vec3(cx - s, cy, cz - s), Vec3(cx + s, cy, cz - s), Vec3(cx, cy + s, cz + s),
     Vec3(cx + s, cy, cz - s), Vec3(cx + s, cy, cz + s), Vec3(cx, cy + s, cz + s)]
  }

  /** For a positive step the patch stays inside its cube. */
  lemma PatchInsideCube(x: real, y: real, z: real, step: real)
    requires step > 0.0
    ensures forall v :: v in PatchVertices(x, y, z, step) ==>
              x < v.x < x + step && y <= v.y < y + step && z < v.z < z + step
  {
  }

  /**
    `addGyroidTriangles`: two triangles when the corners have mixed signs,
    nothing otherwise.
   */
  method AddGyroidTriangles(fm: FloatMath, mesh: MeshData, x: real, y: real, z: real, step: real, corners: seq<real>)
    requires mesh.Valid()
    modifies mesh
    ensures mesh.Valid()
    ensures mesh.vertices == old(mesh.vertices) + (if MixedSigns(corners) then PatchVertices(x, y, z, step) else [])
    ensures mesh.TriangleCount() == old(mesh.TriangleCount()) + (if MixedSigns(corners) then 2 else 0)
  {
    var hasPositive, hasNegative := ScanSigns(corners);
    if !(hasPositive && hasNegative) {
      return;
    }
    var cx := x + step / 2.0;
    var cy := y + step / 2.0;
    var cz := z + step / 2.0;
    var s := step * 0.4;
    mesh.AddTriangle(fm, Vec3(cx - s, cy, cz - s), Vec3(cx + s, cy, cz - s), Vec3(cx, cy + s, cz + s));
    mesh.AddTriangle(fm, Vec3(cx + s, cy, cz - s), Vec3(cx + s, cy, cz + s), Vec3(cx, cy + s, cz + s));
  }

  /** The low corner coordinate of grid index i: i·step − size/2. */
  function CellOrigin(i: int, step: real, size: real): real {
    i as real * step - size / 2.0
  }

  /** Whether the surface crosses the cube with grid indices (xi, yi, zi). */
  predicate Crossed(fm: FloatMath, step: real, size: real, xi: int, yi: int, zi: int) {
    MixedSigns(CornerValues(fm, CellOrigin(xi, step, size), CellOrigin(yi, step, size), CellOrigin(zi, step, size), step))
  }

  /** Crossed cubes (xi, yi, zi) with zi < n. */
  function ColumnCount(fm: FloatMath, step: real, size: real, xi: int, yi: int, n: nat): nat {
    if n == 0 then 0
    else ColumnCount(fm, step, size, xi, yi, n - 1) + (if Crossed(fm, step, size, xi, yi, n - 1) then 1 else 0)
  }

  /** Crossed cubes (xi, yi, zi) with yi < m and zi < n. */
  function SliceCount(fm: FloatMath, step: real, size: real, xi: int, m: nat, n: nat): nat {
    if m == 0 then 0
    else SliceCount(fm, step, size, xi, m - 1, n) + ColumnCount(fm, step, size, xi, m - 1, n)
  }

  /** Crossed cubes (xi, yi, zi) with xi < l, yi < n and zi < n. */
  function VolumeCount(fm: FloatMath, step: real, size: real, l: nat, n: nat): nat {
    if l == 0 then 0
    else VolumeCount(fm, step, size, l - 1, n) + SliceCount(fm, step, size, l - 1, n, n)
  }

  lemma MulStep(a: int, b: int)
    ensures (a - 1) * b + b == a * b
  {
  }

  lemma {:induction false} ColumnCountBound(fm: FloatMath, step: real, size: real, xi: int, yi: int, n: nat)
    ensures ColumnCount(fm, step, size, xi, yi, n) <= n
  {
    if n > 0 {
      ColumnCountBound(fm, step, size, xi, yi, n - 1);
    }
  }

  lemma {:induction false} SliceCountBound(fm: FloatMath, step: real, size: real, xi: int, m: nat, n: nat)
    ensures SliceCount(fm, step, size, xi, m, n) <= m * n
  {
    if m > 0 {
      SliceCountBound(fm, step, size, xi, m - 1, n);
      ColumnCountBound(fm, step, size, xi, m - 1, n);
      MulStep(m, n);
    }
  }

  lemma {:induction false} VolumeCountBound(fm: FloatMath, step: real, size: real, l: nat, n: nat)
    ensures VolumeCount(fm, step, size, l, n) <= l * (n * n)
  {
    if l > 0 {
      VolumeCountBound(fm, step, size, l - 1, n);
      SliceCountBound(fm, step, size, l - 1, n, n);
      MulStep(l, n * n);
    }
  }

  /** The step of the grid: size / resolution. */
  function GridStep(params: GenerationParameters): real {
    SafeDiv(params.scale * 1.0, Resolution(params.density) as real)
  }

  /** The triangle count of the gyroid mesh: two per crossed cube. */
  function GyroidTriangles(fm: FloatMath, params: GenerationParameters): nat
    requires Resolution(params.density) >= 0
  {
    var n := Resolution(params.density);
    2 * VolumeCount(fm, GridStep(params), params.scale * 1.0, n, n)
  }

  lemma GyroidTrianglesOfGrid(fm: FloatMath, params: GenerationParameters, step: real, size: real, n: nat)
    requires n == Resolution(params.density) && step == GridStep(params) && size == params.scale * 1.0
    ensures GyroidTriangles(fm, params) == 2 * VolumeCount(fm, step, size, n, n)
  {
  }

  /** At most two triangles per cube of the resolution³ grid. */
  lemma GyroidTrianglesBound(fm: FloatMath, params: GenerationParameters)
    requires Resolution(params.density) >= 0
    ensures var n := Resolution(params.density);
            GyroidTriangles(fm, params) <= 2 * (n * n * n)
  {
    var n := Resolution(params.density);
    VolumeCountBound(fm, GridStep(params), params.scale * 1.0, n, n);
    assert n * (n * n) == n * n * n;
  }

  /** The innermost loop of `generateGyroid`: the cubes (xi, yi, 0 .. n-1). */
  method VisitColumn(fm: FloatMath, mesh: MeshData, step: real, size: real, xi: int, yi: int, n: nat)
    requires mesh.Valid()
    modifies mesh
    ensures mesh.Valid()
    ensures mesh.TriangleCount() == old(mesh.TriangleCount()) + 2 * ColumnCount(fm, step, size, xi, yi, n)
  {
    for zi := 0 to n
      invariant mesh.Valid()
      invariant mesh.TriangleCount() == old(mesh.TriangleCount()) + 2 * ColumnCount(fm, step, size, xi, yi, zi)
    {
      var x := CellOrigin(xi, step, size);
      var y := CellOrigin(yi, step, size);
      var z := CellOrigin(zi, step, size);
      var corners := CornerValues(fm, x, y, z, step);
      AddGyroidTriangles(fm, mesh, x, y, z, step, corners);
    }
  }

  /** The middle loop of `generateGyroid`: the cubes (xi, 0 .. n-1, 0 .. n-1). */
  method VisitSlice(fm: FloatMath, mesh: MeshData, step: real, size: real, xi: int, n: nat)
    requires mesh.Valid()
    modifies mesh
    ensures mesh.Valid()
    ensures mesh.TriangleCount() == old(mesh.TriangleCount()) + 2 * SliceCount(fm, step, size, xi, n, n)
  {
    for yi := 0 to n
      invariant mesh.Valid()
      invariant mesh.TriangleCount() == old(mesh.TriangleCount()) + 2 * SliceCount(fm, step, size, xi, yi, n)
    {
      VisitColumn(fm, mesh, step, size, xi, yi, n);
    }
  }

  /** The outer loop of `generateGyroid`: every cube of the n³ grid, in x, y, z order. */
  method VisitVolume(fm: FloatMath, mesh: MeshData, step: real, size: real, n: nat)
    requires mesh.Valid()
    modifies mesh
    ensures mesh.Valid()
    ensures mesh.TriangleCount() == old(mesh.TriangleCount()) + 2 * VolumeCount(fm, step, size, n, n)
  {
    for xi := 0 to n
      invariant mesh.Valid()
      invariant mesh.TriangleCount() == old(mesh.TriangleCount()) + 2 * VolumeCount(fm, step, size, xi, n)
    {
      VisitSlice(fm, mesh, step, size, xi, n);
    }
  }

  /**
    `generateGyroid`: visits every cube of the resolution³ grid and adds the
    patch to each crossed cube.
   */
  method GenerateGyroid(fm: FloatMath, params: GenerationParameters) returns (mesh: MeshData)
    requires Resolution(params.density) >= 0
    ensures fresh(mesh) && mesh.Valid()
    ensures mesh.TriangleCount() == GyroidTriangles(fm, params)
  {
    mesh := new MeshData();
    var scale := params.scale;
    var resolution := Resolution(params.density);
    var size := scale * 1.0;
    var step := SafeDiv(size, resolution as real);
    VisitVolume(fm, mesh, step, size, resolution);
    GyroidTrianglesOfGrid(fm, params, step, size, resolution);
  }
}
