/**
  The branching generator (`generateBranching`, `generateBranch`,
  `addCylinder`): a trunk cylinder, then recursively three children off the
  trunk and two off every other limb, each child 0.65 times as thick as its
  parent, until the depth limit.
 */
module Branching {
  import opened Geometry
  import opened Mesh
  import opened Design

  /** `iterations = min(params.iterations + 2, 5)`: the depth limit of the tree. */
  function MaxDepth(iterations: int): (m: int)
    ensures m <= 5
    ensures iterations <= 3 ==> m == iterations + 2
    ensures iterations >= 3 ==> m == 5
  {
    if iterations + 2 < 5 then iterations + 2 else 5
  }

  /** `numBranches`: three children off the trunk, two off every other limb. */
  function Branches(depth: int): nat {
    if depth == 0 then 3 else 2
  }

  /** The number of cylinders `generateBranch` emits for a limb at `depth`. */
  function CylinderCount(depth: int, maxDepth: int): nat
    decreases maxDepth - depth
  {
    1 + (if depth < maxDepth then Branches(depth) * CylinderCount(depth + 1, maxDepth) else 0)
  }

  /** c + c + ... + c, i times: the cylinders of i sibling subtrees of c cylinders each. */
  function Repeat(i: nat, c: nat): nat {
    if i == 0 then 0 else Repeat(i - 1, c) + c
  }

  lemma RepeatBranches(depth: int, c: nat)
    ensures Repeat(Branches(depth), c) == Branches(depth) * c
  {
    assert Repeat(1, c) == c;
    assert Repeat(2, c) == 2 * c;
    assert Repeat(3, c) == 3 * c;
  }

  function Pow2(n: nat): nat {
    if n == 0 then 1 else 2 * Pow2(n - 1)
  }

  /** Below the trunk every limb has two children: a full binary subtree of 2^(m-d+1) − 1 limbs. */
  lemma {:induction false} CylinderCountBelowTrunk(depth: int, maxDepth: int)
    requires 0 < depth <= maxDepth
    ensures CylinderCount(depth, maxDepth) == Pow2(maxDepth - depth + 1) - 1
    decreases maxDepth - depth
  {
    if depth < maxDepth {
      CylinderCountBelowTrunk(depth + 1, maxDepth);
    }
  }

  /**
    From the trunk: 3·2^m − 2 cylinders when the depth limit m is positive, the
    trunk alone otherwise.
   */
  lemma CylinderCountFromTrunk(maxDepth: int)
    ensures maxDepth > 0 ==> CylinderCount(0, maxDepth) == 3 * Pow2(maxDepth) - 2
    ensures maxDepth <= 0 ==> CylinderCount(0, maxDepth) == 1
  {
    if maxDepth > 0 {
      CylinderCountBelowTrunk(1, maxDepth);
    }
  }

  lemma {:induction false} Pow2Monotone(a: nat, b: nat)
    requires a <= b
    ensures Pow2(a) <= Pow2(b)
    decreases b
  {
    if a < b {
      Pow2Monotone(a, b - 1);
    }
  }

  /** The tree never has more than 94 cylinders, and has exactly 94 from iterations = 3 on. */
  lemma BranchingCylindersBound(iterations: int)
    ensures CylinderCount(0, MaxDepth(iterations)) <= 94
    ensures iterations >= 3 ==> CylinderCount(0, MaxDepth(iterations)) == 94
  {
    var m := MaxDepth(iterations);
    CylinderCountFromTrunk(m);
    if m > 0 {
      Pow2Monotone(m, 5);
      assert Pow2(5) == 32;
    }
  }

  /** One limb of the tree: its depth and its radius. */
  datatype Limb = Limb(depth: int, radius: real)

  /** radius·0.65^k: the radius of a limb k levels below a limb of the given radius. */
  function Tapered(radius: real, k: nat): real {
    if k == 0 then radius else Tapered(radius, k - 1) * 0.65
  }

  /** Limb `l` lies at or below `depth` and is tapered from `radius` once per level. */
  predicate TaperedFrom(l: Limb, depth: int, radius: real) {
    depth <= l.depth && l.radius == Tapered(radius, l.depth - depth)
  }

  /** Every limb of `limbs` is tapered from `radius` at `depth`, and is that limb or lies no deeper than maxDepth. */
  ghost predicate Subtree(limbs: seq<Limb>, depth: int, radius: real, maxDepth: int) {
    forall l :: l in limbs ==> TaperedFrom(l, depth, radius) && (l.depth == depth || l.depth <= maxDepth)
  }

  lemma SubtreeAppend(a: seq<Limb>, b: seq<Limb>, depth: int, radius: real, maxDepth: int)
    requires Subtree(a, depth, radius, maxDepth) && Subtree(b, depth, radius, maxDepth)
    ensures Subtree(a + b, depth, radius, maxDepth)
  {
  }

  /** The angle of ring point i: i·2π/segments. */
  function RingAngle(i: int, segments: int): real
    requires segments > 0
  {
    i as real * 2.0 * FloatPi / segments as real
  }

  /**
    The `startPoints` / `endPoints` loop of `addCylinder`: two rings of
    `segments` points, at the same offsets from `start` and from `end`.
   */
  method CylinderRings(fm: FloatMath, start: Vec3, end: Vec3, perp1: Vec3, perp2: Vec3, radius: real, segments: int)
    returns (startPoints: seq<Vec3>, endPoints: seq<Vec3>)
    requires segments > 0
    ensures |startPoints| == |endPoints| == segments
    ensures forall i :: 0 <= i < segments ==>
              startPoints[i] == RingPoint(fm, start, perp1, perp2, RingAngle(i, segments), radius)
    ensures forall i :: 0 <= i < segments ==> Sub(endPoints[i], end) == Sub(startPoints[i], start)
  {
    startPoints, endPoints := [], [];
    for i := 0 to segments
      invariant |startPoints| == |endPoints| == i
      invariant forall j :: 0 <= j < i ==>
                  startPoints[j] == RingPoint(fm, start, perp1, perp2, RingAngle(j, segments), radius)
      invariant forall j :: 0 <= j < i ==> Sub(endPoints[j], end) == Sub(startPoints[j], start)
    {
      var angle := RingAngle(i, segments);
      var offset := Scale(Add(Scale(perp1, fm.cos(angle)), Scale(perp2, fm.sin(angle))), radius);
      startPoints := startPoints + [Add(start, offset)];
      endPoints := endPoints + [Add(end, offset)];
    }
  }

  /**
    The rings of a cylinder are square to its axis: every ring point lies in the
    plane through its end point orthogonal to the normalized direction.
   */
  lemma RingsSquareToAxis(fm: FloatMath, start: Vec3, end: Vec3, radius: real, i: int)
    requires 0 <= i < 6
    ensures var direction := Normalize(fm, Sub(end, start));
            var axes := PerpendicularAxes(fm, direction);
            Dot(Sub(RingPoint(fm, start, axes.0, axes.1, RingAngle(i, 6), radius), start), direction) == 0.0
  {
    var direction := Normalize(fm, Sub(end, start));
    var axes := PerpendicularAxes(fm, direction);
    assert Dot(axes.0, direction) == 0.0 && Dot(axes.1, direction) == 0.0;
  }

  /**
    `addCylinder`: six segments, each two side triangles and two cap
    triangles, so exactly 24 triangles appended after what the mesh held.
   */
  method AddCylinder(fm: FloatMath, mesh: MeshData, start: Vec3, end: Vec3, radius: real)
    requires mesh.Valid()
    modifies mesh
    ensures mesh.Valid()
    ensures mesh.TriangleCount() == old(mesh.TriangleCount()) + 24
    ensures old(mesh.vertices) <= mesh.vertices
  {
    var segments := 6;
    var direction := Normalize(fm, Sub(end, start));
    var axes := PerpendicularAxes(fm, direction);
    var perp1, perp2 := axes.0, axes.1;
    var startPoints, endPoints := CylinderRings(fm, start, end, perp1, perp2, radius, segments);
    for i := 0 to segments
      invariant mesh.Valid()
      invariant mesh.TriangleCount() == old(mesh.TriangleCount()) + 4 * i
      invariant old(mesh.vertices) <= mesh.vertices
    {
      var next := (i + 1) % segments;
      // side faces
      mesh.AddTriangle(fm, startPoints[i], startPoints[next], endPoints[i]);
      mesh.AddTriangle(fm, startPoints[next], endPoints[next], endPoints[i]);
      // end caps
      mesh.AddTriangle(fm, start, startPoints[next], startPoints[i]);
      mesh.AddTriangle(fm, end, endPoints[i], endPoints[next]);
    }
  }

  /** The direction of a child limb, from its spread and azimuth angles. */
  function BranchDirection(fm: FloatMath, spreadAngle: real, angleOffset: real): Vec3 {
    Normalize(fm, Vec3(fm.sin(spreadAngle) * fm.cos(angleOffset),
                       fm.cos(spreadAngle),
                       fm.sin(spreadAngle) * fm.sin(angleOffset)))
  }

  /** Tapering the child's radius k times is tapering the parent's k + 1 times. */
  lemma {:induction false} TaperedShift(radius: real, k: nat)
    ensures Tapered(radius * 0.65, k) == Tapered(radius, k + 1)
  {
    if k > 0 {
      TaperedShift(radius, k - 1);
    }
  }

  /**
    The end point of child i of `numBranches`: `branchLength` from `end` along
    the direction with azimuth i·2π/numBranches plus a jitter in [-0.3, 0.3]
    and spread angle in [0.4, 0.8].
   */
  method ChildEnd(fm: FloatMath, end: Vec3, branchLength: real, i: int, numBranches: int) returns (newEnd: Vec3)
    requires numBranches > 0
    ensures exists jitter: real, spreadAngle: real ::
              Between(-0.3, jitter, 0.3) && Between(0.4, spreadAngle, 0.8) &&
              newEnd == Add(end, Scale(BranchDirection(fm, spreadAngle, i as real * 2.0 * FloatPi / numBranches as real + jitter), branchLength))
  {
    assert Between(-0.3, 0.0, 0.3) && Between(0.4, 0.4, 0.8);
    var jitter: real :| Between(-0.3, jitter, 0.3);
    var spreadAngle: real :| Between(0.4, spreadAngle, 0.8);
    var angleOffset := i as real * 2.0 * FloatPi / numBranches as real + jitter;
    var direction := BranchDirection(fm, spreadAngle, angleOffset);
    newEnd := Add(end, Scale(direction, branchLength));
  }

  /** A subtree tapered from a child of radius 0.65·r is tapered from its parent of radius r. */
  lemma SubtreeTaper(sub: seq<Limb>, depth: int, radius: real, maxDepth: int)
    requires depth < maxDepth
    requires Subtree(sub, depth + 1, radius * 0.65, maxDepth)
    ensures Subtree(sub, depth, radius, maxDepth)
  {
    forall l | l in sub ensures TaperedFrom(l, depth, radius) && (l.depth == depth || l.depth <= maxDepth) {
      assert TaperedFrom(l, depth + 1, radius * 0.65);
      TaperedShift(radius, l.depth - (depth + 1));
    }
  }

  /**
    `generateBranch`: a cylinder for this limb, then, below the depth limit,
    `Branches(depth)` children starting at `end`. `limbs` reports every limb
    emitted: this one first, then the children's subtrees in order.
   */
  method GenerateBranch(fm: FloatMath, mesh: MeshData, start: Vec3, end: Vec3, radius: real, depth: int, maxDepth: int)
    returns (ghost limbs: seq<Limb>)
    requires mesh.Valid()
    modifies mesh
    ensures mesh.Valid()
    ensures mesh.TriangleCount() == old(mesh.TriangleCount()) + 24 * CylinderCount(depth, maxDepth)
    ensures old(mesh.vertices) <= mesh.vertices
    ensures |limbs| == CylinderCount(depth, maxDepth)
    ensures limbs[0] == Limb(depth, radius)
    ensures Subtree(limbs, depth, radius, maxDepth)
    decreases maxDepth - depth, 1
  {
    AddCylinder(fm, mesh, start, end, radius);
    limbs := [Limb(depth, radius)];
    assert TaperedFrom(limbs[0], depth, radius);
    if depth >= maxDepth {
      return;
    }
    var branchLength := Length(fm, start, end) * 0.7;
    ghost var children := GrowChildren(fm, mesh, end, branchLength, radius, depth, maxDepth);
    RepeatBranches(depth, CylinderCount(depth + 1, maxDepth));
    SubtreeAppend(limbs, children, depth, radius, maxDepth);
    limbs := limbs + children;
  }

  /**
    The child loop of `generateBranch`: `Branches(depth)` children starting at
    `end`, each of length `branchLength` (0.7 times the parent's) and radius
    0.65 times the parent's, one full subtree after another.
   */
  method GrowChildren(fm: FloatMath, mesh: MeshData, end: Vec3, branchLength: real, radius: real, depth: int, maxDepth: int)
    returns (ghost limbs: seq<Limb>)
    requires mesh.Valid() && depth < maxDepth
    modifies mesh
    ensures mesh.Valid()
    ensures mesh.TriangleCount() == old(mesh.TriangleCount()) + 24 * |limbs|
    ensures old(mesh.vertices) <= mesh.vertices
    ensures |limbs| == Repeat(Branches(depth), CylinderCount(depth + 1, maxDepth))
    ensures Subtree(limbs, depth, radius, maxDepth)
    decreases maxDepth - depth, 0
  {
    var numBranches := Branches(depth);
    var childRadius := radius * 0.65;
    ghost var childCount := CylinderCount(depth + 1, maxDepth);
    limbs := [];
    for i := 0 to numBranches
      invariant mesh.Valid()
      invariant old(mesh.vertices) <= mesh.vertices
      invariant mesh.TriangleCount() == old(mesh.TriangleCount()) + 24 * |limbs|
      invariant |limbs| == Repeat(i, childCount)
      invariant Subtree(limbs, depth, radius, maxDepth)
    {
      var newEnd := ChildEnd(fm, end, branchLength, i, numBranches);
      var sub := GenerateBranch(fm, mesh, end, newEnd, childRadius, depth + 1, maxDepth);
      SubtreeTaper(sub, depth, radius, maxDepth);
      SubtreeAppend(limbs, sub, depth, radius, maxDepth);
      limbs := limbs + sub;
    }
  }

  /** For a positive radius, tapering k > 0 times gives a strictly smaller, still positive radius. */
  lemma {:induction false} TaperedShrinks(radius: real, k: nat)
    requires radius > 0.0
    ensures 0.0 < Tapered(radius, k) <= radius
    ensures k > 0 ==> Tapered(radius, k) < radius
  {
    if k > 0 {
      TaperedShrinks(radius, k - 1);
    }
  }

  /** For a positive trunk radius every deeper limb is strictly thinner, and none vanishes. */
  lemma DeeperLimbsAreThinner(l: Limb, depth: int, radius: real)
    requires radius > 0.0 && TaperedFrom(l, depth, radius) && l.depth > depth
    ensures 0.0 < l.radius < radius
  {
    TaperedShrinks(radius, l.depth - depth);
  }

  /**
    `generateBranching`: the trunk from (0, −0.5·scale, 0) to (0, 0.2·scale, 0)
    with radius 0.08·scale, branched to depth min(iterations + 2, 5).
   */
  method GenerateBranching(fm: FloatMath, params: GenerationParameters)
    returns (mesh: MeshData, ghost limbs: seq<Limb>)
    ensures fresh(mesh) && mesh.Valid()
    ensures mesh.TriangleCount() == 24 * CylinderCount(0, MaxDepth(params.iterations))
    ensures |limbs| == CylinderCount(0, MaxDepth(params.iterations))
    ensures forall l :: l in limbs ==> 0 <= l.depth <= 5 && l.radius == Tapered(0.08 * params.scale, l.depth)
  {
    mesh := new MeshData();
    var iterations := MaxDepth(params.iterations);
    var scale := params.scale;
    limbs := GenerateBranch(fm, mesh, Vec3(0.0, -0.5 * scale, 0.0), Vec3(0.0, 0.2 * scale, 0.0), 0.08 * scale, 0, iterations);
  }
}
