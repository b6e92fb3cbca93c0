/**
  The spiral generator (`generateSpiral`): a tube of hexagonal cross-section
  swept along a rising spiral of `turns` turns, one ring of six points per
  sample and two triangles per side between consecutive rings.
 */
module Spiral {
  import opened Geometry
  import opened Mesh
  import opened Design
  import opened Wrappers
  import opened RealArith

  /** `turns = 3.0 + density * 2` */
  function Turns(density: real): real {
    3.0 + density * 2.0
  }

  /** `segments = Int(turns * 20)`: at least 60 for every non-negative density. */
  function Segments(density: real): (n: int)
    ensures density >= 0.0 ==> n >= 60
  {
    TruncToInt(Turns(density) * 20.0)
  }

  lemma SegmentsMonotone(d1: real, d2: real)
    requires d1 <= d2
    ensures Segments(d1) <= Segments(d2)
  {
    TruncToIntMonotone(Turns(d1) * 20.0, Turns(d2) * 20.0);
  }

  /** The sample parameter `t = i / segments`, running from 0 to 1. */
  function SampleT(i: int, segments: int): (t: real)
    ensures 0 <= i <= segments ==> 0.0 <= t <= 1.0
  {
    SafeDiv(i as real, segments as real)
  }

  /** The first sample is the start of the spiral and, when there are segments, the last is its end. */
  lemma SampleTEnds(segments: int)
    ensures SampleT(0, segments) == 0.0
    ensures segments != 0 ==> SampleT(segments, segments) == 1.0
  {
  }

  /** Samples further along the spiral have larger t. */
  lemma SampleTIncreases(i: int, j: int, segments: int)
    requires 0 <= i < j && segments > 0
    ensures SampleT(i, segments) < SampleT(j, segments)
  {
    var s := segments as real;
    assert i as real / s < j as real / s by {
      assert (j as real - i as real) / s > 0.0;
    }
  }

  /** The height of the tube axis at t: from −0.4·scale at t = 0 up to 0.4·scale at t = 1. */
  function AxisHeight(t: real, scale: real): real {
    t * 0.8 * scale - 0.4 * scale
  }

  /** `spiralRadius = 0.1·scale + t·0.5·scale` */
  function SpiralRadius(t: real, scale: real): real {
    0.1 * scale + t * 0.5 * scale
  }

  /** For a positive scale the tube climbs and widens as t grows, from its start to its end height. */
  lemma SpiralRisesAndWidens(t1: real, t2: real, scale: real)
    requires t1 < t2 && scale > 0.0
    ensures AxisHeight(t1, scale) < AxisHeight(t2, scale)
    ensures SpiralRadius(t1, scale) < SpiralRadius(t2, scale)
  {
    MulPos(t2 - t1, scale);
  }

  lemma AxisHeightEnds(scale: real)
    ensures AxisHeight(0.0, scale) == -0.4 * scale
    ensures AxisHeight(1.0, scale) == 0.4 * scale
  {
  }

  /** The center of ring i: angle turns·2π·t around the y axis at radius spiralRadius. */
  function RingCenter(fm: FloatMath, scale: real, turns: real, t: real): Vec3 {
    var angle := turns * 2.0 * FloatPi * t;
    var spiralRadius := SpiralRadius(t, scale);
    Vec3(spiralRadius * fm.cos(angle), AxisHeight(t, scale), spiralRadius * fm.sin(angle))
  }

  /** The (normalized) tangent of the spiral at t, as the source writes its derivative. */
  function RingTangent(fm: FloatMath, scale: real, turns: real, segments: int, t: real): Vec3 {
    var angle := turns * 2.0 * FloatPi * t;
    var spiralRadius := SpiralRadius(t, scale);
    Normalize(fm, Vec3(-spiralRadius * fm.sin(angle) + SafeDiv(0.5 * scale * fm.cos(angle), turns),
                       SafeDiv(0.8 * scale, segments as real),
                       spiralRadius * fm.cos(angle) + SafeDiv(0.5 * scale * fm.sin(angle), turns)))
  }

  /** The angle of tube side j: j·2π/6. */
  function TubeAngle(j: int): real {
    j as real * 2.0 * FloatPi / 6.0
  }

  /** The `currentPoints` loop: the six points of the cross-section around `center`. */
  method TubeRing(fm: FloatMath, center: Vec3, perp1: Vec3, perp2: Vec3, tubeRadius: real) returns (points: seq<Vec3>)
    ensures |points| == 6
    ensures forall j :: 0 <= j < 6 ==> points[j] == RingPoint(fm, center, perp1, perp2, TubeAngle(j), tubeRadius)
  {
    points := [];
    for j := 0 to 6
      invariant |points| == j
      invariant forall k :: 0 <= k < j ==> points[k] == RingPoint(fm, center, perp1, perp2, TubeAngle(k), tubeRadius)
    {
      var tubeAngle := TubeAngle(j);
      var offset := Scale(Add(Scale(perp1, fm.cos(tubeAngle)), Scale(perp2, fm.sin(tubeAngle))), tubeRadius);
      points := points + [Add(center, offset)];
    }
  }

  /** The ring of sample t is square to the tangent there: it lies in the normal plane through its center. */
  lemma RingSquareToTangent(fm: FloatMath, scale: real, turns: real, segments: int, t: real, tubeRadius: real, j: int)
    ensures var tangent := RingTangent(fm, scale, turns, segments, t);
            var axes := PerpendicularAxes(fm, tangent);
            var center := RingCenter(fm, scale, turns, t);
            Dot(Sub(RingPoint(fm, center, axes.0, axes.1, TubeAngle(j), tubeRadius), center), tangent) == 0.0
  {
    var tangent := RingTangent(fm, scale, turns, segments, t);
    var axes := PerpendicularAxes(fm, tangent);
    assert Dot(axes.0, tangent) == 0.0 && Dot(axes.1, tangent) == 0.0;
  }

  /** The six points of sample ring i, as `generateSpiral` computes them. */
  ghost predicate IsSampleRing(fm: FloatMath, scale: real, turns: real, segments: int, i: int, ring: seq<Vec3>) {
    var t := SampleT(i, segments);
    var axes := PerpendicularAxes(fm, RingTangent(fm, scale, turns, segments, t));
    && |ring| == 6
    && forall j :: 0 <= j < 6 ==>
         ring[j] == RingPoint(fm, RingCenter(fm, scale, turns, t), axes.0, axes.1, TubeAngle(j), 0.03 * scale)
  }

  /** `rings` are the sample rings 0 .. |rings|-1, in order. */
  ghost predicate SampleRings(fm: FloatMath, scale: real, turns: real, segments: int, rings: seq<seq<Vec3>>) {
    forall i :: 0 <= i < |rings| ==> IsSampleRing(fm, scale, turns, segments, i, rings[i])
  }

  lemma SampleRingsAppend(fm: FloatMath, scale: real, turns: real, segments: int, rings: seq<seq<Vec3>>, ring: seq<Vec3>)
    requires SampleRings(fm, scale, turns, segments, rings)
    requires IsSampleRing(fm, scale, turns, segments, |rings|, ring)
    ensures SampleRings(fm, scale, turns, segments, rings + [ring])
  {
    var all := rings + [ring];
    forall i | 0 <= i < |all| ensures IsSampleRing(fm, scale, turns, segments, i, all[i]) {
      if i < |rings| {
        assert all[i] == rings[i];
      }
    }
  }

  /** One pass of the sampling loop: ring i of the tube. */
  method SampleRing(fm: FloatMath, scale: real, turns: real, segments: int, i: int) returns (ring: seq<Vec3>)
    ensures IsSampleRing(fm, scale, turns, segments, i, ring)
  {
    var t := SampleT(i, segments);
    var center := RingCenter(fm, scale, turns, t);
    var tangent := RingTangent(fm, scale, turns, segments, t);
    var axes := PerpendicularAxes(fm, tangent);
    ring := TubeRing(fm, center, axes.0, axes.1, 0.03 * scale);
  }

  /**
    Two triangles per tube side between the previous ring and the current
    one: exactly 12 triangles appended after what the mesh held.
   */
  method JoinRings(fm: FloatMath, mesh: MeshData, prev: seq<Vec3>, current: seq<Vec3>)
    requires mesh.Valid() && |prev| == 6 && |current| == 6
    modifies mesh
    ensures mesh.Valid()
    ensures mesh.TriangleCount() == old(mesh.TriangleCount()) + 12
    ensures old(mesh.vertices) <= mesh.vertices
  {
    var tubeSides := 6;
    for j := 0 to tubeSides
      invariant mesh.Valid()
      invariant mesh.TriangleCount() == old(mesh.TriangleCount()) + 2 * j
      invariant old(mesh.vertices) <= mesh.vertices
    {
      var next := (j + 1) % tubeSides;
      mesh.AddTriangle(fm, prev[j], prev[next], current[j]);
      mesh.AddTriangle(fm, prev[next], current[next], current[j]);
    }
  }

  /**
    `generateSpiral`: segments + 1 sample rings (i = 0 ... segments), each
    joined to the one before it, so 12·segments triangles. `rings` reports the
    sample rings in order.
   */
  method GenerateSpiral(fm: FloatMath, params: GenerationParameters)
    returns (mesh: MeshData, ghost rings: seq<seq<Vec3>>)
    requires Segments(params.density) >= 0
    ensures fresh(mesh) && mesh.Valid()
    ensures mesh.TriangleCount() == 12 * Segments(params.density)
    ensures |rings| == Segments(params.density) + 1
    ensures SampleRings(fm, params.scale, Turns(params.density), Segments(params.density), rings)
  {
    mesh := new MeshData();
    var scale := params.scale;
    var turns := Turns(params.density);
    var segments := Segments(params.density);
    var prevPoints: Option<seq<Vec3>> := None;
    rings := [];

    for i := 0 to segments + 1
      invariant mesh.Valid()
      invariant |rings| == i
      invariant SampleRings(fm, scale, turns, segments, rings)
      invariant i == 0 <==> prevPoints == None
      invariant i > 0 ==> prevPoints == Some(rings[i - 1])
      invariant mesh.TriangleCount() == if i == 0 then 0 else 12 * (i - 1)
    {
      var currentPoints := SampleRing(fm, scale, turns, segments, i);
      if prevPoints.Some? {
        JoinRings(fm, mesh, prevPoints.value, currentPoints);
      }
      prevPoints := Some(currentPoints);
      SampleRingsAppend(fm, scale, turns, segments, rings, currentPoints);
      rings := rings + [currentPoints];
    }
  }
}
