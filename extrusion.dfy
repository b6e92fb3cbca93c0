/**
  The face loop shared by `addHexagonalPrism` and `addVoronoiCell`: a closed
  polygon outline around a center, extruded to a prism of the given height.
  For each side i (with next = (i + 1) mod sides) it appends a top-cap triangle,
  a bottom-cap triangle and the two triangles of the side wall.
 */
module Extrusion {
  import opened Geometry
  import opened Mesh

  /** Triangle `t` of the vertex list lies flat at height `y`. */
  ghost predicate FlatAt(vertices: seq<Vec3>, t: int, y: real) {
    && 0 <= t && 3 * t + 2 < |vertices|
    && vertices[3 * t].y == y && vertices[3 * t + 1].y == y && vertices[3 * t + 2].y == y
  }

  /** Triangle `t` of the vertex list has a vertex at height `lo` and one at height `hi`. */
  ghost predicate Spans(vertices: seq<Vec3>, t: int, lo: real, hi: real) {
    && 0 <= t && 3 * t + 2 < |vertices|
    && (vertices[3 * t].y == lo || vertices[3 * t + 1].y == lo || vertices[3 * t + 2].y == lo)
    && (vertices[3 * t].y == hi || vertices[3 * t + 1].y == hi || vertices[3 * t + 2].y == hi)
  }

  /**
    Side `i` of a prism whose triangles start at triangle `first`: one top-cap
    triangle, one bottom-cap triangle, then two wall triangles spanning both caps.
   */
  ghost predicate ExtrudedSide(vertices: seq<Vec3>, first: int, i: int, topY: real, bottomY: real) {
    var t := first + 4 * i;
    && FlatAt(vertices, t, topY)
    && FlatAt(vertices, t + 1, bottomY)
    && Spans(vertices, t + 2, bottomY, topY)
    && Spans(vertices, t + 3, bottomY, topY)
  }

  /** Sides `0 .. count-1` of a prism starting at triangle `first` are all in place. */
  ghost predicate ExtrudedSides(vertices: seq<Vec3>, first: int, count: int, topY: real, bottomY: real) {
    forall i :: 0 <= i < count ==> ExtrudedSide(vertices, first, i, topY, bottomY)
  }

  /** Appending vertices leaves the sides already in place untouched. */
  lemma ExtrudedSidesGrow(vertices: seq<Vec3>, more: seq<Vec3>, first: int, count: int, topY: real, bottomY: real)
    requires ExtrudedSides(vertices, first, count, topY, bottomY)
    ensures ExtrudedSides(vertices + more, first, count, topY, bottomY)
  {
    forall i | 0 <= i < count ensures ExtrudedSide(vertices + more, first, i, topY, bottomY) {
      assert ExtrudedSide(vertices, first, i, topY, bottomY);
    }
  }

  /** Twelve vertices laid out top, bottom, wall, wall form one more side. */
  lemma NewSide(vertices: seq<Vec3>, first: int, i: int, topY: real, bottomY: real, side: seq<Vec3>)
    requires 0 <= first && 0 <= i && |vertices| == 3 * (first + 4 * i)
    requires |side| == 12
    requires side[0].y == topY && side[1].y == topY && side[2].y == topY
    requires side[3].y == bottomY && side[4].y == bottomY && side[5].y == bottomY
    requires side[6].y == bottomY && side[8].y == topY
    requires side[9].y == bottomY && side[10].y == topY
    ensures ExtrudedSide(vertices + side, first, i, topY, bottomY)
  {
    var all := vertices + side;
    var t := first + 4 * i;
    assert all[3 * t .. 3 * t + 12] == side;
  }

  /** `v` is the point `p` carried to height `y`. */
  predicate Lifted(v: Vec3, p: Vec3, y: real) {
    v.x == p.x && v.y == y && v.z == p.z
  }

  /**
    The twelve vertices of one side between outline points p and q, in the
    order they are appended: top cap, bottom cap, then the two wall triangles.
   */
  function SideVertices(center: Vec3, p: Vec3, q: Vec3, topY: real, bottomY: real): (side: seq<Vec3>)
    ensures |side| == 12
  {
    [Vec3(center.x, topY, center.z), Vec3(p.x, topY, p.z), Vec3(q.x, topY, q.z),
     Vec3(center.x, bottomY, center.z), Vec3(q.x, bottomY, q.z), Vec3(p.x, bottomY, p.z),
     Vec3(p.x, bottomY, p.z), Vec3(q.x, bottomY, q.z), Vec3(p.x, topY, p.z),
     Vec3(q.x, bottomY, q.z), Vec3(q.x, topY, q.z), Vec3(p.x, topY, p.z)]
  }

  /**
    The layout of one side: the top cap is the fan triangle (center, p, q) at
    topY, the bottom cap the same triangle at bottomY wound the other way
    (center, q, p), and the wall is the quad over p and q split along the
    diagonal from q at bottomY to p at topY.
   */
  lemma SideVerticesLayout(center: Vec3, p: Vec3, q: Vec3, topY: real, bottomY: real)
    ensures var side := SideVertices(center, p, q, topY, bottomY);
            && Lifted(side[0], center, topY) && Lifted(side[1], p, topY) && Lifted(side[2], q, topY)
            && Lifted(side[3], center, bottomY) && Lifted(side[4], q, bottomY) && Lifted(side[5], p, bottomY)
            && Lifted(side[6], p, bottomY) && Lifted(side[7], q, bottomY) && Lifted(side[8], p, topY)
            && side[9] == side[7] && Lifted(side[10], q, topY) && side[11] == side[8]
  {
  }

  /** Appending the vertices of side i to a prism holding sides 0 .. i-1 gives one holding sides 0 .. i. */
  lemma SideAppended(vertices: seq<Vec3>, first: int, i: int, center: Vec3, p: Vec3, q: Vec3, topY: real, bottomY: real)
    requires 0 <= first && 0 <= i && |vertices| == 3 * (first + 4 * i)
    requires ExtrudedSides(vertices, first, i, topY, bottomY)
    ensures ExtrudedSides(vertices + SideVertices(center, p, q, topY, bottomY), first, i + 1, topY, bottomY)
  {
    var side := SideVertices(center, p, q, topY, bottomY);
    ExtrudedSidesGrow(vertices, side, first, i, topY, bottomY);
    NewSide(vertices, first, i, topY, bottomY, side);
  }

  /**
    The vertices the face loop appends for sides 0 .. k-1 of `outline`, side i
    running from outline[i] to outline[(i + 1) mod |outline|], so that the last
    side closes the polygon.
   */
  function PrismVertices(center: Vec3, outline: seq<Vec3>, k: nat, topY: real, bottomY: real): (vs: seq<Vec3>)
    requires k <= |outline|
    ensures |vs| == 12 * k
  {
    if k == 0 then []
    else PrismVertices(center, outline, k - 1, topY, bottomY)
         + SideVertices(center, outline[k - 1], outline[k % |outline|], topY, bottomY)
  }

  /** Side i occupies vertices 12i .. 12i+11 and joins outline point i to its successor. */
  lemma {:induction false} PrismVerticesSide(center: Vec3, outline: seq<Vec3>, k: nat, i: int, topY: real, bottomY: real)
    requires 0 <= i < k <= |outline|
    ensures PrismVertices(center, outline, k, topY, bottomY)[12 * i .. 12 * i + 12]
            == SideVertices(center, outline[i], outline[(i + 1) % |outline|], topY, bottomY)
  {
    var prefix := PrismVertices(center, outline, k - 1, topY, bottomY);
    var last := SideVertices(center, outline[k - 1], outline[k % |outline|], topY, bottomY);
    assert PrismVertices(center, outline, k, topY, bottomY) == prefix + last;
    if i == k - 1 {
      assert (prefix + last)[12 * i .. 12 * i + 12] == last;
    } else {
      PrismVerticesSide(center, outline, k - 1, i, topY, bottomY);
      assert (prefix + last)[12 * i .. 12 * i + 12] == prefix[12 * i .. 12 * i + 12];
    }
  }

  /** One more side continues the prism's vertex list. */
  lemma PrismVerticesAppend(before: seq<Vec3>, center: Vec3, outline: seq<Vec3>, i: nat, topY: real, bottomY: real)
    requires i < |outline|
    ensures before + PrismVertices(center, outline, i + 1, topY, bottomY)
            == before + PrismVertices(center, outline, i, topY, bottomY)
               + SideVertices(center, outline[i], outline[(i + 1) % |outline|], topY, bottomY)
  {
  }

  /** One pass of the face loop: the four triangles of the side between p and q. */
  method AddSide(fm: FloatMath, mesh: MeshData, center: Vec3, p: Vec3, q: Vec3, topY: real, bottomY: real)
    requires mesh.Valid()
    modifies mesh
    ensures mesh.Valid()
    ensures mesh.vertices == old(mesh.vertices) + SideVertices(center, p, q, topY, bottomY)
    ensures mesh.TriangleCount() == old(mesh.TriangleCount()) + 4
  {
    // top face
    mesh.AddTriangle(fm, Vec3(center.x, topY, center.z), Vec3(p.x, topY, p.z), Vec3(q.x, topY, q.z));
    // bottom face
    mesh.AddTriangle(fm, Vec3(center.x, bottomY, center.z), Vec3(q.x, bottomY, q.z), Vec3(p.x, bottomY, p.z));
    // side faces
    mesh.AddTriangle(fm, Vec3(p.x, bottomY, p.z), Vec3(q.x, bottomY, q.z), Vec3(p.x, topY, p.z));
    mesh.AddTriangle(fm, Vec3(q.x, bottomY, q.z), Vec3(q.x, topY, q.z), Vec3(p.x, topY, p.z));
  }

  /**
    Extrudes `outline` around `center`: exactly four triangles per side are
    appended (one top, one bottom, two wall), the caps at center.y ± height/2,
    side i between outline[i] and its successor, and nothing already in the
    mesh changes.
   */
  method ExtrudePolygon(fm: FloatMath, mesh: MeshData, center: Vec3, outline: seq<Vec3>, height: real)
    requires mesh.Valid()
    modifies mesh
    ensures mesh.Valid()
    ensures mesh.TriangleCount() == old(mesh.TriangleCount()) + 4 * |outline|
    ensures old(mesh.vertices) <= mesh.vertices
    ensures ExtrudedSides(mesh.vertices, old(mesh.TriangleCount()), |outline|, center.y + height / 2.0, center.y - height / 2.0)
    ensures mesh.vertices
            == old(mesh.vertices) + PrismVertices(center, outline, |outline|, center.y + height / 2.0, center.y - height / 2.0)
  {
    var topY := center.y + height / 2.0;
    var bottomY := center.y - height / 2.0;
    var sides := |outline|;
    ghost var first := mesh.TriangleCount();
    var i := 0;
    while i < sides
      invariant 0 <= i <= sides
      invariant mesh.Valid()
      invariant mesh.TriangleCount() == first + 4 * i
      invariant old(mesh.vertices) <= mesh.vertices
      invariant ExtrudedSides(mesh.vertices, first, i, topY, bottomY)
      invariant mesh.vertices == old(mesh.vertices) + PrismVertices(center, outline, i, topY, bottomY)
    {
      var next := (i + 1) % sides;
      var p, q := outline[i], outline[next];
      SideAppended(mesh.vertices, first, i, center, p, q, topY, bottomY);
      PrismVerticesAppend(old(mesh.vertices), center, outline, i, topY, bottomY);
      AddSide(fm, mesh, center, p, q, topY, bottomY);
      i := i + 1;
    }
  }
}
