/**
  The triangle accumulator every generator grows (`MeshData` and its
  `addTriangle`). Vertices are flat and unshared: each triangle appends three
  fresh vertices, three copies of its face normal and three sequential indices.
 */
module Mesh {
  import opened Geometry

  /**
    The flat normal of the triangle (a, b, c): the normalized cross product of its
    edges a→b and a→c. It is orthogonal to both edges, whatever the library square
    root returns (a degenerate triangle gets the zero vector).
   */
  function FaceNormal(fm: FloatMath, a: Vec3, b: Vec3, c: Vec3): (n: Vec3)
    ensures Dot(n, Sub(b, a)) == 0.0 && Dot(n, Sub(c, a)) == 0.0
  {
    Normalize(fm, Cross(Sub(b, a), Sub(c, a)))
  }

  /** Triangle `t` (vertices 3t, 3t+1, 3t+2) shares one normal, orthogonal to its two edges from vertex 3t. */
  ghost predicate FaceConsistent(vertices: seq<Vec3>, normals: seq<Vec3>, t: int)
    requires |normals| == |vertices|
  {
    0 <= t && 3 * t + 2 < |vertices| ==>
      var n := normals[3 * t];
      && normals[3 * t + 1] == n && normals[3 * t + 2] == n
      && Dot(n, Sub(vertices[3 * t + 1], vertices[3 * t])) == 0.0
      && Dot(n, Sub(vertices[3 * t + 2], vertices[3 * t])) == 0.0
  }

  /** Every face of the vertex list is consistent with its normals. */
  ghost predicate AllFacesConsistent(vertices: seq<Vec3>, normals: seq<Vec3>)
    requires |normals| == |vertices|
  {
    forall t :: 0 <= t < |vertices| / 3 ==> FaceConsistent(vertices, normals, t)
  }

  /** Appending to both sequences keeps the faces already there consistent. */
  lemma FaceConsistentKept(vertices: seq<Vec3>, normals: seq<Vec3>, vertices': seq<Vec3>, normals': seq<Vec3>, t: int)
    requires |normals| == |vertices| && |normals'| == |vertices'|
    requires vertices <= vertices' && normals <= normals'
    requires 0 <= t && 3 * t + 2 < |vertices|
    requires FaceConsistent(vertices, normals, t)
    ensures FaceConsistent(vertices', normals', t)
  {
  }

  /** Appending one triangle with a normal orthogonal to its two edges from a keeps every face consistent. */
  lemma FaceAppended(vertices: seq<Vec3>, normals: seq<Vec3>, a: Vec3, b: Vec3, c: Vec3, n: Vec3)
    requires |normals| == |vertices| && |vertices| % 3 == 0
    requires AllFacesConsistent(vertices, normals)
    requires Dot(n, Sub(b, a)) == 0.0 && Dot(n, Sub(c, a)) == 0.0
    ensures AllFacesConsistent(vertices + [a, b, c], normals + [n, n, n])
  {
    var vs, ns := vertices + [a, b, c], normals + [n, n, n];
    var k := |vertices| / 3;
    assert |vertices| == 3 * k;
    assert |vs| / 3 == k + 1;
    forall t | 0 <= t < |vs| / 3
      ensures FaceConsistent(vs, ns, t)
    {
      if t < k {
        FaceConsistentKept(vertices, normals, vs, ns, t);
      } else {
        assert vs[3 * t] == a && vs[3 * t + 1] == b && vs[3 * t + 2] == c;
      }
    }
  }

  /** Index k names vertex k. */
  predicate SequentialIndices(indices: seq<int>) {
    forall k :: 0 <= k < |indices| ==> indices[k] == k
  }

  lemma IndicesAppended(indices: seq<int>)
    requires SequentialIndices(indices)
    ensures var k := |indices|; SequentialIndices(indices + [k, k + 1, k + 2])
  {
  }

  /** One more triangle is three more vertices. */
  lemma ThirdStep(n: int)
    requires n >= 0 && n % 3 == 0
    ensures (n + 3) % 3 == 0 && (n + 3) / 3 == n / 3 + 1
  {
  }

  class MeshData {
    var vertices: seq<Vec3>
    var normals: seq<Vec3>
    var indices: seq<int>

    /**
      The mesh invariant: normals parallel to vertices, one index per vertex and
      index k naming vertex k (so the index count is a multiple of 3 and every
      index is in range), and every face carrying its own consistent normal.
     */
    ghost predicate Valid()
      reads this
    {
      && |normals| == |vertices|
      && |indices| == |vertices|
      && |vertices| % 3 == 0
      && SequentialIndices(indices)
      && AllFacesConsistent(vertices, normals)
    }

    /** The number of triangles; in a valid mesh, a third of the vertex count. */
    function TriangleCount(): (c: nat)
      reads this
      ensures Valid() ==> |vertices| == 3 * c
    {
      |indices| / 3
    }

    /** `MeshData()`: the empty mesh. */
    constructor ()
      ensures Valid()
      ensures vertices == [] && normals == [] && indices == []
    {
      vertices, normals, indices := [], [], [];
    }

    /** `addTriangle(a, b, c)`: appends one flat-shaded triangle and nothing else. */
    method AddTriangle(fm: FloatMath, a: Vec3, b: Vec3, c: Vec3)
      requires Valid()
      modifies this
      ensures Valid()
      ensures vertices == old(vertices) + [a, b, c]
      ensures var n := FaceNormal(fm, a, b, c); normals == old(normals) + [n, n, n]
      ensures var k := |old(vertices)|; indices == old(indices) + [k, k + 1, k + 2]
      ensures TriangleCount() == old(TriangleCount()) + 1
    {
      var n := FaceNormal(fm, a, b, c);
      var k := |vertices|;
      FaceAppended(vertices, normals, a, b, c, n);
      IndicesAppended(indices);
      ThirdStep(k);
      vertices := vertices + [a, b, c];
      normals := normals + [n, n, n];
      indices := indices + [k, k + 1, k + 2];
    }
  }
}
