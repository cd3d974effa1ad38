/**
 * The disc of src/cercle_EBO.cpp, drawn as a fan of triangles through an
 * element buffer: a vertex array holding the centre followed by the rim
 * points, and an index array of three indices per triangle.
 *
 * `cos` and `sin` are uninterpreted, so the positions of the rim points are
 * stated in terms of them. Every index is a vertex number.
 */
module CircleFan {
  import opened Vectors

  /** `R`: the radius of the disc, in clip-space units. */
  const Radius: real := 0.5
  /** `nb_triangles`. */
  const TriangleCount: nat := 25

  /** `dalpha`: the angle between consecutive rim points. */
  function AngleStep(n: nat): real
    requires n > 0
  {
    2.0 * Pi / n as real
  }

  /** The angle of rim vertex `i + 1`: `alpha = i * dalpha`. */
  function RimAngle(n: nat, i: int): real
    requires n > 0
  {
    i as real * AngleStep(n)
  }

  /**
   * Float `j` of the vertex array: the centre (vertex 0) at the origin, then
   * rim vertex `i + 1` at angle `i * dalpha` on the circle of radius `r`, in
   * the plane z = 0.
   */
  function VertexFloat(n: nat, r: real, j: nat): real
    requires n > 0
  {
    if j < 3 then 0.0
    else
      var i, k := j / 3 - 1, j % 3;
      var alpha := RimAngle(n, i);
      if k == 0 then r * Cos(alpha)
      else if k == 1 then r * Sin(alpha)
      else 0.0
  }

  /** The whole vertex array of a fan of `n` triangles. */
  function FanVertexFloats(n: nat, r: real): seq<real>
    requires n > 0
  {
    seq((1 + n) * 3, j requires 0 <= j => VertexFloat(n, r, j))
  }

  /**
   * The vertex array holds `(1 + n) * 3` floats; vertex 0 is the origin;
   * rim vertex `i + 1` sits at offset `(i + 1) * 3`, at angle `i * dalpha`,
   * with z = 0.
   */
  lemma FanVertexLayout(n: nat, r: real)
    requires n > 0
    ensures |FanVertexFloats(n, r)| == (1 + n) * 3
    ensures FanVertexFloats(n, r)[..3] == [0.0, 0.0, 0.0]
    ensures forall i :: 0 <= i < n ==>
      var base := (i + 1) * 3;
      base + 2 < |FanVertexFloats(n, r)| &&
      FanVertexFloats(n, r)[base] == r * Cos(RimAngle(n, i)) &&
      FanVertexFloats(n, r)[base + 1] == r * Sin(RimAngle(n, i)) &&
      FanVertexFloats(n, r)[base + 2] == 0.0
  {
    var vs := FanVertexFloats(n, r);
    assert vs[..3] == [0.0, 0.0, 0.0] by {
      assert vs[0] == 0.0 && vs[1] == 0.0 && vs[2] == 0.0;
    }
    forall i | 0 <= i < n
      ensures var base := (i + 1) * 3;
        base + 2 < |vs| &&
        vs[base] == r * Cos(RimAngle(n, i)) &&
        vs[base + 1] == r * Sin(RimAngle(n, i)) &&
        vs[base + 2] == 0.0
    {
      var base := (i + 1) * 3;
      assert base / 3 - 1 == i && base % 3 == 0;
      assert (base + 1) / 3 - 1 == i && (base + 1) % 3 == 1;
      assert (base + 2) / 3 - 1 == i && (base + 2) % 3 == 2;
    }
  }

  /**
   * The first loop of `main`: the centre, then one rim point per triangle.
   * The array is new and holds exactly the fan's vertex floats.
   */
  method FillVertices(n: nat, r: real) returns (vertices: array<real>)
    requires n > 0
    ensures fresh(vertices)
    ensures vertices[..] == FanVertexFloats(n, r)
  {
    var size := (1 + n) * 3;
    vertices := new real[size];
    vertices[0] := 0.0;
    vertices[1] := 0.0;
    vertices[2] := 0.0;
    var dalpha := 2.0 * Pi / n as real;
    for i := 0 to n
      invariant forall j :: 0 <= j < (i + 1) * 3 ==> vertices[j] == VertexFloat(n, r, j)
    {
      var alpha := i as real * dalpha;
      assert alpha == RimAngle(n, i);
      var base := (i + 1) * 3;
      vertices[base] := r * Cos(alpha);
      vertices[base + 1] := r * Sin(alpha);
      vertices[base + 2] := 0.0;
      assert base / 3 - 1 == i && base % 3 == 0;
      assert (base + 1) / 3 - 1 == i && (base + 1) % 3 == 1;
      assert (base + 2) / 3 - 1 == i && (base + 2) % 3 == 2;
    }
  }

  /**
   * Index `j` of the element array: triangle `t = j / 3` is the centre,
   * rim vertex `t + 1`, and the next rim vertex, wrapping after the last.
   */
  function IndexAt(n: nat, j: nat): nat
    requires n > 0
  {
    var t, k := j / 3, j % 3;
    if k == 0 then 0
    else if k == 1 then t + 1
    else (t + 1) % n + 1
  }

  /** The whole element array of a fan of `n` triangles. */
  function FanIndices(n: nat): seq<nat>
    requires n > 0
  {
    seq(n * 3, j requires 0 <= j => IndexAt(n, j))
  }

  /**
   * The second loop of `main`: three indices per triangle. The array is new
   * and holds exactly the fan's indices.
   */
  method FillIndices(n: nat) returns (indices: array<nat>)
    requires n > 0
    ensures fresh(indices)
    ensures indices[..] == FanIndices(n)
  {
    indices := new nat[n * 3];
    for i := 0 to n
      invariant forall j :: 0 <= j < i * 3 ==> indices[j] == IndexAt(n, j)
    {
      var base := i * 3;
      indices[base] := 0;
      indices[base + 1] := i + 1;
      indices[base + 2] := (i + 1) % n + 1;
      assert base / 3 == i && base % 3 == 0;
      assert (base + 1) / 3 == i && (base + 1) % 3 == 1;
      assert (base + 2) / 3 == i && (base + 2) % 3 == 2;
    }
  }

  /** The three indices of triangle `t`. */
  lemma TriangleIndices(n: nat, t: nat)
    requires 0 < n && t < n
    ensures 3 * t + 2 < |FanIndices(n)|
    ensures FanIndices(n)[3 * t] == 0
    ensures FanIndices(n)[3 * t + 1] == t + 1
    ensures FanIndices(n)[3 * t + 2] == (t + 1) % n + 1
  {
    assert (3 * t) / 3 == t && (3 * t + 1) / 3 == t && (3 * t + 2) / 3 == t;
  }

  /**
   * Every index names a vertex of the vertex array: it lies in `[0, n]`, and
   * its three floats are inside the `(1 + n) * 3` of the array.
   */
  lemma IndicesInBounds(n: nat)
    requires n > 0
    ensures |FanIndices(n)| == 3 * n
    ensures forall j :: 0 <= j < |FanIndices(n)| ==> FanIndices(n)[j] <= n
    ensures forall j :: 0 <= j < |FanIndices(n)| ==> FanIndices(n)[j] * 3 + 2 < |FanVertexFloats(n, 0.0)|
  {
    forall j | 0 <= j < 3 * n
      ensures IndexAt(n, j) <= n
    {
      assert j / 3 < n;
    }
  }

  /** The last triangle closes the disc: its third vertex is the first rim vertex. */
  lemma LastTriangleWraps(n: nat)
    requires n > 0
    ensures FanIndices(n)[3 * (n - 1) + 2] == 1
  {
    TriangleIndices(n, n - 1);
    ModSelf(n);
  }

  lemma ModSelf(n: nat)
    requires n > 0
    ensures n % n == 0
  {
  }

  /**
   * Neighbouring triangles share an edge: the third vertex of triangle `t`
   * is the second vertex of triangle `t + 1`.
   */
  lemma ConsecutiveTrianglesShareAnEdge(n: nat, t: nat)
    requires 0 < n && t + 1 < n
    ensures FanIndices(n)[3 * t + 2] == FanIndices(n)[3 * (t + 1) + 1]
  {
    TriangleIndices(n, t);
    TriangleIndices(n, t + 1);
    ModBelow(t + 1, n);
  }

  lemma ModBelow(a: nat, n: nat)
    requires a < n
    ensures a % n == a
  {
  }

  /**
   * The fan covers the whole rim once: every rim vertex `v` is the second
   * vertex of triangle `v - 1` and the third vertex of the triangle before
   * it (the last one for `v = 1`).
   */
  lemma EveryRimVertexUsed(n: nat, v: nat)
    requires 1 <= v <= n
    ensures FanIndices(n)[3 * (v - 1) + 1] == v
    ensures var t := if v == 1 then n - 1 else v - 2; FanIndices(n)[3 * t + 2] == v
  {
    TriangleIndices(n, v - 1);
    if v == 1 {
      LastTriangleWraps(n);
    } else {
      ConsecutiveTrianglesShareAnEdge(n, v - 2);
    }
  }

  /** `main`'s geometry: 25 triangles on a circle of radius 0.5. */
  method BuildDisc() returns (vertices: array<real>, indices: array<nat>)
    ensures vertices.Length == (1 + TriangleCount) * 3 == 78
    ensures indices.Length == TriangleCount * 3 == 75
    ensures vertices[..] == FanVertexFloats(TriangleCount, Radius)
    ensures indices[..] == FanIndices(TriangleCount)
  {
    vertices := FillVertices(TriangleCount, Radius);
    indices := FillIndices(TriangleCount);
  }
}
