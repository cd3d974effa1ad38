/**
 * The vertex arrays of include/cube.hpp: the 36 vertices of the unit cube
 * that `render` draws, and the two interleaved float layouts
 * (`initVerticesNoTexture`, `initVerticesWithTexture`) that `setupBuffer`
 * uploads and describes to OpenGL.
 */
module CubeGeometry {
  import opened Vectors

  /** The count passed to `glDrawArrays` in `render`. */
  const DrawnVertices: nat := 36

  /** One vertex of the cube: position, outward normal, texture coordinates. */
  datatype CubeVertex = CubeVertex(position: Vec3, normal: Vec3, u: real, v: real)

  function V(px: real, py: real, pz: real, nx: real, ny: real, nz: real, u: real, v: real): CubeVertex {
    CubeVertex(Vec3(px, py, pz), Vec3(nx, ny, nz), u, v)
  }

  /**
   * The 36 vertices of the unit cube centred on the origin, two triangles
   * per face, faces in the order -z, +z, -x, +x, -y, +y. Both vertex arrays
   * are this table: `initVerticesNoTexture` keeps position and normal,
   * `initVerticesWithTexture` adds the texture coordinates.
   */
  const CubeTable: seq<CubeVertex> := FaceBack + FaceFront + FaceLeft + FaceRight + FaceBottom + FaceTop

  /** The face at -z. */
  const FaceBack: seq<CubeVertex> := [
    V(-0.5, -0.5, -0.5, 0.0, 0.0, -1.0, 0.0, 0.0), V(0.5, -0.5, -0.5, 0.0, 0.0, -1.0, 1.0, 0.0),
    V(0.5, 0.5, -0.5, 0.0, 0.0, -1.0, 1.0, 1.0), V(0.5, 0.5, -0.5, 0.0, 0.0, -1.0, 1.0, 1.0),
    V(-0.5, 0.5, -0.5, 0.0, 0.0, -1.0, 0.0, 1.0), V(-0.5, -0.5, -0.5, 0.0, 0.0, -1.0, 0.0, 0.0)
  ]

  /** The face at +z. */
  const FaceFront: seq<CubeVertex> := [
    V(-0.5, -0.5, 0.5, 0.0, 0.0, 1.0, 0.0, 0.0), V(0.5, -0.5, 0.5, 0.0, 0.0, 1.0, 1.0, 0.0),
    V(0.5, 0.5, 0.5, 0.0, 0.0, 1.0, 1.0, 1.0), V(0.5, 0.5, 0.5, 0.0, 0.0, 1.0, 1.0, 1.0),
    V(-0.5, 0.5, 0.5, 0.0, 0.0, 1.0, 0.0, 1.0), V(-0.5, -0.5, 0.5, 0.0, 0.0, 1.0, 0.0, 0.0)
  ]

  /** The face at -x. */
  const FaceLeft: seq<CubeVertex> := [
    V(-0.5, 0.5, 0.5, -1.0, 0.0, 0.0, 1.0, 0.0), V(-0.5, 0.5, -0.5, -1.0, 0.0, 0.0, 1.0, 1.0),
    V(-0.5, -0.5, -0.5, -1.0, 0.0, 0.0, 0.0, 1.0), V(-0.5, -0.5, -0.5, -1.0, 0.0, 0.0, 0.0, 1.0),
    V(-0.5, -0.5, 0.5, -1.0, 0.0, 0.0, 0.0, 0.0), V(-0.5, 0.5, 0.5, -1.0, 0.0, 0.0, 1.0, 0.0)
  ]

  /** The face at +x. */
  const FaceRight: seq<CubeVertex> := [
    V(0.5, 0.5, 0.5, 1.0, 0.0, 0.0, 1.0, 0.0), V(0.5, 0.5, -0.5, 1.0, 0.0, 0.0, 1.0, 1.0),
    V(0.5, -0.5, -0.5, 1.0, 0.0, 0.0, 0.0, 1.0), V(0.5, -0.5, -0.5, 1.0, 0.0, 0.0, 0.0, 1.0),
    V(0.5, -0.5, 0.5, 1.0, 0.0, 0.0, 0.0, 0.0), V(0.5, 0.5, 0.5, 1.0, 0.0, 0.0, 1.0, 0.0)
  ]

  /** The face at -y. */
  const FaceBottom: seq<CubeVertex> := [
    V(-0.5, -0.5, -0.5, 0.0, -1.0, 0.0, 0.0, 1.0), V(0.5, -0.5, -0.5, 0.0, -1.0, 0.0, 1.0, 1.0),
    V(0.5, -0.5, 0.5, 0.0, -1.0, 0.0, 1.0, 0.0), V(0.5, -0.5, 0.5, 0.0, -1.0, 0.0, 1.0, 0.0),
    V(-0.5, -0.5, 0.5, 0.0, -1.0, 0.0, 0.0, 0.0), V(-0.5, -0.5, -0.5, 0.0, -1.0, 0.0, 0.0, 1.0)
  ]

  /** The face at +y. */
  const FaceTop: seq<CubeVertex> := [
    V(-0.5, 0.5, -0.5, 0.0, 1.0, 0.0, 0.0, 1.0), V(0.5, 0.5, -0.5, 0.0, 1.0, 0.0, 1.0, 1.0),
    V(0.5, 0.5, 0.5, 0.0, 1.0, 0.0, 1.0, 0.0), V(0.5, 0.5, 0.5, 0.0, 1.0, 0.0, 1.0, 0.0),
    V(-0.5, 0.5, 0.5, 0.0, 1.0, 0.0, 0.0, 0.0), V(-0.5, 0.5, -0.5, 0.0, 1.0, 0.0, 0.0, 1.0)
  ]

  /**
   * Attribute `k` of a vertex as the buffer layout of `setupBuffer` reads it:
   * 0-2 the position (attribute 0), 3-5 the normal (attribute 1), 6-7 the
   * texture coordinates (attribute 2).
   */
  function Component(w: CubeVertex, k: nat): real
    requires k < 8
  {
    match k
    case 0 => w.position.x
    case 1 => w.position.y
    case 2 => w.position.z
    case 3 => w.normal.x
    case 4 => w.normal.y
    case 5 => w.normal.z
    case 6 => w.u
    case _ => w.v
  }

  /** The first `stride` attributes of one vertex. */
  function Attributes(w: CubeVertex, stride: nat): seq<real>
    requires stride <= 8
  {
    seq(stride, k requires 0 <= k < stride => Component(w, k))
  }

  /**
   * The vertices written one after the other, `stride` floats each: the
   * array holds `stride` floats per vertex, and float `stride * i + k` is
   * attribute `k` of vertex `i`, where `glVertexAttribPointer` with that
   * stride looks for it.
   */
  function Interleaved(vs: seq<CubeVertex>, stride: nat): (r: seq<real>)
    requires stride == 6 || stride == 8
    ensures |r| == stride * |vs|
    ensures forall i, k {:trigger Component(vs[i], k)} :: 0 <= i < |vs| && 0 <= k < stride ==>
      r[stride * i + k] == Component(vs[i], k)
  {
    var r := seq(stride * |vs|, n requires 0 <= n < stride * |vs| => Component(vs[n / stride], n % stride));
    assert forall i, k {:trigger Component(vs[i], k)} :: 0 <= i < |vs| && 0 <= k < stride ==>
      r[stride * i + k] == Component(vs[i], k) by {
      forall i, k | 0 <= i < |vs| && 0 <= k < stride
        ensures r[stride * i + k] == Component(vs[i], k)
      {
        SlotOf(stride, i, k, |vs|);
      }
    }
    r
  }

  /** Float `stride * i + k` of the array is in bounds and belongs to vertex `i`, attribute `k`. */
  lemma SlotOf(stride: nat, i: nat, k: nat, count: nat)
    requires stride == 6 || stride == 8
    requires 0 <= k < stride && i < count
    ensures stride * i + k < stride * count
    ensures (stride * i + k) / stride == i && (stride * i + k) % stride == k
  {
    assert stride * i + k < stride * (i + 1) <= stride * count;
    if stride == 6 {
      assert (6 * i + k) / 6 == i;
    } else {
      assert (8 * i + k) / 8 == i;
    }
  }

  /** The float array of `initVerticesNoTexture`: position and normal. */
  function UntexturedFloats(): seq<real> {
    Interleaved(CubeTable, 6)
  }

  /** The float array of `initVerticesWithTexture`: position, normal and texture coordinates. */
  function TexturedFloats(): seq<real> {
    Interleaved(CubeTable, 8)
  }

  /**
   * Both arrays hold exactly the 36 vertices `render` draws: 36 x 6 floats
   * without texture, 36 x 8 with.
   */
  lemma VertexArraySizes()
    ensures |UntexturedFloats()| == DrawnVertices * 6 == 216
    ensures |TexturedFloats()| == DrawnVertices * 8 == 288
  {
    assert |CubeTable| == DrawnVertices;
  }

  /** A vertex lies on the face its normal names: unit axis normal, position on that side. */
  predicate OnItsFace(w: CubeVertex) {
    var p, n := w.position, w.normal;
    (p.x == 0.5 || p.x == -0.5) && (p.y == 0.5 || p.y == -0.5) && (p.z == 0.5 || p.z == -0.5) &&
    n.x * n.x + n.y * n.y + n.z * n.z == 1.0 &&
    (n.x == 0.0 || n.x == 2.0 * p.x) && (n.y == 0.0 || n.y == 2.0 * p.y) && (n.z == 0.0 || n.z == 2.0 * p.z) &&
    0.0 <= w.u <= 1.0 && 0.0 <= w.v <= 1.0
  }

  /**
   * Six vertices that draw one face: each on the face, all with one normal,
   * two triangles sharing the diagonal from the third vertex to the first.
   */
  predicate GoodFace(face: seq<CubeVertex>) {
    |face| == 6 &&
    (forall c :: 0 <= c < 6 ==> OnItsFace(face[c]) && face[c].normal == face[0].normal) &&
    face[0] == face[5] && face[2] == face[3]
  }

  /** The six faces, in table order. */
  const Faces: seq<seq<CubeVertex>> := [FaceBack, FaceFront, FaceLeft, FaceRight, FaceBottom, FaceTop]

  lemma FacesAreGood()
    ensures forall f :: 0 <= f < 6 ==> GoodFace(Faces[f])
  {
    assert GoodFace(FaceBack);
    assert GoodFace(FaceFront);
    assert GoodFace(FaceLeft);
    assert GoodFace(FaceRight);
    assert GoodFace(FaceBottom);
    assert GoodFace(FaceTop);
  }

  /** Vertex `6 f + c` of the table is corner `c` of face `f`. */
  lemma TableEntry(f: nat, c: nat)
    requires f < 6 && c < 6
    ensures |CubeTable| == 36
    ensures CubeTable[6 * f + c] == Faces[f][c]
  {
    var i := 6 * f + c;
    assert |Faces[f]| == 6;
    if f == 0 {
      assert CubeTable[i] == FaceBack[c];
    } else if f == 1 {
      assert CubeTable[i] == FaceFront[c];
    } else if f == 2 {
      assert CubeTable[i] == FaceLeft[c];
    } else if f == 3 {
      assert CubeTable[i] == FaceRight[c];
    } else if f == 4 {
      assert CubeTable[i] == FaceBottom[c];
    } else {
      assert CubeTable[i] == FaceTop[c];
    }
  }

  /**
   * Every vertex is a corner of the unit cube with the outward normal of
   * its face, and the table is six faces of two triangles each.
   */
  lemma CubeTableIsACube()
    ensures |CubeTable| == 6 * 6
    ensures forall i :: 0 <= i < |CubeTable| ==> OnItsFace(CubeTable[i])
    ensures forall i :: 0 <= i < |CubeTable| ==> CubeTable[i].normal == Faces[i / 6][0].normal
    ensures forall f :: 0 <= f < 6 ==> CubeTable[6 * f] == CubeTable[6 * f + 5]
    ensures forall f :: 0 <= f < 6 ==> CubeTable[6 * f + 2] == CubeTable[6 * f + 3]
  {
    FacesAreGood();
    TableEntry(0, 0);
    forall i | 0 <= i < 36
      ensures OnItsFace(CubeTable[i]) && CubeTable[i].normal == Faces[i / 6][0].normal
    {
      var f, c := i / 6, i % 6;
      assert i == 6 * f + c;
      TableEntry(f, c);
      assert GoodFace(Faces[f]);
    }
    forall f | 0 <= f < 6
      ensures CubeTable[6 * f] == CubeTable[6 * f + 5] && CubeTable[6 * f + 2] == CubeTable[6 * f + 3]
    {
      TableEntry(f, 0);
      TableEntry(f, 5);
      TableEntry(f, 2);
      TableEntry(f, 3);
      assert GoodFace(Faces[f]);
    }
  }
}
