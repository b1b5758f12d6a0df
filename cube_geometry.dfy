// The cube: three literal tables of positions, uvs and indices computed
// from the half sizes, handed to the buffer geometry without normals.
module CubeGeometries {
  import opened Js
  import opened Math3D
  import opened Gpu
  import opened Geometry
  import opened Grids

  /** `cubeSize.clone().scale(0.5)`: the half extents. */
  function Half(size: Vec3): (h: Vec3)
    ensures h.x + h.x == size.x && h.y + h.y == size.y && h.z + h.z == size.z
  {
    Scale(size, 0.5)
  }

  /**
   * The four corners of face `k`, faces in the order top (+y), bottom
   * (-y), front (+z), back (-z), left (-x), right (+x).
   */
  function Face(h: Vec3, k: nat): (f: seq<Vec3>)
    requires k < 6
    ensures |f| == 4
  {
    var hx, hy, hz := h.x, h.y, h.z;
    if k == 0 then [Vec3(-hx, hy, -hz), Vec3(hx, hy, -hz), Vec3(hx, hy, hz), Vec3(-hx, hy, hz)]
    else if k == 1 then [Vec3(-hx, -hy, hz), Vec3(hx, -hy, hz), Vec3(hx, -hy, -hz), Vec3(-hx, -hy, -hz)]
    else if k == 2 then [Vec3(-hx, hy, hz), Vec3(hx, hy, hz), Vec3(hx, -hy, hz), Vec3(-hx, -hy, hz)]
    else if k == 3 then [Vec3(hx, hy, -hz), Vec3(-hx, hy, -hz), Vec3(-hx, -hy, -hz), Vec3(hx, -hy, -hz)]
    else if k == 4 then [Vec3(-hx, hy, -hz), Vec3(-hx, hy, hz), Vec3(-hx, -hy, hz), Vec3(-hx, -hy, -hz)]
    else [Vec3(hx, hy, hz), Vec3(hx, hy, -hz), Vec3(hx, -hy, -hz), Vec3(hx, -hy, hz)]
  }

  /** The uvs of face `k`'s corners: a cross-shaped unwrap in quarter columns and third rows. */
  function UvFace(k: nat): (f: seq<Uv>)
    requires k < 6
    ensures |f| == 4
  {
    var t03, t13, t23, t33 := 0.0, 1.0 / 3.0, 2.0 / 3.0, 3.0 / 3.0;
    var t04, t14, t24, t34, t44 := 0.0, 1.0 / 4.0, 2.0 / 4.0, 3.0 / 4.0, 4.0 / 4.0;
    if k == 0 then [Uv(t14, t03), Uv(t24, t03), Uv(t24, t13), Uv(t14, t13)]
    else if k == 1 then [Uv(t14, t23), Uv(t24, t23), Uv(t24, t33), Uv(t14, t33)]
    else if k == 2 then [Uv(t14, t13), Uv(t24, t13), Uv(t24, t23), Uv(t14, t23)]
    else if k == 3 then [Uv(t34, t13), Uv(t44, t13), Uv(t44, t23), Uv(t34, t23)]
    else if k == 4 then [Uv(t04, t13), Uv(t14, t13), Uv(t14, t23), Uv(t04, t23)]
    else [Uv(t24, t13), Uv(t34, t13), Uv(t34, t23), Uv(t24, t23)]
  }

  /** The indices of face `k`: two triangles. */
  function IndexFace(k: nat): (f: seq<nat>)
    requires k < 6
    ensures |f| == 6
  {
    if k == 0 then [0, 2, 1, 0, 3, 2]
    else if k == 1 then [4, 6, 5, 4, 7, 6]
    else if k == 2 then [8, 10, 9, 8, 11, 10]
    else if k == 3 then [12, 14, 13, 12, 15, 14]
    else if k == 4 then [16, 18, 17, 16, 19, 18]
    else [20, 22, 21, 20, 23, 22]
  }

  /** The six faces' corners, in face order. */
  function CubeFaces(h: Vec3): (f: seq<seq<Vec3>>)
    ensures |f| == 6 && forall l | l in f :: |l| == 4
  {
    seq(6, k requires 0 <= k < 6 => Face(h, k))
  }

  function CubeUvFaces(): (f: seq<seq<Uv>>)
    ensures |f| == 6 && forall l | l in f :: |l| == 4
  {
    seq(6, k requires 0 <= k < 6 => UvFace(k))
  }

  function CubeIndexFaces(): (f: seq<seq<nat>>)
    ensures |f| == 6 && forall l | l in f :: |l| == 6
  {
    seq(6, k requires 0 <= k < 6 => IndexFace(k))
  }

  /** The corners face after face: vertex `4k + j` is corner `j` of face `k`. */
  function CubeVertices(h: Vec3): (vs: seq<Vec3>)
    ensures |vs| == 24
  {
    FlattenLength(CubeFaces(h), 4);
    Flatten(CubeFaces(h))
  }

  /** The uvs face after face, in the order of the corners. */
  function CubeUvs(): (uvs: seq<Uv>)
    ensures |uvs| == 24
  {
    FlattenLength(CubeUvFaces(), 4);
    Flatten(CubeUvFaces())
  }

  /** The 36 indices face after face; each names one of the 24 vertices. */
  function CubeIndices(): (ix: seq<nat>)
    ensures |ix| == 36
    ensures InRange(ix, 24)
  {
    FlattenLength(CubeIndexFaces(), 6);
    FlattenWithin(CubeIndexFaces(), 0, 24);
    var ix := Flatten(CubeIndexFaces());
    assert forall i :: 0 <= i < |ix| ==> ix[i] in ix;
    ix
  }

  // ---------------------------------------------------------------------
  // The faces.

  /** The outward direction of face `k`. */
  function FaceNormal(k: nat): Vec3
    requires k < 6
  {
    [Up, Down, Vec3(0.0, 0.0, 1.0), Vec3(0.0, 0.0, -1.0), Vec3(-1.0, 0.0, 0.0), Vec3(1.0, 0.0, 0.0)][k]
  }

  /** How far face `k` lies from the centre: the half extent on its axis. */
  function Depth(h: Vec3, k: nat): real
    requires k < 6
  {
    if k < 2 then h.y else if k < 4 then h.z else h.x
  }

  /** Four times the product of the two half extents that span face `k`. */
  function Span(h: Vec3, k: nat): real
    requires k < 6
  {
    if k < 2 then 4.0 * h.x * h.z else if k < 4 then 4.0 * h.x * h.y else 4.0 * h.y * h.z
  }

  /** The column and row of face `k`'s cell in the unwrap. */
  function Cell(k: nat): (nat, nat)
    requires k < 6
  {
    [(1, 0), (1, 2), (1, 1), (3, 1), (0, 1), (2, 1)][k]
  }

  /** The cells of different faces differ, so no two faces share texture. */
  lemma CellsDistinct(j: nat, k: nat)
    requires j < 6 && k < 6 && j != k
    ensures Cell(j) != Cell(k)
  {
  }

  /**
   * Every corner of face `k` is on the face's plane, at the half extent
   * along its outward direction, and every coordinate of it is plus or
   * minus the half extent on that axis.
   */
  lemma CornersOnPlane(h: Vec3, k: nat, j: nat)
    requires k < 6 && j < 4
    ensures var v := Face(h, k)[j];
      && Dot(v, FaceNormal(k)) == Depth(h, k)
      && (v.x == h.x || v.x == -h.x) && (v.y == h.y || v.y == -h.y) && (v.z == h.z || v.z == -h.z)
  {
    if k == 0 {
    } else if k == 1 {
    } else if k == 2 {
    } else if k == 3 {
    } else if k == 4 {
    } else {
    }
  }

  /** Vertex `4k + j` of the position array is corner `j` of face `k`, on that face's plane. */
  lemma VerticesOnFaces(h: Vec3, k: nat, j: nat)
    requires k < 6 && j < 4
    ensures var v := CubeVertices(h)[4 * k + j];
      && v == Face(h, k)[j]
      && Dot(v, FaceNormal(k)) == Depth(h, k)
      && (v.x == h.x || v.x == -h.x) && (v.y == h.y || v.y == -h.y) && (v.z == h.z || v.z == -h.z)
  {
    FlattenAt(CubeFaces(h), 4, k, j);
    CornersOnPlane(h, k, j);
  }

  /**
   * Face `k`'s uvs: counter-clockwise from the lower corner of its cell, a
   * quarter wide and a third high.
   */
  lemma UvsOnCells(k: nat)
    requires k < 6
    ensures var (col, row) := Cell(k);
      var u, v := col as real / 4.0, row as real / 3.0;
      UvFace(k) == [Uv(u, v), Uv(u + 0.25, v), Uv(u + 0.25, v + 1.0 / 3.0), Uv(u, v + 1.0 / 3.0)]
  {
  }

  /** Every uv is in the unit square. */
  lemma UvsInUnitSquare(i: nat)
    requires i < 24
    ensures 0.0 <= CubeUvs()[i].u <= 1.0 && 0.0 <= CubeUvs()[i].v <= 1.0
  {
    FlattenAt(CubeUvFaces(), 4, i / 4, i % 4);
    UvsOnCells(i / 4);
  }

  /** The corner of its face that index `j` of a face's index line names. */
  function Corner(j: nat): (c: nat)
    requires j < 6
    ensures c < 4
  {
    [0, 2, 1, 0, 3, 2][j]
  }

  /** Face `k` is drawn as (4k, 4k+2, 4k+1) and (4k, 4k+3, 4k+2), from its own four vertices. */
  lemma IndicesOfFace(k: nat, j: nat)
    requires k < 6 && j < 6
    ensures CubeIndices()[6 * k + j] == 4 * k + Corner(j)
  {
    FlattenAt(CubeIndexFaces(), 6, k, j);
    assert IndexFace(k)[j] == 4 * k + Corner(j) by {
      if k == 0 {
      } else if k == 1 {
      } else if k == 2 {
      } else if k == 3 {
      } else if k == 4 {
      } else {
      }
    }
  }

  /** The point the position array holds for corner `c` of face `k`. */
  lemma PointOfCorner(h: Vec3, k: nat, c: nat, i: nat)
    requires k < 6 && c < 4 && i == 4 * k + c
    ensures Point(Floats3(CubeVertices(h)), i) == Face(h, k)[c]
  {
    FlattenAt(CubeFaces(h), 4, k, c);
    Floats3At(CubeVertices(h), i);
  }

  /** The point index `j` of face `k`'s index line reads from the position array. */
  lemma TrianglePoint(h: Vec3, k: nat, j: nat, i: nat, c: nat)
    requires k < 6 && j < 6 && i == 6 * k + j && c == Corner(j)
    ensures Point(Floats3(CubeVertices(h)), CubeIndices()[i]) == Face(h, k)[c]
  {
    IndicesOfFace(k, j);
    PointOfCorner(h, k, c, CubeIndices()[i]);
  }

  /** The first triangle of face `k`, corners 0, 2 and 1, turns toward the face's outward direction. */
  lemma FirstTriangleWinding(h: Vec3, k: nat)
    requires k < 6
    ensures var f := Face(h, k);
      Cross(Sub(f[2], f[0]), Sub(f[1], f[0])) == Scale(FaceNormal(k), Span(h, k))
  {
  }

  /** The second triangle of face `k`, corners 0, 3 and 2, turns the same way. */
  lemma SecondTriangleWinding(h: Vec3, k: nat)
    requires k < 6
    ensures var f := Face(h, k);
      Cross(Sub(f[3], f[0]), Sub(f[2], f[0])) == Scale(FaceNormal(k), Span(h, k))
  {
  }

  /** The index array names only vertices of the position array, and holds two triangles per face. */
  lemma TrianglesReadable(h: Vec3)
    ensures |Floats3(CubeVertices(h))| % 3 == 0 && InRange(CubeIndices(), |Floats3(CubeVertices(h))| / 3)
    ensures |CubeIndices()| == 36
  {
  }

  /** The corner contributions of triangle `t` of the cube. */
  function CubeCorners(h: Vec3, area: (Vec3, Vec3, Vec3) -> real, t: nat): (c: seq<Weighted>)
    requires t < 12
    ensures |c| == 3
  {
    TrianglesReadable(h);
    Corners(Floats3(CubeVertices(h)), CubeIndices(), area, t)
  }

  /** The first triangle of face `k`, triangle `t` = 2k, faces out, with equal weights at its corners. */
  lemma FirstTriangleFacesOut(h: Vec3, area: (Vec3, Vec3, Vec3) -> real, k: nat, t: nat)
    requires k < 6 && t == 2 * k
    ensures var c := CubeCorners(h, area, t);
      && c[0].normal == Scale(FaceNormal(k), Span(h, k))
      && c[1].normal == c[0].normal && c[2].normal == c[0].normal
      && c[0].weight == c[1].weight == c[2].weight
  {
    var f := Face(h, k);
    TrianglesReadable(h);
    TrianglePoint(h, k, 0, 3 * t, 0);
    TrianglePoint(h, k, 1, 3 * t + 1, 2);
    TrianglePoint(h, k, 2, 3 * t + 2, 1);
    FirstTriangleWinding(h, k);
    CornersShareNormal(Floats3(CubeVertices(h)), CubeIndices(), area, t, f[0], f[2], f[1]);
  }

  /** The second triangle of face `k`, triangle `t` = 2k + 1, faces out, with equal weights at its corners. */
  lemma SecondTriangleFacesOut(h: Vec3, area: (Vec3, Vec3, Vec3) -> real, k: nat, t: nat)
    requires k < 6 && t == 2 * k + 1
    ensures var c := CubeCorners(h, area, t);
      && c[0].normal == Scale(FaceNormal(k), Span(h, k))
      && c[1].normal == c[0].normal && c[2].normal == c[0].normal
      && c[0].weight == c[1].weight == c[2].weight
  {
    var f := Face(h, k);
    TrianglesReadable(h);
    TrianglePoint(h, k, 3, 3 * t, 0);
    TrianglePoint(h, k, 4, 3 * t + 1, 3);
    TrianglePoint(h, k, 5, 3 * t + 2, 2);
    SecondTriangleWinding(h, k);
    CornersShareNormal(Floats3(CubeVertices(h)), CubeIndices(), area, t, f[0], f[3], f[2]);
  }

  /**
   * The winding faces outward: the three cross products
   * `computeVertexNormals` would form at the corners of triangle `t` are
   * all the outward direction of the triangle's face, scaled by four times
   * the product of the two half extents spanning it, and they carry the
   * same weight.
   */
  lemma TrianglesFaceOut(h: Vec3, area: (Vec3, Vec3, Vec3) -> real, t: nat)
    requires t < 12
    ensures var c := CubeCorners(h, area, t);
      && c[0].normal == Scale(FaceNormal(t / 2), Span(h, t / 2))
      && c[1].normal == c[0].normal && c[2].normal == c[0].normal
      && c[0].weight == c[1].weight == c[2].weight
  {
    if t % 2 == 0 {
      FirstTriangleFacesOut(h, area, t / 2, t);
    } else {
      SecondTriangleFacesOut(h, area, t / 2, t);
    }
  }

  /** With a positive size, each face lies outside the centre and its cross products point away from it. */
  lemma OutwardWithPositiveSize(size: Vec3, k: nat)
    requires size.x > 0.0 && size.y > 0.0 && size.z > 0.0 && k < 6
    ensures Depth(Half(size), k) > 0.0 && Span(Half(size), k) > 0.0
  {
  }

  // ---------------------------------------------------------------------
  // The constructor.

  /** The props `super` receives: positions, uvs and a Uint16Array of indices, but no normals. */
  function CubeProps(size: Vec3): (p: GeometryProps)
    ensures p.normal.None? && p.color.None?
    ensures p.position == Some(Typed(Float32, Floats3(CubeVertices(Half(size)))))
    ensures p.uv == Some(Typed(Float32, Floats2(CubeUvs())))
    ensures p.index == Some(Typed(Uint16, Uint16Values(CubeIndices())))
  {
    GeometryProps(
      position := Some(Typed(Float32, Floats3(CubeVertices(Half(size))))),
      uv := Some(Typed(Float32, Floats2(CubeUvs()))),
      color := None,
      index := Some(Typed(Uint16, Uint16Values(CubeIndices()))),
      normal := None)
  }

  /** No cube index wraps in the Uint16Array. */
  lemma IndicesFitUint16()
    ensures forall i :: 0 <= i < 36 ==> Uint16Values(CubeIndices())[i] == CubeIndices()[i] as real
  {
    NoWrapBelow(CubeIndices(), 24);
  }

  /**
   * `new CubeGeometry(cubeSize)`, with (1, 1, 1) when no size is given.
   * The props carry no normals, so the base constructor computes them from
   * the vertex data the buffers hold; they hold none, so it throws a
   * TypeError and `cubeSize` is never stored.
   */
  method NewCubeGeometry(cubeSize: Option<Vec3>, area: (Vec3, Vec3, Vec3) -> real)
    returns (r: Result<BufferGeometry>, props: GeometryProps)
    ensures props == CubeProps(cubeSize.OrElse(One))
    ensures r == Err(TypeError)
  {
    props := CubeProps(cubeSize.OrElse(One));
    r := NewBufferGeometry(props, area);
  }
}
