// SphereGeometry: a latitude/longitude grid of (heightSegments + 1) rows of
// (widthSegments + 1) vertices, numbered row by row, with two triangles per
// cell except at a closed pole, where the degenerate triangle is left out.
module SphereGeometries {
  import opened Math3D
  import opened Gpu
  import opened Geometry
  import opened Grids
  import opened Js

  /**
   * Math.cos, Math.sin, Math.sqrt and Math.PI. The model takes them as
   * given; the lemmas that need their laws say so with `Lawful`.
   */
  datatype Maths = Maths(cos: real -> real, sin: real -> real, sqrt: real -> real, pi: real)

  /** cos² + sin² = 1. */
  ghost predicate Pythagorean(m: Maths)
  {
    forall a :: m.cos(a) * m.cos(a) + m.sin(a) * m.sin(a) == 1.0
  }

  /**
   * sqrt is the non-negative square root: zero at zero, positive on
   * positive numbers.
   */
  ghost predicate SquareRoot(m: Maths)
  {
    && m.sqrt(0.0) == 0.0
    && forall x :: x >= 0.0 ==> m.sqrt(x) * m.sqrt(x) == x && (x > 0.0 ==> m.sqrt(x) > 0.0)
  }

  ghost predicate Lawful(m: Maths)
  {
    Pythagorean(m) && SquareRoot(m)
  }

  type Positive = n: nat | n > 0 witness 1

  /** The sphere's parameters after the segment counts are clamped and thetaEnd is computed. */
  datatype Sphere = Sphere(
    radius: real, w: Positive, h: Positive,
    phiStart: real, phiLength: real, thetaStart: real, thetaLength: real, thetaEnd: real)

  /** `Math.max(least, Math.floor(x))`. */
  function AtLeast(least: Positive, x: real): (n: Positive)
    ensures n >= least && n >= x.Floor
    ensures n == least || n == x.Floor
  {
    if x.Floor > least then x.Floor else least
  }

  /**
   * At least three segments around and two from pole to pole; thetaEnd is
   * thetaStart + thetaLength, cut off at PI.
   */
  function Clamped(m: Maths, radius: real, widthSegments: real, heightSegments: real,
                   phiStart: real, phiLength: real, thetaStart: real, thetaLength: real): (s: Sphere)
    ensures s.w >= 3 && s.h >= 2
    ensures s.thetaEnd <= m.pi && s.thetaEnd <= thetaStart + thetaLength
    ensures s.thetaEnd == m.pi || s.thetaEnd == thetaStart + thetaLength
  {
    var thetaEnd := if thetaStart + thetaLength < m.pi then thetaStart + thetaLength else m.pi;
    Sphere(radius, AtLeast(3, widthSegments), AtLeast(2, heightSegments),
           phiStart, phiLength, thetaStart, thetaLength, thetaEnd)
  }

  function Cols(s: Sphere): nat { s.w + 1 }

  // ---------------------------------------------------------------------
  // One vertex.

  /** `v = iy / heightSegments`, the fraction from the start pole. */
  function V(s: Sphere, iy: nat): real
  {
    iy as real / s.h as real
  }

  /** `u = ix / widthSegments`, the fraction around. */
  function U(s: Sphere, ix: nat): real
  {
    ix as real / s.w as real
  }

  function Theta(s: Sphere, iy: nat): real { s.thetaStart + V(s, iy) * s.thetaLength }

  function Phi(s: Sphere, ix: nat): real { s.phiStart + U(s, ix) * s.phiLength }

  /** The vertex of row `iy`, column `ix`. */
  function SphereVertex(s: Sphere, m: Maths, iy: nat, ix: nat): Vec3
  {
    Vec3(-s.radius * m.cos(Phi(s, ix)) * m.sin(Theta(s, iy)),
         s.radius * m.cos(Theta(s, iy)),
         s.radius * m.sin(Phi(s, ix)) * m.sin(Theta(s, iy)))
  }

  /** `v.length()`. */
  function Length(m: Maths, v: Vec3): real
  {
    m.sqrt(Dot(v, v))
  }

  /** The vertex `normalize` refuses: its length is zero. */
  predicate Flat(s: Sphere, m: Maths, iy: nat, ix: nat)
  {
    Length(m, SphereVertex(s, m, iy, ix)) == 0.0
  }

  /** None of the first `n` vertices of row `iy` has length zero. */
  predicate RowClear(s: Sphere, m: Maths, iy: nat, n: nat)
  {
    n == 0 || (RowClear(s, m, iy, n - 1) && !Flat(s, m, iy, n - 1))
  }

  /** None of the vertices of the first `r` rows has length zero. */
  ghost predicate Clear(s: Sphere, m: Maths, r: nat)
  {
    forall iy: nat, ix: nat :: iy < r && ix <= s.w ==> !Flat(s, m, iy, ix)
  }

  /** Some vertex of the grid has length zero, so building the sphere throws. */
  ghost predicate Degenerate(s: Sphere, m: Maths)
  {
    !Clear(s, m, s.h + 1)
  }

  /**
   * `normal.copy(vertex).normalize()`: the vertex scaled by one over its
   * length. A vertex of length zero throws before its normal is used; the
   * value given for it here is never pushed.
   */
  function Normalized(m: Maths, v: Vec3): Vec3
  {
    var len := Length(m, v);
    if len == 0.0 then v else Scale(v, 1.0 / len)
  }

  function SphereNormal(s: Sphere, m: Maths, iy: nat, ix: nat): Vec3
  {
    Normalized(m, SphereVertex(s, m, iy, ix))
  }

  /**
   * The pole rows' u shift: half a segment forward on the first row when
   * thetaStart is 0, half a segment back on the last row when thetaEnd is PI.
   */
  function UOffset(s: Sphere, m: Maths, iy: nat): real
  {
    if iy == 0 && s.thetaStart == 0.0 then 0.5 / s.w as real
    else if iy == s.h && s.thetaEnd == m.pi then -0.5 / s.w as real
    else 0.0
  }

  function SphereUv(s: Sphere, m: Maths, iy: nat, ix: nat): Uv
  {
    Uv(U(s, ix) + UOffset(s, m, iy), 1.0 - V(s, iy))
  }

  function VertexAt(s: Sphere, m: Maths): (nat, nat) -> Vec3 { (iy: nat, ix: nat) => SphereVertex(s, m, iy, ix) }
  function NormalAt(s: Sphere, m: Maths): (nat, nat) -> Vec3 { (iy: nat, ix: nat) => SphereNormal(s, m, iy, ix) }
  function UvAt(s: Sphere, m: Maths): (nat, nat) -> Uv { (iy: nat, ix: nat) => SphereUv(s, m, iy, ix) }

  // ---------------------------------------------------------------------
  // The vertex numbering kept in `grid`.

  /** The number the running `index` gives the vertex in row `iy`, column `ix`. */
  function NumberAt(c: nat): (nat, nat) -> nat { (iy: nat, ix: nat) => iy * c + ix }

  /** `grid`: `r` rows, each the numbers of its `c` vertices. */
  function Numbering(r: nat, c: nat): (g: seq<seq<nat>>)
    ensures |g| == r
  {
    if r == 0 then [] else Numbering(r - 1, c) + [Row(NumberAt(c), r - 1, c)]
  }

  lemma {:induction false} NumberingAt(r: nat, c: nat, iy: nat, ix: nat)
    requires iy < r && ix < c
    ensures |Numbering(r, c)[iy]| == c
    ensures Numbering(r, c)[iy][ix] == iy * c + ix
  {
    if iy < r - 1 {
      NumberingAt(r - 1, c, iy, ix);
    } else {
      RowAt(NumberAt(c), iy, c, ix);
    }
  }

  // ---------------------------------------------------------------------
  // The vertex loop.

  /**
   * The vertex loop of the constructor: every row's vertices, normals and
   * uvs, and the `grid` of their numbers. It throws exactly when some
   * vertex has length zero.
   */
  method VertexLoop(s: Sphere, m: Maths)
    returns (r: Status, vertices: seq<Vec3>, normals: seq<Vec3>, uvs: seq<Uv>, grid: seq<seq<nat>>)
    ensures r.Thrown? <==> Degenerate(s, m)
    ensures r.Thrown? ==> r.error == ZeroLengthVector
    ensures r.Normal? ==> vertices == Grid(VertexAt(s, m), s.h + 1, Cols(s))
    ensures r.Normal? ==> normals == Grid(NormalAt(s, m), s.h + 1, Cols(s))
    ensures r.Normal? ==> uvs == Grid(UvAt(s, m), s.h + 1, Cols(s))
    ensures r.Normal? ==> grid == Numbering(s.h + 1, Cols(s))
  {
    var index: nat := 0;
    grid := [];
    vertices, normals, uvs := [], [], [];
    var iy: nat := 0;
    while iy <= s.h
      invariant iy <= s.h + 1
      invariant index == iy * Cols(s)
      invariant Clear(s, m, iy)
      invariant vertices == Grid(VertexAt(s, m), iy, Cols(s))
      invariant normals == Grid(NormalAt(s, m), iy, Cols(s))
      invariant uvs == Grid(UvAt(s, m), iy, Cols(s))
      invariant grid == Numbering(iy, Cols(s))
    {
      r, vertices, normals, uvs, grid, index := VertexStep(s, m, iy, index, vertices, normals, uvs, grid);
      if r.Thrown? {
        ClearStops(s, m, iy + 1, s.h + 1);
        return;
      }
      iy := iy + 1;
    }
    r := Normal;
  }

  /** One pass of the outer vertex loop: row `iy` and its numbers. */
  method VertexStep(s: Sphere, m: Maths, iy: nat, index0: nat, vertices0: seq<Vec3>, normals0: seq<Vec3>,
                    uvs0: seq<Uv>, grid0: seq<seq<nat>>)
    returns (r: Status, vertices: seq<Vec3>, normals: seq<Vec3>, uvs: seq<Uv>, grid: seq<seq<nat>>, index: nat)
    requires iy <= s.h && index0 == iy * Cols(s)
    requires Clear(s, m, iy)
    requires vertices0 == Grid(VertexAt(s, m), iy, Cols(s))
    requires normals0 == Grid(NormalAt(s, m), iy, Cols(s))
    requires uvs0 == Grid(UvAt(s, m), iy, Cols(s))
    requires grid0 == Numbering(iy, Cols(s))
    ensures r.Thrown? <==> !RowClear(s, m, iy, Cols(s))
    ensures r.Thrown? ==> r.error == ZeroLengthVector
    ensures r.Normal? ==> Clear(s, m, iy + 1)
    ensures r.Normal? ==> index == (iy + 1) * Cols(s)
    ensures r.Normal? ==> vertices == Grid(VertexAt(s, m), iy + 1, Cols(s))
    ensures r.Normal? ==> normals == Grid(NormalAt(s, m), iy + 1, Cols(s))
    ensures r.Normal? ==> uvs == Grid(UvAt(s, m), iy + 1, Cols(s))
    ensures r.Normal? ==> grid == Numbering(iy + 1, Cols(s))
  {
    var verticesRow;
    var v := iy as real / s.h as real;
    var uOffset := UOffset(s, m, iy);
    r, vertices, normals, uvs, verticesRow, index := VertexRow(s, m, iy, v, uOffset, index0, vertices0, normals0, uvs0);
    grid := grid0;
    if r.Normal? {
      grid := grid + [verticesRow];
      GridSnoc(VertexAt(s, m), iy, Cols(s));
      GridSnoc(NormalAt(s, m), iy, Cols(s));
      GridSnoc(UvAt(s, m), iy, Cols(s));
      assert Numbering(iy + 1, Cols(s)) == Numbering(iy, Cols(s)) + [Row(NumberAt(Cols(s)), iy, Cols(s))];
      MulNext(iy, Cols(s));
      ClearNext(s, m, iy);
    }
  }

  /** Once a row has a vertex of length zero, no longer prefix of rows is clear. */
  lemma ClearStops(s: Sphere, m: Maths, r: nat, n: nat)
    requires 0 < r <= n
    requires !RowClear(s, m, r - 1, Cols(s))
    ensures !Clear(s, m, n)
  {
    RowClearAll(s, m, r - 1, Cols(s));
  }

  /** A clear row extends the clear prefix by one. */
  lemma ClearNext(s: Sphere, m: Maths, r: nat)
    requires Clear(s, m, r) && RowClear(s, m, r, Cols(s))
    ensures Clear(s, m, r + 1)
  {
    RowClearAll(s, m, r, Cols(s));
  }

  /** One pass of the inner vertex loop: row `iy`, around from phiStart. */
  method VertexRow(s: Sphere, m: Maths, iy: nat, v: real, uOffset: real, index0: nat,
                   vertices0: seq<Vec3>, normals0: seq<Vec3>, uvs0: seq<Uv>)
    returns (r: Status, vertices: seq<Vec3>, normals: seq<Vec3>, uvs: seq<Uv>, verticesRow: seq<nat>, index: nat)
    requires v == V(s, iy) && uOffset == UOffset(s, m, iy)
    requires index0 == iy * Cols(s)
    ensures r.Thrown? <==> !RowClear(s, m, iy, Cols(s))
    ensures r.Thrown? ==> r.error == ZeroLengthVector
    ensures r.Normal? ==> vertices == vertices0 + Row(VertexAt(s, m), iy, Cols(s))
    ensures r.Normal? ==> normals == normals0 + Row(NormalAt(s, m), iy, Cols(s))
    ensures r.Normal? ==> uvs == uvs0 + Row(UvAt(s, m), iy, Cols(s))
    ensures r.Normal? ==> verticesRow == Row(NumberAt(Cols(s)), iy, Cols(s))
    ensures r.Normal? ==> index == index0 + Cols(s)
  {
    vertices, normals, uvs, verticesRow, index := vertices0, normals0, uvs0, [], index0;
    var ix: nat := 0;
    while ix <= s.w
      invariant ix <= s.w + 1
      invariant index == index0 + ix
      invariant RowClear(s, m, iy, ix)
      invariant vertices == vertices0 + Row(VertexAt(s, m), iy, ix)
      invariant normals == normals0 + Row(NormalAt(s, m), iy, ix)
      invariant uvs == uvs0 + Row(UvAt(s, m), iy, ix)
      invariant verticesRow == Row(NumberAt(Cols(s)), iy, ix)
    {
      r, vertices, normals, uvs := PushVertex(s, m, iy, ix, v, uOffset, vertices, normals, uvs);
      if r.Thrown? {
        assert !RowClear(s, m, iy, Cols(s)) by {
          RowClearStops(s, m, iy, ix + 1, Cols(s));
        }
        return r, vertices, normals, uvs, verticesRow, index;
      }
      assert vertices == vertices0 + Row(VertexAt(s, m), iy, ix + 1) by {
        RowSnoc(VertexAt(s, m), iy, ix, vertices0, SphereVertex(s, m, iy, ix));
      }
      assert normals == normals0 + Row(NormalAt(s, m), iy, ix + 1) by {
        RowSnoc(NormalAt(s, m), iy, ix, normals0, SphereNormal(s, m, iy, ix));
      }
      assert uvs == uvs0 + Row(UvAt(s, m), iy, ix + 1) by {
        RowSnoc(UvAt(s, m), iy, ix, uvs0, SphereUv(s, m, iy, ix));
      }
      assert verticesRow + [index] == Row(NumberAt(Cols(s)), iy, ix + 1) by {
        NumberIs(Cols(s), iy, ix, index0, index);
        RowNext(NumberAt(Cols(s)), iy, ix, index);
      }
      verticesRow := verticesRow + [index];
      index := index + 1;
      ix := ix + 1;
    }
    r := Normal;
  }

  /** Once a vertex has length zero, no longer prefix of its row is clear. */
  lemma {:induction false} RowClearStops(s: Sphere, m: Maths, iy: nat, k: nat, n: nat)
    requires 0 < k <= n
    requires !RowClear(s, m, iy, k)
    ensures !RowClear(s, m, iy, n)
  {
    if n > k {
      RowClearStops(s, m, iy, k, n - 1);
    }
  }

  /** The body of the inner vertex loop for column `ix`: push the vertex, its normal and its uv. */
  method PushVertex(s: Sphere, m: Maths, iy: nat, ix: nat, v: real, uOffset: real,
                    vertices0: seq<Vec3>, normals0: seq<Vec3>, uvs0: seq<Uv>)
    returns (r: Status, vertices: seq<Vec3>, normals: seq<Vec3>, uvs: seq<Uv>)
    requires v == V(s, iy) && uOffset == UOffset(s, m, iy)
    ensures r.Thrown? <==> Flat(s, m, iy, ix)
    ensures r.Thrown? ==> r.error == ZeroLengthVector
    ensures r.Normal? ==> vertices == vertices0 + [SphereVertex(s, m, iy, ix)]
    ensures r.Normal? ==> normals == normals0 + [SphereNormal(s, m, iy, ix)]
    ensures r.Normal? ==> uvs == uvs0 + [SphereUv(s, m, iy, ix)]
  {
    var u := ix as real / s.w as real;
    var vertex := SphereVertex(s, m, iy, ix);
    vertices := vertices0 + [vertex];
    var len := Length(m, vertex);
    if len == 0.0 {
      return Thrown(ZeroLengthVector), vertices, normals0, uvs0;
    }
    var normal := Scale(vertex, 1.0 / len);
    normals := normals0 + [normal];
    uvs := uvs0 + [Uv(u + uOffset, 1.0 - v)];
    r := Normal;
  }

  lemma NumberIs(c: nat, iy: nat, ix: nat, index0: nat, index: nat)
    requires index0 == iy * c && index == index0 + ix
    ensures index == NumberAt(c)(iy, ix)
  {
  }

  // ---------------------------------------------------------------------
  // The index loop.

  /** The top triangle (a, b, d) of a cell is kept unless the cell touches a closed start pole. */
  predicate KeepsTop(s: Sphere, iy: nat)
  {
    iy != 0 || s.thetaStart > 0.0
  }

  /** The bottom triangle (b, c, d) is kept unless the cell touches the south pole at PI. */
  predicate KeepsBottom(s: Sphere, m: Maths, iy: nat)
  {
    iy != s.h - 1 || s.thetaEnd < m.pi
  }

  /**
   * The indices pushed for the cell whose top-left vertex is row `iy`,
   * column `ix`: a is its top-right corner, b top-left, c bottom-left and
   * d bottom-right.
   */
  function SphereCell(s: Sphere, m: Maths, iy: nat, ix: nat): seq<nat>
  {
    var a, b := iy * Cols(s) + (ix + 1), iy * Cols(s) + ix;
    var c, d := (iy + 1) * Cols(s) + ix, (iy + 1) * Cols(s) + (ix + 1);
    (if KeepsTop(s, iy) then [a, b, d] else []) + (if KeepsBottom(s, m, iy) then [b, c, d] else [])
  }

  function CellAt(s: Sphere, m: Maths): (nat, nat) -> seq<nat> { (iy: nat, ix: nat) => SphereCell(s, m, iy, ix) }

  /** The index loop of the constructor: the cells row by row, reading their corners from `grid`. */
  method IndexLoop(s: Sphere, m: Maths, grid: seq<seq<nat>>) returns (indices: seq<nat>)
    requires grid == Numbering(s.h + 1, Cols(s))
    ensures indices == Flatten(Grid(CellAt(s, m), s.h, s.w))
  {
    indices := [];
    var iy: nat := 0;
    while iy < s.h
      invariant iy <= s.h
      invariant indices == Flatten(Grid(CellAt(s, m), iy, s.w))
    {
      indices := IndexRow(s, m, grid, iy, indices);
      GridFlattenStep(CellAt(s, m), iy, s.w);
      iy := iy + 1;
    }
  }

  /** One pass of the inner index loop: the cells of row `iy`. */
  method IndexRow(s: Sphere, m: Maths, grid: seq<seq<nat>>, iy: nat, indices0: seq<nat>) returns (indices: seq<nat>)
    requires grid == Numbering(s.h + 1, Cols(s))
    requires iy < s.h
    ensures indices == indices0 + Flatten(Row(CellAt(s, m), iy, s.w))
  {
    indices := indices0;
    var ix: nat := 0;
    while ix < s.w
      invariant ix <= s.w
      invariant indices == indices0 + Flatten(Row(CellAt(s, m), iy, ix))
    {
      Corners(s, grid, iy, ix);
      var a := grid[iy][ix + 1];
      var b := grid[iy][ix];
      var c := grid[iy + 1][ix];
      var d := grid[iy + 1][ix + 1];
      ghost var before := indices;
      if iy != 0 || s.thetaStart > 0.0 {
        indices := indices + [a, b, d];
      }
      ghost var mid := indices;
      if iy != s.h - 1 || s.thetaEnd < m.pi {
        indices := indices + [b, c, d];
      }
      IndexStep(s, m, iy, ix, a, b, c, d, indices0, before, mid, indices);
      ix := ix + 1;
    }
  }

  /** The corners the index loop reads from `grid` are the vertices' numbers. */
  lemma Corners(s: Sphere, grid: seq<seq<nat>>, iy: nat, ix: nat)
    requires grid == Numbering(s.h + 1, Cols(s))
    requires iy < s.h && ix < s.w
    ensures iy + 1 < |grid| && ix + 1 < |grid[iy]| && ix + 1 < |grid[iy + 1]|
    ensures grid[iy][ix + 1] == iy * Cols(s) + (ix + 1) && grid[iy][ix] == iy * Cols(s) + ix
    ensures grid[iy + 1][ix] == (iy + 1) * Cols(s) + ix && grid[iy + 1][ix + 1] == (iy + 1) * Cols(s) + (ix + 1)
  {
    NumberingAt(s.h + 1, Cols(s), iy, ix + 1);
    NumberingAt(s.h + 1, Cols(s), iy, ix);
    NumberingAt(s.h + 1, Cols(s), iy + 1, ix);
    NumberingAt(s.h + 1, Cols(s), iy + 1, ix + 1);
  }

  lemma IndexStep(s: Sphere, m: Maths, iy: nat, ix: nat, a: nat, b: nat, c: nat, d: nat,
                  indices0: seq<nat>, before: seq<nat>, mid: seq<nat>, after: seq<nat>)
    requires a == iy * Cols(s) + (ix + 1) && b == iy * Cols(s) + ix
    requires c == (iy + 1) * Cols(s) + ix && d == (iy + 1) * Cols(s) + (ix + 1)
    requires before == indices0 + Flatten(Row(CellAt(s, m), iy, ix))
    requires mid == if KeepsTop(s, iy) then before + [a, b, d] else before
    requires after == if KeepsBottom(s, m, iy) then mid + [b, c, d] else mid
    ensures after == indices0 + Flatten(Row(CellAt(s, m), iy, ix + 1))
  {
    var cell := SphereCell(s, m, iy, ix);
    assert after == before + cell;
    FlattenSnoc(Row(CellAt(s, m), iy, ix), cell);
  }

  // ---------------------------------------------------------------------
  // The whole sphere.

  /** The arrays of the sphere: the grid's vertices, normals and uvs, and the cells' indices. */
  function SphereOf(s: Sphere, m: Maths): Arrays
  {
    Arrays(Grid(VertexAt(s, m), s.h + 1, Cols(s)), Grid(NormalAt(s, m), s.h + 1, Cols(s)),
           Grid(UvAt(s, m), s.h + 1, Cols(s)), Flatten(Grid(CellAt(s, m), s.h, s.w)))
  }

  /** As many normals and uvs as vertices: (heightSegments + 1)(widthSegments + 1) of each. */
  lemma SphereShape(s: Sphere, m: Maths)
    ensures |SphereOf(s, m).vertices| == (s.h + 1) * Cols(s)
    ensures |SphereOf(s, m).normals| == (s.h + 1) * Cols(s)
    ensures |SphereOf(s, m).uvs| == (s.h + 1) * Cols(s)
  {
    GridLength(VertexAt(s, m), s.h + 1, Cols(s));
    GridLength(NormalAt(s, m), s.h + 1, Cols(s));
    GridLength(UvAt(s, m), s.h + 1, Cols(s));
  }

  lemma MulAtMost(a: nat, b: nat, c: nat)
    requires a <= b
    ensures a * c <= b * c
  {
  }

  /** Every corner of a cell is one of the grid's vertices. */
  lemma CellInGrid(s: Sphere, m: Maths, iy: nat, ix: nat)
    requires iy < s.h && ix < s.w
    ensures forall i | i in SphereCell(s, m, iy, ix) :: i < (s.h + 1) * Cols(s)
  {
    var c := Cols(s);
    MulAtMost(iy + 1, s.h, c);
    MulNext(s.h, c);
    assert iy * c <= (iy + 1) * c by { MulNext(iy, c); }
  }

  /** Every index names a vertex: all lie below (heightSegments + 1)(widthSegments + 1). */
  lemma SphereIndicesInRange(s: Sphere, m: Maths)
    ensures forall i | i in SphereOf(s, m).indices :: i < |SphereOf(s, m).vertices|
  {
    SphereShape(s, m);
    var hi := (s.h + 1) * Cols(s);
    var f := CellAt(s, m);
    var Inside := (l: seq<nat>) => forall i | i in l :: 0 <= i < hi;
    forall iy: nat, ix: nat | iy < s.h && ix < s.w
      ensures Inside(f(iy, ix))
    {
      CellInGrid(s, m, iy, ix);
    }
    GridCells(f, s.h, s.w, Inside);
    var cells := Grid(f, s.h, s.w);
    forall l | l in cells
      ensures forall i | i in l :: 0 <= i < hi
    {
      assert Inside(l);
    }
    FlattenWithin(cells, 0, hi);
  }

  /** How many indices a cell of row `iy` pushes. */
  function CellLen(s: Sphere, m: Maths, iy: nat): nat
  {
    (if KeepsTop(s, iy) then 3 else 0) + (if KeepsBottom(s, m, iy) then 3 else 0)
  }

  /** A row of cells pushes six indices per cell, less three for each triangle a closed pole drops. */
  lemma RowIndexCount(s: Sphere, m: Maths, iy: nat)
    ensures |Flatten(Row(CellAt(s, m), iy, s.w))|
      == 6 * s.w - (if KeepsTop(s, iy) then 0 else 3 * s.w) - (if KeepsBottom(s, m, iy) then 0 else 3 * s.w)
  {
    forall ix: nat | ix < s.w
      ensures |CellAt(s, m)(iy, ix)| == CellLen(s, m, iy)
    {
    }
    FlattenRowLength(CellAt(s, m), iy, s.w, CellLen(s, m, iy));
  }

  /** The indices of the first `r` rows of cells. */
  lemma {:induction false} IndexCountUpTo(s: Sphere, m: Maths, r: nat)
    requires r <= s.h
    ensures |Flatten(Grid(CellAt(s, m), r, s.w))|
      == r * (6 * s.w) - (if r >= 1 && !KeepsTop(s, 0) then 3 * s.w else 0)
         - (if r == s.h && !KeepsBottom(s, m, s.h - 1) then 3 * s.w else 0)
  {
    if r > 0 {
      var w6 := 6 * s.w;
      IndexCountUpTo(s, m, r - 1);
      GridFlattenStep(CellAt(s, m), r - 1, s.w);
      RowIndexCount(s, m, r - 1);
      assert r - 1 != 0 ==> KeepsTop(s, r - 1);
      assert r != s.h ==> KeepsBottom(s, m, r - 1);
      MulNext(r - 1, w6);
    }
  }

  /**
   * The sphere's index count: six per cell, less three per cell of a row
   * at a closed pole, that is 6wh, minus 3w when thetaStart is not
   * positive, minus 3w when thetaEnd reaches PI.
   */
  lemma SphereIndexCount(s: Sphere, m: Maths)
    requires s.h >= 2
    ensures |SphereOf(s, m).indices|
      == 6 * s.w * s.h - (if s.thetaStart > 0.0 then 0 else 3 * s.w) - (if s.thetaEnd < m.pi then 0 else 3 * s.w)
  {
    IndexCountUpTo(s, m, s.h);
    assert s.h * (6 * s.w) == 6 * s.w * s.h;
  }

  /** A whole sphere, from pole to pole, has 6w(h - 1) indices. */
  lemma WholeSphereIndexCount(s: Sphere, m: Maths)
    requires s.h >= 2 && s.thetaStart == 0.0 && s.thetaEnd == m.pi
    ensures |SphereOf(s, m).indices| == 6 * s.w * (s.h - 1)
  {
    SphereIndexCount(s, m);
    assert 6 * s.w * s.h - 6 * s.w == 6 * s.w * (s.h - 1);
  }

  /** Up to 65536 vertices the Uint16Array holds every index unchanged. */
  lemma SphereIndicesFit(s: Sphere, m: Maths)
    requires (s.h + 1) * Cols(s) <= 0x1_0000
    ensures var a := SphereOf(s, m);
      forall k :: 0 <= k < |a.indices| ==> Uint16Values(a.indices)[k] == a.indices[k] as real
  {
    SphereIndicesInRange(s, m);
    SphereShape(s, m);
    NoWrapBelow(SphereOf(s, m).indices, (s.h + 1) * Cols(s));
  }

  /** Every vertex lies on the sphere: its squared length is radius². */
  lemma OnSphere(s: Sphere, m: Maths, iy: nat, ix: nat)
    requires Pythagorean(m)
    ensures Dot(SphereVertex(s, m, iy, ix), SphereVertex(s, m, iy, ix)) == s.radius * s.radius
  {
    var c, sn := m.cos(Phi(s, ix)), m.sin(Phi(s, ix));
    var C, S := m.cos(Theta(s, iy)), m.sin(Theta(s, iy));
    assert c * c + sn * sn == 1.0 && C * C + S * S == 1.0;
    var v := SphereVertex(s, m, iy, ix);
    assert v.x == -s.radius * c * S && v.y == s.radius * C && v.z == s.radius * sn * S;
    SphericalSquare(s.radius, c, sn, C, S);
  }

  lemma SphericalSquare(r: real, c: real, sn: real, C: real, S: real)
    requires c * c + sn * sn == 1.0 && C * C + S * S == 1.0
    ensures (-r * c * S) * (-r * c * S) + (r * C) * (r * C) + (r * sn * S) * (r * sn * S) == r * r
  {
    calc {
      (-r * c * S) * (-r * c * S) + (r * C) * (r * C) + (r * sn * S) * (r * sn * S);
      r * r * (S * S) * (c * c + sn * sn) + r * r * (C * C);
      r * r * (S * S + C * C);
      r * r;
    }
  }

  /** With lawful maths a vertex has length zero exactly when the radius is zero. */
  lemma FlatIffZeroRadius(s: Sphere, m: Maths, iy: nat, ix: nat)
    requires Lawful(m)
    ensures Flat(s, m, iy, ix) <==> s.radius == 0.0
  {
    var v := SphereVertex(s, m, iy, ix);
    OnSphere(s, m, iy, ix);
    assert Length(m, v) == m.sqrt(s.radius * s.radius);
    RootOfSquare(m, s.radius);
  }

  /** The square root of r² is zero exactly when r is. */
  lemma RootOfSquare(m: Maths, r: real)
    requires SquareRoot(m)
    ensures m.sqrt(r * r) == 0.0 <==> r == 0.0
  {
    if r == 0.0 {
      assert r * r == 0.0;
    } else {
      SquarePositive(r);
    }
  }

  lemma SquarePositive(x: real)
    requires x != 0.0
    ensures x * x > 0.0
  {
    if x < 0.0 {
      var y := -x;
      assert y * y > 0.0;
      assert x * x == y * y;
    }
  }

  lemma SquareNonNegative(x: real)
    ensures x * x >= 0.0
  {
    if x != 0.0 {
      SquarePositive(x);
    }
  }

  /** A row is clear exactly when none of its first `n` vertices has length zero. */
  lemma {:induction false} RowClearAll(s: Sphere, m: Maths, iy: nat, n: nat)
    ensures RowClear(s, m, iy, n) <==> forall ix: nat :: ix < n ==> !Flat(s, m, iy, ix)
  {
    if n > 0 {
      RowClearAll(s, m, iy, n - 1);
    }
  }

  /** Building the sphere throws exactly when its radius is zero. */
  lemma DegenerateIffZeroRadius(s: Sphere, m: Maths)
    requires Lawful(m)
    ensures Degenerate(s, m) <==> s.radius == 0.0
  {
    if Degenerate(s, m) {
      var iy: nat, ix: nat :| iy <= s.h && ix <= s.w && Flat(s, m, iy, ix);
      FlatIffZeroRadius(s, m, iy, ix);
    }
    FlatIffZeroRadius(s, m, 0, 0);
  }

  /** Every normal of a sphere with a non-zero radius has length one. */
  lemma UnitNormals(s: Sphere, m: Maths, iy: nat, ix: nat)
    requires Lawful(m) && s.radius != 0.0
    ensures Dot(SphereNormal(s, m, iy, ix), SphereNormal(s, m, iy, ix)) == 1.0
  {
    var v := SphereVertex(s, m, iy, ix);
    OnSphere(s, m, iy, ix);
    FlatIffZeroRadius(s, m, iy, ix);
    SquareNonNegative(s.radius);
    UnitScale(v, Length(m, v));
  }

  /** Scaling by one over the length gives a vector of length one. */
  lemma UnitScale(v: Vec3, len: real)
    requires len != 0.0 && len * len == Dot(v, v)
    ensures Dot(Scale(v, 1.0 / len), Scale(v, 1.0 / len)) == 1.0
  {
    var k := 1.0 / len;
    assert Dot(Scale(v, k), Scale(v, k)) == k * k * Dot(v, v);
    assert k * len == 1.0;
    calc {
      k * k * Dot(v, v);
      k * k * (len * len);
      (k * len) * (k * len);
      1.0;
    }
  }

  /**
   * The uvs: v runs from 1 on the first row to 0 on the last, and u is
   * ix / widthSegments shifted by half a segment on a closed pole's row.
   */
  lemma SphereUvs(s: Sphere, m: Maths, iy: nat, ix: nat)
    requires iy <= s.h
    ensures 0.0 <= SphereUv(s, m, iy, ix).v <= 1.0
    ensures iy == 0 ==> SphereUv(s, m, iy, ix).v == 1.0
    ensures iy == s.h ==> SphereUv(s, m, iy, ix).v == 0.0
    ensures SphereUv(s, m, iy, ix).u * s.w as real == ix as real
      + (if iy == 0 && s.thetaStart == 0.0 then 0.5 else if iy == s.h && s.thetaEnd == m.pi then -0.5 else 0.0)
  {
    var h := s.h as real;
    assert V(s, iy) * h == iy as real;
  }

  /**
   * The sphere `new SphereGeometry(...)` builds: each argument left
   * `undefined` takes its default (radius 1, 32 by 16 segments, the whole
   * sphere from phi 0 and theta 0), then the counts are clamped.
   */
  function SphereArgs(m: Maths, radius: Option<real>, widthSegments: Option<real>, heightSegments: Option<real>,
                      phiStart: Option<real>, phiLength: Option<real>, thetaStart: Option<real>, thetaLength: Option<real>): (s: Sphere)
    ensures radius.None? ==> s.radius == 1.0
    ensures phiStart.None? ==> s.phiStart == 0.0
    ensures phiLength.None? ==> s.phiLength == 2.0 * m.pi
    ensures thetaStart.None? ==> s.thetaStart == 0.0
    ensures thetaLength.None? ==> s.thetaLength == m.pi
    ensures s == Clamped(m, radius.OrElse(1.0), widthSegments.OrElse(32.0), heightSegments.OrElse(16.0),
                         phiStart.OrElse(0.0), phiLength.OrElse(2.0 * m.pi), thetaStart.OrElse(0.0), thetaLength.OrElse(m.pi))
  {
    Clamped(m, radius.OrElse(1.0), widthSegments.OrElse(32.0), heightSegments.OrElse(16.0),
            phiStart.OrElse(0.0), phiLength.OrElse(2.0 * m.pi), thetaStart.OrElse(0.0), thetaLength.OrElse(m.pi))
  }

  /** `new SphereGeometry()` with no arguments: a closed sphere of 32 by 16 segments. */
  function DefaultSphere(m: Maths): (s: Sphere)
    ensures s.radius == 1.0 && s.w == 32 && s.h == 16 && s.thetaStart == 0.0 && s.thetaEnd == m.pi
  {
    SphereArgs(m, None, None, None, None, None, None, None)
  }

  /** The default sphere does not throw. */
  lemma DefaultSphereSound(m: Maths)
    requires Lawful(m)
    ensures !Degenerate(DefaultSphere(m), m)
  {
    DegenerateIffZeroRadius(DefaultSphere(m), m);
  }

  /** The default sphere has 17 rows of 33 vertices and 2880 indices. */
  lemma DefaultSphereCounts(m: Maths)
    ensures |SphereOf(DefaultSphere(m), m).vertices| == 561
    ensures |SphereOf(DefaultSphere(m), m).indices| == 2880
  {
    var s := DefaultSphere(m);
    SphereShape(s, m);
    assert (s.h + 1) * Cols(s) == 17 * 33;
    WholeSphereIndexCount(s, m);
    assert 6 * s.w * (s.h - 1) == 6 * 32 * 15;
  }

  /**
   * `new SphereGeometry(radius, widthSegments, heightSegments, phiStart,
   * phiLength, thetaStart, thetaLength)`: throws when a vertex has length
   * zero, otherwise the geometry of the sphere's arrays.
   */
  method NewSphereGeometry(m: Maths, radius: Option<real>, widthSegments: Option<real>, heightSegments: Option<real>,
                           phiStart: Option<real>, phiLength: Option<real>, thetaStart: Option<real>, thetaLength: Option<real>)
    returns (r: Result<BufferGeometry>, arrays: Arrays)
    ensures var s := SphereArgs(m, radius, widthSegments, heightSegments, phiStart, phiLength, thetaStart, thetaLength);
      && (r.Err? <==> Degenerate(s, m))
      && (r.Err? ==> r.error == ZeroLengthVector)
      && (r.Ok? ==> arrays == SphereOf(s, m) && fresh(r.value) && r.value.Valid())
  {
    var s := SphereArgs(m, radius, widthSegments, heightSegments, phiStart, phiLength, thetaStart, thetaLength);
    var status, vertices, normals, uvs, grid := VertexLoop(s, m);
    if status.Thrown? {
      return Err(status.error), NoArrays;
    }
    var indices := IndexLoop(s, m, grid);
    arrays := Arrays(vertices, normals, uvs, indices);
    var props := PropsOf(arrays);
    var g := new BufferGeometry(props, props.normal.value);
    r := Ok(g);
  }
}
