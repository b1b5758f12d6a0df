// BoxGeometry: six subdivided planes, one per face, each a grid of
// vertices with two triangles per cell, handed to a BufferGeometry.
module BoxGeometries {
  import opened Math3D
  import opened Gpu
  import opened Geometry
  import opened Grids
  import opened Js

  /** The arguments of one `buildPlane(u, v, w, udir, vdir, width, height, depth, gridX, gridY)` call. */
  datatype Plane = Plane(u: Axis, v: Axis, w: Axis, udir: real, vdir: real,
                         width: real, height: real, depth: real, gridX: int, gridY: int)

  /**
   * buildPlane writes the u, v and w components of one shared vector for
   * every vertex, so nothing of the previous vertex survives only when the
   * three axes differ, as they do in every call the box makes.
   */
  predicate Axes(p: Plane)
  {
    p.u != p.v && p.v != p.w && p.u != p.w
  }

  /** `gridX + 1` vertices per row and `gridY + 1` rows. */
  function Cols(p: Plane): nat { Count(p.gridX + 1) }
  function Rows(p: Plane): nat { Count(p.gridY + 1) }
  function VertexCount(p: Plane): nat { Rows(p) * Cols(p) }
  function CellCount(p: Plane): nat { Count(p.gridX) * Count(p.gridY) }

  /**
   * `a / b` where `b` is a segment count. A zero count makes the source
   * divide by zero (Infinity or NaN); the model writes 0 there.
   */
  function Quot(a: real, b: int): real
  {
    if b == 0 then 0.0 else a / b as real
  }

  /** `vector[u] = a; vector[v] = b; vector[w] = c`. */
  function Place(vector: Vec3, p: Plane, a: real, b: real, c: real): Vec3
  {
    With(With(With(vector, p.u, a), p.v, b), p.w, c)
  }

  /** With three different axes, the vector written over does not matter. */
  lemma PlaceForgets(p: Plane, v1: Vec3, v2: Vec3, a: real, b: real, c: real)
    requires Axes(p)
    ensures Place(v1, p, a, b, c) == Place(v2, p, a, b, c)
  {
    var r1, r2 := Place(v1, p, a, b, c), Place(v2, p, a, b, c);
    assert Get(r1, X) == Get(r2, X) && Get(r1, Y) == Get(r2, Y) && Get(r1, Z) == Get(r2, Z);
  }

  /** The position of grid vertex (iy, ix): the w coordinate is always depth / 2. */
  function PlaneVertex(p: Plane, iy: nat, ix: nat): (r: Vec3)
    ensures Get(r, p.w) == p.depth / 2.0
  {
    var y := iy as real * Quot(p.height, p.gridY) - p.height / 2.0;
    var x := ix as real * Quot(p.width, p.gridX) - p.width / 2.0;
    Place(Zero, p, x * p.udir, y * p.vdir, p.depth / 2.0)
  }

  /** The normal of every vertex of the plane: its w axis, signed like its depth. */
  function PlaneNormal(p: Plane): (r: Vec3)
    ensures Get(r, p.w) == (if p.depth > 0.0 then 1.0 else -1.0)
  {
    Place(Zero, p, 0.0, 0.0, if p.depth > 0.0 then 1.0 else -1.0)
  }

  lemma VertexIs(p: Plane, iy: nat, ix: nat, x: real, y: real)
    requires x == ix as real * Quot(p.width, p.gridX) - p.width / 2.0
    requires y == iy as real * Quot(p.height, p.gridY) - p.height / 2.0
    ensures VertexAt(p)(iy, ix) == Place(Zero, p, x * p.udir, y * p.vdir, p.depth / 2.0)
  {
  }

  /** The uv of grid vertex (iy, ix). */
  function PlaneUv(p: Plane, iy: nat, ix: nat): Uv
  {
    Uv(Quot(ix as real, p.gridX), 1.0 - Quot(iy as real, p.gridY))
  }

  function VertexAt(p: Plane): (nat, nat) -> Vec3 { (iy: nat, ix: nat) => PlaneVertex(p, iy, ix) }
  function UvAt(p: Plane): (nat, nat) -> Uv { (iy: nat, ix: nat) => PlaneUv(p, iy, ix) }

  /**
   * The two triangles of cell (iy, ix) of a plane whose first vertex is
   * number `base`: (a, b, d) and (b, c, d), with b the vertex below a, d the
   * one right of a and c the one right of b.
   */
  function Cell(p: Plane, base: nat, iy: nat, ix: nat): seq<nat>
  {
    var a := base + ix + Cols(p) * iy;
    var b := base + ix + Cols(p) * (iy + 1);
    var c := base + (ix + 1) + Cols(p) * (iy + 1);
    var d := base + (ix + 1) + Cols(p) * iy;
    [a, b, d, b, c, d]
  }

  function CellAt(p: Plane, base: nat): (nat, nat) -> seq<nat> { (iy: nat, ix: nat) => Cell(p, base, iy, ix) }

  /** What one buildPlane call pushes onto the four arrays. */
  function PlaneArrays(p: Plane, base: nat): Arrays
  {
    Arrays(
      Grid(VertexAt(p), Rows(p), Cols(p)),
      Repeat(PlaneNormal(p), VertexCount(p)),
      Grid(UvAt(p), Rows(p), Cols(p)),
      Flatten(Grid(CellAt(p, base), Count(p.gridY), Count(p.gridX))))
  }

  /** Arrays `b` pushed after arrays `a`. */
  function Join(a: Arrays, b: Arrays): Arrays
  {
    Arrays(a.vertices + b.vertices, a.normals + b.normals, a.uvs + b.uvs, a.indices + b.indices)
  }

  /**
   * `buildPlane`: the vertex loop pushes each grid vertex's position,
   * normal and uv row by row, the index loop pushes each cell's two
   * triangles, and the vertex counter advances by the plane's vertex count.
   */
  method BuildPlane(p: Plane, acc: Arrays, numberOfVertices: nat) returns (out: Arrays, next: nat)
    requires Axes(p)
    ensures out == Join(acc, PlaneArrays(p, numberOfVertices))
    ensures next == numberOfVertices + VertexCount(p)
  {
    var vertices, normals, uvs, vertexCounter := PushVertices(p, acc.vertices, acc.normals, acc.uvs);
    var indices := PushCells(p, acc.indices, numberOfVertices);
    out := Arrays(vertices, normals, uvs, indices);
    next := numberOfVertices + vertexCounter;
  }

  /** The vertex loop of buildPlane, which also counts the vertices it pushes. */
  method PushVertices(p: Plane, vertices0: seq<Vec3>, normals0: seq<Vec3>, uvs0: seq<Uv>)
    returns (vertices: seq<Vec3>, normals: seq<Vec3>, uvs: seq<Uv>, vertexCounter: nat)
    requires Axes(p)
    ensures vertices == vertices0 + Grid(VertexAt(p), Rows(p), Cols(p))
    ensures normals == normals0 + Repeat(PlaneNormal(p), VertexCount(p))
    ensures uvs == uvs0 + Grid(UvAt(p), Rows(p), Cols(p))
    ensures vertexCounter == VertexCount(p)
  {
    var gridY1 := p.gridY + 1;
    ghost var cols := Cols(p);
    vertexCounter := 0;
    var vector := Zero;
    vertices, normals, uvs := vertices0, normals0, uvs0;
    var iy: nat := 0;
    while iy < gridY1
      invariant iy <= Rows(p)
      invariant vertexCounter == iy * cols
      invariant vertices == vertices0 + Grid(VertexAt(p), iy, cols)
      invariant normals == normals0 + Repeat(PlaneNormal(p), vertexCounter)
      invariant uvs == uvs0 + Grid(UvAt(p), iy, cols)
    {
      ghost var rowStart := vertexCounter;
      vector, vertices, normals, uvs, vertexCounter := PushVertexRow(p, iy, vector, vertices, normals, uvs, vertexCounter, normals0);
      GridStep(VertexAt(p), iy, cols, vertices0);
      GridStep(UvAt(p), iy, cols, uvs0);
      MulStep(iy + 1, cols);
      iy := iy + 1;
    }
  }

  /** One pass of the inner vertex loop: row `iy`, left to right. */
  method PushVertexRow(p: Plane, iy: nat, vector0: Vec3, vertices0: seq<Vec3>, normals0: seq<Vec3>, uvs0: seq<Uv>,
                       counter0: nat, ghost normalsStart: seq<Vec3>)
    returns (vector: Vec3, vertices: seq<Vec3>, normals: seq<Vec3>, uvs: seq<Uv>, vertexCounter: nat)
    requires Axes(p)
    requires normals0 == normalsStart + Repeat(PlaneNormal(p), counter0)
    ensures vertices == vertices0 + Row(VertexAt(p), iy, Cols(p))
    ensures normals == normalsStart + Repeat(PlaneNormal(p), vertexCounter)
    ensures uvs == uvs0 + Row(UvAt(p), iy, Cols(p))
    ensures vertexCounter == counter0 + Cols(p)
  {
    var segmentWidth := Quot(p.width, p.gridX);
    var segmentHeight := Quot(p.height, p.gridY);
    var widthHalf, heightHalf, depthHalf := p.width / 2.0, p.height / 2.0, p.depth / 2.0;
    var gridX1 := p.gridX + 1;
    var y := iy as real * segmentHeight - heightHalf;
    vector, vertices, normals, uvs, vertexCounter := vector0, vertices0, normals0, uvs0, counter0;
    var ix: nat := 0;
    while ix < gridX1
      invariant ix <= Cols(p)
      invariant vertexCounter == counter0 + ix
      invariant vertices == vertices0 + Row(VertexAt(p), iy, ix)
      invariant normals == normalsStart + Repeat(PlaneNormal(p), vertexCounter)
      invariant uvs == uvs0 + Row(UvAt(p), iy, ix)
    {
      var x := ix as real * segmentWidth - widthHalf;
      PlaceForgets(p, vector, Zero, x * p.udir, y * p.vdir, depthHalf);
      vector := Place(vector, p, x * p.udir, y * p.vdir, depthHalf);
      VertexStep(p, iy, ix, x, y, vertices0);
      vertices := vertices + [vector];
      PlaceForgets(p, vector, Zero, 0.0, 0.0, if p.depth > 0.0 then 1.0 else -1.0);
      vector := Place(vector, p, 0.0, 0.0, if p.depth > 0.0 then 1.0 else -1.0);
      RepeatStep(normalsStart, vector, vertexCounter);
      normals := normals + [vector];
      UvStep(p, iy, ix, uvs0);
      uvs := uvs + [Uv(Quot(ix as real, p.gridX), 1.0 - Quot(iy as real, p.gridY))];
      vertexCounter := vertexCounter + 1;
      ix := ix + 1;
    }
  }

  lemma VertexStep(p: Plane, iy: nat, ix: nat, x: real, y: real, pre: seq<Vec3>)
    requires x == ix as real * Quot(p.width, p.gridX) - p.width / 2.0
    requires y == iy as real * Quot(p.height, p.gridY) - p.height / 2.0
    ensures pre + Row(VertexAt(p), iy, ix) + [Place(Zero, p, x * p.udir, y * p.vdir, p.depth / 2.0)]
         == pre + Row(VertexAt(p), iy, ix + 1)
  {
    VertexIs(p, iy, ix, x, y);
  }

  lemma UvStep(p: Plane, iy: nat, ix: nat, pre: seq<Uv>)
    ensures pre + Row(UvAt(p), iy, ix) + [Uv(Quot(ix as real, p.gridX), 1.0 - Quot(iy as real, p.gridY))]
         == pre + Row(UvAt(p), iy, ix + 1)
  {
  }

  /** The index loop of buildPlane: two triangles per cell, row by row. */
  method PushCells(p: Plane, indices0: seq<nat>, numberOfVertices: nat) returns (indices: seq<nat>)
    ensures indices == indices0 + Flatten(Grid(CellAt(p, numberOfVertices), Count(p.gridY), Count(p.gridX)))
  {
    ghost var cells := CellAt(p, numberOfVertices);
    indices := indices0;
    var iy: nat := 0;
    while iy < p.gridY
      invariant iy <= Count(p.gridY)
      invariant indices == indices0 + Flatten(Grid(cells, iy, Count(p.gridX)))
    {
      indices := PushCellRow(p, iy, indices, numberOfVertices);
      FlattenGridStep(cells, iy, Count(p.gridX), indices0);
      iy := iy + 1;
    }
  }

  /** One pass of the inner index loop: the cells of row `iy`, left to right. */
  method PushCellRow(p: Plane, iy: nat, indices0: seq<nat>, numberOfVertices: nat) returns (indices: seq<nat>)
    ensures indices == indices0 + Flatten(Row(CellAt(p, numberOfVertices), iy, Count(p.gridX)))
  {
    var gridX1 := p.gridX + 1;
    indices := indices0;
    var ix: nat := 0;
    while ix < p.gridX
      invariant ix <= Count(p.gridX)
      invariant indices == indices0 + Flatten(Row(CellAt(p, numberOfVertices), iy, ix))
    {
      NatProduct(gridX1, iy);
      NatProduct(gridX1, iy + 1);
      var a: nat := numberOfVertices + ix + gridX1 * iy;
      var b: nat := numberOfVertices + ix + gridX1 * (iy + 1);
      var c: nat := numberOfVertices + (ix + 1) + gridX1 * (iy + 1);
      var d: nat := numberOfVertices + (ix + 1) + gridX1 * iy;
      CellStep(p, numberOfVertices, gridX1, iy, ix, a, b, c, d, indices0);
      indices := indices + [a, b, d];
      indices := indices + [b, c, d];
      ix := ix + 1;
    }
  }

  lemma NatProduct(a: int, b: nat)
    requires a >= 0
    ensures a * b >= 0
  {
  }

  /** One cell's two triangles extend the row's index list by that cell. */
  lemma CellStep(p: Plane, base: nat, gridX1: int, iy: nat, ix: nat, a: nat, b: nat, c: nat, d: nat, pre: seq<nat>)
    requires ix < p.gridX && gridX1 == p.gridX + 1
    requires a == base + ix + gridX1 * iy && b == base + ix + gridX1 * (iy + 1)
    requires c == base + (ix + 1) + gridX1 * (iy + 1) && d == base + (ix + 1) + gridX1 * iy
    ensures pre + Flatten(Row(CellAt(p, base), iy, ix)) + [a, b, d] + [b, c, d]
         == pre + Flatten(Row(CellAt(p, base), iy, ix + 1))
  {
    var row := Row(CellAt(p, base), iy, ix);
    var cell := Cell(p, base, iy, ix);
    assert cell == [a, b, d] + [b, c, d] by {
      assert Cols(p) == gridX1;
    }
    assert Flatten(Row(CellAt(p, base), iy, ix + 1)) == Flatten(row) + cell by {
      assert Row(CellAt(p, base), iy, ix + 1) == row + [cell];
      FlattenSnoc(row, cell);
    }
    AppendAssoc(pre, Flatten(row), [a, b, d], [b, c, d]);
  }

  // ---------------------------------------------------------------------
  // What one plane contributes.

  lemma MulMono(k: nat, a: nat, b: nat)
    requires a <= b
    ensures k * a <= k * b
  {
  }

  /** Both triangles of a cell inside the grid use only the plane's own vertices. */
  lemma CellInPlane(p: Plane, base: nat, iy: nat, ix: nat)
    requires ix < Count(p.gridX) && iy < Count(p.gridY)
    ensures forall i | i in Cell(p, base, iy, ix) :: base <= i < base + VertexCount(p)
  {
    var c := Cols(p);
    assert c == p.gridX + 1 && Rows(p) == p.gridY + 1;
    MulMono(c, iy + 1, p.gridY);
    assert c * (p.gridY + 1) == c * p.gridY + c;
    assert VertexCount(p) == c * p.gridY + c;
  }

  /**
   * A plane adds (gridX+1)(gridY+1) vertices, normals and uvs, six indices
   * per cell, and every index lies in the plane's own vertex range.
   */
  lemma PlaneShape(p: Plane, base: nat)
    ensures |PlaneArrays(p, base).vertices| == VertexCount(p)
    ensures |PlaneArrays(p, base).normals| == VertexCount(p)
    ensures |PlaneArrays(p, base).uvs| == VertexCount(p)
    ensures |PlaneArrays(p, base).indices| == 6 * CellCount(p)
    ensures forall i | i in PlaneArrays(p, base).indices :: base <= i < base + VertexCount(p)
  {
    GridLength(VertexAt(p), Rows(p), Cols(p));
    GridLength(UvAt(p), Rows(p), Cols(p));
    CellsLength(p, base);
    CellsInPlane(p, base);
  }

  /** Every index a plane pushes lies in its own vertex range. */
  lemma CellsInPlane(p: Plane, base: nat)
    ensures forall i | i in PlaneArrays(p, base).indices :: base <= i < base + VertexCount(p)
  {
    var hi := base + VertexCount(p);
    var f := CellAt(p, base);
    var r, c := Count(p.gridY), Count(p.gridX);
    var Inside := (l: seq<nat>) => forall i | i in l :: base <= i < hi;
    forall iy: nat, ix: nat | iy < r && ix < c
      ensures Inside(f(iy, ix))
    {
      CellInPlane(p, base, iy, ix);
    }
    GridCells(f, r, c, Inside);
    var cells := Grid(f, r, c);
    forall l | l in cells
      ensures forall i | i in l :: base <= i < hi
    {
      assert Inside(l);
    }
    FlattenWithin(cells, base, hi);
  }

  lemma CellsLength(p: Plane, base: nat)
    ensures |PlaneArrays(p, base).indices| == 6 * CellCount(p)
  {
    var gx, gy := Count(p.gridX), Count(p.gridY);
    FlattenGridLength(CellAt(p, base), gy, gx, 6);
    SixCells(gx, gy);
  }

  lemma SixCells(gx: nat, gy: nat)
    ensures gy * (gx * 6) == 6 * (gx * gy)
  {
  }

  /** Every vertex of the plane lies on its face: the w coordinate is depth / 2. */
  lemma PlaneOnFace(p: Plane, base: nat)
    ensures forall v | v in PlaneArrays(p, base).vertices :: Get(v, p.w) == p.depth / 2.0
  {
    GridCells(VertexAt(p), Rows(p), Cols(p), (v: Vec3) => Get(v, p.w) == p.depth / 2.0);
  }

  predicate InUnitSquare(t: Uv)
  {
    0.0 <= t.u <= 1.0 && 0.0 <= t.v <= 1.0
  }

  /** Every uv of `s` lies in the unit square. */
  predicate AllInUnitSquare(s: seq<Uv>)
  {
    forall t | t in s :: InUnitSquare(t)
  }

  lemma QuotUnit(i: nat, g: int)
    requires 1 <= g && i <= g
    ensures 0.0 <= Quot(i as real, g) <= 1.0
  {
    var q := i as real / g as real;
    assert q * g as real == i as real;
  }

  /** With at least one segment each way, every uv lies in the unit square. */
  lemma PlaneUvsInUnitSquare(p: Plane)
    requires p.gridX >= 1 && p.gridY >= 1
    ensures AllInUnitSquare(Grid(UvAt(p), Rows(p), Cols(p)))
  {
    forall iy: nat, ix: nat | iy < Rows(p) && ix < Cols(p)
      ensures InUnitSquare(PlaneUv(p, iy, ix))
    {
      QuotUnit(ix, p.gridX);
      QuotUnit(iy, p.gridY);
    }
    GridCells(UvAt(p), Rows(p), Cols(p), InUnitSquare);
  }

  // ---------------------------------------------------------------------
  // The box.

  /**
   * The six buildPlane calls, in the order +x, -x, +y, -y, +z, -z, with the
   * floored segment counts.
   */
  function BoxPlanes(width: real, height: real, depth: real, ws: int, hs: int, ds: int): (ps: seq<Plane>)
    ensures |ps| == 6
    ensures forall p | p in ps :: Axes(p)
  {
    [ Plane(Z, Y, X, -1.0, -1.0, depth, height, width, ds, hs),
      Plane(Z, Y, X, 1.0, -1.0, depth, height, -width, ds, hs),
      Plane(X, Z, Y, 1.0, 1.0, width, depth, height, ws, ds),
      Plane(X, Z, Y, 1.0, -1.0, width, depth, -height, ws, ds),
      Plane(X, Y, Z, 1.0, -1.0, width, height, depth, ws, hs),
      Plane(X, Y, Z, -1.0, -1.0, width, height, -depth, ws, hs) ]
  }

  /** The vertices of the first `k` planes of `ps`: where plane `k` starts numbering. */
  function Before(ps: seq<Plane>, k: nat): nat
    requires k <= |ps|
  {
    if k == 0 then 0 else Before(ps, k - 1) + VertexCount(ps[k - 1])
  }

  function CellsBefore(ps: seq<Plane>, k: nat): nat
    requires k <= |ps|
  {
    if k == 0 then 0 else CellsBefore(ps, k - 1) + CellCount(ps[k - 1])
  }

  /** The first `k` planes of `ps` built one after another with one vertex counter. */
  function Build(ps: seq<Plane>, k: nat): Arrays
    requires k <= |ps|
  {
    if k == 0 then NoArrays else Join(Build(ps, k - 1), PlaneArrays(ps[k - 1], Before(ps, k - 1)))
  }

  /** The arrays of the whole box. */
  function BoxOf(width: real, height: real, depth: real, ws: int, hs: int, ds: int): Arrays
  {
    Build(BoxPlanes(width, height, depth, ws, hs, ds), 6)
  }

  /**
   * `new BoxGeometry(width, height, depth, widthSegments, heightSegments,
   * depthSegments)`: the arrays of the six planes, built in order with one
   * shared vertex counter.
   */
  method BoxArrays(width: real, height: real, depth: real, widthSegments: real, heightSegments: real, depthSegments: real)
    returns (out: Arrays)
    ensures out == BoxOf(width, height, depth, widthSegments.Floor, heightSegments.Floor, depthSegments.Floor)
  {
    var ws, hs, ds := widthSegments.Floor, heightSegments.Floor, depthSegments.Floor;
    ghost var ps := BoxPlanes(width, height, depth, ws, hs, ds);
    var n := 0;
    out := NoArrays;
    assert out == Build(ps, 0) && n == Before(ps, 0);
    out, n := PlaneInOrder(Plane(Z, Y, X, -1.0, -1.0, depth, height, width, ds, hs), out, n, ps, 0);
    out, n := PlaneInOrder(Plane(Z, Y, X, 1.0, -1.0, depth, height, -width, ds, hs), out, n, ps, 1);
    out, n := PlaneInOrder(Plane(X, Z, Y, 1.0, 1.0, width, depth, height, ws, ds), out, n, ps, 2);
    out, n := PlaneInOrder(Plane(X, Z, Y, 1.0, -1.0, width, depth, -height, ws, ds), out, n, ps, 3);
    out, n := PlaneInOrder(Plane(X, Y, Z, 1.0, -1.0, width, height, depth, ws, hs), out, n, ps, 4);
    out, n := PlaneInOrder(Plane(X, Y, Z, -1.0, -1.0, width, height, -depth, ws, hs), out, n, ps, 5);
  }

  /** `buildPlane` for plane `k` of `ps`, called after the planes before it. */
  method PlaneInOrder(p: Plane, acc: Arrays, numberOfVertices: nat, ghost ps: seq<Plane>, ghost k: nat)
    returns (out: Arrays, next: nat)
    requires k < |ps| && p == ps[k] && Axes(p)
    requires acc == Build(ps, k) && numberOfVertices == Before(ps, k)
    ensures out == Build(ps, k + 1) && next == Before(ps, k + 1)
  {
    out, next := BuildPlane(p, acc, numberOfVertices);
  }

  /**
   * The box's arrays: as many normals and uvs as vertices, six indices per
   * cell, and every index names a vertex of the plane it belongs to, hence
   * one below the total vertex count.
   */
  lemma {:induction false} BuildShape(ps: seq<Plane>, k: nat)
    requires k <= |ps|
    ensures |Build(ps, k).vertices| == Before(ps, k)
    ensures |Build(ps, k).normals| == Before(ps, k)
    ensures |Build(ps, k).uvs| == Before(ps, k)
    ensures |Build(ps, k).indices| == 6 * CellsBefore(ps, k)
    ensures forall i | i in Build(ps, k).indices :: i < Before(ps, k)
  {
    if k > 0 {
      BuildShape(ps, k - 1);
      PlaneShape(ps[k - 1], Before(ps, k - 1));
    }
  }

  /** Six planes in a row: the counters add up plane by plane. */
  lemma SixTotals(ps: seq<Plane>)
    requires |ps| == 6
    ensures Before(ps, 6) == VertexCount(ps[0]) + VertexCount(ps[1]) + VertexCount(ps[2])
      + VertexCount(ps[3]) + VertexCount(ps[4]) + VertexCount(ps[5])
    ensures CellsBefore(ps, 6) == CellCount(ps[0]) + CellCount(ps[1]) + CellCount(ps[2])
      + CellCount(ps[3]) + CellCount(ps[4]) + CellCount(ps[5])
  {
    assert Before(ps, 1) == VertexCount(ps[0]);
    assert Before(ps, 3) == Before(ps, 1) + VertexCount(ps[1]) + VertexCount(ps[2]);
    assert Before(ps, 5) == Before(ps, 3) + VertexCount(ps[3]) + VertexCount(ps[4]);
    assert CellsBefore(ps, 1) == CellCount(ps[0]);
    assert CellsBefore(ps, 3) == CellsBefore(ps, 1) + CellCount(ps[1]) + CellCount(ps[2]);
    assert CellsBefore(ps, 5) == CellsBefore(ps, 3) + CellCount(ps[3]) + CellCount(ps[4]);
  }

  /** A plane of `gx` by `gy` segments (both at least zero) has (gx+1)(gy+1) vertices and gx*gy cells. */
  lemma PlaneCounts(p: Plane, gx: nat, gy: nat)
    requires p.gridX == gx && p.gridY == gy
    ensures VertexCount(p) == (gx + 1) * (gy + 1)
    ensures CellCount(p) == gx * gy
  {
  }

  /**
   * Vertex and index totals of the box for segment counts w, h, d:
   * 2[(d+1)(h+1) + (w+1)(d+1) + (w+1)(h+1)] vertices and
   * 12(dh + wd + wh) indices.
   */
  lemma BoxCounts(width: real, height: real, depth: real, w: nat, h: nat, d: nat)
    ensures |BoxOf(width, height, depth, w, h, d).vertices| == 2 * ((d + 1) * (h + 1) + (w + 1) * (d + 1) + (w + 1) * (h + 1))
    ensures |BoxOf(width, height, depth, w, h, d).indices| == 12 * (d * h + w * d + w * h)
  {
    var ps := BoxPlanes(width, height, depth, w, h, d);
    BuildShape(ps, 6);
    SixTotals(ps);
    PlaneCounts(ps[0], d, h);
    PlaneCounts(ps[1], d, h);
    PlaneCounts(ps[2], w, d);
    PlaneCounts(ps[3], w, d);
    PlaneCounts(ps[4], w, h);
    PlaneCounts(ps[5], w, h);
  }

  /** Every index of the box names one of its vertices. */
  lemma BoxIndicesInRange(width: real, height: real, depth: real, ws: int, hs: int, ds: int)
    ensures var box := BoxOf(width, height, depth, ws, hs, ds);
      forall i | i in box.indices :: i < |box.vertices|
  {
    BuildShape(BoxPlanes(width, height, depth, ws, hs, ds), 6);
  }

  /**
   * With positive dimensions the six planes' normals are, block by block,
   * +x, -x, +y, -y, +z and -z.
   */
  lemma BoxNormals(width: real, height: real, depth: real, ws: int, hs: int, ds: int)
    requires width > 0.0 && height > 0.0 && depth > 0.0
    ensures var ps := BoxPlanes(width, height, depth, ws, hs, ds);
      var side, top, front := VertexCount(ps[0]), VertexCount(ps[2]), VertexCount(ps[4]);
      BoxOf(width, height, depth, ws, hs, ds).normals ==
        Repeat(Right, side) + Repeat(Vec3(-1.0, 0.0, 0.0), side) + Repeat(Up, top) + Repeat(Down, top)
        + Repeat(Forward, front) + Repeat(Vec3(0.0, 0.0, -1.0), front)
  {
    var ps := BoxPlanes(width, height, depth, ws, hs, ds);
    assert PlaneNormal(ps[0]) == Right && PlaneNormal(ps[1]) == Vec3(-1.0, 0.0, 0.0);
    assert PlaneNormal(ps[2]) == Up && PlaneNormal(ps[3]) == Down;
    assert PlaneNormal(ps[4]) == Forward && PlaneNormal(ps[5]) == Vec3(0.0, 0.0, -1.0);
    assert VertexCount(ps[1]) == VertexCount(ps[0]);
    assert VertexCount(ps[3]) == VertexCount(ps[2]);
    assert VertexCount(ps[5]) == VertexCount(ps[4]);
    assert Build(ps, 1).normals == Repeat(Right, VertexCount(ps[0]));
    assert Build(ps, 2).normals == Build(ps, 1).normals + Repeat(Vec3(-1.0, 0.0, 0.0), VertexCount(ps[0]));
    assert Build(ps, 3).normals == Build(ps, 2).normals + Repeat(Up, VertexCount(ps[2]));
    assert Build(ps, 4).normals == Build(ps, 3).normals + Repeat(Down, VertexCount(ps[2]));
    assert Build(ps, 5).normals == Build(ps, 4).normals + Repeat(Forward, VertexCount(ps[4]));
    assert Build(ps, 6).normals == Build(ps, 5).normals + Repeat(Vec3(0.0, 0.0, -1.0), VertexCount(ps[4]));
  }

  /** Two runs of uvs in the unit square make one. */
  lemma UvsOfJoin(a: seq<Uv>, b: seq<Uv>)
    requires AllInUnitSquare(a) && AllInUnitSquare(b)
    ensures AllInUnitSquare(a + b)
  {
  }

  /** The uvs of the first `k` planes: each plane's grid of uvs, which does not depend on where its vertices start. */
  function BuildUvs(ps: seq<Plane>, k: nat): seq<Uv>
    requires k <= |ps|
  {
    if k == 0 then [] else BuildUvs(ps, k - 1) + Grid(UvAt(ps[k - 1]), Rows(ps[k - 1]), Cols(ps[k - 1]))
  }

  /** The uvs `Build` pushes are `BuildUvs`. */
  lemma {:induction false} BuildUvsIs(ps: seq<Plane>, k: nat)
    requires k <= |ps|
    ensures Build(ps, k).uvs == BuildUvs(ps, k)
  {
    if k > 0 {
      BuildUvsIs(ps, k - 1);
    }
  }

  /** With at least one segment each way, every uv of the first `k` planes lies in the unit square. */
  lemma {:induction false} BuildUvsInUnitSquare(ps: seq<Plane>, k: nat)
    requires k <= |ps|
    requires forall p | p in ps :: p.gridX >= 1 && p.gridY >= 1
    ensures AllInUnitSquare(BuildUvs(ps, k))
  {
    if k > 0 {
      assert ps[k - 1] in ps;
      PlaneUvsInUnitSquare(ps[k - 1]);
      BuildUvsInUnitSquare(ps, k - 1);
      UvsOfJoin(BuildUvs(ps, k - 1), Grid(UvAt(ps[k - 1]), Rows(ps[k - 1]), Cols(ps[k - 1])));
    }
  }

  /** With at least one segment along every edge, every uv of the box lies in the unit square. */
  lemma BoxUvsInUnitSquare(width: real, height: real, depth: real, ws: int, hs: int, ds: int)
    requires ws >= 1 && hs >= 1 && ds >= 1
    ensures forall t | t in BoxOf(width, height, depth, ws, hs, ds).uvs :: InUnitSquare(t)
  {
    BuildUvsIs(BoxPlanes(width, height, depth, ws, hs, ds), 6);
    BuildUvsInUnitSquare(BoxPlanes(width, height, depth, ws, hs, ds), 6);
  }

  /**
   * The box `new BoxGeometry(...)` builds: each argument left `undefined`
   * is 1, and the segment counts are floored.
   */
  function BoxArgs(width: Option<real>, height: Option<real>, depth: Option<real>,
                   widthSegments: Option<real>, heightSegments: Option<real>, depthSegments: Option<real>): (a: Arrays)
    ensures a == BoxOf(width.OrElse(1.0), height.OrElse(1.0), depth.OrElse(1.0),
                       widthSegments.OrElse(1.0).Floor, heightSegments.OrElse(1.0).Floor, depthSegments.OrElse(1.0).Floor)
  {
    BoxOf(width.OrElse(1.0), height.OrElse(1.0), depth.OrElse(1.0),
          widthSegments.OrElse(1.0).Floor, heightSegments.OrElse(1.0).Floor, depthSegments.OrElse(1.0).Floor)
  }

  /**
   * `new BoxGeometry()` with no arguments: the unit cube, one quad per
   * face, with 24 vertices and 36 indices.
   */
  lemma DefaultBox()
    ensures |BoxArgs(None, None, None, None, None, None).vertices| == 24
    ensures |BoxArgs(None, None, None, None, None, None).indices| == 36
  {
    assert (1.0).Floor == 1;
    BoxCounts(1.0, 1.0, 1.0, 1, 1, 1);
  }

  /**
   * The geometry the box hands to `super`: position, normal, uv and a
   * Uint16Array of indices. Normals are supplied, so none are computed.
   */
  method NewBoxGeometry(width: Option<real>, height: Option<real>, depth: Option<real>,
                        widthSegments: Option<real>, heightSegments: Option<real>, depthSegments: Option<real>)
    returns (g: BufferGeometry, arrays: Arrays)
    ensures arrays == BoxArgs(width, height, depth, widthSegments, heightSegments, depthSegments)
    ensures fresh(g) && g.Valid()
    ensures g.normal.strideSize == 12
  {
    arrays := BoxArrays(width.OrElse(1.0), height.OrElse(1.0), depth.OrElse(1.0),
                        widthSegments.OrElse(1.0), heightSegments.OrElse(1.0), depthSegments.OrElse(1.0));
    var props := PropsOf(arrays);
    g := new BufferGeometry(props, props.normal.value);
  }
}
