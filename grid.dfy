// The arrays a geometry generator fills, and the row-major order in which
// nested `for (iy …) for (ix …)` loops visit a grid: the cells in the
// order the loops reach them, and the index lists pushed cell by cell.
module Grids {
  import opened Math3D
  import opened Gpu
  import opened Geometry
  import opened Js

  /** One texture coordinate, pushed as two floats. */
  datatype Uv = Uv(u: real, v: real)

  /**
   * The four arrays a generator pushes into: positions and normals three
   * floats per vertex, uvs two, and the indices.
   */
  datatype Arrays = Arrays(vertices: seq<Vec3>, normals: seq<Vec3>, uvs: seq<Uv>, indices: seq<nat>)

  const NoArrays := Arrays([], [], [], [])

  /** How often `for (let i = 0; i < n; i++)` runs. */
  function Count(n: int): (k: nat)
    ensures n >= 0 ==> k == n
    ensures n < 0 ==> k == 0
  {
    if n < 0 then 0 else n
  }

  /** The first `n` cells of row `iy`. */
  function Row<T>(f: (nat, nat) -> T, iy: nat, n: nat): (s: seq<T>)
    ensures |s| == n
  {
    if n == 0 then [] else Row(f, iy, n - 1) + [f(iy, n - 1)]
  }

  /** Cell `k` of a row is the one the loop computed at step `k`. */
  lemma {:induction false} RowAt<T>(f: (nat, nat) -> T, iy: nat, n: nat, k: nat)
    requires k < n
    ensures Row(f, iy, n)[k] == f(iy, k)
  {
    if k < n - 1 {
      RowAt(f, iy, n - 1, k);
    }
  }

  /** The first `r` rows of `c` cells each, in the order the loops visit them. */
  function Grid<T>(f: (nat, nat) -> T, r: nat, c: nat): (s: seq<T>)
  {
    if r == 0 then [] else Grid(f, r - 1, c) + Row(f, r - 1, c)
  }

  lemma MulStep(r: nat, c: nat)
    requires r > 0
    ensures (r - 1) * c + c == r * c
  {
  }

  /** A grid of `r` rows of `c` cells holds `r * c` cells. */
  lemma {:induction false} GridLength<T>(f: (nat, nat) -> T, r: nat, c: nat)
    ensures |Grid(f, r, c)| == r * c
  {
    if r > 0 {
      GridLength(f, r - 1, c);
      MulStep(r, c);
    }
  }

  lemma {:induction false} RowCells<T>(f: (nat, nat) -> T, iy: nat, n: nat, P: T -> bool)
    requires forall ix: nat :: ix < n ==> P(f(iy, ix))
    ensures forall x | x in Row(f, iy, n) :: P(x)
  {
    if n > 0 {
      RowCells(f, iy, n - 1, P);
    }
  }

  /** Every cell of the grid is f(iy, ix) for some iy < r, ix < c. */
  lemma {:induction false} GridCells<T>(f: (nat, nat) -> T, r: nat, c: nat, P: T -> bool)
    requires forall iy: nat, ix: nat :: iy < r && ix < c ==> P(f(iy, ix))
    ensures forall x | x in Grid(f, r, c) :: P(x)
  {
    if r > 0 {
      GridCells(f, r - 1, c, P);
      RowCells(f, r - 1, c, P);
    }
  }

  /** A grid of one value repeated: `n` copies of `v`. */
  function Repeat<T>(v: T, n: nat): (s: seq<T>)
    ensures |s| == n
    ensures forall x | x in s :: x == v
  {
    seq(n, _ => v)
  }

  /** The lists in `s`, one after the other. */
  function Flatten<T>(s: seq<seq<T>>): seq<T>
  {
    if |s| == 0 then [] else Flatten(s[..|s| - 1]) + s[|s| - 1]
  }

  lemma FlattenSnoc<T>(s: seq<seq<T>>, x: seq<T>)
    ensures Flatten(s + [x]) == Flatten(s) + x
  {
    assert (s + [x])[..|s|] == s;
  }

  lemma {:induction false} FlattenAppend<T>(a: seq<seq<T>>, b: seq<seq<T>>)
    ensures Flatten(a + b) == Flatten(a) + Flatten(b)
  {
    if |b| > 0 {
      var b' := b[..|b| - 1];
      assert a + b == (a + b') + [b[|b| - 1]];
      assert b == b' + [b[|b| - 1]];
      FlattenSnoc(a + b', b[|b| - 1]);
      FlattenSnoc(b', b[|b| - 1]);
      FlattenAppend(a, b');
    } else {
      assert a + b == a;
    }
  }

  /** Lists of `w` elements each flatten to `w` elements per list, list `k` at `k * w`. */
  lemma {:induction false} FlattenAt<T>(s: seq<seq<T>>, w: nat, k: nat, j: nat)
    requires forall l | l in s :: |l| == w
    requires k < |s| && j < w
    ensures |Flatten(s)| == |s| * w
    ensures k * w + j < |Flatten(s)| && Flatten(s)[k * w + j] == s[k][j]
  {
    var n := |s| - 1;
    var init := s[..n];
    assert s[n] in s;
    forall l | l in init
      ensures |l| == w
    {
      assert l in s;
    }
    if k < n {
      FlattenAt(init, w, k, j);
    } else {
      FlattenLength(init, w);
    }
    MulStep(|s|, w);
  }

  lemma {:induction false} FlattenLength<T>(s: seq<seq<T>>, w: nat)
    requires forall l | l in s :: |l| == w
    ensures |Flatten(s)| == |s| * w
  {
    if |s| > 0 {
      var init := s[..|s| - 1];
      assert s[|s| - 1] in s;
      forall l | l in init
        ensures |l| == w
      {
        assert l in s;
      }
      FlattenLength(init, w);
      MulStep(|s|, w);
    }
  }

  /** Flattening keeps every element's bounds. */
  lemma {:induction false} FlattenWithin(s: seq<seq<nat>>, lo: nat, hi: nat)
    requires forall l | l in s :: forall i | i in l :: lo <= i < hi
    ensures forall i | i in Flatten(s) :: lo <= i < hi
  {
    if |s| > 0 {
      var init := s[..|s| - 1];
      forall l | l in init
        ensures forall i | i in l :: lo <= i < hi
      {
        assert l in s;
      }
      FlattenWithin(init, lo, hi);
      assert s[|s| - 1] in s;
    }
  }

  /** A row whose cells all have length `len` flattens to `n * len` elements. */
  lemma {:induction false} FlattenRowLength<T>(f: (nat, nat) -> seq<T>, iy: nat, n: nat, len: nat)
    requires forall ix: nat :: ix < n ==> |f(iy, ix)| == len
    ensures |Flatten(Row(f, iy, n))| == n * len
  {
    if n > 0 {
      FlattenSnoc(Row(f, iy, n - 1), f(iy, n - 1));
      FlattenRowLength(f, iy, n - 1, len);
      MulStep(n, len);
    }
  }

  /** Flattening the next row after `r` rows. */
  lemma GridFlattenStep<T>(f: (nat, nat) -> seq<T>, r: nat, c: nat)
    ensures Flatten(Grid(f, r + 1, c)) == Flatten(Grid(f, r, c)) + Flatten(Row(f, r, c))
  {
    FlattenAppend(Grid(f, r, c), Row(f, r, c));
  }

  /** A grid whose cells all have length `len` flattens to `r * (c * len)` elements. */
  lemma {:induction false} FlattenGridLength<T>(f: (nat, nat) -> seq<T>, r: nat, c: nat, len: nat)
    requires forall iy: nat, ix: nat :: iy < r && ix < c ==> |f(iy, ix)| == len
    ensures |Flatten(Grid(f, r, c))| == r * (c * len)
  {
    GridCells(f, r, c, (l: seq<T>) => |l| == len);
    GridLength(f, r, c);
    FlattenLength(Grid(f, r, c), len);
    MulAssoc(r, c, len);
  }

  lemma MulAssoc(a: nat, b: nat, c: nat)
    ensures (a * b) * c == a * (b * c)
  {
  }

  /** Appending the next cell of row `iy`. */
  lemma RowSnoc<T>(f: (nat, nat) -> T, iy: nat, ix: nat, pre: seq<T>, x: T)
    requires x == f(iy, ix)
    ensures pre + Row(f, iy, ix) + [x] == pre + Row(f, iy, ix + 1)
  {
  }

  /** The row one cell longer. */
  lemma RowNext<T>(f: (nat, nat) -> T, iy: nat, ix: nat, x: T)
    requires x == f(iy, ix)
    ensures Row(f, iy, ix) + [x] == Row(f, iy, ix + 1)
  {
  }

  /** The grid one row longer. */
  lemma GridSnoc<T>(f: (nat, nat) -> T, r: nat, c: nat)
    ensures Grid(f, r + 1, c) == Grid(f, r, c) + Row(f, r, c)
  {
  }

  lemma MulNext(r: nat, c: nat)
    ensures r * c + c == (r + 1) * c
  {
  }

  /** Appending the next row after `r` rows. */
  lemma GridStep<T>(f: (nat, nat) -> T, r: nat, c: nat, pre: seq<T>)
    ensures pre + Grid(f, r, c) + Row(f, r, c) == pre + Grid(f, r + 1, c)
  {
  }

  /** Appending the next row's lists after `r` rows. */
  lemma FlattenGridStep<T>(f: (nat, nat) -> seq<T>, r: nat, c: nat, pre: seq<T>)
    ensures pre + Flatten(Grid(f, r, c)) + Flatten(Row(f, r, c)) == pre + Flatten(Grid(f, r + 1, c))
  {
    GridFlattenStep(f, r, c);
  }

  lemma AppendAssoc<T>(a: seq<T>, b: seq<T>, c: seq<T>, d: seq<T>)
    ensures a + b + c + d == a + (b + (c + d))
  {
  }

  lemma RepeatStep<T>(pre: seq<T>, v: T, n: nat)
    ensures pre + Repeat(v, n) + [v] == pre + Repeat(v, n + 1)
  {
    assert Repeat(v, n) + [v] == Repeat(v, n + 1);
  }

  /** Positions or normals as the Float32Array the generator hands on. */
  function Floats3(vs: seq<Vec3>): (s: seq<real>)
    ensures |s| == 3 * |vs|
  {
    if |vs| == 0 then [] else Floats3(vs[..|vs| - 1]) + Components(vs[|vs| - 1])
  }

  /** Vector `i` sits at 3i, 3i + 1 and 3i + 2. */
  lemma {:induction false} Floats3At(vs: seq<Vec3>, i: nat)
    requires i < |vs|
    ensures Floats3(vs)[3 * i] == vs[i].x && Floats3(vs)[3 * i + 1] == vs[i].y && Floats3(vs)[3 * i + 2] == vs[i].z
  {
    if i < |vs| - 1 {
      Floats3At(vs[..|vs| - 1], i);
    }
  }

  /** Uvs as a Float32Array. */
  function Floats2(uvs: seq<Uv>): (s: seq<real>)
    ensures |s| == 2 * |uvs|
  {
    if |uvs| == 0 then [] else Floats2(uvs[..|uvs| - 1]) + [uvs[|uvs| - 1].u, uvs[|uvs| - 1].v]
  }

  /** Uv `i` sits at 2i and 2i + 1. */
  lemma {:induction false} Floats2At(uvs: seq<Uv>, i: nat)
    requires i < |uvs|
    ensures Floats2(uvs)[2 * i] == uvs[i].u && Floats2(uvs)[2 * i + 1] == uvs[i].v
  {
    if i < |uvs| - 1 {
      Floats2At(uvs[..|uvs| - 1], i);
    }
  }

  /** `new Uint16Array(indices)`: each index is stored modulo 2^16. */
  function Uint16Values(indices: seq<nat>): (s: seq<real>)
    ensures |s| == |indices|
    ensures forall k :: 0 <= k < |s| ==> s[k] == (indices[k] % 0x1_0000) as real
  {
    seq(|indices|, k requires 0 <= k < |indices| => (indices[k] % 0x1_0000) as real)
  }

  /** Below 2^16 vertices, no index wraps. */
  lemma NoWrapBelow(indices: seq<nat>, n: nat)
    requires n <= 0x1_0000
    requires forall i | i in indices :: i < n
    ensures forall k :: 0 <= k < |indices| ==> Uint16Values(indices)[k] == indices[k] as real
  {
    forall k | 0 <= k < |indices|
      ensures Uint16Values(indices)[k] == indices[k] as real
    {
      assert indices[k] in indices;
    }
  }

  /** The props a generator passes to `super`: position, normal, uv and index. */
  function PropsOf(a: Arrays): (p: GeometryProps)
    ensures p.normal.Some? && p.position.Some? && p.index.Some? && p.color.None?
    ensures p.index == Some(Typed(Uint16, Uint16Values(a.indices)))
  {
    GeometryProps(
      position := Some(Typed(Float32, Floats3(a.vertices))),
      uv := Some(Typed(Float32, Floats2(a.uvs))),
      color := None,
      index := Some(Typed(Uint16, Uint16Values(a.indices))),
      normal := Some(Typed(Float32, Floats3(a.normals))))
  }
}
