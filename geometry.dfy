// A buffer geometry: its four vertex buffers and its index buffer, the
// vertex layouts a pipeline is built from, and the per-vertex normals it
// computes from the triangles when none are supplied.
module Geometry {
  import opened Js
  import opened Math3D
  import opened Gpu
  import opened Buffers
  import opened VertexBuffers
  import opened IndexBuffers

  /** The options of `new BufferGeometry(props)`; each is a typed array or absent. */
  datatype GeometryProps = GeometryProps(
    position: Option<Payload>,
    uv: Option<Payload>,
    color: Option<Payload>,
    index: Option<Payload>,
    normal: Option<Payload>)

  /** `new Float32Array()`. */
  const EmptyFloats: Payload := Typed(Float32, [])

  // ---------------------------------------------------------------------
  // computeVertexNormals, on the vertex and index data it reads.

  /** One corner's share of a triangle: its normal and the triangle's area. */
  datatype Weighted = Weighted(normal: Vec3, weight: real)

  /** Vertex `i` of a flat x, y, z array. */
  function Point(vertices: seq<real>, i: nat): Vec3
    requires 3 * i + 2 < |vertices|
  {
    Vec3(vertices[3 * i], vertices[3 * i + 1], vertices[3 * i + 2])
  }

  /** All indices name a vertex of the array. */
  predicate InRange(indices: seq<nat>, n: nat)
  {
    forall j :: 0 <= j < |indices| ==> indices[j] < n
  }

  /**
   * The three corner contributions of triangle `t`: for corners 0, 1 and 2
   * the cross products p01 x p02, p01 x p12 and p20 x p21, each weighted
   * by the triangle's area (`area` stands for Heron's formula on the side
   * lengths, whose square root is not modelled).
   */
  function Corners(vertices: seq<real>, indices: seq<nat>, area: (Vec3, Vec3, Vec3) -> real, t: nat): (c: seq<Weighted>)
    requires |vertices| % 3 == 0 && 3 * t + 2 < |indices| && InRange(indices, |vertices| / 3)
    ensures |c| == 3
  {
    var p0 := Point(vertices, indices[3 * t]);
    var p1 := Point(vertices, indices[3 * t + 1]);
    var p2 := Point(vertices, indices[3 * t + 2]);
    var a := area(p0, p1, p2);
    [ Weighted(Cross(Sub(p1, p0), Sub(p2, p0)), a),
      Weighted(Cross(Sub(p1, p0), Sub(p2, p1)), a),
      Weighted(Cross(Sub(p0, p2), Sub(p1, p2)), a) ]
  }

  /**
   * The three corners of a triangle get the same cross product, the one
   * its first corner forms, and the same weight.
   */
  lemma CornersShareNormal(vertices: seq<real>, indices: seq<nat>, area: (Vec3, Vec3, Vec3) -> real, t: nat, p0: Vec3, p1: Vec3, p2: Vec3)
    requires |vertices| % 3 == 0 && 3 * t + 2 < |indices| && InRange(indices, |vertices| / 3)
    requires Point(vertices, indices[3 * t]) == p0 && Point(vertices, indices[3 * t + 1]) == p1 && Point(vertices, indices[3 * t + 2]) == p2
    ensures var c := Corners(vertices, indices, area, t);
      && c[0].normal == Cross(Sub(p1, p0), Sub(p2, p0))
      && c[1].normal == c[0].normal && c[2].normal == c[0].normal
      && c[0].weight == c[1].weight == c[2].weight
  {
    CrossOfEdges(p0, p1, p2);
  }

  /** The contributions vertex `v` collects from the first `t` triangles, in triangle and corner order. */
  function Contributions(vertices: seq<real>, indices: seq<nat>, area: (Vec3, Vec3, Vec3) -> real, v: nat, t: nat): seq<Weighted>
    requires |vertices| % 3 == 0 && 3 * t <= |indices| && InRange(indices, |vertices| / 3)
  {
    if t == 0 then [] else
    var c := Corners(vertices, indices, area, t - 1);
    Contributions(vertices, indices, area, v, t - 1)
      + (if indices[3 * (t - 1)] == v then [c[0]] else [])
      + (if indices[3 * (t - 1) + 1] == v then [c[1]] else [])
      + (if indices[3 * (t - 1) + 2] == v then [c[2]] else [])
  }

  /** The sum of the first `k` weighted normals. */
  function WeightedSum(cs: seq<Weighted>, k: nat): Vec3
    requires k <= |cs|
  {
    if k == 0 then Zero else Add(WeightedSum(cs, k - 1), Scale(cs[k - 1].normal, cs[k - 1].weight))
  }

  /** The sum of the first `k` weights. */
  function TotalWeight(cs: seq<Weighted>, k: nat): real
    requires k <= |cs|
  {
    if k == 0 then 0.0 else TotalWeight(cs, k - 1) + cs[k - 1].weight
  }

  /** A vertex's normal: the weighted sum divided by the total weight, or the plain sum when that is 0. */
  function Blend(cs: seq<Weighted>): Vec3
  {
    var w := TotalWeight(cs, |cs|);
    if w != 0.0 then Scale(WeightedSum(cs, |cs|), 1.0 / w) else WeightedSum(cs, |cs|)
  }

  /** A vertex collects one contribution per corner that names it. */
  lemma {:induction false} ContributionsCount(vertices: seq<real>, indices: seq<nat>, area: (Vec3, Vec3, Vec3) -> real, v: nat, t: nat)
    requires |vertices| % 3 == 0 && 3 * t <= |indices| && InRange(indices, |vertices| / 3)
    ensures |Contributions(vertices, indices, area, v, t)| == multiset(indices[..3 * t])[v]
    decreases t
  {
    if t > 0 {
      ContributionsCount(vertices, indices, area, v, t - 1);
      ContributionsStep(vertices, indices, area, v, t);
      OccurrencesStep(indices, 3 * (t - 1), v);
    }
  }

  /** One more triangle adds one contribution per corner naming `v`. */
  lemma ContributionsStep(vertices: seq<real>, indices: seq<nat>, area: (Vec3, Vec3, Vec3) -> real, v: nat, t: nat)
    requires |vertices| % 3 == 0 && 0 < t && 3 * t <= |indices| && InRange(indices, |vertices| / 3)
    ensures |Contributions(vertices, indices, area, v, t)| == |Contributions(vertices, indices, area, v, t - 1)|
      + Hit(indices[3 * (t - 1)], v) + Hit(indices[3 * (t - 1) + 1], v) + Hit(indices[3 * (t - 1) + 2], v)
  {
  }

  function Hit(i: nat, v: nat): nat
  {
    if i == v then 1 else 0
  }

  /** Three more indices add one occurrence of `v` per index equal to it. */
  lemma OccurrencesStep(indices: seq<nat>, k: nat, v: nat)
    requires k + 3 <= |indices|
    ensures multiset(indices[..k + 3])[v] == multiset(indices[..k])[v]
      + Hit(indices[k], v) + Hit(indices[k + 1], v) + Hit(indices[k + 2], v)
  {
    assert indices[..k + 3] == indices[..k] + [indices[k]] + [indices[k + 1]] + [indices[k + 2]];
  }

  /** A vertex no triangle uses gets the normal (0, 0, 0). */
  lemma UnusedVertexIsZero(vertices: seq<real>, indices: seq<nat>, area: (Vec3, Vec3, Vec3) -> real, v: nat)
    requires |vertices| % 3 == 0 && |indices| % 3 == 0 && InRange(indices, |vertices| / 3)
    requires v !in indices
    ensures Blend(Contributions(vertices, indices, area, v, |indices| / 3)) == Zero
  {
    ContributionsCount(vertices, indices, area, v, |indices| / 3);
    assert indices[..3 * (|indices| / 3)] == indices;
    assert multiset(indices)[v] == 0;
  }

  /** The sum and total weight of one vertex's contributions: the inner loop of the normal map. */
  method SumContributions(cs: seq<Weighted>) returns (sum: Vec3, weight: real)
    ensures sum == WeightedSum(cs, |cs|) && weight == TotalWeight(cs, |cs|)
  {
    sum := Zero;
    weight := 0.0;
    var k := 0;
    while k < |cs|
      invariant 0 <= k <= |cs|
      invariant sum == WeightedSum(cs, k) && weight == TotalWeight(cs, k)
    {
      sum := Add(sum, Scale(cs[k].normal, cs[k].weight));
      weight := weight + cs[k].weight;
      k := k + 1;
    }
  }

  /**
   * `computeVertexNormals()` on the vertex data `vertices` and index data
   * `indices` it reads: absent data throws a TypeError, a vertex array
   * whose length is not a multiple of 3 a RangeError (the per-vertex
   * array's length), and so does an incomplete last triangle or an index
   * past the last vertex (a TypeError, pushing onto a missing entry).
   * Otherwise vertex `v` gets the blend of its contributions, as three
   * numbers at 3v.
   */
  method ComputeVertexNormals(vertices: Option<seq<real>>, indices: Option<seq<nat>>, area: (Vec3, Vec3, Vec3) -> real)
    returns (r: Result<seq<real>>)
    ensures vertices.None? ==> r == Err(TypeError)
    ensures vertices.Some? && |vertices.value| % 3 != 0 ==> r == Err(RangeError)
    ensures vertices.Some? && |vertices.value| % 3 == 0 ==>
      && (r.Ok? <==> indices.Some? && |indices.value| % 3 == 0 && InRange(indices.value, |vertices.value| / 3))
      && (r.Err? ==> r.error == TypeError)
    ensures r.Ok? ==>
      && |r.value| == |vertices.value|
      && forall v :: 0 <= v < |vertices.value| / 3 ==>
           var n := Blend(Contributions(vertices.value, indices.value, area, v, |indices.value| / 3));
           r.value[3 * v] == n.x && r.value[3 * v + 1] == n.y && r.value[3 * v + 2] == n.z
  {
    if vertices.None? {
      return Err(TypeError);
    }
    var vs := vertices.value;
    if |vs| % 3 != 0 {
      return Err(RangeError);
    }
    if indices.None? {
      return Err(TypeError);
    }
    var ix := indices.value;
    var n := |vs| / 3;
    if !(|ix| % 3 == 0 && forall j :: 0 <= j < |ix| ==> ix[j] < n) {
      return Err(TypeError);
    }
    var tmp := GroupByVertex(vs, ix, area);
    var normals := FlattenNormals(vs, ix, area, tmp);
    r := Ok(normals);
  }

  /** One vertex's contributions after triangle `t`, from those before it. */
  function Extended(vertices: seq<real>, indices: seq<nat>, area: (Vec3, Vec3, Vec3) -> real, v: nat, t: nat, before: seq<Weighted>): seq<Weighted>
    requires |vertices| % 3 == 0 && 3 * t + 2 < |indices| && InRange(indices, |vertices| / 3)
  {
    var c := Corners(vertices, indices, area, t);
    before
      + (if indices[3 * t] == v then [c[0]] else [])
      + (if indices[3 * t + 1] == v then [c[1]] else [])
      + (if indices[3 * t + 2] == v then [c[2]] else [])
  }

  /** The three pushes of one triangle: its corners go to the lists of the vertices they name. */
  method PushTriangle(vertices: seq<real>, indices: seq<nat>, area: (Vec3, Vec3, Vec3) -> real, t: nat, tmp: seq<seq<Weighted>>)
    returns (tmp': seq<seq<Weighted>>)
    requires |vertices| % 3 == 0 && 3 * t + 2 < |indices| && InRange(indices, |vertices| / 3)
    requires |tmp| == |vertices| / 3
    ensures |tmp'| == |tmp|
    ensures forall v :: 0 <= v < |tmp| ==> tmp'[v] == Extended(vertices, indices, area, v, t, tmp[v])
  {
    var c := Corners(vertices, indices, area, t);
    var a, b, d := indices[3 * t], indices[3 * t + 1], indices[3 * t + 2];
    tmp' := tmp[a := tmp[a] + [c[0]]];
    tmp' := tmp'[b := tmp'[b] + [c[1]]];
    tmp' := tmp'[d := tmp'[d] + [c[2]]];
  }

  /** The first loop of the normal map: every vertex's contributions, by vertex. */
  method GroupByVertex(vertices: seq<real>, indices: seq<nat>, area: (Vec3, Vec3, Vec3) -> real) returns (tmp: seq<seq<Weighted>>)
    requires |vertices| % 3 == 0 && |indices| % 3 == 0 && InRange(indices, |vertices| / 3)
    ensures |tmp| == |vertices| / 3
    ensures forall v :: 0 <= v < |tmp| ==> tmp[v] == Contributions(vertices, indices, area, v, |indices| / 3)
  {
    var n := |vertices| / 3;
    tmp := seq(n, _ => []);
    var t := 0;
    while t < |indices| / 3
      invariant 0 <= t <= |indices| / 3 && |tmp| == n
      invariant forall v :: 0 <= v < n ==> tmp[v] == Contributions(vertices, indices, area, v, t)
    {
      tmp := PushTriangle(vertices, indices, area, t, tmp);
      t := t + 1;
    }
  }

  /** The second loop of the normal map: each vertex's blended normal, as three numbers at 3v. */
  method FlattenNormals(vertices: seq<real>, indices: seq<nat>, area: (Vec3, Vec3, Vec3) -> real, tmp: seq<seq<Weighted>>)
    returns (normals: seq<real>)
    requires |vertices| % 3 == 0 && |indices| % 3 == 0 && InRange(indices, |vertices| / 3)
    requires |tmp| == |vertices| / 3
    requires forall v :: 0 <= v < |tmp| ==> tmp[v] == Contributions(vertices, indices, area, v, |indices| / 3)
    ensures |normals| == |vertices|
    ensures forall v :: 0 <= v < |vertices| / 3 ==>
      var b := Blend(Contributions(vertices, indices, area, v, |indices| / 3));
      normals[3 * v] == b.x && normals[3 * v + 1] == b.y && normals[3 * v + 2] == b.z
  {
    normals := [];
    var v := 0;
    while v < |tmp|
      invariant 0 <= v <= |tmp| && |normals| == 3 * v
      invariant forall u :: 0 <= u < v ==>
        var b := Blend(tmp[u]);
        normals[3 * u] == b.x && normals[3 * u + 1] == b.y && normals[3 * u + 2] == b.z
    {
      var sum, weight := SumContributions(tmp[v]);
      var output := if weight != 0.0 then Scale(sum, 1.0 / weight) else sum;
      normals := normals + [output.x, output.y, output.z];
      v := v + 1;
    }
  }

  // ---------------------------------------------------------------------
  // The geometry.

  /** The number of elements of a typed array. */
  function ElementCount(p: Payload): (n: nat)
    ensures p.Typed? ==> n == |p.values|
  {
    match p
    case Typed(_, values) => |values|
    case Matrix4Elements(_) => 16
    case Matrix3Elements(_) => 9
  }

  class BufferGeometry {
    const position: VertexBuffer
    const uv: VertexBuffer
    const normal: VertexBuffer
    const color: VertexBuffer
    const index: IndexBuffer
    const vertexBufferLayouts: seq<VertexBufferLayout>

    /** The vertex buffers sit at locations 0 to 3, and the five buffers are five different buffer objects. */
    predicate Valid()
    {
      && position.location == 0 && uv.location == 1 && normal.location == 2 && color.location == 3
      && |vertexBufferLayouts| == 4
      && position.buf != uv.buf && position.buf != normal.buf && position.buf != color.buf
      && uv.buf != normal.buf && uv.buf != color.buf && normal.buf != color.buf
      && index.buf != position.buf && index.buf != uv.buf && index.buf != normal.buf && index.buf != color.buf
    }

    /**
     * The constructor once the normal data is known: `props.normal`, or
     * what `computeVertexNormals` returned. Position at location 0 with
     * stride 3, uv at 1 with stride 2, normal at 2 and colour at 3 with
     * stride 3 (the colour buffer is also named "normal"); the index buffer
     * is made before the normal buffer.
     */
    constructor(props: GeometryProps, normalData: Payload)
      ensures Valid()
      ensures fresh(position.buf) && fresh(uv.buf) && fresh(normal.buf) && fresh(color.buf) && fresh(index.buf)
      ensures position.name == "position" && position.location == 0 && position.strideLength == 3 && position.format == "float32x3"
      ensures uv.name == "uv" && uv.location == 1 && uv.strideLength == 2 && uv.format == "float32x2"
      ensures normal.name == "normal" && normal.location == 2 && normal.strideLength == 3 && normal.format == "float32x3"
      ensures color.name == "normal" && color.location == 3 && color.strideLength == 3 && color.format == "float32x3"
      ensures position.strideSize == StrideSize(VertexProps(Some("position"), props.position, 0, 3, "float32x3", None))
      ensures uv.strideSize == 2 * ElementBytes(props.uv.OrElse(EmptyFloats))
      ensures normal.strideSize == 3 * ElementBytes(normalData)
      ensures color.strideSize == 3 * ElementBytes(props.color.OrElse(EmptyFloats))
      ensures vertexBufferLayouts == [
        VertexBufferLayout(position.strideSize, [VertexAttribute(0, "float32x3", 0)]),
        VertexBufferLayout(uv.strideSize, [VertexAttribute(1, "float32x2", 0)]),
        VertexBufferLayout(normal.strideSize, [VertexAttribute(2, "float32x3", 0)]),
        VertexBufferLayout(color.strideSize, [VertexAttribute(3, "float32x3", 0)])]
      ensures index.buf.data == None && index.format == "uint32"
      ensures position.buf.buffer == None && uv.buf.buffer == None && normal.buf.buffer == None
      ensures color.buf.buffer == None && index.buf.buffer == None
    {
      var p := new VertexBuffer(VertexProps(Some("position"), props.position, 0, 3, "float32x3", None));
      var u := new VertexBuffer(VertexProps(Some("uv"), Some(props.uv.OrElse(EmptyFloats)), 1, 2, "float32x2", None));
      var c := new VertexBuffer(VertexProps(Some("normal"), Some(props.color.OrElse(EmptyFloats)), 3, 3, "float32x3", None));
      index := new IndexBuffer(props.index, None);
      var n := new VertexBuffer(VertexProps(Some("normal"), Some(normalData), 2, 3, "float32x3", None));
      position, uv, normal, color := p, u, n, c;
      vertexBufferLayouts := [p.bufferLayout, u.bufferLayout, n.bufferLayout, c.bufferLayout];
    }

    /** `get indexCount()`: the length of the index buffer's data; reading it from absent data throws. */
    function IndexCount(): (r: Result<nat>)
      ensures r.Ok? <==> index.buf.data.Some?
      ensures r.Ok? ==> r.value == ElementCount(index.buf.data.value)
      ensures r.Err? ==> r.error == TypeError
    {
      if index.buf.data.Some? then Ok(ElementCount(index.buf.data.value)) else Err(TypeError)
    }

    /** The device buffers `attachVertexBuffer` binds, at slots 0 to 3 in the order position, uv, normal, colour. */
    method AttachVertexBuffer(device: Device, pass: PassEncoder)
      requires Valid()
      modifies position.buf, uv.buf, normal.buf, color.buf, device, pass
      ensures position.buf.buffer.Some? && uv.buf.buffer.Some? && normal.buf.buffer.Some? && color.buf.buffer.Some?
      ensures pass.commands == old(pass.commands) + [
        SetVertexBuffer(0, position.buf.buffer.value), SetVertexBuffer(1, uv.buf.buffer.value),
        SetVertexBuffer(2, normal.buf.buffer.value), SetVertexBuffer(3, color.buf.buffer.value)]
      ensures old(position.buf.buffer).Some? ==> position.buf.buffer == old(position.buf.buffer)
      ensures old(uv.buf.buffer).Some? ==> uv.buf.buffer == old(uv.buf.buffer)
      ensures old(normal.buf.buffer).Some? ==> normal.buf.buffer == old(normal.buf.buffer)
      ensures old(color.buf.buffer).Some? ==> color.buf.buffer == old(color.buf.buffer)
      ensures var n1 := NextAfter(old(position.buf.buffer), old(device.next));
        var n2 := NextAfter(old(uv.buf.buffer), n1);
        var n3 := NextAfter(old(normal.buf.buffer), n2);
        && device.trace == old(device.trace)
             + position.buf.GetBufferCalls(old(position.buf.buffer), old(device.next))
             + uv.buf.GetBufferCalls(old(uv.buf.buffer), n1)
             + normal.buf.GetBufferCalls(old(normal.buf.buffer), n2)
             + color.buf.GetBufferCalls(old(color.buf.buffer), n3)
        && device.next == NextAfter(old(color.buf.buffer), n3)
      ensures Extends(old(device.trace), device.trace)
    {
      position.Attach(device, pass);
      ghost var t1 := device.trace;
      ExtendsAppend(old(device.trace), t1[|old(device.trace)|..]);
      uv.Attach(device, pass);
      ghost var t2 := device.trace;
      ExtendsAppend(t1, t2[|t1|..]);
      normal.Attach(device, pass);
      ghost var t3 := device.trace;
      ExtendsAppend(t2, t3[|t2|..]);
      color.Attach(device, pass);
      ExtendsAppend(t3, device.trace[|t3|..]);
      ExtendsTrans(old(device.trace), t1, t2);
      ExtendsTrans(old(device.trace), t2, t3);
      ExtendsTrans(old(device.trace), t3, device.trace);
    }

    /** `attachIndexBuffer`: bind the index buffer with its format. */
    method AttachIndexBuffer(device: Device, pass: PassEncoder)
      modifies index.buf, device, pass
      ensures index.buf.buffer == Some(Resolved(old(index.buf.buffer), old(device.next)))
      ensures device.next == NextAfter(old(index.buf.buffer), old(device.next))
      ensures device.trace == old(device.trace) + index.buf.GetBufferCalls(old(index.buf.buffer), old(device.next))
      ensures pass.commands == old(pass.commands) + [SetIndexBuffer(index.buf.buffer.value, index.format)]
      ensures Extends(old(device.trace), device.trace)
    {
      index.Attach(device, pass);
      ExtendsAppend(old(device.trace), index.buf.GetBufferCalls(old(index.buf.buffer), old(device.next)));
    }

    /** `destroy()`: release the five device buffers, in the order position, uv, normal, colour, index. */
    method Destroy(device: Device)
      requires Valid()
      modifies position.buf, uv.buf, normal.buf, color.buf, index.buf, device
      ensures position.buf.buffer == None && uv.buf.buffer == None && normal.buf.buffer == None
      ensures color.buf.buffer == None && index.buf.buffer == None
      ensures device.next == old(device.next)
      ensures device.trace == old(device.trace) + DestroyCalls(old(position.buf.buffer)) + DestroyCalls(old(uv.buf.buffer))
        + DestroyCalls(old(normal.buf.buffer)) + DestroyCalls(old(color.buf.buffer)) + DestroyCalls(old(index.buf.buffer))
    {
      position.buf.Destroy(device);
      uv.buf.Destroy(device);
      normal.buf.Destroy(device);
      color.buf.Destroy(device);
      index.buf.Destroy(device);
    }
  }

  /** As constructed, a geometry's index data is absent, so `indexCount` throws. */
  lemma IndexCountThrows(g: BufferGeometry)
    requires g.index.buf.data == None
    ensures g.IndexCount() == Err(TypeError)
  {
  }

  /**
   * `new BufferGeometry(props)`: with `props.normal` given, the geometry;
   * without it the constructor calls `computeVertexNormals`, which reads
   * the vertex and index data the buffers hold. They hold none, since the
   * data is handed on under a key the buffer does not read, so it throws.
   */
  method NewBufferGeometry(props: GeometryProps, area: (Vec3, Vec3, Vec3) -> real) returns (r: Result<BufferGeometry>)
    ensures r.Err? <==> props.normal.None?
    ensures r.Err? ==> r.error == TypeError
    ensures r.Ok? ==>
      && r.value.Valid() && fresh(r.value) && r.value.index.buf.data == None
      && r.value.vertexBufferLayouts[2] == VertexBufferLayout(3 * ElementBytes(props.normal.value), [VertexAttribute(2, "float32x3", 0)])
  {
    if props.normal.Some? {
      var g := new BufferGeometry(props, props.normal.value);
      return Ok(g);
    }
    var normals := ComputeVertexNormals(None, None, area);
    r := Err(normals.error);
  }
}
