// The renderer: the resize decision, the per-frame sequence (resize, camera,
// update callbacks, scene traversal, submit), the pre-order traversal of the
// scene graph, the per-material pipeline cache and the commands each mesh
// records into the render pass.
module Renderers {
  import opened Js
  import opened Math3D
  import opened Gpu
  import opened Buffers
  import opened Uniforms
  import opened Textures
  import opened Materials
  import opened Phong
  import opened Lambert
  import opened Physical
  import opened Skybox
  import opened MaterialKinds
  import opened Cameras
  import opened Geometry
  import opened Scene
  import opened Pipelines
  import opened Frames

  // ---------------------------------------------------------------------
  // The scene graph as a tree.

  /**
   * The scene graph below a node, unfolded into a tree: `node.children`
   * are the roots of `kids`, in order. `add` does not keep the graph a
   * tree: a node added under two parents is the root of two subtrees, and
   * the traversal visits it once under each.
   */
  datatype Tree = Tree(node: SceneNode, kids: seq<Tree>)

  /** The nodes of a tree. */
  ghost function Objs(t: Tree): set<SceneNode>
    decreases t
  {
    {t.node} + (set i, n | 0 <= i < |t.kids| && n in Objs(t.kids[i]) :: n)
  }

  lemma KidObjs(t: Tree, i: nat)
    requires i < |t.kids|
    ensures Objs(t.kids[i]) <= Objs(t)
    ensures t.kids[i].node in Objs(t)
  {
    assert t.kids[i].node in Objs(t.kids[i]);
  }

  /** The `children` of every node in `U` are as `ch` records them. */
  ghost predicate ChildrenAre(U: set<SceneNode>, ch: map<SceneNode, seq<SceneNode>>)
    reads U
  {
    forall n :: n in U ==> n in ch && n.children == ch[n]
  }

  /**
   * `t` unfolds the children lists `ch` below its root: every node's
   * children are the roots of its kids, in order. A graph with a cycle has
   * no finite unfolding, so the traversal of an unfolded graph ends.
   */
  ghost predicate Unfolds(t: Tree, ch: map<SceneNode, seq<SceneNode>>)
    decreases t
  {
    && t.node in ch && |ch[t.node]| == |t.kids|
    && (forall i :: 0 <= i < |t.kids| ==> ch[t.node][i] == t.kids[i].node)
    && (forall i :: 0 <= i < |t.kids| ==> Unfolds(t.kids[i], ch))
  }

  /** The children of an unfolded tree's root are nodes of the tree. */
  lemma ChildrenInTree(t: Tree, ch: map<SceneNode, seq<SceneNode>>)
    requires Unfolds(t, ch)
    ensures forall c :: c in ch[t.node] ==> c in Objs(t)
  {
    forall c | c in ch[t.node]
      ensures c in Objs(t)
    {
      var i :| 0 <= i < |ch[t.node]| && ch[t.node][i] == c;
      KidObjs(t, i);
    }
  }

  /** The children of the root are those of `t`, each kid's subtree unfolds `ch`, and its nodes are among `U`. */
  ghost predicate KidsUnfold(t: Tree, U: set<SceneNode>, ch: map<SceneNode, seq<SceneNode>>)
  {
    && t.node in ch && |ch[t.node]| == |t.kids|
    && forall i :: 0 <= i < |t.kids| ==> ch[t.node][i] == t.kids[i].node && Unfolds(t.kids[i], ch) && Objs(t.kids[i]) <= U
  }

  /** A tree that unfolds `ch` within `U` has kids that do. */
  lemma KidsWithin(t: Tree, U: set<SceneNode>, ch: map<SceneNode, seq<SceneNode>>)
    requires Unfolds(t, ch) && Objs(t) <= U
    ensures t.node in U && KidsUnfold(t, U, ch)
  {
    forall i | 0 <= i < |t.kids|
      ensures Objs(t.kids[i]) <= U
    {
      KidObjs(t, i);
    }
  }

  /** The nodes of the first `i` kids' subtrees. */
  ghost function KidsObjs(t: Tree, i: nat): set<SceneNode>
    requires i <= |t.kids|
  {
    set j, n | 0 <= j < i && n in Objs(t.kids[j]) :: n
  }

  /** Each kid adds its subtree's nodes. */
  lemma KidsObjsStep(t: Tree, i: nat)
    requires i < |t.kids|
    ensures KidsObjs(t, i + 1) == KidsObjs(t, i) + Objs(t.kids[i])
  {
    forall n | n in KidsObjs(t, i + 1)
      ensures n in KidsObjs(t, i) + Objs(t.kids[i])
    {
      var j :| 0 <= j < i + 1 && n in Objs(t.kids[j]);
    }
    forall n | n in Objs(t.kids[i])
      ensures n in KidsObjs(t, i + 1)
    {
    }
  }

  /** The first kids' nodes are among all the kids' nodes, and those among the tree's. */
  lemma KidsObjsWithin(t: Tree, i: nat)
    requires i <= |t.kids|
    ensures KidsObjs(t, i) <= KidsObjs(t, |t.kids|) <= Objs(t) <= {t.node} + KidsObjs(t, |t.kids|)
  {
    forall n | n in Objs(t) && n != t.node
      ensures n in KidsObjs(t, |t.kids|)
    {
      var j :| 0 <= j < |t.kids| && n in Objs(t.kids[j]);
    }
    forall n | n in KidsObjs(t, |t.kids|)
      ensures n in Objs(t)
    {
      var j :| 0 <= j < |t.kids| && n in Objs(t.kids[j]);
      KidObjs(t, j);
    }
  }

  /** An unfolded node is never its own child: a self-loop has no finite unfolding. */
  lemma {:induction false} NotOwnChild(t: Tree, ch: map<SceneNode, seq<SceneNode>>)
    requires Unfolds(t, ch)
    ensures t.node !in ch[t.node]
    decreases t
  {
    forall i | 0 <= i < |t.kids|
      ensures ch[t.node][i] != t.node
    {
      NotOwnChild(t.kids[i], ch);
    }
  }

  /** No node of `S` is marked dirty. */
  ghost predicate Clean(S: set<SceneNode>)
    reads S
  {
    forall n :: n in S ==> !n.matrixNeedsUpdate
  }

  /** Outside `S`, the nodes of `U` marked dirty are exactly those in `D`. */
  ghost predicate DirtyOutside(U: set<SceneNode>, S: set<SceneNode>, D: set<SceneNode>)
    reads U
  {
    forall n :: n in U && n !in S ==> (n.matrixNeedsUpdate <==> n in D)
  }

  /**
   * After the traversal of the first `i` kids: their subtrees' nodes are
   * among `U` and clean, and outside them the dirty nodes of `U` are those
   * of `D`.
   */
  ghost predicate Swept(t: Tree, i: nat, U: set<SceneNode>, D: set<SceneNode>)
    requires i <= |t.kids|
    reads U, KidsObjs(t, i)
  {
    KidsObjs(t, i) <= U && Clean(KidsObjs(t, i)) && DirtyOutside(U, KidsObjs(t, i), D)
  }

  /** From the old state to this one, no dirty flag in `U` outside `S` changed. */
  twostate predicate FlagsKept(U: set<SceneNode>, S: set<SceneNode>)
    reads U
  {
    forall n :: n in U && n !in S ==> n.matrixNeedsUpdate == old(n.matrixNeedsUpdate)
  }

  /** Pre-order, children in insertion order. */
  ghost function PreOrder(t: Tree): seq<SceneNode>
    decreases t, 1
  {
    [t.node] + KidsOrder(t, |t.kids|)
  }

  /** The pre-orders of the first `i` kids, one after the other. */
  ghost function KidsOrder(t: Tree, i: nat): seq<SceneNode>
    requires i <= |t.kids|
    decreases t, 0, i
  {
    if i == 0 then [] else KidsOrder(t, i - 1) + PreOrder(t.kids[i - 1])
  }

  /** The pre-order visits every node of the tree, and nothing else. */
  lemma {:induction false} PreOrderNodes(t: Tree)
    ensures forall n :: n in PreOrder(t) <==> n in Objs(t)
    decreases t, 1
  {
    KidsOrderNodes(t, |t.kids|);
  }

  /** The pre-orders of the first `i` kids visit exactly the nodes of those kids' subtrees. */
  lemma {:induction false} KidsOrderNodes(t: Tree, i: nat)
    requires i <= |t.kids|
    ensures forall n :: n in KidsOrder(t, i) <==> exists j :: 0 <= j < i && n in Objs(t.kids[j])
    decreases t, 0, i
  {
    if i > 0 {
      KidsOrderNodes(t, i - 1);
      PreOrderNodes(t.kids[i - 1]);
    }
  }

  /** The meshes of a node sequence, in order. */
  function Meshes(ns: seq<SceneNode>): (ms: seq<SceneNode>)
  {
    if ns == [] then []
    else Meshes(ns[..|ns| - 1]) + (if ns[|ns| - 1].mesh.Some? then [ns[|ns| - 1]] else [])
  }

  lemma {:induction false} MeshesAppend(a: seq<SceneNode>, b: seq<SceneNode>)
    ensures Meshes(a + b) == Meshes(a) + Meshes(b)
    decreases |b|
  {
    if b == [] {
      assert a + b == a;
    } else {
      assert (a + b)[..|a + b| - 1] == a + b[..|b| - 1];
      MeshesAppend(a, b[..|b| - 1]);
    }
  }

  /** A single node contributes itself when it is a mesh, nothing otherwise. */
  lemma MeshesOne(n: SceneNode)
    ensures Meshes([n]) == if n.mesh.Some? then [n] else []
  {
    assert [n][..0] == [];
  }

  /** Two appends in a row append their concatenation. */
  lemma AppendAssoc(d0: seq<SceneNode>, d1: seq<SceneNode>, d2: seq<SceneNode>, a: seq<SceneNode>, b: seq<SceneNode>, ab: seq<SceneNode>)
    requires d1 == d0 + a && d2 == d1 + b && ab == a + b
    ensures d2 == d0 + ab
  {
  }

  /** A node's own mesh comes first, then its kids' meshes. */
  lemma PreOrderMeshes(t: Tree)
    ensures Meshes(PreOrder(t)) == Meshes([t.node]) + Meshes(KidsOrder(t, |t.kids|))
  {
    MeshesAppend([t.node], KidsOrder(t, |t.kids|));
  }

  /** One more kid: its subtree's meshes come after the earlier kids'. */
  lemma KidsOrderMeshes(t: Tree, i: nat)
    requires i < |t.kids|
    ensures Meshes(KidsOrder(t, i + 1)) == Meshes(KidsOrder(t, i)) + Meshes(PreOrder(t.kids[i]))
  {
    MeshesAppend(KidsOrder(t, i), PreOrder(t.kids[i]));
  }

  /** The meshes of the tree in the order the traversal reaches them: the root's own mesh, then each kid's. */
  ghost function TreeMeshes(t: Tree): seq<SceneNode>
    decreases t, 1
  {
    (if t.node.mesh.Some? then [t.node] else []) + KidsMeshes(t, |t.kids|)
  }

  /** The meshes of the first `i` kids' subtrees, one subtree after the other. */
  ghost function KidsMeshes(t: Tree, i: nat): seq<SceneNode>
    requires i <= |t.kids|
    decreases t, 0, i
  {
    if i == 0 then [] else KidsMeshes(t, i - 1) + TreeMeshes(t.kids[i - 1])
  }

  /** `prefix[j]` holds the meshes of the first `j` kids' subtrees, for every `j` up to the number of kids. */
  ghost predicate Prefixes(t: Tree, prefix: seq<seq<SceneNode>>)
  {
    |prefix| == |t.kids| + 1 && forall j {:trigger KidsMeshes(t, j)} :: 0 <= j <= |t.kids| ==> prefix[j] == KidsMeshes(t, j)
  }

  /** The table of those prefixes. */
  ghost function KidsPrefixes(t: Tree): (prefix: seq<seq<SceneNode>>)
    ensures Prefixes(t, prefix)
  {
    seq(|t.kids| + 1, j requires 0 <= j <= |t.kids| => KidsMeshes(t, j))
  }

  /** Those are the meshes of the pre-order, in order. */
  lemma {:induction false} TreeMeshesPreOrder(t: Tree)
    ensures TreeMeshes(t) == Meshes(PreOrder(t))
    decreases t, 1
  {
    KidsMeshesOrder(t, |t.kids|);
    PreOrderMeshes(t);
    MeshesOne(t.node);
  }

  /** The kids' part of that. */
  lemma {:induction false} KidsMeshesOrder(t: Tree, i: nat)
    requires i <= |t.kids|
    ensures KidsMeshes(t, i) == Meshes(KidsOrder(t, i))
    decreases t, 0, i
  {
    if i > 0 {
      KidsMeshesOrder(t, i - 1);
      TreeMeshesPreOrder(t.kids[i - 1]);
      KidsOrderMeshes(t, i - 1);
    }
  }

  // ---------------------------------------------------------------------
  // Meshes.

  /** The material of a mesh. */
  function MaterialOf(n: SceneNode): MaterialRef
    requires n.mesh.Some?
  {
    n.mesh.value.material
  }

  /** The geometry of a mesh. */
  function GeometryOf(n: SceneNode): BufferGeometry
    requires n.mesh.Some?
  {
    n.mesh.value.geometry
  }

  /** The node's transform uniform is laid out, and a mesh's geometry is well formed. */
  predicate Drawable(n: SceneNode)
  {
    n.Valid() && (n.mesh.Some? ==> n.mesh.value.geometry.Valid())
  }

  /** The Phong materials of the meshes among `ns`. */
  function PhongsOf(ns: set<SceneNode>): set<PhongMaterial>
  {
    set n | n in ns && n.mesh.Some? && n.mesh.value.material.PhongRef? :: n.mesh.value.material.phong
  }

  /** Every mesh among `ns` is drawable and its material ready. */
  ghost predicate MeshesReady(ns: set<SceneNode>)
    reads PhongsOf(ns)
  {
    forall n :: n in ns ==> Drawable(n) && (n.mesh.Some? ==> Ready(n.mesh.value.material))
  }

  /** One drawn mesh: the handles its commands name. */
  datatype Draw = Draw(
    node: SceneNode,
    pipeline: Handle,
    group0: Handle,
    group1: Handle,
    vertexBuffers: seq<Handle>,
    indexBuffer: Handle,
    indexFormat: string,
    indexCount: nat)

  /**
   * What one mesh records, in order: the pipeline, bind group 0 (camera and
   * transform), bind group 1 (the material), the vertex buffers at slots
   * 0, 1, ..., the index buffer, the indexed draw.
   */
  function DrawCommands(d: Draw): (cs: seq<PassCommand>)
    ensures |cs| == 5 + |d.vertexBuffers|
    ensures cs[0] == SetPipeline(d.pipeline) && cs[1] == SetBindGroup(0, d.group0) && cs[2] == SetBindGroup(1, d.group1)
    ensures forall i :: 0 <= i < |d.vertexBuffers| ==> cs[3 + i] == SetVertexBuffer(i, d.vertexBuffers[i])
    ensures cs[|cs| - 2] == SetIndexBuffer(d.indexBuffer, d.indexFormat) && cs[|cs| - 1] == DrawIndexed(d.indexCount)
  {
    [SetPipeline(d.pipeline), SetBindGroup(0, d.group0), SetBindGroup(1, d.group1)]
      + seq(|d.vertexBuffers|, i requires 0 <= i < |d.vertexBuffers| => SetVertexBuffer(i, d.vertexBuffers[i]))
      + [SetIndexBuffer(d.indexBuffer, d.indexFormat), DrawIndexed(d.indexCount)]
  }

  /** The commands of a sequence of draws, one block after the other. */
  function Commands(ds: seq<Draw>): seq<PassCommand>
  {
    if ds == [] then [] else Commands(ds[..|ds| - 1]) + DrawCommands(ds[|ds| - 1])
  }

  /** The nodes of a sequence of draws. */
  function DrawnNodes(ds: seq<Draw>): (ns: seq<SceneNode>)
    ensures |ns| == |ds| && forall i :: 0 <= i < |ds| ==> ns[i] == ds[i].node
  {
    if ds == [] then [] else DrawnNodes(ds[..|ds| - 1]) + [ds[|ds| - 1].node]
  }

  /** `getVertexShaderModule(device)`, then `getFragmentShaderModule(device)`. */
  method ShaderModules(device: Device, cache: ShaderCache, s: ShaderMaterial) returns (vm: Handle, fm: Handle)
    modifies device, cache, s`vertexModule, s`fragmentModule
    ensures s.vertexModule == Some(vm) && s.fragmentModule == Some(fm)
    ensures Extends(old(device.trace), device.trace)
  {
    vm := s.GetVertexShaderModule(cache, device);
    ghost var t1 := device.trace;
    assert Extends(old(device.trace), t1) by {
      if t1 != old(device.trace) {
        assert t1[..|old(device.trace)|] == old(device.trace);
      }
    }
    fm := s.GetFragmentShaderModule(cache, device);
    assert Extends(t1, device.trace) by {
      if device.trace != t1 {
        assert device.trace[..|t1|] == t1;
      }
    }
    ExtendsTrans(old(device.trace), t1, device.trace);
  }

  /**
   * The pipeline was made from the options `_renderMesh` passes: bind-group
   * layouts [camera entry, transform entry] and the material's entries,
   * the geometry's vertex layouts, the material's shader modules, the
   * presentation format, the material's blend state and its primitive
   * state `{cullMode, topology}`, no depth-stencil option.
   */
  ghost predicate BuiltFor(rp: RenderPipeline, m: MaterialRef, cameraEntry: LayoutEntry, nodeEntry: LayoutEntry,
                           layouts: seq<VertexBufferLayout>, format: string, preferred: Option<string>)
    reads Base(m)
  {
    rp.descriptor == DescriptorOf(
      PipelineProps(Some([[cameraEntry, nodeEntry], EntriesOf(m)]), layouts,
        Base(m).vertexModule, Base(m).fragmentModule, Some(format),
        Some(PrimitiveState(Base(m).topology, Base(m).cullMode)), None, Materials.Blend(Base(m).blendMode)),
      preferred, rp.pipelineLayout)
  }

  /**
   * `new RenderPipeline(gpu, props)` for a material met for the first
   * time: bind-group layouts [camera entry, transform entry] and the
   * material's entries, the geometry's vertex layouts, the material's
   * shader modules, the presentation format, its blend state and its
   * primitive state. The layout entries are asked for first.
   */
  method BuildPipeline(device: Device, cache: ShaderCache, m: MaterialRef, g: BufferGeometry,
                       cameraEntry: LayoutEntry, nodeEntry: LayoutEntry, format: string, preferred: Option<string>)
    returns (rp: RenderPipeline)
    requires Ready(m)
    modifies device, cache, Owned(m)
    ensures Ready(m) && Memo(m) == old(Memo(m))
    ensures Base(m).lights == old(Base(m).lights) && (m.PhongRef? ==> m.phong.materialUniform == old(m.phong.materialUniform))
    ensures fresh(rp) && rp.pipelineLayout.Some?
    ensures Base(m).vertexModule.Some? && Base(m).fragmentModule.Some?
    ensures BuiltFor(rp, m, cameraEntry, nodeEntry, g.vertexBufferLayouts, format, preferred)
    ensures Extends(old(device.trace), device.trace)
  {
    var entries, vm, fm := MaterialParts(device, cache, m);
    ghost var t2 := device.trace;
    var props := PipelineProps(Some([[cameraEntry, nodeEntry], entries]), g.vertexBufferLayouts,
      Some(vm), Some(fm), Some(format),
      Some(PrimitiveState(Base(m).topology, Base(m).cullMode)), None, Materials.Blend(Base(m).blendMode));
    rp := new RenderPipeline(device, preferred, props);
    ExtendsTrans(old(device.trace), t2, device.trace);
  }

  /** The material's part of a new pipeline: its layout entries, then its vertex and fragment modules. */
  method MaterialParts(device: Device, cache: ShaderCache, m: MaterialRef) returns (entries: seq<LayoutEntry>, vm: Handle, fm: Handle)
    requires Ready(m)
    modifies device, cache, Owned(m)
    ensures Ready(m) && Memo(m) == old(Memo(m))
    ensures Base(m).lights == old(Base(m).lights) && (m.PhongRef? ==> m.phong.materialUniform == old(m.phong.materialUniform))
    ensures entries == EntriesOf(m)
    ensures Base(m).vertexModule == Some(vm) && Base(m).fragmentModule == Some(fm)
    ensures Extends(old(device.trace), device.trace)
  {
    entries := LayoutEntries(m);
    vm, fm := ShaderModules(device, cache, Base(m));
  }

  /**
   * Bind group 0 of a mesh: `getBindGroupLayout(0)` of the pipeline, the
   * bind-group entries of the camera uniform and of the node's transform
   * uniform (in that order), then `createBindGroup` from them.
   */
  method UniformGroup(device: Device, cu: UniformBuffer, nu: UniformBuffer, pipeline: Handle)
    returns (layout: Handle, group: Handle, ghost entries: seq<BindEntry>)
    modifies device, cu, cu.buf, nu, nu.buf
    ensures Extends(old(device.trace), device.trace) && |device.trace| >= |old(device.trace)| + 2
    ensures device.trace[|old(device.trace)|] == Created(layout, PipelineBindGroupLayout(pipeline, 0))
    ensures device.trace[|device.trace| - 1] == Created(group, BindGroup(layout, entries))
    ensures |entries| == 2 && cu.bindGroupEntry == Some(entries[0]) && nu.bindGroupEntry == Some(entries[1])
    ensures GroupZero(device.trace, pipeline, group)
  {
    layout := device.Create(PipelineBindGroupLayout(pipeline, 0));
    ghost var t1 := device.trace;
    var e0 := cu.GetBindGroupEntry(device);
    ghost var t2 := device.trace;
    var e1 := nu.GetBindGroupEntry(device);
    ghost var t3 := device.trace;
    ExtendsTrans(t1, t2, t3);
    group := device.Create(BindGroup(layout, [e0, e1]));
    entries := [e0, e1];
    ExtendsTrans(old(device.trace), t1, t3);
    assert t3[|old(device.trace)|] == t1[|old(device.trace)|];
    ExtendsTrans(old(device.trace), t3, device.trace);
    assert device.trace[|old(device.trace)|] in device.trace;
  }

  /** The device buffers a geometry's vertex buffers hold, in slot order. */
  function VertexHandles(g: BufferGeometry): seq<Handle>
    reads g.position.buf, g.uv.buf, g.normal.buf, g.color.buf
    requires g.position.buf.buffer.Some? && g.uv.buf.buffer.Some? && g.normal.buf.buffer.Some? && g.color.buf.buffer.Some?
  {
    [g.position.buf.buffer.value, g.uv.buf.buffer.value, g.normal.buf.buffer.value, g.color.buf.buffer.value]
  }

  /**
   * The pass commands of one mesh once its groups are known: pipeline,
   * groups 0 and 1, `attachVertexBuffer`, `attachIndexBuffer`, then
   * `drawIndexed(indexCount)`, where reading `indexCount` throws when the
   * index data is absent (after everything else was recorded).
   */
  method Emit(device: Device, pass: PassEncoder, node: SceneNode, g: BufferGeometry, pipeline: Handle, group0: Handle, group1: Handle)
    returns (st: Status, ghost d: Draw)
    requires g.Valid()
    modifies device, pass, g.position.buf, g.uv.buf, g.normal.buf, g.color.buf, g.index.buf
    ensures Extends(old(device.trace), device.trace)
    ensures st.Thrown? <==> g.IndexCount().Err?
    ensures st.Thrown? ==> st.error == TypeError
    ensures st.Normal? ==>
      && g.position.buf.buffer.Some? && g.uv.buf.buffer.Some? && g.normal.buf.buffer.Some? && g.color.buf.buffer.Some?
      && g.index.buf.buffer.Some?
      && d == Draw(node, pipeline, group0, group1, VertexHandles(g), g.index.buf.buffer.value, g.index.format, g.IndexCount().value)
      && pass.commands == old(pass.commands) + DrawCommands(d)
  {
    ghost var c0 := pass.commands;
    pass.Record(SetPipeline(pipeline));
    pass.Record(SetBindGroup(0, group0));
    pass.Record(SetBindGroup(1, group1));
    ghost var t0 := device.trace;
    g.AttachVertexBuffer(device, pass);
    ghost var t1 := device.trace;
    g.AttachIndexBuffer(device, pass);
    ExtendsTrans(t0, t1, device.trace);
    var count := g.IndexCount();
    if count.Err? {
      st := Thrown(count.error);
      d := Draw(node, pipeline, group0, group1, [], 0, "", 0);
      return;
    }
    pass.Record(DrawIndexed(count.value));
    d := Draw(node, pipeline, group0, group1, VertexHandles(g), g.index.buf.buffer.value, g.index.format, count.value);
    st := Normal;
    DrawCommandsOfMesh(c0, d);
  }

  /** The commands `Emit` records one by one make up `DrawCommands` of a draw with four vertex buffers. */
  lemma DrawCommandsOfMesh(c0: seq<PassCommand>, d: Draw)
    requires |d.vertexBuffers| == 4
    ensures c0 + [SetPipeline(d.pipeline)] + [SetBindGroup(0, d.group0)] + [SetBindGroup(1, d.group1)]
      + [SetVertexBuffer(0, d.vertexBuffers[0]), SetVertexBuffer(1, d.vertexBuffers[1]),
         SetVertexBuffer(2, d.vertexBuffers[2]), SetVertexBuffer(3, d.vertexBuffers[3])]
      + [SetIndexBuffer(d.indexBuffer, d.indexFormat)] + [DrawIndexed(d.indexCount)]
      == c0 + DrawCommands(d)
  {
    var cs := DrawCommands(d);
    assert cs == [cs[0], cs[1], cs[2], cs[3], cs[4], cs[5], cs[6], cs[7], cs[8]];
  }

  /** The browser's `GPUTextureUsage` flags the renderer reads. */
  const COPY_DST_USAGE: real := 2.0
  const TEXTURE_BINDING_USAGE: real := 4.0
  const RENDER_ATTACHMENT_USAGE: real := 16.0

  /** The renderer's cube texture: `[1, 1, 6]` rgba8unorm, usage `TEXTURE_BINDING | COPY_DST | RENDER_ATTACHMENT`, a cube view. */
  const RendererCubemapDescriptor := TextureDescriptor(
    Some(map["size" := Nums([1.0, 1.0, 6.0]), "format" := Str("rgba8unorm"),
             "usage" := Num(TEXTURE_BINDING_USAGE + COPY_DST_USAGE + RENDER_ATTACHMENT_USAGE)]),
    Some(map["dimension" := Str("cube")]),
    None)

  /**
   * What a canvas's `width` or `height` holds: an `unsigned long` that the
   * attribute reflection keeps at most 2^31 - 1.
   */
  type Dimension = n: nat | n < 0x8000_0000

  /** The sizes a canvas falls back to: 300 by 150. */
  const CANVAS_DEFAULT_WIDTH: Dimension := 300
  const CANVAS_DEFAULT_HEIGHT: Dimension := 150

  /**
   * What a canvas holds after its `width` or `height` is set to the number
   * `x`: `x` becomes an `unsigned long` (truncated toward zero, modulo
   * 2^32); a value above 2^31 - 1 is not stored, and the attribute's
   * default `fallback` is stored in its place.
   */
  function CanvasDimension(x: real, fallback: Dimension): (n: Dimension)
    ensures 0.0 <= x < 2147483648.0 ==> n == x.Floor
  {
    var w := Wrap32(Truncate(x));
    if w < 0x8000_0000 then w else fallback
  }

  /** `x` rounded toward zero. */
  function Truncate(x: real): (i: int)
    ensures 0.0 <= x ==> i == x.Floor
    ensures x < 0.0 ==> i == -((-x).Floor)
  {
    if x >= 0.0 then x.Floor else -((-x).Floor)
  }

  /** An integer modulo 2^32, by whole steps of 2^32 toward the range. */
  function Wrap32(i: int): (n: nat)
    ensures n < 0x1_0000_0000
    ensures 0 <= i < 0x1_0000_0000 ==> n == i
    decreases if i < 0 then 1 else 0, if i < 0 then -i else i
  {
    if 0 <= i < 0x1_0000_0000 then i
    else if i < 0 then Wrap32(i + 0x1_0000_0000)
    else Wrap32(i - 0x1_0000_0000)
  }

  /** The stepping is the remainder: `Wrap32(i)` is `i % 2^32`. */
  lemma {:induction false} Wrap32Mod(i: int)
    ensures Wrap32(i) == i % 0x1_0000_0000
    decreases if i < 0 then 1 else 0, if i < 0 then -i else i
  {
    if i < 0 {
      Wrap32Mod(i + 0x1_0000_0000);
    } else if i >= 0x1_0000_0000 {
      Wrap32Mod(i - 0x1_0000_0000);
    }
  }

  /**
   * Any size, in range or not, is truncated toward zero modulo 2^32; the
   * canvas holds that when it is below 2^31 and the default otherwise.
   */
  lemma CanvasDimensionWraps(x: real, fallback: Dimension)
    ensures var w := Truncate(x) % 0x1_0000_0000;
      CanvasDimension(x, fallback) == if w < 0x8000_0000 then w else fallback
  {
    Wrap32Mod(Truncate(x));
  }

  /** A size of 2^31 or 2^32 - 1, or of -1 (which wraps to 2^32 - 1), leaves a canvas at its default. */
  lemma OversizeFallsBack(fallback: Dimension)
    ensures CanvasDimension(2147483648.0, fallback) == fallback
    ensures CanvasDimension(4294967295.5, fallback) == fallback
    ensures CanvasDimension(-1.0, fallback) == fallback
  {
    assert Truncate(-1.0) == -1;
    assert Wrap32(-1) == 0xFFFF_FFFF;
  }

  /** `canvas.width !== x`: the canvas holding `n` is not at size `x`. */
  predicate NeedsResize(n: Dimension, x: real)
  {
    n as real != x
  }

  /**
   * Once the canvas takes a size, it is at that size exactly when the size
   * is a whole number below 2^31. A fractional presentation size (a client
   * width times a fractional device pixel ratio) is truncated on the way
   * in, so every later unforced resize to the same size finds the canvas
   * off by the fraction and resizes again.
   */
  lemma ResizeRepeats(x: real, fallback: Dimension)
    ensures NeedsResize(CanvasDimension(x, fallback), x) <==> !(x.Floor as real == x && 0.0 <= x < 2147483648.0)
  {
    var n := CanvasDimension(x, fallback);
    if 0.0 <= x < 2147483648.0 {
      assert n == x.Floor;
    } else if x < 0.0 {
      assert n as real >= 0.0 > x;
    } else {
      assert n as real < 2147483648.0 <= x;
    }
  }

  /** A canvas already at size `x` holds what setting it to `x` would store. */
  lemma Settled(n: Dimension, x: real, fallback: Dimension)
    requires !NeedsResize(n, x)
    ensures n == CanvasDimension(x, fallback)
  {
    ResizeRepeats(x, fallback);
  }

  /** A client width of 801 at a device pixel ratio of 1.25: the canvas holds 1001 and the size stays 1001.25. */
  lemma FractionalResize()
    ensures CanvasDimension(801.0 * 1.25, CANVAS_DEFAULT_WIDTH) == 1001
    ensures NeedsResize(CanvasDimension(801.0 * 1.25, CANVAS_DEFAULT_WIDTH), 801.0 * 1.25)
  {
    assert 801.0 * 1.25 == 1001.25;
    assert (1001.25).Floor == 1001;
  }

  class Renderer {
    var canvasWidth: Dimension
    var canvasHeight: Dimension
    const scene: SceneNode
    const camera: PerspectiveCamera
    const controls: FrameController
    const cubemap: TextureObject
    const depthTexture: TextureObject
    /** The shader-module cache every material shares. */
    const cache: ShaderCache
    var gpuChecking: bool
    /** `gpu.preferredFormat`, once the device is there. */
    var preferredFormat: Option<string>
    var presentationFormat: string
    var presentationWidth: real
    var presentationHeight: real
    /** `_colorAttachments`; the pass descriptor holds this very array. */
    var colorAttachments: Option<seq<ColorAttachment>>
    /** The depth attachment of `_renderPassDescriptor`. */
    var depthAttachment: Option<DepthAttachment>
    /** `_cachedPipline`, keyed by material object. */
    var pipelines: map<MaterialRef, RenderPipeline>
    /** `_updateCallbacks`, each callback named by a number. */
    var callbacks: seq<nat>
    /** The meshes drawn in the current frame, with the handles their commands named. */
    ghost var draws: seq<Draw>
    /** The update callbacks run so far, in order. */
    ghost var ran: seq<nat>

    /** The camera uniform is laid out. */
    predicate Valid()
    {
      camera.base.Valid()
    }

    /**
     * The colour attachments and the depth attachment are made together:
     * one colour attachment that clears to dark grey and stores (its view
     * is set frame by frame), and a depth attachment that clears to 1 and
     * stores.
     */
    predicate Attached()
      reads this
    {
      && (colorAttachments.Some? <==> depthAttachment.Some?)
      && (colorAttachments.Some? ==>
            |colorAttachments.value| == 1 && colorAttachments.value[0] == ClearAttachment.(view := colorAttachments.value[0].view))
      && (depthAttachment.Some? ==> depthAttachment.value == DepthAttachment(depthAttachment.value.view, "clear", 1.0, "store"))
    }

    /**
     * `new Renderer({canvas, scene, camera})`, up to the device request:
     * the field initialisers make the controller, the cube texture and the
     * (descriptor-less) depth texture, both registered, in that order; then
     * the scene defaults to a new empty node. The renderer waits for the
     * device (`gpuChecking`).
     */
    constructor(registry: TextureRegistry, cache: ShaderCache, canvasWidth: Dimension, canvasHeight: Dimension,
                scene: Option<SceneNode>, camera: PerspectiveCamera)
      requires camera.base.Valid()
      modifies registry
      ensures Valid() && Attached()
      ensures this.canvasWidth == canvasWidth && this.canvasHeight == canvasHeight
      ensures this.cache == cache && this.camera == camera
      ensures scene.Some? ==> this.scene == scene.value
      ensures scene.None? ==>
        && fresh(this.scene) && this.scene.name == "" && this.scene.mesh.None?
        && this.scene.children == [] && this.scene.parent == null
      ensures fresh(controls) && !controls.active && controls.pending == 0 && controls.events == []
      ensures fresh(cubemap) && cubemap.descriptor == Some(RendererCubemapDescriptor) && cubemap.texture == None
      ensures fresh(depthTexture) && depthTexture.descriptor == None && depthTexture.texture == None
      ensures depthTexture.images == None && !depthTexture.loaded
      ensures registry.members == old(registry.members) + {cubemap, depthTexture}
        + (if scene.None? then {this.scene.cubemap} else {})
      ensures gpuChecking && preferredFormat == None && presentationFormat == "bgra8unorm"
      ensures presentationWidth == 0.0 && presentationHeight == 0.0
      ensures colorAttachments == None && depthAttachment == None
      ensures pipelines == map[] && callbacks == [] && draws == [] && ran == []
    {
      this.canvasWidth := canvasWidth;
      this.canvasHeight := canvasHeight;
      controls := new FrameController();
      var cube := new TextureObject(registry, Some(RendererCubemapDescriptor));
      var depth := new TextureObject(registry, None);
      cubemap := cube;
      depthTexture := depth;
      gpuChecking := true;
      preferredFormat := None;
      presentationFormat := "bgra8unorm";
      presentationWidth := 0.0;
      presentationHeight := 0.0;
      colorAttachments := None;
      depthAttachment := None;
      pipelines := map[];
      callbacks := [];
      draws := [];
      ran := [];
      this.cache := cache;
      this.camera := camera;
      if scene.Some? {
        this.scene := scene.value;
      } else {
        var root := new SceneNode(registry, None, None);
        this.scene := root;
      }
    }

    /**
     * The pipeline `cached` holds for the node's material, or a new one
     * built for it when the material is met for the first time (the caller
     * caches it).
     */
    method PipelineFor(device: Device, node: SceneNode, cached: map<MaterialRef, RenderPipeline>) returns (rp: RenderPipeline)
      requires node.mesh.Some? && Ready(MaterialOf(node))
      modifies device, cache, Owned(MaterialOf(node))
      ensures Ready(MaterialOf(node)) && Memo(MaterialOf(node)) == old(Memo(MaterialOf(node)))
      ensures var m := MaterialOf(node); Base(m).lights == old(Base(m).lights) && (m.PhongRef? ==> m.phong.materialUniform == old(m.phong.materialUniform))
      ensures MaterialOf(node) in cached ==> rp == cached[MaterialOf(node)] && unchanged(device)
      ensures MaterialOf(node) !in cached ==>
        && fresh(rp)
        && BuiltFor(rp, MaterialOf(node), camera.base.uniform.layoutEntry, node.uniform.layoutEntry,
             GeometryOf(node).vertexBufferLayouts, presentationFormat, preferredFormat)
      ensures Extends(old(device.trace), device.trace)
    {
      var m := MaterialOf(node);
      if m in cached {
        rp := cached[m];
        return;
      }
      rp := BuildPipeline(device, cache, m, GeometryOf(node), camera.base.uniform.layoutEntry, node.uniform.layoutEntry,
        presentationFormat, preferredFormat);
    }

    /**
     * The first steps of `_renderMesh`: write the node's transform uniform,
     * then take the material's pipeline from `cached`, building one on a
     * miss.
     */
    method MeshPipeline(device: Device, node: SceneNode, cached: map<MaterialRef, RenderPipeline>) returns (rp: RenderPipeline)
      requires Valid() && node.mesh.Some? && Drawable(node) && Ready(MaterialOf(node))
      modifies device, cache, Owned(MaterialOf(node)), node.uniform.buf
      ensures Ready(MaterialOf(node)) && Memo(MaterialOf(node)) == old(Memo(MaterialOf(node)))
      ensures var m := MaterialOf(node); Base(m).lights == old(Base(m).lights) && (m.PhongRef? ==> m.phong.materialUniform == old(m.phong.materialUniform))
      ensures MaterialOf(node) in cached ==> rp == cached[MaterialOf(node)]
    {
      ghost var calls := WriteNodeUniform(device, node, camera.base);
      rp := PipelineFor(device, node, cached);
    }

    /**
     * `_renderMesh(node, pass)`: write the node's transform uniform; take
     * the material's pipeline from the cache, building it on a miss; make
     * bind group 0 from the two uniforms and ask the material for bind
     * group 1 (the renderer's cube texture goes with it); then record the
     * mesh's commands. A material that cannot make its group throws before
     * anything is recorded.
     */
    method RenderMesh(device: Device, node: SceneNode, pass: PassEncoder) returns (st: Status, rp: RenderPipeline)
      requires Valid() && node.mesh.Some? && Drawable(node) && Ready(MaterialOf(node))
      modifies this`pipelines, this`draws, device, pass, cache, Owned(MaterialOf(node))
      modifies MeshBuffers(node, camera.base.uniform), MeshUniforms(node, camera.base.uniform), GroupTextures(MaterialOf(node), cubemap)
      ensures Valid() && Ready(MaterialOf(node))
      ensures pipelines == old(pipelines)[MaterialOf(node) := rp]
      ensures MaterialOf(node) in old(pipelines) ==> rp == old(pipelines)[MaterialOf(node)]
      ensures st.Thrown? ==> st.error == TypeError && draws == old(draws)
      ensures GeometryOf(node).IndexCount().Err? ==> st.Thrown?
      ensures st.Thrown? && GeometryOf(node).IndexCount().Ok? ==> !MaterialOf(node).Plain?
      ensures st.Normal? ==> |draws| == |old(draws)| + 1 && draws[..|old(draws)|] == old(draws)
      ensures st.Normal? ==>
        var d := draws[|old(draws)|];
        && MeshDrawn(d, node, rp.pipeline, d.group0)
        && pass.commands == old(pass.commands) + DrawCommands(d)
    {
      var cached := pipelines;
      assert pass !in Owned(MaterialOf(node)) && this !in Owned(MaterialOf(node));
      rp := MeshPipeline(device, node, cached);
      GroupKept(MaterialOf(node));
      assert MeshBuffers(node, camera.base.uniform) == old(MeshBuffers(node, camera.base.uniform));
      assert MeshUniforms(node, camera.base.uniform) == old(MeshUniforms(node, camera.base.uniform));
      st := RecordMesh(device, node, pass, rp, cached);
    }

    /** The second half of `_renderMesh`: the bind groups and the mesh's commands, and one more draw. */
    method RecordMesh(device: Device, node: SceneNode, pass: PassEncoder, rp: RenderPipeline, cached: map<MaterialRef, RenderPipeline>)
      returns (st: Status)
      requires Valid() && node.mesh.Some? && Drawable(node) && Ready(MaterialOf(node))
      modifies this`pipelines, this`draws, device, pass, Owned(MaterialOf(node))
      modifies MeshBuffers(node, camera.base.uniform), MeshUniforms(node, camera.base.uniform), GroupTextures(MaterialOf(node), cubemap)
      ensures Ready(MaterialOf(node))
      ensures st.Thrown? ==> st.error == TypeError && draws == old(draws)
      ensures GeometryOf(node).IndexCount().Err? ==> st.Thrown?
      ensures st.Thrown? && GeometryOf(node).IndexCount().Ok? ==> !MaterialOf(node).Plain?
      ensures st.Normal? ==> |draws| == |old(draws)| + 1 && draws[..|old(draws)|] == old(draws)
      ensures st.Normal? ==>
        var d := draws[|old(draws)|];
        && MeshDrawn(d, node, rp.pipeline, d.group0)
        && pass.commands == old(pass.commands) + DrawCommands(d)
      ensures pipelines == cached[MaterialOf(node) := rp]
    {
      ghost var drawn := draws;
      ghost var d, grouped;
      st, d, grouped := FinishMesh(device, pass, node, camera.base.uniform, cubemap, rp.pipeline);
      pipelines := cached[MaterialOf(node) := rp];
      draws := if st.Normal? then drawn + [d] else drawn;
    }

    /** `_renderMesh` as one step of the traversal: one more draw, and every mesh of `U` still ready. */
    method DrawMesh(device: Device, pass: PassEncoder, node: SceneNode, ghost U: set<SceneNode>)
      returns (st: Status)
      requires Valid() && node in U && node.mesh.Some? && MeshesReady(U)
      requires pass.commands == Commands(draws) && SharedPipelines(draws, pipelines)
      modifies this`pipelines, this`draws, iset o: object | Loose(o)
      ensures MeshesReady(U)
      ensures Kept(old(pipelines), pipelines) && SharedPipelines(draws, pipelines)
      ensures st.Thrown? ==> st.error == TypeError
      ensures st.Normal? ==> DrawnNodes(draws) == old(DrawnNodes(draws)) + [node] && pass.commands == Commands(draws)
    {
      ghost var drawn := draws;
      var rp;
      st, rp := RenderMesh(device, node, pass);
      ReadyKept(U, MaterialOf(node));
      if st.Normal? {
        MeshDrawnNames(draws[|drawn|], node, rp.pipeline, draws[|drawn|].group0);
        DrawStep(old(pass.commands), pass.commands, drawn, draws);
      }
      SharedStep(drawn, draws, old(pipelines), pipelines, MaterialOf(node), rp);
    }

    /** `DrawMesh`, which leaves every scene node's children as they were. */
    method MeshStep(device: Device, pass: PassEncoder, node: SceneNode, ghost U: set<SceneNode>, ghost ch: map<SceneNode, seq<SceneNode>>)
      returns (st: Status)
      requires Valid() && node in U && node.mesh.Some? && ChildrenAre(U, ch) && MeshesReady(U)
      requires pass.commands == Commands(draws) && SharedPipelines(draws, pipelines)
      modifies this`pipelines, this`draws, iset o: object | Loose(o)
      ensures ChildrenAre(U, ch) && MeshesReady(U)
      ensures Kept(old(pipelines), pipelines) && SharedPipelines(draws, pipelines)
      ensures st.Thrown? ==> st.error == TypeError
      ensures st.Normal? ==> DrawnNodes(draws) == old(DrawnNodes(draws)) + [node] && pass.commands == Commands(draws)
    {
      st := DrawMesh(device, pass, node, U);
    }

    /**
     * `_renderNode(node, pass)` over the tree `t` rooted at `node`:
     * `updateMatrix()`, the mesh's commands when the node is a mesh, then
     * each child's subtree in order. A throw ends the traversal. Drawn are
     * exactly the meshes of the tree in pre-order, each one's commands
     * after the last, and every draw with one material uses the one
     * pipeline cached for it. Every node of the tree ends clean: a
     * recomputed node marks its children dirty before they are visited, so
     * every descendant of a dirty node is recomputed in the same traversal;
     * no flag outside the tree changes.
     */
    method RenderNode(device: Device, pass: PassEncoder, node: SceneNode, ghost t: Tree, ghost U: set<SceneNode>, ghost ch: map<SceneNode, seq<SceneNode>>)
      returns (st: Status)
      requires Valid() && t.node == node && Unfolds(t, ch) && Objs(t) <= U && ChildrenAre(U, ch) && MeshesReady(U)
      requires pass.commands == Commands(draws) && SharedPipelines(draws, pipelines)
      modifies this`pipelines, this`draws, iset o: object | Loose(o)
      modifies U`matrixNeedsUpdate, U`localMatrix, U`worldMatrix
      ensures ChildrenAre(U, ch) && MeshesReady(U)
      ensures Kept(old(pipelines), pipelines) && SharedPipelines(draws, pipelines)
      ensures st.Thrown? ==> st.error == TypeError
      ensures st.Normal? ==> DrawnNodes(draws) == old(DrawnNodes(draws)) + TreeMeshes(t)
      ensures st.Normal? ==> pass.commands == Commands(draws) && Clean(Objs(t))
      ensures FlagsKept(U, Objs(t))
      decreases t, 1, 0
    {
      UpdateNode(node, t, U, ch);
      KidsObjsWithin(t, |t.kids|);
      ghost var D := set n | n in U && n.matrixNeedsUpdate;
      assert KidsObjs(t, 0) == {};
      st := VisitNode(device, pass, node, t, U, ch, D);
    }

    /** The rest of `_renderNode` after `updateMatrix()`: the mesh's commands, then the children's subtrees. */
    method VisitNode(device: Device, pass: PassEncoder, node: SceneNode, ghost t: Tree, ghost U: set<SceneNode>, ghost ch: map<SceneNode, seq<SceneNode>>,
                     ghost D: set<SceneNode>)
      returns (st: Status)
      requires Valid() && t.node == node && Unfolds(t, ch) && Objs(t) <= U && ChildrenAre(U, ch) && MeshesReady(U)
      requires pass.commands == Commands(draws) && SharedPipelines(draws, pipelines) && Swept(t, 0, U, D)
      modifies this`pipelines, this`draws, iset o: object | Loose(o)
      modifies U`matrixNeedsUpdate, U`localMatrix, U`worldMatrix
      ensures ChildrenAre(U, ch) && MeshesReady(U)
      ensures Kept(old(pipelines), pipelines) && SharedPipelines(draws, pipelines)
      ensures st.Thrown? ==> st.error == TypeError
      ensures st.Normal? ==> DrawnNodes(draws) == old(DrawnNodes(draws)) + TreeMeshes(t)
      ensures st.Normal? ==> pass.commands == Commands(draws) && Clean(KidsObjs(t, |t.kids|))
      ensures DirtyOutside(U, KidsObjs(t, |t.kids|), D)
      decreases t, 0, 2
    {
      ghost var drawn := draws;
      st := Normal;
      if node.mesh.Some? {
        st := MeshStep(device, pass, node, U, ch);
        if st.Thrown? {
          return;
        }
      }
      ghost var own := draws;
      ghost var mine: seq<SceneNode> := if node.mesh.Some? then [node] else [];
      assert DrawnNodes(own) == DrawnNodes(drawn) + mine;
      KidsWithin(t, U, ch);
      ghost var prefix := KidsPrefixes(t);
      st := RenderKids(device, pass, node, t, U, ch, prefix, D);
      if st.Thrown? {
        return;
      }
      AppendAssoc(DrawnNodes(drawn), DrawnNodes(own), DrawnNodes(draws), mine, prefix[|t.kids|], TreeMeshes(t));
    }

    /** The loop of `_renderNode` over `node.children`, in order, each child's subtree after the last. */
    method RenderKids(device: Device, pass: PassEncoder, node: SceneNode, ghost t: Tree, ghost U: set<SceneNode>, ghost ch: map<SceneNode, seq<SceneNode>>,
                      ghost prefix: seq<seq<SceneNode>>, ghost D: set<SceneNode>)
      returns (st: Status)
      requires Valid() && t.node == node && node in U && KidsUnfold(t, U, ch) && ChildrenAre(U, ch) && MeshesReady(U) && Prefixes(t, prefix)
      requires Swept(t, 0, U, D)
      requires pass.commands == Commands(draws) && SharedPipelines(draws, pipelines)
      modifies this`pipelines, this`draws, iset o: object | Loose(o)
      modifies U`matrixNeedsUpdate, U`localMatrix, U`worldMatrix
      ensures ChildrenAre(U, ch) && MeshesReady(U)
      ensures Kept(old(pipelines), pipelines) && SharedPipelines(draws, pipelines)
      ensures st.Thrown? ==> st.error == TypeError
      ensures st.Normal? ==> DrawnNodes(draws) == old(DrawnNodes(draws)) + prefix[|t.kids|]
      ensures st.Normal? ==> pass.commands == Commands(draws)
      ensures st.Normal? ==> Clean(KidsObjs(t, |t.kids|))
      ensures DirtyOutside(U, KidsObjs(t, |t.kids|), D)
      decreases t, 0, 1
    {
      var kids := node.children;
      assert kids == ch[node];
      ghost var drawn := draws;
      ghost var cached := pipelines;
      var i := 0;
      st := Normal;
      KidsNoneDrawn(t, prefix, drawn, pass.commands);
      while i < |kids|
        invariant i <= |kids| && st.Normal?
        invariant ChildrenAre(U, ch) && MeshesReady(U) && Kept(cached, pipelines) && SharedPipelines(draws, pipelines)
        invariant KidsDrawn(drawn, prefix[i], draws, pass.commands)
        invariant Swept(t, i, U, D)
      {
        st := RenderKid(device, pass, kids[i], t, i, U, ch, drawn, cached, prefix, D);
        if st.Thrown? {
          return;
        }
        i := i + 1;
      }
    }

    /** One turn of that loop: the subtree of kid `i`, whose meshes go after `acc`, those of the kids before it. */
    method RenderKid(device: Device, pass: PassEncoder, kid: SceneNode, ghost t: Tree, i: nat, ghost U: set<SceneNode>,
                     ghost ch: map<SceneNode, seq<SceneNode>>, ghost drawn: seq<Draw>, ghost cached: map<MaterialRef, RenderPipeline>,
                     ghost prefix: seq<seq<SceneNode>>, ghost D: set<SceneNode>)
      returns (st: Status)
      requires i < |t.kids| && kid == t.kids[i].node
      requires Valid() && Unfolds(t.kids[i], ch) && Objs(t.kids[i]) <= U && ChildrenAre(U, ch) && MeshesReady(U)
      requires Kept(cached, pipelines) && SharedPipelines(draws, pipelines) && Prefixes(t, prefix) && KidsDrawn(drawn, prefix[i], draws, pass.commands)
      requires Swept(t, i, U, D)
      modifies this`pipelines, this`draws, iset o: object | Loose(o)
      modifies U`matrixNeedsUpdate, U`localMatrix, U`worldMatrix
      ensures ChildrenAre(U, ch) && MeshesReady(U)
      ensures Kept(cached, pipelines) && SharedPipelines(draws, pipelines)
      ensures st.Thrown? ==> st.error == TypeError
      ensures st.Normal? ==> KidsDrawn(drawn, prefix[i + 1], draws, pass.commands) && Swept(t, i + 1, U, D)
      ensures DirtyOutside(U, KidsObjs(t, |t.kids|), D)
      decreases t, 0, 0
    {
      ghost var before, done := pipelines, draws;
      st := RenderNode(device, pass, kid, t.kids[i], U, ch);
      KeptTrans(cached, before, pipelines);
      KidsObjsStep(t, i);
      KidsObjsWithin(t, i + 1);
      assert DirtyOutside(U, KidsObjs(t, i + 1), D);
      if st.Thrown? {
        return;
      }
      assert Clean(KidsObjs(t, i + 1)) by {
        forall n | n in KidsObjs(t, i + 1)
          ensures !n.matrixNeedsUpdate
        {
          if n !in Objs(t.kids[i]) {
            assert n in KidsObjs(t, i);
          }
        }
      }
      assert prefix[i + 1] == KidsMeshes(t, i + 1) == KidsMeshes(t, i) + TreeMeshes(t.kids[i]);
      AppendAssoc(DrawnNodes(drawn), DrawnNodes(done), DrawnNodes(draws), prefix[i], TreeMeshes(t.kids[i]), prefix[i + 1]);
    }

    // -------------------------------------------------------------------
    // The frame.

    /** `start()`: the controller starts its loop. */
    method Start()
      modifies controls
      ensures controls.active && controls.pending == old(controls.pending) + 1
      ensures controls.events == old(controls.events) + Ticks(1)
    {
      controls.Start();
    }

    /** `stop()`: the controller pauses. */
    method Stop()
      modifies controls
      ensures !controls.active && controls.pending == old(controls.pending) && controls.events == old(controls.events)
    {
      controls.Pause();
    }

    /** The device request succeeding: the renderer stops waiting and presents in the preferred canvas format. */
    method DeviceReady(format: string)
      modifies this`gpuChecking, this`preferredFormat, this`presentationFormat
      ensures !gpuChecking && preferredFormat == Some(format) && presentationFormat == format
    {
      gpuChecking := false;
      preferredFormat := Some(format);
      presentationFormat := format;
    }

    /** The device request failing: the renderer stops, and keeps waiting for a device, so no frame ever renders. */
    method DeviceFailed()
      modifies controls
      ensures gpuChecking == old(gpuChecking)
      ensures !controls.active && controls.pending == old(controls.pending) && controls.events == old(controls.events)
    {
      Stop();
    }

    /** `onUpdate(callback)`: the callback runs after the camera update of every later frame. */
    method OnUpdate(callback: nat)
      modifies this`callbacks
      ensures callbacks == old(callbacks) + [callback]
    {
      callbacks := callbacks + [callback];
    }

    /**
     * `destroy()`: clear the shared shader-module cache, destroy the scene
     * (see `SceneNode.Destroy`), the camera's uniform buffer and the depth
     * texture. Nothing is created; the calls only release.
     */
    method Destroy(device: Device)
      requires scene.mesh.Some? ==> scene.mesh.value.geometry.Valid()
      requires scene.mesh.None? ==> forall c :: c in scene.children && c.mesh.Some? ==> c.mesh.value.geometry.Valid()
      modifies cache, device, scene.DestroyBuffers(), scene.DestroyMaterials(), camera.base.uniform.buf, depthTexture
      ensures cache.modules == map[]
      ensures camera.base.uniform.buf.buffer == None && depthTexture.texture == None
      ensures scene.Destroyed()
      ensures device.next == old(device.next) && OnlyDestroys(old(device.trace), device.trace)
      ensures old(depthTexture.texture).Some? ==>
        |device.trace| >= 1 && device.trace[|device.trace| - 1] == Issued(DestroyTexture(old(depthTexture.texture).value))
    {
      cache.Clear();
      DestroySceneAndCamera(device, scene, camera.base);
      ghost var t2 := device.trace;
      label released:
      depthTexture.Destroy(device);
      DestroyedKept@released(scene);
      ReleasesDestroy(old(device.trace), t2, old(depthTexture.texture));
    }

    /**
     * `canvas.width = presentationSize.x; canvas.height = presentationSize.y`
     * when `resize` holds: the canvas stores the sizes truncated. Otherwise
     * the canvas is already at the presentation size and keeps it.
     */
    method SetCanvasSize(resize: bool)
      requires resize || (!NeedsResize(canvasWidth, presentationWidth) && !NeedsResize(canvasHeight, presentationHeight))
      modifies this`canvasWidth, this`canvasHeight
      ensures canvasWidth == CanvasDimension(presentationWidth, CANVAS_DEFAULT_WIDTH) && canvasHeight == CanvasDimension(presentationHeight, CANVAS_DEFAULT_HEIGHT)
      ensures !resize ==> canvasWidth == old(canvasWidth) && canvasHeight == old(canvasHeight)
    {
      if resize {
        canvasWidth, canvasHeight := CanvasDimension(presentationWidth, CANVAS_DEFAULT_WIDTH), CanvasDimension(presentationHeight, CANVAS_DEFAULT_HEIGHT);
      } else {
        Settled(canvasWidth, presentationWidth, CANVAS_DEFAULT_WIDTH);
        Settled(canvasHeight, presentationHeight, CANVAS_DEFAULT_HEIGHT);
      }
    }

    /**
     * `_handleResize(force)`: the drawing buffer is the canvas's CSS size
     * (800 by 600 when unknown) times the pixel ratio. When the canvas is
     * not that size, or when forced, the canvas takes it, truncated to an
     * `unsigned long` (a fractional size is never reached, so every call
     * resizes again; see `ResizeRepeats`); the context is configured with
     * the presentation format, the colour attachment and the depth texture
     * are made anew, the camera's aspect becomes the CSS width over the CSS
     * height and its projection is marked stale; the result says whether
     * the size changed. Otherwise nothing changes and the result is
     * `undefined`. The depth texture is released, made at the new size,
     * and made a second time by `getView`, whose descriptor update releases
     * the first one.
     */
    method HandleResize(device: Device, clientWidth: Option<real>, clientHeight: Option<real>, dpr: real, force: bool)
      returns (resized: Option<bool>)
      requires Attached()
      modifies this`canvasWidth, this`canvasHeight, this`presentationWidth, this`presentationHeight
      modifies this`colorAttachments, this`depthAttachment, device, depthTexture, camera`aspect, camera.base`needsUpdateProjectionMatrix
      ensures Attached() && Extends(old(device.trace), device.trace)
      ensures presentationWidth == clientWidth.OrElse(800.0) * dpr && presentationHeight == clientHeight.OrElse(600.0) * dpr
      ensures canvasWidth == CanvasDimension(presentationWidth, CANVAS_DEFAULT_WIDTH) && canvasHeight == CanvasDimension(presentationHeight, CANVAS_DEFAULT_HEIGHT)
      ensures resized ==
        var need := NeedsResize(old(canvasWidth), presentationWidth) || NeedsResize(old(canvasHeight), presentationHeight);
        if need || force then Some(need) else None
      ensures resized.None? ==>
        && unchanged(device, depthTexture) && camera.aspect == old(camera.aspect)
        && camera.base.needsUpdateProjectionMatrix == old(camera.base.needsUpdateProjectionMatrix)
        && colorAttachments == old(colorAttachments) && depthAttachment == old(depthAttachment)
      ensures resized.Some? ==>
        Resized(device, old(device.next), old(device.trace), old(depthTexture.texture), old(depthTexture.loaded),
          old(depthTexture.images), clientWidth.OrElse(800.0), clientHeight.OrElse(600.0))
    {
      var need := MeasureCanvas(clientWidth.OrElse(800.0) * dpr, clientHeight.OrElse(600.0) * dpr, force);
      if !(need || force) {
        return None;
      }
      ApplyResize(device, clientWidth.OrElse(800.0), clientHeight.OrElse(600.0));
      resized := Some(need);
    }

    /**
     * The first steps of `_handleResize`: the presentation size becomes
     * `width` by `height`, a new size is needed when the canvas is not at
     * it, and the canvas takes it when needed or forced.
     */
    method MeasureCanvas(width: real, height: real, force: bool) returns (need: bool)
      modifies this`canvasWidth, this`canvasHeight, this`presentationWidth, this`presentationHeight
      ensures presentationWidth == width && presentationHeight == height
      ensures canvasWidth == CanvasDimension(width, CANVAS_DEFAULT_WIDTH) && canvasHeight == CanvasDimension(height, CANVAS_DEFAULT_HEIGHT)
      ensures need == (NeedsResize(old(canvasWidth), width) || NeedsResize(old(canvasHeight), height))
      ensures !(need || force) ==> canvasWidth == old(canvasWidth) && canvasHeight == old(canvasHeight)
    {
      presentationWidth, presentationHeight := width, height;
      need := NeedsResize(canvasWidth, width) || NeedsResize(canvasHeight, height);
      SetCanvasSize(need || force);
    }

    /**
     * The state the resize branch leaves, from the device's next handle `t`
     * and trace `trace0` and the depth texture's handle, loaded flag and
     * images before it: the colour and depth attachments set, the camera
     * given the CSS aspect `width / height` with its projection marked
     * stale, and the trace extended by the configure call and the depth
     * texture's release, creation and uploads.
     */
    ghost predicate Resized(device: Device, t: Handle, trace0: seq<Call>, texture0: Option<Handle>, loaded0: bool,
                            images0: Option<seq<Image>>, width: real, height: real)
      reads this, device, depthTexture, camera, camera.base
    {
      && colorAttachments == Some([ClearAttachment])
      && depthAttachment == Some(DepthAttachment(t + 2, "clear", 1.0, "store"))
      && camera.aspect == Quotient(width, height)
      && camera.base.needsUpdateProjectionMatrix
      && device.next == t + 3 && depthTexture.texture == Some(t + 1) && depthTexture.view == Some(t + 2)
      && depthTexture.descriptor.Some? && depthTexture.descriptor.value.texture.Some?
      && DepthSized(depthTexture.descriptor.value.texture.value, presentationWidth, presentationHeight)
      && device.trace == trace0 + [Issued(Configure(presentationFormat, "opaque"))]
           + DepthCalls(t, texture0, depthTexture.descriptor.value, loaded0, images0)
    }

    /**
     * The body of the resize branch of `_handleResize`: reconfigure at the
     * presentation size, point the depth attachment at the new depth view,
     * and give the camera the CSS aspect with its projection marked stale.
     */
    method ApplyResize(device: Device, width: real, height: real)
      requires Attached()
      modifies this`colorAttachments, this`depthAttachment, device, depthTexture, camera`aspect, camera.base`needsUpdateProjectionMatrix
      ensures Attached() && Extends(old(device.trace), device.trace)
      ensures Resized(device, old(device.next), old(device.trace), old(depthTexture.texture), old(depthTexture.loaded),
        old(depthTexture.images), width, height)
    {
      var view := Reconfigure(device, presentationWidth, presentationHeight);
      depthAttachment := Some(DepthAttachment(view, "clear", 1.0, "store"));
      camera.aspect := Quotient(width, height);
      camera.base.needsUpdateProjectionMatrix := true;
    }

    /**
     * The resize proper, once a new size is needed: configure the context,
     * set the colour attachment and remake the depth texture.
     */
    method Reconfigure(device: Device, width: real, height: real) returns (view: Handle)
      modifies this`colorAttachments, device, depthTexture
      ensures colorAttachments == Some([ClearAttachment]) && Extends(old(device.trace), device.trace)
      ensures var t := old(device.next);
        && view == t + 2 && device.next == t + 3 && depthTexture.texture == Some(t + 1) && depthTexture.view == Some(view)
        && depthTexture.descriptor.Some? && depthTexture.descriptor.value.texture.Some?
        && DepthSized(depthTexture.descriptor.value.texture.value, width, height)
        && device.trace == old(device.trace) + [Issued(Configure(presentationFormat, "opaque"))]
             + DepthCalls(t, old(depthTexture.texture), depthTexture.descriptor.value, old(depthTexture.loaded), old(depthTexture.images))
    {
      device.Issue(Configure(presentationFormat, "opaque"));
      colorAttachments := Some([ClearAttachment]);
      ghost var t0 := device.trace;
      view := RemakeDepth(device, width, height);
      ExtendsAppend(t0, device.trace[|t0|..]);
      ExtendsAppend(old(device.trace), [Issued(Configure(presentationFormat, "opaque"))]);
      ExtendsTrans(old(device.trace), t0, device.trace);
    }

    /**
     * The depth texture's part of a resize: release it, make it at the
     * drawing-buffer size (forced), then `getView(device)`, which releases
     * that texture and makes a second one to view.
     */
    method RemakeDepth(device: Device, width: real, height: real) returns (view: Handle)
      modifies device, depthTexture
      ensures var t := old(device.next);
        && view == t + 2 && device.next == t + 3 && depthTexture.texture == Some(t + 1) && depthTexture.view == Some(view)
        && depthTexture.descriptor.Some? && depthTexture.descriptor.value.texture.Some?
        && DepthSized(depthTexture.descriptor.value.texture.value, width, height)
        && device.trace == old(device.trace)
             + DepthCalls(t, old(depthTexture.texture), depthTexture.descriptor.value, old(depthTexture.loaded), old(depthTexture.images))
    {
      DepthDescriptor(depthTexture.descriptor, width, height);
      depthTexture.Destroy(device);
      var first := depthTexture.GetTexture(device, true, DepthProps(width, height));
      assert UploadsIfPending(first + 1, depthTexture.loaded, depthTexture.images) == [];
      ghost var t2 := device.trace;
      view := depthTexture.GetView(device, false, map[]);
      assert device.trace == t2 + [Issued(DestroyTexture(first)), Created(first + 1, Texture(depthTexture.descriptor.value.texture.value)),
        Created(view, TextureView(first + 1, depthTexture.descriptor.value.view))];
    }

    /**
     * `colorAttachments[0].view = ctx.getCurrentTexture().createView()`,
     * `createCommandEncoder()`, then `beginRenderPass` with the pass
     * descriptor, which holds the very attachments array.
     */
    method BeginFrame(device: Device, ghost U: set<SceneNode>, ghost ch: map<SceneNode, seq<SceneNode>>)
      returns (pass: PassEncoder, encoder: Handle)
      requires Attached() && colorAttachments.Some? && ChildrenAre(U, ch) && MeshesReady(U)
      modifies this`colorAttachments, this`draws, device
      ensures Attached() && colorAttachments.Some? && depthAttachment.Some? && ChildrenAre(U, ch) && MeshesReady(U)
      ensures fresh(pass) && pass.commands == [] && draws == []
      ensures encoder == old(device.next) + 2 && pass.handle == encoder + 1 && device.next == pass.handle + 1
      ensures colorAttachments == Some([ClearAttachment.(view := Some(old(device.next) + 1))])
      ensures device.trace == old(device.trace)
        + FrameStart(old(device.next), RenderPassDescriptor(colorAttachments.value, depthAttachment.value))
    {
      var current := device.Create(CurrentTexture);
      var view := device.Create(TextureView(current, None));
      colorAttachments := Some([colorAttachments.value[0].(view := Some(view))]);
      encoder := device.Create(CommandEncoder);
      pass := device.BeginRenderPass(encoder, Some(RenderPassDescriptor(colorAttachments.value, depthAttachment.value)));
      draws := [];
    }

    /**
     * `render()`. While the device is awaited, nothing. Otherwise: resize
     * (unforced), update the camera (a singular view-projection throws),
     * run the update callbacks in order, then open the frame (without a
     * first resize there are no attachments yet, and setting the view
     * throws), traverse the scene, end the pass and submit the one command
     * buffer the encoder finishes. Drawn are the scene's meshes in
     * pre-order, and every scene node ends clean.
     */
    method Render(device: Device, clientWidth: Option<real>, clientHeight: Option<real>, dpr: real, singular: Mat -> bool,
                  ghost t: Tree, ghost U: set<SceneNode>, ghost ch: map<SceneNode, seq<SceneNode>>)
      returns (st: Status, ghost pass: PassEncoder?)
      requires Valid() && Attached()
      requires t.node == scene && Unfolds(t, ch) && Objs(t) <= U && ChildrenAre(U, ch) && MeshesReady(U)
      modifies this, iset o: object | Loose(o)
      modifies U`matrixNeedsUpdate, U`localMatrix, U`worldMatrix
      ensures Valid() && Attached() && ChildrenAre(U, ch) && MeshesReady(U)
      ensures old(gpuChecking) ==> st == Normal && unchanged(this, device)
      ensures !old(gpuChecking) ==>
        && presentationWidth == clientWidth.OrElse(800.0) * dpr && presentationHeight == clientHeight.OrElse(600.0) * dpr
        && canvasWidth == CanvasDimension(presentationWidth, CANVAS_DEFAULT_WIDTH) && canvasHeight == CanvasDimension(presentationHeight, CANVAS_DEFAULT_HEIGHT)
      ensures st.Thrown? ==> st.error == SingularMatrix || st.error == TypeError
      ensures st == Thrown(SingularMatrix) ==> ran == old(ran)
      ensures !old(gpuChecking) && st != Thrown(SingularMatrix) ==> ran == old(ran) + old(callbacks)
      ensures
        && !old(gpuChecking) && old(colorAttachments).None? && st != Thrown(SingularMatrix)
        && !NeedsResize(old(canvasWidth), presentationWidth) && !NeedsResize(old(canvasHeight), presentationHeight)
        ==> st == Thrown(TypeError)
      ensures st.Normal? && !old(gpuChecking) ==> pass != null && Framed(device, pass, t) && Clean(Objs(t))
    {
      pass := null;
      if gpuChecking {
        return Normal, pass;
      }
      st, pass := RenderReady(device, clientWidth, clientHeight, dpr, singular, t, U, ch);
    }

    /** `render()` once the device is there. */
    method RenderReady(device: Device, clientWidth: Option<real>, clientHeight: Option<real>, dpr: real, singular: Mat -> bool,
                       ghost t: Tree, ghost U: set<SceneNode>, ghost ch: map<SceneNode, seq<SceneNode>>)
      returns (st: Status, ghost pass: PassEncoder?)
      requires Valid() && Attached() && !gpuChecking
      requires t.node == scene && Unfolds(t, ch) && Objs(t) <= U && ChildrenAre(U, ch) && MeshesReady(U)
      modifies this, iset o: object | Loose(o)
      modifies U`matrixNeedsUpdate, U`localMatrix, U`worldMatrix
      ensures Valid() && Attached() && ChildrenAre(U, ch) && MeshesReady(U)
      ensures presentationWidth == clientWidth.OrElse(800.0) * dpr && presentationHeight == clientHeight.OrElse(600.0) * dpr
      ensures canvasWidth == CanvasDimension(presentationWidth, CANVAS_DEFAULT_WIDTH) && canvasHeight == CanvasDimension(presentationHeight, CANVAS_DEFAULT_HEIGHT)
      ensures st.Thrown? ==> st.error == SingularMatrix || st.error == TypeError
      ensures st == Thrown(SingularMatrix) ==> ran == old(ran)
      ensures st != Thrown(SingularMatrix) ==> ran == old(ran) + old(callbacks)
      ensures
        && old(colorAttachments).None? && st != Thrown(SingularMatrix)
        && !NeedsResize(old(canvasWidth), presentationWidth) && !NeedsResize(old(canvasHeight), presentationHeight)
        ==> st == Thrown(TypeError)
      ensures st.Normal? ==> pass != null && Framed(device, pass, t) && Clean(Objs(t))
    {
      pass := null;
      st := PrepareScene(device, clientWidth, clientHeight, dpr, singular, U, ch);
      if st.Thrown? {
        return;
      }
      ghost var unresized := !NeedsResize(old(canvasWidth), presentationWidth) && !NeedsResize(old(canvasHeight), presentationHeight);
      assert ran == old(ran) + old(callbacks) && (unresized ==> colorAttachments == old(colorAttachments));
      st, pass := OpenAndDraw(device, t, U, ch);
    }

    /**
     * The frame of `render()` after the callbacks: setting the colour
     * attachment's view throws when there are no attachments yet;
     * otherwise the frame is drawn.
     */
    method OpenAndDraw(device: Device, ghost t: Tree, ghost U: set<SceneNode>, ghost ch: map<SceneNode, seq<SceneNode>>)
      returns (st: Status, ghost pass: PassEncoder?)
      requires Valid() && Attached()
      requires t.node == scene && Unfolds(t, ch) && Objs(t) <= U && ChildrenAre(U, ch) && MeshesReady(U)
      modifies this`colorAttachments, this`pipelines, this`draws, iset o: object | Loose(o)
      modifies U`matrixNeedsUpdate, U`localMatrix, U`worldMatrix
      ensures Valid() && Attached() && ChildrenAre(U, ch) && MeshesReady(U)
      ensures st.Thrown? ==> st.error == TypeError
      ensures old(colorAttachments).None? ==> st == Thrown(TypeError)
      ensures unchanged(this`canvasWidth, this`canvasHeight, this`presentationWidth, this`presentationHeight, this`ran)
      ensures st.Normal? ==> pass != null && Framed(device, pass, t) && Clean(Objs(t))
    {
      pass := null;
      if colorAttachments.None? {
        return Thrown(TypeError), pass;
      }
      var p;
      st, p := DrawFrame(device, t, U, ch);
      pass := p;
    }

    /**
     * The steps of `render()` before the pass and the update callbacks:
     * resize (unforced), then update the camera, where a singular
     * view-projection throws.
     */
    method Prepare(device: Device, clientWidth: Option<real>, clientHeight: Option<real>, dpr: real, singular: Mat -> bool)
      returns (st: Status)
      requires Valid() && Attached()
      modifies this`canvasWidth, this`canvasHeight, this`presentationWidth, this`presentationHeight
      modifies this`colorAttachments, this`depthAttachment, this`ran
      modifies device, depthTexture, camera`aspect, camera.base, camera.base.uniform.buf
      ensures Valid() && Attached()
      ensures presentationWidth == clientWidth.OrElse(800.0) * dpr && presentationHeight == clientHeight.OrElse(600.0) * dpr
      ensures canvasWidth == CanvasDimension(presentationWidth, CANVAS_DEFAULT_WIDTH) && canvasHeight == CanvasDimension(presentationHeight, CANVAS_DEFAULT_HEIGHT)
      ensures !NeedsResize(old(canvasWidth), presentationWidth) && !NeedsResize(old(canvasHeight), presentationHeight) ==>
        colorAttachments == old(colorAttachments)
      ensures st.Thrown? ==> st.error == SingularMatrix && ran == old(ran)
      ensures st.Normal? ==> ran == old(ran) + callbacks
    {
      var _ := HandleResize(device, clientWidth, clientHeight, dpr, false);
      st := UpdateCamera(device, singular);
      if st.Normal? {
        ran := ran + callbacks;
      }
    }

    /** `this.camera.update()` as `render()` sees it: a singular view-projection throws. */
    method UpdateCamera(device: Device, singular: Mat -> bool) returns (st: Status)
      requires Valid()
      modifies device, camera.base, camera.base.uniform.buf
      ensures Valid() && (st.Thrown? ==> st.error == SingularMatrix)
    {
      st := camera.UpdateMatrix(device, singular);
    }

    /** `Prepare`, which leaves the scene graph and the materials as they were. */
    method PrepareScene(device: Device, clientWidth: Option<real>, clientHeight: Option<real>, dpr: real, singular: Mat -> bool,
                        ghost U: set<SceneNode>, ghost ch: map<SceneNode, seq<SceneNode>>)
      returns (st: Status)
      requires Valid() && Attached() && ChildrenAre(U, ch) && MeshesReady(U)
      modifies this`canvasWidth, this`canvasHeight, this`presentationWidth, this`presentationHeight
      modifies this`colorAttachments, this`depthAttachment, this`ran
      modifies device, depthTexture, camera`aspect, camera.base, camera.base.uniform.buf
      ensures Valid() && Attached() && ChildrenAre(U, ch) && MeshesReady(U)
      ensures presentationWidth == clientWidth.OrElse(800.0) * dpr && presentationHeight == clientHeight.OrElse(600.0) * dpr
      ensures canvasWidth == CanvasDimension(presentationWidth, CANVAS_DEFAULT_WIDTH) && canvasHeight == CanvasDimension(presentationHeight, CANVAS_DEFAULT_HEIGHT)
      ensures !NeedsResize(old(canvasWidth), presentationWidth) && !NeedsResize(old(canvasHeight), presentationHeight) ==>
        colorAttachments == old(colorAttachments)
      ensures st.Thrown? ==> st.error == SingularMatrix && ran == old(ran)
      ensures st.Normal? ==> ran == old(ran) + callbacks
    {
      st := Prepare(device, clientWidth, clientHeight, dpr, singular);
    }

    /**
     * The frame of `render()` once the pass is open: it holds the commands
     * of the scene's meshes in pre-order and an `end`, and the one command
     * buffer the pass's encoder finishes is submitted last.
     */
    ghost predicate Framed(device: Device, pass: PassEncoder, t: Tree)
      reads this, device, pass
    {
      && DrawnNodes(draws) == TreeMeshes(t)
      && pass.commands == Commands(draws) + [End]
      && Submitted(device, pass)
    }

    /** Open the pass (`BeginFrame`), traverse the scene into it, end it and submit the encoder's command buffer. */
    method DrawFrame(device: Device, ghost t: Tree, ghost U: set<SceneNode>, ghost ch: map<SceneNode, seq<SceneNode>>)
      returns (st: Status, pass: PassEncoder)
      requires Valid() && Attached() && colorAttachments.Some?
      requires t.node == scene && Unfolds(t, ch) && Objs(t) <= U && ChildrenAre(U, ch) && MeshesReady(U)
      modifies this`colorAttachments, this`pipelines, this`draws, iset o: object | Loose(o)
      modifies U`matrixNeedsUpdate, U`localMatrix, U`worldMatrix
      ensures Attached() && ChildrenAre(U, ch) && MeshesReady(U)
      ensures st.Thrown? ==> st.error == TypeError
      ensures st.Normal? ==> Framed(device, pass, t) && Clean(Objs(t))
    {
      var encoder;
      pass, encoder := BeginFrame(device, U, ch);
      assert DrawnNodes(draws) == [] && SharedPipelines(draws, pipelines);
      label begun:
      st := RenderNode(device, pass, scene, t, U, ch);
      assert unchanged@begun(this`colorAttachments, this`depthAttachment);
      if st.Thrown? {
        return;
      }
      assert DrawnNodes(draws) == TreeMeshes(t) && pass.commands == Commands(draws);
      EndAndSubmit(device, pass, encoder, U, ch, Objs(t));
    }
  }

  /** `passEncoder.end()`, then `device.queue.submit([commandEncoder.finish()])`; the scene is untouched. */
  method EndAndSubmit(device: Device, pass: PassEncoder, encoder: Handle, ghost U: set<SceneNode>, ghost ch: map<SceneNode, seq<SceneNode>>,
                      ghost S: set<SceneNode>)
    requires ChildrenAre(U, ch) && MeshesReady(U) && Clean(S)
    modifies device, pass
    ensures ChildrenAre(U, ch) && MeshesReady(U) && Clean(S)
    ensures pass.commands == old(pass.commands) + [End]
    ensures device.next == old(device.next) + 1
    ensures device.trace == old(device.trace) + [Created(old(device.next), CommandBuffer(encoder)), Issued(Submit([old(device.next)]))]
    ensures pass.handle == encoder + 1 ==> Submitted(device, pass)
  {
    pass.Record(End);
    var buffer := device.Create(CommandBuffer(encoder));
    device.Issue(Submit([buffer]));
  }

  /**
   * The last two calls on the device: the pass's command encoder
   * finished into a command buffer, and that buffer submitted.
   */
  ghost predicate Submitted(device: Device, pass: PassEncoder)
    reads device
  {
    && pass.handle >= 1 && device.next >= 1 && |device.trace| >= 2
    && device.trace[|device.trace| - 2..] ==
         [Created(device.next - 1, CommandBuffer(pass.handle - 1)), Issued(Submit([device.next - 1]))]
  }

  /**
   * `node.updateMatrix()` in the traversal: the node ends clean (a dirty
   * one marks its children, which are not itself), and only transforms and
   * dirty flags of the tree's nodes change.
   */
  method UpdateNode(node: SceneNode, ghost t: Tree, ghost U: set<SceneNode>, ghost ch: map<SceneNode, seq<SceneNode>>)
    requires t.node == node && Unfolds(t, ch) && Objs(t) <= U && ChildrenAre(U, ch) && MeshesReady(U)
    modifies U`matrixNeedsUpdate, U`localMatrix, U`worldMatrix
    ensures ChildrenAre(U, ch) && MeshesReady(U)
    ensures !node.matrixNeedsUpdate && FlagsKept(U, Objs(t))
  {
    ChildrenInTree(t, ch);
    NotOwnChild(t, ch);
    node.UpdateMatrix(false);
  }

  /** Releasing more buffers and setting no shader module keeps a node destroyed. */
  twostate lemma DestroyedKept(n: SceneNode)
    requires old(n.Destroyed())
    requires unchanged(n)
    requires forall b: BufferObject :: old(allocated(b)) ==> b.buffer == old(b.buffer) || b.buffer == None
    requires forall s: ShaderMaterial :: old(allocated(s)) ==>
      s.vertexModule == old(s.vertexModule) && s.fragmentModule == old(s.fragmentModule)
    ensures n.Destroyed()
  {
    if n.mesh.None? {
      forall c | c in n.children && c.mesh.Some?
        ensures Released(c)
      {
        assert old(Released(c));
      }
    }
  }

  /**
   * The first steps of the renderer's `destroy` after the cache is
   * cleared: `scene.destroy()`, then the camera's `destroy()`. The camera's
   * buffer may be one the scene released; it is released again, so all
   * that the scene released stays released.
   */
  method DestroySceneAndCamera(device: Device, scene: SceneNode, camera: Camera)
    requires scene.mesh.Some? ==> scene.mesh.value.geometry.Valid()
    requires scene.mesh.None? ==> forall c :: c in scene.children && c.mesh.Some? ==> c.mesh.value.geometry.Valid()
    modifies device, scene.DestroyBuffers(), scene.DestroyMaterials(), camera.uniform.buf
    ensures camera.uniform.buf.buffer == None
    ensures scene.Destroyed()
    ensures device.next == old(device.next) && OnlyReleases(old(device.trace), device.trace)
  {
    scene.Destroy(device);
    label sceneDestroyed:
    ghost var t1 := device.trace;
    camera.Destroy(device);
    DestroyedKept@sceneDestroyed(scene);
    DestroyCallsRelease(t1, old@sceneDestroyed(camera.uniform.buf.buffer));
    OnlyReleasesTrans(old(device.trace), t1, device.trace);
  }

  /**
   * The objects outside the scene graph and the renderer: buffers,
   * uniforms, textures, materials, the device, the pass and the shader
   * cache. The traversal's frame takes all of them.
   */
  ghost predicate Loose(o: object)
  {
    !(o is SceneNode) && !(o is Renderer)
  }

  /** `_colorAttachments[0]` as `_handleResize` makes it: no view yet, stored, cleared to dark grey. */
  const ClearAttachment := ColorAttachment(None, "store", "clear", ClearColor(0.1, 0.1, 0.1, 1.0))

  /** The depth texture `_handleResize` asks for: the drawing-buffer size, `depth24plus`, usage `RENDER_ATTACHMENT`. */
  function DepthProps(width: real, height: real): Props
  {
    map["size" := Nums([width, height]), "format" := Str("depth24plus"), "usage" := Num(RENDER_ATTACHMENT_USAGE)]
  }

  /** A texture descriptor with the entries of `DepthProps`. */
  predicate DepthSized(p: Props, width: real, height: real)
  {
    && "size" in p && p["size"] == Nums([width, height])
    && "format" in p && p["format"] == Str("depth24plus")
    && "usage" in p && p["usage"] == Num(RENDER_ATTACHMENT_USAGE)
  }

  /**
   * The descriptor after `getTexture(device, true, DepthProps(w, h))` holds
   * those entries, and `getView(device)` (an empty view descriptor, then an
   * empty texture descriptor) leaves the texture part as it was.
   */
  lemma DepthDescriptor(d0: Option<TextureDescriptor>, width: real, height: real)
    ensures var d1 := Updated(d0, TextureDescriptor(Some(DepthProps(width, height)), None, None));
      var d := Updated(Some(Updated(Some(d1), TextureDescriptor(None, Some(map[]), None))), TextureDescriptor(Some(map[]), None, None));
      && d1.texture.Some? && DepthSized(d1.texture.value, width, height) && d.texture == d1.texture
  {
    var d1 := Updated(d0, TextureDescriptor(Some(DepthProps(width, height)), None, None));
    assert d1.texture.value + map[] == d1.texture.value;
  }

  /**
   * The calls remaking the depth texture from handle `t` on, given its old
   * texture, its new descriptor `d` and its upload state: the release, the
   * first texture (and its uploads, if pending), the release of that
   * texture, the second texture and its view.
   */
  function DepthCalls(t: Handle, released: Option<Handle>, d: TextureDescriptor, loaded: bool, images: Option<seq<Image>>): seq<Call>
    requires d.texture.Some?
  {
    ReleaseCalls(released) + [Created(t, Texture(d.texture.value))] + UploadsIfPending(t, loaded, images)
      + [Issued(DestroyTexture(t)), Created(t + 1, Texture(d.texture.value)), Created(t + 2, TextureView(t + 1, d.view))]
  }

  /** What opening a frame creates, from handle `h` on: the current texture, its view, the encoder, the pass. */
  function FrameStart(h: Handle, desc: RenderPassDescriptor): (calls: seq<Call>)
    ensures |calls| == 4
  {
    [Created(h, CurrentTexture), Created(h + 1, TextureView(h, None)), Created(h + 2, CommandEncoder),
     Created(h + 3, RenderPass(h + 2, Some(desc)))]
  }

  /** Since `t0`, the trace only released buffers and textures. */
  ghost predicate OnlyDestroys(t0: seq<Call>, t: seq<Call>)
  {
    && |t0| <= |t| && t[..|t0|] == t0
    && forall k :: |t0| <= k < |t| ==> t[k].Issued? && (t[k].command.DestroyBuffer? || t[k].command.DestroyTexture?)
  }

  lemma ReleasesDestroy(t0: seq<Call>, t1: seq<Call>, x: Option<Handle>)
    requires OnlyReleases(t0, t1)
    ensures OnlyDestroys(t0, t1 + ReleaseCalls(x))
  {
    assert (t1 + ReleaseCalls(x))[..|t0|] == t1[..|t0|];
  }

  /**
   * Since the draws `drawn`, the draws `ds` add the meshes `acc` in
   * order, and the pass holds one command block per draw.
   */
  ghost predicate KidsDrawn(drawn: seq<Draw>, acc: seq<SceneNode>, ds: seq<Draw>, cmds: seq<PassCommand>)
  {
    cmds == Commands(ds) && DrawnNodes(ds) == DrawnNodes(drawn) + acc
  }

  /** Before the loop no kid is drawn. */
  lemma KidsNoneDrawn(t: Tree, prefix: seq<seq<SceneNode>>, drawn: seq<Draw>, cmds: seq<PassCommand>)
    requires Prefixes(t, prefix) && cmds == Commands(drawn)
    ensures KidsDrawn(drawn, prefix[0], drawn, cmds)
  {
    assert prefix[0] == KidsMeshes(t, 0) == [];
    assert DrawnNodes(drawn) + [] == DrawnNodes(drawn);
  }

  /** Every draw so far used the pipeline the cache holds for its mesh's material. */
  ghost predicate SharedPipelines(ds: seq<Draw>, ps: map<MaterialRef, RenderPipeline>)
  {
    forall i :: 0 <= i < |ds| ==>
      ds[i].node.mesh.Some? && MaterialOf(ds[i].node) in ps && ds[i].pipeline == ps[MaterialOf(ds[i].node)].pipeline
  }

  /** The cache `p` holds every entry of `p0`, unchanged. */
  ghost predicate Kept(p0: map<MaterialRef, RenderPipeline>, p: map<MaterialRef, RenderPipeline>)
  {
    forall m :: m in p0 ==> m in p && p[m] == p0[m]
  }

  /** Two meshes drawn with the same material used one pipeline, whatever their geometries. */
  lemma SamePipeline(ds: seq<Draw>, ps: map<MaterialRef, RenderPipeline>, i: nat, j: nat)
    requires SharedPipelines(ds, ps) && i < |ds| && j < |ds|
    requires ds[i].node.mesh.Some? && ds[j].node.mesh.Some? && MaterialOf(ds[i].node) == MaterialOf(ds[j].node)
    ensures ds[i].pipeline == ds[j].pipeline
  {
  }

  /** One more draw: its commands go after the others', its node after theirs. */
  lemma DrawsSnoc(ds: seq<Draw>, d: Draw)
    ensures Commands(ds + [d]) == Commands(ds) + DrawCommands(d)
    ensures DrawnNodes(ds + [d]) == DrawnNodes(ds) + [d.node]
  {
    assert (ds + [d])[..|ds|] == ds;
  }

  /** Keeping every entry is transitive. */
  lemma KeptTrans(p0: map<MaterialRef, RenderPipeline>, p1: map<MaterialRef, RenderPipeline>, p2: map<MaterialRef, RenderPipeline>)
    requires Kept(p0, p1) && Kept(p1, p2)
    ensures Kept(p0, p2)
  {
  }

  /** One more draw whose commands went after the others': the commands and the drawn nodes of all the draws. */
  lemma DrawStep(c0: seq<PassCommand>, c: seq<PassCommand>, ds0: seq<Draw>, ds: seq<Draw>)
    requires c0 == Commands(ds0) && |ds| == |ds0| + 1 && ds[..|ds0|] == ds0
    requires c == c0 + DrawCommands(ds[|ds0|])
    ensures c == Commands(ds) && DrawnNodes(ds) == DrawnNodes(ds0) + [ds[|ds0|].node]
  {
    assert ds == ds0 + [ds[|ds0|]];
    DrawsSnoc(ds0, ds[|ds0|]);
  }

  /**
   * Caching `rp` for `m` (or finding it cached) and drawing one more mesh
   * of material `m` with its pipeline keeps every draw on the pipeline
   * cached for its material.
   */
  lemma SharedStep(ds0: seq<Draw>, ds: seq<Draw>, ps0: map<MaterialRef, RenderPipeline>, ps: map<MaterialRef, RenderPipeline>,
                   m: MaterialRef, rp: RenderPipeline)
    requires SharedPipelines(ds0, ps0)
    requires ps == ps0[m := rp] && (m in ps0 ==> rp == ps0[m])
    requires ds == ds0 || (&& |ds| == |ds0| + 1 && ds[..|ds0|] == ds0 && ds[|ds0|].node.mesh.Some?
                           && MaterialOf(ds[|ds0|].node) == m && ds[|ds0|].pipeline == rp.pipeline)
    ensures Kept(ps0, ps) && SharedPipelines(ds, ps)
  {
    forall i | 0 <= i < |ds|
      ensures ds[i].node.mesh.Some? && MaterialOf(ds[i].node) in ps && ds[i].pipeline == ps[MaterialOf(ds[i].node)].pipeline
    {
      if i < |ds0| {
        assert ds[i] == ds0[i];
      }
    }
  }

  /** The material `m` is ready and so is every other Phong material of `U`: every mesh among `U` is ready. */
  lemma ReadyKept(U: set<SceneNode>, m: MaterialRef)
    requires forall n | n in U :: Drawable(n)
    requires Ready(m) && forall p | p in PhongsOf(U) && p !in Owned(m) :: p.Valid()
    ensures MeshesReady(U)
  {
    forall n | n in U
      ensures Drawable(n) && (n.mesh.Some? ==> Ready(n.mesh.value.material))
    {
      if n.mesh.Some? && n.mesh.value.material.PhongRef? {
        var p := n.mesh.value.material.phong;
        assert p in PhongsOf(U);
        if p in Owned(m) {
          OwnedPhong(m, p);
        }
      }
    }
  }

  lemma OwnedPhong(m: MaterialRef, p: PhongMaterial)
    requires p in Owned(m)
    ensures m.PhongRef? && m.phong == p
  {
  }

  /** `node.updateUniform(gpu, camera)`, seen from the renderer: the calls it appends. */
  method WriteNodeUniform(device: Device, node: SceneNode, camera: Camera) returns (ghost calls: seq<Call>)
    requires node.Valid()
    modifies node.uniform.buf, device
    ensures device.trace == old(device.trace) + calls
    ensures calls == SetCalls(node.uniform.buf, old(node.uniform.buf.buffer), old(device.next),
      TransformWrites(node.worldMatrix, camera.viewMatrix))
  {
    node.UpdateUniform(device, camera);
    calls := device.trace[|old(device.trace)|..];
  }

  /** The draw names the node, the pipeline, group 0, and the buffers the node's geometry now holds. */
  ghost predicate MeshDrawn(d: Draw, node: SceneNode, pipeline: Handle, group0: Handle)
    requires node.mesh.Some?
    reads GeometryOf(node).position.buf, GeometryOf(node).uv.buf, GeometryOf(node).normal.buf
    reads GeometryOf(node).color.buf, GeometryOf(node).index.buf
  {
    var g := GeometryOf(node);
    && g.position.buf.buffer.Some? && g.uv.buf.buffer.Some? && g.normal.buf.buffer.Some? && g.color.buf.buffer.Some?
    && g.index.buf.buffer.Some? && g.IndexCount().Ok?
    && d == Draw(node, pipeline, group0, d.group1, VertexHandles(g), g.index.buf.buffer.value, g.index.format, g.IndexCount().value)
  }

  /** A drawn mesh's record names its node, its pipeline and its group 0. */
  lemma MeshDrawnNames(d: Draw, node: SceneNode, pipeline: Handle, group0: Handle)
    requires node.mesh.Some? && MeshDrawn(d, node, pipeline, group0)
    ensures d.node == node && d.pipeline == pipeline && d.group0 == group0
  {
  }

  /**
   * The trace ends with bind group 0 (`group0`, two entries), made on a
   * layout that `getBindGroupLayout(0)` of `pipeline` returned.
   */
  ghost predicate GroupZero(t: seq<Call>, pipeline: Handle, group0: Handle)
  {
    && |t| > 0
    && var last := t[|t| - 1];
    && last.Created? && last.resource.BindGroup? && last.handle == group0 && |last.resource.entries| == 2
    && Created(last.resource.layout, PipelineBindGroupLayout(pipeline, 0)) in t
  }

  /** For the base material: after trace `t0`, `getBindGroupLayout(1)` and then an empty bind group `group1` on it. */
  ghost predicate PlainGroup(t0: seq<Call>, t: seq<Call>, pipeline: Handle, group1: Handle)
  {
    && Extends(t0, t) && |t| >= |t0| + 2
    && t[|t0|].Created? && t[|t0|].resource == PipelineBindGroupLayout(pipeline, 1)
    && t[|t0| + 1] == Created(group1, BindGroup(t[|t0|].handle, []))
  }

  /** The empty group of the base material stays in the trace as the trace grows. */
  lemma PlainGroupExtends(t0: seq<Call>, t1: seq<Call>, t2: seq<Call>, pipeline: Handle, group1: Handle)
    requires PlainGroup(t0, t1, pipeline, group1) && Extends(t1, t2)
    ensures PlainGroup(t0, t2, pipeline, group1)
  {
    ExtendsTrans(t0, t1, t2);
    assert t2[|t0|] == t1[|t0|] && t2[|t0| + 1] == t1[|t0| + 1];
  }

  /**
   * What one mesh's `_renderMesh` may change besides the device, the pass,
   * the shader cache and the material itself: the buffers of the camera's
   * and the node's uniforms, the geometry's five buffers and what the
   * material's `getBindGroup` changes (`GroupBuffers`, `GroupUniforms`,
   * `GroupTextures`); the two uniforms, whose bind-group entries are kept.
   * Every other buffer, uniform and texture is left as it was.
   */
  function MeshBuffers(node: SceneNode, cameraUniform: UniformBuffer): set<BufferObject>
    requires node.mesh.Some?
    reads Owned(MaterialOf(node))
  {
    {cameraUniform.buf, node.uniform.buf} + GeometryBuffers(GeometryOf(node)) + GroupBuffers(MaterialOf(node))
  }

  function MeshUniforms(node: SceneNode, cameraUniform: UniformBuffer): set<UniformBuffer>
    requires node.mesh.Some?
    reads Owned(MaterialOf(node))
  {
    {cameraUniform, node.uniform} + GroupUniforms(MaterialOf(node))
  }

  /**
   * The bind groups of `_renderMesh`, once the pipeline is known: bind
   * group 0 from the camera uniform and the node's transform uniform,
   * then `getBindGroupLayout(1)` and the material's bind group on it.
   * `grouped` is the trace once bind group 0 is made.
   */
  method MeshGroups(device: Device, node: SceneNode, cameraUniform: UniformBuffer, cubemap: TextureObject, pipeline: Handle)
    returns (group0: Handle, group1: Result<Handle>, ghost grouped: seq<Call>)
    requires node.mesh.Some? && Drawable(node) && Ready(MaterialOf(node))
    modifies device, Owned(MaterialOf(node)), MeshBuffers(node, cameraUniform), MeshUniforms(node, cameraUniform),
      GroupTextures(MaterialOf(node), cubemap)
    ensures Ready(MaterialOf(node))
    ensures group1.Err? ==> group1.error == TypeError && !MaterialOf(node).Plain?
    ensures !MaterialOf(node).Plain? && old(Memo(MaterialOf(node))).Some? ==> group1 == Ok(old(Memo(MaterialOf(node))).value)
    ensures Extends(old(device.trace), grouped)
    ensures GroupZero(grouped, pipeline, group0)
    ensures MaterialOf(node).Plain? ==> group1.Ok? && PlainGroup(grouped, device.trace, pipeline, group1.value)
  {
    var m := MaterialOf(node);
    ghost var memo := Memo(m);
    var layout0; ghost var entries;
    layout0, group0, entries := UniformGroup(device, cameraUniform, node.uniform, pipeline);
    grouped := device.trace;
    var layout1 := device.Create(PipelineBindGroupLayout(pipeline, 1));
    assert Memo(m) == memo;
    ghost var t1 := device.trace;
    ExtendsAppend(grouped, [Created(layout1, PipelineBindGroupLayout(pipeline, 1))]);
    group1 := GetBindGroup(m, device, layout1, cubemap);
    if m.Plain? {
      ExtendsAppend(t1, [Created(group1.value, BindGroup(layout1, []))]);
      ExtendsTrans(grouped, t1, device.trace);
    }
  }

  /**
   * The second half of `_renderMesh`, once the pipeline is known: the
   * bind groups, then the commands.
   */
  method FinishMesh(device: Device, pass: PassEncoder, node: SceneNode, cameraUniform: UniformBuffer, cubemap: TextureObject, pipeline: Handle)
    returns (st: Status, ghost d: Draw, ghost grouped: seq<Call>)
    requires node.mesh.Some? && Drawable(node) && Ready(MaterialOf(node))
    modifies device, pass, Owned(MaterialOf(node)), MeshBuffers(node, cameraUniform), MeshUniforms(node, cameraUniform),
      GroupTextures(MaterialOf(node), cubemap)
    ensures Ready(MaterialOf(node))
    ensures st.Thrown? ==> st.error == TypeError
    ensures GeometryOf(node).IndexCount().Err? ==> st.Thrown?
    ensures st.Thrown? && GeometryOf(node).IndexCount().Ok? ==> !MaterialOf(node).Plain?
    ensures st.Normal? ==>
      && MeshDrawn(d, node, pipeline, d.group0)
      && pass.commands == old(pass.commands) + DrawCommands(d)
    ensures st.Normal? && !MaterialOf(node).Plain? && old(Memo(MaterialOf(node))).Some? ==>
      d.group1 == old(Memo(MaterialOf(node))).value
    ensures Extends(old(device.trace), grouped)
    ensures st.Normal? ==> GroupZero(grouped, pipeline, d.group0)
    ensures st.Normal? && MaterialOf(node).Plain? ==> PlainGroup(grouped, device.trace, pipeline, d.group1)
  {
    var group0, group1;
    group0, group1, grouped := MeshGroups(device, node, cameraUniform, cubemap, pipeline);
    if group1.Err? {
      st := Thrown(group1.error);
      d := Draw(node, pipeline, group0, 0, [], 0, "", 0);
      return;
    }
    ghost var t2 := device.trace;
    assert pass.commands == old(pass.commands);
    st, d := Emit(device, pass, node, GeometryOf(node), pipeline, group0, group1.value);
    if MaterialOf(node).Plain? {
      PlainGroupExtends(grouped, t2, device.trace, pipeline, group1.value);
    }
  }
}
