// The scene graph: nodes with a transform, a parent and children, the
// lazily recomputed local and world matrices with their dirty flag, the
// per-node transform uniform, and meshes, which are nodes that also carry a
// geometry and a material.
module Scene {
  import opened Js
  import opened Math3D
  import opened Gpu
  import opened Buffers
  import opened Uniforms
  import opened Textures
  import opened Cameras
  import opened Geometry
  import opened Materials
  import opened MaterialKinds

  // ---------------------------------------------------------------------
  // The transform uniform.

  /** The items of `TransformUniform`, in buffer order, 64 bytes each. */
  const TransformItems: seq<UniformItem> := [
    UniformItem("ModelMatrix", 64, None),
    UniformItem("ModelViewMatrix", 64, None),
    UniformItem("NormalMatrix", 64, None)]

  const TransformUniformProps := UniformProps(Some("TransformUniform"), Some(1), None, TransformItems)

  /** The transform uniform's layout: three 64-byte slots at 0, 64 and 128, 192 bytes in all. */
  lemma TransformLayout()
    ensures OffsetTable(TransformItems) == map["ModelMatrix" := 0, "ModelViewMatrix" := 64, "NormalMatrix" := 128]
    ensures TotalSize(TransformItems) == 192
  {
    ReduceIsSizeBefore(TransformItems, 0);
    assert SizeBefore(TransformItems, 3) == 192;
    assert Offsets(TransformItems, 1) == map["ModelMatrix" := 0];
    assert Offsets(TransformItems, 2) == map["ModelMatrix" := 0, "ModelViewMatrix" := 64];
  }

  /** The three offsets, one lookup at a time. */
  lemma TransformOffsets()
    ensures "ModelMatrix" in OffsetTable(TransformItems) && OffsetTable(TransformItems)["ModelMatrix"] == 0
    ensures "ModelViewMatrix" in OffsetTable(TransformItems) && OffsetTable(TransformItems)["ModelViewMatrix"] == 64
    ensures "NormalMatrix" in OffsetTable(TransformItems) && OffsetTable(TransformItems)["NormalMatrix"] == 128
  {
    TransformLayout();
  }

  /**
   * What `updateUniform` writes: the world matrix as the model matrix,
   * view times world as the model-view matrix, and the 3x3 block of the
   * model-view matrix as the normal matrix.
   */
  function TransformWrites(world: Mat, view: Mat): (ws: seq<Write>)
    ensures |ws| == 3
  {
    [ Write(0, Matrix4Elements(world)),
      Write(64, Matrix4Elements(Mul(view, world))),
      Write(128, Matrix3Elements(NormalOf(Mul(view, world)))) ]
  }

  /**
   * The three writes hit the three items at their offsets, in item order,
   * and each fits in its 64-byte slot (the normal matrix uses 36 of them).
   */
  lemma TransformWritesFit(world: Mat, view: Mat)
    ensures var ws := TransformWrites(world, view);
      && (forall k :: 0 <= k < 3 ==> ws[k].offset == OffsetTable(TransformItems)[TransformItems[k].name])
      && (forall k :: 0 <= k < 3 ==> ByteLength(ws[k].data) <= TransformItems[k].size)
      && ws[2].offset + ByteLength(ws[2].data) <= TotalSize(TransformItems)
  {
    TransformLayout();
  }

  /** The three `set` calls of `updateUniform`, one after the other. */
  method WriteTransform(u: UniformBuffer, device: Device, world: Mat, view: Mat)
    requires u.offsets == OffsetTable(TransformItems)
    modifies u.buf, device
    ensures After(u, device, old(device.trace), old(u.buf.buffer), old(device.next), TransformWrites(world, view))
  {
    TransformOffsets();
    ghost var t0, b0, n0 := device.trace, u.buf.buffer, device.next;
    ghost var ws: seq<Write> := [];
    assert SetCalls(u.buf, b0, n0, ws) == [];
    var modelView := Mul(view, world);
    var w0 := Write(0, Matrix4Elements(world));
    SetNext(u, device, "ModelMatrix", w0, t0, b0, n0, ws);
    ws := ws + [w0];
    var w1 := Write(64, Matrix4Elements(modelView));
    SetNext(u, device, "ModelViewMatrix", w1, t0, b0, n0, ws);
    ws := ws + [w1];
    var w2 := Write(128, Matrix3Elements(NormalOf(modelView)));
    SetNext(u, device, "NormalMatrix", w2, t0, b0, n0, ws);
    ws := ws + [w2];
    assert ws == TransformWrites(world, view);
  }

  // ---------------------------------------------------------------------
  // Nodes and meshes.

  /**
   * The node's cube texture, `[1, 1, 6]` rgba8unorm. Its usage is `COPY_DST`
   * only: the engine's own usage table has no `TEXTURE_BINDING` and no
   * `RENDER_ATTACHMENT`, so `undefined | 2 | undefined` is 2.
   */
  const CubemapDescriptor := TextureDescriptor(
    Some(map["size" := Nums([1.0, 1.0, 6.0]), "format" := Str("rgba8unorm"), "usage" := Num(2.0)]),
    Some(map["dimension" := Str("cube")]),
    None)

  /** What a mesh adds to a node. */
  datatype MeshParts = MeshParts(geometry: BufferGeometry, material: MaterialRef)

  /** The three vectors of a transform. */
  datatype Part = Position | Rotation | Scale

  /** The releases a destroy may make: the trace grows by `DestroyBuffer` commands only. */
  ghost predicate OnlyReleases(t0: seq<Call>, t: seq<Call>)
  {
    && |t0| <= |t| && t[..|t0|] == t0
    && forall k :: |t0| <= k < |t| ==> t[k].Issued? && t[k].command.DestroyBuffer?
  }

  lemma OnlyReleasesTrans(t0: seq<Call>, t1: seq<Call>, t2: seq<Call>)
    requires OnlyReleases(t0, t1) && OnlyReleases(t1, t2)
    ensures OnlyReleases(t0, t2)
  {
    assert t2[..|t0|] == t1[..|t1|][..|t0|];
  }

  lemma DestroyCallsRelease(t0: seq<Call>, b: Option<Handle>)
    ensures OnlyReleases(t0, t0 + DestroyCalls(b))
  {
    assert (t0 + DestroyCalls(b))[..|t0|] == t0;
  }

  /**
   * A node (`SceneNode`) or, when `mesh` is present, a mesh (`Mesh`,
   * which extends it).
   */
  class SceneNode {
    const name: string
    var parent: SceneNode?
    var children: seq<SceneNode>
    var position: Vec3
    var rotation: Vec3
    var scale: Vec3
    var localMatrix: Mat
    var worldMatrix: Mat
    const uniform: UniformBuffer
    const cubemap: TextureObject
    var matrixNeedsUpdate: bool
    const mesh: Option<MeshParts>

    /** The uniform is laid out from the transform items. */
    predicate Valid()
    {
      uniform.offsets == OffsetTable(TransformItems)
    }

    /**
     * `new SceneNode(name)` when `mesh` is absent, `new Mesh({name,
     * geometry, material})` when present: the name defaults to "", no
     * parent and no children, identity matrices, a dirty flag, a fresh
     * transform uniform at binding 1 and a fresh cube texture (made first,
     * as a field initialiser, and registered).
     */
    constructor(registry: TextureRegistry, name: Option<string>, mesh: Option<MeshParts>)
      modifies registry
      ensures Valid()
      ensures this.name == name.OrElse("") && this.mesh == mesh
      ensures parent == null && children == []
      ensures position == Zero && rotation == Zero && scale == One
      ensures localMatrix == Identity && worldMatrix == Identity
      ensures matrixNeedsUpdate
      ensures fresh(uniform) && fresh(uniform.buf) && uniform.buf.buffer == None
      ensures uniform.name == "TransformUniform" && uniform.binding == Some(1) && uniform.buf.size == 192
      ensures fresh(cubemap) && cubemap.descriptor == Some(CubemapDescriptor) && cubemap.texture == None
      ensures registry.members == old(registry.members) + {cubemap}
    {
      var cube := new TextureObject(registry, Some(CubemapDescriptor));
      cubemap := cube;
      this.name := name.OrElse("");
      children := [];
      parent := null;
      position := Zero;
      rotation := Zero;
      scale := One;
      localMatrix := Identity;
      worldMatrix := Identity;
      matrixNeedsUpdate := true;
      uniform := new UniformBuffer(TransformUniformProps);
      this.mesh := mesh;
      TransformLayout();
    }

    /** The vector a setter changes. */
    function Vector(part: Part): Vec3
      reads this
    {
      match part
      case Position => position
      case Rotation => rotation
      case Scale => scale
    }

    /**
     * Setting one component of the position, rotation or scale. The x and
     * y setters call the change callback, which marks the node dirty; the
     * z setter tests `this.onChange ?? ...`, and the method is never
     * nullish, so it never does.
     */
    method SetComponent(part: Part, axis: Axis, value: real)
      modifies this`position, this`rotation, this`scale, this`matrixNeedsUpdate
      ensures Vector(part) == With(old(Vector(part)), axis, value)
      ensures forall q :: q != part ==> Vector(q) == old(Vector(q))
      ensures matrixNeedsUpdate == (old(matrixNeedsUpdate) || axis != Z)
    {
      match part {
        case Position => position := With(position, axis, value);
        case Rotation => rotation := With(rotation, axis, value);
        case Scale => scale := With(scale, axis, value);
      }
      if axis != Z {
        matrixNeedsUpdate := true;
      }
    }

    /** `v.set(x, y, z)`: the x and y setters run first, so the node is marked dirty. */
    method SetVector(part: Part, v: Vec3)
      modifies this`position, this`rotation, this`scale, this`matrixNeedsUpdate
      ensures Vector(part) == v
      ensures forall q :: q != part ==> Vector(q) == old(Vector(q))
      ensures matrixNeedsUpdate
    {
      SetComponent(part, X, v.x);
      SetComponent(part, Y, v.y);
      SetComponent(part, Z, v.z);
    }

    /** `setParent(node)`: record the parent and mark this node dirty. */
    method SetParent(p: SceneNode?)
      modifies this`parent, this`matrixNeedsUpdate
      ensures parent == p && matrixNeedsUpdate
    {
      parent := p;
      matrixNeedsUpdate := true;
    }

    /**
     * `add(node)`: append the node to the children, make this its parent
     * and return it. Nothing is removed from a previous parent's children:
     * no other node's child list is in the frame.
     */
    method Add(node: SceneNode) returns (r: SceneNode)
      modifies this`children, node`parent, node`matrixNeedsUpdate
      ensures r == node
      ensures children == old(children) + [node]
      ensures node.parent == this && node.matrixNeedsUpdate
    {
      children := children + [node];
      node.SetParent(this);
      r := node;
    }

    /**
     * `updateMatrix(force)`: on a clean node without `force`, nothing. Else
     * clear the flag, recompute the local matrix, set the world matrix to
     * the parent's (identity without a parent) times the local one, and
     * mark every direct child dirty; a node that is its own child is thus
     * left dirty. No deeper node is touched.
     */
    method UpdateMatrix(force: bool)
      modifies this`matrixNeedsUpdate, this`localMatrix, this`worldMatrix, (set c | c in children)`matrixNeedsUpdate
      ensures !old(matrixNeedsUpdate) && !force ==>
        && localMatrix == old(localMatrix) && worldMatrix == old(worldMatrix) && !matrixNeedsUpdate
        && forall c :: c in children ==> c.matrixNeedsUpdate == old(c.matrixNeedsUpdate)
      ensures old(matrixNeedsUpdate) || force ==>
        && localMatrix == Local(position, rotation, scale)
        && worldMatrix == Mul(if parent == null then Identity else old(parent.worldMatrix), localMatrix)
        && (forall c :: c in children ==> c.matrixNeedsUpdate)
        && matrixNeedsUpdate == (this in children)
    {
      if matrixNeedsUpdate || force {
        matrixNeedsUpdate := false;
        localMatrix := Local(position, rotation, scale);
        var parentWorld := if parent == null then Identity else parent.worldMatrix;
        worldMatrix := Mul(parentWorld, localMatrix);
        var i := 0;
        while i < |children|
          invariant 0 <= i <= |children|
          invariant forall j :: 0 <= j < i ==> children[j].matrixNeedsUpdate
          invariant matrixNeedsUpdate == (this in children[..i])
          invariant localMatrix == Local(position, rotation, scale) && worldMatrix == Mul(parentWorld, localMatrix)
        {
          children[i].matrixNeedsUpdate := true;
          i := i + 1;
        }
        assert children[..i] == children;
      }
    }

    /**
     * `updateUniform(device, camera)`: write the model, model-view and
     * normal matrices into the transform uniform, in that order.
     */
    method UpdateUniform(device: Device, camera: Camera)
      requires Valid()
      modifies uniform.buf, device
      ensures After(uniform, device, old(device.trace), old(uniform.buf.buffer), old(device.next),
        TransformWrites(worldMatrix, camera.viewMatrix))
    {
      WriteTransform(uniform, device, worldMatrix, camera.viewMatrix);
    }

    /** The buffers `destroy` may release and the materials whose memos it may clear. */
    function DestroyBuffers(): set<BufferObject>
      reads this
    {
      if mesh.Some? then GeometryBuffers(mesh.value.geometry) else {uniform.buf} + KidsBuffers(children)
    }

    function DestroyMaterials(): set<ShaderMaterial>
      reads this
    {
      if mesh.Some? then {Base(mesh.value.material)} else KidsMaterials(children)
    }

    /**
     * What `destroy` leaves: a mesh's geometry released and its material's
     * module memos cleared; a plain node's own uniform released and each
     * direct mesh child released.
     */
    ghost predicate Destroyed()
      reads this, DestroyBuffers(), DestroyMaterials()
    {
      && (mesh.Some? ==>
            && GeometryReleased(mesh.value.geometry)
            && Base(mesh.value.material).vertexModule == None && Base(mesh.value.material).fragmentModule == None)
      && (mesh.None? ==>
            && uniform.buf.buffer == None
            && forall c :: c in children && c.mesh.Some? ==> Released(c))
    }

    /**
     * `destroy()`. A mesh destroys its geometry, then its material, and
     * nothing else. A plain node destroys its own uniform and, for each
     * direct child that is a mesh, that child's uniform, geometry and
     * material; grandchildren and non-mesh children are not in the frame.
     */
    method Destroy(device: Device)
      requires mesh.Some? ==> mesh.value.geometry.Valid()
      requires mesh.None? ==> forall c :: c in children && c.mesh.Some? ==> c.mesh.value.geometry.Valid()
      modifies device, DestroyBuffers(), DestroyMaterials()
      ensures device.next == old(device.next) && OnlyReleases(old(device.trace), device.trace)
      ensures mesh.Some? ==>
        && GeometryReleased(mesh.value.geometry)
        && Base(mesh.value.material).vertexModule == None && Base(mesh.value.material).fragmentModule == None
      ensures mesh.None? ==>
        && uniform.buf.buffer == None
        && forall c :: c in children && c.mesh.Some? ==> Released(c)
    {
      if mesh.Some? {
        DestroyMesh(device, mesh.value);
      } else {
        DestroyNode(device);
      }
    }

    /** The plain node's `destroy`: its own uniform, then each direct mesh child. */
    method DestroyNode(device: Device)
      requires mesh.None? && forall c :: c in children && c.mesh.Some? ==> c.mesh.value.geometry.Valid()
      modifies device, DestroyBuffers(), DestroyMaterials()
      ensures device.next == old(device.next) && OnlyReleases(old(device.trace), device.trace)
      ensures uniform.buf.buffer == None
      ensures forall c :: c in children && c.mesh.Some? ==> Released(c)
    {
      ghost var t0 := device.trace;
      uniform.buf.Destroy(device);
      DestroyCallsRelease(t0, old(uniform.buf.buffer));
      var kids := children;
      var i := 0;
      while i < |kids|
        invariant 0 <= i <= |kids| && kids == children
        invariant device.next == old(device.next) && OnlyReleases(old(device.trace), device.trace)
        invariant uniform.buf.buffer == None
        invariant forall j :: 0 <= j < i && kids[j].mesh.Some? ==> Released(kids[j])
      {
        var c := kids[i];
        if c.mesh.Some? {
          ChildInFrame(kids, i);
          ghost var t1 := device.trace;
          DestroyMeshChild(device, kids, i, uniform.buf);
          OnlyReleasesTrans(old(device.trace), t1, device.trace);
        }
        i := i + 1;
      }
      assert kids[..|kids|] == kids;
    }
  }

  /** `Mesh.destroy()`: the geometry's five buffers, then the material. */
  method DestroyMesh(device: Device, m: MeshParts)
    requires m.geometry.Valid()
    modifies device, GeometryBuffers(m.geometry), Base(m.material)
    ensures device.next == old(device.next) && OnlyReleases(old(device.trace), device.trace)
    ensures GeometryReleased(m.geometry)
    ensures Base(m.material).vertexModule == None && Base(m.material).fragmentModule == None
  {
    var g := m.geometry;
    g.Destroy(device);
    DestroyFiveRelease(old(device.trace), device.trace, old(g.position.buf.buffer), old(g.uv.buf.buffer),
      old(g.normal.buf.buffer), old(g.color.buf.buffer), old(g.index.buf.buffer));
    MaterialKinds.Destroy(m.material);
  }

  /** The five buffer objects of a geometry. */
  function GeometryBuffers(g: BufferGeometry): set<BufferObject>
  {
    {g.position.buf, g.uv.buf, g.normal.buf, g.color.buf, g.index.buf}
  }

  /** A destroyed geometry: none of its five buffers holds a device buffer. */
  ghost predicate GeometryReleased(g: BufferGeometry)
    reads g.position.buf, g.uv.buf, g.normal.buf, g.color.buf, g.index.buf
  {
    && g.position.buf.buffer == None && g.uv.buf.buffer == None && g.normal.buf.buffer == None
    && g.color.buf.buffer == None && g.index.buf.buffer == None
  }

  /** The buffers destroying a mesh child releases: its uniform's and its geometry's. */
  function ChildBuffers(c: SceneNode): set<BufferObject>
  {
    if c.mesh.Some? then {c.uniform.buf} + GeometryBuffers(c.mesh.value.geometry) else {}
  }

  /** The material whose memos destroying a mesh child clears. */
  function ChildMaterials(c: SceneNode): set<ShaderMaterial>
  {
    if c.mesh.Some? then {Base(c.mesh.value.material)} else {}
  }

  function KidsBuffers(kids: seq<SceneNode>): set<BufferObject>
  {
    set c, b | c in kids && b in ChildBuffers(c) :: b
  }

  function KidsMaterials(kids: seq<SceneNode>): set<ShaderMaterial>
  {
    set c, m | c in kids && m in ChildMaterials(c) :: m
  }

  lemma ChildInFrame(kids: seq<SceneNode>, i: nat)
    requires i < |kids|
    ensures ChildBuffers(kids[i]) <= KidsBuffers(kids)
    ensures ChildMaterials(kids[i]) <= KidsMaterials(kids)
  {
    var c := kids[i];
    forall b | b in ChildBuffers(c)
      ensures b in KidsBuffers(kids)
    {
      assert c in kids;
    }
    forall m | m in ChildMaterials(c)
      ensures m in KidsMaterials(kids)
    {
      assert c in kids;
    }
  }

  /** A mesh child after its parent's `destroy`: uniform and geometry released, material memos cleared. */
  ghost predicate Released(c: SceneNode)
    requires c.mesh.Some?
    reads ChildBuffers(c), ChildMaterials(c)
  {
    && c.uniform.buf.buffer == None
    && GeometryReleased(c.mesh.value.geometry)
    && Base(c.mesh.value.material).vertexModule == None && Base(c.mesh.value.material).fragmentModule == None
  }

  lemma DestroyFiveRelease(t0: seq<Call>, t: seq<Call>, a: Option<Handle>, b: Option<Handle>, c: Option<Handle>,
                           d: Option<Handle>, e: Option<Handle>)
    requires t == t0 + DestroyCalls(a) + DestroyCalls(b) + DestroyCalls(c) + DestroyCalls(d) + DestroyCalls(e)
    ensures OnlyReleases(t0, t)
  {
    DestroyCallsRelease(t0, a);
    DestroyCallsRelease(t0 + DestroyCalls(a), b);
    OnlyReleasesTrans(t0, t0 + DestroyCalls(a), t0 + DestroyCalls(a) + DestroyCalls(b));
    DestroyCallsRelease(t0 + DestroyCalls(a) + DestroyCalls(b), c);
    OnlyReleasesTrans(t0, t0 + DestroyCalls(a) + DestroyCalls(b), t0 + DestroyCalls(a) + DestroyCalls(b) + DestroyCalls(c));
    var t3 := t0 + DestroyCalls(a) + DestroyCalls(b) + DestroyCalls(c);
    DestroyCallsRelease(t3, d);
    OnlyReleasesTrans(t0, t3, t3 + DestroyCalls(d));
    DestroyCallsRelease(t3 + DestroyCalls(d), e);
    OnlyReleasesTrans(t0, t3 + DestroyCalls(d), t);
  }

  /**
   * One step of a node's `destroy`: `child.uniform.destroy()`, then the
   * mesh's own `destroy()`. Releasing only ever clears buffers, so the
   * children handled before stay released, and so does the parent's uniform.
   */
  method DestroyMeshChild(device: Device, kids: seq<SceneNode>, i: nat, ghost own: BufferObject)
    requires i < |kids| && kids[i].mesh.Some? && kids[i].mesh.value.geometry.Valid()
    requires forall j :: 0 <= j < i && kids[j].mesh.Some? ==> Released(kids[j])
    requires own.buffer == None
    modifies device, ChildBuffers(kids[i]), ChildMaterials(kids[i])
    ensures forall j :: 0 <= j <= i && kids[j].mesh.Some? ==> Released(kids[j])
    ensures own.buffer == None
    ensures device.next == old(device.next) && OnlyReleases(old(device.trace), device.trace)
  {
    DestroyChild(device, kids[i]);
  }

  /** One mesh child's part of its parent's `destroy`: its uniform buffer, then `Mesh.destroy()`. */
  method DestroyChild(device: Device, c: SceneNode)
    requires c.mesh.Some? && c.mesh.value.geometry.Valid()
    modifies device, ChildBuffers(c), ChildMaterials(c)
    ensures Released(c)
    ensures device.next == old(device.next) && OnlyReleases(old(device.trace), device.trace)
  {
    c.uniform.buf.Destroy(device);
    DestroyCallsRelease(old(device.trace), old(c.uniform.buf.buffer));
    ghost var t1 := device.trace;
    DestroyMesh(device, c.mesh.value);
    OnlyReleasesTrans(old(device.trace), t1, device.trace);
  }
}
