// The cameras: the camera uniform (view, projection, position and the
// inverse of view-projection) and the perspective camera's lazy update,
// which writes only what its two flags say is stale.
module Cameras {
  import opened Js
  import opened Math3D
  import opened Gpu
  import opened Buffers
  import opened Uniforms

  /** The items of `CameraUniform`, in buffer order. */
  const CameraItems: seq<UniformItem> := [
    UniformItem("ViewMatrix", 64, None),
    UniformItem("ProjectionMatrix", 64, None),
    UniformItem("CameraPos", 16, None),
    UniformItem("ViewProjectionInverseMatrix", 64, None)]

  const CameraUniformProps := UniformProps(Some("CameraUniform"), Some(0), None, CameraItems)

  /**
   * The camera uniform's layout: the two matrices first, the position
   * padded to 16 bytes, the inverse last, 208 bytes in all.
   */
  lemma CameraLayout()
    ensures OffsetTable(CameraItems) ==
      map["ViewMatrix" := 0, "ProjectionMatrix" := 64, "CameraPos" := 128, "ViewProjectionInverseMatrix" := 144]
    ensures TotalSize(CameraItems) == 208
  {
    ReduceIsSizeBefore(CameraItems, 0);
    assert SizeBefore(CameraItems, 4) == 208;
    assert Offsets(CameraItems, 1) == map["ViewMatrix" := 0];
    assert Offsets(CameraItems, 2) == map["ViewMatrix" := 0, "ProjectionMatrix" := 64];
    assert Offsets(CameraItems, 3) == map["ViewMatrix" := 0, "ProjectionMatrix" := 64, "CameraPos" := 128];
  }

  /** The four offsets, one lookup at a time. */
  lemma CameraOffsets()
    ensures "ViewMatrix" in OffsetTable(CameraItems) && OffsetTable(CameraItems)["ViewMatrix"] == 0
    ensures "ProjectionMatrix" in OffsetTable(CameraItems) && OffsetTable(CameraItems)["ProjectionMatrix"] == 64
    ensures "CameraPos" in OffsetTable(CameraItems) && OffsetTable(CameraItems)["CameraPos"] == 128
    ensures "ViewProjectionInverseMatrix" in OffsetTable(CameraItems)
      && OffsetTable(CameraItems)["ViewProjectionInverseMatrix"] == 144
  {
    CameraLayout();
  }

  /** The options of `new Camera(props)` and of `new PerspectiveCamera(props)`. */
  datatype CameraProps = CameraProps(
    position: Option<Vec3>,
    lookAt: Option<Vec3>,
    up: Option<Vec3>,
    fov: Option<real>,
    aspect: Option<real>,
    near: Option<real>,
    far: Option<real>)

  /** The base camera: where it is, where it looks, its matrices and its uniform. */
  class Camera {
    var position: Vec3
    var lookAt: Vec3
    var up: Vec3
    var viewMatrix: Mat
    var projectionMatrix: Mat
    const uniform: UniformBuffer
    var needsUpdateViewMatrix: bool
    var needsUpdateProjectionMatrix: bool

    /** The uniform is laid out from the camera items. */
    predicate Valid()
    {
      uniform.offsets == OffsetTable(CameraItems)
    }

    constructor(props: CameraProps)
      ensures Valid()
      ensures position == props.position.OrElse(Vec3(3.0, 3.0, 3.0))
      ensures lookAt == props.lookAt.OrElse(Zero) && up == props.up.OrElse(Up)
      ensures viewMatrix == Identity && projectionMatrix == Identity
      ensures needsUpdateViewMatrix && needsUpdateProjectionMatrix
      ensures fresh(uniform) && fresh(uniform.buf) && uniform.buf.buffer == None
      ensures uniform.name == "CameraUniform" && uniform.binding == Some(0)
      ensures uniform.buf.size == 208 && uniform.visibility == VERTEX_FRAGMENT
    {
      position := props.position.OrElse(Vec3(3.0, 3.0, 3.0));
      lookAt := props.lookAt.OrElse(Zero);
      up := props.up.OrElse(Up);
      viewMatrix := Identity;
      projectionMatrix := Identity;
      needsUpdateViewMatrix := true;
      needsUpdateProjectionMatrix := true;
      uniform := new UniformBuffer(CameraUniformProps);
      CameraLayout();
    }

    /** The view half of `updateMatrix`: recompute the view matrix, write it and the position. */
    method RefreshView(device: Device, ghost t0: seq<Call>, ghost b0: Option<Handle>, ghost n0: Handle, ghost ws: seq<Write>)
      returns (ghost ws2: seq<Write>)
      requires Valid() && After(uniform, device, t0, b0, n0, ws)
      modifies this, uniform.buf, device
      ensures viewMatrix == LookAt(position, lookAt, up)
      ensures ws2 == ws + [Write(0, Matrix4Elements(viewMatrix)), Write(128, Typed(Float32, Components(position)))]
      ensures After(uniform, device, t0, b0, n0, ws2)
      ensures position == old(position) && lookAt == old(lookAt) && up == old(up)
      ensures projectionMatrix == old(projectionMatrix)
      ensures needsUpdateViewMatrix == old(needsUpdateViewMatrix)
      ensures needsUpdateProjectionMatrix == old(needsUpdateProjectionMatrix)
    {
      CameraOffsets();
      viewMatrix := LookAt(position, lookAt, up);
      SetNext(uniform, device, "ViewMatrix", Write(0, Matrix4Elements(viewMatrix)), t0, b0, n0, ws);
      ws2 := ws + [Write(0, Matrix4Elements(viewMatrix))];
      SetNext(uniform, device, "CameraPos", Write(128, Typed(Float32, Components(position))), t0, b0, n0, ws2);
      ws2 := ws2 + [Write(128, Typed(Float32, Components(position)))];
    }

    /** The projection half of `updateMatrix`: store the new projection matrix and write it. */
    method RefreshProjection(device: Device, p: Mat,
                             ghost t0: seq<Call>, ghost b0: Option<Handle>, ghost n0: Handle, ghost ws: seq<Write>)
      returns (ghost ws2: seq<Write>)
      requires Valid() && After(uniform, device, t0, b0, n0, ws)
      modifies this, uniform.buf, device
      ensures projectionMatrix == p
      ensures ws2 == ws + [Write(64, Matrix4Elements(p))]
      ensures After(uniform, device, t0, b0, n0, ws2)
      ensures position == old(position) && lookAt == old(lookAt) && up == old(up)
      ensures viewMatrix == old(viewMatrix)
      ensures needsUpdateViewMatrix == old(needsUpdateViewMatrix)
      ensures needsUpdateProjectionMatrix == old(needsUpdateProjectionMatrix)
    {
      CameraOffsets();
      projectionMatrix := p;
      SetNext(uniform, device, "ProjectionMatrix", Write(64, Matrix4Elements(p)), t0, b0, n0, ws);
      ws2 := ws + [Write(64, Matrix4Elements(p))];
    }

    /** `destroy()`: release the uniform's device buffer. */
    method Destroy(device: Device)
      modifies uniform.buf, device
      ensures uniform.buf.buffer == None
      ensures device.next == old(device.next)
      ensures device.trace == old(device.trace) + DestroyCalls(old(uniform.buf.buffer))
    {
      uniform.buf.Destroy(device);
    }
  }

  /**
   * The writes of one `updateMatrix` call, given the two flags, the new
   * matrices and the position: view matrix and position when the view is
   * stale, projection matrix when the projection is stale, then the inverse
   * of projection times view when either was, unless that product cannot be
   * inverted.
   */
  function CameraWrites(view: bool, projection: bool, viewMatrix: Mat, position: Vec3,
                        projectionMatrix: Mat, singular: Mat -> bool): (ws: seq<Write>)
    ensures |ws| == (if view then 2 else 0) + (if projection then 1 else 0)
      + (if (view || projection) && !singular(Mul(projectionMatrix, viewMatrix)) then 1 else 0)
    ensures !view && !projection ==> ws == []
    ensures (view || projection) && !singular(Mul(projectionMatrix, viewMatrix)) ==>
      ws[|ws| - 1] == Write(144, Matrix4Elements(Inverse(Mul(projectionMatrix, viewMatrix))))
  {
    (if view then [Write(0, Matrix4Elements(viewMatrix)), Write(128, Typed(Float32, Components(position)))] else [])
      + (if projection then [Write(64, Matrix4Elements(projectionMatrix))] else [])
      + (if (view || projection) && !singular(Mul(projectionMatrix, viewMatrix))
         then [Write(144, Matrix4Elements(Inverse(Mul(projectionMatrix, viewMatrix))))] else [])
  }

  /**
   * A full update writes every item of the camera uniform exactly once, each
   * at its own offset and with exactly the item's size where that is fixed.
   */
  lemma FullUpdateCoversUniform(viewMatrix: Mat, position: Vec3, projectionMatrix: Mat, singular: Mat -> bool)
    requires !singular(Mul(projectionMatrix, viewMatrix))
    ensures var ws := CameraWrites(true, true, viewMatrix, position, projectionMatrix, singular);
      && |ws| == 4
      && (set w | w in ws :: w.offset) == set n | n in OffsetTable(CameraItems).Values
      && (forall w :: w in ws && w.data.Matrix4Elements? ==> ByteLength(w.data) == 64)
      && ByteLength(ws[1].data) == 12 < 16
  {
    var ws := CameraWrites(true, true, viewMatrix, position, projectionMatrix, singular);
    CameraLayout();
    assert ws[0].offset == 0 && ws[1].offset == 128 && ws[2].offset == 64 && ws[3].offset == 144;
    assert OffsetTable(CameraItems).Values == {0, 64, 128, 144} by {
      assert OffsetTable(CameraItems)["ViewMatrix"] == 0;
      assert OffsetTable(CameraItems)["ProjectionMatrix"] == 64;
      assert OffsetTable(CameraItems)["CameraPos"] == 128;
      assert OffsetTable(CameraItems)["ViewProjectionInverseMatrix"] == 144;
    }
    assert forall w :: w in ws ==> w == ws[0] || w == ws[1] || w == ws[2] || w == ws[3];
  }

  /** The perspective camera: a camera with a field of view, an aspect ratio and clipping planes. */
  class PerspectiveCamera {
    const base: Camera
    var fov: real
    var aspect: Ratio
    var near: real
    var far: real

    constructor(props: CameraProps)
      ensures fresh(base) && fresh(base.uniform) && fresh(base.uniform.buf) && base.Valid()
      ensures base.position == props.position.OrElse(Vec3(3.0, 3.0, 3.0))
      ensures base.lookAt == props.lookAt.OrElse(Zero) && base.up == props.up.OrElse(Up)
      ensures base.viewMatrix == Identity && base.projectionMatrix == Identity
      ensures base.needsUpdateViewMatrix && base.needsUpdateProjectionMatrix
      ensures base.uniform.buf.buffer == None
      ensures fov == props.fov.OrElse(45.0) && aspect == Literal(props.aspect.OrElse(0.75))
      ensures near == props.near.OrElse(0.1) && far == props.far.OrElse(1000.0)
    {
      base := new Camera(CameraProps(props.position, props.lookAt, props.up, None, None, None, None));
      fov := props.fov.OrElse(45.0);
      aspect := Literal(props.aspect.OrElse(0.75));
      near := props.near.OrElse(0.1);
      far := props.far.OrElse(1000.0);
    }

    /** The projection `updateMatrix` computes from the current parameters (the field of view in radians). */
    function Projection(): Mat
      reads this
    {
      Perspective(FromDegrees(fov), aspect, near, far)
    }

    /**
     * `updateMatrix(device)`: recompute what the flags say is stale, write
     * it and the inverse of the view-projection product, then clear both
     * flags. Inverting a singular product throws, after the earlier writes
     * and before the flags are cleared; `singular` decides which products
     * are singular.
     */
    method UpdateMatrix(device: Device, singular: Mat -> bool) returns (st: Status)
      requires base.Valid()
      modifies base, base.uniform.buf, device
      ensures base.viewMatrix ==
        (if old(base.needsUpdateViewMatrix) then LookAt(old(base.position), old(base.lookAt), old(base.up)) else old(base.viewMatrix))
      ensures base.projectionMatrix ==
        (if old(base.needsUpdateProjectionMatrix) then Projection() else old(base.projectionMatrix))
      ensures st.Thrown? <==>
        (old(base.needsUpdateViewMatrix) || old(base.needsUpdateProjectionMatrix))
        && singular(Mul(base.projectionMatrix, base.viewMatrix))
      ensures st.Thrown? ==>
        && st.error == SingularMatrix
        && base.needsUpdateViewMatrix == old(base.needsUpdateViewMatrix)
        && base.needsUpdateProjectionMatrix == old(base.needsUpdateProjectionMatrix)
      ensures st.Normal? ==> !base.needsUpdateViewMatrix && !base.needsUpdateProjectionMatrix
      ensures base.position == old(base.position) && base.lookAt == old(base.lookAt) && base.up == old(base.up)
      ensures After(base.uniform, device, old(device.trace), old(base.uniform.buf.buffer), old(device.next),
        CameraWrites(old(base.needsUpdateViewMatrix), old(base.needsUpdateProjectionMatrix),
          base.viewMatrix, base.position, base.projectionMatrix, singular))
      ensures Extends(old(device.trace), device.trace)
    {
      ghost var t0, b0, n0 := device.trace, base.uniform.buf.buffer, device.next;
      ghost var ws: seq<Write> := [];
      assert SetCalls(base.uniform.buf, b0, n0, ws) == [];
      var view, projection := base.needsUpdateViewMatrix, base.needsUpdateProjectionMatrix;
      if view {
        ws := base.RefreshView(device, t0, b0, n0, ws);
      }
      if projection {
        ws := base.RefreshProjection(device, Projection(), t0, b0, n0, ws);
      }
      ghost var expected := CameraWrites(view, projection, base.viewMatrix, base.position, base.projectionMatrix, singular);
      if view || projection {
        var product := Mul(base.projectionMatrix, base.viewMatrix);
        if singular(product) {
          assert ws == expected;
          AfterExtends(base.uniform, device, t0, b0, n0, ws);
          st := Thrown(SingularMatrix);
          return;
        }
        CameraOffsets();
        SetNext(base.uniform, device, "ViewProjectionInverseMatrix", Write(144, Matrix4Elements(Inverse(product))), t0, b0, n0, ws);
        ws := ws + [Write(144, Matrix4Elements(Inverse(product)))];
      }
      assert ws == expected;
      AfterExtends(base.uniform, device, t0, b0, n0, ws);
      base.needsUpdateViewMatrix := false;
      base.needsUpdateProjectionMatrix := false;
      st := Normal;
    }
  }
}
