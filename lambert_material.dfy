// The Lambert material: an albedo colour in a 16-byte uniform buffer, the
// light-driven shader regeneration, and a bind group of two uniforms.
module Lambert {
  import opened Js
  import opened Gpu
  import opened Uniforms
  import opened Colors
  import opened Materials
  import Wgsl
  import Phong

  /** The albedo buffer: 16 bytes, a uniform that can be written, no label. */
  const AlbedoBufferDescriptor := BufferDescriptor(16, UNIFORM + COPY_DST, None, None)

  /** The calls of `getAlbedoColorBuffer` when the memo is `b` and the next handle is `n`. */
  function AlbedoCalls(b: Option<Handle>, n: Handle, albedo: Color): seq<Call>
  {
    if b.Some? then []
    else [Created(n, Buffer(AlbedoBufferDescriptor)),
          Issued(Command.WriteBuffer(n, 0, Typed(Float32, ColorArray(albedo)), 0, None))]
  }

  /** `getLayoutEntries()`: two uniform buffers seen by both stages, at bindings 0 and 1. */
  function LambertLayoutEntries(): (r: seq<LayoutEntry>)
    ensures |r| == 2
    ensures forall i :: 0 <= i < 2 ==> r[i] == LayoutEntry(Some(i), STAGE_VERTEX + STAGE_FRAGMENT, BufferSlot("uniform"))
  {
    [ LayoutEntry(Some(0), VERTEX_FRAGMENT, BufferSlot("uniform")),
      LayoutEntry(Some(1), VERTEX_FRAGMENT, BufferSlot("uniform")) ]
  }

  /** The Lambert layout is the Phong layout without an albedo map. */
  lemma LayoutIsPhongWithoutMap()
    ensures LambertLayoutEntries() == Phong.PhongLayoutEntries(false)
  {
  }

  class LambertMaterial {
    const base: ShaderMaterial
    /** The text of the Lambert fragment shader before preprocessing. */
    const fragmentSource: string
    var albedo: Color
    var replaceDirectives: map<string, nat>
    var albedoColorBuffer: Option<Handle>
    var bindGroup: Option<Handle>

    constructor(albedo: Option<Color>, vertexSource: string, fragmentSource: string)
      ensures fresh(base) && base.name == "LambertMaterial" && base.vertexShader == Some(vertexSource)
      ensures base.fragmentShader == None && base.blendMode == "OPAQUE" && base.lights == None
      ensures base.vertexModule == None && base.fragmentModule == None
      ensures this.fragmentSource == fragmentSource
      ensures this.albedo == albedo.OrElse(White)
      ensures replaceDirectives == map[Phong.DIRECTION_LINE_LENGTH := 0, Phong.POINT_LINE_LENGTH := 0]
      ensures albedoColorBuffer == None && bindGroup == None
    {
      base := new ShaderMaterial(MaterialProps(Some("LambertMaterial"), Some(vertexSource), None, None));
      this.fragmentSource := fragmentSource;
      this.albedo := albedo.OrElse(White);
      replaceDirectives := map[Phong.DIRECTION_LINE_LENGTH := 0, Phong.POINT_LINE_LENGTH := 0];
      albedoColorBuffer := None;
      bindGroup := None;
    }

    /**
     * `attachLight(lights)`: the Phong rule, with no condition directives
     * given to the preprocessor.
     */
    method AttachLight(next: LightSet)
      modifies this, base
      ensures !Regenerates(old(base.fragmentShader), old(base.lights), next) ==> unchanged(this, base)
      ensures Regenerates(old(base.fragmentShader), old(base.lights), next) ==>
        && replaceDirectives == old(replaceDirectives)[Phong.DIRECTION_LINE_LENGTH := LightCount(next.directionLight)]
                                                      [Phong.POINT_LINE_LENGTH := LightCount(next.pointLight)]
        && base.fragmentShader == Some(Wgsl.ProcessText(fragmentSource, [], replaceDirectives))
        && base.lights == Some(next)
      ensures base.vertexModule == old(base.vertexModule) && base.fragmentModule == old(base.fragmentModule)
      ensures albedo == old(albedo) && albedoColorBuffer == old(albedoColorBuffer) && bindGroup == old(bindGroup)
    {
      if Regenerates(base.fragmentShader, base.lights, next) {
        replaceDirectives := replaceDirectives[Phong.DIRECTION_LINE_LENGTH := LightCount(next.directionLight)]
                                              [Phong.POINT_LINE_LENGTH := LightCount(next.pointLight)];
        var text := Wgsl.Process(fragmentSource, [], replaceDirectives);
        base.fragmentShader := Some(text);
        base.lights := Some(next);
      }
    }

    /**
     * `getAlbedoColorBuffer(device)`: created and written with the albedo
     * once; later calls return the same buffer, even if the albedo changed.
     */
    method GetAlbedoColorBuffer(device: Device) returns (h: Handle)
      modifies this, device
      ensures albedoColorBuffer == Some(h)
      ensures old(albedoColorBuffer).Some? ==> h == old(albedoColorBuffer).value && unchanged(device)
      ensures old(albedoColorBuffer).None? ==> h == old(device.next) && device.next == h + 1
      ensures device.trace == old(device.trace) + AlbedoCalls(old(albedoColorBuffer), old(device.next), albedo)
      ensures albedo == old(albedo) && bindGroup == old(bindGroup) && replaceDirectives == old(replaceDirectives)
    {
      if albedoColorBuffer.None? {
        var b := device.Create(Buffer(AlbedoBufferDescriptor));
        device.Issue(Command.WriteBuffer(b, 0, Typed(Float32, ColorArray(albedo)), 0, None));
        albedoColorBuffer := Some(b);
      }
      h := albedoColorBuffer.value;
    }

    function BindFrame(): set<object>
      reads base
    {
      LightsFrame(base.lights)
    }

    /**
     * `getBindGroup(device, layout)`: made once from the albedo buffer and
     * the lights' uniform entry, then returned unchanged. Without lights (or
     * without their uniform buffer) the first call throws once the albedo
     * buffer exists.
     */
    method GetBindGroup(device: Device, layout: Handle) returns (r: Result<Handle>)
      modifies this, device, BindFrame()
      ensures r.Err? <==> old(bindGroup).None? && (base.lights.None? || base.lights.value.uniformBuffer.None?)
      ensures r.Err? ==> r.error == TypeError && bindGroup == None
      ensures old(bindGroup).Some? ==> r == Ok(old(bindGroup).value) && bindGroup == old(bindGroup) && unchanged(device)
      ensures r.Ok? && old(bindGroup).None? ==>
        && bindGroup == Some(r.value) && r.value == device.next - 1
        && albedoColorBuffer.Some? && base.lights.value.uniformBuffer.value.bindGroupEntry.Some?
        && |device.trace| > 0 && device.trace[|device.trace| - 1] == Created(r.value, BindGroup(layout,
             [BindEntry(Some(0), BufferBinding(albedoColorBuffer.value, None, None)),
              base.lights.value.uniformBuffer.value.bindGroupEntry.value]))
      ensures albedo == old(albedo) && replaceDirectives == old(replaceDirectives)
    {
      if bindGroup.Some? {
        return Ok(bindGroup.value);
      }
      var h := GetAlbedoColorBuffer(device);
      if base.lights.None? || base.lights.value.uniformBuffer.None? {
        return Err(TypeError);
      }
      var u := base.lights.value.uniformBuffer.value;
      var e1 := u.GetBindGroupEntry(device);
      var g := device.Create(BindGroup(layout, [BindEntry(Some(0), BufferBinding(h, None, None)), e1]));
      bindGroup := Some(g);
      r := Ok(g);
    }
  }
}
