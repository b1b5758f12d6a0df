// The Phong material: its defaults, the light-driven shader regeneration,
// the four-item material uniform, its layout entries and its bind group.
module Phong {
  import opened Js
  import opened Gpu
  import opened Buffers
  import opened Uniforms
  import opened Textures
  import opened Colors
  import opened Materials
  import Wgsl

  /** The options of `new PhongMaterial({...})`. */
  datatype PhongProps = PhongProps(
    ambientIntensity: Option<real>,
    ambientColor: Option<Color>,
    specularColor: Option<Color>,
    specularReflection: Option<real>,
    diffuseColor: Option<Color>,
    diffuseReflection: Option<real>,
    shininess: Option<real>,
    albedoMap: Option<TextureObject>)

  const DIRECTION_LINE_LENGTH := "DIRECTION_LINE_LENGTH"
  const POINT_LINE_LENGTH := "POINT_LINE_LENGTH"

  /** The material uniform: four 16-byte items, the last one a float and 12 bytes of padding. */
  const MaterialItems: seq<UniformItem> := [
    UniformItem("Ambient", 16, None),
    UniformItem("Diffuse", 16, None),
    UniformItem("Specular", 16, None),
    UniformItem("Shininess", 4 + 12, None)]

  const MaterialUniformProps := UniformProps(Some("PhongMaterialUniformBuffer"), None, None, MaterialItems)

  /** The items lie at offsets 0, 16, 32 and 48 of a 64-byte buffer. */
  lemma MaterialLayout()
    ensures OffsetTable(MaterialItems) == map["Ambient" := 0, "Diffuse" := 16, "Specular" := 32, "Shininess" := 48]
    ensures TotalSize(MaterialItems) == 64
  {
    assert SizeBefore(MaterialItems, 1) == 16;
    assert SizeBefore(MaterialItems, 2) == 32;
    assert SizeBefore(MaterialItems, 3) == 48;
    assert Offsets(MaterialItems, 4) == map["Ambient" := 0, "Diffuse" := 16, "Specular" := 32, "Shininess" := 48];
    ReduceIsSizeBefore(MaterialItems, 0);
  }

  /** The descriptor the material buffer is created with. */
  const MaterialBufferDescriptor := BufferDescriptor(64, UNIFORM_COPY_DST, Some("[UNIFORM_BUFFER] " + "PhongMaterialUniformBuffer"), Some(false))

  /** The creation of the material buffer as handle `n`, when its state `b` has none yet. */
  function MaterialBufferCreation(b: Option<Handle>, n: Handle): seq<Call>
  {
    if b.Some? then [] else [Created(n, Buffer(MaterialBufferDescriptor))]
  }

  /** The four writes of `getMaterialBuffer` into the material buffer `h`. */
  function MaterialWrites(h: Handle, ambient: Color, diffuse: Color, specular: Color, shininess: real): seq<Call>
  {
    [ Issued(Command.WriteBuffer(h, 0, Typed(Float32, ColorArray(ambient)), 0, Some(16))),
      Issued(Command.WriteBuffer(h, 16, Typed(Float32, ColorArray(diffuse)), 0, Some(16))),
      Issued(Command.WriteBuffer(h, 32, Typed(Float32, ColorArray(specular)), 0, Some(16))),
      Issued(Command.WriteBuffer(h, 48, Typed(Float32, [shininess]), 0, Some(4))) ]
  }

  /** `getLayoutEntries()`: the material and light uniforms, then the albedo sampler and texture when there is an albedo map. */
  function PhongLayoutEntries(hasAlbedoMap: bool): (r: seq<LayoutEntry>)
    ensures |r| == if hasAlbedoMap then 4 else 2
    ensures forall i :: 0 <= i < |r| ==> r[i].binding == Some(i)
    ensures r[0].resource == BufferSlot("uniform") && r[1].resource == BufferSlot("uniform")
    ensures r[0].visibility == STAGE_VERTEX + STAGE_FRAGMENT && r[1].visibility == STAGE_VERTEX + STAGE_FRAGMENT
    ensures hasAlbedoMap ==> r[2] == LayoutEntry(Some(2), STAGE_FRAGMENT, SamplerSlot("filtering"))
    ensures hasAlbedoMap ==> r[3] == LayoutEntry(Some(3), STAGE_FRAGMENT, TextureSlot("float", None))
  {
    var uniforms := [
      LayoutEntry(Some(0), VERTEX_FRAGMENT, BufferSlot("uniform")),
      LayoutEntry(Some(1), VERTEX_FRAGMENT, BufferSlot("uniform"))];
    if hasAlbedoMap then
      uniforms + [LayoutEntry(Some(2), STAGE_FRAGMENT, SamplerSlot("filtering")),
                  LayoutEntry(Some(3), STAGE_FRAGMENT, TextureSlot("float", None))]
    else uniforms
  }

  /** The four `set` calls of `getMaterialBuffer` on the material uniform `u`. */
  method WriteMaterial(u: UniformBuffer, device: Device, ambient: Color, diffuse: Color, specular: Color, shininessArray: seq<real>)
    requires u.offsets == OffsetTable(MaterialItems) && u.buf.Descriptor() == MaterialBufferDescriptor && u.buf.data.None?
    requires |shininessArray| == 1
    modifies u.buf, device
    ensures u.buf.buffer == Some(Resolved(old(u.buf.buffer), old(device.next)))
    ensures device.next == NextAfter(old(u.buf.buffer), old(device.next))
    ensures device.trace == old(device.trace) + MaterialBufferCreation(old(u.buf.buffer), old(device.next))
      + MaterialWrites(Resolved(old(u.buf.buffer), old(device.next)), ambient, diffuse, specular, shininessArray[0])
  {
    MaterialLayout();
    ghost var t0 := device.trace;
    u.Set(device, "Ambient", Typed(Float32, ColorArray(ambient)));
    var h := u.buf.buffer.value;
    assert device.trace == t0 + MaterialBufferCreation(old(u.buf.buffer), old(device.next))
      + [Issued(Command.WriteBuffer(h, 0, Typed(Float32, ColorArray(ambient)), 0, Some(16)))];
    ghost var t1 := device.trace;
    u.Set(device, "Diffuse", Typed(Float32, ColorArray(diffuse)));
    assert device.trace == t1 + [Issued(Command.WriteBuffer(h, 16, Typed(Float32, ColorArray(diffuse)), 0, Some(16)))];
    ghost var t2 := device.trace;
    u.Set(device, "Specular", Typed(Float32, ColorArray(specular)));
    assert device.trace == t2 + [Issued(Command.WriteBuffer(h, 32, Typed(Float32, ColorArray(specular)), 0, Some(16)))];
    ghost var t3 := device.trace;
    u.Set(device, "Shininess", Typed(Float32, shininessArray));
    assert shininessArray == [shininessArray[0]];
    assert device.trace == t3 + [Issued(Command.WriteBuffer(h, 48, Typed(Float32, [shininessArray[0]]), 0, Some(4)))];
  }

  class PhongMaterial {
    const base: ShaderMaterial
    /** The text of the Phong fragment shader before preprocessing. */
    const fragmentSource: string
    var ambientIntensity: real
    var ambientColor: Color
    var specularColor: Color
    var specularReflection: real
    var diffuseColor: Color
    var diffuseReflection: real
    var shininess: real
    const albedoMap: Option<TextureObject>
    var replaceDirectives: map<string, nat>
    const conditionDirectives: seq<string>
    var materialUniform: UniformBuffer?
    var shininessArray: seq<real>
    var layoutEntries: seq<LayoutEntry>
    var bindGroup: Option<Handle>
    var bindGroupEntries: seq<BindEntry>

    /** The material uniform, once made, is the four-item buffer; a stored bind group has at least the two uniform entries. */
    ghost predicate Valid()
      reads this
    {
      && (materialUniform != null ==>
            && materialUniform.offsets == OffsetTable(MaterialItems)
            && materialUniform.buf.Descriptor() == MaterialBufferDescriptor
            && materialUniform.buf.data.None?
            && |shininessArray| == 1)
      && (bindGroup.Some? ==> materialUniform != null && |bindGroupEntries| >= 2)
    }

    constructor(props: PhongProps, vertexSource: string, fragmentSource: string)
      ensures fresh(base) && base.name == "PhongMaterial" && base.vertexShader == Some(vertexSource)
      ensures base.fragmentShader == None && base.blendMode == "OPAQUE" && base.lights == None
      ensures base.vertexModule == None && base.fragmentModule == None
      ensures this.fragmentSource == fragmentSource
      ensures ambientIntensity == props.ambientIntensity.OrElse(0.0)
      ensures ambientColor == props.ambientColor.OrElse(White)
      ensures specularColor == props.specularColor.OrElse(White)
      ensures specularReflection == props.specularReflection.OrElse(0.0)
      ensures diffuseColor == props.diffuseColor.OrElse(White)
      ensures diffuseReflection == props.diffuseReflection.OrElse(1.0)
      ensures shininess == props.shininess.OrElse(0.0)
      ensures albedoMap == props.albedoMap
      ensures replaceDirectives == map[DIRECTION_LINE_LENGTH := 0, POINT_LINE_LENGTH := 0]
      ensures conditionDirectives == if props.albedoMap.Some? then ["USE_ALBEDO_MAP"] else []
      ensures materialUniform == null && bindGroup == None
      ensures Valid()
    {
      base := new ShaderMaterial(MaterialProps(Some("PhongMaterial"), Some(vertexSource), None, None));
      this.fragmentSource := fragmentSource;
      ambientIntensity := props.ambientIntensity.OrElse(0.0);
      ambientColor := props.ambientColor.OrElse(White);
      specularColor := props.specularColor.OrElse(White);
      specularReflection := props.specularReflection.OrElse(0.0);
      diffuseColor := props.diffuseColor.OrElse(White);
      diffuseReflection := props.diffuseReflection.OrElse(1.0);
      shininess := props.shininess.OrElse(0.0);
      albedoMap := props.albedoMap;
      replaceDirectives := map[DIRECTION_LINE_LENGTH := 0, POINT_LINE_LENGTH := 0];
      conditionDirectives := if props.albedoMap.Some? then ["USE_ALBEDO_MAP"] else [];
      materialUniform := null;
      shininessArray := [];
      layoutEntries := [];
      bindGroup := None;
      bindGroupEntries := [];
    }

    /**
     * `attachLight(lights)`: when the regeneration rule fires, set the two
     * light counts, run the preprocessor over the fragment source and store
     * the lights; otherwise nothing changes.
     */
    method AttachLight(next: LightSet)
      modifies this, base
      ensures !Regenerates(old(base.fragmentShader), old(base.lights), next) ==> unchanged(this, base)
      ensures Regenerates(old(base.fragmentShader), old(base.lights), next) ==>
        && replaceDirectives == old(replaceDirectives)[DIRECTION_LINE_LENGTH := LightCount(next.directionLight)]
                                                      [POINT_LINE_LENGTH := LightCount(next.pointLight)]
        && base.fragmentShader == Some(Wgsl.ProcessText(fragmentSource, conditionDirectives, replaceDirectives))
        && base.lights == Some(next)
      ensures base.vertexModule == old(base.vertexModule) && base.fragmentModule == old(base.fragmentModule)
      ensures materialUniform == old(materialUniform) && bindGroup == old(bindGroup) && bindGroupEntries == old(bindGroupEntries)
      ensures shininessArray == old(shininessArray)
    {
      if Regenerates(base.fragmentShader, base.lights, next) {
        replaceDirectives := replaceDirectives[DIRECTION_LINE_LENGTH := LightCount(next.directionLight)]
                                              [POINT_LINE_LENGTH := LightCount(next.pointLight)];
        var text := Wgsl.Process(fragmentSource, conditionDirectives, replaceDirectives);
        base.fragmentShader := Some(text);
        base.lights := Some(next);
      }
    }

    /** The objects `getMaterialBuffer` may change besides this material and the device. */
    function MaterialFrame(): set<object>
      reads this
    {
      if materialUniform == null then {} else {materialUniform.buf}
    }

    /**
     * `getMaterialBuffer(device)`: make the uniform on the first call; on
     * every call copy the three reflection factors into the colours' alpha
     * and write all four items; return the device buffer.
     */
    method GetMaterialBuffer(device: Device) returns (h: Handle)
      requires Valid()
      modifies this, device, MaterialFrame()
      ensures Valid()
      ensures materialUniform != null && materialUniform.buf.buffer == Some(h)
      ensures old(materialUniform) == null ==> fresh(materialUniform) && fresh(materialUniform.buf)
      ensures old(materialUniform) != null ==> materialUniform == old(materialUniform)
      ensures ambientColor == old(ambientColor).(alpha := ambientIntensity)
      ensures diffuseColor == old(diffuseColor).(alpha := diffuseReflection)
      ensures specularColor == old(specularColor).(alpha := specularReflection)
      ensures shininessArray == [shininess]
      ensures var b0 := if old(materialUniform) == null then None else old(materialUniform.buf.buffer);
        && h == Resolved(b0, old(device.next))
        && device.next == NextAfter(b0, old(device.next))
        && device.trace == old(device.trace) + MaterialBufferCreation(b0, old(device.next))
             + MaterialWrites(h, ambientColor, diffuseColor, specularColor, shininess)
      ensures bindGroup == old(bindGroup) && bindGroupEntries == old(bindGroupEntries)
      ensures ambientIntensity == old(ambientIntensity) && diffuseReflection == old(diffuseReflection)
      ensures specularReflection == old(specularReflection) && shininess == old(shininess)
      ensures replaceDirectives == old(replaceDirectives) && layoutEntries == old(layoutEntries)
    {
      MakeMaterialUniform();
      ambientColor := ambientColor.(alpha := ambientIntensity);
      diffuseColor := diffuseColor.(alpha := diffuseReflection);
      specularColor := specularColor.(alpha := specularReflection);
      shininessArray := shininessArray[0 := shininess];
      var u := materialUniform;
      WriteMaterial(u, device, ambientColor, diffuseColor, specularColor, shininessArray);
      // `getBuffer()` is called without a device: it only works because the
      // writes above have made the device buffer already.
      h := u.buf.buffer.value;
    }

    /** The first step of `getMaterialBuffer()`: the material uniform and the shininess array, made once. */
    method MakeMaterialUniform()
      requires Valid()
      modifies this`materialUniform, this`shininessArray
      ensures Valid() && materialUniform != null
      ensures old(materialUniform) == null ==> fresh(materialUniform) && fresh(materialUniform.buf) && materialUniform.buf.buffer == None
      ensures old(materialUniform) != null ==> materialUniform == old(materialUniform) && shininessArray == old(shininessArray)
    {
      if materialUniform == null {
        shininessArray := [0.0];
        materialUniform := new UniformBuffer(MaterialUniformProps);
        MaterialLayout();
      }
    }

    /** `getLayoutEntries()`: the table, also kept on the material. */
    method GetLayoutEntries() returns (r: seq<LayoutEntry>)
      modifies this
      ensures r == PhongLayoutEntries(albedoMap.Some?) && layoutEntries == r
      ensures materialUniform == old(materialUniform) && bindGroup == old(bindGroup) && bindGroupEntries == old(bindGroupEntries)
      ensures shininessArray == old(shininessArray)
    {
      layoutEntries := PhongLayoutEntries(albedoMap.Some?);
      r := layoutEntries;
    }

    /** The objects `getBindGroup` may change besides this material, its uniform and the device. */
    function BindFrame(): set<object>
      reads this, base
    {
      MaterialFrame()
        + (if base.lights.Some? && base.lights.value.uniformBuffer.Some?
           then {base.lights.value.uniformBuffer.value, base.lights.value.uniformBuffer.value.buf} else {})
        + (if albedoMap.Some? then {albedoMap.value} else {})
    }

    /** The first-call branch of `getBindGroup`: write the material buffer, then gather the entries and create the group. */
    method MakeBindGroup(device: Device, layout: Handle) returns (r: Result<Handle>)
      requires Valid() && bindGroup.None?
      modifies this, device, BindFrame()
      ensures Valid() && materialUniform != null && materialUniform.buf.buffer.Some?
      ensures old(materialUniform) == null ==> fresh(materialUniform) && fresh(materialUniform.buf)
      ensures old(materialUniform) != null ==> materialUniform == old(materialUniform)
      ensures r.Err? <==> base.lights.None? || base.lights.value.uniformBuffer.None?
      ensures r.Err? ==> r.error == TypeError && bindGroup == None
      ensures r.Ok? ==>
        && bindGroup == Some(r.value)
        && |bindGroupEntries| == (if albedoMap.Some? then 4 else 2)
        && materialUniform.buf.buffer.Some?
        && bindGroupEntries[0] == BindEntry(Some(0), BufferBinding(materialUniform.buf.buffer.value, None, None))
        && base.lights.value.uniformBuffer.value.bindGroupEntry.Some?
        && bindGroupEntries[1] == base.lights.value.uniformBuffer.value.bindGroupEntry.value
        && (albedoMap.Some? ==>
              && albedoMap.value.sampler.Some? && albedoMap.value.view.Some?
              && bindGroupEntries[2] == BindEntry(Some(2), Bound(albedoMap.value.sampler.value))
              && bindGroupEntries[3] == BindEntry(Some(3), Bound(albedoMap.value.view.value)))
        && Created(r.value, BindGroup(layout, bindGroupEntries)) in device.trace
      ensures base.lights == old(base.lights)
    {
      var h := GetMaterialBuffer(device);
      if base.lights.None? || base.lights.value.uniformBuffer.None? {
        return Err(TypeError);
      }
      var entries := GroupEntries(device, h);
      var g := device.Create(BindGroup(layout, entries));
      bindGroup := Some(g);
      bindGroupEntries := entries;
      r := Ok(g);
    }

    /**
     * The entries of the material's bind group: the material buffer `h`,
     * the lights' uniform entry and, with an albedo map, its sampler and
     * view.
     */
    method GroupEntries(device: Device, h: Handle) returns (entries: seq<BindEntry>)
      requires base.lights.Some? && base.lights.value.uniformBuffer.Some?
      requires materialUniform != null && materialUniform.buf.buffer == Some(h)
      modifies device, base.lights.value.uniformBuffer.value, base.lights.value.uniformBuffer.value.buf
      modifies if albedoMap.Some? then {albedoMap.value} else {}
      ensures materialUniform.buf.buffer == Some(h)
      ensures |entries| == (if albedoMap.Some? then 4 else 2)
      ensures entries[0] == BindEntry(Some(0), BufferBinding(h, None, None))
      ensures base.lights.value.uniformBuffer.value.bindGroupEntry.Some?
      ensures entries[1] == base.lights.value.uniformBuffer.value.bindGroupEntry.value
      ensures albedoMap.Some? ==>
        && albedoMap.value.sampler.Some? && albedoMap.value.view.Some?
        && entries[2] == BindEntry(Some(2), Bound(albedoMap.value.sampler.value))
        && entries[3] == BindEntry(Some(3), Bound(albedoMap.value.view.value))
    {
      var u := base.lights.value.uniformBuffer.value;
      var e1 := u.GetBindGroupEntry(device);
      entries := [BindEntry(Some(0), BufferBinding(h, None, None)), e1];
      if albedoMap.Some? {
        var s := albedoMap.value.GetSampler(device, false, map[]);
        var v := albedoMap.value.GetView(device, false, map[]);
        entries := entries + [BindEntry(Some(2), Bound(s)), BindEntry(Some(3), Bound(v))];
      }
    }

    /**
     * `getBindGroup(device, layout)`: made once, from the material buffer,
     * the lights' uniform entry and, with an albedo map, its sampler and
     * view; every call rewrites the material uniform and puts its buffer
     * back into entry 0. Without lights (or without their uniform buffer)
     * the first call throws once the material buffer is written.
     */
    method GetBindGroup(device: Device, layout: Handle) returns (r: Result<Handle>)
      requires Valid()
      modifies this, device, BindFrame()
      ensures Valid()
      ensures r.Err? <==> old(bindGroup).None? && (old(base.lights).None? || old(base.lights).value.uniformBuffer.None?)
      ensures r.Err? ==> r.error == TypeError
      ensures old(bindGroup).Some? ==>
        && r == Ok(old(bindGroup).value) && bindGroup == old(bindGroup)
        && materialUniform == old(materialUniform) && materialUniform.buf.buffer.Some?
        && bindGroupEntries == old(bindGroupEntries)[0 := BindEntry(Some(0), BufferBinding(materialUniform.buf.buffer.value, None, None))]
        && device.trace == old(device.trace) + MaterialBufferCreation(old(materialUniform.buf.buffer), old(device.next))
             + MaterialWrites(materialUniform.buf.buffer.value, ambientColor, diffuseColor, specularColor, shininess)
      ensures r.Ok? && old(bindGroup).None? ==>
        && bindGroup == Some(r.value)
        && |bindGroupEntries| == (if albedoMap.Some? then 4 else 2)
        && materialUniform.buf.buffer.Some?
        && bindGroupEntries[0] == BindEntry(Some(0), BufferBinding(materialUniform.buf.buffer.value, None, None))
        && base.lights.value.uniformBuffer.value.bindGroupEntry.Some?
        && bindGroupEntries[1] == base.lights.value.uniformBuffer.value.bindGroupEntry.value
        && (albedoMap.Some? ==>
              && albedoMap.value.sampler.Some? && albedoMap.value.view.Some?
              && bindGroupEntries[2] == BindEntry(Some(2), Bound(albedoMap.value.sampler.value))
              && bindGroupEntries[3] == BindEntry(Some(3), Bound(albedoMap.value.view.value)))
        && Created(r.value, BindGroup(layout, bindGroupEntries)) in device.trace
      ensures base.lights == old(base.lights)
    {
      ghost var first := bindGroup.None?;
      if bindGroup.None? {
        r := MakeBindGroup(device, layout);
        if r.Err? {
          return;
        }
      }
      ghost var entries := bindGroupEntries;
      var h2 := GetMaterialBuffer(device);
      bindGroupEntries := bindGroupEntries[0 := BindEntry(Some(0), BufferBinding(h2, None, None))];
      if first {
        assert bindGroupEntries == entries;
      }
      r := Ok(bindGroup.value);
    }
  }
}
