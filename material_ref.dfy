// The material a mesh holds, as the renderer sees it: one of the five
// material classes of the engine. The renderer calls the same methods on
// each (`getLayoutEntries`, the shader-module getters, `getBlend`,
// `getBindGroup`, `destroy`); here the call goes to the class the
// material belongs to.
module MaterialKinds {
  import opened Js
  import opened Gpu
  import opened Buffers
  import opened Uniforms
  import opened Textures
  import opened Materials
  import opened Phong
  import opened Lambert
  import opened Physical
  import opened Skybox

  datatype MaterialRef =
    | Plain(shader: ShaderMaterial)
    | PhongRef(phong: PhongMaterial)
    | LambertRef(lambert: LambertMaterial)
    | PhysicalRef(physical: PhysicalMaterial)
    | SkyboxRef(skybox: SkyboxMaterial)

  /** The `ShaderMaterial` part: name, shaders, blend mode, cull mode, topology and module memos. */
  function Base(m: MaterialRef): ShaderMaterial
  {
    match m
    case Plain(s) => s
    case PhongRef(p) => p.base
    case LambertRef(l) => l.base
    case PhysicalRef(p) => p.base
    case SkyboxRef(s) => s.base
  }

  /** The material object and its base part: the only material objects its own calls change. */
  function Owned(m: MaterialRef): set<object>
  {
    match m
    case Plain(s) => {s}
    case PhongRef(p) => {p, p.base}
    case LambertRef(l) => {l, l.base}
    case PhysicalRef(p) => {p, p.base}
    case SkyboxRef(s) => {s, s.base}
  }

  /** What a Phong material needs of itself before it makes its material buffer; the other classes need nothing. */
  ghost predicate Ready(m: MaterialRef)
    reads if m.PhongRef? then {m.phong} else {}
  {
    m.PhongRef? ==> m.phong.Valid()
  }

  /** The bind group a material keeps after its first `getBindGroup`; the base class keeps none. */
  function Memo(m: MaterialRef): Option<Handle>
    reads Owned(m)
  {
    match m
    case Plain(_) => None
    case PhongRef(p) => p.bindGroup
    case LambertRef(l) => l.bindGroup
    case PhysicalRef(p) => p.bindGroup
    case SkyboxRef(s) => s.bindGroup
  }

  /** `getLayoutEntries()` of the material's class. */
  function EntriesOf(m: MaterialRef): seq<LayoutEntry>
  {
    match m
    case Plain(_) => BaseLayoutEntries
    case PhongRef(p) => PhongLayoutEntries(p.albedoMap.Some?)
    case LambertRef(_) => LambertLayoutEntries()
    case PhysicalRef(_) => PhysicalLayoutEntries()
    case SkyboxRef(_) => SkyboxLayoutEntries()
  }

  /** The layout of the material's bind group (group 1): two uniform buffers first for the lit materials, textures for the others. */
  lemma EntriesOfShapes(m: MaterialRef)
    ensures m.Plain? ==> EntriesOf(m) == []
    ensures m.PhongRef? ==> |EntriesOf(m)| == (if m.phong.albedoMap.Some? then 4 else 2)
    ensures m.LambertRef? ==> |EntriesOf(m)| == 2
    ensures m.PhysicalRef? ==> |EntriesOf(m)| == 7
    ensures m.SkyboxRef? ==> |EntriesOf(m)| == 2
    ensures m.PhongRef? || m.LambertRef? ==>
      EntriesOf(m)[0].resource == BufferSlot("uniform") && EntriesOf(m)[1].resource == BufferSlot("uniform")
  {
    match m
    case Plain(_) =>
    case PhongRef(p) =>
    case LambertRef(_) =>
    case PhysicalRef(_) =>
    case SkyboxRef(_) =>
  }

  /** `material.getLayoutEntries()`. */
  method LayoutEntries(m: MaterialRef) returns (r: seq<LayoutEntry>)
    requires Ready(m)
    modifies Owned(m)
    ensures r == EntriesOf(m)
    ensures Ready(m) && Memo(m) == old(Memo(m))
    ensures m.PhongRef? ==> m.phong.materialUniform == old(m.phong.materialUniform)
    ensures unchanged(Base(m))
  {
    match m
    case Plain(_) => r := BaseLayoutEntries;
    case PhongRef(p) => r := p.GetLayoutEntries();
    case LambertRef(_) => r := LambertLayoutEntries();
    case PhysicalRef(_) => r := PhysicalLayoutEntries();
    case SkyboxRef(_) => r := SkyboxLayoutEntries();
  }

  /**
   * What `getBindGroup` may change besides the material and the device,
   * by kind. Buffers: a Phong material's uniform buffer and, for Phong and
   * Lambert, the lights' uniform buffer. Uniforms: the lights' uniform, for
   * Phong and Lambert. Textures: a Phong material's albedo map, a physical
   * material's five textures and the cube map, a skybox's texture. The
   * base class changes none.
   */
  function GroupBuffers(m: MaterialRef): set<BufferObject>
    reads Owned(m)
  {
    match m
    case PhongRef(p) => (if p.materialUniform == null then {} else {p.materialUniform.buf}) + LightsBuffer(p.base.lights)
    case LambertRef(l) => LightsBuffer(l.base.lights)
    case _ => {}
  }

  function GroupUniforms(m: MaterialRef): set<UniformBuffer>
    reads Owned(m)
  {
    if m.PhongRef? || m.LambertRef? then LightsUniform(Base(m).lights) else {}
  }

  function GroupTextures(m: MaterialRef, cubemap: TextureObject): set<TextureObject>
  {
    match m
    case PhongRef(p) => if p.albedoMap.Some? then {p.albedoMap.value} else {}
    case PhysicalRef(p) => Physical.Frame(p.baseColorTexture) + Physical.Frame(p.normalTexture)
      + Physical.Frame(p.metallicRoughnessTexture) + Physical.Frame(p.emissiveTexture) + Physical.Frame(p.aoTexture) + {cubemap}
    case SkyboxRef(s) => if s.texture.Some? then {s.texture.value} else {}
    case _ => {}
  }

  /** The lights' uniform, when there is one. */
  function LightsUniform(lights: Option<LightSet>): set<UniformBuffer>
  {
    if lights.Some? && lights.value.uniformBuffer.Some? then {lights.value.uniformBuffer.value} else {}
  }

  /** The lights' uniform's buffer, when there is one. */
  function LightsBuffer(lights: Option<LightSet>): set<BufferObject>
  {
    if lights.Some? && lights.value.uniformBuffer.Some? then {lights.value.uniformBuffer.value.buf} else {}
  }

  /** The kinds stay the same while the lights and a Phong material's uniform do. */
  twostate lemma GroupKept(m: MaterialRef)
    requires Base(m).lights == old(Base(m).lights)
    requires m.PhongRef? ==> m.phong.materialUniform == old(m.phong.materialUniform)
    ensures GroupBuffers(m) == old(GroupBuffers(m)) && GroupUniforms(m) == old(GroupUniforms(m))
  {
  }

  /**
   * `material.getBindGroup(device, layout, cubemap)`: only the physical
   * material reads the cube map. A memoising material returns the group
   * it kept; the base class makes a new empty one on every call.
   */
  method GetBindGroup(m: MaterialRef, device: Device, layout: Handle, cubemap: TextureObject) returns (r: Result<Handle>)
    requires Ready(m)
    modifies Owned(m), device, GroupBuffers(m), GroupUniforms(m), GroupTextures(m, cubemap)
    ensures Ready(m)
    ensures r.Err? ==> r.error == TypeError && !m.Plain?
    ensures !m.Plain? && old(Memo(m)).Some? ==> r == Ok(old(Memo(m)).value)
    ensures !m.Plain? && r.Ok? ==> Memo(m) == Some(r.value)
    ensures m.Plain? ==>
      && r.Ok? && r.value == old(device.next) && device.next == r.value + 1
      && device.trace == old(device.trace) + [Created(r.value, BindGroup(layout, []))]
    ensures unchanged(Base(m))
  {
    match m
    case Plain(s) =>
      var g := s.GetBindGroup(device, layout);
      r := Ok(g);
    case PhongRef(p) =>
      r := p.GetBindGroup(device, layout);
    case LambertRef(l) =>
      r := l.GetBindGroup(device, layout);
    case PhysicalRef(p) =>
      r := p.GetBindGroup(device, layout, Some(cubemap));
    case SkyboxRef(s) =>
      r := s.GetBindGroup(device, layout);
  }

  /** `material.destroy()`: every class inherits the base one, which forgets the module memos. */
  method Destroy(m: MaterialRef)
    modifies Base(m)
    ensures Base(m).vertexModule == None && Base(m).fragmentModule == None
    ensures Base(m).fragmentShader == old(Base(m).fragmentShader) && Base(m).lights == old(Base(m).lights)
  {
    Base(m).Destroy();
  }
}
