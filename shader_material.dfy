// The base material: its defaults, the blend-mode table, the shader-module
// cache shared by all materials (keyed by source text), the per-material
// module memos, and the lights a material is attached to.
module Materials {
  import opened Js
  import opened Gpu
  import opened Uniforms

  /** `{lights: [...]}`: a group of lights of one kind; only its length is read. */
  datatype LightGroup = LightGroup(count: nat)

  /** The lights object handed to `attachLight`. */
  datatype LightSet = LightSet(
    directionLight: Option<LightGroup>,
    pointLight: Option<LightGroup>,
    uniformBuffer: Option<UniformBuffer>)

  /** The lights' uniform buffer and its buffer object: what a bind-group getter changes through the lights. */
  function LightsFrame(lights: Option<LightSet>): (fr: set<object>)
    ensures lights.Some? && lights.value.uniformBuffer.Some? ==>
      lights.value.uniformBuffer.value in fr && lights.value.uniformBuffer.value.buf in fr
  {
    if lights.Some? && lights.value.uniformBuffer.Some?
    then {lights.value.uniformBuffer.value, lights.value.uniformBuffer.value.buf}
    else {}
  }

  /** `group?.lights.length || 0`. */
  function LightCount(g: Option<LightGroup>): (n: nat)
    ensures g.Some? ==> n == g.value.count
    ensures g.None? ==> n == 0
  {
    if g.Some? then g.value.count else 0
  }

  /** The two kinds of value the light-count comparison mixes. */
  datatype JsValue = Bool(b: bool) | Number(n: int)

  /** `!n` on a number. */
  function Not(n: nat): bool
  {
    n == 0
  }

  /** `a !== b`: different types are never strictly equal. */
  predicate StrictNotEqual(a: JsValue, b: JsValue)
  {
    a != b
  }

  /**
   * The condition under which `attachLight` regenerates the fragment shader:
   * no shader yet, no lights yet, or, for either kind of light present in
   * both the old and the new lights, `!oldCount !== newCount`.
   */
  predicate Regenerates(fragmentShader: Option<string>, current: Option<LightSet>, next: LightSet)
  {
    || !Truthy(fragmentShader)
    || current.None?
    || (current.value.directionLight.Some? && next.directionLight.Some?
        && StrictNotEqual(Bool(Not(current.value.directionLight.value.count)), Number(next.directionLight.value.count)))
    || (current.value.pointLight.Some? && next.pointLight.Some?
        && StrictNotEqual(Bool(Not(current.value.pointLight.value.count)), Number(next.pointLight.value.count)))
  }

  /**
   * Because a boolean is compared with a number, the counts never matter:
   * the shader is regenerated iff there is no shader or no lights yet, or
   * both old and new lights have direction lights, or both have point lights.
   */
  lemma RegeneratesIgnoresCounts(fragmentShader: Option<string>, current: Option<LightSet>, next: LightSet)
    ensures Regenerates(fragmentShader, current, next) <==>
      || !Truthy(fragmentShader)
      || current.None?
      || (current.value.directionLight.Some? && next.directionLight.Some?)
      || (current.value.pointLight.Some? && next.pointLight.Some?)
  {
  }

  // ---------------------------------------------------------------------
  // Blend modes.

  function Component(src: string, dst: string): BlendComponent
  {
    BlendComponent(src, dst, Some("add"))
  }

  /** `getBlend()`: the blend state of a blend mode, `undefined` for an unknown one. */
  function Blend(mode: string): Option<BlendState>
  {
    if mode == "OPAQUE" then
      Some(BlendState(Component("src-alpha", "one-minus-src-alpha"), Component("src-alpha", "one")))
    else if mode == "ADD" then
      Some(BlendState(Component("src-alpha", "one"), Component("src-alpha", "one")))
    else if mode == "MULTIPLY" then
      Some(BlendState(Component("dst-color", "zero"), Component("dst-color", "zero")))
    else if mode == "ALPHA" || mode == "BLEND" then
      Some(BlendState(BlendComponent("src-alpha", "one-minus-src-alpha", None), BlendComponent("zero", "one", None)))
    else if mode == "PREMULTIPLIED" then
      Some(BlendState(Component("one", "one-minus-src-alpha"), Component("one", "one-minus-src-alpha")))
    else if mode == "SCREEN" then
      Some(BlendState(Component("one", "one-minus-src-color"), Component("one", "one-minus-src-color")))
    else None
  }

  predicate KnownBlendMode(mode: string)
  {
    mode == "OPAQUE" || mode == "ADD" || mode == "MULTIPLY" || mode == "ALPHA"
      || mode == "BLEND" || mode == "PREMULTIPLIED" || mode == "SCREEN"
  }

  /** A blend state exists exactly for the seven known mode names. */
  lemma BlendDefinedIffKnown(mode: string)
    ensures Blend(mode).Some? <==> KnownBlendMode(mode)
  {
  }

  /**
   * The alpha-blending entry, under either of its two names, is the only
   * one whose components carry no `operation`; every other known mode adds.
   */
  lemma BlendOperations(mode: string)
    requires KnownBlendMode(mode)
    ensures (mode == "ALPHA" || mode == "BLEND") <==>
      Blend(mode).value.color.operation.None? && Blend(mode).value.alpha.operation.None?
    ensures mode != "ALPHA" && mode != "BLEND" ==>
      Blend(mode).value.color.operation == Some("add") && Blend(mode).value.alpha.operation == Some("add")
    ensures Blend("ALPHA") == Blend("BLEND")
  {
  }

  /** The default mode still blends: source alpha over one minus source alpha. */
  lemma OpaqueBlends()
    ensures Blend("OPAQUE").Some?
    ensures Blend("OPAQUE").value.color.srcFactor == "src-alpha"
    ensures Blend("OPAQUE").value.color.dstFactor == "one-minus-src-alpha"
    ensures Blend("OPAQUE").value.alpha == BlendComponent("src-alpha", "one", Some("add"))
  {
  }

  // ---------------------------------------------------------------------
  // The shader-module cache shared by every material.

  /** `ShaderMaterial._cachedShader`: shader modules by source text (`undefined` is a key too). */
  class ShaderCache {
    var modules: map<Option<string>, Handle>

    constructor()
      ensures modules == map[]
    {
      modules := map[];
    }

    /** Every cached module is one the device created from exactly that source text. */
    ghost predicate Consistent(device: Device)
      reads this, device
    {
      forall code :: code in modules ==> Created(modules[code], ShaderModule(code)) in device.trace
    }

    /** `ShaderMaterial.clearCache()`. */
    method Clear()
      modifies this
      ensures modules == map[]
    {
      modules := map[];
    }

    /** `createShaderModule(device, code)`: a device call only on a cache miss. */
    method ModuleFor(device: Device, code: Option<string>) returns (h: Handle)
      modifies this, device
      ensures code in old(modules) ==> h == old(modules)[code] && unchanged(this, device)
      ensures code !in old(modules) ==>
        && h == old(device.next) && device.next == h + 1
        && device.trace == old(device.trace) + [Created(h, ShaderModule(code))]
        && modules == old(modules)[code := h]
      ensures old(Consistent(device)) ==> Consistent(device) && Created(h, ShaderModule(code)) in device.trace
    {
      if code in modules {
        h := modules[code];
        return;
      }
      h := device.Create(ShaderModule(code));
      modules := modules[code := h];
    }
  }

  // ---------------------------------------------------------------------
  // The base material.

  /** The options of `new ShaderMaterial(props)`. */
  datatype MaterialProps = MaterialProps(
    name: Option<string>,
    vertexShader: Option<string>,
    fragmentShader: Option<string>,
    blendMode: Option<string>)

  class ShaderMaterial {
    const name: string
    const vertexShader: Option<string>
    var fragmentShader: Option<string>
    const cullMode: string
    const topology: string
    const blendMode: string
    var vertexModule: Option<Handle>
    var fragmentModule: Option<Handle>
    var lights: Option<LightSet>

    constructor(props: MaterialProps)
      ensures name == props.name.OrElse("ShaderMaterial")
      ensures vertexShader == props.vertexShader && fragmentShader == props.fragmentShader
      ensures blendMode == props.blendMode.OrElse("OPAQUE")
      ensures cullMode == "back" && topology == "triangle-list"
      ensures vertexModule == None && fragmentModule == None && lights == None
    {
      name := props.name.OrElse("ShaderMaterial");
      vertexShader := props.vertexShader;
      fragmentShader := props.fragmentShader;
      cullMode := "back";
      topology := "triangle-list";
      blendMode := props.blendMode.OrElse("OPAQUE");
      vertexModule := None;
      fragmentModule := None;
      lights := None;
    }

    /** `destroy()`: forget the module memos; the shared cache keeps its modules. */
    method Destroy()
      modifies this
      ensures vertexModule == None && fragmentModule == None
      ensures fragmentShader == old(fragmentShader) && lights == old(lights)
    {
      vertexModule := None;
      fragmentModule := None;
    }

    /**
     * `getVertexShaderModule(device)`: memoised per material; the memo is
     * kept even if the shader text changes afterwards.
     */
    method GetVertexShaderModule(cache: ShaderCache, device: Device) returns (h: Handle)
      modifies this`vertexModule, cache, device
      ensures vertexModule == Some(h)
      ensures old(vertexModule).Some? ==> h == old(vertexModule).value && unchanged(this, cache, device)
      ensures old(vertexModule).None? ==>
        && (vertexShader in old(cache.modules) ==> h == old(cache.modules)[vertexShader] && unchanged(cache, device))
        && (vertexShader !in old(cache.modules) ==>
              && h == old(device.next) && device.next == h + 1
              && device.trace == old(device.trace) + [Created(h, ShaderModule(vertexShader))]
              && cache.modules == old(cache.modules)[vertexShader := h])
      ensures fragmentModule == old(fragmentModule) && fragmentShader == old(fragmentShader) && lights == old(lights)
      ensures old(cache.Consistent(device)) ==> cache.Consistent(device)
    {
      if vertexModule.Some? {
        h := vertexModule.value;
        return;
      }
      h := cache.ModuleFor(device, vertexShader);
      vertexModule := Some(h);
    }

    /** `getFragmentShaderModule(device)`: the same, for the fragment shader. */
    method GetFragmentShaderModule(cache: ShaderCache, device: Device) returns (h: Handle)
      modifies this`fragmentModule, cache, device
      ensures fragmentModule == Some(h)
      ensures old(fragmentModule).Some? ==> h == old(fragmentModule).value && unchanged(this, cache, device)
      ensures old(fragmentModule).None? ==>
        && (fragmentShader in old(cache.modules) ==> h == old(cache.modules)[fragmentShader] && unchanged(cache, device))
        && (fragmentShader !in old(cache.modules) ==>
              && h == old(device.next) && device.next == h + 1
              && device.trace == old(device.trace) + [Created(h, ShaderModule(fragmentShader))]
              && cache.modules == old(cache.modules)[fragmentShader := h])
      ensures vertexModule == old(vertexModule) && fragmentShader == old(fragmentShader) && lights == old(lights)
      ensures old(cache.Consistent(device)) ==> cache.Consistent(device)
    {
      if fragmentModule.Some? {
        h := fragmentModule.value;
        return;
      }
      h := cache.ModuleFor(device, fragmentShader);
      fragmentModule := Some(h);
    }

    /** `getBindGroup(device, layout)` of the base class: a new empty bind group on every call. */
    method GetBindGroup(device: Device, layout: Handle) returns (g: Handle)
      modifies device
      ensures g == old(device.next) && device.next == g + 1
      ensures device.trace == old(device.trace) + [Created(g, BindGroup(layout, []))]
    {
      g := device.Create(BindGroup(layout, []));
    }

    /** `attachLight(lights)` of the base class: store the lights. */
    method AttachLight(next: LightSet)
      modifies this
      ensures lights == Some(next)
      ensures fragmentShader == old(fragmentShader) && vertexModule == old(vertexModule) && fragmentModule == old(fragmentModule)
    {
      lights := Some(next);
    }
  }

  /** `getLayoutEntries()` of the base class. */
  const BaseLayoutEntries: seq<LayoutEntry> := []
}
