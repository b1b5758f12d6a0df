// The skybox material: a cube texture and its sampler in a bind group made once.
module Skybox {
  import opened Js
  import opened Gpu
  import opened Textures
  import opened Materials

  /** `getLayoutEntries()`: the cube texture at binding 0 and a filtering sampler at binding 1, fragment stage only. */
  function SkyboxLayoutEntries(): (r: seq<LayoutEntry>)
    ensures |r| == 2
    ensures r[0] == LayoutEntry(Some(0), STAGE_FRAGMENT, TextureSlot("float", Some("cube")))
    ensures r[1] == LayoutEntry(Some(1), STAGE_FRAGMENT, SamplerSlot("filtering"))
  {
    [ LayoutEntry(Some(0), STAGE_FRAGMENT, TextureSlot("float", Some("cube"))),
      LayoutEntry(Some(1), STAGE_FRAGMENT, SamplerSlot("filtering")) ]
  }

  class SkyboxMaterial {
    const base: ShaderMaterial
    const texture: Option<TextureObject>
    var bindGroup: Option<Handle>

    /** The cull mode stays the default "back": the skybox does not override it. */
    constructor(texture: Option<TextureObject>, vertexSource: string, fragmentSource: string)
      ensures fresh(base) && base.name == "SkyboxMaterial"
      ensures base.vertexShader == Some(vertexSource) && base.fragmentShader == Some(fragmentSource)
      ensures base.cullMode == "back" && base.blendMode == "OPAQUE" && base.lights == None
      ensures base.vertexModule == None && base.fragmentModule == None
      ensures this.texture == texture && bindGroup == None
    {
      base := new ShaderMaterial(MaterialProps(Some("SkyboxMaterial"), Some(vertexSource), Some(fragmentSource), None));
      this.texture := texture;
      bindGroup := None;
    }

    function TextureFrame(): set<object>
    {
      if texture.Some? then {texture.value} else {}
    }

    /**
     * `getBindGroup(device, layout)`: made once. The sampler is asked for
     * first, because a new sampler releases the texture and its view; the
     * view made next is therefore the texture's current one when the group
     * is created. Without a texture it throws.
     */
    method GetBindGroup(device: Device, layout: Handle) returns (r: Result<Handle>)
      modifies this, device, TextureFrame()
      ensures r.Err? <==> old(bindGroup).None? && texture.None?
      ensures r.Err? ==> r.error == TypeError && bindGroup == None && unchanged(device)
      ensures old(bindGroup).Some? ==> r == Ok(old(bindGroup).value) && bindGroup == old(bindGroup) && unchanged(device)
      ensures r.Ok? && old(bindGroup).None? ==>
        && bindGroup == Some(r.value) && r.value == device.next - 1
        && texture.value.view.Some? && texture.value.sampler.Some?
        && |device.trace| > 0
        && device.trace[|device.trace| - 1] == Created(r.value, BindGroup(layout,
             [BindEntry(Some(0), Bound(texture.value.view.value)), BindEntry(Some(1), Bound(texture.value.sampler.value))]))
    {
      if bindGroup.Some? {
        return Ok(bindGroup.value);
      }
      if texture.None? {
        return Err(TypeError);
      }
      var t := texture.value;
      var _ := t.GetSampler(device, false, map[]);
      var v := t.GetView(device, false, map[]);
      var s := t.GetSampler(device, false, map[]);
      var g := device.Create(BindGroup(layout, [BindEntry(Some(0), Bound(v)), BindEntry(Some(1), Bound(s))]));
      bindGroup := Some(g);
      r := Ok(g);
    }
  }
}
