// The physically based material: five textures and a cube map, seven
// fragment-stage layout entries, and a bind group made once.
module Physical {
  import opened Js
  import opened Gpu
  import opened Textures
  import opened Materials

  /** The five textures of `new PhysicalMaterial(props)`; any of them may be missing. */
  datatype PhysicalProps = PhysicalProps(
    baseColorTexture: Option<TextureObject>,
    normalTexture: Option<TextureObject>,
    metallicRoughnessTexture: Option<TextureObject>,
    emissiveTexture: Option<TextureObject>,
    aoTexture: Option<TextureObject>)

  /**
   * `getLayoutEntries()`: a filtering sampler, a cube texture, then five
   * plain float textures, all seen by the fragment stage only, at bindings
   * 0 to 6.
   */
  function PhysicalLayoutEntries(): (r: seq<LayoutEntry>)
    ensures |r| == 7
    ensures forall i :: 0 <= i < 7 ==> r[i].binding == Some(i) && r[i].visibility == STAGE_FRAGMENT
    ensures r[0].resource == SamplerSlot("filtering")
    ensures r[1].resource == TextureSlot("float", Some("cube"))
    ensures forall i :: 2 <= i < 7 ==> r[i].resource == TextureSlot("float", None)
  {
    [ LayoutEntry(Some(0), STAGE_FRAGMENT, SamplerSlot("filtering")),
      LayoutEntry(Some(1), STAGE_FRAGMENT, TextureSlot("float", Some("cube"))),
      LayoutEntry(Some(2), STAGE_FRAGMENT, TextureSlot("float", None)),
      LayoutEntry(Some(3), STAGE_FRAGMENT, TextureSlot("float", None)),
      LayoutEntry(Some(4), STAGE_FRAGMENT, TextureSlot("float", None)),
      LayoutEntry(Some(5), STAGE_FRAGMENT, TextureSlot("float", None)),
      LayoutEntry(Some(6), STAGE_FRAGMENT, TextureSlot("float", None)) ]
  }

  /** The bind-group entries: the sampler at binding 0, then the views at bindings 1, 2, .... */
  function SamplerAndViews(sampler: Handle, views: seq<Handle>): (r: seq<BindEntry>)
    ensures |r| == |views| + 1
    ensures r[0] == BindEntry(Some(0), Bound(sampler))
    ensures forall i :: 0 <= i < |views| ==> r[i + 1] == BindEntry(Some(i + 1), Bound(views[i]))
  {
    [BindEntry(Some(0), Bound(sampler))] + ViewEntries(views, 1)
  }

  function ViewEntries(views: seq<Handle>, first: nat): (r: seq<BindEntry>)
    ensures |r| == |views|
    ensures forall i :: 0 <= i < |views| ==> r[i] == BindEntry(Some(first + i), Bound(views[i]))
    decreases |views|
  {
    if views == [] then [] else [BindEntry(Some(first), Bound(views[0]))] + ViewEntries(views[1..], first + 1)
  }

  function Frame(t: Option<TextureObject>): set<object>
  {
    if t.Some? then {t.value} else {}
  }

  /** The sampler and the views a bind group is made of. */
  datatype Resources = Resources(sampler: Handle, views: seq<Handle>)

  /** Each texture of `ts` has the matching handle of `vs` as its current view. */
  predicate Shows(ts: seq<TextureObject>, vs: seq<Handle>)
    reads ts
  {
    |ts| == |vs| && forall i :: 0 <= i < |ts| ==> ts[i].view == Some(vs[i])
  }

  /** The current views of textures that all have one. */
  function CurrentViews(ts: seq<TextureObject>): (vs: seq<Handle>)
    requires forall i :: 0 <= i < |ts| ==> ts[i].view.Some?
    reads ts
    ensures Shows(ts, vs)
    decreases |ts|
  {
    if ts == [] then [] else [ts[0].view.value] + CurrentViews(ts[1..])
  }

  /** The views that a texture sequence shows are its current views. */
  lemma ShowsCurrent(ts: seq<TextureObject>, vs: seq<Handle>)
    requires Shows(ts, vs)
    ensures vs == CurrentViews(ts)
  {
    var cs := CurrentViews(ts);
    assert forall i :: 0 <= i < |vs| ==> vs[i] == cs[i];
  }

  /**
   * `t.getView(device)` after the textures `ts` were given the views `vs`:
   * asking again for the view of one of them is a memo hit, so they all
   * keep theirs; no sampler changes.
   */
  method ShowView(device: Device, ghost ts: seq<TextureObject>, ghost vs: seq<Handle>, t: TextureObject,
                  ghost keep: TextureObject, ghost s: Handle) returns (v: Handle)
    requires Shows(ts, vs) && keep.sampler == Some(s)
    modifies device, t
    ensures Shows(ts + [t], vs + [v]) && keep.sampler == Some(s)
  {
    v := t.GetView(device, false, map[]);
  }

  class PhysicalMaterial {
    const base: ShaderMaterial
    const baseColorTexture: Option<TextureObject>
    const normalTexture: Option<TextureObject>
    const metallicRoughnessTexture: Option<TextureObject>
    const emissiveTexture: Option<TextureObject>
    const aoTexture: Option<TextureObject>
    var bindGroup: Option<Handle>

    /** The blend mode is not passed on, so it is always the default. */
    constructor(props: PhysicalProps, vertexSource: string, fragmentSource: string)
      ensures fresh(base) && base.name == "PhysicalMaterial"
      ensures base.vertexShader == Some(vertexSource) && base.fragmentShader == Some(fragmentSource)
      ensures base.blendMode == "OPAQUE" && base.lights == None
      ensures base.vertexModule == None && base.fragmentModule == None
      ensures baseColorTexture == props.baseColorTexture && normalTexture == props.normalTexture
      ensures metallicRoughnessTexture == props.metallicRoughnessTexture
      ensures emissiveTexture == props.emissiveTexture && aoTexture == props.aoTexture
      ensures bindGroup == None
    {
      base := new ShaderMaterial(MaterialProps(Some("PhysicalMaterial"), Some(vertexSource), Some(fragmentSource), None));
      baseColorTexture := props.baseColorTexture;
      normalTexture := props.normalTexture;
      metallicRoughnessTexture := props.metallicRoughnessTexture;
      emissiveTexture := props.emissiveTexture;
      aoTexture := props.aoTexture;
      bindGroup := None;
    }

    /** Whether all five textures are there. */
    predicate HasTextures()
    {
      && baseColorTexture.Some? && normalTexture.Some? && metallicRoughnessTexture.Some?
      && emissiveTexture.Some? && aoTexture.Some?
    }

    function TextureFrame(): set<object>
    {
      Frame(baseColorTexture) + Frame(normalTexture) + Frame(metallicRoughnessTexture)
        + Frame(emissiveTexture) + Frame(aoTexture)
    }

    /** The cube map and the five textures, in binding order. */
    function Viewed(cubemap: TextureObject): (ts: seq<TextureObject>)
      requires HasTextures()
      ensures |ts| == 6 && ts[0] == cubemap && ts[1] == baseColorTexture.value
    {
      [ cubemap, baseColorTexture.value, normalTexture.value,
        metallicRoughnessTexture.value, emissiveTexture.value, aoTexture.value ]
    }

    /** The views of the normal, metallic-roughness, emissive and occlusion textures, after those in `vs`. */
    method MapViews(device: Device, ghost ts: seq<TextureObject>, vs: seq<Handle>, ghost bt: TextureObject, ghost s: Handle)
      returns (r: Result<seq<Handle>>)
      requires baseColorTexture.Some? && Shows(ts, vs) && bt.sampler == Some(s)
      modifies device, TextureFrame()
      ensures r.Err? <==> !HasTextures()
      ensures r.Err? ==> r.error == TypeError
      ensures r.Ok? ==>
        && HasTextures() && bt.sampler == Some(s)
        && Shows(ts + [normalTexture.value, metallicRoughnessTexture.value, emissiveTexture.value, aoTexture.value], r.value)
    {
      if normalTexture.None? {
        return Err(TypeError);
      }
      var nv := ShowView(device, ts, vs, normalTexture.value, bt, s);
      ghost var ts1 := ts + [normalTexture.value];
      var vs1 := vs + [nv];
      if metallicRoughnessTexture.None? {
        return Err(TypeError);
      }
      var mv := ShowView(device, ts1, vs1, metallicRoughnessTexture.value, bt, s);
      ghost var ts2 := ts1 + [metallicRoughnessTexture.value];
      var vs2 := vs1 + [mv];
      if emissiveTexture.None? {
        return Err(TypeError);
      }
      var ev := ShowView(device, ts2, vs2, emissiveTexture.value, bt, s);
      ghost var ts3 := ts2 + [emissiveTexture.value];
      var vs3 := vs2 + [ev];
      if aoTexture.None? {
        return Err(TypeError);
      }
      var av := ShowView(device, ts3, vs3, aoTexture.value, bt, s);
      assert ts3 + [aoTexture.value] == ts + [normalTexture.value, metallicRoughnessTexture.value, emissiveTexture.value, aoTexture.value];
      r := Ok(vs3 + [av]);
    }

    /**
     * The entries' resources, in the order the source asks for them: the
     * base texture's sampler twice, then the views of the cube map and of
     * the five textures. A missing texture or cube map throws when reached.
     */
    method GatherResources(device: Device, cubemap: Option<TextureObject>) returns (r: Result<Resources>)
      modifies device, TextureFrame(), Frame(cubemap)
      ensures r.Err? <==> !(HasTextures() && cubemap.Some?)
      ensures r.Err? ==> r.error == TypeError
      ensures r.Ok? ==>
        && HasTextures() && cubemap.Some?
        && baseColorTexture.value.sampler == Some(r.value.sampler)
        && Shows(Viewed(cubemap.value), r.value.views)
    {
      if baseColorTexture.None? {
        return Err(TypeError);
      }
      var bt := baseColorTexture.value;
      var _ := bt.GetSampler(device, false, map[]);
      var s := bt.GetSampler(device, false, map[]);
      if cubemap.None? {
        return Err(TypeError);
      }
      var c := cubemap.value;
      var cv := ShowView(device, [], [], c, bt, s);
      ghost var ts := [] + [c];
      var vs := [] + [cv];
      var bv := ShowView(device, ts, vs, bt, bt, s);
      ts, vs := ts + [bt], vs + [bv];
      assert ts == [c, bt];
      var rest := MapViews(device, ts, vs, bt, s);
      if rest.Err? {
        return Err(rest.error);
      }
      assert ts + [normalTexture.value, metallicRoughnessTexture.value, emissiveTexture.value, aoTexture.value] == Viewed(c);
      r := Ok(Resources(s, rest.value));
    }

    /**
     * `getBindGroup(device, layout, cubemap)`: made once, from the base
     * texture's sampler, the cube map's view and the five textures' views
     * as they are after all of them were asked for; then returned unchanged.
     */
    method GetBindGroup(device: Device, layout: Handle, cubemap: Option<TextureObject>) returns (r: Result<Handle>)
      modifies this, device, TextureFrame(), Frame(cubemap)
      ensures r.Err? <==> old(bindGroup).None? && !(HasTextures() && cubemap.Some?)
      ensures r.Err? ==> r.error == TypeError && bindGroup == None
      ensures old(bindGroup).Some? ==> r == Ok(old(bindGroup).value) && bindGroup == old(bindGroup) && unchanged(device)
      ensures r.Ok? && old(bindGroup).None? ==>
        && bindGroup == Some(r.value) && r.value == device.next - 1
        && HasTextures() && cubemap.Some? && baseColorTexture.value.sampler.Some?
        && (forall i :: 0 <= i < 6 ==> Viewed(cubemap.value)[i].view.Some?)
        && |device.trace| > 0
        && device.trace[|device.trace| - 1] == Created(r.value, BindGroup(layout,
             SamplerAndViews(baseColorTexture.value.sampler.value, CurrentViews(Viewed(cubemap.value)))))
    {
      if bindGroup.Some? {
        return Ok(bindGroup.value);
      }
      var res := GatherResources(device, cubemap);
      if res.Err? {
        return Err(res.error);
      }
      var g := device.Create(BindGroup(layout, SamplerAndViews(res.value.sampler, res.value.views)));
      bindGroup := Some(g);
      r := Ok(g);
      ShowsCurrent(Viewed(cubemap.value), res.value.views);
    }
  }
}
