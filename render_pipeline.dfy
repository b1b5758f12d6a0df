// A render pipeline: the descriptor assembled from the options and their
// defaults, and the device calls that create it.
module Pipelines {
  import opened Js
  import opened Gpu

  /** The options of `new RenderPipeline(gpu, props)`. */
  datatype PipelineProps = PipelineProps(
    bindGroupLayouts: Option<seq<seq<LayoutEntry>>>,
    vertexBufferLayouts: seq<VertexBufferLayout>,
    vertexShaderModule: Option<Handle>,
    fragmentShaderModule: Option<Handle>,
    presentationFormat: Option<string>,
    primitive: Option<PrimitiveState>,
    depthStencil: Option<DepthStencilState>,
    blend: Option<BlendState>)

  const DefaultPrimitive := PrimitiveState("triangle-list", "back")
  const DefaultDepthStencil := DepthStencilState(true, "less", "depth24plus")

  /** `props.presentationFormat ?? gpu.preferredFormat`. */
  function FormatOf(props: PipelineProps, preferredFormat: Option<string>): (f: Option<string>)
    ensures props.presentationFormat.Some? ==> f == props.presentationFormat
    ensures props.presentationFormat.None? ==> f == preferredFormat
  {
    if props.presentationFormat.Some? then props.presentationFormat else preferredFormat
  }

  /**
   * The fragment state: present only with a fragment module and a truthy
   * format; one target of that format, carrying the blend state when there
   * is one.
   */
  function FragmentStateOf(shaderModule: Option<Handle>, format: Option<string>, blend: Option<BlendState>): (r: Option<FragmentState>)
    ensures r.Some? <==> shaderModule.Some? && Truthy(format)
    ensures r.Some? ==>
      && r.value.shaderModule == shaderModule.value && r.value.entryPoint == "main"
      && |r.value.targets| == 1 && r.value.targets[0].format == format.value
      && r.value.targets[0].blend == blend
  {
    if shaderModule.Some? && Truthy(format) then
      Some(FragmentState(shaderModule.value, "main", [ColorTarget(format.value, blend)]))
    else None
  }

  /** The descriptor handed to `createRenderPipeline`, given the pipeline layout (if one was made). */
  function DescriptorOf(props: PipelineProps, preferredFormat: Option<string>, layout: Option<Handle>): (d: PipelineDescriptor)
    ensures d.layout == layout
    ensures d.vertex == VertexState(props.vertexShaderModule, props.vertexBufferLayouts, "main")
    ensures d.fragment == FragmentStateOf(props.fragmentShaderModule, FormatOf(props, preferredFormat), props.blend)
    ensures d.primitive == props.primitive.OrElse(DefaultPrimitive)
    ensures d.depthStencil == props.depthStencil.OrElse(DefaultDepthStencil)
  {
    PipelineDescriptor(
      layout,
      VertexState(props.vertexShaderModule, props.vertexBufferLayouts, "main"),
      FragmentStateOf(props.fragmentShaderModule, FormatOf(props, preferredFormat), props.blend),
      props.primitive.OrElse(DefaultPrimitive),
      props.depthStencil.OrElse(DefaultDepthStencil))
  }

  /** The handles `n`, `n + 1`, ..., `n + k - 1`. */
  function Handles(n: Handle, k: nat): (hs: seq<Handle>)
    ensures |hs| == k && forall i :: 0 <= i < k ==> hs[i] == n + i
  {
    if k == 0 then [] else Handles(n, k - 1) + [n + k - 1]
  }

  /** One bind-group layout per entry list, in order, from handle `n` on. */
  function LayoutCalls(entries: seq<seq<LayoutEntry>>, n: Handle): (calls: seq<Call>)
    ensures |calls| == |entries|
    ensures forall i :: 0 <= i < |entries| ==> calls[i] == Created(n + i, BindGroupLayout(entries[i]))
  {
    if entries == [] then []
    else LayoutCalls(entries[..|entries| - 1], n) + [Created(n + |entries| - 1, BindGroupLayout(entries[|entries| - 1]))]
  }

  /** Everything the constructor asks the device for, from handle `n` on. */
  function ConstructionCalls(props: PipelineProps, preferredFormat: Option<string>, n: Handle): seq<Call>
  {
    if props.bindGroupLayouts.Some? then
      var k := |props.bindGroupLayouts.value|;
      LayoutCalls(props.bindGroupLayouts.value, n)
        + [Created(n + k, PipelineLayout(Handles(n, k))),
           Created(n + k + 1, RenderPipeline(DescriptorOf(props, preferredFormat, Some(n + k))))]
    else [Created(n, RenderPipeline(DescriptorOf(props, preferredFormat, None)))]
  }

  lemma {:induction false} LayoutCallsNoPipeline(entries: seq<seq<LayoutEntry>>, n: Handle)
    ensures PipelinesCreated(LayoutCalls(entries, n)) == 0
    decreases |entries|
  {
    if entries != [] {
      var calls := LayoutCalls(entries, n);
      assert calls[..|calls| - 1] == LayoutCalls(entries[..|entries| - 1], n);
      LayoutCallsNoPipeline(entries[..|entries| - 1], n);
    }
  }

  /** Constructing a pipeline object creates exactly one render pipeline, and it is the last call. */
  lemma OnePipelinePerConstruction(props: PipelineProps, preferredFormat: Option<string>, n: Handle)
    ensures PipelinesCreated(ConstructionCalls(props, preferredFormat, n)) == 1
    ensures var calls := ConstructionCalls(props, preferredFormat, n);
      |calls| > 0 && calls[|calls| - 1].Created? && calls[|calls| - 1].resource.RenderPipeline?
  {
    var last := [Created(if props.bindGroupLayouts.Some? then n + |props.bindGroupLayouts.value| + 1 else n,
                   RenderPipeline(DescriptorOf(props, preferredFormat,
                     if props.bindGroupLayouts.Some? then Some(n + |props.bindGroupLayouts.value|) else None)))];
    assert last[..0] == [];
    if props.bindGroupLayouts.Some? {
      var es := props.bindGroupLayouts.value;
      var k := |es|;
      var mid := [Created(n + k, PipelineLayout(Handles(n, k)))];
      assert mid[..0] == [];
      LayoutCallsNoPipeline(es, n);
      PipelinesCreatedAppend(LayoutCalls(es, n), mid);
      PipelinesCreatedAppend(LayoutCalls(es, n) + mid, last);
      assert ConstructionCalls(props, preferredFormat, n) == LayoutCalls(es, n) + mid + last;
    }
  }

  class RenderPipeline {
    /** `pipeline`: the one render pipeline the constructor created. */
    const pipeline: Handle
    const pipelineLayout: Option<Handle>
    const descriptor: PipelineDescriptor

    /**
     * `new RenderPipeline(gpu, props)`: the bind-group layouts and the
     * pipeline layout when layouts are given, then the pipeline.
     */
    constructor(device: Device, preferredFormat: Option<string>, props: PipelineProps)
      modifies device
      ensures device.trace == old(device.trace) + ConstructionCalls(props, preferredFormat, old(device.next))
      ensures pipelineLayout.Some? <==> props.bindGroupLayouts.Some?
      ensures descriptor == DescriptorOf(props, preferredFormat, pipelineLayout)
      ensures pipeline == device.next - 1 && device.next > old(device.next)
    {
      var layout: Option<Handle> := None;
      if props.bindGroupLayouts.Some? {
        var hs := CreateLayouts(device, props.bindGroupLayouts.value);
        var l := device.Create(PipelineLayout(hs));
        layout := Some(l);
      }
      var d := DescriptorOf(props, preferredFormat, layout);
      var p := device.Create(RenderPipeline(d));
      pipeline := p;
      pipelineLayout := layout;
      descriptor := d;
    }
  }

  /** `bindGroupLayouts.map((entries) => device.createBindGroupLayout({entries}))`. */
  method CreateLayouts(device: Device, entries: seq<seq<LayoutEntry>>) returns (hs: seq<Handle>)
    modifies device
    ensures hs == Handles(old(device.next), |entries|)
    ensures device.next == old(device.next) + |entries|
    ensures device.trace == old(device.trace) + LayoutCalls(entries, old(device.next))
  {
    hs := [];
    var i := 0;
    while i < |entries|
      invariant 0 <= i <= |entries|
      invariant hs == Handles(old(device.next), i) && device.next == old(device.next) + i
      invariant device.trace == old(device.trace) + LayoutCalls(entries[..i], old(device.next))
    {
      var h := device.Create(BindGroupLayout(entries[i]));
      assert entries[..i + 1][..i] == entries[..i];
      hs := hs + [h];
      i := i + 1;
    }
    assert entries[..i] == entries;
  }
}
