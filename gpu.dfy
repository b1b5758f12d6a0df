// The WebGPU device, its queue, the canvas context and render-pass encoders,
// seen from the engine: every call the engine makes is appended to a trace,
// and every object the device creates is a fresh numbered handle. Nothing is
// rendered; what the engine asks for, and in which order, is what the model
// records.
module Gpu {
  import opened Js
  import opened Math3D

  /** A GPU object (buffer, texture, view, pipeline, ...) as a number. */
  type Handle = nat

  // GPUBufferUsage flags.
  const COPY_DST: nat := 8
  const INDEX: nat := 16
  const VERTEX: nat := 32
  const UNIFORM: nat := 64

  // GPUShaderStage flags.
  const STAGE_VERTEX: nat := 1
  const STAGE_FRAGMENT: nat := 2

  /** Holds of every object; lets a `modifies` clause name all objects of a class. */
  ghost predicate AnyObject(o: object)
  {
    true
  }

  datatype ElemKind = Float32 | Uint16 | Uint32

  /** `BYTES_PER_ELEMENT` of the typed-array class. */
  function BytesPerElement(k: ElemKind): nat
  {
    match k
    case Float32 => 4
    case Uint16 => 2
    case Uint32 => 4
  }

  /** Data handed to the GPU: a typed array, or the elements of a matrix. */
  datatype Payload =
    | Typed(kind: ElemKind, values: seq<real>)
    | Matrix4Elements(m: Mat)   // Matrix4.elements, a Float32Array of 16
    | Matrix3Elements(m: Mat)   // Matrix3.elements, a Float32Array of 9

  /** `data.byteLength`. */
  function ByteLength(p: Payload): nat
  {
    match p
    case Typed(k, vs) => BytesPerElement(k) * |vs|
    case Matrix4Elements(_) => 64
    case Matrix3Elements(_) => 36
  }

  /** A descriptor object with arbitrary keys (texture, view and sampler descriptors). */
  datatype Value = Num(n: real) | Str(s: string) | Nums(ns: seq<real>)
  type Props = map<string, Value>

  /** An image bitmap to be copied into a texture layer. */
  datatype Image = Image(id: nat, width: nat, height: nat)

  /** `{size, usage, label, mappedAtCreation}`; `label` is a Dafny keyword, hence `labelText`. */
  datatype BufferDescriptor =
    BufferDescriptor(size: nat, usage: nat, labelText: Option<string>, mappedAtCreation: Option<bool>)

  datatype LayoutResource =
    | BufferSlot(bufferType: string)
    | SamplerSlot(samplerType: string)
    | TextureSlot(sampleType: string, viewDimension: Option<string>)

  /** An entry of a bind-group layout. */
  datatype LayoutEntry = LayoutEntry(binding: Option<int>, visibility: nat, resource: LayoutResource)

  datatype BindResource =
    | BufferBinding(buffer: Handle, offset: Option<nat>, size: Option<nat>)
    | Bound(handle: Handle)   // a sampler or a texture view

  /** An entry of a bind group. */
  datatype BindEntry = BindEntry(binding: Option<int>, resource: BindResource)

  datatype VertexAttribute = VertexAttribute(shaderLocation: int, format: string, offset: nat)
  datatype VertexBufferLayout = VertexBufferLayout(arrayStride: int, attributes: seq<VertexAttribute>)

  datatype BlendComponent = BlendComponent(srcFactor: string, dstFactor: string, operation: Option<string>)
  datatype BlendState = BlendState(color: BlendComponent, alpha: BlendComponent)

  datatype ColorTarget = ColorTarget(format: string, blend: Option<BlendState>)
  datatype VertexState = VertexState(shaderModule: Option<Handle>, buffers: seq<VertexBufferLayout>, entryPoint: string)
  datatype FragmentState = FragmentState(shaderModule: Handle, entryPoint: string, targets: seq<ColorTarget>)
  datatype PrimitiveState = PrimitiveState(topology: string, cullMode: string)
  datatype DepthStencilState = DepthStencilState(depthWriteEnabled: bool, depthCompare: string, format: string)

  datatype PipelineDescriptor = PipelineDescriptor(
    layout: Option<Handle>,
    vertex: VertexState,
    fragment: Option<FragmentState>,
    primitive: PrimitiveState,
    depthStencil: DepthStencilState)

  datatype ClearColor = ClearColor(r: real, g: real, b: real, a: real)
  datatype ColorAttachment = ColorAttachment(view: Option<Handle>, storeOp: string, loadOp: string, clearValue: ClearColor)
  datatype DepthAttachment = DepthAttachment(view: Handle, depthLoadOp: string, depthClearValue: real, depthStoreOp: string)
  datatype RenderPassDescriptor =
    RenderPassDescriptor(colorAttachments: seq<ColorAttachment>, depthStencilAttachment: DepthAttachment)

  /** What a creating call asked the device (or the canvas context) for. */
  datatype Resource =
    | Buffer(bufferDesc: BufferDescriptor)
    | Texture(textureDesc: Props)
    | TextureView(texture: Handle, viewDesc: Option<Props>)
    | Sampler(samplerDesc: Option<Props>)
    | ShaderModule(code: Option<string>)
    | BindGroupLayout(layoutEntries: seq<LayoutEntry>)
    | PipelineLayout(bindGroupLayouts: seq<Handle>)
    | RenderPipeline(pipelineDesc: PipelineDescriptor)
    | PipelineBindGroupLayout(pipeline: Handle, index: nat)   // pipeline.getBindGroupLayout(i)
    | BindGroup(layout: Handle, entries: seq<BindEntry>)
    | CurrentTexture                                          // context.getCurrentTexture()
    | CommandEncoder
    | RenderPass(encoder: Handle, passDesc: Option<RenderPassDescriptor>)
    | CommandBuffer(encoder: Handle)                          // encoder.finish()

  /** A call that creates nothing. */
  datatype Command =
    | CopyToMappedRange(buffer: Handle, data: Payload)
    | Unmap(buffer: Handle)
    | DestroyBuffer(buffer: Handle)
    | DestroyTexture(texture: Handle)
    | WriteBuffer(buffer: Handle, bufferOffset: nat, data: Payload, dataOffset: nat, size: Option<nat>)
    | CopyImageToTexture(image: Image, texture: Handle, layer: nat)
    | Configure(format: string, alphaMode: string)
    | Submit(commandBuffers: seq<Handle>)

  datatype Call = Created(handle: Handle, resource: Resource) | Issued(command: Command)

  /** A command recorded into a render pass. */
  datatype PassCommand =
    | SetPipeline(pipeline: Handle)
    | SetBindGroup(index: nat, group: Handle)
    | SetVertexBuffer(slot: int, buffer: Handle)
    | SetIndexBuffer(buffer: Handle, format: string)
    | DrawIndexed(indexCount: nat)
    | End

  /** The number of render pipelines a trace creates. */
  function PipelinesCreated(t: seq<Call>): nat
  {
    if t == [] then 0
    else
      var last := t[|t| - 1];
      PipelinesCreated(t[..|t| - 1]) + (if last.Created? && last.resource.RenderPipeline? then 1 else 0)
  }

  lemma {:induction false} PipelinesCreatedAppend(a: seq<Call>, b: seq<Call>)
    ensures PipelinesCreated(a + b) == PipelinesCreated(a) + PipelinesCreated(b)
    decreases |b|
  {
    if b == [] {
      assert a + b == a;
    } else {
      assert (a + b)[..|a + b| - 1] == a + b[..|b| - 1];
      PipelinesCreatedAppend(a, b[..|b| - 1]);
    }
  }

  /** The device, its queue and the canvas context, as one ordered trace of calls. */
  /** Trace `t` is `t0` followed by further calls. */
  ghost predicate Extends(t0: seq<Call>, t: seq<Call>)
  {
    |t0| <= |t| && t[..|t0|] == t0
  }

  lemma ExtendsAppend(t0: seq<Call>, x: seq<Call>)
    ensures Extends(t0, t0 + x)
  {
    assert (t0 + x)[..|t0|] == t0;
  }

  lemma ExtendsTrans(t0: seq<Call>, t1: seq<Call>, t2: seq<Call>)
    requires Extends(t0, t1) && Extends(t1, t2)
    ensures Extends(t0, t2)
  {
    assert t2[..|t0|] == t2[..|t1|][..|t0|];
  }

  class Device {
    var trace: seq<Call>
    var next: Handle

    constructor()
      ensures trace == [] && next == 0
    {
      trace := [];
      next := 0;
    }

    /** A creating call: the device hands out the next unused handle. */
    method Create(r: Resource) returns (h: Handle)
      modifies this
      ensures h == old(next) && next == h + 1
      ensures trace == old(trace) + [Created(h, r)]
    {
      h := next;
      next := next + 1;
      trace := trace + [Created(h, r)];
    }

    /** A call that creates nothing. */
    method Issue(c: Command)
      modifies this
      ensures next == old(next)
      ensures trace == old(trace) + [Issued(c)]
    {
      trace := trace + [Issued(c)];
    }

    /** `encoder.beginRenderPass(desc)`. */
    method BeginRenderPass(encoder: Handle, desc: Option<RenderPassDescriptor>) returns (pass: PassEncoder)
      modifies this
      ensures fresh(pass) && pass.commands == []
      ensures pass.handle == old(next) && next == old(next) + 1
      ensures trace == old(trace) + [Created(pass.handle, RenderPass(encoder, desc))]
    {
      var h := Create(RenderPass(encoder, desc));
      pass := new PassEncoder(h);
    }
  }

  /** A render-pass encoder: the commands recorded into one pass. */
  class PassEncoder {
    const handle: Handle
    var commands: seq<PassCommand>

    constructor(h: Handle)
      ensures handle == h && commands == []
    {
      handle := h;
      commands := [];
    }

    method Record(c: PassCommand)
      modifies this
      ensures commands == old(commands) + [c]
    {
      commands := commands + [c];
    }
  }
}
