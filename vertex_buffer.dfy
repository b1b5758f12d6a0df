// A vertex buffer: one attribute per buffer, its stride and layout, and its
// binding to a vertex slot of a render pass.
module VertexBuffers {
  import opened Js
  import opened Gpu
  import opened Buffers

  /** The options a vertex buffer is constructed from. */
  datatype VertexProps = VertexProps(
    name: Option<string>,
    data: Option<Payload>,
    location: int,
    strideLength: int,
    format: string,
    strideSize: Option<int>)

  /** `data.BYTES_PER_ELEMENT`; matrix elements are a Float32Array. */
  function ElementBytes(p: Payload): (b: nat)
    ensures p.Typed? ==> b == BytesPerElement(p.kind)
    ensures !p.Typed? ==> b == 4
  {
    match p
    case Typed(k, _) => BytesPerElement(k)
    case _ => 4
  }

  /**
   * The stride in bytes: the given one, else `strideLength` elements of the
   * data's element size, 4 bytes when there is no data.
   */
  function StrideSize(props: VertexProps): (s: int)
    ensures props.strideSize.Some? ==> s == props.strideSize.value
    ensures props.strideSize.None? && props.data.Some? ==> s == props.strideLength * ElementBytes(props.data.value)
    ensures props.strideSize.None? && props.data.None? ==> s == props.strideLength * 4
  {
    props.strideSize.OrElse(props.strideLength * (if props.data.Some? then ElementBytes(props.data.value) else 4))
  }

  class VertexBuffer {
    const buf: BufferObject
    const name: string
    const format: string
    const location: int
    const strideLength: int
    const strideSize: int
    const attribute: VertexAttribute
    const bufferLayout: VertexBufferLayout

    /**
     * The data is handed to the wrapper under the key `data`, which the
     * wrapper does not read: the device buffer gets no contents and size 0.
     */
    constructor(props: VertexProps)
      ensures fresh(buf) && buf.buffer == None
      ensures buf.data == None && buf.size == 0 && !buf.mappedAtCreation
      ensures name == props.name.OrElse("")
      ensures buf.labelText == "[VERTEX_BUFFER] " + name
      ensures buf.usage == VERTEX
      ensures format == props.format && location == props.location && strideLength == props.strideLength
      ensures strideSize == StrideSize(props)
      ensures attribute == VertexAttribute(location, format, 0)
      ensures bufferLayout == VertexBufferLayout(strideSize, [attribute])
    {
      var n := props.name.OrElse("");
      buf := new BufferObject(BufferProps(Some("[VERTEX_BUFFER] " + n), Some(VERTEX), None, None, props.data, None));
      name := n;
      format := props.format;
      location := props.location;
      strideLength := props.strideLength;
      strideSize := StrideSize(props);
      attribute := VertexAttribute(props.location, props.format, 0);
      bufferLayout := VertexBufferLayout(StrideSize(props), [VertexAttribute(props.location, props.format, 0)]);
    }

    /** `attach(device, pass)`: bind the device buffer at the slot equal to the location. */
    method Attach(device: Device, pass: PassEncoder)
      modifies buf, device, pass
      ensures buf.buffer == Some(Resolved(old(buf.buffer), old(device.next)))
      ensures device.next == NextAfter(old(buf.buffer), old(device.next))
      ensures device.trace == old(device.trace) + buf.GetBufferCalls(old(buf.buffer), old(device.next))
      ensures pass.commands == old(pass.commands) + [SetVertexBuffer(location, Resolved(old(buf.buffer), old(device.next)))]
    {
      var h := buf.GetBuffer(device);
      pass.Record(SetVertexBuffer(location, h));
    }
  }
}
