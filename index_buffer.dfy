// An index buffer: its format and its binding to a render pass.
module IndexBuffers {
  import opened Js
  import opened Gpu
  import opened Buffers

  /** `data instanceof Uint16Array ? "uint16" : "uint32"`. */
  function IndexFormat(data: Option<Payload>): (f: string)
    ensures f == "uint16" <==> data.Some? && data.value.Typed? && data.value.kind == Uint16
    ensures f == "uint16" || f == "uint32"
  {
    if data.Some? && data.value.Typed? && data.value.kind == Uint16 then "uint16" else "uint32"
  }

  class IndexBuffer {
    const buf: BufferObject
    const format: string

    /**
     * `new IndexBuffer({data, label})`. The data is handed on under the key
     * `data`, which the wrapper does not read, so the format is taken from
     * absent data.
     */
    constructor(data: Option<Payload>, labelText: Option<string>)
      ensures fresh(buf) && buf.buffer == None
      ensures buf.labelText == labelText.OrElse("[INDEX_BUFFER]")
      ensures buf.usage == INDEX && buf.mappedAtCreation
      ensures buf.data == None && buf.size == 0
      ensures format == IndexFormat(buf.data) == "uint32"
    {
      buf := new BufferObject(BufferProps(Some(labelText.OrElse("[INDEX_BUFFER]")), Some(INDEX), Some(true), None, data, None));
      format := IndexFormat(None);
    }

    /** `attach(device, pass)`: `setIndexBuffer` with the device buffer and the format. */
    method Attach(device: Device, pass: PassEncoder)
      modifies buf, device, pass
      ensures buf.buffer == Some(Resolved(old(buf.buffer), old(device.next)))
      ensures device.next == NextAfter(old(buf.buffer), old(device.next))
      ensures device.trace == old(device.trace) + buf.GetBufferCalls(old(buf.buffer), old(device.next))
      ensures pass.commands == old(pass.commands) + [SetIndexBuffer(Resolved(old(buf.buffer), old(device.next)), format)]
    {
      var h := buf.GetBuffer(device);
      pass.Record(SetIndexBuffer(h, format));
    }
  }
}
