// The engine's GPU buffer wrapper: its option defaults, the lazily created
// device buffer, writes through the queue, and release.
module Buffers {
  import opened Js
  import opened Gpu

  /**
   * The options object a buffer is constructed from. `data` is a key some
   * callers pass; the wrapper itself only ever reads `initData`.
   */
  datatype BufferProps = BufferProps(
    labelText: Option<string>,
    usage: Option<nat>,
    mappedAtCreation: Option<bool>,
    initData: Option<Payload>,
    data: Option<Payload>,
    size: Option<nat>)

  /** `GPUBufferUsage.VERTEX | GPUBufferUsage.COPY_DST`. */
  const VERTEX_COPY_DST: nat := 40

  class BufferObject {
    const labelText: string
    const usage: nat
    const mappedAtCreation: bool
    const data: Option<Payload>
    const size: nat
    /** The device buffer, once created and until destroyed. */
    var buffer: Option<Handle>

    constructor(props: BufferProps)
      ensures labelText == props.labelText.OrElse("")
      ensures usage == props.usage.OrElse(VERTEX_COPY_DST)
      ensures mappedAtCreation == props.mappedAtCreation.OrElse(props.initData.Some?)
      ensures data == props.initData
      ensures props.initData.Some? ==> size == ByteLength(props.initData.value)
      ensures props.initData.None? ==> size == props.size.OrElse(0)
      ensures buffer == None
    {
      labelText := props.labelText.OrElse("");
      usage := props.usage.OrElse(VERTEX_COPY_DST);
      mappedAtCreation := props.mappedAtCreation.OrElse(props.initData.Some?);
      data := props.initData;
      size := if props.initData.Some? then ByteLength(props.initData.value) else props.size.OrElse(0);
      buffer := None;
    }

    /** The descriptor passed to `createBuffer`. */
    function Descriptor(): BufferDescriptor
    {
      BufferDescriptor(size, usage, Some(labelText), Some(mappedAtCreation))
    }

    /**
     * The calls made when the device buffer is created as handle `h`: the
     * creation itself and, when there is data, the copy into the mapped range
     * followed by `unmap`.
     */
    function CreationCalls(h: Handle): seq<Call>
    {
      [Created(h, Buffer(Descriptor()))]
        + (if data.Some? then [Issued(CopyToMappedRange(h, data.value)), Issued(Unmap(h))] else [])
    }

    /** The trace `getBuffer` appends when the buffer is in state `b` and the device's next handle is `n`. */
    function GetBufferCalls(b: Option<Handle>, n: Handle): seq<Call>
    {
      if b.Some? then [] else CreationCalls(n)
    }

    /** The trace `writeBuffer` appends, in the same starting state. */
    function WriteCalls(b: Option<Handle>, n: Handle, payload: Payload, bufferOffset: nat, dataOffset: nat): seq<Call>
    {
      GetBufferCalls(b, n)
        + [Issued(Command.WriteBuffer(Resolved(b, n), bufferOffset, payload, dataOffset, Some(ByteLength(payload))))]
    }

    /** `getBuffer(device)`: create the device buffer on first use, then return the same one. */
    method GetBuffer(device: Device) returns (h: Handle)
      modifies this, device
      ensures h == Resolved(old(buffer), old(device.next)) && buffer == Some(h)
      ensures device.next == NextAfter(old(buffer), old(device.next))
      ensures device.trace == old(device.trace) + GetBufferCalls(old(buffer), old(device.next))
    {
      if buffer.Some? {
        h := buffer.value;
        return;
      }
      h := device.Create(Buffer(Descriptor()));
      buffer := Some(h);
      if data.Some? {
        device.Issue(CopyToMappedRange(h, data.value));
        device.Issue(Unmap(h));
      }
    }

    /** `writeBuffer(device, data, bufferOffset, dataOffset)`: a queue write of the whole payload. */
    method WriteBuffer(device: Device, payload: Payload, bufferOffset: nat, dataOffset: nat)
      modifies this, device
      ensures buffer == Some(Resolved(old(buffer), old(device.next)))
      ensures device.next == NextAfter(old(buffer), old(device.next))
      ensures device.trace == old(device.trace) + WriteCalls(old(buffer), old(device.next), payload, bufferOffset, dataOffset)
    {
      var h := GetBuffer(device);
      device.Issue(Command.WriteBuffer(h, bufferOffset, payload, dataOffset, Some(ByteLength(payload))));
    }

    /** `destroy()`: release the device buffer, if any, and forget it. */
    method Destroy(device: Device)
      modifies this, device
      ensures buffer == None
      ensures device.next == old(device.next)
      ensures device.trace == old(device.trace) + DestroyCalls(old(buffer))
    {
      if buffer.Some? {
        device.Issue(DestroyBuffer(buffer.value));
      }
      buffer := None;
    }
  }

  /** The handle `getBuffer` returns from state `b` when the device's next handle is `n`. */
  function Resolved(b: Option<Handle>, n: Handle): Handle
  {
    if b.Some? then b.value else n
  }

  /** The device's next handle after `getBuffer` from state `b`. */
  function NextAfter(b: Option<Handle>, n: Handle): Handle
  {
    if b.Some? then n else n + 1
  }

  /** The trace a buffer release appends. */
  function DestroyCalls(b: Option<Handle>): seq<Call>
  {
    if b.Some? then [Issued(DestroyBuffer(b.value))] else []
  }
}
