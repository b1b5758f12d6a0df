// A uniform buffer laid out as a sequence of named items packed one after
// the other: the offset table, named writes and the memoised bind-group entry.
module Uniforms {
  import opened Js
  import opened Gpu
  import opened Buffers

  /** A named region of a uniform buffer; `offset` is filled in by the buffer. */
  datatype UniformItem = UniformItem(name: string, size: nat, offset: Option<nat>)

  datatype UniformProps = UniformProps(
    name: Option<string>,
    binding: Option<int>,
    visibility: Option<nat>,
    items: seq<UniformItem>)

  /** `GPUBufferUsage.UNIFORM | GPUBufferUsage.COPY_DST`. */
  const UNIFORM_COPY_DST: nat := 72
  /** `GPUShaderStage.VERTEX | GPUShaderStage.FRAGMENT`. */
  const VERTEX_FRAGMENT: nat := 3

  /** The bytes taken by the first `i` items. */
  function SizeBefore(items: seq<UniformItem>, i: nat): nat
    requires i <= |items|
  {
    if i == 0 then 0 else SizeBefore(items, i - 1) + items[i - 1].size
  }

  /** `items.reduce((acc, item) => acc + item.size, acc)`. */
  function Reduce(items: seq<UniformItem>, acc: nat): nat
  {
    if items == [] then acc else Reduce(items[1..], acc + items[0].size)
  }

  /** The buffer size: the sum of the item sizes. */
  function TotalSize(items: seq<UniformItem>): nat
  {
    Reduce(items, 0)
  }

  /** The name-to-offset map after the first `i` items are placed; a later name overwrites an earlier one. */
  function Offsets(items: seq<UniformItem>, i: nat): map<string, nat>
    requires i <= |items|
  {
    if i == 0 then map[] else Offsets(items, i - 1)[items[i - 1].name := SizeBefore(items, i - 1)]
  }

  function OffsetTable(items: seq<UniformItem>): map<string, nat>
  {
    Offsets(items, |items|)
  }

  /** Item `i` with its offset filled in. */
  function Placed(items: seq<UniformItem>, i: nat): UniformItem
    requires i < |items|
  {
    items[i].(offset := Some(SizeBefore(items, i)))
  }

  lemma {:induction false} SizeBeforeCons(items: seq<UniformItem>, i: nat)
    requires 0 < |items| && i < |items|
    ensures SizeBefore(items, i + 1) == items[0].size + SizeBefore(items[1..], i)
    decreases i
  {
    if i > 0 {
      SizeBeforeCons(items, i - 1);
    }
  }

  /** Folding from the left gives the same sum as the prefix sums. */
  lemma {:induction false} ReduceIsSizeBefore(items: seq<UniformItem>, acc: nat)
    ensures Reduce(items, acc) == acc + SizeBefore(items, |items|)
    decreases |items|
  {
    if items != [] {
      ReduceIsSizeBefore(items[1..], acc + items[0].size);
      SizeBeforeCons(items, |items| - 1);
    }
  }

  lemma {:induction false} SizeBeforeMonotone(items: seq<UniformItem>, i: nat, j: nat)
    requires i <= j <= |items|
    ensures SizeBefore(items, i) <= SizeBefore(items, j)
    decreases j - i
  {
    if i < j {
      SizeBeforeMonotone(items, i, j - 1);
    }
  }

  /**
   * The items' regions lie inside the buffer and in item order without
   * overlapping: item `i` ends no later than item `j` starts, and the last
   * one ends no later than the total size.
   */
  lemma RegionsDisjoint(items: seq<UniformItem>, i: nat, j: nat)
    requires i < j < |items|
    ensures SizeBefore(items, i) + items[i].size <= SizeBefore(items, j)
    ensures SizeBefore(items, j) + items[j].size <= TotalSize(items)
  {
    SizeBeforeMonotone(items, i + 1, j);
    SizeBeforeMonotone(items, j + 1, |items|);
    assert SizeBefore(items, i + 1) == SizeBefore(items, i) + items[i].size;
    assert SizeBefore(items, j + 1) == SizeBefore(items, j) + items[j].size;
    ReduceIsSizeBefore(items, 0);
  }

  /**
   * A name is in the offset table iff some item has it, and its offset is
   * that of the last item with the name.
   */
  lemma {:induction false} OffsetsLookup(items: seq<UniformItem>, i: nat, n: string)
    requires i <= |items|
    ensures n in Offsets(items, i) <==> exists j :: 0 <= j < i && items[j].name == n
    ensures forall j :: 0 <= j < i && items[j].name == n && (forall k :: j < k < i ==> items[k].name != n) ==>
              Offsets(items, i)[n] == SizeBefore(items, j)
    decreases i
  {
    if i > 0 {
      OffsetsLookup(items, i - 1, n);
    }
  }

  /**
   * The constructor's loop: item `i` gets offset (offset + size) of item
   * `i - 1`, 0 for the first, written back into the item and into the table.
   */
  method AssignOffsets(items: seq<UniformItem>) returns (placed: seq<UniformItem>, offsets: map<string, nat>)
    ensures |placed| == |items|
    ensures forall i :: 0 <= i < |items| ==> placed[i] == Placed(items, i)
    ensures offsets == OffsetTable(items)
  {
    placed := items;
    offsets := map[];
    var i := 0;
    while i < |placed|
      invariant 0 <= i <= |items| == |placed|
      invariant forall k :: 0 <= k < i ==> placed[k] == Placed(items, k)
      invariant forall k :: i <= k < |items| ==> placed[k] == items[k]
      invariant offsets == Offsets(items, i)
    {
      var offset := if i == 0 then 0 else placed[i - 1].offset.OrElse(0) + placed[i - 1].size;
      placed := placed[i := placed[i].(offset := Some(offset))];
      offsets := offsets[placed[i].name := offset];
      i := i + 1;
    }
  }

  /** One `set` call: the bytes go to `offset`. */
  datatype Write = Write(offset: nat, data: Payload)

  /** The queue writes of a run of `set` calls into the device buffer `h`. */
  function WriteCommands(h: Handle, ws: seq<Write>): (calls: seq<Call>)
    ensures |calls| == |ws|
    ensures forall i :: 0 <= i < |ws| ==>
      calls[i] == Issued(Command.WriteBuffer(h, ws[i].offset, ws[i].data, 0, Some(ByteLength(ws[i].data))))
  {
    if ws == [] then [] else
    WriteCommands(h, ws[..|ws| - 1])
      + [Issued(Command.WriteBuffer(h, ws[|ws| - 1].offset, ws[|ws| - 1].data, 0, Some(ByteLength(ws[|ws| - 1].data))))]
  }

  /**
   * The trace of a run of `set` calls on a buffer that starts in state `b`
   * with the device's next handle `n`: the first write creates the device
   * buffer if needed, then every write goes to it; no writes, no calls.
   */
  function SetCalls(buf: BufferObject, b: Option<Handle>, n: Handle, ws: seq<Write>): seq<Call>
  {
    if ws == [] then [] else buf.GetBufferCalls(b, n) + WriteCommands(Resolved(b, n), ws)
  }

  /** The buffer state after a run of writes. */
  function StateAfter(b: Option<Handle>, n: Handle, ws: seq<Write>): (r: Option<Handle>)
    ensures ws != [] ==> r == Some(Resolved(b, n))
  {
    if ws == [] then b else Some(Resolved(b, n))
  }

  /** The device's next handle after a run of writes. */
  function NextAfterWrites(b: Option<Handle>, n: Handle, ws: seq<Write>): Handle
  {
    if ws == [] then n else NextAfter(b, n)
  }

  /** One more `set` extends the run: its trace is the run's trace followed by that write's calls. */
  lemma SetCallsSnoc(buf: BufferObject, b: Option<Handle>, n: Handle, ws: seq<Write>, w: Write)
    ensures SetCalls(buf, b, n, ws + [w]) ==
      SetCalls(buf, b, n, ws) + buf.WriteCalls(StateAfter(b, n, ws), NextAfterWrites(b, n, ws), w.data, w.offset, 0)
    ensures StateAfter(b, n, ws + [w]) == Some(Resolved(StateAfter(b, n, ws), NextAfterWrites(b, n, ws)))
    ensures NextAfterWrites(b, n, ws + [w]) == NextAfter(StateAfter(b, n, ws), NextAfterWrites(b, n, ws))
  {
    assert (ws + [w])[..|ws|] == ws;
  }

  /**
   * The buffer and the device are where a run of writes `ws` leaves them,
   * starting from trace `t0`, buffer state `b0` and next handle `n0`.
   */
  ghost predicate After(u: UniformBuffer, device: Device, t0: seq<Call>, b0: Option<Handle>, n0: Handle, ws: seq<Write>)
    reads u.buf, device
  {
    && device.trace == t0 + SetCalls(u.buf, b0, n0, ws)
    && u.buf.buffer == StateAfter(b0, n0, ws)
    && device.next == NextAfterWrites(b0, n0, ws)
  }

  /** A run of writes only appends to the trace. */
  lemma AfterExtends(u: UniformBuffer, device: Device, t0: seq<Call>, b0: Option<Handle>, n0: Handle, ws: seq<Write>)
    requires After(u, device, t0, b0, n0, ws)
    ensures Extends(t0, device.trace)
  {
    ExtendsAppend(t0, SetCalls(u.buf, b0, n0, ws));
  }

  /** `set` as one more step of a run of writes: the run grows by that write. */
  method SetNext(u: UniformBuffer, device: Device, item: string, w: Write,
                 ghost t0: seq<Call>, ghost b0: Option<Handle>, ghost n0: Handle, ghost ws: seq<Write>)
    requires item in u.offsets && u.offsets[item] == w.offset
    requires After(u, device, t0, b0, n0, ws)
    modifies u.buf, device
    ensures After(u, device, t0, b0, n0, ws + [w])
  {
    u.Set(device, item, w.data);
    SetCallsSnoc(u.buf, b0, n0, ws, w);
  }

  class UniformBuffer {
    const buf: BufferObject
    const name: string
    const binding: Option<int>
    const visibility: nat
    /** The items, with their offsets filled in. */
    const items: seq<UniformItem>
    const offsets: map<string, nat>
    const layoutEntry: LayoutEntry
    var bindGroupEntry: Option<BindEntry>

    constructor(props: UniformProps)
      ensures fresh(buf) && buf.buffer == None && buf.data == None && !buf.mappedAtCreation
      ensures buf.labelText == "[UNIFORM_BUFFER] " + props.name.OrElse("")
      ensures buf.usage == UNIFORM_COPY_DST
      ensures buf.size == TotalSize(props.items)
      ensures name == props.name.OrElse("") && binding == props.binding
      ensures visibility == props.visibility.OrElse(VERTEX_FRAGMENT)
      ensures |items| == |props.items| && forall i :: 0 <= i < |items| ==> items[i] == Placed(props.items, i)
      ensures offsets == OffsetTable(props.items)
      ensures layoutEntry == LayoutEntry(props.binding, visibility, BufferSlot("uniform"))
      ensures bindGroupEntry == None
    {
      buf := new BufferObject(BufferProps(Some("[UNIFORM_BUFFER] " + props.name.OrElse("")),
        Some(UNIFORM_COPY_DST), None, None, None, Some(TotalSize(props.items))));
      name := props.name.OrElse("");
      binding := props.binding;
      visibility := props.visibility.OrElse(VERTEX_FRAGMENT);
      var placed, table := AssignOffsets(props.items);
      items := placed;
      offsets := table;
      layoutEntry := LayoutEntry(props.binding, props.visibility.OrElse(VERTEX_FRAGMENT), BufferSlot("uniform"));
      bindGroupEntry := None;
    }

    /**
     * `getBindGroupEntry(device)`: built once, binding the whole buffer from
     * offset 0; later calls return the same entry, even after the buffer was
     * destroyed and recreated.
     */
    method GetBindGroupEntry(device: Device) returns (e: BindEntry)
      modifies this, buf, device
      ensures bindGroupEntry == Some(e)
      ensures old(bindGroupEntry).Some? ==>
        e == old(bindGroupEntry).value && unchanged(buf, device)
      ensures old(bindGroupEntry).None? ==>
        && e == BindEntry(binding, BufferBinding(Resolved(old(buf.buffer), old(device.next)), Some(0), Some(buf.size)))
        && buf.buffer == Some(Resolved(old(buf.buffer), old(device.next)))
        && device.next == NextAfter(old(buf.buffer), old(device.next))
        && device.trace == old(device.trace) + buf.GetBufferCalls(old(buf.buffer), old(device.next))
    {
      if bindGroupEntry.Some? {
        e := bindGroupEntry.value;
        return;
      }
      var h := buf.GetBuffer(device);
      e := BindEntry(binding, BufferBinding(h, Some(0), Some(buf.size)));
      bindGroupEntry := Some(e);
    }

    /** `set(device, name, data)`: a write at the item's offset; an unknown name writes nothing. */
    method Set(device: Device, item: string, payload: Payload)
      modifies buf, device
      ensures item !in offsets ==> unchanged(buf, device)
      ensures item in offsets ==>
        && buf.buffer == Some(Resolved(old(buf.buffer), old(device.next)))
        && device.next == NextAfter(old(buf.buffer), old(device.next))
        && device.trace == old(device.trace) + buf.WriteCalls(old(buf.buffer), old(device.next), payload, offsets[item], 0)
    {
      if item in offsets {
        buf.WriteBuffer(device, payload, offsets[item], 0);
      }
    }
  }
}
