/** Gsw/BufferSet.swift: one GPU buffer per in-flight frame. */
module BufferSets {
  import opened Wrappers
  import opened Gpu
  import Renderers

  /** Decimal digits of `n`, as string interpolation prints them. */
  function DecimalString(n: nat): (s: string)
    ensures |s| >= 1 && forall k :: 0 <= k < |s| ==> '0' <= s[k] <= '9'
    ensures n < 10 ==> s == [('0' as int + n) as char]
    decreases n
  {
    if n < 10 then [('0' as int + n) as char] else DecimalString(n / 10) + DecimalString(n % 10)
  }

  /** The debug label of buffer `index` when the set is given `name`. */
  function IndexedLabel(name: Option<string>, index: nat): (r: Option<string>)
    ensures name.None? <==> r.None?
    ensures name.Some? ==> r.value == name.value + "[" + DecimalString(index) + "]"
  {
    match name
    case None => None
    case Some(l) => Some(l + "[" + DecimalString(index) + "]")
  }

  class BufferSet {
    const buffers: seq<GpuBuffer>

    /** Allocates the buffers in index order, each with the requested length
        and options, labelled `name[i]` when a label `name` is given. */
    constructor (device: Device, length: nat, name: Option<string>, options: ResourceOptions)
      modifies device
      ensures |buffers| == Renderers.MaxInflightFrames
      ensures forall i :: 0 <= i < |buffers| ==>
        buffers[i] == GpuBuffer(old(device.nextId) + i, length, options, IndexedLabel(name, i))
      ensures device.nextId == old(device.nextId) + Renderers.MaxInflightFrames
    {
      var made: seq<GpuBuffer> := [];
      var idx: nat := 0;
      while idx < Renderers.MaxInflightFrames
        invariant idx <= Renderers.MaxInflightFrames && |made| == idx
        invariant device.nextId == old(device.nextId) + idx
        invariant forall i :: 0 <= i < idx ==>
          made[i] == GpuBuffer(old(device.nextId) + i, length, options, IndexedLabel(name, i))
      {
        var buf := device.MakeBuffer(length, options);
        if name.Some? {
          buf := buf.(debugLabel := Some(name.value + "[" + DecimalString(idx) + "]"));
        }
        made := made + [buf];
        idx := idx + 1;
      }
      buffers := made;
    }

    /** The buffer of in-flight frame `index`; an index outside the set traps. */
    function Get(index: int): (b: GpuBuffer)
      requires 0 <= index < |buffers|
      ensures b in buffers
      ensures b == buffers[index]
    {
      buffers[index]
    }
  }
}
