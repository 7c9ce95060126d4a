/** A reference reading of a render command encoder's trace: the bindings each
    command leaves behind, and for each `encode(to:)` of a subrenderable the
    pipeline and vertex buffers that are bound when it draws. */
module Encoders {
  import opened Wrappers
  import opened Gpu

  datatype VertexBinding = VertexBinding(buffer: Option<GpuBuffer>, offset: int)

  datatype Bindings = Bindings(pipe: Option<RenderPipelineState>, vertexBindings: map<nat, VertexBinding>)

  /** What one subrenderable draws with: its pipeline, its geometry (bind
      point 0) and the per-object matrices (bind point 1). */
  datatype DrawRecord = DrawRecord(
    subobjectId: nat,
    pipe: Option<RenderPipelineState>,
    geometry: Option<VertexBinding>,
    matrices: Option<VertexBinding>)

  const NoBindings: Bindings := Bindings(None, map[])

  function Lookup(m: map<nat, VertexBinding>, index: nat): (r: Option<VertexBinding>)
    ensures r.Some? <==> index in m
    ensures r.Some? ==> r.value == m[index]
  {
    if index in m then Some(m[index]) else None
  }

  /** The effect of one command on the bindings. Setting only an offset keeps the bound buffer. */
  function Step(b: Bindings, c: Command): (r: Bindings)
    ensures c.SetRenderPipelineState? ==> r.pipe == Some(c.pipe)
    ensures !c.SetRenderPipelineState? ==> r.pipe == b.pipe
    ensures c.SetVertexBuffer? ==> r.vertexBindings == b.vertexBindings[c.index := VertexBinding(c.buffer, c.offset)]
    ensures c.SetVertexBufferOffset? ==>
      (r.vertexBindings ==
       b.vertexBindings[c.index := VertexBinding(if c.index in b.vertexBindings then b.vertexBindings[c.index].buffer else None, c.offset)])
    ensures !c.SetVertexBuffer? && !c.SetVertexBufferOffset? ==> r.vertexBindings == b.vertexBindings
  {
    match c
    case SetRenderPipelineState(p) => b.(pipe := Some(p))
    case SetVertexBuffer(buf, off, i) => b.(vertexBindings := b.vertexBindings[i := VertexBinding(buf, off)])
    case SetVertexBufferOffset(off, i) =>
      var buf := if i in b.vertexBindings then b.vertexBindings[i].buffer else None;
      b.(vertexBindings := b.vertexBindings[i := VertexBinding(buf, off)])
    case _ => b
  }

  function After(cmds: seq<Command>, b: Bindings): Bindings
  {
    if cmds == [] then b else After(cmds[1..], Step(b, cmds[0]))
  }

  function DrawOf(b: Bindings, subobjectId: nat): DrawRecord {
    DrawRecord(subobjectId, b.pipe, Lookup(b.vertexBindings, GeometryVertexBufferBindIndex),
               Lookup(b.vertexBindings, PerObjectMatricesBufferBindIndex))
  }

  /** One record per `EncodeSubobject`, in trace order. */
  function Replay(cmds: seq<Command>, b: Bindings): seq<DrawRecord>
  {
    if cmds == [] then []
    else (if cmds[0].EncodeSubobject? then [DrawOf(b, cmds[0].subobjectId)] else [])
         + Replay(cmds[1..], Step(b, cmds[0]))
  }

  lemma {:induction false} ReplayAppend(a: seq<Command>, c: seq<Command>, b: Bindings)
    ensures Replay(a + c, b) == Replay(a, b) + Replay(c, After(a, b))
    ensures After(a + c, b) == After(c, After(a, b))
  {
    if a != [] {
      assert (a + c)[1..] == a[1..] + c;
      ReplayAppend(a[1..], c, Step(b, a[0]));
    } else {
      assert a + c == c;
    }
  }

  /** A trace without `EncodeSubobject` draws nothing. */
  lemma {:induction false} ReplayNoDraws(cmds: seq<Command>, b: Bindings)
    requires forall k :: 0 <= k < |cmds| ==> !cmds[k].EncodeSubobject?
    ensures Replay(cmds, b) == []
  {
    if cmds != [] {
      ReplayNoDraws(cmds[1..], Step(b, cmds[0]));
    }
  }

  /** A trace that binds no pipeline and no vertex buffer leaves the
      bindings as they were. */
  lemma {:induction false} AfterWithoutBinding(cmds: seq<Command>, b: Bindings)
    requires forall k :: 0 <= k < |cmds| ==>
      !cmds[k].SetRenderPipelineState? && !cmds[k].SetVertexBuffer? && !cmds[k].SetVertexBufferOffset?
    ensures After(cmds, b) == b
  {
    if cmds != [] {
      assert Step(b, cmds[0]) == b;
      AfterWithoutBinding(cmds[1..], b);
    }
  }
}
