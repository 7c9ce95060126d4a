/** The pure part of Gsw/RenderPass.swift's drawing: the subobject records,
    their order by pipeline hash, and the command trace `_encode` emits. */
module PassEncoding {
  import opened Wrappers
  import opened Gpu
  import opened Encoders
  import opened Scene

  /** `SubobjectInfo`: a subrenderable with its pipeline, the object's vertex
      buffer and the object's per-object matrices offset (-1 for a static object). */
  datatype SubobjectInfo = SubobjectInfo(
    subobject: Subrenderable,
    renderPipeHash: int,
    renderPipe: RenderPipelineState,
    vertexBufferInfo: VertexBufferInfo,
    objTransformBufOffset: int)

  // ----- Sorting by pipeline hash -----

  ghost predicate SortedByHash(s: seq<SubobjectInfo>) {
    forall i, j :: 0 <= i < j < |s| ==> s[i].renderPipeHash <= s[j].renderPipeHash
  }

  function InsertByHash(x: SubobjectInfo, s: seq<SubobjectInfo>): (r: seq<SubobjectInfo>)
    ensures multiset(r) == multiset(s) + multiset{x}
    ensures |r| == |s| + 1
  {
    if s == [] then [x]
    else if x.renderPipeHash <= s[0].renderPipeHash then [x] + s
    else
      assert s == [s[0]] + s[1..];
      [s[0]] + InsertByHash(x, s[1..])
  }

  /** Inserting an element no smaller than a bound into a list no smaller than it keeps the bound. */
  lemma {:induction false} InsertByHashBound(x: SubobjectInfo, s: seq<SubobjectInfo>, h: int)
    requires x.renderPipeHash >= h
    requires forall j :: 0 <= j < |s| ==> s[j].renderPipeHash >= h
    ensures forall j :: 0 <= j < |InsertByHash(x, s)| ==> InsertByHash(x, s)[j].renderPipeHash >= h
  {
    if s != [] && x.renderPipeHash > s[0].renderPipeHash {
      InsertByHashBound(x, s[1..], h);
    }
  }

  /** A sorted list headed by an element no larger than any of its entries is sorted. */
  lemma SortedCons(h: SubobjectInfo, rest: seq<SubobjectInfo>)
    requires SortedByHash(rest)
    requires forall j :: 0 <= j < |rest| ==> rest[j].renderPipeHash >= h.renderPipeHash
    ensures SortedByHash([h] + rest)
  {
    var r := [h] + rest;
    forall i, j | 0 <= i < j < |r| ensures r[i].renderPipeHash <= r[j].renderPipeHash {
      assert r[j] == rest[j - 1];
      if i > 0 {
        assert r[i] == rest[i - 1];
      }
    }
  }

  /** Inserting into a sorted list keeps it sorted. */
  lemma {:induction false} InsertByHashSorted(x: SubobjectInfo, s: seq<SubobjectInfo>)
    requires SortedByHash(s)
    ensures SortedByHash(InsertByHash(x, s))
  {
    if s != [] && x.renderPipeHash > s[0].renderPipeHash {
      InsertByHashSorted(x, s[1..]);
      InsertByHashBound(x, s[1..], s[0].renderPipeHash);
      SortedCons(s[0], InsertByHash(x, s[1..]));
    } else if s != [] {
      SortedCons(x, s);
    }
  }

  /** An ordering of the records by ascending pipeline hash (insertion sort;
      the source's sort is not stable, so only order and contents are promised). */
  function SortByHash(s: seq<SubobjectInfo>): (r: seq<SubobjectInfo>)
    ensures multiset(r) == multiset(s)
    ensures |r| == |s|
  {
    if s == [] then []
    else
      assert s == [s[0]] + s[1..];
      InsertByHash(s[0], SortByHash(s[1..]))
  }

  /** The result of `SortByHash` is ordered by ascending hash. */
  lemma {:induction false} SortByHashSorted(s: seq<SubobjectInfo>)
    ensures SortedByHash(SortByHash(s))
  {
    if s != [] {
      SortByHashSorted(s[1..]);
      InsertByHashSorted(s[0], SortByHash(s[1..]));
    }
  }

  // ----- The trace of `_encode` -----

  /** The first entry binds its pipeline; a later one only when its pipeline
      differs from the previous entry's. */
  predicate SetsPipe(infos: seq<SubobjectInfo>, k: nat)
    requires k < |infos|
  {
    k == 0 || infos[k].renderPipe != infos[k - 1].renderPipe
  }

  /** The commands for one entry. `bindStaticSlot` selects the corrected
      encoding, which binds slot 0 for a static object instead of leaving the
      previous object's offset in place. */
  function EntryCommands(info: SubobjectInfo, setPipe: bool, bindStaticSlot: bool): (r: seq<Command>)
    ensures |r| >= 2 && r[|r| - 1] == EncodeSubobject(info.subobject.id)
    ensures forall k :: 0 <= k < |r| - 1 ==> !r[k].EncodeSubobject?
  {
    (if setPipe then [SetRenderPipelineState(info.renderPipe)] else [])
    + [SetVertexBuffer(Some(info.vertexBufferInfo.buffer), info.vertexBufferInfo.offset, GeometryVertexBufferBindIndex)]
    + (if info.objTransformBufOffset != -1 then [SetVertexBufferOffset(info.objTransformBufOffset, PerObjectMatricesBufferBindIndex)]
       else if bindStaticSlot then [SetVertexBufferOffset(0, PerObjectMatricesBufferBindIndex)]
       else [])
    + [EncodeSubobject(info.subobject.id)]
  }

  /** The commands for the first `n` entries. */
  function EntriesUpTo(infos: seq<SubobjectInfo>, n: nat, bindStaticSlot: bool): seq<Command>
    requires n <= |infos|
  {
    if n == 0 then []
    else EntriesUpTo(infos, n - 1, bindStaticSlot) + EntryCommands(infos[n - 1], SetsPipe(infos, n - 1), bindStaticSlot)
  }

  /** The pass-wide state set before the first entry: depth/stencil state, the
      frame's matrices buffer at offset 0, and the lights buffer when lighting is on. */
  function Preamble(depthStencil: DepthStencilState, matrices: GpuBuffer, lightsBuffer: Option<Option<GpuBuffer>>): (r: seq<Command>)
    ensures forall k :: 0 <= k < |r| ==> !r[k].EncodeSubobject? && !r[k].SetRenderPipelineState?
  {
    [SetDepthStencilState(depthStencil), SetVertexBuffer(Some(matrices), 0, PerObjectMatricesBufferBindIndex)]
    + (match lightsBuffer
       case None => []
       case Some(buf) => [SetVertexBuffer(buf, 0, LightsBufferBindIndex), SetFragmentBuffer(buf, 0, LightsBufferBindIndex)])
  }

  function PassTrace(depthStencil: DepthStencilState, matrices: GpuBuffer, lightsBuffer: Option<Option<GpuBuffer>>,
                     infos: seq<SubobjectInfo>, bindStaticSlot: bool): seq<Command>
  {
    Preamble(depthStencil, matrices, lightsBuffer) + EntriesUpTo(infos, |infos|, bindStaticSlot)
  }

  /** What entry `info` should draw with. */
  function IntendedDraw(info: SubobjectInfo, matrices: GpuBuffer): DrawRecord {
    DrawRecord(info.subobject.id, Some(info.renderPipe),
               Some(VertexBinding(Some(info.vertexBufferInfo.buffer), info.vertexBufferInfo.offset)),
               Some(VertexBinding(Some(matrices), if info.objTransformBufOffset == -1 then 0 else info.objTransformBufOffset)))
  }

  function IntendedDraws(infos: seq<SubobjectInfo>, matrices: GpuBuffer): (r: seq<DrawRecord>)
    ensures |r| == |infos|
    ensures forall k :: 0 <= k < |infos| ==> r[k] == IntendedDraw(infos[k], matrices)
  {
    if infos == [] then [] else IntendedDraws(infos[..|infos| - 1], matrices) + [IntendedDraw(infos[|infos| - 1], matrices)]
  }

  lemma {:induction false} PreambleBindings(depthStencil: DepthStencilState, matrices: GpuBuffer, lightsBuffer: Option<Option<GpuBuffer>>)
    ensures Replay(Preamble(depthStencil, matrices, lightsBuffer), NoBindings) == []
    ensures var b := After(Preamble(depthStencil, matrices, lightsBuffer), NoBindings);
      PerObjectMatricesBufferBindIndex in b.vertexBindings
      && b.vertexBindings[PerObjectMatricesBufferBindIndex].buffer == Some(matrices)
  {
    var pre := Preamble(depthStencil, matrices, lightsBuffer);
    ReplayNoDraws(pre, NoBindings);
    var b1 := Step(NoBindings, pre[0]);
    var b2 := Step(b1, pre[1]);
    assert After(pre, NoBindings) == After(pre[2..], b2) by {
      assert After(pre, NoBindings) == After(pre[1..], b1);
      assert pre[1..][1..] == pre[2..];
      assert pre[1..][0] == pre[1];
    }
    assert PerObjectMatricesBufferBindIndex in b2.vertexBindings;
    if lightsBuffer.Some? {
      var b3 := Step(b2, pre[2]);
      var b4 := Step(b3, pre[3]);
      assert pre[2..][0] == pre[2] && pre[2..][1..][0] == pre[3];
      assert pre[2..][1..][1..] == [];
      assert After(pre[2..], b2) == After(pre[2..][1..], b3);
      assert After(pre[2..][1..], b3) == After(pre[2..][1..][1..], b4);
      assert After(pre[2..], b2) == b4;
    } else {
      assert pre[2..] == [];
    }
  }

  /** Replaying one entry from bindings that hold the matrices buffer, and
      that already bind the entry's pipeline when it is not set. The entry
      is drawn as intended by the corrected encoding, and by either encoding
      when its object is transformable. */
  lemma {:induction false} EntryReplay(info: SubobjectInfo, setPipe: bool, bindStaticSlot: bool, b: Bindings, matrices: GpuBuffer)
    requires bindStaticSlot || info.objTransformBufOffset != -1
    requires PerObjectMatricesBufferBindIndex in b.vertexBindings
    requires b.vertexBindings[PerObjectMatricesBufferBindIndex].buffer == Some(matrices)
    requires !setPipe ==> b.pipe == Some(info.renderPipe)
    ensures Replay(EntryCommands(info, setPipe, bindStaticSlot), b) == [IntendedDraw(info, matrices)]
    ensures var b' := After(EntryCommands(info, setPipe, bindStaticSlot), b);
      b'.pipe == Some(info.renderPipe)
      && PerObjectMatricesBufferBindIndex in b'.vertexBindings
      && b'.vertexBindings[PerObjectMatricesBufferBindIndex].buffer == Some(matrices)
      && Some(b'.vertexBindings[PerObjectMatricesBufferBindIndex]) == IntendedDraw(info, matrices).matrices
  {
    var pipeCmds: seq<Command> := if setPipe then [SetRenderPipelineState(info.renderPipe)] else [];
    var geo := SetVertexBuffer(Some(info.vertexBufferInfo.buffer), info.vertexBufferInfo.offset, GeometryVertexBufferBindIndex);
    var off := SetVertexBufferOffset(if info.objTransformBufOffset == -1 then 0 else info.objTransformBufOffset, PerObjectMatricesBufferBindIndex);
    var draw := EncodeSubobject(info.subobject.id);
    assert EntryCommands(info, setPipe, bindStaticSlot) == pipeCmds + [geo, off, draw];
    ReplayAppend(pipeCmds, [geo, off, draw], b);
    ReplayNoDraws(pipeCmds, b);
    var b1 := After(pipeCmds, b);
    assert b1.pipe == Some(info.renderPipe) && b1.vertexBindings == b.vertexBindings by {
      if setPipe {
        assert pipeCmds[1..] == [];
      }
    }
    var b2 := Step(b1, geo);
    var b3 := Step(b2, off);
    assert [geo, off, draw][1..] == [off, draw];
    assert [off, draw][1..] == [draw];
    assert [draw][1..] == [];
    assert Replay([draw], b3) == [DrawOf(b3, info.subobject.id)];
    assert After([draw], b3) == Step(b3, draw);
    assert After([off, draw], b2) == After([draw], b3);
    assert After([geo, off, draw], b1) == After([off, draw], b2);
  }

  /** As written, a static object's entry sets no matrices offset: it draws
      with whatever binding the matrices slot already has, and leaves it so. */
  lemma {:induction false} StaticEntryReplayAsWritten(info: SubobjectInfo, setPipe: bool, b: Bindings)
    requires info.objTransformBufOffset == -1
    requires PerObjectMatricesBufferBindIndex in b.vertexBindings
    requires !setPipe ==> b.pipe == Some(info.renderPipe)
    ensures Replay(EntryCommands(info, setPipe, false), b) ==
      [DrawRecord(info.subobject.id, Some(info.renderPipe),
                  Some(VertexBinding(Some(info.vertexBufferInfo.buffer), info.vertexBufferInfo.offset)),
                  Some(b.vertexBindings[PerObjectMatricesBufferBindIndex]))]
    ensures var b' := After(EntryCommands(info, setPipe, false), b);
      PerObjectMatricesBufferBindIndex in b'.vertexBindings
      && b'.vertexBindings[PerObjectMatricesBufferBindIndex] == b.vertexBindings[PerObjectMatricesBufferBindIndex]
  {
    var pipeCmds: seq<Command> := if setPipe then [SetRenderPipelineState(info.renderPipe)] else [];
    var geo := SetVertexBuffer(Some(info.vertexBufferInfo.buffer), info.vertexBufferInfo.offset, GeometryVertexBufferBindIndex);
    var draw := EncodeSubobject(info.subobject.id);
    assert EntryCommands(info, setPipe, false) == pipeCmds + [geo, draw];
    ReplayAppend(pipeCmds, [geo, draw], b);
    ReplayNoDraws(pipeCmds, b);
    var b1 := After(pipeCmds, b);
    assert b1.pipe == Some(info.renderPipe) && b1.vertexBindings == b.vertexBindings by {
      if setPipe {
        assert pipeCmds[1..] == [];
      }
    }
    var b2 := Step(b1, geo);
    assert [geo, draw][1..] == [draw];
    assert [draw][1..] == [];
    assert Replay([draw], b2) == [DrawOf(b2, info.subobject.id)];
    assert After([draw], b2) == Step(b2, draw);
    assert After([geo, draw], b1) == After([draw], b2);
  }

  /** The corrected encoding draws every entry, in order, with its own
      pipeline, its object's geometry and its own per-object matrices slot. */
  lemma {:induction false} CorrectedTraceDrawsAsIntended(depthStencil: DepthStencilState, matrices: GpuBuffer,
                                                         lightsBuffer: Option<Option<GpuBuffer>>, infos: seq<SubobjectInfo>)
    ensures Replay(PassTrace(depthStencil, matrices, lightsBuffer, infos, true), NoBindings) == IntendedDraws(infos, matrices)
  {
    PrefixDrawsAsIntended(depthStencil, matrices, lightsBuffer, infos, |infos|);
  }

  /** The trace for `n` entries is the trace for `n - 1` followed by entry `n - 1`. */
  lemma EntriesStep(pre: seq<Command>, infos: seq<SubobjectInfo>, n: nat, bindStaticSlot: bool)
    requires 0 < n <= |infos|
    ensures pre + EntriesUpTo(infos, n, bindStaticSlot)
            == (pre + EntriesUpTo(infos, n - 1, bindStaticSlot)) + EntryCommands(infos[n - 1], SetsPipe(infos, n - 1), bindStaticSlot)
  {
  }

  /** The intended draws of `n` entries extend those of the first `n - 1`. */
  lemma IntendedDrawsStep(infos: seq<SubobjectInfo>, n: nat, matrices: GpuBuffer)
    requires 0 < n <= |infos|
    ensures IntendedDraws(infos[..n], matrices) == IntendedDraws(infos[..n - 1], matrices) + [IntendedDraw(infos[n - 1], matrices)]
  {
    assert infos[..n][..n - 1] == infos[..n - 1];
  }

  /** After the preamble and the first `n` corrected entries, the matrices
      slot still holds the frame's matrices buffer and the last entry's
      pipeline is bound. */
  lemma {:induction false} PrefixBindings(depthStencil: DepthStencilState, matrices: GpuBuffer,
                                          lightsBuffer: Option<Option<GpuBuffer>>, infos: seq<SubobjectInfo>, n: nat)
    requires n <= |infos|
    ensures var b := After(Preamble(depthStencil, matrices, lightsBuffer) + EntriesUpTo(infos, n, true), NoBindings);
      && PerObjectMatricesBufferBindIndex in b.vertexBindings
      && b.vertexBindings[PerObjectMatricesBufferBindIndex].buffer == Some(matrices)
      && (n > 0 ==> b.pipe == Some(infos[n - 1].renderPipe))
  {
    var pre := Preamble(depthStencil, matrices, lightsBuffer);
    if n == 0 {
      PreambleBindings(depthStencil, matrices, lightsBuffer);
      assert pre + EntriesUpTo(infos, 0, true) == pre;
    } else {
      PrefixBindings(depthStencil, matrices, lightsBuffer, infos, n - 1);
      var prev := pre + EntriesUpTo(infos, n - 1, true);
      var entry := EntryCommands(infos[n - 1], SetsPipe(infos, n - 1), true);
      EntriesStep(pre, infos, n, true);
      ReplayAppend(prev, entry, NoBindings);
      EntryReplay(infos[n - 1], SetsPipe(infos, n - 1), true, After(prev, NoBindings), matrices);
    }
  }

  /** The preamble and the first `n` corrected entries draw those entries as intended. */
  lemma {:induction false} PrefixDrawsAsIntended(depthStencil: DepthStencilState, matrices: GpuBuffer,
                                                 lightsBuffer: Option<Option<GpuBuffer>>, infos: seq<SubobjectInfo>, n: nat)
    requires n <= |infos|
    ensures Replay(Preamble(depthStencil, matrices, lightsBuffer) + EntriesUpTo(infos, n, true), NoBindings)
            == IntendedDraws(infos[..n], matrices)
  {
    var pre := Preamble(depthStencil, matrices, lightsBuffer);
    if n == 0 {
      PreambleBindings(depthStencil, matrices, lightsBuffer);
      assert pre + EntriesUpTo(infos, 0, true) == pre;
      assert infos[..0] == [];
    } else {
      PrefixDrawsAsIntended(depthStencil, matrices, lightsBuffer, infos, n - 1);
      PrefixBindings(depthStencil, matrices, lightsBuffer, infos, n - 1);
      var prev := pre + EntriesUpTo(infos, n - 1, true);
      var entry := EntryCommands(infos[n - 1], SetsPipe(infos, n - 1), true);
      EntriesStep(pre, infos, n, true);
      ReplayAppend(prev, entry, NoBindings);
      EntryReplay(infos[n - 1], SetsPipe(infos, n - 1), true, After(prev, NoBindings), matrices);
      IntendedDrawsStep(infos, n, matrices);
    }
  }

  /** A transformable object followed by a static one that shares its pipeline. */
  function StaticAfterMovingExample(pipe: RenderPipelineState, vb: VertexBufferInfo, moving: Subrenderable,
                                    still: Subrenderable): seq<SubobjectInfo>
  {
    [SubobjectInfo(moving, 7, pipe, vb, 304), SubobjectInfo(still, 7, pipe, vb, -1)]
  }

  /** As written, the static object draws with the previous object's
      matrices offset (304) instead of the static slot's offset 0. */
  lemma StaticObjectDrawsWithPreviousMatrices(depthStencil: DepthStencilState, matrices: GpuBuffer,
                                              pipe: RenderPipelineState, vb: VertexBufferInfo,
                                              moving: Subrenderable, still: Subrenderable)
    ensures var infos := StaticAfterMovingExample(pipe, vb, moving, still);
      var draws := Replay(PassTrace(depthStencil, matrices, None, infos, false), NoBindings);
      |draws| == 2 && draws[1].matrices == Some(VertexBinding(Some(matrices), 304))
      && IntendedDraw(infos[1], matrices).matrices == Some(VertexBinding(Some(matrices), 0))
  {
    var infos := StaticAfterMovingExample(pipe, vb, moving, still);
    var pre := Preamble(depthStencil, matrices, None);
    var e0 := EntryCommands(infos[0], true, false);
    var e1 := EntryCommands(infos[1], false, false);
    assert EntriesUpTo(infos, 1, false) == e0;
    assert PassTrace(depthStencil, matrices, None, infos, false) == pre + e0 + e1;
    ReplayAppend(pre + e0, e1, NoBindings);
    ReplayAppend(pre, e0, NoBindings);
    PreambleBindings(depthStencil, matrices, None);
    var b0 := After(pre, NoBindings);
    EntryReplay(infos[0], true, false, b0, matrices);
    StaticEntryReplayAsWritten(infos[1], false, After(e0, b0));
  }

  // ----- Pipeline binding -----

  /** Equal hashes mean equal pipelines and vice versa (the cache's invariant). */
  ghost predicate HashDeterminesPipe(infos: seq<SubobjectInfo>) {
    forall i, j :: 0 <= i < |infos| && 0 <= j < |infos| ==>
      (infos[i].renderPipeHash == infos[j].renderPipeHash <==> infos[i].renderPipe == infos[j].renderPipe)
  }

  /** Once sorted, no pipeline is bound twice: the entries that bind a
      pipeline bind pairwise distinct ones (`LastBinder` gives the other half:
      every entry's pipeline is bound at or before it). */
  lemma EachPipeBoundOnce(infos: seq<SubobjectInfo>)
    requires SortedByHash(infos) && HashDeterminesPipe(infos)
    ensures forall k1, k2 :: 0 <= k1 < k2 < |infos| && SetsPipe(infos, k1) && SetsPipe(infos, k2) ==>
      infos[k1].renderPipe != infos[k2].renderPipe
  {
    forall k1, k2 | 0 <= k1 < k2 < |infos| && SetsPipe(infos, k1) && SetsPipe(infos, k2)
      ensures infos[k1].renderPipe != infos[k2].renderPipe
    {
      assert infos[k2 - 1].renderPipe != infos[k2].renderPipe;
      assert infos[k2 - 1].renderPipeHash != infos[k2].renderPipeHash;
      assert infos[k1].renderPipeHash <= infos[k2 - 1].renderPipeHash;
    }
  }

  /** Every entry draws with a pipeline that an entry at or before it bound:
      the closest binding entry at or before `k` binds `k`'s pipeline. */
  lemma {:induction false} LastBinder(infos: seq<SubobjectInfo>, k: nat) returns (j: nat)
    requires k < |infos|
    ensures j <= k && SetsPipe(infos, j) && infos[j].renderPipe == infos[k].renderPipe
  {
    if SetsPipe(infos, k) {
      j := k;
    } else {
      j := LastBinder(infos, k - 1);
    }
  }
}
