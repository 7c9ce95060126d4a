/** Gsw/RenderPass.swift: the base render pass. It keeps one record
    per subrenderable with its pipeline, caches pipelines by descriptor hash,
    keeps the records ordered by that hash for encoding, refreshes the
    global and per-object matrices every frame, and manages the depth/stencil
    textures. The encoder is modelled as the sequence of commands it records. */
module RenderPasses {
  import opened Wrappers
  import opened Gpu
  import opened Numerics
  import opened Cameras
  import opened Renderers
  import opened GlobalMatrices
  import opened Transforms
  import TrsTransforms
  import opened ShaderOptions
  import LightSets
  import opened Scene
  import opened Encoders
  import opened PassEncoding
  import opened PipelineSelection
  import opened Shaders

  /** `MTLRenderPassDescriptor`: which depth and stencil attachments exist and
      the textures bound to the attachments. */
  class PassDescriptor {
    const hasDepthAttachment: bool
    const hasStencilAttachment: bool
    var color0Texture: Option<GpuTexture>
    var depthTexture: Option<GpuTexture>
    var depthResolveTexture: Option<GpuTexture>
    var stencilTexture: Option<GpuTexture>
    var stencilResolveTexture: Option<GpuTexture>

    constructor (hasDepth: bool, hasStencil: bool)
      ensures hasDepthAttachment == hasDepth && hasStencilAttachment == hasStencil
      ensures color0Texture == None && depthTexture == None && depthResolveTexture == None
      ensures stencilTexture == None && stencilResolveTexture == None
    {
      hasDepthAttachment := hasDepth;
      hasStencilAttachment := hasStencil;
      color0Texture := None;
      depthTexture := None;
      depthResolveTexture := None;
      stencilTexture := None;
      stencilResolveTexture := None;
    }
  }

  const UnnamedRenderPass: string := "Unnamed Render Pass"

  /** The sample count the depth/stencil texture of a pass with
      `passSampleCount` samples should have: the pass's count for the texture
      rendered into, one for the texture a multisampled pass resolves into. */
  function DepthStencilSampleCount(resolve: bool, passSampleCount: int): (n: int)
    ensures resolve ==> n == 1
    ensures !resolve ==> n == passSampleCount
  {
    if resolve then 1 else passSampleCount
  }

  /** The sample count `_allocateDepthStencilTexture` gives a texture as
      written: the caller requests `passSampleCount` for the resolve texture
      and one otherwise (the reverse of what each needs), but the allocator
      ignores its argument and always uses the pass's own count, so `resolve`
      makes no difference. */
  function DepthStencilSampleCountAsWritten(resolve: bool, passSampleCount: int): (n: int)
    ensures n == passSampleCount
  {
    passSampleCount
  }

  /** As written, a 4x multisampled pass gets a 4x multisampled resolve
      texture, where a resolve target has a single sample. */
  lemma ResolveTextureMultisampledAsWritten()
    ensures DepthStencilSampleCountAsWritten(true, 4) == 4
    ensures DepthStencilSampleCountAsWritten(true, 4) != DepthStencilSampleCount(true, 4)
  {
  }

  /** Whether a depth/stencil texture must be (re)allocated for a target:
      there is none yet, or its size is not the target's in whole pixels. */
  function NeedsNewTexture(current: Option<GpuTexture>, targetSize: Vec2): bool {
    current.None? || current.value.width != TruncateToInt(targetSize.x)
    || current.value.height != TruncateToInt(targetSize.y)
  }

  /** The depth/stencil texture after resizing to `targetSize`: the current
      one when it fits, otherwise a new one minted with `id`. */
  function Resized(current: Option<GpuTexture>, targetSize: Vec2, id: nat, samples: int): Option<GpuTexture> {
    if NeedsNewTexture(current, targetSize)
    then Some(GpuTexture(id, DesiredDepthStencilPixelFormat, TruncateToInt(targetSize.x), TruncateToInt(targetSize.y), samples))
    else current
  }

  /** A resized texture always exists and has the target's size; a new one
      is allocated only when needed, and one that fits is kept. */
  lemma ResizedFitsTarget(current: Option<GpuTexture>, targetSize: Vec2, id: nat, samples: int)
    ensures var r := Resized(current, targetSize, id, samples);
      && r.Some? && r.value.width == TruncateToInt(targetSize.x) && r.value.height == TruncateToInt(targetSize.y)
      && (r != current <==> NeedsNewTexture(current, targetSize))
      && (NeedsNewTexture(current, targetSize) ==>
            r.value.id == id && r.value.sampleCount == samples && r.value.pixelFormat == DesiredDepthStencilPixelFormat)
  {
  }

  /** The per-object matrices offset recorded for an object: its transform's
      offset, or -1 for a static object. */
  function ObjectOffset(obj: Renderable): int {
    if obj.transform == null then -1 else obj.transform.base.BufferOffset()
  }

  /** Every cache entry is filed under its own pipeline's hash, and every
      record's pipeline is the one cached under the record's hash. */
  ghost predicate PipesCached(cache: map<int, RenderPipelineState>, hashOf: PipelineConfig -> int, infos: seq<SubobjectInfo>) {
    (forall h :: h in cache ==> hashOf(cache[h].config) == h)
    && (forall k :: 0 <= k < |infos| ==>
          infos[k].renderPipeHash in cache && cache[infos[k].renderPipeHash] == infos[k].renderPipe)
  }

  /** With the cache consistent, records share a hash exactly when they share a pipeline. */
  lemma PipesCachedDeterminesPipe(cache: map<int, RenderPipelineState>, hashOf: PipelineConfig -> int, infos: seq<SubobjectInfo>)
    requires PipesCached(cache, hashOf, infos)
    ensures HashDeterminesPipe(infos)
  {
    forall i, j | 0 <= i < |infos| && 0 <= j < |infos|
      ensures infos[i].renderPipeHash == infos[j].renderPipeHash <==> infos[i].renderPipe == infos[j].renderPipe
    {
      if infos[i].renderPipe == infos[j].renderPipe {
        assert hashOf(cache[infos[i].renderPipeHash].config) == infos[i].renderPipeHash;
        assert hashOf(cache[infos[j].renderPipeHash].config) == infos[j].renderPipeHash;
      }
    }
  }

  /** Reordering the records keeps them consistent with the cache. */
  lemma PermutationKeepsPipesCached(cache: map<int, RenderPipelineState>, hashOf: PipelineConfig -> int,
                                    a: seq<SubobjectInfo>, b: seq<SubobjectInfo>)
    requires PipesCached(cache, hashOf, a) && multiset(a) == multiset(b)
    ensures PipesCached(cache, hashOf, b)
  {
    forall k | 0 <= k < |b|
      ensures b[k].renderPipeHash in cache && cache[b[k].renderPipeHash] == b[k].renderPipe
    {
      assert b[k] in multiset(a);
      var j :| 0 <= j < |a| && a[j] == b[k];
    }
  }

  /** How many records `add(objects:)` makes for the first `n` objects of
      `objs`: one per subrenderable. */
  function RecordCount(objs: seq<Renderable>, n: nat): nat
    requires n <= |objs|
  {
    if n == 0 then 0 else RecordCount(objs, n - 1) + |objs[n - 1].subrenderables|
  }

  /** The transforms of a list of objects (static objects have none). */
  ghost function TransformsOf(objs: seq<Renderable>): set<TrsTransforms.TRSTransform> {
    set j | 0 <= j < |objs| && objs[j].transform != null :: objs[j].transform
  }

  /** The model-matrix holders behind those transforms. */
  ghost function BasesOf(objs: seq<Renderable>): set<Transform> {
    set j | 0 <= j < |objs| && objs[j].transform != null :: objs[j].transform.base
  }

  /** What the store's allocator guarantees for live transforms: distinct
      transforms hold distinct slots, and none holds the static slot. */
  ghost predicate SlotsDistinct(objs: seq<Renderable>) {
    && (forall j1, j2 ::
          (0 <= j1 < |objs| && 0 <= j2 < |objs| && objs[j1].transform != null
           && objs[j2].transform != null && objs[j1].transform != objs[j2].transform) ==>
          objs[j1].transform.base.index != objs[j2].transform.base.index)
    && (forall j :: 0 <= j < |objs| && objs[j].transform != null ==> objs[j].transform.base.index != StaticObjectIndex)
  }

  /** The byte offsets of the slots those transforms hold. */
  ghost function SlotOffsets(objs: seq<Renderable>): set<int> {
    set j | 0 <= j < |objs| && objs[j].transform != null :: objs[j].transform.base.BufferOffset()
  }

  lemma SlotOffsetsNext(objs: seq<Renderable>, i: nat)
    requires i < |objs|
    ensures SlotOffsets(objs[..i + 1]) ==
      SlotOffsets(objs[..i]) + (if objs[i].transform == null then {} else {objs[i].transform.base.BufferOffset()})
  {
    var a := objs[..i];
    var b := objs[..i + 1];
    forall off | off in SlotOffsets(b)
      ensures off in SlotOffsets(a) || (objs[i].transform != null && off == objs[i].transform.base.BufferOffset())
    {
      var j :| 0 <= j < |b| && b[j].transform != null && off == b[j].transform.base.BufferOffset();
      if j < i {
        assert a[j] == b[j];
      }
    }
    forall off | off in SlotOffsets(a)
      ensures off in SlotOffsets(b)
    {
      var j :| 0 <= j < |a| && a[j].transform != null && off == a[j].transform.base.BufferOffset();
      assert b[j] == a[j];
    }
    if objs[i].transform != null {
      assert b[i] == objs[i];
    }
  }

  /** The loop of `_encode` over the sorted records: the pipeline is set
      only when it differs from the previous record's, and every record
      binds its geometry, its matrices offset and draws. */
  method EncodeEntries(infos: seq<SubobjectInfo>, bindStaticSlot: bool) returns (commands: seq<Command>)
    requires |infos| > 0
    ensures commands == EntriesUpTo(infos, |infos|, bindStaticSlot)
  {
    commands := EntryCommands(infos[0], true, bindStaticSlot);
    var renderPipePrev := infos[0].renderPipe;
    var idx := 1;
    while idx < |infos|
      invariant 1 <= idx <= |infos|
      invariant commands == EntriesUpTo(infos, idx, bindStaticSlot)
      invariant renderPipePrev == infos[idx - 1].renderPipe
    {
      var info := infos[idx];
      var setPipe := info.renderPipe != renderPipePrev;
      if setPipe {
        renderPipePrev := info.renderPipe;
      }
      commands := commands + EntryCommands(info, setPipe, bindStaticSlot);
      idx := idx + 1;
    }
  }

  class RenderPass {
    const device: Device
    const descriptor: PassDescriptor
    const sampleCount: int
    const camera: Camera
    const lights: LightSets.Lights?
    const lightingEnabled: bool
    /** Chosen by the concrete pass when it is made. */
    const color0PixelFormat: PixelFormat
    const globalTransforms: GlobalTransforms
    /** The names of the functions in the default shader library. */
    const shaderLibrary: set<ShaderFunction>
    /** The pipeline descriptor's `hash`. */
    const hashOf: PipelineConfig -> int

    var objects: seq<Renderable>
    var depthStencilTexture: Option<GpuTexture>
    var depthStencilResolveTexture: Option<GpuTexture>
    var subobjectInfos: seq<SubobjectInfo>
    var needsResort: bool
    var renderPipeCache: map<int, RenderPipelineState>
    var perObjectTransforms: PerObjectTransforms?
    var vertexShaderCache: set<ShaderFunction>
    var fragmentShaderCache: set<ShaderFunction>
    var renderPassName: string
    var depthStencilState: Option<DepthStencilState>

    /** The caches are consistent; lighting implies a light set. */
    ghost predicate PipesValid()
      reads this
    {
      (lightingEnabled ==> lights != null)
      && PipesCached(renderPipeCache, hashOf, subobjectInfos)
      && CacheFaithful(vertexShaderCache, shaderLibrary)
      && CacheFaithful(fragmentShaderCache, shaderLibrary)
    }

    /** ... and the records are ordered by hash unless a resort is pending. */
    ghost predicate Valid()
      reads this
    {
      PipesValid() && (!needsResort ==> SortedByHash(subobjectInfos))
    }

    constructor (descriptor: PassDescriptor, color0PixelFormat: PixelFormat, sampleCount: int, camera: Camera,
                 lights: LightSets.Lights?, device: Device, shaderLibrary: set<ShaderFunction>, hashOf: PipelineConfig -> int)
      ensures this.descriptor == descriptor && this.color0PixelFormat == color0PixelFormat
      ensures this.sampleCount == sampleCount && this.camera == camera && this.lights == lights
      ensures this.device == device && this.shaderLibrary == shaderLibrary && this.hashOf == hashOf
      ensures lightingEnabled <==> lights != null && |lights.lights| > 0
      ensures fresh(globalTransforms)
      ensures globalTransforms.viewDirty && globalTransforms.projectionDirty && globalTransforms.targetSize == None
      ensures globalTransforms.foveaDegrees == 60.0 && globalTransforms.nearZ == 0.1 && globalTransforms.farZ == 100.0
      ensures globalTransforms.Current()
      ensures objects == [] && subobjectInfos == [] && needsResort
      ensures renderPipeCache == map[] && vertexShaderCache == {} && fragmentShaderCache == {}
      ensures perObjectTransforms == null && depthStencilState == None && renderPassName == UnnamedRenderPass
      ensures depthStencilTexture == None && depthStencilResolveTexture == None
      ensures Valid() && DepthStencilValid()
    {
      this.descriptor := descriptor;
      this.device := device;
      this.color0PixelFormat := color0PixelFormat;
      this.sampleCount := sampleCount;
      this.camera := camera;
      this.lights := lights;
      lightingEnabled := lights != null && lights.Count() > 0;
      globalTransforms := new GlobalTransforms();
      this.shaderLibrary := shaderLibrary;
      this.hashOf := hashOf;
      objects := [];
      depthStencilTexture := None;
      depthStencilResolveTexture := None;
      subobjectInfos := [];
      needsResort := true;
      renderPipeCache := map[];
      perObjectTransforms := null;
      vertexShaderCache := {};
      fragmentShaderCache := {};
      renderPassName := UnnamedRenderPass;
      depthStencilState := None;
    }

    /** The `perObjectTransforms` property, which must be set before use. */
    method SetPerObjectTransforms(p: PerObjectTransforms)
      modifies this`perObjectTransforms
      ensures perObjectTransforms == p
    {
      perObjectTransforms := p;
    }

    function LightsList(): seq<LightSets.Light>
      reads lights
    {
      if lights == null then [] else lights.lights
    }

    /** The pipeline configuration a subrenderable of `obj` needs in this
        pass when its material has these shader options and this opacity
        and the light set holds `ls`. */
    function DescriptorUnder(obj: Renderable, options: FragmentShaderOptions, opacity: real, ls: seq<LightSets.Light>)
      : Option<PipelineConfig>
    {
      DescriptorFor(obj.vertexDescriptor, sampleCount, color0PixelFormat, lightingEnabled, ls, options, opacity,
                    descriptor.hasDepthAttachment, descriptor.hasStencilAttachment, shaderLibrary)
    }

    function SubobjectDescriptor(sub: Subrenderable, obj: Renderable): Option<PipelineConfig>
      reads lights, sub.material`fragmentShaderOptions, sub.material`opacity
    {
      DescriptorUnder(obj, sub.material.fragmentShaderOptions, sub.material.opacity, LightsList())
    }

    /** `info` is the record `add` makes for `sub` of `obj` when its
        pipeline configuration comes out as `cfg`: a buildable configuration
        whose hash the record carries, with the object's geometry and
        matrices offset. */
    ghost predicate Describes(info: SubobjectInfo, obj: Renderable, sub: Subrenderable, cfg: Option<PipelineConfig>) {
      info.subobject == sub && info.vertexBufferInfo == obj.vertexBufferInfo
      && info.objTransformBufOffset == ObjectOffset(obj)
      && cfg.Some? && info.renderPipeHash == hashOf(cfg.value)
    }

    /** `_renderPipeDescriptor` with `_selectShaders`: loads the selected
        shaders through the caches and builds the configuration. */
    method RenderPipeDescriptor(sub: Subrenderable, obj: Renderable) returns (r: Result<PipelineConfig>)
      requires CacheFaithful(vertexShaderCache, shaderLibrary) && CacheFaithful(fragmentShaderCache, shaderLibrary)
      modifies this`vertexShaderCache, this`fragmentShaderCache
      ensures r.Ok? <==> SubobjectDescriptor(sub, obj).Some?
      ensures r.Ok? ==> r.value == SubobjectDescriptor(sub, obj).value
      ensures CacheFaithful(vertexShaderCache, shaderLibrary) && CacheFaithful(fragmentShaderCache, shaderLibrary)
    {
      var mat := sub.material;
      var v := SelectShaderVariant(lightingEnabled, LightsList(), Contains(mat.fragmentShaderOptions, DiffuseTextured));
      if v.Fatal? {
        return Fatal(v.message);
      }
      var vertexFunction := ShaderFunction(VertexStage, v.value);
      var vertexLookup := CacheLookup(vertexShaderCache, shaderLibrary, vertexFunction);
      if vertexLookup.Fatal? {
        return Fatal(vertexLookup.message);
      }
      vertexShaderCache := vertexLookup.value;
      var fragmentFunction := ShaderFunction(FragmentStage, v.value);
      var fragmentLookup := CacheLookup(fragmentShaderCache, shaderLibrary, fragmentFunction);
      if fragmentLookup.Fatal? {
        return Fatal(fragmentLookup.message);
      }
      fragmentShaderCache := fragmentLookup.value;
      r := Ok(PipelineConfig(obj.vertexDescriptor, sampleCount, vertexFunction, fragmentFunction,
                             color0PixelFormat, mat.opacity < 1.0,
                             AttachmentFormat(descriptor.hasDepthAttachment), AttachmentFormat(descriptor.hasStencilAttachment)));
    }

    /** `_renderPipeForSubrenderable`: a cached pipeline under the
        descriptor's hash is reused (even if it was made for another
        descriptor with the same hash); otherwise a new pipeline is made and
        cached. The cache only grows, and no entry changes. */
    method RenderPipeFor(sub: Subrenderable, obj: Renderable) returns (r: Result<(RenderPipelineState, int)>)
      requires PipesValid()
      modifies this`renderPipeCache, this`vertexShaderCache, this`fragmentShaderCache, device
      ensures PipesValid()
      ensures r.Fatal? <==> SubobjectDescriptor(sub, obj).None?
      ensures r.Fatal? ==> renderPipeCache == old(renderPipeCache) && device.nextId == old(device.nextId)
      ensures r.Ok? ==>
        var cfg := SubobjectDescriptor(sub, obj).value;
        var (pipe, h) := r.value;
        && h == hashOf(cfg) && hashOf(pipe.config) == h
        && (h in old(renderPipeCache) ==>
              pipe == old(renderPipeCache)[h] && renderPipeCache == old(renderPipeCache) && device.nextId == old(device.nextId))
        && (h !in old(renderPipeCache) ==>
              pipe == RenderPipelineState(old(device.nextId), cfg) && renderPipeCache == old(renderPipeCache)[h := pipe]
              && device.nextId == old(device.nextId) + 1)
    {
      var desc := RenderPipeDescriptor(sub, obj);
      if desc.Fatal? {
        return Fatal(desc.message);
      }
      var hash := hashOf(desc.value);
      if hash in renderPipeCache {
        return Ok((renderPipeCache[hash], hash));
      }
      var pipe := device.MakeRenderPipelineState(desc.value);
      renderPipeCache := renderPipeCache[hash := pipe];
      r := Ok((pipe, hash));
    }

    /** One pass of `add`'s loop: the record for `sub` of `obj`, with the
        pipeline for its descriptor, is appended. */
    method AddSubobject(sub: Subrenderable, obj: Renderable) returns (status: Status)
      requires PipesValid()
      modifies this`subobjectInfos, this`renderPipeCache, this`vertexShaderCache, this`fragmentShaderCache, device
      ensures PipesValid()
      ensures status.Stopped? <==> old(SubobjectDescriptor(sub, obj)).None?
      ensures old(renderPipeCache).Keys <= renderPipeCache.Keys
      ensures forall h :: h in old(renderPipeCache) ==> renderPipeCache[h] == old(renderPipeCache)[h]
      ensures status.Stopped? ==> subobjectInfos == old(subobjectInfos)
      ensures status.Completed? ==> |subobjectInfos| == |old(subobjectInfos)| + 1
      ensures status.Completed? ==> subobjectInfos[..|old(subobjectInfos)|] == old(subobjectInfos)
      ensures status.Completed? ==> Describes(subobjectInfos[|old(subobjectInfos)|], obj, sub, old(SubobjectDescriptor(sub, obj)))
    {
      var r := RenderPipeFor(sub, obj);
      if r.Fatal? {
        status := Stopped(r.message);
      } else {
        var (pipe, hash) := r.value;
        subobjectInfos := subobjectInfos + [SubobjectInfo(sub, hash, pipe, obj.vertexBufferInfo, ObjectOffset(obj))];
        status := Completed;
      }
    }

    /** The loop of `add`: one record per subrenderable, in order, each with
        the pipeline for its descriptor, the object's geometry and the
        object's matrices offset. A descriptor that cannot be built is fatal. */
    method AddSubobjects(obj: Renderable) returns (status: Status)
      requires PipesValid()
      modifies this`subobjectInfos, this`renderPipeCache, this`vertexShaderCache, this`fragmentShaderCache, device
      ensures PipesValid()
      ensures status.Stopped? <==>
        exists k :: 0 <= k < |obj.subrenderables| &&
          var m := obj.subrenderables[k].material;
          old(DescriptorUnder(obj, m.fragmentShaderOptions, m.opacity, LightsList())).None?
      ensures old(renderPipeCache).Keys <= renderPipeCache.Keys
      ensures forall h :: h in old(renderPipeCache) ==> renderPipeCache[h] == old(renderPipeCache)[h]
      ensures status.Completed? ==> |subobjectInfos| == |old(subobjectInfos)| + |obj.subrenderables|
      ensures status.Completed? ==> subobjectInfos[..|old(subobjectInfos)|] == old(subobjectInfos)
      ensures status.Completed? ==> forall k :: 0 <= k < |obj.subrenderables| ==>
        var m := obj.subrenderables[k].material;
        Describes(subobjectInfos[|old(subobjectInfos)| + k], obj, obj.subrenderables[k],
                  old(DescriptorUnder(obj, m.fragmentShaderOptions, m.opacity, LightsList())))
    {
      var k := 0;
      status := Completed;
      while k < |obj.subrenderables| && status.Completed?
        invariant 0 <= k <= |obj.subrenderables|
        invariant PipesValid() && LightsList() == old(LightsList())
        invariant old(renderPipeCache).Keys <= renderPipeCache.Keys
        invariant forall h :: h in old(renderPipeCache) ==> renderPipeCache[h] == old(renderPipeCache)[h]
        invariant status.Stopped? ==> 0 < k
        invariant status.Stopped? ==>
          var m := obj.subrenderables[k - 1].material;
          old(DescriptorUnder(obj, m.fragmentShaderOptions, m.opacity, LightsList())).None?
        invariant status.Completed? ==> |subobjectInfos| == |old(subobjectInfos)| + k
        invariant status.Completed? ==> subobjectInfos[..|old(subobjectInfos)|] == old(subobjectInfos)
        invariant status.Completed? ==> forall j :: 0 <= j < k ==>
          var m := obj.subrenderables[j].material;
          Describes(subobjectInfos[|old(subobjectInfos)| + j], obj, obj.subrenderables[j],
                    old(DescriptorUnder(obj, m.fragmentShaderOptions, m.opacity, LightsList())))
      {
        ghost var before := subobjectInfos;
        status := AddSubobject(obj.subrenderables[k], obj);
        if status.Completed? {
          assert subobjectInfos[..|before|] == before;
          assert subobjectInfos[..|old(subobjectInfos)|] == before[..|old(subobjectInfos)|];
        }
        k := k + 1;
      }
    }

    /** Record `n` of `infos` exists and describes `sub` of `obj` under `cfg`. */
    ghost predicate RecordDescribes(infos: seq<SubobjectInfo>, n: int, obj: Renderable, sub: Subrenderable,
                                    cfg: Option<PipelineConfig>) {
      0 <= n < |infos| && Describes(infos[n], obj, sub, cfg)
    }

    /** `add`: the object's records are appended and a resort is pending. */
    method Add(obj: Renderable) returns (status: Status)
      requires Valid()
      modifies this`subobjectInfos, this`renderPipeCache, this`vertexShaderCache, this`fragmentShaderCache, device
      modifies this`objects, this`needsResort
      ensures status.Stopped? <==>
        exists k :: 0 <= k < |obj.subrenderables| &&
          var m := obj.subrenderables[k].material;
          old(DescriptorUnder(obj, m.fragmentShaderOptions, m.opacity, LightsList())).None?
      ensures status.Completed? ==> Valid() && needsResort && objects == old(objects) + [obj]
      ensures status.Completed? ==> |subobjectInfos| == |old(subobjectInfos)| + |obj.subrenderables|
      ensures status.Completed? ==> subobjectInfos[..|old(subobjectInfos)|] == old(subobjectInfos)
      ensures status.Completed? ==> forall k :: 0 <= k < |obj.subrenderables| ==>
        var m := obj.subrenderables[k].material;
        Describes(subobjectInfos[|old(subobjectInfos)| + k], obj, obj.subrenderables[k],
                  old(DescriptorUnder(obj, m.fragmentShaderOptions, m.opacity, LightsList())))
    {
      status := AddSubobjects(obj);
      if status.Completed? {
        objects := objects + [obj];
        needsResort := true;
      }
    }

    /** The loop of `add(objects:)`: the records of each object in turn.
        Subrenderable `k` of object `j` gets the record after those of the
        objects before it. */
    method AddRecords(objs: seq<Renderable>) returns (status: Status)
      requires PipesValid()
      modifies this`subobjectInfos, this`renderPipeCache, this`vertexShaderCache, this`fragmentShaderCache, device
      ensures status.Stopped? <==>
        exists j, k :: 0 <= j < |objs| && 0 <= k < |objs[j].subrenderables| &&
          old(DescriptorUnder(objs[j], objs[j].subrenderables[k].material.fragmentShaderOptions, objs[j].subrenderables[k].material.opacity, LightsList())).None?
      ensures PipesValid()
      ensures status.Completed? ==> |subobjectInfos| == |old(subobjectInfos)| + RecordCount(objs, |objs|)
      ensures status.Completed? ==> subobjectInfos[..|old(subobjectInfos)|] == old(subobjectInfos)
      ensures status.Completed? ==> forall j, k {:trigger objs[j].subrenderables[k]} :: 0 <= j < |objs| && 0 <= k < |objs[j].subrenderables| ==>
        RecordDescribes(subobjectInfos, |old(subobjectInfos)| + RecordCount(objs, j) + k, objs[j], objs[j].subrenderables[k],
                  old(DescriptorUnder(objs[j], objs[j].subrenderables[k].material.fragmentShaderOptions, objs[j].subrenderables[k].material.opacity, LightsList())))
    {
      var i := 0;
      status := Completed;
      while i < |objs| && status.Completed?
        invariant 0 <= i <= |objs|
        invariant PipesValid() && LightsList() == old(LightsList())
        invariant status.Stopped? ==>
          exists j, k :: 0 <= j < i && 0 <= k < |objs[j].subrenderables| &&
            old(DescriptorUnder(objs[j], objs[j].subrenderables[k].material.fragmentShaderOptions, objs[j].subrenderables[k].material.opacity, LightsList())).None?
        invariant status.Completed? ==> |subobjectInfos| == |old(subobjectInfos)| + RecordCount(objs, i)
        invariant status.Completed? ==> subobjectInfos[..|old(subobjectInfos)|] == old(subobjectInfos)
        invariant status.Completed? ==> forall j, k {:trigger objs[j].subrenderables[k]} :: 0 <= j < i && 0 <= k < |objs[j].subrenderables| ==>
          RecordDescribes(subobjectInfos, |old(subobjectInfos)| + RecordCount(objs, j) + k, objs[j], objs[j].subrenderables[k],
                    old(DescriptorUnder(objs[j], objs[j].subrenderables[k].material.fragmentShaderOptions, objs[j].subrenderables[k].material.opacity, LightsList())))
      {
        ghost var before := subobjectInfos;
        status := AddSubobjects(objs[i]);
        i := i + 1;
        if status.Completed? {
          assert subobjectInfos[..|old(subobjectInfos)|] == before[..|old(subobjectInfos)|];
          assert subobjectInfos[..|before|] == before;
          forall j, k {:trigger objs[j].subrenderables[k]} | 0 <= j < i && 0 <= k < |objs[j].subrenderables|
            ensures RecordDescribes(subobjectInfos, |old(subobjectInfos)| + RecordCount(objs, j) + k, objs[j], objs[j].subrenderables[k],
                        old(DescriptorUnder(objs[j], objs[j].subrenderables[k].material.fragmentShaderOptions, objs[j].subrenderables[k].material.opacity, LightsList())))
          {
            var n := |old(subobjectInfos)| + RecordCount(objs, j) + k;
            if j < i - 1 {
              var sub := objs[j].subrenderables[k];
              assert subobjectInfos[n] == before[n];
            } else {
              assert n == |before| + k;
            }
          }
        }
      }
    }

    /** `add(objects:)`: the records of each object in turn, then the
        objects. Subrenderable `k` of object `j` gets the record after those
        of the objects before it. */
    method AddObjects(objs: seq<Renderable>) returns (status: Status)
      requires Valid()
      modifies this`subobjectInfos, this`renderPipeCache, this`vertexShaderCache, this`fragmentShaderCache, device
      modifies this`objects, this`needsResort
      ensures status.Stopped? <==>
        exists j, k :: 0 <= j < |objs| && 0 <= k < |objs[j].subrenderables| &&
          old(DescriptorUnder(objs[j], objs[j].subrenderables[k].material.fragmentShaderOptions, objs[j].subrenderables[k].material.opacity, LightsList())).None?
      ensures status.Completed? ==> Valid() && needsResort && objects == old(objects) + objs
      ensures status.Completed? ==> |subobjectInfos| == |old(subobjectInfos)| + RecordCount(objs, |objs|)
      ensures status.Completed? ==> subobjectInfos[..|old(subobjectInfos)|] == old(subobjectInfos)
      ensures status.Completed? ==> forall j, k {:trigger objs[j].subrenderables[k]} :: 0 <= j < |objs| && 0 <= k < |objs[j].subrenderables| ==>
        RecordDescribes(subobjectInfos, |old(subobjectInfos)| + RecordCount(objs, j) + k, objs[j], objs[j].subrenderables[k],
                  old(DescriptorUnder(objs[j], objs[j].subrenderables[k].material.fragmentShaderOptions, objs[j].subrenderables[k].material.opacity, LightsList())))
    {
      status := AddRecords(objs);
      if status.Completed? {
        objects := objects + objs;
        needsResort := true;
      }
    }

    /** `_sortSubobjects`: ascending pipeline hash, the same records. */
    method SortSubobjects()
      requires Valid()
      modifies this`subobjectInfos, this`needsResort
      ensures SortedByHash(subobjectInfos) && multiset(subobjectInfos) == multiset(old(subobjectInfos))
      ensures !needsResort && Valid()
    {
      SortByHashSorted(subobjectInfos);
      PermutationKeepsPipesCached(renderPipeCache, hashOf, subobjectInfos, SortByHash(subobjectInfos));
      subobjectInfos := SortByHash(subobjectInfos);
      needsResort := false;
    }

    /** Once sorted, the encoding binds each pipeline exactly once. */
    lemma SortedPassBindsEachPipeOnce()
      requires Valid() && !needsResort
      ensures forall k1, k2 :: 0 <= k1 < k2 < |subobjectInfos| && SetsPipe(subobjectInfos, k1) && SetsPipe(subobjectInfos, k2) ==>
        subobjectInfos[k1].renderPipe != subobjectInfos[k2].renderPipe
    {
      PipesCachedDeterminesPipe(renderPipeCache, hashOf, subobjectInfos);
      EachPipeBoundOnce(subobjectInfos);
    }

    /** The lights buffer bound when lighting is enabled. */
    function LightsBinding(): Option<Option<GpuBuffer>>
      requires lightingEnabled ==> lights != null
      reads this, lights
    {
      if lightingEnabled then Some(lights.buffer) else None
    }

    /** `_encode`'s loop; `bindStaticSlot` selects the corrected treatment
        of static objects. Nothing is encoded without records; a missing
        depth/stencil state or per-object transform store is fatal. */
    method EncodeWith(constantBufferIndex: int, bindStaticSlot: bool) returns (status: Status, commands: seq<Command>)
      requires lightingEnabled ==> lights != null
      requires perObjectTransforms != null ==> 0 <= constantBufferIndex < |perObjectTransforms.bufferSet.buffers|
      ensures status.Stopped? <==> |subobjectInfos| > 0 && (depthStencilState.None? || perObjectTransforms == null)
      ensures status.Completed? && |subobjectInfos| == 0 ==> commands == []
      ensures status.Completed? && |subobjectInfos| > 0 ==>
        commands == PassTrace(depthStencilState.value, perObjectTransforms.GetBuffer(constantBufferIndex),
                              LightsBinding(), subobjectInfos, bindStaticSlot)
    {
      if |subobjectInfos| == 0 {
        status, commands := Completed, [];
      } else if depthStencilState.None? {
        status, commands := Stopped("Render Pass subclass must provide a depth stencil state"), [];
      } else if perObjectTransforms == null {
        status, commands := Stopped("perObjectTransforms used before it was set"), [];
      } else {
        var pre := Preamble(depthStencilState.value, perObjectTransforms.GetBuffer(constantBufferIndex), LightsBinding());
        var entries := EncodeEntries(subobjectInfos, bindStaticSlot);
        commands := pre + entries;
        status := Completed;
      }
    }

    /** `_encode` as written: a static object binds no matrices offset. */
    method EncodeAsWritten(constantBufferIndex: int) returns (status: Status, commands: seq<Command>)
      requires lightingEnabled ==> lights != null
      requires perObjectTransforms != null ==> 0 <= constantBufferIndex < |perObjectTransforms.bufferSet.buffers|
      ensures status.Stopped? <==> |subobjectInfos| > 0 && (depthStencilState.None? || perObjectTransforms == null)
      ensures status.Completed? && |subobjectInfos| > 0 ==>
        commands == PassTrace(depthStencilState.value, perObjectTransforms.GetBuffer(constantBufferIndex),
                              LightsBinding(), subobjectInfos, false)
    {
      status, commands := EncodeWith(constantBufferIndex, false);
    }

    /** `_encode` with the static slot bound for static objects: every
        record is drawn, in order, with its own pipeline, its object's
        geometry and its own matrices. */
    method Encode(constantBufferIndex: int) returns (status: Status, commands: seq<Command>)
      requires lightingEnabled ==> lights != null
      requires perObjectTransforms != null ==> 0 <= constantBufferIndex < |perObjectTransforms.bufferSet.buffers|
      ensures status.Stopped? <==> |subobjectInfos| > 0 && (depthStencilState.None? || perObjectTransforms == null)
      ensures status.Completed? && |subobjectInfos| == 0 ==> commands == []
      ensures status.Completed? && |subobjectInfos| > 0 ==>
        Replay(commands, NoBindings) == IntendedDraws(subobjectInfos, perObjectTransforms.GetBuffer(constantBufferIndex))
    {
      status, commands := EncodeWith(constantBufferIndex, true);
      if status.Completed? && |subobjectInfos| > 0 {
        CorrectedTraceDrawsAsIntended(depthStencilState.value, perObjectTransforms.GetBuffer(constantBufferIndex),
                                      LightsBinding(), subobjectInfos);
      }
    }

    /** The depth/stencil textures have the format and sample counts they
        are allocated with, and every existing depth or stencil attachment of
        the descriptor holds them. */
    ghost predicate DepthStencilValid()
      reads this, descriptor
    {
      && (depthStencilTexture.Some? ==>
            depthStencilTexture.value.pixelFormat == DesiredDepthStencilPixelFormat
            && depthStencilTexture.value.sampleCount == DepthStencilSampleCount(false, sampleCount))
      && (depthStencilResolveTexture.Some? ==>
            depthStencilResolveTexture.value.pixelFormat == DesiredDepthStencilPixelFormat
            && depthStencilResolveTexture.value.sampleCount == DepthStencilSampleCount(true, sampleCount))
      && (descriptor.hasDepthAttachment && depthStencilTexture.Some? ==> descriptor.depthTexture == depthStencilTexture)
      && (descriptor.hasDepthAttachment && depthStencilResolveTexture.Some? ==>
            descriptor.depthResolveTexture == depthStencilResolveTexture)
      && (descriptor.hasStencilAttachment && depthStencilTexture.Some? ==> descriptor.stencilTexture == depthStencilTexture)
      && (descriptor.hasStencilAttachment && depthStencilResolveTexture.Some? ==>
            descriptor.stencilResolveTexture == depthStencilResolveTexture)
    }

    /** `_resizeDepthStencilTexture`: the (resolve) texture is allocated the
        first time, or again when the target size truncated to whole pixels
        differs from its size, and then attached to whichever of the depth and
        stencil attachments exist. Otherwise nothing changes. */
    method ResizeDepthStencilTexture(targetSize: Vec2, resolve: bool)
      modifies this`depthStencilTexture, this`depthStencilResolveTexture, device`nextId
      modifies descriptor`depthTexture, descriptor`depthResolveTexture, descriptor`stencilTexture, descriptor`stencilResolveTexture
      ensures var current := if resolve then old(depthStencilResolveTexture) else old(depthStencilTexture);
        var alloc := NeedsNewTexture(current, targetSize);
        var t := Resized(current, targetSize, old(device.nextId), DepthStencilSampleCount(resolve, sampleCount));
        && device.nextId == (if alloc then old(device.nextId) + 1 else old(device.nextId))
        && depthStencilTexture == (if resolve then old(depthStencilTexture) else t)
        && depthStencilResolveTexture == (if resolve then t else old(depthStencilResolveTexture))
        && descriptor.depthTexture ==
             (if alloc && !resolve && descriptor.hasDepthAttachment then t else old(descriptor.depthTexture))
        && descriptor.depthResolveTexture ==
             (if alloc && resolve && descriptor.hasDepthAttachment then t else old(descriptor.depthResolveTexture))
        && descriptor.stencilTexture ==
             (if alloc && !resolve && descriptor.hasStencilAttachment then t else old(descriptor.stencilTexture))
        && descriptor.stencilResolveTexture ==
             (if alloc && resolve && descriptor.hasStencilAttachment then t else old(descriptor.stencilResolveTexture))
      ensures old(DepthStencilValid()) ==> DepthStencilValid()
    {
      var current := if resolve then depthStencilResolveTexture else depthStencilTexture;
      if !NeedsNewTexture(current, targetSize) {
        return;
      }
      var tex := device.MakeTexture(DesiredDepthStencilPixelFormat, TruncateToInt(targetSize.x), TruncateToInt(targetSize.y),
                                    DepthStencilSampleCount(resolve, sampleCount));
      if resolve {
        depthStencilResolveTexture := Some(tex);
      } else {
        depthStencilTexture := Some(tex);
      }
      if descriptor.hasDepthAttachment {
        if resolve {
          descriptor.depthResolveTexture := depthStencilResolveTexture;
        } else {
          descriptor.depthTexture := depthStencilTexture;
        }
      }
      if descriptor.hasStencilAttachment {
        if resolve {
          descriptor.stencilResolveTexture := depthStencilResolveTexture;
        } else {
          descriptor.stencilTexture := depthStencilTexture;
        }
      }
    }

    /** `_resizeDepthStencilTextures`: with neither a depth nor a stencil
        attachment nothing happens; otherwise the texture rendered into is
        sized to the target, and so is the resolve texture when the pass is
        multisampled. The texture rendered into has the pass's sample count
        and the resolve texture a single sample. */
    method ResizeDepthStencilTextures(targetSize: Vec2)
      modifies this`depthStencilTexture, this`depthStencilResolveTexture, device`nextId
      modifies descriptor`depthTexture, descriptor`depthResolveTexture, descriptor`stencilTexture, descriptor`stencilResolveTexture
      ensures !descriptor.hasDepthAttachment && !descriptor.hasStencilAttachment ==>
        && device.nextId == old(device.nextId)
        && depthStencilTexture == old(depthStencilTexture) && depthStencilResolveTexture == old(depthStencilResolveTexture)
        && descriptor.depthTexture == old(descriptor.depthTexture)
        && descriptor.depthResolveTexture == old(descriptor.depthResolveTexture)
        && descriptor.stencilTexture == old(descriptor.stencilTexture)
        && descriptor.stencilResolveTexture == old(descriptor.stencilResolveTexture)
      ensures (descriptor.hasDepthAttachment || descriptor.hasStencilAttachment) ==>
        && depthStencilTexture == Resized(old(depthStencilTexture), targetSize, old(device.nextId), sampleCount)
        && depthStencilTexture.Some?
        && depthStencilTexture.value.width == TruncateToInt(targetSize.x)
        && depthStencilTexture.value.height == TruncateToInt(targetSize.y)
        && (sampleCount > 1 ==>
              var id := if NeedsNewTexture(old(depthStencilTexture), targetSize) then old(device.nextId) + 1 else old(device.nextId);
              && depthStencilResolveTexture == Resized(old(depthStencilResolveTexture), targetSize, id, 1)
              && depthStencilResolveTexture.Some?
              && depthStencilResolveTexture.value.width == TruncateToInt(targetSize.x)
              && depthStencilResolveTexture.value.height == TruncateToInt(targetSize.y))
        && (sampleCount <= 1 ==> depthStencilResolveTexture == old(depthStencilResolveTexture))
      ensures old(DepthStencilValid()) ==> DepthStencilValid()
    {
      if !descriptor.hasDepthAttachment && !descriptor.hasStencilAttachment {
        return;
      }
      ResizedFitsTarget(depthStencilTexture, targetSize, device.nextId, sampleCount);
      ResizeDepthStencilTexture(targetSize, false);
      if sampleCount > 1 {
        ResizedFitsTarget(depthStencilResolveTexture, targetSize, device.nextId, 1);
        ResizeDepthStencilTexture(targetSize, true);
      }
    }

    /** `update`: bring the global transforms up to date (with the intended
        `dirty` aggregate, see `RefreshGlobals`), write the static slot of
        buffer `cbi`, then upload every object's transform. It stops when the
        projection must be rebuilt before a target size is known, or when the
        pass has no transform store. `timeDelta` is not used. */
    method Update(cbi: nat, timeDelta: real) returns (status: Status)
      requires perObjectTransforms != null ==> cbi < |perObjectTransforms.contents|
      requires SlotsDistinct(objects)
      modifies camera`dirty, globalTransforms, perObjectTransforms, TransformsOf(objects), BasesOf(objects)
      ensures status.Stopped? <==>
        (old(globalTransforms.projectionDirty) && old(globalTransforms.targetSize).None?) || perObjectTransforms == null
      ensures status.Completed? && old(globalTransforms.Current()) ==>
        var g := globalTransforms;
        g.targetSize.Some? && g.projectionViewMatrix == Product(ProjectionFor(g.foveaDegrees, g.targetSize.value, g.nearZ, g.farZ), g.viewMatrix)
      ensures status.Completed? ==>
        && !globalTransforms.DirtyIntended()
        && perObjectTransforms != null
        && SlotsWritten(old(perObjectTransforms.contents)[cbi := old(perObjectTransforms.contents[cbi])[0 :=
             Combine(Identity, globalTransforms.viewMatrix, globalTransforms.projectionViewMatrix)]],
             perObjectTransforms.contents, cbi, objects)
        && perObjectTransforms.contents[cbi][StaticObjectIndex * MatricesStride] ==
             Combine(Identity, globalTransforms.viewMatrix, globalTransforms.projectionViewMatrix)
        && (forall j :: 0 <= j < |objects| && objects[j].transform != null ==>
              Uploaded(objects[j].transform, old(objects[j].transform.Dirty()), old(objects[j].transform.base.modelMatrix),
                       perObjectTransforms, globalTransforms, cbi))
    {
      status := RefreshGlobals(camera, globalTransforms, false);
      if status.Stopped? {
        return;
      }
      if perObjectTransforms == null {
        status := Stopped("RenderPass: no per-object transforms");
        return;
      }
      perObjectTransforms.UpdateStaticTransform(globalTransforms, cbi);
      UploadObjectTransforms(objects, perObjectTransforms, globalTransforms, cbi);
      StaticSlotIsNoObjectSlot(objects);
      if old(globalTransforms.Current()) {
        globalTransforms.CleanMeansCurrent();
      }
    }

    /** `endOfFrameActions`: commit the frame's command buffer, whose
        completion will signal the semaphore, then advance the buffer index.
        The in-flight accounting is kept. */
    method EndOfFrameActions(queue: CommandQueue, renderer: Renderer, commands: seq<Command>, presented: Option<GpuTexture>)
      requires FrameAccounting(renderer, queue) && renderer.framesInPreparation > 0
      modifies queue, renderer`framesInPreparation, renderer`constantBufferIndex
      ensures queue.inFlight == old(queue.inFlight) + [Submission(old(renderer.constantBufferIndex), commands, presented)]
      ensures renderer.constantBufferIndex == NextBufferIndex(old(renderer.constantBufferIndex))
      ensures renderer.framesInPreparation == old(renderer.framesInPreparation) - 1
      ensures FrameAccounting(renderer, queue)
    {
      var submission := Submission(renderer.constantBufferIndex, commands, presented);
      SlotsOfAppend(queue.inFlight, submission);
      CommitAndAdvanceKeepsSlotsBehind(renderer.constantBufferIndex, SlotsOf(queue.inFlight));
      queue.Commit(submission);
      renderer.NoteFrameCommitted();
      renderer.AdvanceConstantBufferIndex();
    }
  }

  /** No object's slot is the static slot. */
  lemma StaticSlotIsNoObjectSlot(objs: seq<Renderable>)
    requires SlotsDistinct(objs)
    ensures StaticObjectIndex * MatricesStride !in SlotOffsets(objs)
  {
  }

  /** Buffer set `c` is `c0` after writing the slots of the objects `done`
      into buffer `cbi`: that buffer gained exactly those slots and kept its
      other records, and the other buffers are as they were. */
  ghost predicate SlotsWritten(c0: seq<map<int, ObjectMatrices>>, c: seq<map<int, ObjectMatrices>>, cbi: nat, done: seq<Renderable>) {
    && |c| == |c0| && cbi < |c0|
    && (forall b :: 0 <= b < |c| && b != cbi ==> c[b] == c0[b])
    && c[cbi].Keys == c0[cbi].Keys + SlotOffsets(done)
    && (forall off :: off in c0[cbi] && off !in SlotOffsets(done) ==> c[cbi][off] == c0[cbi][off])
  }

  /** Writing object `i`'s slot extends what the first `i` objects wrote. */
  lemma SlotWriteStep(objs: seq<Renderable>, i: nat, c0: seq<map<int, ObjectMatrices>>, c: seq<map<int, ObjectMatrices>>,
                      c': seq<map<int, ObjectMatrices>>, cbi: nat, v: ObjectMatrices)
    requires i < |objs| && SlotsWritten(c0, c, cbi, objs[..i])
    requires objs[i].transform == null ==> c' == c
    requires objs[i].transform != null ==> c' == c[cbi := c[cbi][objs[i].transform.base.BufferOffset() := v]]
    ensures SlotsWritten(c0, c', cbi, objs[..i + 1])
  {
    SlotOffsetsNext(objs, i);
  }

  /** What uploading leaves behind for a transform that was `wasDirty` and
      held `model0`: it is clean, its model matrix is the composition of its
      rebuilt components if it was dirty and `model0` otherwise, and its slot
      of buffer `cbi` holds that model matrix combined with the globals. */
  ghost predicate Uploaded(t: TrsTransforms.TRSTransform, wasDirty: bool, model0: Mat,
                           store: PerObjectTransforms, globals: GlobalTransforms, cbi: nat)
    reads t`rotationDirty, t`translationDirty, t`scaleDirty, t`transMatrix, t`rotMatrix, t`scaleMatrix
    reads t.base`modelMatrix, store`contents, globals`viewMatrix, globals`projectionViewMatrix
  {
    && !t.Dirty()
    && (wasDirty ==> t.base.modelMatrix == TrsTransforms.ComposeModel(t.transMatrix, t.rotMatrix, t.scaleMatrix))
    && (!wasDirty ==> t.base.modelMatrix == model0)
    && cbi < |store.contents|
    && t.base.BufferOffset() in store.contents[cbi]
    && store.contents[cbi][t.base.BufferOffset()] ==
         Combine(t.base.modelMatrix, globals.viewMatrix, globals.projectionViewMatrix)
  }

  /** Where a transform stands while the objects are being uploaded: it is
      uploaded, or still pending and exactly as it was (`dirty0`, `model0`). */
  ghost predicate Progress(t: TrsTransforms.TRSTransform, pending: bool, store: PerObjectTransforms, globals: GlobalTransforms,
                           cbi: nat, dirty0: map<TrsTransforms.TRSTransform, bool>, model0: map<TrsTransforms.TRSTransform, Mat>)
    reads t`rotationDirty, t`translationDirty, t`scaleDirty, t`transMatrix, t`rotMatrix, t`scaleMatrix
    reads t.base`modelMatrix, store`contents, globals`viewMatrix, globals`projectionViewMatrix
  {
    && t in dirty0 && t in model0
    && (|| Uploaded(t, dirty0[t], model0[t], store, globals, cbi)
        || (pending && t.Dirty() == dirty0[t] && t.base.modelMatrix == model0[t]))
  }

  /** One object's part of `update`: a dirty transform is brought up to date
      (its model matrix becomes the composition of its rebuilt components),
      a clean one is left alone, and the model matrix, combined with the
      globals, is written to the transform's slot of buffer `cbi`. A static
      object writes nothing. */
  method UploadObjectTransform(obj: Renderable, store: PerObjectTransforms, globals: GlobalTransforms, cbi: nat)
    requires cbi < |store.contents|
    modifies store`contents, if obj.transform == null then {} else {obj.transform}
    modifies if obj.transform == null then {} else {obj.transform.base}
    ensures obj.transform == null ==> store.contents == old(store.contents)
    ensures obj.transform != null ==>
      var t := obj.transform;
      && Uploaded(t, old(t.Dirty()), old(t.base.modelMatrix), store, globals, cbi)
      && (!old(t.Dirty()) ==> unchanged(t))
      && store.contents == old(store.contents)[cbi :=
           old(store.contents)[cbi][t.base.BufferOffset() :=
             Combine(t.base.modelMatrix, globals.viewMatrix, globals.projectionViewMatrix)]]
  {
    var t := obj.transform;
    if t != null {
      if t.Dirty() {
        t.Update();
      }
      store.CombineAndUpload(t.base, globals, cbi);
    }
  }

  /** Transform `i` holds a slot no other transform of the objects holds. */
  lemma OthersHoldOtherSlots(objs: seq<Renderable>, i: nat)
    requires i < |objs| && SlotsDistinct(objs)
    ensures forall j :: (0 <= j < |objs| && objs[j].transform != null && objs[i].transform != null
                          && objs[j].transform != objs[i].transform) ==>
      objs[j].transform.base.index != objs[i].transform.base.index
  {
  }

  /** The transforms' flags and model matrices before uploading starts, with
      every transform still pending. */
  lemma SnapshotTransforms(objs: seq<Renderable>, store: PerObjectTransforms, globals: GlobalTransforms, cbi: nat)
    returns (dirty0: map<TrsTransforms.TRSTransform, bool>, model0: map<TrsTransforms.TRSTransform, Mat>)
    ensures forall j :: 0 <= j < |objs| && objs[j].transform != null ==>
      && objs[j].transform in dirty0 && dirty0[objs[j].transform] == objs[j].transform.Dirty()
      && objs[j].transform in model0 && model0[objs[j].transform] == objs[j].transform.base.modelMatrix
    ensures forall j :: 0 <= j < |objs| && objs[j].transform != null ==>
      Progress(objs[j].transform, true, store, globals, cbi, dirty0, model0)
  {
    dirty0 := map t | t in TransformsOf(objs) :: t.Dirty();
    model0 := map t | t in TransformsOf(objs) :: t.base.modelMatrix;
    assert forall j :: 0 <= j < |objs| && objs[j].transform != null ==> objs[j].transform in TransformsOf(objs);
  }

  /** One iteration of the loop in `UploadObjectTransforms`: object `i` is
      uploaded, and what holds of the objects before it then holds of it too. */
  method UploadNextObject(objs: seq<Renderable>, i: nat, store: PerObjectTransforms, globals: GlobalTransforms, cbi: nat,
                          ghost c0: seq<map<int, ObjectMatrices>>,
                          ghost dirty0: map<TrsTransforms.TRSTransform, bool>, ghost model0: map<TrsTransforms.TRSTransform, Mat>)
    requires i < |objs| && cbi < |store.contents|
    requires SlotsWritten(c0, store.contents, cbi, objs[..i])
    requires forall j :: (0 <= j < |objs| && objs[j].transform != null && objs[i].transform != null
                          && objs[j].transform != objs[i].transform) ==>
      objs[j].transform.base.index != objs[i].transform.base.index
    requires forall j :: 0 <= j < |objs| && objs[j].transform != null ==>
      Progress(objs[j].transform, i <= j, store, globals, cbi, dirty0, model0)
    modifies store`contents, if objs[i].transform == null then {} else {objs[i].transform}
    modifies if objs[i].transform == null then {} else {objs[i].transform.base}
    ensures SlotsWritten(c0, store.contents, cbi, objs[..i + 1])
    ensures forall j :: 0 <= j < |objs| && objs[j].transform != null ==>
      Progress(objs[j].transform, i + 1 <= j, store, globals, cbi, dirty0, model0)
  {
    ghost var before := store.contents;
    var t := objs[i].transform;
    UploadObjectTransform(objs[i], store, globals, cbi);
    if t == null {
      SlotWriteStep(objs, i, c0, before, store.contents, cbi, Combine(Identity, Identity, Identity));
    } else {
      SlotWriteStep(objs, i, c0, before, store.contents, cbi,
                    Combine(t.base.modelMatrix, globals.viewMatrix, globals.projectionViewMatrix));
    }
  }

  /** The per-object part of `update`, over every object of a pass:
      afterwards every transform is clean and each object's slot of buffer
      `cbi` holds its model matrix combined with the globals; the slots
      written are exactly the objects' slots, and nothing else in the buffer
      set changes. */
  method UploadObjectTransforms(objs: seq<Renderable>, store: PerObjectTransforms, globals: GlobalTransforms, cbi: nat)
    requires cbi < |store.contents|
    requires SlotsDistinct(objs)
    modifies store`contents, TransformsOf(objs), BasesOf(objs)
    ensures |store.contents| == |old(store.contents)|
    ensures forall b :: 0 <= b < |store.contents| && b != cbi ==> store.contents[b] == old(store.contents[b])
    ensures store.contents[cbi].Keys == old(store.contents[cbi].Keys) + SlotOffsets(objs)
    ensures forall off :: off in old(store.contents[cbi]) && off !in SlotOffsets(objs) ==>
      store.contents[cbi][off] == old(store.contents[cbi][off])
    ensures forall j :: 0 <= j < |objs| && objs[j].transform != null ==>
      Uploaded(objs[j].transform, old(objs[j].transform.Dirty()), old(objs[j].transform.base.modelMatrix), store, globals, cbi)
  {
    ghost var c0 := store.contents;
    ghost var dirty0, model0 := SnapshotTransforms(objs, store, globals, cbi);
    assert SlotOffsets(objs[..0]) == {};
    var i := 0;
    while i < |objs|
      invariant 0 <= i <= |objs|
      invariant SlotsWritten(c0, store.contents, cbi, objs[..i])
      invariant forall j :: 0 <= j < |objs| && objs[j].transform != null ==>
        Progress(objs[j].transform, i <= j, store, globals, cbi, dirty0, model0)
    {
      OthersHoldOtherSlots(objs, i);
      assert objs[i].transform != null ==> objs[i].transform in TransformsOf(objs) && objs[i].transform.base in BasesOf(objs);
      UploadNextObject(objs, i, store, globals, cbi, c0, dirty0, model0);
      i := i + 1;
    }
    assert objs[..i] == objs;
  }

  /** The first half of `update`: a moved camera hands its view matrix to
      the global transforms, which are then recomputed when their `dirty`
      aggregate says so. `asWritten` selects the aggregate as the source
      computes it (`viewDirty || !projectionDirty`) instead of the intended
      `viewDirty || projectionDirty`. */
  method RefreshGlobals(camera: Camera, globals: GlobalTransforms, asWritten: bool) returns (status: Status)
    modifies camera`dirty, globals
    ensures !camera.dirty
    ensures var viewDirty := old(globals.viewDirty) || old(camera.dirty);
      var runs := if asWritten then DirtyAsWritten(viewDirty, old(globals.projectionDirty))
                  else NeedsUpdate(viewDirty, old(globals.projectionDirty));
      && globals.viewMatrix == (if old(camera.dirty) then old(camera.viewMatrix) else old(globals.viewMatrix))
      && (status.Stopped? <==> runs && old(globals.projectionDirty) && old(globals.targetSize).None?)
      && (!runs ==> globals.viewDirty == viewDirty && globals.projectionDirty == old(globals.projectionDirty)
                    && globals.projectionMatrix == old(globals.projectionMatrix)
                    && globals.projectionViewMatrix == old(globals.projectionViewMatrix))
      && (runs && status.Completed? ==> !globals.viewDirty && !globals.projectionDirty)
    ensures globals.targetSize == old(globals.targetSize) && globals.foveaDegrees == old(globals.foveaDegrees)
    ensures globals.nearZ == old(globals.nearZ) && globals.farZ == old(globals.farZ)
    ensures !asWritten && status.Completed? ==> !globals.DirtyIntended()
    ensures old(globals.Current()) ==> globals.Current()
  {
    if camera.dirty {
      var view := camera.ReadViewMatrix();
      globals.SetViewMatrix(view);
    }
    var dirty := if asWritten then globals.Dirty() else globals.DirtyIntended();
    status := Completed;
    if dirty {
      status := globals.Update();
    }
  }

  /** With the aggregate as written, a reshape that is not accompanied by a
      camera move leaves the projection-view matrix built for the old size:
      after a first frame at 800x600 and a reshape to 600x800, the matrix
      the frame uses differs from the one for the new size. */
  method StaleProjectionAfterReshape() returns (used: Mat, expected: Mat)
    ensures used != expected
  {
    var camera := new Camera(Identity);
    var globals := new GlobalTransforms();
    globals.SetTargetSize(Some(Vec2(800.0, 600.0)));
    var first := RefreshGlobals(camera, globals, true);
    globals.SetTargetSize(Some(Vec2(600.0, 800.0)));
    var second := RefreshGlobals(camera, globals, true);
    used := globals.projectionViewMatrix;
    expected := Product(ProjectionFor(globals.foveaDegrees, Vec2(600.0, 800.0), globals.nearZ, globals.farZ), globals.viewMatrix);
    assert AspectOf(Vec2(800.0, 600.0)) != AspectOf(Vec2(600.0, 800.0));
  }

  /** The same sequence with the intended aggregate ends with the matrix for the new size. */
  method FreshProjectionAfterReshape() returns (used: Mat, expected: Mat)
    ensures used == expected
  {
    var camera := new Camera(Identity);
    var globals := new GlobalTransforms();
    globals.SetTargetSize(Some(Vec2(800.0, 600.0)));
    var first := RefreshGlobals(camera, globals, false);
    globals.SetTargetSize(Some(Vec2(600.0, 800.0)));
    var second := RefreshGlobals(camera, globals, false);
    used := globals.projectionViewMatrix;
    expected := Product(ProjectionFor(globals.foveaDegrees, Vec2(600.0, 800.0), globals.nearZ, globals.farZ), globals.viewMatrix);
  }
}
