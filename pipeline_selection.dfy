/** Render pipeline configuration in Gsw/RenderPass.swift: which shader pair
    a subrenderable gets, the per-stage shader caches, and the pipeline
    descriptor that combines the pass's attachments with the object's needs. */
module PipelineSelection {
  import opened Wrappers
  import opened Gpu
  import opened Shaders
  import opened ShaderOptions
  import LightSets
  import Renderers

  /** `_selectShaders`: unlit shaders without lighting; with exactly one
      light that is directional the one-directional-light pair; otherwise
      the general pair. The lit shaders exist only untextured: there is no
      pair for a textured lit material. */
  function VariantFor(lightingEnabled: bool, lights: seq<LightSets.Light>, textured: bool): (r: Option<ShaderVariant>)
    ensures r.None? <==> lightingEnabled && textured
    ensures r.Some? ==> r.value.textured == textured
    ensures r.Some? ==> (r.value.lighting == Unlit <==> !lightingEnabled)
    ensures r.Some? ==> (r.value.lighting == LitOneDirectional <==>
                           lightingEnabled && |lights| == 1 && lights[0].kind == LightSets.Directional)
  {
    if !lightingEnabled then Some(ShaderVariant(textured, Unlit))
    else if textured then None
    else if |lights| == 1 && lights[0].kind == LightSets.Directional then Some(ShaderVariant(false, LitOneDirectional))
    else Some(ShaderVariant(false, LitGeneral))
  }

  /** The selection as `_selectShaders` reports it: the source asserts that
      a pair exists, so a textured lit material stops with that message. */
  function SelectShaderVariant(lightingEnabled: bool, lights: seq<LightSets.Light>, textured: bool): (r: Result<ShaderVariant>)
    ensures r.Fatal? <==> lightingEnabled && textured
    ensures r.Ok? ==> r.value == VariantFor(lightingEnabled, lights, textured).value
  {
    match VariantFor(lightingEnabled, lights, textured)
    case Some(v) => Ok(v)
    case None => Fatal("Textured lit shaders are not implemented")
  }

  /** A shader cache is faithful when it holds only functions the library
      has. The source keys its caches by library name; `ShaderNameInjective`
      makes keying them by the function itself the same thing. */
  ghost predicate CacheFaithful(cache: set<ShaderFunction>, library: set<ShaderFunction>) {
    cache <= library
  }

  /** `_getShaderFromCache`: a hit returns the cached function; a miss loads
      the function from the library and caches it; a function the library
      lacks is fatal. The result is the new cache. */
  function CacheLookup(cache: set<ShaderFunction>, library: set<ShaderFunction>, f: ShaderFunction)
    : (r: Result<set<ShaderFunction>>)
    ensures r.Fatal? <==> f !in cache && f !in library
    ensures r.Ok? ==> f in r.value && r.value - {f} == cache - {f}
    ensures r.Ok? && f in cache ==> r.value == cache
  {
    if f in cache then Ok(cache)
    else if f in library then Ok(cache + {f})
    else Fatal("Could not load shader " + ShaderName(f.stage, f.variant))
  }

  /** Over a faithful cache a lookup fails exactly when the library lacks the
      function, and leaves the cache faithful. */
  lemma CacheLookupFaithful(cache: set<ShaderFunction>, library: set<ShaderFunction>, f: ShaderFunction)
    requires CacheFaithful(cache, library)
    ensures CacheLookup(cache, library, f).Fatal? <==> f !in library
    ensures CacheLookup(cache, library, f).Ok? ==> CacheFaithful(CacheLookup(cache, library, f).value, library)
  {
  }

  /** A second lookup of the same function hits and changes nothing. */
  lemma CacheLookupTwice(cache: set<ShaderFunction>, library: set<ShaderFunction>, f: ShaderFunction)
    requires CacheLookup(cache, library, f).Ok?
    ensures var c := CacheLookup(cache, library, f).value;
      CacheLookup(c, library, f) == Ok(c)
  {
  }

  /** The depth and stencil formats a pipeline gets: the renderer's combined
      format for each attachment the pass descriptor has. */
  function AttachmentFormat(present: bool): (f: Option<PixelFormat>)
    ensures f.Some? <==> present
    ensures f.Some? ==> f.value == Renderers.DesiredDepthStencilPixelFormat
  {
    if present then Some(Renderers.DesiredDepthStencilPixelFormat) else None
  }

  /** `_renderPipeDescriptor` with `_configRenderPipeAttachmentInfo`, or
      nothing when no shader pair can be had; `DescriptorForMeets` says what
      it holds. */
  function DescriptorFor(vertexDescriptor: VertexDescriptor, sampleCount: int, color0PixelFormat: PixelFormat,
                         lightingEnabled: bool, lights: seq<LightSets.Light>,
                         options: FragmentShaderOptions, opacity: real,
                         hasDepth: bool, hasStencil: bool, library: set<ShaderFunction>): Option<PipelineConfig>
  {
    var v := VariantFor(lightingEnabled, lights, Contains(options, DiffuseTextured));
    if v.None? then None
    else if ShaderFunction(VertexStage, v.value) !in library then None
    else if ShaderFunction(FragmentStage, v.value) !in library then None
    else Some(PipelineConfig(vertexDescriptor, sampleCount, ShaderFunction(VertexStage, v.value), ShaderFunction(FragmentStage, v.value),
                             color0PixelFormat, opacity < 1.0, AttachmentFormat(hasDepth), AttachmentFormat(hasStencil)))
  }

  /** The descriptor exists exactly when a shader pair is selected and both
      of its functions are in the library; it then carries that pair, the
      object's vertex layout, the pass's sample count and color format,
      blending exactly for a translucent material, and the depth/stencil
      format for each attachment the pass has. */
  lemma DescriptorForMeets(vertexDescriptor: VertexDescriptor, sampleCount: int, color0PixelFormat: PixelFormat,
                           lightingEnabled: bool, lights: seq<LightSets.Light>,
                           options: FragmentShaderOptions, opacity: real,
                           hasDepth: bool, hasStencil: bool, library: set<ShaderFunction>)
    ensures var r := DescriptorFor(vertexDescriptor, sampleCount, color0PixelFormat, lightingEnabled, lights,
                                   options, opacity, hasDepth, hasStencil, library);
      var v := VariantFor(lightingEnabled, lights, Contains(options, DiffuseTextured));
      && (r.Some? <==> v.Some? && ShaderFunction(VertexStage, v.value) in library && ShaderFunction(FragmentStage, v.value) in library)
      && (r.Some? ==>
           && r.value.vertexFunction == ShaderFunction(VertexStage, v.value)
           && r.value.fragmentFunction == ShaderFunction(FragmentStage, v.value)
           && r.value.vertexDescriptor == vertexDescriptor
           && r.value.sampleCount == sampleCount
           && r.value.color0PixelFormat == color0PixelFormat
           && (r.value.blendingEnabled <==> opacity < 1.0)
           && r.value.depthPixelFormat == AttachmentFormat(hasDepth)
           && r.value.stencilPixelFormat == AttachmentFormat(hasStencil))
  {
  }
}
