/** The concrete render passes: Gsw/OnScreenRenderPass.swift (renders into
    the drawable it is handed each frame), Gsw/ForwardOnScreenRenderPass.swift
    (an on-screen pass with a painter's-order depth test) and
    Gsw/OffScreenRenderPass.swift (renders into a fixed target texture).
    Each wraps the base pass it specialises. */
module ScreenPasses {
  import opened Wrappers
  import opened Gpu
  import opened Numerics
  import opened Cameras
  import opened Renderers
  import opened GlobalMatrices
  import LightSets
  import opened Encoders
  import opened PassEncoding
  import opened PipelineSelection
  import Shaders
  import opened Transforms
  import opened RenderPasses

  const ForwardRenderPassName: string := "Forward Render Pass"

  /** A whole number of pixels survives the round trip through `Float`. */
  lemma TruncateWholeNumber(n: int)
    ensures TruncateToInt(n as real) == n
  {
  }

  class OnScreenRenderPass {
    const base: RenderPass

    constructor (descriptor: PassDescriptor, color0PixelFormat: PixelFormat, sampleCount: int, camera: Camera,
                 lights: LightSets.Lights?, device: Device, shaderLibrary: set<Shaders.ShaderFunction>, hashOf: PipelineConfig -> int)
      ensures fresh(base) && fresh(base.globalTransforms)
      ensures base.descriptor == descriptor && base.color0PixelFormat == color0PixelFormat
      ensures base.sampleCount == sampleCount && base.camera == camera && base.lights == lights && base.device == device
      ensures base.objects == [] && base.subobjectInfos == [] && base.perObjectTransforms == null
      ensures base.depthStencilState == None && base.renderPassName == UnnamedRenderPass
      ensures base.globalTransforms.targetSize == None
      ensures base.Valid() && base.DepthStencilValid()
    {
      base := new RenderPass(descriptor, color0PixelFormat, sampleCount, camera, lights, device, shaderLibrary, hashOf);
    }

    /** `render(to:on:constantBufferIndex:)`: attach the drawable as colour
        target 0, sort the records if a resort is pending, and encode them. */
    method Render(drawable: GpuTexture, constantBufferIndex: int) returns (status: Status, commands: seq<Command>)
      requires base.Valid()
      requires base.perObjectTransforms != null ==>
        0 <= constantBufferIndex < |base.perObjectTransforms.bufferSet.buffers|
      modifies base.descriptor`color0Texture, base`subobjectInfos, base`needsResort
      ensures base.descriptor.color0Texture == Some(drawable)
      ensures multiset(base.subobjectInfos) == multiset(old(base.subobjectInfos))
      ensures !old(base.needsResort) ==> base.subobjectInfos == old(base.subobjectInfos)
      ensures SortedByHash(base.subobjectInfos) && !base.needsResort && base.Valid()
      ensures status.Stopped? <==>
        |base.subobjectInfos| > 0 && (base.depthStencilState.None? || base.perObjectTransforms == null)
      ensures status.Completed? && |base.subobjectInfos| == 0 ==> commands == []
      ensures status.Completed? && |base.subobjectInfos| > 0 ==>
        Replay(commands, NoBindings) ==
          IntendedDraws(base.subobjectInfos, base.perObjectTransforms.GetBuffer(constantBufferIndex))
    {
      base.descriptor.color0Texture := Some(drawable);
      if base.needsResort {
        base.SortSubobjects();
      }
      status, commands := base.Encode(constantBufferIndex);
    }

    /** `endOfFrameActions(commandBuffer:drawable:renderer:)`: the frame's
        commands are submitted together with the drawable they present. */
    method EndOfFrameActions(queue: CommandQueue, renderer: Renderer, commands: seq<Command>, drawable: GpuTexture)
      requires FrameAccounting(renderer, queue) && renderer.framesInPreparation > 0
      modifies queue, renderer`framesInPreparation, renderer`constantBufferIndex
      ensures queue.inFlight ==
        old(queue.inFlight) + [Submission(old(renderer.constantBufferIndex), commands, Some(drawable))]
      ensures renderer.constantBufferIndex == NextBufferIndex(old(renderer.constantBufferIndex))
      ensures renderer.framesInPreparation == old(renderer.framesInPreparation) - 1
      ensures FrameAccounting(renderer, queue)
    {
      base.EndOfFrameActions(queue, renderer, commands, Some(drawable));
    }

    /** `reshape`: resize the depth/stencil textures to the new drawable size
        and hand that size to the global transforms, whose projection is
        then out of date. */
    method Reshape(targetSize: Vec2)
      requires base.DepthStencilValid()
      modifies base`depthStencilTexture, base`depthStencilResolveTexture, base.device`nextId
      modifies base.descriptor`depthTexture, base.descriptor`depthResolveTexture
      modifies base.descriptor`stencilTexture, base.descriptor`stencilResolveTexture
      modifies base.globalTransforms
      ensures base.globalTransforms.targetSize == Some(targetSize) && base.globalTransforms.projectionDirty
      ensures base.globalTransforms.viewDirty == old(base.globalTransforms.viewDirty)
      ensures base.globalTransforms.viewMatrix == old(base.globalTransforms.viewMatrix)
      ensures (base.descriptor.hasDepthAttachment || base.descriptor.hasStencilAttachment) ==>
        && base.depthStencilTexture.Some?
        && base.depthStencilTexture.value.width == TruncateToInt(targetSize.x)
        && base.depthStencilTexture.value.height == TruncateToInt(targetSize.y)
        && (base.sampleCount > 1 ==>
              base.depthStencilResolveTexture.Some?
              && base.depthStencilResolveTexture.value.width == TruncateToInt(targetSize.x)
              && base.depthStencilResolveTexture.value.height == TruncateToInt(targetSize.y))
      ensures !base.descriptor.hasDepthAttachment && !base.descriptor.hasStencilAttachment ==>
        && base.depthStencilTexture == old(base.depthStencilTexture)
        && base.depthStencilResolveTexture == old(base.depthStencilResolveTexture)
      ensures base.DepthStencilValid()
    {
      base.ResizeDepthStencilTextures(targetSize);
      base.globalTransforms.SetTargetSize(Some(targetSize));
    }
  }

  /** An on-screen pass that draws fragments at or in front of what is
      already there, writing depth, so that later draws win ties. */
  class ForwardOnScreenRenderPass {
    const onScreen: OnScreenRenderPass

    constructor (descriptor: PassDescriptor, color0PixelFormat: PixelFormat, sampleCount: int, camera: Camera,
                 lights: LightSets.Lights?, device: Device, shaderLibrary: set<Shaders.ShaderFunction>, hashOf: PipelineConfig -> int)
      modifies device`nextId
      ensures fresh(onScreen) && fresh(onScreen.base) && fresh(onScreen.base.globalTransforms)
      ensures onScreen.base.descriptor == descriptor && onScreen.base.sampleCount == sampleCount
      ensures onScreen.base.device == device && onScreen.base.objects == []
      ensures onScreen.base.renderPassName == ForwardRenderPassName
      ensures onScreen.base.depthStencilState == Some(DepthStencilState(old(device.nextId), LessEqual, true))
      ensures device.nextId == old(device.nextId) + 1
      ensures onScreen.base.Valid() && onScreen.base.DepthStencilValid()
    {
      onScreen := new OnScreenRenderPass(descriptor, color0PixelFormat, sampleCount, camera, lights, device,
                                         shaderLibrary, hashOf);
      new;
      onScreen.base.renderPassName := ForwardRenderPassName;
      var state := device.MakeDepthStencilState(LessEqual, true);
      onScreen.base.depthStencilState := Some(state);
    }
  }

  class OffScreenRenderPass {
    const base: RenderPass

    /** The pass takes its colour format and sample count from the target
        texture, attaches it as colour target 0, and sizes its depth/stencil
        textures and projection to it. The per-object transform store it is
        handed is not used. */
    constructor (target: GpuTexture, descriptor: PassDescriptor, camera: Camera, lights: LightSets.Lights,
                 device: Device, shaderLibrary: set<Shaders.ShaderFunction>, hashOf: PipelineConfig -> int,
                 perObjectTransforms: PerObjectTransforms)
      modifies descriptor, device`nextId
      ensures fresh(base) && fresh(base.globalTransforms)
      ensures base.descriptor == descriptor && base.device == device && base.camera == camera && base.lights == lights
      ensures base.color0PixelFormat == target.pixelFormat && base.sampleCount == target.sampleCount
      ensures descriptor.color0Texture == Some(target)
      ensures base.objects == [] && base.subobjectInfos == [] && base.perObjectTransforms == null
      ensures base.globalTransforms.targetSize == Some(Vec2(target.width as real, target.height as real))
      ensures base.globalTransforms.projectionDirty
      ensures (descriptor.hasDepthAttachment || descriptor.hasStencilAttachment) ==>
        && base.depthStencilTexture ==
             Some(GpuTexture(old(device.nextId), DesiredDepthStencilPixelFormat, target.width, target.height,
                             target.sampleCount))
        && (target.sampleCount > 1 ==>
              base.depthStencilResolveTexture ==
                Some(GpuTexture(old(device.nextId) + 1, DesiredDepthStencilPixelFormat, target.width,
                                target.height, 1)))
      ensures !(descriptor.hasDepthAttachment || descriptor.hasStencilAttachment) || target.sampleCount <= 1 ==>
        base.depthStencilResolveTexture == None
      ensures base.Valid() && base.DepthStencilValid()
    {
      descriptor.color0Texture := Some(target);
      var b := new RenderPass(descriptor, target.pixelFormat, target.sampleCount, camera, lights, device,
                              shaderLibrary, hashOf);
      base := b;
      new;
      var targetSize := Vec2(target.width as real, target.height as real);
      TruncateWholeNumber(target.width);
      TruncateWholeNumber(target.height);
      base.ResizeDepthStencilTextures(targetSize);
      base.globalTransforms.SetTargetSize(Some(targetSize));
    }

    /** `render(to:constantBufferIndex:perObjectTransforms:)`: always sort,
        then encode. The store it is handed is not used. */
    method Render(constantBufferIndex: int, perObjectTransforms: PerObjectTransforms) returns (status: Status, commands: seq<Command>)
      requires base.Valid()
      requires base.perObjectTransforms != null ==>
        0 <= constantBufferIndex < |base.perObjectTransforms.bufferSet.buffers|
      modifies base`subobjectInfos, base`needsResort
      ensures multiset(base.subobjectInfos) == multiset(old(base.subobjectInfos))
      ensures SortedByHash(base.subobjectInfos) && !base.needsResort && base.Valid()
      ensures status.Stopped? <==>
        |base.subobjectInfos| > 0 && (base.depthStencilState.None? || base.perObjectTransforms == null)
      ensures status.Completed? && |base.subobjectInfos| == 0 ==> commands == []
      ensures status.Completed? && |base.subobjectInfos| > 0 ==>
        Replay(commands, NoBindings) ==
          IntendedDraws(base.subobjectInfos, base.perObjectTransforms.GetBuffer(constantBufferIndex))
    {
      base.SortSubobjects();
      status, commands := base.Encode(constantBufferIndex);
    }
  }
}
