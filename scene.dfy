/** The renderable and subrenderable protocols (Renderable.swift,
    Subrenderable.swift) as the render pass sees an object: its parts, their
    materials, its vertex layout and buffer, and its optional transform. */
module Scene {
  import opened Gpu
  import Materials
  import TrsTransforms
  import ShaderOptions

  /** `Renderable.VertexBufferInfo`: the geometry buffer and the offset into it. */
  datatype VertexBufferInfo = VertexBufferInfo(buffer: GpuBuffer, offset: int)

  /** A part of an object with its own material; `id` names its `encode(to:)`. */
  datatype Subrenderable = Subrenderable(id: nat, material: Materials.Material)

  datatype Renderable = Renderable(
    id: nat,
    subrenderables: seq<Subrenderable>,
    vertexDescriptor: VertexDescriptor,
    vertexBufferInfo: VertexBufferInfo,
    transform: TrsTransforms.TRSTransform?,
    vertexShaderOptions: ShaderOptions.VertexShaderOptions)
}
