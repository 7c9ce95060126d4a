/** The platform GPU API as the core sees it: opaque handles minted by a
    device, pipeline descriptors as plain records, matrices as uninterpreted
    constructors and an encoder as the trace of commands it receives. */
module Gpu {
  import opened Wrappers
  import Shaders

  datatype Vec2 = Vec2(x: real, y: real)
  datatype Vec3 = Vec3(x: real, y: real, z: real)
  datatype Color = Color(r: real, g: real, b: real, a: real)

  function AddVec3(a: Vec3, b: Vec3): Vec3 {
    Vec3(a.x + b.x, a.y + b.y, a.z + b.z)
  }

  /** An aspect ratio computed in floating point: a zero height gives a non-finite value. */
  datatype Aspect = Finite(ratio: real) | NonFinite

  /** 4x4 (and 3x3 normal) matrices, never evaluated: each constructor names
      the MatrixUtils builder that produced the value. */
  datatype Mat =
    | Identity
    | Translation(offset: Vec3)
    | Rotation(radians: real, axis: Vec3)
    | Scaling(sx: real, sy: real, sz: real)
    | PerspectiveFovLH(fovRadians: real, aspect: Aspect, nearZ: real, farZ: real)
    | Product(left: Mat, right: Mat)
    | NormalMatrixOf(model: Mat)
    | CameraView(id: nat)

  datatype PixelFormat = BGRA8Unorm | Depth32FloatStencil8 | OtherPixelFormat(code: nat)
  datatype ResourceOptions = StorageModeShared | StorageModePrivate | OtherResourceOptions(code: nat)
  datatype CompareFunction = Less | LessEqual | Always | OtherCompare(code: nat)
  datatype VertexFormat = Float2 | Float3 | OtherVertexFormat(code: nat)

  datatype GpuBuffer = GpuBuffer(id: nat, length: nat, options: ResourceOptions, debugLabel: Option<string>)
  datatype GpuTexture = GpuTexture(id: nat, pixelFormat: PixelFormat, width: int, height: int, sampleCount: int)
  datatype DepthStencilState = DepthStencilState(id: nat, compare: CompareFunction, depthWriteEnabled: bool)

  datatype VertexAttribute = VertexAttribute(format: VertexFormat, offset: nat, bufferIndex: nat)

  /** A vertex descriptor: attributes by index and the stride of buffer layout 0
      (per-vertex stepping, step rate 1), or one supplied by a loaded mesh. */
  datatype VertexDescriptor =
    | VertexLayout(attributes: seq<VertexAttribute>, stride: nat)
    | MeshLayout(id: nat)

  /** The inputs of a render pipeline descriptor that the core sets. */
  datatype PipelineConfig = PipelineConfig(
    vertexDescriptor: VertexDescriptor,
    sampleCount: int,
    vertexFunction: Shaders.ShaderFunction,
    fragmentFunction: Shaders.ShaderFunction,
    color0PixelFormat: PixelFormat,
    blendingEnabled: bool,
    depthPixelFormat: Option<PixelFormat>,
    stencilPixelFormat: Option<PixelFormat>)

  datatype RenderPipelineState = RenderPipelineState(id: nat, config: PipelineConfig)

  // Buffer and texture bind points (ShaderTypesBridge.h).
  const GeometryVertexBufferBindIndex: nat := 0
  const PerObjectMatricesBufferBindIndex: nat := 1
  const MaterialBufferBindIndex: nat := 2
  const LightsBufferBindIndex: nat := 3
  const DiffuseTextureBindIndex: nat := 0

  /** What a render command encoder is told, in order. `EncodeSubobject` is the
      call of a subrenderable's own `encode(to:)`. */
  datatype Command =
    | SetDepthStencilState(state: DepthStencilState)
    | SetVertexBuffer(buffer: Option<GpuBuffer>, offset: int, index: nat)
    | SetFragmentBuffer(buffer: Option<GpuBuffer>, offset: int, index: nat)
    | SetVertexBufferOffset(offset: int, index: nat)
    | SetRenderPipelineState(pipe: RenderPipelineState)
    | SetFragmentTexture(texture: GpuTexture, index: nat)
    | DrawIndexedTriangles(indexCount: nat, indexBuffer: GpuBuffer)
    | EncodeSubobject(subobjectId: nat)

  /** The device: every object it makes gets a fresh id. */
  class Device {
    var nextId: nat

    constructor ()
      ensures nextId == 0
    {
      nextId := 0;
    }

    method MakeBuffer(length: nat, options: ResourceOptions) returns (b: GpuBuffer)
      modifies this`nextId
      ensures b == GpuBuffer(old(nextId), length, options, None)
      ensures nextId == old(nextId) + 1
    {
      b := GpuBuffer(nextId, length, options, None);
      nextId := nextId + 1;
    }

    method MakeTexture(pixelFormat: PixelFormat, width: int, height: int, sampleCount: int) returns (t: GpuTexture)
      modifies this`nextId
      ensures t == GpuTexture(old(nextId), pixelFormat, width, height, sampleCount)
      ensures nextId == old(nextId) + 1
    {
      t := GpuTexture(nextId, pixelFormat, width, height, sampleCount);
      nextId := nextId + 1;
    }

    method MakeRenderPipelineState(config: PipelineConfig) returns (p: RenderPipelineState)
      modifies this`nextId
      ensures p == RenderPipelineState(old(nextId), config)
      ensures nextId == old(nextId) + 1
    {
      p := RenderPipelineState(nextId, config);
      nextId := nextId + 1;
    }

    method MakeDepthStencilState(compare: CompareFunction, depthWriteEnabled: bool) returns (s: DepthStencilState)
      modifies this`nextId
      ensures s == DepthStencilState(old(nextId), compare, depthWriteEnabled)
      ensures nextId == old(nextId) + 1
    {
      s := DepthStencilState(nextId, compare, depthWriteEnabled);
      nextId := nextId + 1;
    }
  }
}
