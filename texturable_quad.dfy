/** Gsw/TexturableQuadObject.swift: a square of two triangles in the z = 0
    plane, facing -z, drawn with or without a diffuse texture. Its six
    vertices carry a position and a normal, plus texture coordinates when a
    texture is given; the geometry is built from two literal float arrays. */
module TexturableQuads {
  import opened Wrappers
  import opened Gpu
  import Materials
  import TrsTransforms
  import ShaderOptions
  import Scene
  import Encoders

  const FloatSize: nat := 4
  const NumVertices: nat := 6
  const NumPositionAttrs: nat := 3
  const NumNormalAttrs: nat := 3
  /** The texture coordinates a textured vertex adds. */
  const TexturedTexCoordAttrs: nat := 2

  /** The floats of one vertex, with `texCoords` texture coordinates. */
  function VertexAttrs(texCoords: nat): nat
  {
    NumPositionAttrs + NumNormalAttrs + texCoords
  }

  /** The bytes of one vertex. */
  function VertexSize(texCoords: nat): nat
  {
    FloatSize * VertexAttrs(texCoords)
  }

  /** A vertex is 24 bytes untextured and 32 textured. */
  lemma VertexSizes()
    ensures VertexSize(0) == 24 && VertexSize(TexturedTexCoordAttrs) == 32
  {
  }

  // ---------------------------------------------------------------------
  // The quad, independently of the source's arrays

  /** The corners, vertex by vertex: triangle 0 is (-1,-1), (-1,1), (1,1),
      triangle 1 is (1,1), (-1,-1), (1,-1). */
  const CornerX: seq<real> := [-1.0, -1.0, 1.0, 1.0, -1.0, 1.0]
  const CornerY: seq<real> := [-1.0, 1.0, 1.0, 1.0, -1.0, -1.0]
  /** The texture coordinates, vertex by vertex: each corner gets the
      texture's corner in the same direction. */
  const CornerS: seq<real> := [0.0, 0.0, 1.0, 1.0, 0.0, 1.0]
  const CornerT: seq<real> := [0.0, 1.0, 1.0, 1.0, 0.0, 0.0]

  /** Attribute `a` of vertex `v` of a quad of half-width `size`: x and y
      at the corner, z = 0, the normal (0, 0, -1), then s and t. */
  function Attr(v: nat, a: nat, size: real): real
    requires v < NumVertices && a < VertexAttrs(TexturedTexCoordAttrs)
  {
    if a == 0 then CornerX[v] * size
    else if a == 1 then CornerY[v] * size
    else if a == 5 then -1.0
    else if a == 6 then CornerS[v]
    else if a == 7 then CornerT[v]
    else 0.0
  }

  /** The vertex data of the quad, vertex after vertex, `stride` floats
      each. */
  function QuadData(size: real, stride: nat): (r: seq<real>)
    requires stride == VertexAttrs(0) || stride == VertexAttrs(TexturedTexCoordAttrs)
    ensures |r| == NumVertices * stride
    ensures forall k :: 0 <= k < |r| ==> r[k] == Attr(k / stride, k % stride, size)
  {
    seq(NumVertices * stride, k requires 0 <= k < NumVertices * stride => Attr(k / stride, k % stride, size))
  }

  /** Every vertex of the quad lies at a corner of the square of half-width
      `size` in the z = 0 plane and faces -z; the two triangles share the
      diagonal from (-size, -size) to (size, size). */
  lemma QuadCorners(size: real, v: nat)
    requires v < NumVertices
    ensures Attr(v, 0, size) == size || Attr(v, 0, size) == -size
    ensures Attr(v, 1, size) == size || Attr(v, 1, size) == -size
    ensures Attr(v, 2, size) == 0.0
    ensures (Attr(v, 3, size), Attr(v, 4, size), Attr(v, 5, size)) == (0.0, 0.0, -1.0)
    ensures (Attr(0, 0, size), Attr(0, 1, size)) == (Attr(4, 0, size), Attr(4, 1, size))
    ensures (Attr(2, 0, size), Attr(2, 1, size)) == (Attr(3, 0, size), Attr(3, 1, size))
  {
  }

  // ---------------------------------------------------------------------
  // The source's literal arrays

  /** `_geometryDataUntextured`: position and normal of each vertex at size 1. */
  const UntexturedLiteral: seq<real> := [
    -1.0, -1.0, 0.0, 0.0, 0.0, -1.0,
    -1.0, 1.0, 0.0, 0.0, 0.0, -1.0,
    1.0, 1.0, 0.0, 0.0, 0.0, -1.0,
    1.0, 1.0, 0.0, 0.0, 0.0, -1.0,
    -1.0, -1.0, 0.0, 0.0, 0.0, -1.0,
    1.0, -1.0, 0.0, 0.0, 0.0, -1.0]

  /** `_geometryDataTextured`: zeros where position and normal go, and each
      vertex's texture coordinates. */
  const TexturedLiteral: seq<real> := [
    0.0, 0.0, 0.0, 0.0, 0.0, 0.0, 0.0, 0.0,
    0.0, 0.0, 0.0, 0.0, 0.0, 0.0, 0.0, 1.0,
    0.0, 0.0, 0.0, 0.0, 0.0, 0.0, 1.0, 1.0,
    0.0, 0.0, 0.0, 0.0, 0.0, 0.0, 1.0, 1.0,
    0.0, 0.0, 0.0, 0.0, 0.0, 0.0, 0.0, 0.0,
    0.0, 0.0, 0.0, 0.0, 0.0, 0.0, 1.0, 0.0]

  /** `_indexData`: the vertices in order, as two triangles. */
  const IndexData: seq<int> := [0, 1, 2, 3, 4, 5]

  /** The untextured literal is the quad of half-width 1. */
  lemma UntexturedLiteralIsQuad()
    ensures |UntexturedLiteral| == NumVertices * VertexAttrs(0)
    ensures forall k :: 0 <= k < |UntexturedLiteral| ==> UntexturedLiteral[k] == Attr(k / 6, k % 6, 1.0)
  {
  }

  /** The textured literal holds the quad's texture coordinates at each
      vertex's last two floats. */
  lemma TexturedLiteralTexCoords()
    ensures |TexturedLiteral| == NumVertices * VertexAttrs(TexturedTexCoordAttrs)
    ensures forall v :: 0 <= v < NumVertices ==>
      TexturedLiteral[8 * v + 6] == CornerS[v] && TexturedLiteral[8 * v + 7] == CornerT[v]
  {
  }

  /** Every vertex is drawn exactly once, in order. */
  lemma IndicesCoverVertices()
    ensures |IndexData| == NumVertices
    ensures forall k :: 0 <= k < |IndexData| ==> IndexData[k] == k
  {
  }

  // ---------------------------------------------------------------------
  // Vertex layout

  /** The bytes a vertex attribute of this format takes. */
  function FormatSize(f: VertexFormat): nat {
    match f
    case Float2 => 2 * FloatSize
    case Float3 => 3 * FloatSize
    case OtherVertexFormat(_) => 0
  }

  /** `_createVertexDescriptor`: position (float3) at offset 0 and normal
      (float3) at 12 in buffer 0, texture coordinates (float2) at 24 only
      when textured; the layout's stride is the vertex size. */
  function QuadVertexDescriptor(textured: bool): (d: VertexDescriptor)
    ensures d.VertexLayout?
    ensures d.stride == VertexSize(if textured then TexturedTexCoordAttrs else 0)
    ensures |d.attributes| == (if textured then 3 else 2)
  {
    var position := VertexAttribute(Float3, 0, 0);
    var normal := VertexAttribute(Float3, FloatSize * NumPositionAttrs, 0);
    var texCoord := VertexAttribute(Float2, FloatSize * (NumPositionAttrs + NumNormalAttrs), 0);
    VertexLayout([position, normal] + (if textured then [texCoord] else []), VertexSize(if textured then TexturedTexCoordAttrs else 0))
  }

  /** The descriptor matches the data: its attributes are float3, float3
      (and float2) in that order, in buffer 0, each starting where the one
      before ends, and together they fill the stride exactly. */
  lemma DescriptorPacksVertex(textured: bool)
    ensures var d := QuadVertexDescriptor(textured);
      && d.attributes[0] == VertexAttribute(Float3, 0, 0)
      && d.attributes[1].format == Float3
      && (textured ==> d.attributes[2].format == Float2)
      && (forall i :: 0 <= i < |d.attributes| ==> d.attributes[i].bufferIndex == GeometryVertexBufferBindIndex)
      && (forall i :: 0 < i < |d.attributes| ==>
            d.attributes[i].offset == d.attributes[i - 1].offset + FormatSize(d.attributes[i - 1].format))
      && d.attributes[|d.attributes| - 1].offset + FormatSize(d.attributes[|d.attributes| - 1].format) == d.stride
  {
  }

  // ---------------------------------------------------------------------
  // The submesh

  /** `TexturableQuadSubmesh`: the quad's only part. */
  class TexturableQuadSubmesh {
    /** Names this part's `encode(to:)` in a pass's trace. */
    const id: nat
    var material: Materials.Material
    const texture: Option<GpuTexture>
    var geometryBuffer: Option<GpuBuffer>
    /** The floats copied into `geometryBuffer` when it was made. */
    var geometryContents: seq<real>
    var indexBuffer: Option<GpuBuffer>
    var numTexCoordAttrs: nat
    var vertexDescriptor: Option<VertexDescriptor>
    const untextured: array<real>
    const textured: array<real>

    /** `_numVertexAttrs`. */
    function NumVertexAttrs(): nat
      reads this`numTexCoordAttrs
    {
      VertexAttrs(numTexCoordAttrs)
    }

    /** `_vertexSize`. */
    function CurrentVertexSize(): nat
      reads this`numTexCoordAttrs
    {
      VertexSize(numTexCoordAttrs)
    }

    /** Built and uploaded: the buffers exist and hold the quad of the given
        size in the layout the descriptor describes. */
    ghost predicate Built(size: real)
      reads this, untextured, textured
    {
      && untextured != textured
      && numTexCoordAttrs == (if texture.Some? then TexturedTexCoordAttrs else 0)
      && geometryBuffer.Some?
      && geometryBuffer.value.length == NumVertices * CurrentVertexSize()
      && geometryContents == QuadData(size, NumVertexAttrs())
      && indexBuffer.Some? && indexBuffer.value.length == |IndexData| * 2
      && vertexDescriptor == Some(QuadVertexDescriptor(texture.Some?))
    }

    constructor (id: nat, size: real, theMaterial: Materials.Material, texture: Option<GpuTexture>, device: Device)
      modifies device
      ensures this.id == id && material == theMaterial && this.texture == texture
      ensures fresh(untextured) && fresh(textured)
      ensures Built(size)
      ensures geometryBuffer.value == GpuBuffer(old(device.nextId), NumVertices * CurrentVertexSize(), StorageModeShared, None)
      ensures indexBuffer.value == GpuBuffer(old(device.nextId) + 1, |IndexData| * 2, StorageModeShared, None)
    {
      this.id := id;
      material := theMaterial;
      this.texture := texture;
      geometryBuffer := None;
      geometryContents := [];
      indexBuffer := None;
      numTexCoordAttrs := 0;
      vertexDescriptor := None;
      untextured := new real[36](k requires 0 <= k < 36 => UntexturedLiteral[k]);
      textured := new real[48](k requires 0 <= k < 48 => TexturedLiteral[k]);
      new;
      InitGeometryBuffer(size, device);
      InitIndexBuffer(device);
      CreateVertexDescriptor();
    }

    /** The loop at the start of `_initGeometryBuffer`: x and y of each of
        the six vertices are multiplied by `size`, at the untextured stride;
        z and the normal stay as they were. */
    method ScalePositions(size: real)
      requires numTexCoordAttrs == 0 && untextured.Length == 36
      modifies untextured
      ensures forall k :: 0 <= k < 36 ==>
        untextured[k] == if k % 6 < 2 then old(untextured[k]) * size else old(untextured[k])
    {
      var v := 0;
      while v < NumVertices
        invariant 0 <= v <= NumVertices
        invariant forall k :: 0 <= k < 36 ==>
          untextured[k] == if k < 6 * v && k % 6 < 2 then old(untextured[k]) * size else old(untextured[k])
      {
        untextured[v * NumVertexAttrs()] := untextured[v * NumVertexAttrs()] * size;
        untextured[v * NumVertexAttrs() + 1] := untextured[v * NumVertexAttrs() + 1] * size;
        v := v + 1;
      }
    }

    /** The interleaving loop of `_initGeometryBuffer` as written: with the
        stride already 8, the source index `8 * v + a` runs past the
        36-float untextured array at vertex 4, so every textured quad traps
        (and vertices 1 to 3 would get another vertex's floats). */
    method InterleaveAsWritten() returns (status: Status)
      requires numTexCoordAttrs == TexturedTexCoordAttrs
      requires untextured.Length == 36 && textured.Length == 48 && untextured != textured
      modifies textured
      ensures status.Stopped?
    {
      status := Completed;
      var v := 0;
      while v < NumVertices && status.Completed?
        invariant 0 <= v <= 4
        decreases (if status.Completed? then 1 else 0), NumVertices - v
      {
        var a := 0;
        while a < NumPositionAttrs + NumNormalAttrs && status.Completed?
          invariant 0 <= a <= NumPositionAttrs + NumNormalAttrs
          invariant v == 4 ==> a <= 4
          decreases (if status.Completed? then 1 else 0), NumPositionAttrs + NumNormalAttrs - a
        {
          var source := v * NumVertexAttrs() + a;
          if source >= untextured.Length {
            status := Stopped("Index out of range");
          } else {
            textured[v * NumVertexAttrs() + a] := untextured[source];
            a := a + 1;
          }
        }
        if status.Completed? {
          v := v + 1;
        }
      }
    }

    /** The interleaving loop as intended: position and normal of vertex
        `v` are read at the untextured stride 6 and written at the textured
        stride 8; the texture coordinates stay. */
    method Interleave()
      requires numTexCoordAttrs == TexturedTexCoordAttrs
      requires untextured.Length == 36 && textured.Length == 48 && untextured != textured
      modifies textured
      ensures forall k :: 0 <= k < 48 ==>
        textured[k] == if k % 8 < 6 then untextured[6 * (k / 8) + k % 8] else old(textured[k])
    {
      var v := 0;
      while v < NumVertices
        invariant 0 <= v <= NumVertices
        invariant forall k :: 0 <= k < 48 ==>
          textured[k] == if k < 8 * v && k % 8 < 6 then untextured[6 * (k / 8) + k % 8] else old(textured[k])
      {
        var a := 0;
        while a < NumPositionAttrs + NumNormalAttrs
          invariant 0 <= a <= NumPositionAttrs + NumNormalAttrs
          invariant forall k :: 0 <= k < 48 ==>
            textured[k] == if (k < 8 * v || (8 * v <= k < 8 * v + a)) && k % 8 < 6
                           then untextured[6 * (k / 8) + k % 8] else old(textured[k])
        {
          textured[v * NumVertexAttrs() + a] := untextured[v * VertexAttrs(0) + a];
          a := a + 1;
        }
        v := v + 1;
      }
    }

    /** `_initGeometryBuffer`: scale the positions, then upload the
        untextured data, or interleave it with the texture coordinates and
        upload that. */
    method InitGeometryBuffer(size: real, device: Device)
      requires untextured.Length == 36 && textured.Length == 48 && untextured != textured
      requires numTexCoordAttrs == 0
      requires untextured[..] == UntexturedLiteral && textured[..] == TexturedLiteral
      modifies this, untextured, textured, device
      ensures numTexCoordAttrs == (if texture.Some? then TexturedTexCoordAttrs else 0)
      ensures geometryContents == QuadData(size, NumVertexAttrs())
      ensures geometryBuffer == Some(GpuBuffer(old(device.nextId), NumVertices * CurrentVertexSize(), StorageModeShared, None))
      ensures device.nextId == old(device.nextId) + 1
      ensures indexBuffer == old(indexBuffer) && vertexDescriptor == old(vertexDescriptor)
      ensures material == old(material)
    {
      ScalePositions(size);
      UntexturedLiteralIsQuad();
      assert forall k :: 0 <= k < 36 ==> untextured[k] == Attr(k / 6, k % 6, size);
      if texture.None? {
        var b := device.MakeBuffer(NumVertices * CurrentVertexSize(), StorageModeShared);
        geometryBuffer := Some(b);
        geometryContents := untextured[..];
      } else {
        numTexCoordAttrs := TexturedTexCoordAttrs;
        Interleave();
        TexturedLiteralTexCoords();
        forall k | 0 <= k < 48
          ensures textured[k] == Attr(k / 8, k % 8, size)
        {
          if k % 8 < 6 {
            assert (6 * (k / 8) + k % 8) / 6 == k / 8 && (6 * (k / 8) + k % 8) % 6 == k % 8;
          } else {
            assert k == 8 * (k / 8) + k % 8;
          }
        }
        var b := device.MakeBuffer(NumVertices * CurrentVertexSize(), StorageModeShared);
        geometryBuffer := Some(b);
        geometryContents := textured[..];
      }
    }

    /** `_initIndexBuffer`: the six 16-bit indices. */
    method InitIndexBuffer(device: Device)
      modifies this`indexBuffer, device
      ensures indexBuffer == Some(GpuBuffer(old(device.nextId), |IndexData| * 2, StorageModeShared, None))
      ensures device.nextId == old(device.nextId) + 1
    {
      var b := device.MakeBuffer(|IndexData| * 2, StorageModeShared);
      indexBuffer := Some(b);
    }

    /** `_createVertexDescriptor`. */
    method CreateVertexDescriptor()
      requires numTexCoordAttrs == (if texture.Some? then TexturedTexCoordAttrs else 0)
      modifies this`vertexDescriptor
      ensures vertexDescriptor == Some(QuadVertexDescriptor(texture.Some?))
    {
      var position := VertexAttribute(Float3, 0, 0);
      var normal := VertexAttribute(Float3, FloatSize * NumPositionAttrs, 0);
      var attributes := [position, normal];
      if texture.Some? {
        var texCoord := VertexAttribute(Float2, FloatSize * (NumPositionAttrs + NumNormalAttrs), 0);
        attributes := attributes + [texCoord];
      } else {
        assert attributes == [position, normal] + [];
      }
      vertexDescriptor := Some(VertexLayout(attributes, FloatSize * NumVertexAttrs()));
    }

    /** `encode(to:)`: bind the texture if there is one, bind the material,
        draw the six indices as triangles. */
    function EncodeCommands(): (r: seq<Command>)
      requires indexBuffer.Some?
      reads this, material
      ensures |r| == (if texture.Some? then 3 else 2)
      ensures texture.Some? ==> r[0] == SetFragmentTexture(texture.value, DiffuseTextureBindIndex)
      ensures r[|r| - 2] == SetFragmentBuffer(material.materialBuffer, material.materialBufferOffset, MaterialBufferBindIndex)
      ensures r[|r| - 1] == DrawIndexedTriangles(|IndexData|, indexBuffer.value)
    {
      (if texture.Some? then [SetFragmentTexture(texture.value, DiffuseTextureBindIndex)] else [])
      + [SetFragmentBuffer(material.materialBuffer, material.materialBufferOffset, MaterialBufferBindIndex),
         DrawIndexedTriangles(|IndexData|, indexBuffer.value)]
    }
  }

  /** The quad's `encode(to:)` binds no pipeline and no vertex buffer: it
      draws with what the pass bound before calling it. */
  lemma EncodeKeepsBindings(sub: TexturableQuadSubmesh, b: Encoders.Bindings)
    requires sub.indexBuffer.Some?
    ensures Encoders.After(sub.EncodeCommands(), b) == b
  {
    Encoders.AfterWithoutBinding(sub.EncodeCommands(), b);
  }

  // ---------------------------------------------------------------------
  // The object

  /** `TexturableQuadObject`. */
  class TexturableQuadObject {
    const id: nat
    const submesh: TexturableQuadSubmesh
    var transform: TrsTransforms.TRSTransform?

    constructor (id: nat, submeshId: nat, size: real, material: Materials.Material, texture: Option<GpuTexture>,
                 theTransform: TrsTransforms.TRSTransform?, device: Device)
      modifies device
      ensures this.id == id && transform == theTransform && fresh(submesh)
      ensures submesh.id == submeshId && submesh.material == material && submesh.texture == texture
      ensures fresh(submesh.untextured) && fresh(submesh.textured)
      ensures submesh.Built(size)
    {
      this.id := id;
      submesh := new TexturableQuadSubmesh(submeshId, size, material, texture, device);
      transform := theTransform;
    }

    /** The object as a render pass sees it: one subrenderable, the
        submesh's vertex layout, its geometry buffer at offset 0, and no
        vertex shader options. */
    function AsRenderable(): (r: Scene.Renderable)
      requires submesh.geometryBuffer.Some? && submesh.vertexDescriptor.Some?
      reads this, submesh
      ensures r.subrenderables == [Scene.Subrenderable(submesh.id, submesh.material)]
      ensures r.vertexBufferInfo == Scene.VertexBufferInfo(submesh.geometryBuffer.value, 0)
      ensures r.vertexDescriptor == submesh.vertexDescriptor.value
      ensures r.transform == transform && r.vertexShaderOptions == ShaderOptions.NoVertexOptions
    {
      Scene.Renderable(id, [Scene.Subrenderable(submesh.id, submesh.material)], submesh.vertexDescriptor.value,
                       Scene.VertexBufferInfo(submesh.geometryBuffer.value, 0), transform, ShaderOptions.NoVertexOptions)
    }

    /** `setMaterial`: the submesh draws with `m` from now on. */
    method SetMaterial(m: Materials.Material)
      modifies submesh`material
      ensures submesh.material == m
    {
      submesh.material := m;
    }
  }
}
