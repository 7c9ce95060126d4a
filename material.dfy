/** Material.swift: a material whose `diffuseTextured` fragment option tracks
    whether a diffuse texture is set, and the one-record material buffer. */
module Materials {
  import opened Wrappers
  import opened Gpu
  import opened ShaderOptions

  const DefaultAmbient: Color := Color(1.0, 1.0, 1.0, 1.0)
  const DefaultDiffuse: Color := Color(1.0, 1.0, 1.0, 1.0)
  const DefaultEmission: Color := Color(0.0, 0.0, 0.0, 1.0)
  const DefaultSpecularPower: real := 50.0
  const DefaultSpecular: Color := Color(1.0, 0.0, 0.0, 1.0)
  const Black: Color := Color(0.0, 0.0, 0.0, 1.0)

  /** MemoryLayout<MaterialStruct>.stride: four float4 and one float, padded to 16. */
  const MaterialStride: nat := 80

  /** MaterialStruct as stored at offset 0 of the material buffer. */
  datatype MaterialRecord = MaterialRecord(emissive: Color, ambient: Color, diffuse: Color, specular: Color, shininess: real)

  /** `_updateShaderOptions`: the options after the texture is set to `newTexture`. */
  function OptionsForTexture(options: FragmentShaderOptions, current: Option<GpuTexture>, newTexture: Option<GpuTexture>): (r: FragmentShaderOptions)
    ensures newTexture == current ==> r == options
    ensures newTexture != current && newTexture.Some? ==> Contains(r, DiffuseTextured) && r == Insert(options, DiffuseTextured)
    ensures newTexture != current && newTexture.None? ==> !Contains(r, DiffuseTextured) && r == Remove(options, DiffuseTextured)
  {
    if newTexture == current then options
    else if newTexture.Some? then (if Contains(options, DiffuseTextured) then options else Insert(options, DiffuseTextured))
    else Remove(options, DiffuseTextured)
  }

  /** Setting a texture keeps the flag equal to "a texture is present". */
  lemma {:induction false} OptionsTrackTexture(options: FragmentShaderOptions, current: Option<GpuTexture>, newTexture: Option<GpuTexture>)
    requires Contains(options, DiffuseTextured) <==> current.Some?
    ensures Contains(OptionsForTexture(options, current, newTexture), DiffuseTextured) <==> newTexture.Some?
  {
    InsertRemoveTexturedFlag(options);
  }

  /** What `upload` stores: black ambient and diffuse when textured, the material's own otherwise. */
  function RecordFor(emission: Color, ambient: Color, diffuse: Color, specular: Color, specularPower: real, textured: bool): (r: MaterialRecord)
    ensures r.emissive == emission && r.specular == specular && r.shininess == specularPower
    ensures textured ==> r.ambient == Black && r.diffuse == Black
    ensures !textured ==> r.ambient == ambient && r.diffuse == diffuse
  {
    if textured then MaterialRecord(emission, Black, Black, specular, specularPower)
    else MaterialRecord(emission, ambient, diffuse, specular, specularPower)
  }

  class Material {
    var fragmentShaderOptions: FragmentShaderOptions
    var opacity: real
    var ambient: Color
    var diffuse: Color
    var emission: Color
    var specular: Color
    var specularPower: real
    var diffuseTexture: Option<GpuTexture>
    var materialBuffer: Option<GpuBuffer>
    var materialBufferOffset: int
    /** The record last stored at offset 0 of `materialBuffer`. */
    var bufferRecord: Option<MaterialRecord>

    /** The texture flag is set exactly when a texture is present. */
    ghost predicate Valid()
      reads this
    {
      (Contains(fragmentShaderOptions, DiffuseTextured) <==> diffuseTexture.Some?)
      && materialBuffer.Some?
    }

    /** The record `upload` writes for the current state. */
    function CurrentRecord(): MaterialRecord
      reads this
    {
      RecordFor(emission, ambient, diffuse, specular, specularPower, diffuseTexture.Some?)
    }

    constructor (theSpecular: Color, theSpecularPower: real, device: Device)
      modifies device
      ensures fragmentShaderOptions == NoFragmentOptions && opacity == 1.0 && materialBufferOffset == 0
      ensures ambient == DefaultAmbient && diffuse == DefaultDiffuse && emission == DefaultEmission
      ensures specular == theSpecular && specularPower == theSpecularPower && diffuseTexture == None
      ensures materialBuffer == Some(GpuBuffer(old(device.nextId), MaterialStride, StorageModeShared, None))
      ensures device.nextId == old(device.nextId) + 1
      ensures bufferRecord == Some(CurrentRecord())
      ensures Valid()
    {
      fragmentShaderOptions := NoFragmentOptions;
      opacity := 1.0;
      ambient := DefaultAmbient;
      diffuse := DefaultDiffuse;
      emission := DefaultEmission;
      specular := theSpecular;
      specularPower := theSpecularPower;
      diffuseTexture := None;
      materialBuffer := None;
      materialBufferOffset := 0;
      bufferRecord := None;
      new;
      Upload(device);
    }

    /** The untextured initialiser: ambient and diffuse both get the given colour. */
    constructor DiffuseAndAmbient(theDiffuseAndAmb: Color, theSpecular: Color, theSpecularPower: real, device: Device)
      modifies device
      ensures fragmentShaderOptions == NoFragmentOptions && opacity == 1.0 && materialBufferOffset == 0
      ensures ambient == theDiffuseAndAmb && diffuse == theDiffuseAndAmb && emission == DefaultEmission
      ensures specular == theSpecular && specularPower == theSpecularPower && diffuseTexture == None
      ensures materialBuffer == Some(GpuBuffer(old(device.nextId), MaterialStride, StorageModeShared, None))
      ensures device.nextId == old(device.nextId) + 1
      ensures bufferRecord == Some(CurrentRecord())
      ensures Valid()
    {
      fragmentShaderOptions := NoFragmentOptions;
      opacity := 1.0;
      ambient := theDiffuseAndAmb;
      diffuse := theDiffuseAndAmb;
      emission := DefaultEmission;
      specular := theSpecular;
      specularPower := theSpecularPower;
      diffuseTexture := None;
      materialBuffer := None;
      materialBufferOffset := 0;
      bufferRecord := None;
      new;
      Upload(device);
    }

    /** The textured initialiser: default colours, the texture set and the flag raised. */
    constructor Textured(tex: GpuTexture, device: Device)
      modifies device
      ensures fragmentShaderOptions == DiffuseTextured && Contains(fragmentShaderOptions, DiffuseTextured)
      ensures diffuseTexture == Some(tex) && opacity == 1.0 && materialBufferOffset == 0
      ensures ambient == DefaultAmbient && diffuse == DefaultDiffuse && emission == DefaultEmission
      ensures specular == DefaultSpecular && specularPower == DefaultSpecularPower
      ensures materialBuffer == Some(GpuBuffer(old(device.nextId), MaterialStride, StorageModeShared, None))
      ensures device.nextId == old(device.nextId) + 1
      ensures bufferRecord == Some(MaterialRecord(DefaultEmission, Black, Black, DefaultSpecular, DefaultSpecularPower))
      ensures Valid()
    {
      fragmentShaderOptions := NoFragmentOptions;
      opacity := 1.0;
      ambient := DefaultAmbient;
      diffuse := DefaultDiffuse;
      emission := DefaultEmission;
      specular := DefaultSpecular;
      specularPower := DefaultSpecularPower;
      diffuseTexture := None;
      materialBuffer := None;
      materialBufferOffset := 0;
      bufferRecord := None;
      new;
      Upload(device);
      UpdateShaderOptions(Some(tex));
      SetDiffuseTexture(Some(tex));
      Upload(device);
    }

    method UpdateShaderOptions(newDiffuseTex: Option<GpuTexture>)
      modifies this`fragmentShaderOptions
      ensures fragmentShaderOptions == OptionsForTexture(old(fragmentShaderOptions), diffuseTexture, newDiffuseTex)
    {
      if newDiffuseTex == diffuseTexture {
        return;
      }
      if newDiffuseTex.Some? {
        if !Contains(fragmentShaderOptions, DiffuseTextured) {
          fragmentShaderOptions := Insert(fragmentShaderOptions, DiffuseTextured);
        }
      } else {
        fragmentShaderOptions := Remove(fragmentShaderOptions, DiffuseTextured);
      }
    }

    /** Assigning `diffuseTexture`: the `willSet` observer updates the options first. */
    method SetDiffuseTexture(tex: Option<GpuTexture>)
      modifies this`fragmentShaderOptions, this`diffuseTexture
      ensures diffuseTexture == tex
      ensures fragmentShaderOptions == OptionsForTexture(old(fragmentShaderOptions), old(diffuseTexture), tex)
      ensures tex == old(diffuseTexture) ==> fragmentShaderOptions == old(fragmentShaderOptions)
      ensures old(Valid()) ==> Valid()
    {
      UpdateShaderOptions(tex);
      diffuseTexture := tex;
      if old(Valid()) {
        OptionsTrackTexture(old(fragmentShaderOptions), old(diffuseTexture), tex);
      }
    }

    /** Allocates the buffer on first use only, then stores the current record at offset 0. */
    method Upload(device: Device)
      modifies this`materialBuffer, this`bufferRecord, device
      ensures old(materialBuffer).None? ==>
        materialBuffer == Some(GpuBuffer(old(device.nextId), MaterialStride, StorageModeShared, None))
        && device.nextId == old(device.nextId) + 1
      ensures old(materialBuffer).Some? ==> materialBuffer == old(materialBuffer) && device.nextId == old(device.nextId)
      ensures bufferRecord == Some(CurrentRecord())
    {
      if materialBuffer.None? {
        var b := device.MakeBuffer(MaterialStride, StorageModeShared);
        materialBuffer := Some(b);
      }
      bufferRecord := Some(RecordFor(emission, ambient, diffuse, specular, specularPower, diffuseTexture.Some?));
    }
  }
}
