/** Gsw/Lights.swift: at most two lights, uploaded as exactly two records,
    padding with the disabled light. Only each light's type tag and colours
    are kept; the eye-space vectors of a directional light are left out. */
module LightSets {
  import opened Wrappers
  import opened Gpu

  /** The light classes: the base `Light`, `DirectionalLight` and `DisabledLight`. */
  datatype LightKind = PlainLight | Directional | Disabled

  datatype Light = Light(kind: LightKind, ambient: Color, diffuse: Color, specular: Color)

  /** LightType values of ShaderTypesBridge.h. */
  const LightTypeDisabled: nat := 0
  const LightTypeDirectional: nat := 1

  /** `_MAX_LIGHTS`. */
  const MaxLights: nat := 2

  /** MemoryLayout<LightStruct>.stride: three float4, three float3 and the type, padded to 16. */
  const LightStride: nat := 112

  const Black: Color := Color(0.0, 0.0, 0.0, 1.0)

  /** `DisabledLight()`: the base initialiser's black colours. */
  const DisabledLightValue: Light := Light(Disabled, Black, Black, Black)

  /** The part of LightStruct that the model keeps. */
  datatype LightRecord = LightRecord(lightType: nat, ambient: Color, diffuse: Color, specular: Color)

  /** What `light.upload` stores: disabled and directional lights set their
      tag; the base class leaves the zero-initialised tag, which is "disabled". */
  function RecordOf(light: Light): (r: LightRecord)
    ensures r.ambient == light.ambient && r.diffuse == light.diffuse && r.specular == light.specular
    ensures r.lightType == LightTypeDirectional <==> light.kind == Directional
    ensures r.lightType == LightTypeDisabled <==> light.kind != Directional
  {
    LightRecord(if light.kind == Directional then LightTypeDirectional else LightTypeDisabled,
                light.ambient, light.diffuse, light.specular)
  }

  /** The light uploaded into slot `index`: the index-th added light, or the disabled light. */
  function SlotLight(lights: seq<Light>, index: nat): (l: Light)
    ensures index < |lights| ==> l == lights[index]
    ensures index >= |lights| ==> l == DisabledLightValue
  {
    if index < |lights| then lights[index] else DisabledLightValue
  }

  class Lights {
    var buffer: Option<GpuBuffer>
    var lights: seq<Light>
    /** The records stored in `buffer`, by byte offset. */
    var records: map<int, LightRecord>
    const device: Device

    ghost predicate Valid()
      reads this
    {
      |lights| <= MaxLights
    }

    constructor (device: Device)
      ensures this.device == device && buffer == None && lights == [] && records == map[]
      ensures Valid()
    {
      this.device := device;
      buffer := None;
      lights := [];
      records := map[];
    }

    function Count(): (n: nat)
      reads this
      ensures n == |lights|
      ensures Valid() ==> n <= MaxLights
    {
      |lights|
    }

    function Get(index: int): (l: Light)
      reads this
      requires 0 <= index < |lights|
      ensures l == lights[index]
      ensures l in lights
    {
      lights[index]
    }

    /** Appends the light; a third light is fatal. */
    method Add(light: Light) returns (status: Status)
      modifies this`lights
      ensures status.Stopped? <==> |old(lights)| + 1 > MaxLights
      ensures status.Completed? ==> lights == old(lights) + [light]
      ensures status.Stopped? ==> lights == old(lights)
      ensures old(Valid()) ==> Valid()
    {
      if |lights| + 1 > MaxLights {
        return Stopped("You may only specify 2 lights");
      }
      lights := lights + [light];
      status := Completed;
    }

    /** Allocates the buffer on the first call only, then writes exactly two
        records, at offsets 0 and `LightStride`. */
    method Upload()
      modifies this`buffer, this`records, device
      ensures old(buffer).None? ==>
        buffer == Some(GpuBuffer(old(device.nextId), MaxLights * LightStride, StorageModeShared, None))
        && device.nextId == old(device.nextId) + 1
      ensures old(buffer).Some? ==> buffer == old(buffer) && device.nextId == old(device.nextId)
      ensures records == old(records)[0 := RecordOf(SlotLight(lights, 0))][LightStride := RecordOf(SlotLight(lights, 1))]
    {
      if buffer.None? {
        var b := device.MakeBuffer(MaxLights * LightStride, StorageModeShared);
        buffer := Some(b);
      }
      var offset: nat := 0;
      var index: nat := 0;
      while index < MaxLights
        modifies this`records
        invariant index <= MaxLights && offset == index * LightStride
        invariant index == 0 ==> records == old(records)
        invariant index == 1 ==> records == old(records)[0 := RecordOf(SlotLight(lights, 0))]
        invariant index == 2 ==> records == old(records)[0 := RecordOf(SlotLight(lights, 0))][LightStride := RecordOf(SlotLight(lights, 1))]
      {
        var light := DisabledLightValue;
        if index < |lights| {
          light := lights[index];
        }
        records := records[offset := RecordOf(light)];
        offset := offset + LightStride;
        index := index + 1;
      }
    }
  }

  /** Slot i of an upload holds light i when it exists and a disabled record otherwise. */
  lemma UploadPadsWithDisabled(lights: seq<Light>, index: nat)
    requires index < MaxLights
    ensures index >= |lights| ==> RecordOf(SlotLight(lights, index)).lightType == LightTypeDisabled
    ensures index < |lights| ==> RecordOf(SlotLight(lights, index)) == RecordOf(lights[index])
  {
  }
}
