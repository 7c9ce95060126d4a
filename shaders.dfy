/** The default shader functions Gsw/RenderPass.swift selects from
    (lines 321-343): one per stage, texturing and lighting model, each known
    to the shader library by a name assembled from those three parts. */
module Shaders {
  /** The three lighting models the default shaders implement. */
  datatype Lighting = Unlit | LitOneDirectional | LitGeneral

  datatype ShaderVariant = ShaderVariant(textured: bool, lighting: Lighting)

  datatype ShaderStage = VertexStage | FragmentStage

  /** One of the default shader functions: the stage it runs in and the
      variant it implements. The library knows it by `ShaderName`. */
  datatype ShaderFunction = ShaderFunction(stage: ShaderStage, variant: ShaderVariant)

  function StagePrefix(stage: ShaderStage): string {
    match stage
    case VertexStage => "vertex_"
    case FragmentStage => "fragment_"
  }

  function TexturePart(textured: bool): string {
    if textured then "Textured_" else "Untextured_"
  }

  function LightingPart(lighting: Lighting): string {
    match lighting
    case Unlit => "Unlit"
    case LitOneDirectional => "Lit_1dir"
    case LitGeneral => "Lit_General"
  }

  /** The library name of a stage's shader, e.g. "vertex_Untextured_Lit_1dir". */
  function ShaderName(stage: ShaderStage, v: ShaderVariant): string {
    StagePrefix(stage) + (TexturePart(v.textured) + LightingPart(v.lighting))
  }

  lemma StagePrefixDistinct(s1: ShaderStage, s2: ShaderStage, rest1: string, rest2: string)
    requires StagePrefix(s1) + rest1 == StagePrefix(s2) + rest2
    ensures s1 == s2 && rest1 == rest2
  {
    var a := StagePrefix(s1) + rest1;
    assert a[0] == StagePrefix(s1)[0];
    assert (StagePrefix(s2) + rest2)[0] == StagePrefix(s2)[0];
    assert s1 == s2;
    assert rest1 == a[|StagePrefix(s1)|..];
    assert rest2 == (StagePrefix(s2) + rest2)[|StagePrefix(s2)|..];
  }

  lemma TexturePartDistinct(t1: bool, t2: bool, rest1: string, rest2: string)
    requires TexturePart(t1) + rest1 == TexturePart(t2) + rest2
    ensures t1 == t2 && rest1 == rest2
  {
    var a := TexturePart(t1) + rest1;
    assert a[0] == TexturePart(t1)[0];
    assert (TexturePart(t2) + rest2)[0] == TexturePart(t2)[0];
    assert t1 == t2;
    assert rest1 == a[|TexturePart(t1)|..];
    assert rest2 == (TexturePart(t2) + rest2)[|TexturePart(t2)|..];
  }

  lemma LightingPartDistinct(l1: Lighting, l2: Lighting)
    requires LightingPart(l1) == LightingPart(l2)
    ensures l1 == l2
  {
    assert LightingPart(l1)[0] == LightingPart(l2)[0];
    if l1 != Unlit && l2 != Unlit {
      assert LightingPart(l1)[4] == LightingPart(l2)[4];
    }
  }

  /** Different stages or variants never share a library name, so one cache
      entry is never mistaken for another shader. */
  lemma ShaderNameInjective(s1: ShaderStage, v1: ShaderVariant, s2: ShaderStage, v2: ShaderVariant)
    requires ShaderName(s1, v1) == ShaderName(s2, v2)
    ensures s1 == s2 && v1 == v2
  {
    var r1 := TexturePart(v1.textured) + LightingPart(v1.lighting);
    var r2 := TexturePart(v2.textured) + LightingPart(v2.lighting);
    StagePrefixDistinct(s1, s2, r1, r2);
    TexturePartDistinct(v1.textured, v2.textured, LightingPart(v1.lighting), LightingPart(v2.lighting));
    LightingPartDistinct(v1.lighting, v2.lighting);
  }
}
