/** ShaderOptions.swift: the option sets renderables request of the shaders,
    as 64-bit raw values with the OptionSet operations. */
module ShaderOptions {
  datatype FragmentShaderOptions = FragmentShaderOptions(rawValue: bv64)
  datatype VertexShaderOptions = VertexShaderOptions(rawValue: bv64)

  /** The diffuse colour is modulated by a texel: bit 0, `1 << 0`. */
  const DiffuseTextured: FragmentShaderOptions := FragmentShaderOptions(1)

  /** `FragmentShaderOptions()`: the empty set. */
  const NoFragmentOptions: FragmentShaderOptions := FragmentShaderOptions(0)

  /** Vertex options define no members, so every object asks for the empty set. */
  const NoVertexOptions: VertexShaderOptions := VertexShaderOptions(0)

  /** OptionSet `contains`: every bit of the member is set. */
  predicate Contains(s: FragmentShaderOptions, member: FragmentShaderOptions) {
    s.rawValue & member.rawValue == member.rawValue
  }

  function Insert(s: FragmentShaderOptions, member: FragmentShaderOptions): (r: FragmentShaderOptions)
    ensures Contains(r, member)
    ensures Contains(r, s)
  {
    FragmentShaderOptions(s.rawValue | member.rawValue)
  }

  function Remove(s: FragmentShaderOptions, member: FragmentShaderOptions): (r: FragmentShaderOptions)
    ensures r.rawValue & member.rawValue == 0
    ensures Contains(s, r)
  {
    FragmentShaderOptions(s.rawValue & !member.rawValue)
  }

  /** `diffuseTextured` is bit 0 and nothing else. */
  lemma DiffuseTexturedIsBitZero()
    ensures DiffuseTextured.rawValue == 1
    ensures !Contains(NoFragmentOptions, DiffuseTextured)
  {
  }

  lemma SetBitZero(x: bv64)
    ensures (x | 1) & 1 == 1
    ensures (x | 1) & !1 == x & !1
    ensures x & 1 == 1 ==> x | 1 == x
  {
  }

  lemma ClearBitZero(x: bv64)
    ensures (x & !1) & 1 == 0
    ensures (x & !1) & !1 == x & !1
    ensures x & 1 != 1 ==> x & !1 == x
  {
  }

  lemma InsertSetsFlag(s: FragmentShaderOptions)
    ensures Contains(Insert(s, DiffuseTextured), DiffuseTextured)
  {
    SetBitZero(s.rawValue);
  }

  lemma InsertKeepsOtherBits(s: FragmentShaderOptions)
    ensures Insert(s, DiffuseTextured).rawValue & !1 == s.rawValue & !1
  {
    SetBitZero(s.rawValue);
  }

  lemma InsertWhenPresent(s: FragmentShaderOptions)
    ensures Contains(s, DiffuseTextured) ==> Insert(s, DiffuseTextured) == s
  {
    SetBitZero(s.rawValue);
  }

  lemma RemoveClearsFlag(s: FragmentShaderOptions)
    ensures !Contains(Remove(s, DiffuseTextured), DiffuseTextured)
  {
    ClearBitZero(s.rawValue);
  }

  lemma RemoveKeepsOtherBits(s: FragmentShaderOptions)
    ensures Remove(s, DiffuseTextured).rawValue & !1 == s.rawValue & !1
  {
    ClearBitZero(s.rawValue);
  }

  lemma RemoveWhenAbsent(s: FragmentShaderOptions)
    ensures !Contains(s, DiffuseTextured) ==> Remove(s, DiffuseTextured) == s
  {
    ClearBitZero(s.rawValue);
  }

  /** Inserting and removing the texture flag set and clear it, leave every
      other bit alone, and change nothing when the flag is already as wanted. */
  lemma InsertRemoveTexturedFlag(s: FragmentShaderOptions)
    ensures Contains(Insert(s, DiffuseTextured), DiffuseTextured)
    ensures !Contains(Remove(s, DiffuseTextured), DiffuseTextured)
    ensures Insert(s, DiffuseTextured).rawValue & !1 == s.rawValue & !1
    ensures Remove(s, DiffuseTextured).rawValue & !1 == s.rawValue & !1
    ensures Contains(s, DiffuseTextured) ==> Insert(s, DiffuseTextured) == s
    ensures !Contains(s, DiffuseTextured) ==> Remove(s, DiffuseTextured) == s
  {
    InsertSetsFlag(s);
    InsertKeepsOtherBits(s);
    InsertWhenPresent(s);
    RemoveClearsFlag(s);
    RemoveKeepsOtherBits(s);
    RemoveWhenAbsent(s);
  }
}
