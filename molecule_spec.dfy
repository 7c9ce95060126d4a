/** Gsw/MolelculeSpec.swift: the chemical element and residue codes a PDB
    file uses, and the molecule a reader builds: a list of atoms and a list
    of bonds. */
module MoleculeSpecs {
  import opened Wrappers
  import opened Gpu

  datatype ElementType =
    | UnknownElement | Carbon | Hydrogen | Oxygen | Nitrogen | Sulfur | Phosphorus | Iron | Silicon

  /** The enum's raw values: the element symbols, and "unknown" for the
      case without an explicit one. */
  function ElementRawValue(e: ElementType): string {
    match e
    case UnknownElement => "unknown"
    case Carbon => "C"
    case Hydrogen => "H"
    case Oxygen => "O"
    case Nitrogen => "N"
    case Sulfur => "S"
    case Phosphorus => "P"
    case Iron => "FE"
    case Silicon => "SI"
  }

  /** `ElementType(rawValue:)`: the element with that raw value, if any. */
  function ElementFromRawValue(s: string): (r: Option<ElementType>)
    ensures r.Some? ==> ElementRawValue(r.value) == s
  {
    if s == "unknown" then Some(UnknownElement)
    else if s == "C" then Some(Carbon)
    else if s == "H" then Some(Hydrogen)
    else if s == "O" then Some(Oxygen)
    else if s == "N" then Some(Nitrogen)
    else if s == "S" then Some(Sulfur)
    else if s == "P" then Some(Phosphorus)
    else if s == "FE" then Some(Iron)
    else if s == "SI" then Some(Silicon)
    else None
  }

  /** Every element is found again from its raw value, so no two elements
      share one. */
  lemma ElementRawValueRoundTrip(e: ElementType)
    ensures ElementFromRawValue(ElementRawValue(e)) == Some(e)
  {
  }

  /** A string that is no element's raw value finds nothing, and only such a string. */
  lemma UnlistedElementCode(s: string)
    ensures ElementFromRawValue(s).None? <==> forall x: ElementType :: ElementRawValue(x) != s
  {
    if ElementFromRawValue(s).None? {
      forall x: ElementType
        ensures ElementRawValue(x) != s
      {
        ElementRawValueRoundTrip(x);
      }
    }
  }

  datatype ResidueType =
    | UnknownResidue
    | Deoxyadenine | Deoxycytosine | Deoxyguanine | Deoxythymine
    | Adenine | Cytosine | Guanine | Uracil
    | Glycine | Alanine | Valine | Leucine | Isoleucine | Serine | Cysteine | Threonine | Methionine
    | Proline | Phenylalanine | Tyrosine | Tryptophan | Histidine | Lysine | Arginine
    | AsparticAcid | GlutamicAcid | Asparagine | Glutamine
    | Water

  /** The enum's raw values: the PDB residue names. */
  function ResidueRawValue(t: ResidueType): string {
    match t
    case UnknownResidue => "unknown"
    case Deoxyadenine => "DA"
    case Deoxycytosine => "DC"
    case Deoxyguanine => "DG"
    case Deoxythymine => "DT"
    case Adenine => "A"
    case Cytosine => "C"
    case Guanine => "G"
    case Uracil => "U"
    case Glycine => "GLY"
    case Alanine => "ALA"
    case Valine => "VAL"
    case Leucine => "LEU"
    case Isoleucine => "ILE"
    case Serine => "SER"
    case Cysteine => "CYS"
    case Threonine => "THR"
    case Methionine => "MET"
    case Proline => "PRO"
    case Phenylalanine => "PHE"
    case Tyrosine => "TYR"
    case Tryptophan => "TRP"
    case Histidine => "HIS"
    case Lysine => "LYS"
    case Arginine => "ARG"
    case AsparticAcid => "ASP"
    case GlutamicAcid => "GLU"
    case Asparagine => "ASN"
    case Glutamine => "GLN"
    case Water => "HOH"
  }

  /** `ResidueType(rawValue:)`. The codes are looked up by their length
      first: one letter for RNA, two for DNA, three for amino acids and
      water. */
  function ResidueFromRawValue(s: string): (r: Option<ResidueType>)
    ensures r.Some? ==> ResidueRawValue(r.value) == s
  {
    if |s| == 1 then RnaFromCode(s)
    else if |s| == 2 then DnaFromCode(s)
    else if |s| == 3 then
      (if s[0] < 'G' then ThreeLetterAToC(s)
       else if s[0] < 'I' then ThreeLetterGToH(s)
       else if s[0] < 'P' then ThreeLetterIToM(s)
       else if s[0] < 'T' then ThreeLetterPToS(s)
       else ThreeLetterTToV(s))
    else if s == "unknown" then Some(UnknownResidue)
    else None
  }

  function RnaFromCode(s: string): (r: Option<ResidueType>)
    ensures r.Some? ==> ResidueRawValue(r.value) == s
  {
    if s == "A" then Some(Adenine)
    else if s == "C" then Some(Cytosine)
    else if s == "G" then Some(Guanine)
    else if s == "U" then Some(Uracil)
    else None
  }

  function DnaFromCode(s: string): (r: Option<ResidueType>)
    ensures r.Some? ==> ResidueRawValue(r.value) == s
  {
    if s == "DA" then Some(Deoxyadenine)
    else if s == "DC" then Some(Deoxycytosine)
    else if s == "DG" then Some(Deoxyguanine)
    else if s == "DT" then Some(Deoxythymine)
    else None
  }

  /** Three-letter codes starting with 'A' to 'C'. */
  function ThreeLetterAToC(s: string): (r: Option<ResidueType>)
    ensures r.Some? ==> ResidueRawValue(r.value) == s
  {
    if s == "ALA" then Some(Alanine)
    else if s == "ARG" then Some(Arginine)
    else if s == "ASN" then Some(Asparagine)
    else if s == "ASP" then Some(AsparticAcid)
    else if s == "CYS" then Some(Cysteine)
    else None
  }

  /** Three-letter codes starting with 'G' to 'H'. */
  function ThreeLetterGToH(s: string): (r: Option<ResidueType>)
    ensures r.Some? ==> ResidueRawValue(r.value) == s
  {
    if s == "GLN" then Some(Glutamine)
    else if s == "GLU" then Some(GlutamicAcid)
    else if s == "GLY" then Some(Glycine)
    else if s == "HIS" then Some(Histidine)
    else if s == "HOH" then Some(Water)
    else None
  }

  /** Three-letter codes starting with 'I' to 'M'. */
  function ThreeLetterIToM(s: string): (r: Option<ResidueType>)
    ensures r.Some? ==> ResidueRawValue(r.value) == s
  {
    if s == "ILE" then Some(Isoleucine)
    else if s == "LEU" then Some(Leucine)
    else if s == "LYS" then Some(Lysine)
    else if s == "MET" then Some(Methionine)
    else None
  }

  /** Three-letter codes starting with 'P' to 'S'. */
  function ThreeLetterPToS(s: string): (r: Option<ResidueType>)
    ensures r.Some? ==> ResidueRawValue(r.value) == s
  {
    if s == "PHE" then Some(Phenylalanine)
    else if s == "PRO" then Some(Proline)
    else if s == "SER" then Some(Serine)
    else None
  }

  /** Three-letter codes starting with 'T' to 'V'. */
  function ThreeLetterTToV(s: string): (r: Option<ResidueType>)
    ensures r.Some? ==> ResidueRawValue(r.value) == s
  {
    if s == "THR" then Some(Threonine)
    else if s == "TRP" then Some(Tryptophan)
    else if s == "TYR" then Some(Tyrosine)
    else if s == "VAL" then Some(Valine)
    else None
  }

  /** Every residue type is found again from its raw value, so the codes
      are distinct. */
  lemma ResidueRawValueRoundTrip(t: ResidueType)
    ensures ResidueFromRawValue(ResidueRawValue(t)) == Some(t)
  {
  }

  /** A string that is no residue's raw value finds nothing, and only such a string. */
  lemma UnlistedResidueCode(s: string)
    ensures ResidueFromRawValue(s).None? <==> forall x: ResidueType :: ResidueRawValue(x) != s
  {
    if ResidueFromRawValue(s).None? {
      forall x: ResidueType
        ensures ResidueRawValue(x) != s
      {
        ResidueRawValueRoundTrip(x);
      }
    }
  }

  /** The residue code as the readers use it: an unlisted code is `unknown`. */
  function ResidueOrUnknown(s: string): (t: ResidueType)
    ensures ResidueFromRawValue(s).Some? ==> ResidueRawValue(t) == s
    ensures ResidueFromRawValue(s).None? ==> t == UnknownResidue
  {
    match ResidueFromRawValue(s)
    case Some(t) => t
    case None => UnknownResidue
  }

  /** The element symbol as the readers use it: an unlisted symbol is `unknown`. */
  function ElementOrUnknown(s: string): (e: ElementType)
    ensures ElementFromRawValue(s).Some? ==> ElementRawValue(e) == s
    ensures ElementFromRawValue(s).None? ==> e == UnknownElement
  {
    match ElementFromRawValue(s)
    case Some(e) => e
    case None => UnknownElement
  }

  predicate IsRna(t: ResidueType) {
    t == Adenine || t == Cytosine || t == Guanine || t == Uracil
  }

  predicate IsDna(t: ResidueType) {
    t == Deoxyadenine || t == Deoxycytosine || t == Deoxyguanine || t == Deoxythymine
  }

  predicate IsAminoAcid(t: ResidueType) {
    !(t == UnknownResidue || t == Water || IsRna(t) || IsDna(t))
  }

  datatype BondType = SingleBond | DoubleBond | TripleBond

  datatype AtomInfo = AtomInfo(element: ElementType, position: Vec3, structureNum: int, residueType: ResidueType)

  datatype BondInfo = BondInfo(startAtomPos: Vec3, endAtomPos: Vec3, bondType: BondType, structureNum: int, residueType: ResidueType)

  /** The molecule: its atoms and bonds, in the order they were read. */
  class MoleculeSpec {
    var atomInfos: seq<AtomInfo>
    var bondInfos: seq<BondInfo>

    constructor ()
      ensures atomInfos == [] && bondInfos == []
    {
      atomInfos := [];
      bondInfos := [];
    }
  }
}
