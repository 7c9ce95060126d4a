/** Gsw/PDBReader.swift: a reader of the ATOM and HETATM records of a PDB
    file (the fixed-column layout of the wwPDB Atomic Coordinate Entry
    Format, version 3.3, section 9). It collects one atom per record, groups
    ATOM records into residues by residue number, and when a residue ends
    emits the bonds of that residue type's fixed table of atom-name pairs,
    chaining consecutive nucleotides and amino acids together.

    Columns are 0-based and inclusive, as `substring(from:to:)` takes them. */
module PdbReaders {
  import opened Wrappers
  import opened Gpu
  import opened Utilities
  import opened MoleculeSpecs

  /** The positions of a residue's atoms, keyed by atom name. */
  type ResidueSpec = map<string, Vec3>

  /** Only one structure is supported. */
  const StructureNum: int := 1

  /** Every field of an ATOM or HETATM record is read, up to the element
      symbol in columns 76-77, before the atom is stored. */
  const AtomRecordLength: nat := 78

  const MissingAtom := "Unexpectedly found nil while unwrapping an Optional value"

  /** `substring(from:to:)` on a line that may be short: forming the end
      index traps past the end of the line. */
  function Field(line: string, from: nat, to: nat): (r: Result<string>)
    requires from <= to
    ensures r.Ok? <==> to < |line|
    ensures r.Ok? ==> |r.value| == to - from + 1 && r.value == line[from..to + 1]
  {
    if to < |line| then Ok(Substring(line, from, to)) else Fatal("String index is out of bounds")
  }

  // ---------------------------------------------------------------------
  // Record names

  datatype Record = AtomRecord | HetAtmRecord | TerRecord | EndRecord | OtherRecord

  /** The dispatch of `_parseLine` on a record name. */
  function RecordNamed(name: string): Record {
    if name == "ATOM" then AtomRecord
    else if name == "HETATM" then HetAtmRecord
    else if name == "TER" then TerRecord
    else if name == "END" then EndRecord
    else OtherRecord
  }

  /** `_parseLine` as written: the guard keeps only lines shorter than six
      characters, and then reads columns 0-5, which such a line does not
      have. No line gets past it. */
  function RecordAsWritten(line: string): (r: Result<Record>)
    ensures r.Fatal?
  {
    if !(|line| < 6) then Fatal("Line is too short")
    else match Field(line, 0, 5)
      case Fatal(m) => Fatal(m)
      case Ok(name) => Ok(RecordNamed(name))
  }

  /** Even past the guard, the six columns 0-5 are compared unpadded with
      the four- and three-letter names, so only HETATM could ever match. */
  lemma RecordNamesUnpaddedAsWritten(name: string)
    requires |name| == 6
    ensures RecordNamed(name) == HetAtmRecord || RecordNamed(name) == OtherRecord
  {
  }

  /** The record of a line: a line shorter than the six-column record name
      traps; otherwise the name with its padding removed is dispatched. */
  function RecordOf(line: string): (r: Result<Record>)
    ensures r.Fatal? <==> |line| < 6
    ensures r.Ok? ==> r.value == RecordNamed(Trim(line[..6]))
  {
    if |line| < 6 then Fatal("Line is too short")
    else Ok(RecordNamed(Trim(Substring(line, 0, 5))))
  }

  /** The record names as a PDB file pads them to six columns are told apart. */
  lemma PaddedRecordNames(line: string)
    requires |line| >= 6
    ensures line[..6] == "ATOM  " ==> RecordOf(line) == Ok(AtomRecord)
    ensures line[..6] == "HETATM" ==> RecordOf(line) == Ok(HetAtmRecord)
    ensures line[..6] == "TER   " ==> RecordOf(line) == Ok(TerRecord)
    ensures line[..6] == "END   " ==> RecordOf(line) == Ok(EndRecord)
  {
    var name := line[..6];
    assert "ATOM" + seq(2, _ => ' ') == "ATOM  ";
    assert "TER" + seq(3, _ => ' ') == "TER   ";
    assert "END" + seq(3, _ => ' ') == "END   ";
    if name == "ATOM  " {
      assert Trim(name) == "ATOM" by { TrimPadded("ATOM", 2); }
    } else if name == "HETATM" {
      assert Trim(name) == "HETATM" by { TrimOfTrimmed(name); }
    } else if name == "TER   " {
      assert Trim(name) == "TER" by { TrimPadded("TER", 3); }
    } else if name == "END   " {
      assert Trim(name) == "END" by { TrimPadded("END", 3); }
    }
  }

  /** A word followed by `k` spaces trims to the word. */
  lemma TrimPadded(w: string, k: nat)
    requires w != [] && !IsWhitespace(w[0]) && !IsWhitespace(w[|w| - 1])
    ensures Trim(w + seq(k, _ => ' ')) == w
  {
    var s := w + seq(k, _ => ' ');
    assert s[0] == w[0];
    assert TrimLeading(s) == s;
    TrimTrailingPadded(w, k);
  }

  /** Trailing spaces after a word ending in a non-space are all dropped. */
  lemma {:induction false} TrimTrailingPadded(w: string, k: nat)
    requires w != [] && !IsWhitespace(w[|w| - 1])
    ensures TrimTrailing(w + seq(k, _ => ' ')) == w
    decreases k
  {
    var s := w + seq(k, _ => ' ');
    if k == 0 {
      assert s == w;
    } else {
      assert s[|s| - 1] == ' ';
      assert s[..|s| - 1] == w + seq(k - 1, _ => ' ');
      TrimTrailingPadded(w, k - 1);
    }
  }

  // ---------------------------------------------------------------------
  // Fields of ATOM and HETATM records

  /** `_parseAtomPosition`: x, y and z in columns 30-37, 38-45 and 46-53;
      a field that is not a number traps. */
  function ParseAtomPosition(line: string, parseFloat: string -> Option<real>): (r: Result<Vec3>)
    ensures r.Ok? <==>
      |line| >= 54 && parseFloat(line[30..38]).Some? && parseFloat(line[38..46]).Some? && parseFloat(line[46..54]).Some?
    ensures r.Ok? ==>
      r.value == Vec3(parseFloat(line[30..38]).value, parseFloat(line[38..46]).value, parseFloat(line[46..54]).value)
  {
    match Field(line, 30, 37)
    case Fatal(m) => Fatal(m)
    case Ok(xs) =>
      match parseFloat(xs)
      case None => Fatal("Invalid position x value")
      case Some(x) =>
        match Field(line, 38, 45)
        case Fatal(m) => Fatal(m)
        case Ok(ys) =>
          match parseFloat(ys)
          case None => Fatal("Invalid position y value")
          case Some(y) =>
            match Field(line, 46, 53)
            case Fatal(m) => Fatal(m)
            case Ok(zs) =>
              match parseFloat(zs)
              case None => Fatal("Invalid position z value")
              case Some(z) => Ok(Vec3(x, y, z))
  }

  /** The element symbol in columns 76-77, as written: looked up unpadded. */
  function ElementOfAsWritten(line: string): (e: ElementType)
    requires |line| >= AtomRecordLength
    ensures ElementFromRawValue(line[76..78]).None? ==> e == UnknownElement
  {
    ElementOrUnknown(Substring(line, 76, 77))
  }

  /** The element symbol in columns 76-77, with the padding of a
      right-justified one-letter symbol removed; an unlisted symbol is
      `unknown`. */
  function ElementOf(line: string): (e: ElementType)
    requires |line| >= AtomRecordLength
    ensures ElementFromRawValue(Trim(line[76..78])).Some? ==> ElementRawValue(e) == Trim(line[76..78])
    ensures ElementFromRawValue(Trim(line[76..78])).None? ==> e == UnknownElement
  {
    ElementOrUnknown(Trim(Substring(line, 76, 77)))
  }

  /** A one-letter symbol is right-justified in the element columns, so as
      written a carbon atom is of unknown element. */
  lemma CarbonUnknownAsWritten(line: string)
    requires |line| >= AtomRecordLength && line[76..78] == " C"
    ensures ElementOfAsWritten(line) == UnknownElement
    ensures ElementOf(line) == Carbon
  {
    assert Trim(" C") == "C" by {
      assert TrimLeading(" C") == "C" by { assert " C"[1..] == "C"; }
      TrimOfTrimmed("C");
    }
  }

  /** A two-letter symbol has no padding, and both readings agree. */
  lemma TwoLetterElementsAgree(line: string)
    requires |line| >= AtomRecordLength && !IsWhitespace(line[76]) && !IsWhitespace(line[77])
    ensures ElementOf(line) == ElementOfAsWritten(line)
  {
    TrimOfTrimmed(line[76..78]);
  }

  /** The atom name in columns 12-15, as written: taken with its padding. */
  function AtomNameAsWritten(line: string): (name: string)
    requires |line| >= AtomRecordLength
    ensures |name| == 4
  {
    Substring(line, 12, 15)
  }

  /** The atom name in columns 12-15 with its padding removed. */
  function AtomName(line: string): (name: string)
    requires |line| >= AtomRecordLength
    ensures |name| <= 4
  {
    Trim(Substring(line, 12, 15))
  }

  /** The residue name in columns 17-19 with its padding removed. */
  function ResidueName(line: string): (name: string)
    requires |line| >= AtomRecordLength
    ensures |name| <= 3
  {
    Trim(Substring(line, 17, 19))
  }

  /** The text fields of an ATOM or HETATM record the reader uses. */
  datatype AtomFields = AtomFields(serial: string, name: string, residueName: string, residueSeq: string, element: ElementType)

  /** Serial number 6-10 (untrimmed), atom name 12-15, residue name 17-19,
      residue number 22-25 and element 76-77. */
  function FieldsOf(line: string): (f: AtomFields)
    requires |line| >= AtomRecordLength
    ensures f.serial == line[6..11] && f.residueSeq == line[22..26]
    ensures f.name == AtomName(line) && f.residueName == ResidueName(line) && f.element == ElementOf(line)
  {
    AtomFields(Substring(line, 6, 10), AtomName(line), ResidueName(line), Substring(line, 22, 25), ElementOf(line))
  }

  // ---------------------------------------------------------------------
  // Bond tables

  type NamePairs = seq<(string, string)>

  /** The bonds every residue of a family has. */
  function CommonPairs(t: ResidueType): (pairs: NamePairs)
    ensures pairs != [] <==> t != UnknownResidue && t != Water
  {
    if IsRna(t) then [("C2", "O2")]
    else if IsDna(t) then
      [("P", "OP1"), ("P", "OP2"), ("P", "O5'"), ("O5'", "C5'"), ("C5'", "C4'"), ("C4'", "O4'"),
       ("C4'", "C3'"), ("C3'", "O3'"), ("O4'", "C1'"), ("C3'", "C2'"), ("C2'", "C1'")]
    else if IsAminoAcid(t) then [("N", "CA"), ("CA", "C"), ("C", "O")]
    else []
  }

  /** The bonds of a residue type's own side chain or base. */
  function SpecificPairs(t: ResidueType): NamePairs {
    match t
    case Adenine | Deoxyadenine =>
      [("C1", "N9"), ("N9", "C4"), ("C4", "N3"), ("N3", "C2"), ("C2", "N1"), ("N1", "C6"),
       ("C6", "N6"), ("C6", "C5"), ("C5", "C4"), ("C5", "N7"), ("N7", "C8"), ("C8", "N9")]
    case Cytosine | Deoxycytosine =>
      [("N1", "C2"), ("C2", "O2"), ("C2", "N3"), ("N3", "C4"), ("C4", "N4"), ("C4", "C5"),
       ("C5", "C6"), ("C6", "N1")]
    case Guanine | Deoxyguanine =>
      [("C1'", "N9"), ("N9", "C4"), ("C4", "N3"), ("N3", "C2"), ("C2", "N2"), ("C2", "N1"),
       ("N1", "C6"), ("C6", "O6"), ("C6", "C5"), ("C5", "C4"), ("C5", "N7"), ("N7", "C8"), ("C8", "N9")]
    case Deoxythymine => [("C5", "C7")]
    case Uracil =>
      [("C1'", "N1"), ("N1", "C2"), ("C2", "O2"), ("C2", "N3"), ("N3", "C4"), ("C4", "O4"),
       ("C4", "C5"), ("C5", "C6"), ("C5", "N1")]
    case Alanine => [("CA", "CB")]
    case Valine => [("CA", "CB"), ("CB", "CG1"), ("CB", "CG2")]
    case Leucine => [("CA", "CB"), ("CB", "CG"), ("CG", "CD1"), ("CG", "CD2")]
    case Isoleucine => [("CA", "CB"), ("CB", "CG1"), ("CB", "CG2"), ("CG1", "CD1")]
    case Serine => [("CA", "CB"), ("CB", "OB")]
    case Cysteine => [("CA", "CB"), ("CB", "SG")]
    case Threonine => [("CA", "CB"), ("CB", "OG1"), ("CB", "CG2")]
    case Methionine => [("CA", "CB"), ("CB", "CG"), ("CG", "SD"), ("SD", "CE")]
    case Proline => [("CA", "CB"), ("CB", "CG"), ("CG", "CD"), ("CD", "N")]
    case Phenylalanine =>
      [("CA", "CB"), ("CB", "CG"), ("CG", "CD1"), ("CG", "CD2"), ("CD1", "CE1"), ("CD2", "CE2"),
       ("CE1", "CZ"), ("CE2", "CZ")]
    case Tyrosine =>
      [("CA", "CB"), ("CB", "CG"), ("CG", "CD1"), ("CG", "CD2"), ("CD1", "CE1"), ("CD2", "CE2"),
       ("CE1", "CZ"), ("CE2", "CZ"), ("CZ", "OH")]
    case Tryptophan =>
      [("CA", "CB"), ("CB", "CG"), ("CG", "CD1"), ("CG", "CD2"), ("CD1", "NE1"), ("CD2", "CE2"),
       ("NE1", "CE2"), ("CE2", "CZ2"), ("CZ2", "CH2"), ("CH2", "CZ3"), ("CZ3", "CE3"), ("CE3", "CD2")]
    case Histidine =>
      [("CA", "CB"), ("CB", "CG"), ("CG", "ND1"), ("CG", "CD2"), ("ND1", "CE1"), ("CD2", "NE2"),
       ("CE1", "NE2")]
    case Lysine => [("CA", "CB"), ("CB", "CG"), ("CG", "CD"), ("CD", "CE"), ("CE", "NZ")]
    case Arginine =>
      [("CA", "CB"), ("CB", "CG"), ("CG", "CD"), ("CD", "NE"), ("NE", "CZ"), ("CZ", "NH1"), ("CZ", "NH2")]
    case AsparticAcid => [("CA", "CB"), ("CB", "CG"), ("CG", "OD1"), ("CG", "OD2")]
    case GlutamicAcid => [("CA", "CB"), ("CB", "CG"), ("CG", "CD"), ("CD", "OE1"), ("CD", "OE2")]
    case Asparagine => [("CA", "CB"), ("CB", "CG"), ("CG", "OD1"), ("CG", "ND2")]
    case Glutamine => [("CA", "CB"), ("CB", "CG"), ("CG", "CD"), ("CD", "OE1"), ("CD", "NE2")]
    case _ => []
  }

  /** The atom a residue is chained to from the previous one's terminal
      atom: the phosphorus of a nucleotide, the nitrogen of an amino acid. */
  function LinkTarget(t: ResidueType): Option<string> {
    if IsDna(t) then Some("P") else if IsAminoAcid(t) then Some("N") else None
  }

  /** The key looked up for a nucleotide's terminal atom, as written. */
  const DnaTerminalKeyAsWritten: string := "O3"

  /** The 3' oxygen, named as in the nucleotide's own bond table. */
  const DnaTerminalKey: string := "O3'"

  /** The terminal atom the next residue is chained to, once a residue's
      bonds were emitted: looked up under `dnaKey` for a nucleotide and "C"
      for an amino acid; other residues leave it as it was. */
  function TerminalAfter(residue: ResidueSpec, t: ResidueType, previous: Option<Vec3>, dnaKey: string): (r: Option<Vec3>)
    ensures IsDna(t) ==> (r.Some? <==> dnaKey in residue)
    ensures IsAminoAcid(t) ==> (r.Some? <==> "C" in residue)
    ensures !IsDna(t) && !IsAminoAcid(t) ==> r == previous
    ensures r.Some? && (IsDna(t) || IsAminoAcid(t)) ==> r.value == residue[if IsDna(t) then dnaKey else "C"]
  {
    if IsDna(t) then (if dnaKey in residue then Some(residue[dnaKey]) else None)
    else if IsAminoAcid(t) then (if "C" in residue then Some(residue["C"]) else None)
    else previous
  }

  /** As written, a nucleotide named with the file's own "O3'" leaves no
      terminal atom, so no nucleotide is ever chained to the one before it. */
  lemma DnaChainBrokenAsWritten(residue: ResidueSpec, t: ResidueType, previous: Option<Vec3>)
    requires IsDna(t) && DnaTerminalKey in residue && DnaTerminalKeyAsWritten !in residue
    ensures TerminalAfter(residue, t, previous, DnaTerminalKeyAsWritten).None?
    ensures TerminalAfter(residue, t, previous, DnaTerminalKey) == Some(residue[DnaTerminalKey])
  {
  }

  /** `_createBondInfo` for one pair: both atoms must be in the residue. */
  function BondOf(residue: ResidueSpec, t: ResidueType, pair: (string, string)): (r: Result<BondInfo>)
    ensures r.Ok? <==> pair.0 in residue && pair.1 in residue
    ensures r.Ok? ==> r.value == BondInfo(residue[pair.0], residue[pair.1], SingleBond, StructureNum, t)
  {
    if pair.0 in residue && pair.1 in residue
    then Ok(BondInfo(residue[pair.0], residue[pair.1], SingleBond, StructureNum, t))
    else Fatal(MissingAtom)
  }

  /** The bonds of a table of pairs, in table order; a missing atom traps. */
  function PairBonds(residue: ResidueSpec, t: ResidueType, pairs: NamePairs): (r: Result<seq<BondInfo>>)
    ensures r.Ok? ==> |r.value| == |pairs|
    decreases |pairs|
  {
    if pairs == [] then Ok([])
    else
      match PairBonds(residue, t, pairs[..|pairs| - 1])
      case Fatal(m) => Fatal(m)
      case Ok(bonds) =>
        match BondOf(residue, t, pairs[|pairs| - 1])
        case Fatal(m) => Fatal(m)
        case Ok(b) => Ok(bonds + [b])
  }

  /** All atoms the pairs name are in the residue. */
  ghost predicate AllNamed(residue: ResidueSpec, pairs: NamePairs) {
    forall i :: 0 <= i < |pairs| ==> pairs[i].0 in residue && pairs[i].1 in residue
  }

  /** A table's bonds are found exactly when every atom it names is in the
      residue, and then there is one single bond per pair, in order. */
  lemma {:induction false} PairBondsFound(residue: ResidueSpec, t: ResidueType, pairs: NamePairs)
    ensures PairBonds(residue, t, pairs).Ok? <==> AllNamed(residue, pairs)
    ensures PairBonds(residue, t, pairs).Ok? ==> forall i :: 0 <= i < |pairs| ==>
      PairBonds(residue, t, pairs).value[i] == BondInfo(residue[pairs[i].0], residue[pairs[i].1], SingleBond, StructureNum, t)
    decreases |pairs|
  {
    if pairs != [] {
      var init := pairs[..|pairs| - 1];
      PairBondsFound(residue, t, init);
      assert forall i :: 0 <= i < |init| ==> init[i] == pairs[i];
    }
  }

  /** The bond from the previous residue's terminal atom to this residue's
      link target, when both exist; a missing target traps. */
  function LinkBond(residue: ResidueSpec, t: ResidueType, previous: Option<Vec3>): (r: Result<seq<BondInfo>>)
    ensures LinkTarget(t).None? || previous.None? ==> r == Ok([])
    ensures LinkTarget(t).Some? && previous.Some? ==>
      (r.Ok? <==> LinkTarget(t).value in residue)
      && (r.Ok? ==> r.value == [BondInfo(previous.value, residue[LinkTarget(t).value], SingleBond, StructureNum, t)])
  {
    if LinkTarget(t).None? || previous.None? then Ok([])
    else if LinkTarget(t).value in residue
    then Ok([BondInfo(previous.value, residue[LinkTarget(t).value], SingleBond, StructureNum, t)])
    else Fatal(MissingAtom)
  }

  /** The second half of `_createBondsForResidue`: the link from the
      previous residue's terminal atom (if there is one), then the `own`
      bonds, and the new terminal atom, found under `dnaKey` in a
      nucleotide. */
  function LinkAndOwnBonds(residue: ResidueSpec, t: ResidueType, previous: Option<Vec3>,
                           own: NamePairs, dnaKey: string): (r: Result<(seq<BondInfo>, Option<Vec3>)>)
    ensures r.Ok? <==> LinkBond(residue, t, previous).Ok? && PairBonds(residue, t, own).Ok?
    ensures r.Ok? ==> r.value.1 == TerminalAfter(residue, t, previous, dnaKey)
  {
    match LinkBond(residue, t, previous)
    case Fatal(m) => Fatal(m)
    case Ok(linked) =>
      match PairBonds(residue, t, own)
      case Fatal(m) => Fatal(m)
      case Ok(ownBonds) => Ok((linked + ownBonds, TerminalAfter(residue, t, previous, dnaKey)))
  }

  /** `_createBondsForResidue` over given tables: the `common` bonds, then
      the link and the `own` bonds; the result also gives the new terminal
      atom. */
  function BondsFrom(residue: ResidueSpec, t: ResidueType, previous: Option<Vec3>,
                     common: NamePairs, own: NamePairs, dnaKey: string): (r: Result<(seq<BondInfo>, Option<Vec3>)>)
    ensures r.Ok? <==> PairBonds(residue, t, common).Ok? && LinkAndOwnBonds(residue, t, previous, own, dnaKey).Ok?
    ensures r.Ok? ==> r.value.1 == TerminalAfter(residue, t, previous, dnaKey)
  {
    match PairBonds(residue, t, common)
    case Fatal(m) => Fatal(m)
    case Ok(commonBonds) =>
      match LinkAndOwnBonds(residue, t, previous, own, dnaKey)
      case Fatal(m) => Fatal(m)
      case Ok((rest, terminal)) => Ok((commonBonds + rest, terminal))
  }

  /** Appending in two steps is appending the two parts at once. */
  lemma AppendAssoc<T>(a: seq<T>, b: seq<T>, c: seq<T>)
    ensures (a + b) + c == a + (b + c)
  {
  }

  /** `LinkAndOwnBonds` in terms of its two parts: found exactly when both
      are, and then the link followed by the `own` bonds, with the new
      terminal atom. */
  lemma LinkAndOwnBondsValue(residue: ResidueSpec, t: ResidueType, previous: Option<Vec3>, own: NamePairs, dnaKey: string)
    ensures var r := LinkAndOwnBonds(residue, t, previous, own, dnaKey);
      var link := LinkBond(residue, t, previous);
      var pairs := PairBonds(residue, t, own);
      && (r.Ok? <==> link.Ok? && pairs.Ok?)
      && (r.Ok? ==> r.value == (link.value + pairs.value, TerminalAfter(residue, t, previous, dnaKey)))
  {
  }

  /** How a found `BondsFrom` is made up: the `common` bonds, then the link and the `own` bonds. */
  lemma BondsFromValue(residue: ResidueSpec, t: ResidueType, previous: Option<Vec3>,
                       common: NamePairs, own: NamePairs, dnaKey: string)
    requires BondsFrom(residue, t, previous, common, own, dnaKey).Ok?
    ensures BondsFrom(residue, t, previous, common, own, dnaKey).value.0
            == PairBonds(residue, t, common).value + LinkAndOwnBonds(residue, t, previous, own, dnaKey).value.0
  {
  }

  /** The bonds of a residue of type `t`, from its family's and its own tables. */
  function BondsForWith(residue: ResidueSpec, t: ResidueType, previous: Option<Vec3>, dnaKey: string): Result<(seq<BondInfo>, Option<Vec3>)> {
    BondsFrom(residue, t, previous, CommonPairs(t), SpecificPairs(t), dnaKey)
  }

  function BondsFor(residue: ResidueSpec, t: ResidueType, previous: Option<Vec3>): Result<(seq<BondInfo>, Option<Vec3>)> {
    BondsForWith(residue, t, previous, DnaTerminalKey)
  }

  /** The bonds of a residue are found exactly when both tables name only
      atoms that are present and, when there is a previous terminal atom, the
      link target is present; there is one bond per table pair plus the link. */
  lemma BondsForShape(residue: ResidueSpec, t: ResidueType, previous: Option<Vec3>)
    ensures var linked := LinkTarget(t).Some? && previous.Some?;
      && (BondsFor(residue, t, previous).Ok? <==>
           AllNamed(residue, CommonPairs(t)) && AllNamed(residue, SpecificPairs(t))
           && (linked ==> LinkTarget(t).value in residue))
      && (BondsFor(residue, t, previous).Ok? ==>
           |BondsFor(residue, t, previous).value.0| == |CommonPairs(t)| + |SpecificPairs(t)| + (if linked then 1 else 0))
  {
    PairBondsFound(residue, t, CommonPairs(t));
    PairBondsFound(residue, t, SpecificPairs(t));
  }

  /** Unknown residues and water have no bonds and leave the chain as it was. */
  lemma NoBondsForUnknownOrWater(residue: ResidueSpec, t: ResidueType, previous: Option<Vec3>)
    requires t == UnknownResidue || t == Water
    ensures BondsFor(residue, t, previous) == Ok(([], previous))
  {
    assert CommonPairs(t) == [] && SpecificPairs(t) == [];
    var none := PairBonds(residue, t, []);
    assert none == Ok([]);
    assert LinkBond(residue, t, previous) == Ok([]);
    var r := BondsFrom(residue, t, previous, [], [], DnaTerminalKey);
    assert r.value.0 == none.value + [] + none.value;
    assert r.value.0 == [] && r.value.1 == previous;
    assert BondsForWith(residue, t, previous, DnaTerminalKey) == r;
  }

  /** Every table starts with an atom name of at most three letters. */
  lemma FirstNameShort(t: ResidueType)
    requires t != UnknownResidue && t != Water
    ensures |CommonPairs(t)[0].0| <= 3
  {
  }

  /** Keys taken with their padding (as written, every key has four
      characters) never match the table's names, so emitting the bonds of any
      residue of a known type traps. */
  lemma UntrimmedNamesFatalAsWritten(residue: ResidueSpec, t: ResidueType, previous: Option<Vec3>, dnaKey: string)
    requires forall k :: k in residue ==> |k| == 4
    requires t != UnknownResidue && t != Water
    ensures BondsForWith(residue, t, previous, dnaKey).Fatal?
  {
    FirstNameShort(t);
    PairBondsFound(residue, t, CommonPairs(t));
    assert CommonPairs(t)[0].0 !in residue;
  }

  // ---------------------------------------------------------------------
  // The reader's state and its steps

  datatype ReaderState = ReaderState(
    atoms: seq<AtomInfo>,
    bonds: seq<BondInfo>,
    residueNum: int,
    residue: Option<ResidueSpec>,
    residueType: ResidueType,
    atomCoordinates: Option<map<string, Vec3>>,
    previousTerminal: Option<Vec3>)

  const InitialState := ReaderState([], [], -1, None, UnknownResidue, None, None)

  /** Emit the bonds of the open residue, if there is one. */
  function Flush(s: ReaderState): (r: Result<ReaderState>)
    ensures s.residue.None? ==> r == Ok(s)
    ensures s.residue.Some? ==> (r.Ok? <==> BondsFor(s.residue.value, s.residueType, s.previousTerminal).Ok?)
    ensures s.residue.Some? && r.Ok? ==>
      var (bonds, terminal) := BondsFor(s.residue.value, s.residueType, s.previousTerminal).value;
      r.value == s.(bonds := s.bonds + bonds, previousTerminal := terminal)
  {
    if s.residue.None? then Ok(s)
    else match BondsFor(s.residue.value, s.residueType, s.previousTerminal)
      case Fatal(m) => Fatal(m)
      case Ok((bonds, terminal)) => Ok(s.(bonds := s.bonds + bonds, previousTerminal := terminal))
  }

  /** The position keyed by the untrimmed serial number in columns 6-10. */
  function WithCoordinates(coords: Option<map<string, Vec3>>, serial: string, pos: Vec3): (r: Option<map<string, Vec3>>)
    ensures r.Some? && serial in r.value && r.value[serial] == pos
    ensures coords.Some? ==> r.value == coords.value[serial := pos]
  {
    Some((if coords.None? then map[] else coords.value)[serial := pos])
  }

  /** The abbreviation `_parseAtom` checks before storing the atom, as
      written: it is only read from the line when a new residue starts, and
      is otherwise still empty, so the check that it is not empty traps on
      the second atom of every residue. */
  function CheckedAbbreviationAsWritten(startsResidue: bool, line: string): (a: string)
    requires |line| >= AtomRecordLength
    ensures !startsResidue ==> a == ""
  {
    if startsResidue then ResidueName(line) else ""
  }

  /** The start of `_parseAtom`: a residue number that differs from the
      current one (or is not a number) first emits the open residue's bonds,
      then opens an empty residue typed by the line's residue name. */
  function OpenResidue(s: ReaderState, f: AtomFields, parseInt: string -> Option<int>): (r: Result<ReaderState>)
  {
    var num := parseInt(f.residueSeq);
    if num == Some(s.residueNum) then Ok(s)
    else match Flush(s)
      case Fatal(m) => Fatal(m)
      case Ok(fl) =>
        if num.None? then Fatal(MissingAtom)
        else Ok(fl.(residue := Some(map[]), residueNum := num.value, residueType := ResidueOrUnknown(f.residueName)))
  }

  /** The rest of `_parseAtom`: the record's own residue name must be
      present; the atom's position is stored in the open residue under its
      name and in the coordinates under its serial number, and one atom is
      appended. */
  function StoreAtom(s: ReaderState, f: AtomFields, pos: Vec3): (r: Result<ReaderState>)
  {
    if s.residue.None? then Fatal(MissingAtom)
    else if f.residueName == "" then Fatal("Unknown residue type")
    else Ok(s.(
      residue := Some(s.residue.value[f.name := pos]),
      atomCoordinates := WithCoordinates(s.atomCoordinates, f.serial, pos),
      atoms := s.atoms + [AtomInfo(f.element, pos, StructureNum, s.residueType)]))
  }

  /** `_parseAtom`. */
  function AtomStep(s: ReaderState, line: string, parseInt: string -> Option<int>, parseFloat: string -> Option<real>): (r: Result<ReaderState>)
    ensures r.Ok? ==> |line| >= AtomRecordLength && ParseAtomPosition(line, parseFloat).Ok?
  {
    if |line| < AtomRecordLength then Fatal("String index is out of bounds")
    else
      var f := FieldsOf(line);
      match OpenResidue(s, f, parseInt)
      case Fatal(m) => Fatal(m)
      case Ok(s1) =>
        match ParseAtomPosition(line, parseFloat)
        case Fatal(m) => Fatal(m)
        case Ok(pos) => StoreAtom(s1, f, pos)
  }

  /** An accepted ATOM record appends exactly one atom, of the line's element
      and position and the residue's type. A new residue number first emits
      the bonds of the open residue and opens a residue holding just this
      atom, typed by the line's residue name; a continuing one adds the atom
      to the open residue and emits nothing. */
  lemma AtomStepShape(s: ReaderState, line: string, parseInt: string -> Option<int>, parseFloat: string -> Option<real>)
    requires AtomStep(s, line, parseInt, parseFloat).Ok?
    ensures var r := AtomStep(s, line, parseInt, parseFloat).value;
      var pos := ParseAtomPosition(line, parseFloat).value;
      var num := parseInt(line[22..26]);
      && r.atoms == s.atoms + [AtomInfo(ElementOf(line), pos, StructureNum, r.residueType)]
      && r.atomCoordinates.Some? && r.atomCoordinates.value[line[6..11]] == pos
      && ResidueName(line) != ""
      && (num != Some(s.residueNum) ==>
           && num.Some? && r.residueNum == num.value
           && r.residueType == ResidueOrUnknown(ResidueName(line))
           && r.residue == Some(map[AtomName(line) := pos])
           && Flush(s).Ok? && r.bonds == Flush(s).value.bonds
           && r.previousTerminal == Flush(s).value.previousTerminal)
      && (num == Some(s.residueNum) ==>
           && s.residue.Some? && r.residueNum == s.residueNum && r.residueType == s.residueType
           && r.residue == Some(s.residue.value[AtomName(line) := pos])
           && r.bonds == s.bonds && r.previousTerminal == s.previousTerminal)
  {
    var f := FieldsOf(line);
    var s1 := OpenResidue(s, f, parseInt).value;
    var pos := ParseAtomPosition(line, parseFloat).value;
    assert AtomStep(s, line, parseInt, parseFloat) == StoreAtom(s1, f, pos);
    OpenResidueShape(s, f, parseInt);
    StoreAtomShape(s1, f, pos);
  }

  /** A new residue number emits the open residue's bonds and opens an empty
      residue typed by the record's residue name; the same number changes
      nothing. */
  lemma OpenResidueShape(s: ReaderState, f: AtomFields, parseInt: string -> Option<int>)
    requires OpenResidue(s, f, parseInt).Ok?
    ensures var r := OpenResidue(s, f, parseInt).value;
      var num := parseInt(f.residueSeq);
      && r.atoms == s.atoms && r.atomCoordinates == s.atomCoordinates
      && (num == Some(s.residueNum) ==> r == s)
      && (num != Some(s.residueNum) ==>
           && num.Some? && r.residueNum == num.value
           && r.residueType == ResidueOrUnknown(f.residueName)
           && r.residue == Some(map[])
           && Flush(s).Ok? && r.bonds == Flush(s).value.bonds
           && r.previousTerminal == Flush(s).value.previousTerminal)
  {
  }

  /** Storing an atom adds it to the open residue under its name, records its
      position under its serial number and appends it, typed by the
      residue. */
  lemma StoreAtomShape(s: ReaderState, f: AtomFields, pos: Vec3)
    requires StoreAtom(s, f, pos).Ok?
    ensures var r := StoreAtom(s, f, pos).value;
      && s.residue.Some? && f.residueName != ""
      && r.atoms == s.atoms + [AtomInfo(f.element, pos, StructureNum, s.residueType)]
      && r.atomCoordinates.Some? && r.atomCoordinates.value[f.serial] == pos
      && r.residue == Some(s.residue.value[f.name := pos])
      && r.residueNum == s.residueNum && r.residueType == s.residueType
      && r.bonds == s.bonds && r.previousTerminal == s.previousTerminal
  {
  }

  /** The start of `_parseHetAtm`: the open residue's bonds are emitted
      and its type forgotten, though the residue itself stays open. */
  function CloseResidue(s: ReaderState): (r: Result<ReaderState>)
  {
    if s.residue.None? then Ok(s)
    else match Flush(s)
      case Fatal(m) => Fatal(m)
      case Ok(f) => Ok(f.(residueType := UnknownResidue))
  }

  /** The rest of `_parseHetAtm`: the chain is broken and one atom is
      appended, which is water exactly when the residue name is HOH. */
  function StoreHetAtom(s: ReaderState, f: AtomFields, pos: Vec3): (r: ReaderState)
  {
    var residueType := if f.residueName == "HOH" then Water else UnknownResidue;
    s.(previousTerminal := None,
       atomCoordinates := WithCoordinates(s.atomCoordinates, f.serial, pos),
       atoms := s.atoms + [AtomInfo(f.element, pos, StructureNum, residueType)])
  }

  /** `_parseHetAtm`. */
  function HetAtmStep(s: ReaderState, line: string, parseFloat: string -> Option<real>): (r: Result<ReaderState>)
    ensures r.Ok? ==> |line| >= AtomRecordLength && ParseAtomPosition(line, parseFloat).Ok?
  {
    if |line| < AtomRecordLength then Fatal("String index is out of bounds")
    else
      match CloseResidue(s)
      case Fatal(m) => Fatal(m)
      case Ok(s1) =>
        match ParseAtomPosition(line, parseFloat)
        case Fatal(m) => Fatal(m)
        case Ok(pos) => Ok(StoreHetAtom(s1, FieldsOf(line), pos))
  }

  /** An accepted HETATM record breaks the chain, appends exactly one atom,
      which is water exactly when the residue name is HOH, and forgets the
      open residue's type after emitting its bonds. */
  lemma HetAtmStepShape(s: ReaderState, line: string, parseFloat: string -> Option<real>)
    requires HetAtmStep(s, line, parseFloat).Ok?
    ensures var r := HetAtmStep(s, line, parseFloat).value;
      var pos := ParseAtomPosition(line, parseFloat).value;
      && r.previousTerminal.None?
      && |r.atoms| == |s.atoms| + 1 && r.atoms[..|s.atoms|] == s.atoms
      && r.atoms[|s.atoms|].element == ElementOf(line) && r.atoms[|s.atoms|].position == pos
      && (r.atoms[|s.atoms|].residueType == Water <==> ResidueName(line) == "HOH")
      && r.atoms[|s.atoms|].residueType in {Water, UnknownResidue}
      && r.residue == s.residue && r.residueNum == s.residueNum
      && r.residueType == (if s.residue.Some? then UnknownResidue else s.residueType)
      && r.bonds == Flush(s).value.bonds
      && r.atomCoordinates.Some? && r.atomCoordinates.value[line[6..11]] == pos
  {
    var s1 := CloseResidue(s).value;
    var pos := ParseAtomPosition(line, parseFloat).value;
    var f := FieldsOf(line);
    var r := StoreHetAtom(s1, f, pos);
    assert HetAtmStep(s, line, parseFloat) == Ok(r);
    CloseResidueShape(s);
    StoreHetAtomShape(s1, f, pos);
  }

  /** Closing emits the open residue's bonds and forgets its type, and
      touches nothing else. */
  lemma CloseResidueShape(s: ReaderState)
    requires CloseResidue(s).Ok?
    ensures var r := CloseResidue(s).value;
      && r.atoms == s.atoms && r.atomCoordinates == s.atomCoordinates
      && r.residue == s.residue && r.residueNum == s.residueNum
      && r.residueType == (if s.residue.Some? then UnknownResidue else s.residueType)
      && Flush(s).Ok? && r.bonds == Flush(s).value.bonds
  {
  }

  /** Storing a het atom appends exactly one atom, of the record's element
      and position, and water exactly when the residue name is HOH. */
  lemma StoreHetAtomShape(s: ReaderState, f: AtomFields, pos: Vec3)
    ensures var r := StoreHetAtom(s, f, pos);
      && r.previousTerminal.None?
      && |r.atoms| == |s.atoms| + 1 && r.atoms[..|s.atoms|] == s.atoms
      && r.atoms[|s.atoms|].element == f.element && r.atoms[|s.atoms|].position == pos
      && (r.atoms[|s.atoms|].residueType == Water <==> f.residueName == "HOH")
      && r.atoms[|s.atoms|].residueType in {Water, UnknownResidue}
      && r.residue == s.residue && r.residueNum == s.residueNum && r.residueType == s.residueType
      && r.bonds == s.bonds
      && r.atomCoordinates.Some? && r.atomCoordinates.value[f.serial] == pos
  {
    var r := StoreHetAtom(s, f, pos);
    assert r.atoms[..|s.atoms|] == s.atoms;
  }

  /** `_parseLine`: whether reading goes on, and the new state. ATOM and
      HETATM records are read, TER and unrecognised records are skipped, and
      END stops. */
  function LineStep(s: ReaderState, line: string, parseInt: string -> Option<int>, parseFloat: string -> Option<real>): (r: Result<(bool, ReaderState)>)
    ensures r.Ok? && !r.value.0 ==> RecordOf(line) == Ok(EndRecord)
  {
    match RecordOf(line)
    case Fatal(m) => Fatal(m)
    case Ok(AtomRecord) =>
      (match AtomStep(s, line, parseInt, parseFloat)
       case Fatal(m) => Fatal(m)
       case Ok(s1) => Ok((true, s1)))
    case Ok(HetAtmRecord) =>
      (match HetAtmStep(s, line, parseFloat)
       case Fatal(m) => Fatal(m)
       case Ok(s1) => Ok((true, s1)))
    case Ok(TerRecord) => Ok((true, s))
    case Ok(EndRecord) => Ok((false, s))
    case Ok(OtherRecord) => Ok((true, s))
  }

  /** Only END stops the reading; it and the records that are skipped leave
      the state as it was, and a line too short for a record name traps. */
  lemma LineStepDispatch(s: ReaderState, line: string, parseInt: string -> Option<int>, parseFloat: string -> Option<real>)
    ensures RecordOf(line).Fatal? ==> LineStep(s, line, parseInt, parseFloat).Fatal?
    ensures RecordOf(line) == Ok(EndRecord) ==> LineStep(s, line, parseInt, parseFloat) == Ok((false, s))
    ensures RecordOf(line) == Ok(TerRecord) || RecordOf(line) == Ok(OtherRecord) ==>
      LineStep(s, line, parseInt, parseFloat) == Ok((true, s))
    ensures RecordOf(line) == Ok(AtomRecord) ==>
      LineStep(s, line, parseInt, parseFloat).Ok? == AtomStep(s, line, parseInt, parseFloat).Ok?
    ensures RecordOf(line) == Ok(HetAtmRecord) ==>
      LineStep(s, line, parseInt, parseFloat).Ok? == HetAtmStep(s, line, parseFloat).Ok?
  {
    match RecordOf(line)
    case Fatal(_) =>
    case Ok(record) =>
      if record == AtomRecord {
        assert LineStep(s, line, parseInt, parseFloat).Ok? == AtomStep(s, line, parseInt, parseFloat).Ok?;
      } else if record == HetAtmRecord {
        assert LineStep(s, line, parseInt, parseFloat).Ok? == HetAtmStep(s, line, parseFloat).Ok?;
      }
  }

  /** What one line does to a reader: trap, or a new state and whether to
      read on. */
  type LineReader = (ReaderState, string) -> Result<(bool, ReaderState)>

  /** The line step `_parseLine` takes with the given number parsers. */
  function PdbLines(parseInt: string -> Option<int>, parseFloat: string -> Option<real>): LineReader {
    (s: ReaderState, line: string) => LineStep(s, line, parseInt, parseFloat)
  }

  /** The `while` loop of `readPDBFile`: lines are read until a step says
      stop; running out of lines first traps. */
  function ReadWith(step: LineReader, s: ReaderState, lines: seq<string>): (r: Result<ReaderState>)
    ensures lines == [] ==> r.Fatal?
    decreases |lines|
  {
    if lines == [] then Fatal("Premature end of file; END is missing")
    else
      match step(s, lines[0])
      case Fatal(m) => Fatal(m)
      case Ok((more, s1)) => if !more then Ok(s1) else ReadWith(step, s1, lines[1..])
  }

  /** A read succeeds only if some line, in the state reached there, said stop. */
  lemma {:induction false} ReadWithStops(step: LineReader, s: ReaderState, lines: seq<string>)
    requires ReadWith(step, s, lines).Ok?
    ensures exists i, st :: 0 <= i < |lines| && step(st, lines[i]).Ok? && !step(st, lines[i]).value.0
    decreases |lines|
  {
    var first := step(s, lines[0]);
    if first.value.0 {
      ReadWithStops(step, first.value.1, lines[1..]);
      var i, st :| 0 <= i < |lines[1..]| && step(st, lines[1..][i]).Ok? && !step(st, lines[1..][i]).value.0;
      assert lines[1..][i] == lines[i + 1];
    } else {
      assert step(s, lines[0]).Ok? && !step(s, lines[0]).value.0;
    }
  }

  /** Once a prefix reads to its stop, lines after it change nothing. */
  lemma {:induction false} ReadWithIgnoresRest(step: LineReader, s: ReaderState, pre: seq<string>, rest: seq<string>)
    requires ReadWith(step, s, pre).Ok?
    ensures ReadWith(step, s, pre + rest) == ReadWith(step, s, pre)
    decreases |pre|
  {
    assert (pre + rest)[0] == pre[0];
    var first := step(s, pre[0]);
    if first.value.0 {
      assert (pre + rest)[1..] == pre[1..] + rest;
      ReadWithIgnoresRest(step, first.value.1, pre[1..], rest);
    }
  }

  /** `readPDBFile` on the file's lines. */
  function ReadLines(s: ReaderState, lines: seq<string>, parseInt: string -> Option<int>, parseFloat: string -> Option<real>): (r: Result<ReaderState>)
    ensures lines == [] ==> r.Fatal?
  {
    ReadWith(PdbLines(parseInt, parseFloat), s, lines)
  }

  /** A file is read only if it has an END record. */
  lemma ReadNeedsEnd(s: ReaderState, lines: seq<string>, parseInt: string -> Option<int>, parseFloat: string -> Option<real>)
    requires ReadLines(s, lines, parseInt, parseFloat).Ok?
    ensures exists i :: 0 <= i < |lines| && RecordOf(lines[i]) == Ok(EndRecord)
  {
    var step := PdbLines(parseInt, parseFloat);
    ReadWithStops(step, s, lines);
    var i, st :| 0 <= i < |lines| && step(st, lines[i]).Ok? && !step(st, lines[i]).value.0;
    assert LineStep(st, lines[i], parseInt, parseFloat) == step(st, lines[i]);
  }

  /** Nothing after the END record is read. */
  lemma ReadIgnoresRest(s: ReaderState, pre: seq<string>, rest: seq<string>,
                        parseInt: string -> Option<int>, parseFloat: string -> Option<real>)
    requires ReadLines(s, pre, parseInt, parseFloat).Ok?
    ensures ReadLines(s, pre + rest, parseInt, parseFloat) == ReadLines(s, pre, parseInt, parseFloat)
  {
    ReadWithIgnoresRest(PdbLines(parseInt, parseFloat), s, pre, rest);
  }

  /** A file whose first record is END gives the state it started in. */
  lemma EndFirst(s: ReaderState, lines: seq<string>, parseInt: string -> Option<int>, parseFloat: string -> Option<real>)
    requires lines != [] && RecordOf(lines[0]) == Ok(EndRecord)
    ensures ReadLines(s, lines, parseInt, parseFloat) == Ok(s)
  {
    var step := PdbLines(parseInt, parseFloat);
    LineStepDispatch(s, lines[0], parseInt, parseFloat);
    assert step(s, lines[0]) == Ok((false, s));
    assert ReadWith(step, s, lines) == Ok(s);
  }

  // ---------------------------------------------------------------------
  // The reader

  class PDBReader {
    const molSpec: MoleculeSpec
    var currentResidueNum: int
    var currentResidue: Option<ResidueSpec>
    var currentResidueType: ResidueType
    var atomCoordinates: Option<map<string, Vec3>>
    var previousTerminalAtomPos: Option<Vec3>

    ghost function State(): ReaderState
      reads this, molSpec
    {
      ReaderState(molSpec.atomInfos, molSpec.bondInfos, currentResidueNum, currentResidue,
                  currentResidueType, atomCoordinates, previousTerminalAtomPos)
    }

    constructor ()
      ensures fresh(molSpec) && State() == InitialState
    {
      molSpec := new MoleculeSpec();
      currentResidueNum := -1;
      currentResidue := None;
      currentResidueType := UnknownResidue;
      atomCoordinates := None;
      previousTerminalAtomPos := None;
    }

    /** `_createBondInfo`: append the bond between two named atoms. */
    method CreateBondInfo(residue: ResidueSpec, t: ResidueType, pair: (string, string)) returns (status: Status)
      modifies molSpec`bondInfos
      ensures status.Completed? <==> BondOf(residue, t, pair).Ok?
      ensures status.Completed? ==> molSpec.bondInfos == old(molSpec.bondInfos) + [BondOf(residue, t, pair).value]
    {
      if pair.0 !in residue || pair.1 !in residue {
        return Stopped(MissingAtom);
      }
      molSpec.bondInfos := molSpec.bondInfos + [BondInfo(residue[pair.0], residue[pair.1], SingleBond, StructureNum, t)];
      status := Completed;
    }

    /** The run of `_createBondInfo` calls of one table. */
    method CreatePairBonds(residue: ResidueSpec, t: ResidueType, pairs: NamePairs) returns (status: Status)
      modifies molSpec`bondInfos
      ensures status.Completed? <==> PairBonds(residue, t, pairs).Ok?
      ensures status.Completed? ==> molSpec.bondInfos == old(molSpec.bondInfos) + PairBonds(residue, t, pairs).value
    {
      var i := 0;
      while i < |pairs|
        invariant 0 <= i <= |pairs|
        invariant PairBonds(residue, t, pairs[..i]).Ok?
        invariant molSpec.bondInfos == old(molSpec.bondInfos) + PairBonds(residue, t, pairs[..i]).value
      {
        assert pairs[..i + 1][..i] == pairs[..i];
        status := CreateBondInfo(residue, t, pairs[i]);
        if status.Stopped? {
          PairBondsFatalStays(residue, t, pairs, i);
          return;
        }
        i := i + 1;
      }
      assert pairs[..i] == pairs;
      status := Completed;
    }

    /** The link from the previous residue's terminal atom. */
    method CreateLinkBond(t: ResidueType, residue: ResidueSpec) returns (status: Status)
      modifies molSpec`bondInfos
      ensures var r := LinkBond(residue, t, previousTerminalAtomPos);
        && (status.Completed? <==> r.Ok?)
        && (status.Completed? ==> molSpec.bondInfos == old(molSpec.bondInfos) + r.value)
    {
      status := Completed;
      if LinkTarget(t).Some? && previousTerminalAtomPos.Some? {
        var target := LinkTarget(t).value;
        if target !in residue {
          return Stopped(MissingAtom);
        }
        molSpec.bondInfos := molSpec.bondInfos + [BondInfo(previousTerminalAtomPos.value, residue[target], SingleBond, StructureNum, t)];
      }
    }

    /** The link and the `own` bonds, and the new terminal atom. */
    method CreateLinkAndOwnBonds(t: ResidueType, residue: ResidueSpec, own: NamePairs) returns (status: Status)
      modifies molSpec`bondInfos, this`previousTerminalAtomPos
      ensures status.Completed? <==> LinkAndOwnBonds(residue, t, old(previousTerminalAtomPos), own, DnaTerminalKey).Ok?
      ensures status.Completed? ==> molSpec.bondInfos == old(molSpec.bondInfos) + LinkAndOwnBonds(residue, t, old(previousTerminalAtomPos), own, DnaTerminalKey).value.0
      ensures status.Completed? ==> previousTerminalAtomPos == TerminalAfter(residue, t, old(previousTerminalAtomPos), DnaTerminalKey)
    {
      ghost var bonds0 := molSpec.bondInfos;
      ghost var previous := previousTerminalAtomPos;
      ghost var link := LinkBond(residue, t, previous);
      ghost var pairs := PairBonds(residue, t, own);
      LinkAndOwnBondsValue(residue, t, previous, own, DnaTerminalKey);
      status := CreateLinkBond(t, residue);
      if status.Completed? {
        previousTerminalAtomPos := TerminalAfter(residue, t, previousTerminalAtomPos, DnaTerminalKey);
        status := CreatePairBonds(residue, t, own);
        if status.Completed? {
          AppendAssoc(bonds0, link.value, pairs.value);
        }
      }
    }

    /** `_createBondsForResidue`, over the two tables of the residue type. */
    method CreateBondsFrom(t: ResidueType, residue: ResidueSpec, common: NamePairs, own: NamePairs) returns (status: Status)
      modifies molSpec`bondInfos, this`previousTerminalAtomPos
      ensures status.Completed? <==> BondsFrom(residue, t, old(previousTerminalAtomPos), common, own, DnaTerminalKey).Ok?
      ensures status.Completed? ==> molSpec.bondInfos == old(molSpec.bondInfos) + BondsFrom(residue, t, old(previousTerminalAtomPos), common, own, DnaTerminalKey).value.0
      ensures status.Completed? ==> previousTerminalAtomPos == TerminalAfter(residue, t, old(previousTerminalAtomPos), DnaTerminalKey)
    {
      ghost var bonds0 := molSpec.bondInfos;
      ghost var previous := previousTerminalAtomPos;
      ghost var rest := LinkAndOwnBonds(residue, t, previous, own, DnaTerminalKey);
      status := CreatePairBonds(residue, t, common);
      if status.Completed? {
        ghost var commonBonds := PairBonds(residue, t, common).value;
        status := CreateLinkAndOwnBonds(t, residue, own);
        if status.Completed? {
          BondsFromValue(residue, t, previous, common, own, DnaTerminalKey);
          AppendAssoc(bonds0, commonBonds, rest.value.0);
        }
      }
    }

    /** `_createBondsForResidue`. */
    method CreateBondsForResidue(t: ResidueType, residue: ResidueSpec) returns (status: Status)
      modifies molSpec`bondInfos, this`previousTerminalAtomPos
      ensures var r := BondsFor(residue, t, old(previousTerminalAtomPos));
        && (status.Completed? <==> r.Ok?)
        && (status.Completed? ==>
             molSpec.bondInfos == old(molSpec.bondInfos) + r.value.0 && previousTerminalAtomPos == r.value.1)
    {
      status := CreateBondsFrom(t, residue, CommonPairs(t), SpecificPairs(t));
    }

    /** Emit the open residue's bonds, if a residue is open. */
    method FlushResidue() returns (status: Status)
      modifies molSpec`bondInfos, this`previousTerminalAtomPos
      ensures status.Completed? <==> Flush(old(State())).Ok?
      ensures status.Completed? ==> State() == Flush(old(State())).value
    {
      status := Completed;
      if currentResidue.Some? {
        status := CreateBondsForResidue(currentResidueType, currentResidue.value);
      }
    }

    /** The start of `_parseAtom`. */
    method OpenAtomResidue(f: AtomFields, parseInt: string -> Option<int>) returns (status: Status)
      modifies this`currentResidue, this`currentResidueNum, this`currentResidueType,
        this`previousTerminalAtomPos, molSpec`bondInfos
      ensures status.Completed? <==> OpenResidue(old(State()), f, parseInt).Ok?
      ensures status.Completed? ==> State() == OpenResidue(old(State()), f, parseInt).value
    {
      var num := parseInt(f.residueSeq);
      status := Completed;
      if num != Some(currentResidueNum) {
        status := FlushResidue();
        if status.Stopped? {
          return;
        }
        if num.None? {
          return Stopped(MissingAtom);
        }
        currentResidue := Some(map[]);
        currentResidueNum := num.value;
        currentResidueType := ResidueOrUnknown(f.residueName);
      }
    }

    /** The rest of `_parseAtom`. */
    method StoreAtomAt(f: AtomFields, pos: Vec3) returns (status: Status)
      modifies this`currentResidue, this`atomCoordinates, molSpec`atomInfos
      ensures status.Completed? <==> StoreAtom(old(State()), f, pos).Ok?
      ensures status.Completed? ==> State() == StoreAtom(old(State()), f, pos).value
    {
      if currentResidue.None? {
        status := Stopped(MissingAtom);
      } else if f.residueName == "" {
        status := Stopped("Unknown residue type");
      } else {
        currentResidue := Some(currentResidue.value[f.name := pos]);
        atomCoordinates := WithCoordinates(atomCoordinates, f.serial, pos);
        molSpec.atomInfos := molSpec.atomInfos + [AtomInfo(f.element, pos, StructureNum, currentResidueType)];
        status := Completed;
      }
    }

    /** `_parseAtom`. */
    method ParseAtom(line: string, parseInt: string -> Option<int>, parseFloat: string -> Option<real>) returns (status: Status)
      modifies this, molSpec
      ensures status.Completed? <==> AtomStep(old(State()), line, parseInt, parseFloat).Ok?
      ensures status.Completed? ==> State() == AtomStep(old(State()), line, parseInt, parseFloat).value
    {
      if |line| < AtomRecordLength {
        return Stopped("String index is out of bounds");
      }
      var f := FieldsOf(line);
      status := OpenAtomResidue(f, parseInt);
      if status.Stopped? {
        return;
      }
      var pos := ParseAtomPosition(line, parseFloat);
      if pos.Fatal? {
        return Stopped(pos.message);
      }
      status := StoreAtomAt(f, pos.value);
    }

    /** The start of `_parseHetAtm`. */
    method CloseOpenResidue() returns (status: Status)
      modifies this`currentResidueType, this`previousTerminalAtomPos, molSpec`bondInfos
      ensures status.Completed? <==> CloseResidue(old(State())).Ok?
      ensures status.Completed? ==> State() == CloseResidue(old(State())).value
    {
      status := Completed;
      if currentResidue.Some? {
        status := FlushResidue();
        if status.Stopped? {
          return;
        }
        currentResidueType := UnknownResidue;
      }
    }

    /** The rest of `_parseHetAtm`. */
    method StoreHetAtomAt(f: AtomFields, pos: Vec3)
      modifies this`previousTerminalAtomPos, this`atomCoordinates, molSpec`atomInfos
      ensures State() == StoreHetAtom(old(State()), f, pos)
    {
      previousTerminalAtomPos := None;
      atomCoordinates := WithCoordinates(atomCoordinates, f.serial, pos);
      var residueType := if f.residueName == "HOH" then Water else UnknownResidue;
      molSpec.atomInfos := molSpec.atomInfos + [AtomInfo(f.element, pos, StructureNum, residueType)];
    }

    /** `_parseHetAtm`. */
    method ParseHetAtm(line: string, parseFloat: string -> Option<real>) returns (status: Status)
      modifies this, molSpec
      ensures status.Completed? <==> HetAtmStep(old(State()), line, parseFloat).Ok?
      ensures status.Completed? ==> State() == HetAtmStep(old(State()), line, parseFloat).value
    {
      if |line| < AtomRecordLength {
        return Stopped("String index is out of bounds");
      }
      status := CloseOpenResidue();
      if status.Stopped? {
        return;
      }
      var pos := ParseAtomPosition(line, parseFloat);
      if pos.Fatal? {
        return Stopped(pos.message);
      }
      StoreHetAtomAt(FieldsOf(line), pos.value);
    }

    /** `_parseLine`: `more` is false at the END record. */
    method ParseLine(line: string, parseInt: string -> Option<int>, parseFloat: string -> Option<real>) returns (status: Status, more: bool)
      modifies this, molSpec
      ensures status.Completed? <==> LineStep(old(State()), line, parseInt, parseFloat).Ok?
      ensures status.Completed? ==> (more, State()) == LineStep(old(State()), line, parseInt, parseFloat).value
    {
      var record := RecordOf(line);
      if record.Fatal? {
        return Stopped(record.message), false;
      }
      more := true;
      status := Completed;
      match record.value {
        case AtomRecord => status := ParseAtom(line, parseInt, parseFloat);
        case HetAtmRecord => status := ParseHetAtm(line, parseFloat);
        case TerRecord =>
        case EndRecord => more := false;
        case OtherRecord =>
      }
    }

    /** `readPDBFile`, on the file's lines: the molecule read up to END. */
    method ReadPDBFile(lines: seq<string>, parseInt: string -> Option<int>, parseFloat: string -> Option<real>) returns (status: Status, spec: MoleculeSpec)
      modifies this, molSpec
      ensures spec == molSpec
      ensures status.Completed? <==> ReadLines(old(State()), lines, parseInt, parseFloat).Ok?
      ensures status.Completed? ==> State() == ReadLines(old(State()), lines, parseInt, parseFloat).value
    {
      spec := molSpec;
      var i := 0;
      while i < |lines|
        invariant 0 <= i <= |lines|
        invariant ReadLines(State(), lines[i..], parseInt, parseFloat) == ReadLines(old(State()), lines, parseInt, parseFloat)
      {
        ghost var before := State();
        assert lines[i..][0] == lines[i] && lines[i..][1..] == lines[i + 1..];
        var more;
        status, more := ParseLine(lines[i], parseInt, parseFloat);
        if status.Stopped? || !more {
          return;
        }
        i := i + 1;
      }
      status := Stopped("Premature end of file; END is missing");
    }
  }

  /** Once a table's bonds trap at a pair, the whole table's do. */
  lemma {:induction false} PairBondsFatalStays(residue: ResidueSpec, t: ResidueType, pairs: NamePairs, i: nat)
    requires i < |pairs| && BondOf(residue, t, pairs[i]).Fatal?
    ensures PairBonds(residue, t, pairs).Fatal?
  {
    PairBondsFound(residue, t, pairs);
  }
}
