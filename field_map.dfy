/** The field map of the BUEGB ECM family's real-time data packet: an
    ordered list of named fields, each read from `size` bytes at `offset` and
    converted by `raw * scale + translate`. Several names may share an offset
    (a raw view and a scaled view of the same bytes); no two entries share a
    name, since the map is a dict keyed by name. */
module FieldMap {

  /** One entry `name: (offset, size, scale, translate)` of the map. */
  datatype FieldSpec = FieldSpec(name: string, offset: nat, size: nat, scale: real, translate: real)

  /** Length of a complete real-time packet. */
  const ReferencePacketLength: nat := 107

  /** The number of bytes Python's slice `raw[lo:hi]` yields from `len`
      bytes, for non-negative bounds: the slice is clamped to the end. */
  function SliceLength(len: nat, lo: nat, hi: nat): nat {
    if hi <= lo || len <= lo then 0 else (if hi <= len then hi else len) - lo
  }

  /** The field lies entirely inside a packet of `len` bytes: the slice of the
      field is never clamped, and for a field of at least one byte the test
      holds exactly when the slice yields all `size` bytes. */
  predicate Fits(f: FieldSpec, len: nat): (b: bool)
    ensures b ==> SliceLength(len, f.offset, f.offset + f.size) == f.size
    ensures f.size > 0 && SliceLength(len, f.offset, f.offset + f.size) == f.size ==> b
  {
    f.offset + f.size <= len
  }

  ghost predicate UniqueNames(s: seq<FieldSpec>) {
    forall i, j :: 0 <= i < j < |s| ==> s[i].name != s[j].name
  }

  ghost predicate NamesDisjoint(a: seq<FieldSpec>, b: seq<FieldSpec>) {
    forall i, j :: 0 <= i < |a| && 0 <= j < |b| ==> a[i].name != b[j].name
  }

  ghost predicate ValidWidths(s: seq<FieldSpec>) {
    forall i :: 0 <= i < |s| ==> s[i].size in {1, 2, 4}
  }

  /** Names unique, every width 1, 2 or 4 bytes (offsets are never negative). */
  ghost predicate WellFormed(s: seq<FieldSpec>) {
    UniqueNames(s) && ValidWidths(s)
  }

  /** Every entry has width 1 or 2 and lies inside a packet of `len` bytes. */
  ghost predicate NarrowAndInside(s: seq<FieldSpec>, len: nat) {
    forall i :: 0 <= i < |s| ==> (s[i].size == 1 || s[i].size == 2) && Fits(s[i], len)
  }

  /** The names of the map, in map order. */
  function Names(s: seq<FieldSpec>): (names: seq<string>)
    ensures |names| == |s| && forall i :: 0 <= i < |s| ==> names[i] == s[i].name
  {
    if s == [] then [] else Names(s[..|s| - 1]) + [s[|s| - 1].name]
  }

  /** `BUEGB_RT_MAP`, written as nine consecutive blocks of its entries. */
  const BuegbRtMap: seq<FieldSpec> :=
    Block1 + Block2 + Block3 + Block4 + Block5 + Block6 + Block7 + Block8 + Block9

  // ecm_protocol.py:8-17
  const Block1: seq<FieldSpec> := [
    FieldSpec("SOH", 0, 1, 1.0, 0.0),
    FieldSpec("Source", 1, 1, 1.0, 0.0),
    FieldSpec("Destination", 2, 1, 1.0, 0.0),
    FieldSpec("Len", 3, 1, 1.0, 0.0),
    FieldSpec("EOH", 4, 1, 1.0, 0.0),
    FieldSpec("SOT", 5, 1, 1.0, 0.0),
    FieldSpec("ACK", 6, 1, 1.0, 0.0),
    FieldSpec("KConfig_LD", 7, 1, 1.0, 0.0),
    FieldSpec("MS_10", 8, 1, 0.01, 0.0),
    FieldSpec("Seconds", 9, 2, 1.0, 0.0)
  ]

  // ecm_protocol.py:18-27
  const Block2: seq<FieldSpec> := [
    FieldSpec("RPM", 11, 2, 1.0, 0.0),
    FieldSpec("Adv1", 13, 2, 0.0025, 0.0),
    FieldSpec("Adv2", 15, 2, 0.0025, 0.0),
    FieldSpec("TabFuel1_Raw", 17, 2, 1.0, 0.0),
    FieldSpec("TabFuel1", 17, 2, 0.026666, 0.0),
    FieldSpec("TabFuel2_Raw", 19, 2, 1.0, 0.0),
    FieldSpec("TabFuel2", 19, 2, 0.026666, 0.0),
    FieldSpec("Fuel1", 21, 2, 0.00133, 0.0),
    FieldSpec("Fuel2", 23, 2, 0.00133, 0.0),
    FieldSpec("TPD", 25, 2, 0.1, 0.0)
  ]

  // ecm_protocol.py:28-37
  const Block3: seq<FieldSpec> := [
    FieldSpec("RLoad", 27, 1, 1.0, 0.0),
    FieldSpec("TPP", 27, 1, 0.392157, 0.0),
    FieldSpec("Bat", 28, 2, 0.01, 0.0),
    FieldSpec("TE", 30, 2, 0.1, -40.0),
    FieldSpec("TE_F", 30, 2, 0.18, -40.0),
    FieldSpec("TA", 32, 2, 0.1, -40.0),
    FieldSpec("TA_F", 32, 2, 0.18, -40.0),
    FieldSpec("AO2", 34, 2, 1.0, 0.0),
    FieldSpec("O2", 34, 2, 0.004887585, 0.0),
    FieldSpec("CrBat", 36, 2, 0.00133, 0.0)
  ]

  // ecm_protocol.py:38-47
  const Block4: seq<FieldSpec> := [
    FieldSpec("CrTE", 38, 2, 0.1, 0.0),
    FieldSpec("CrTA", 40, 2, 0.1, 0.0),
    FieldSpec("CrAcc", 42, 2, 0.1, 0.0),
    FieldSpec("CrDec", 44, 2, 0.1, 0.0),
    FieldSpec("CrWOT", 46, 2, 0.1, 0.0),
    FieldSpec("CrIdle", 48, 2, 0.1, 0.0),
    FieldSpec("CrOL", 50, 2, 0.1, 0.0),
    FieldSpec("LFuel_LD", 52, 2, 0.1, 0.0),
    FieldSpec("FBFuel", 54, 2, 0.1, 0.0),
    FieldSpec("Flags0", 56, 1, 1.0, 0.0)
  ]

  // ecm_protocol.py:48-57
  const Block5: seq<FieldSpec> := [
    FieldSpec("Flags1", 57, 1, 1.0, 0.0),
    FieldSpec("Flags2", 58, 1, 1.0, 0.0),
    FieldSpec("Flags3", 59, 1, 1.0, 0.0),
    FieldSpec("Flags4", 60, 1, 1.0, 0.0),
    FieldSpec("Flags5", 61, 1, 1.0, 0.0),
    FieldSpec("Flags6", 62, 1, 1.0, 0.0),
    FieldSpec("Unknown-63", 63, 2, 1.0, 0.0),
    FieldSpec("ABaro", 63, 1, 1.0, 0.0),
    FieldSpec("ABAS", 65, 2, 1.0, 0.0),
    FieldSpec("ABAS_V", 65, 2, 0.004887585, 0.0)
  ]

  // ecm_protocol.py:58-67
  const Block6: seq<FieldSpec> := [
    FieldSpec("CDiag0", 67, 1, 1.0, 0.0),
    FieldSpec("CDiag1", 68, 1, 1.0, 0.0),
    FieldSpec("CDiag2", 69, 1, 1.0, 0.0),
    FieldSpec("CDiag3", 70, 1, 1.0, 0.0),
    FieldSpec("RDiag0", 71, 1, 1.0, 0.0),
    FieldSpec("RDiag1", 72, 1, 1.0, 0.0),
    FieldSpec("RDiag2", 73, 1, 1.0, 0.0),
    FieldSpec("RDiag3", 74, 1, 1.0, 0.0),
    FieldSpec("HDiag0_LD", 75, 1, 1.0, 0.0),
    FieldSpec("HDiag1_LD", 76, 1, 1.0, 0.0)
  ]

  // ecm_protocol.py:68-77
  const Block7: seq<FieldSpec> := [
    FieldSpec("HDiag2_LD", 77, 1, 1.0, 0.0),
    FieldSpec("HDiag3_LD", 78, 1, 1.0, 0.0),
    FieldSpec("Unknown-79", 79, 1, 1.0, 0.0),
    FieldSpec("Unknown-80", 80, 1, 1.0, 0.0),
    FieldSpec("Unknown-81", 81, 1, 1.0, 0.0),
    FieldSpec("Unknown-82", 82, 1, 1.0, 0.0),
    FieldSpec("RC", 83, 1, 1.0, 0.0),
    FieldSpec("DOut", 84, 1, 1.0, 0.0),
    FieldSpec("DIn", 85, 1, 1.0, 0.0),
    FieldSpec("ACoil1", 86, 1, 1.0, 0.0)
  ]

  // ecm_protocol.py:78-87
  const Block8: seq<FieldSpec> := [
    FieldSpec("ACoil2", 87, 1, 1.0, 0.0),
    FieldSpec("AInj1", 88, 1, 1.0, 0.0),
    FieldSpec("AInj2", 89, 1, 1.0, 0.0),
    FieldSpec("ATPS", 90, 2, 1.0, 0.0),
    FieldSpec("ATPS_V", 90, 2, 0.004887585, 0.0),
    FieldSpec("ABat", 92, 2, 1.0, 0.0),
    FieldSpec("ATE", 94, 1, 1.0, 0.0),
    FieldSpec("ATE_V", 94, 1, 0.019607843, 0.0),
    FieldSpec("ATA", 95, 1, 1.0, 0.0),
    FieldSpec("ATA_V", 95, 1, 0.019607843, 0.0)
  ]

  // ecm_protocol.py:88-97
  const Block9: seq<FieldSpec> := [
    FieldSpec("AFP", 96, 1, 1.0, 0.0),
    FieldSpec("ACF", 97, 1, 1.0, 0.0),
    FieldSpec("Fan_Duty", 98, 1, 1.0, 0.0),
    FieldSpec("VSS_Count", 99, 1, 1.0, 0.0),
    FieldSpec("VS_RPM_Ratio", 100, 1, 1.0, 0.0),
    FieldSpec("CDiag4", 101, 1, 1.0, 0.0),
    FieldSpec("RDiag4", 102, 1, 1.0, 0.0),
    FieldSpec("HDiag4_LD", 103, 1, 1.0, 0.0),
    FieldSpec("EOT", 105, 1, 1.0, 0.0),
    FieldSpec("CHKSM", 106, 1, 1.0, 0.0)
  ]

  lemma UniqueNamesConcat(a: seq<FieldSpec>, b: seq<FieldSpec>)
    requires UniqueNames(a) && UniqueNames(b) && NamesDisjoint(a, b)
    ensures UniqueNames(a + b)
  {
  }

  lemma NamesDisjointConcat(a: seq<FieldSpec>, b: seq<FieldSpec>, c: seq<FieldSpec>)
    requires NamesDisjoint(a, c) && NamesDisjoint(b, c)
    ensures NamesDisjoint(a + b, c)
  {
  }

  lemma Block1NamesUnique() ensures UniqueNames(Block1) {}
  lemma Block2NamesUnique() ensures UniqueNames(Block2) {}
  lemma Block3NamesUnique() ensures UniqueNames(Block3) {}
  lemma Block4NamesUnique() ensures UniqueNames(Block4) {}
  lemma Block5NamesUnique() ensures UniqueNames(Block5) {}
  lemma Block6NamesUnique() ensures UniqueNames(Block6) {}
  lemma Block7NamesUnique() ensures UniqueNames(Block7) {}
  lemma Block8NamesUnique() ensures UniqueNames(Block8) {}
  lemma Block9NamesUnique() ensures UniqueNames(Block9) {}
  lemma Blocks1And2NamesDisjoint() ensures NamesDisjoint(Block1, Block2) {}
  lemma Blocks1And3NamesDisjoint() ensures NamesDisjoint(Block1, Block3) {}
  lemma Blocks1And4NamesDisjoint() ensures NamesDisjoint(Block1, Block4) {}
  lemma Blocks1And5NamesDisjoint() ensures NamesDisjoint(Block1, Block5) {}
  lemma Blocks1And6NamesDisjoint() ensures NamesDisjoint(Block1, Block6) {}
  lemma Blocks1And7NamesDisjoint() ensures NamesDisjoint(Block1, Block7) {}
  lemma Blocks1And8NamesDisjoint() ensures NamesDisjoint(Block1, Block8) {}
  lemma Blocks1And9NamesDisjoint() ensures NamesDisjoint(Block1, Block9) {}
  lemma Blocks2And3NamesDisjoint() ensures NamesDisjoint(Block2, Block3) {}
  lemma Blocks2And4NamesDisjoint() ensures NamesDisjoint(Block2, Block4) {}
  lemma Blocks2And5NamesDisjoint() ensures NamesDisjoint(Block2, Block5) {}
  lemma Blocks2And6NamesDisjoint() ensures NamesDisjoint(Block2, Block6) {}
  lemma Blocks2And7NamesDisjoint() ensures NamesDisjoint(Block2, Block7) {}
  lemma Blocks2And8NamesDisjoint() ensures NamesDisjoint(Block2, Block8) {}
  lemma Blocks2And9NamesDisjoint() ensures NamesDisjoint(Block2, Block9) {}
  lemma Blocks3And4NamesDisjoint() ensures NamesDisjoint(Block3, Block4) {}
  lemma Blocks3And5NamesDisjoint() ensures NamesDisjoint(Block3, Block5) {}
  lemma Blocks3And6NamesDisjoint() ensures NamesDisjoint(Block3, Block6) {}
  lemma Blocks3And7NamesDisjoint() ensures NamesDisjoint(Block3, Block7) {}
  lemma Blocks3And8NamesDisjoint() ensures NamesDisjoint(Block3, Block8) {}
  lemma Blocks3And9NamesDisjoint() ensures NamesDisjoint(Block3, Block9) {}
  lemma Blocks4And5NamesDisjoint() ensures NamesDisjoint(Block4, Block5) {}
  lemma Blocks4And6NamesDisjoint() ensures NamesDisjoint(Block4, Block6) {}
  lemma Blocks4And7NamesDisjoint() ensures NamesDisjoint(Block4, Block7) {}
  lemma Blocks4And8NamesDisjoint() ensures NamesDisjoint(Block4, Block8) {}
  lemma Blocks4And9NamesDisjoint() ensures NamesDisjoint(Block4, Block9) {}
  lemma Blocks5And6NamesDisjoint() ensures NamesDisjoint(Block5, Block6) {}
  lemma Blocks5And7NamesDisjoint() ensures NamesDisjoint(Block5, Block7) {}
  lemma Blocks5And8NamesDisjoint() ensures NamesDisjoint(Block5, Block8) {}
  lemma Blocks5And9NamesDisjoint() ensures NamesDisjoint(Block5, Block9) {}
  lemma Blocks6And7NamesDisjoint() ensures NamesDisjoint(Block6, Block7) {}
  lemma Blocks6And8NamesDisjoint() ensures NamesDisjoint(Block6, Block8) {}
  lemma Blocks6And9NamesDisjoint() ensures NamesDisjoint(Block6, Block9) {}
  lemma Blocks7And8NamesDisjoint() ensures NamesDisjoint(Block7, Block8) {}
  lemma Blocks7And9NamesDisjoint() ensures NamesDisjoint(Block7, Block9) {}
  lemma Blocks8And9NamesDisjoint() ensures NamesDisjoint(Block8, Block9) {}

  lemma NarrowAndInsideConcat(a: seq<FieldSpec>, b: seq<FieldSpec>, len: nat)
    requires NarrowAndInside(a, len) && NarrowAndInside(b, len)
    ensures NarrowAndInside(a + b, len)
  {
  }

  lemma Blocks1To3NarrowAndInside()
    ensures NarrowAndInside(Block1, ReferencePacketLength)
         && NarrowAndInside(Block2, ReferencePacketLength)
         && NarrowAndInside(Block3, ReferencePacketLength)
  {
  }

  lemma Blocks4To6NarrowAndInside()
    ensures NarrowAndInside(Block4, ReferencePacketLength)
         && NarrowAndInside(Block5, ReferencePacketLength)
         && NarrowAndInside(Block6, ReferencePacketLength)
  {
  }

  lemma Blocks7To9NarrowAndInside()
    ensures NarrowAndInside(Block7, ReferencePacketLength)
         && NarrowAndInside(Block8, ReferencePacketLength)
         && NarrowAndInside(Block9, ReferencePacketLength)
  {
  }

  /** Every entry of the map is 1 or 2 bytes wide and ends within the
      107-byte reference packet. */
  lemma BuegbRtMapFitsReferencePacket()
    ensures |BuegbRtMap| == 90
    ensures NarrowAndInside(BuegbRtMap, ReferencePacketLength)
  {
    Blocks1To3NarrowAndInside();
    Blocks4To6NarrowAndInside();
    Blocks7To9NarrowAndInside();
    NarrowAndInsideConcat(Block1, Block2, ReferencePacketLength);
    NarrowAndInsideConcat(Block1 + Block2, Block3, ReferencePacketLength);
    NarrowAndInsideConcat(Block1 + Block2 + Block3, Block4, ReferencePacketLength);
    NarrowAndInsideConcat(Block1 + Block2 + Block3 + Block4, Block5, ReferencePacketLength);
    NarrowAndInsideConcat(Block1 + Block2 + Block3 + Block4 + Block5, Block6, ReferencePacketLength);
    NarrowAndInsideConcat(Block1 + Block2 + Block3 + Block4 + Block5 + Block6, Block7, ReferencePacketLength);
    NarrowAndInsideConcat(Block1 + Block2 + Block3 + Block4 + Block5 + Block6 + Block7, Block8, ReferencePacketLength);
    NarrowAndInsideConcat(Block1 + Block2 + Block3 + Block4 + Block5 + Block6 + Block7 + Block8, Block9, ReferencePacketLength);
  }

  /** The table is well formed: unique names and widths in {1, 2, 4}. */
  lemma BuegbRtMapWellFormed()
    ensures WellFormed(BuegbRtMap)
  {
    BuegbRtMapFitsReferencePacket();
    Block1NamesUnique();
    Block2NamesUnique();
    Block3NamesUnique();
    Block4NamesUnique();
    Block5NamesUnique();
    Block6NamesUnique();
    Block7NamesUnique();
    Block8NamesUnique();
    Block9NamesUnique();
    Blocks1And2NamesDisjoint();
    UniqueNamesConcat(Block1, Block2);
    Blocks1And3NamesDisjoint();
    Blocks2And3NamesDisjoint();
    NamesDisjointConcat(Block1, Block2, Block3);
    UniqueNamesConcat(Block1 + Block2, Block3);
    Blocks1And4NamesDisjoint();
    Blocks2And4NamesDisjoint();
    Blocks3And4NamesDisjoint();
    NamesDisjointConcat(Block1, Block2, Block4);
    NamesDisjointConcat(Block1 + Block2, Block3, Block4);
    UniqueNamesConcat(Block1 + Block2 + Block3, Block4);
    Blocks1And5NamesDisjoint();
    Blocks2And5NamesDisjoint();
    Blocks3And5NamesDisjoint();
    Blocks4And5NamesDisjoint();
    NamesDisjointConcat(Block1, Block2, Block5);
    NamesDisjointConcat(Block1 + Block2, Block3, Block5);
    NamesDisjointConcat(Block1 + Block2 + Block3, Block4, Block5);
    UniqueNamesConcat(Block1 + Block2 + Block3 + Block4, Block5);
    Blocks1And6NamesDisjoint();
    Blocks2And6NamesDisjoint();
    Blocks3And6NamesDisjoint();
    Blocks4And6NamesDisjoint();
    Blocks5And6NamesDisjoint();
    NamesDisjointConcat(Block1, Block2, Block6);
    NamesDisjointConcat(Block1 + Block2, Block3, Block6);
    NamesDisjointConcat(Block1 + Block2 + Block3, Block4, Block6);
    NamesDisjointConcat(Block1 + Block2 + Block3 + Block4, Block5, Block6);
    UniqueNamesConcat(Block1 + Block2 + Block3 + Block4 + Block5, Block6);
    Blocks1And7NamesDisjoint();
    Blocks2And7NamesDisjoint();
    Blocks3And7NamesDisjoint();
    Blocks4And7NamesDisjoint();
    Blocks5And7NamesDisjoint();
    Blocks6And7NamesDisjoint();
    NamesDisjointConcat(Block1, Block2, Block7);
    NamesDisjointConcat(Block1 + Block2, Block3, Block7);
    NamesDisjointConcat(Block1 + Block2 + Block3, Block4, Block7);
    NamesDisjointConcat(Block1 + Block2 + Block3 + Block4, Block5, Block7);
    NamesDisjointConcat(Block1 + Block2 + Block3 + Block4 + Block5, Block6, Block7);
    UniqueNamesConcat(Block1 + Block2 + Block3 + Block4 + Block5 + Block6, Block7);
    Blocks1And8NamesDisjoint();
    Blocks2And8NamesDisjoint();
    Blocks3And8NamesDisjoint();
    Blocks4And8NamesDisjoint();
    Blocks5And8NamesDisjoint();
    Blocks6And8NamesDisjoint();
    Blocks7And8NamesDisjoint();
    NamesDisjointConcat(Block1, Block2, Block8);
    NamesDisjointConcat(Block1 + Block2, Block3, Block8);
    NamesDisjointConcat(Block1 + Block2 + Block3, Block4, Block8);
    NamesDisjointConcat(Block1 + Block2 + Block3 + Block4, Block5, Block8);
    NamesDisjointConcat(Block1 + Block2 + Block3 + Block4 + Block5, Block6, Block8);
    NamesDisjointConcat(Block1 + Block2 + Block3 + Block4 + Block5 + Block6, Block7, Block8);
    UniqueNamesConcat(Block1 + Block2 + Block3 + Block4 + Block5 + Block6 + Block7, Block8);
    Blocks1And9NamesDisjoint();
    Blocks2And9NamesDisjoint();
    Blocks3And9NamesDisjoint();
    Blocks4And9NamesDisjoint();
    Blocks5And9NamesDisjoint();
    Blocks6And9NamesDisjoint();
    Blocks7And9NamesDisjoint();
    Blocks8And9NamesDisjoint();
    NamesDisjointConcat(Block1, Block2, Block9);
    NamesDisjointConcat(Block1 + Block2, Block3, Block9);
    NamesDisjointConcat(Block1 + Block2 + Block3, Block4, Block9);
    NamesDisjointConcat(Block1 + Block2 + Block3 + Block4, Block5, Block9);
    NamesDisjointConcat(Block1 + Block2 + Block3 + Block4 + Block5, Block6, Block9);
    NamesDisjointConcat(Block1 + Block2 + Block3 + Block4 + Block5 + Block6, Block7, Block9);
    NamesDisjointConcat(Block1 + Block2 + Block3 + Block4 + Block5 + Block6 + Block7, Block8, Block9);
    UniqueNamesConcat(Block1 + Block2 + Block3 + Block4 + Block5 + Block6 + Block7 + Block8, Block9);
  }
}
