/** What decoding with the BUEGB real-time map gives: which names appear for
    a given packet length, and how the aliased entries relate. */
module Buegb {
  import opened Bytes
  import opened FieldMap
  import opened Decoder

  /** The speed and fuel-table entries the lemmas below name. */
  lemma SpeedAndFuelEntries()
    ensures BuegbRtMap[10] == FieldSpec("RPM", 11, 2, 1.0, 0.0)
    ensures BuegbRtMap[13] == FieldSpec("TabFuel1_Raw", 17, 2, 1.0, 0.0)
    ensures BuegbRtMap[14] == FieldSpec("TabFuel1", 17, 2, 0.026666, 0.0)
  {
  }

  /** The throttle, battery and engine temperature entries. */
  lemma ThrottleBatteryTemperatureEntries()
    ensures BuegbRtMap[20] == FieldSpec("RLoad", 27, 1, 1.0, 0.0)
    ensures BuegbRtMap[21] == FieldSpec("TPP", 27, 1, 0.392157, 0.0)
    ensures BuegbRtMap[22] == FieldSpec("Bat", 28, 2, 0.01, 0.0)
    ensures BuegbRtMap[23] == FieldSpec("TE", 30, 2, 0.1, -40.0)
  {
  }

  /** The two entries at offset 63. */
  lemma Offset63Entries()
    ensures BuegbRtMap[46] == FieldSpec("Unknown-63", 63, 2, 1.0, 0.0)
    ensures BuegbRtMap[47] == FieldSpec("ABaro", 63, 1, 1.0, 0.0)
  {
  }

  /** A packet of at least the reference length yields a value for every name
      of the map, in map order. */
  lemma FullPacketDecodesEveryName(raw: seq<Byte>)
    requires |raw| >= ReferencePacketLength
    ensures Decode(BuegbRtMap, raw).keys == Names(BuegbRtMap)
  {
    BuegbRtMapWellFormed();
    BuegbRtMapFitsReferencePacket();
    DecodeKeysInMapOrder(BuegbRtMap, raw);
    FittingNamesWhenAllFit(BuegbRtMap, |raw|);
  }

  /** A packet that ends before the engine temperature still yields the
      fields before it: here, 30 bytes or more but fewer than 32. */
  lemma ShortPacketDropsTemperature(raw: seq<Byte>)
    requires 30 <= |raw| < 32
    ensures var parsed := Decode(BuegbRtMap, raw).entries;
            "TE" !in parsed && "RPM" in parsed && "Bat" in parsed
  {
    BuegbRtMapWellFormed();
    SpeedAndFuelEntries();
    ThrottleBatteryTemperatureEntries();
    DecodeFieldValue(BuegbRtMap, raw, 10);
    DecodeFieldValue(BuegbRtMap, raw, 22);
    DecodeSkipsShortField(BuegbRtMap, raw, 23);
  }

  /** A complete all-zero packet decodes every field to its translation;
      for example the engine temperature to -40 and the engine speed to 0. */
  lemma ZeroPacketDecodesToTranslations()
    ensures forall i :: 0 <= i < |BuegbRtMap| ==>
              var f := BuegbRtMap[i];
              var parsed := Decode(BuegbRtMap, Zeros(ReferencePacketLength)).entries;
              f.name in parsed && parsed[f.name] == f.translate
    ensures var parsed := Decode(BuegbRtMap, Zeros(ReferencePacketLength)).entries;
            "TE" in parsed && parsed["TE"] == -40.0 && "RPM" in parsed && parsed["RPM"] == 0.0
  {
    BuegbRtMapWellFormed();
    SpeedAndFuelEntries();
    ThrottleBatteryTemperatureEntries();
    BuegbRtMapFitsReferencePacket();
    forall i | 0 <= i < |BuegbRtMap|
      ensures BuegbRtMap[i].name in Decode(BuegbRtMap, Zeros(ReferencePacketLength)).entries
      ensures Decode(BuegbRtMap, Zeros(ReferencePacketLength)).entries[BuegbRtMap[i].name]
              == BuegbRtMap[i].translate
    {
      DecodeZeroPacket(BuegbRtMap, ReferencePacketLength, i);
    }
  }

  /** `TabFuel1` is the scaled view of the same two bytes as `TabFuel1_Raw`. */
  lemma TabFuel1ScalesTabFuel1Raw(raw: seq<Byte>)
    requires |raw| >= 19
    ensures var parsed := Decode(BuegbRtMap, raw).entries;
            "TabFuel1" in parsed && "TabFuel1_Raw" in parsed &&
            parsed["TabFuel1"] == parsed["TabFuel1_Raw"] * 0.026666
  {
    BuegbRtMapWellFormed();
    SpeedAndFuelEntries();
    AliasesShareRawValue(BuegbRtMap, raw, 13, 14);
    ScaledViewOfRawField(raw, FieldSpec("TabFuel1_Raw", 17, 2, 1.0, 0.0),
                         FieldSpec("TabFuel1", 17, 2, 0.026666, 0.0));
  }

  /** `TPP` (throttle position in percent) is the scaled view of the single
      byte `RLoad`. */
  lemma ThrottlePercentScalesRLoad(raw: seq<Byte>)
    requires |raw| >= 28
    ensures var parsed := Decode(BuegbRtMap, raw).entries;
            "TPP" in parsed && "RLoad" in parsed &&
            parsed["TPP"] == parsed["RLoad"] * 0.392157
  {
    BuegbRtMapWellFormed();
    ThrottleBatteryTemperatureEntries();
    AliasesShareRawValue(BuegbRtMap, raw, 20, 21);
    ScaledViewOfRawField(raw, FieldSpec("RLoad", 27, 1, 1.0, 0.0),
                         FieldSpec("TPP", 27, 1, 0.392157, 0.0));
  }

  /** `Unknown-63` and `ABaro` start at the same offset with different widths:
      the two-byte field is the one-byte field shifted left by a byte plus the
      following byte. */
  lemma Unknown63ExtendsABaro(raw: seq<Byte>)
    requires |raw| >= 65
    ensures var parsed := Decode(BuegbRtMap, raw).entries;
            "Unknown-63" in parsed && "ABaro" in parsed &&
            parsed["Unknown-63"] == parsed["ABaro"] * 256.0 + raw[64] as real
  {
    BuegbRtMapWellFormed();
    Offset63Entries();
    DecodeFieldValue(BuegbRtMap, raw, 46);
    DecodeFieldValue(BuegbRtMap, raw, 47);
    WideViewOfNarrowField(raw, FieldSpec("ABaro", 63, 1, 1.0, 0.0),
                          FieldSpec("Unknown-63", 63, 2, 1.0, 0.0));
  }
}
