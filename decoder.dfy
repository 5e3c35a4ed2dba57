/** Decoding a real-time packet with a field map: every field that lies inside
    the packet is read as a big-endian unsigned integer and converted by
    `raw * scale + translate`; every field that does not is left out. */
module Decoder {
  import opened Bytes
  import opened Dicts
  import opened FieldMap

  /** The parsed packet: field name to physical value, in map order. */
  type Frame = Dict<string, real>

  /** The unsigned integer stored in the bytes of a field that fits. */
  function RawValue(f: FieldSpec, raw: seq<Byte>): (v: nat)
    requires Fits(f, |raw|)
    ensures v == WeightedSum(raw[f.offset..f.offset + f.size])
    ensures v < Pow256(f.size)
  {
    FromBytesBigIsWeightedSum(raw[f.offset..f.offset + f.size]);
    BytesToInt(raw[f.offset..f.offset + f.size])
  }

  /** `(raw_int_value * scale) + translate`. */
  function Affine(x: real, scale: real, translate: real): real {
    x * scale + translate
  }

  /** With a non-negative scale the conversion is monotone: a larger raw
      integer never gives a smaller value. */
  lemma AffineMonotone(x: real, y: real, scale: real, translate: real)
    requires x <= y
    ensures 0.0 <= scale ==> Affine(x, scale, translate) <= Affine(y, scale, translate)
  {
    if 0.0 <= scale {
      assert x * scale <= y * scale;
    }
  }

  /** The physical value of a field that fits, over exact reals. With a
      non-negative scale it lies between the value of all-zero bytes and the
      value of the largest raw integer the field can hold. */
  function FieldValue(f: FieldSpec, raw: seq<Byte>): (v: real)
    requires Fits(f, |raw|)
    ensures 0.0 <= f.scale ==> Affine(0.0, f.scale, f.translate) <= v
    ensures 0.0 <= f.scale ==> v <= Affine((Pow256(f.size) - 1) as real, f.scale, f.translate)
  {
    var r := RawValue(f, raw) as real;
    AffineMonotone(0.0, r, f.scale, f.translate);
    AffineMonotone(r, (Pow256(f.size) - 1) as real, f.scale, f.translate);
    Affine(r, f.scale, f.translate)
  }

  /** One turn of the decoding loop: skip a field that runs past the end of
      the packet, otherwise store its value under its name, replacing an
      earlier value of that name in place and appending a new name. */
  function DecodeField(parsed: Frame, f: FieldSpec, raw: seq<Byte>): (next: Frame)
    ensures parsed.Valid() ==> next.Valid()
    ensures !Fits(f, |raw|) ==> next == parsed
    ensures Fits(f, |raw|) ==> f.name in next.entries && next.entries[f.name] == FieldValue(f, raw)
    ensures forall k :: k != f.name ==> (k in next.entries <==> k in parsed.entries)
    ensures forall k :: k != f.name && k in parsed.entries ==> next.entries[k] == parsed.entries[k]
    ensures f.name in parsed.entries || !Fits(f, |raw|) ==> next.keys == parsed.keys
    ensures f.name !in parsed.entries && Fits(f, |raw|) ==> next.keys == parsed.keys + [f.name]
  {
    if !Fits(f, |raw|) then parsed else parsed.Insert(f.name, FieldValue(f, raw))
  }

  /** The result of decoding `raw` with the entries of `schema`, taken in order. */
  function Decode(schema: seq<FieldSpec>, raw: seq<Byte>): (parsed: Frame)
    ensures parsed.Valid()
    ensures |parsed.keys| <= |schema|
  {
    if schema == [] then Empty()
    else DecodeField(Decode(schema[..|schema| - 1], raw), schema[|schema| - 1], raw)
  }

  /** The names of the entries of `schema` that fit in `len` bytes, in order. */
  function FittingNames(schema: seq<FieldSpec>, len: nat): (names: seq<string>)
    ensures |names| <= |schema|
  {
    if schema == [] then []
    else
      var last := schema[|schema| - 1];
      FittingNames(schema[..|schema| - 1], len) + if Fits(last, len) then [last.name] else []
  }

  /** A name is in the result exactly when some entry of that name fits:
      no other keys ever appear. */
  lemma {:induction false} DecodeKeySet(schema: seq<FieldSpec>, raw: seq<Byte>, name: string)
    ensures name in Decode(schema, raw).entries <==>
            exists i :: 0 <= i < |schema| && schema[i].name == name && Fits(schema[i], |raw|)
  {
    if schema != [] {
      var init := schema[..|schema| - 1];
      DecodeKeySet(init, raw, name);
      if name in Decode(init, raw).entries {
        var i :| 0 <= i < |init| && init[i].name == name && Fits(init[i], |raw|);
        assert schema[i] == init[i];
      }
      if exists i :: 0 <= i < |schema| && schema[i].name == name && Fits(schema[i], |raw|) {
        var i :| 0 <= i < |schema| && schema[i].name == name && Fits(schema[i], |raw|);
        if i < |init| {
          assert init[i] == schema[i];
        }
      }
    }
  }

  /** Every entry that fits is decoded from its own bytes. */
  lemma {:induction false} DecodeFieldValue(schema: seq<FieldSpec>, raw: seq<Byte>, i: nat)
    requires UniqueNames(schema)
    requires i < |schema| && Fits(schema[i], |raw|)
    ensures schema[i].name in Decode(schema, raw).entries
    ensures Decode(schema, raw).entries[schema[i].name] == FieldValue(schema[i], raw)
  {
    var init := schema[..|schema| - 1];
    if i < |schema| - 1 {
      assert init[i] == schema[i];
      DecodeFieldValue(init, raw, i);
    }
  }

  /** An entry that runs past the end of the packet is absent from the result. */
  lemma DecodeSkipsShortField(schema: seq<FieldSpec>, raw: seq<Byte>, i: nat)
    requires UniqueNames(schema)
    requires i < |schema| && !Fits(schema[i], |raw|)
    ensures schema[i].name !in Decode(schema, raw).entries
  {
    DecodeKeySet(schema, raw, schema[i].name);
  }

  /** The keys of the result are the names of the fitting entries, in map
      order. */
  lemma {:induction false} DecodeKeysInMapOrder(schema: seq<FieldSpec>, raw: seq<Byte>)
    requires UniqueNames(schema)
    ensures Decode(schema, raw).keys == FittingNames(schema, |raw|)
  {
    if schema != [] {
      var init, last := schema[..|schema| - 1], schema[|schema| - 1];
      DecodeKeysInMapOrder(init, raw);
      DecodeKeySet(init, raw, last.name);
    }
  }

  /** A packet with no bytes yields an empty result rather than an error,
      exactly when no entry has offset 0 and size 0. */
  lemma DecodeEmptyPacket(schema: seq<FieldSpec>)
    ensures Decode(schema, []) == Empty() <==>
            forall i :: 0 <= i < |schema| ==> schema[i].offset + schema[i].size > 0
  {
    var parsed := Decode(schema, []);
    if forall i :: 0 <= i < |schema| ==> schema[i].offset + schema[i].size > 0 {
      forall name | name in parsed.entries ensures false {
        DecodeKeySet(schema, [], name);
      }
    } else {
      var i :| 0 <= i < |schema| && schema[i].offset + schema[i].size == 0;
      DecodeKeySet(schema, [], schema[i].name);
    }
  }

  lemma FieldValueOfLongerPacket(f: FieldSpec, raw: seq<Byte>, more: seq<Byte>)
    requires Fits(f, |raw|)
    ensures FieldValue(f, raw + more) == FieldValue(f, raw)
  {
    assert (raw + more)[f.offset..f.offset + f.size] == raw[f.offset..f.offset + f.size];
  }

  /** Appending bytes to a packet keeps every value already decoded: a short
      packet gives a subset of the full decode. */
  lemma DecodeLongerPacket(schema: seq<FieldSpec>, raw: seq<Byte>, more: seq<Byte>)
    requires UniqueNames(schema)
    ensures forall name :: name in Decode(schema, raw).entries ==>
              name in Decode(schema, raw + more).entries &&
              Decode(schema, raw + more).entries[name] == Decode(schema, raw).entries[name]
  {
    forall name | name in Decode(schema, raw).entries
      ensures name in Decode(schema, raw + more).entries
      ensures Decode(schema, raw + more).entries[name] == Decode(schema, raw).entries[name]
    {
      DecodeKeySet(schema, raw, name);
      var i :| 0 <= i < |schema| && schema[i].name == name && Fits(schema[i], |raw|);
      FieldValueOfLongerPacket(schema[i], raw, more);
      DecodeFieldValue(schema, raw, i);
      DecodeFieldValue(schema, raw + more, i);
    }
  }

  lemma AliasesReadSameBytes(raw: seq<Byte>, f: FieldSpec, g: FieldSpec)
    requires f.offset == g.offset && f.size == g.size && Fits(f, |raw|)
    ensures RawValue(g, raw) == RawValue(f, raw)
  {
  }

  /** A scaled alias of an unscaled field is that field's value times the
      alias's scale. */
  lemma ScaledViewOfRawField(raw: seq<Byte>, f: FieldSpec, g: FieldSpec)
    requires f.offset == g.offset && f.size == g.size && Fits(f, |raw|)
    requires f.scale == 1.0 && f.translate == 0.0 && g.translate == 0.0
    ensures FieldValue(g, raw) == FieldValue(f, raw) * g.scale
  {
    AliasesReadSameBytes(raw, f, g);
  }

  /** An unscaled two-byte field over the same offset as an unscaled one-byte
      field is that byte shifted left by eight bits plus the next byte. */
  lemma WideViewOfNarrowField(raw: seq<Byte>, f: FieldSpec, g: FieldSpec)
    requires f.offset == g.offset && f.size == 1 && g.size == 2 && Fits(g, |raw|)
    requires f.scale == 1.0 && f.translate == 0.0 && g.scale == 1.0 && g.translate == 0.0
    ensures FieldValue(g, raw) == FieldValue(f, raw) * 256.0 + raw[g.offset + 1] as real
  {
    assert raw[g.offset..g.offset + 2] == [raw[g.offset], raw[g.offset + 1]];
  }

  /** Two entries over the same bytes decode from one raw integer, each with
      its own scale and translation. */
  lemma AliasesShareRawValue(schema: seq<FieldSpec>, raw: seq<Byte>, i: nat, j: nat)
    requires UniqueNames(schema)
    requires i < |schema| && j < |schema|
    requires schema[i].offset == schema[j].offset && schema[i].size == schema[j].size
    requires Fits(schema[i], |raw|)
    ensures RawValue(schema[j], raw) == RawValue(schema[i], raw)
    ensures schema[i].name in Decode(schema, raw).entries
    ensures schema[j].name in Decode(schema, raw).entries
    ensures Decode(schema, raw).entries[schema[i].name] == FieldValue(schema[i], raw)
    ensures Decode(schema, raw).entries[schema[j].name] == FieldValue(schema[j], raw)
  {
    AliasesReadSameBytes(raw, schema[i], schema[j]);
    DecodeFieldValue(schema, raw, i);
    DecodeFieldValue(schema, raw, j);
  }

  /** When every entry fits, every name of the map is a key, in map order. */
  lemma {:induction false} FittingNamesWhenAllFit(schema: seq<FieldSpec>, len: nat)
    requires forall i :: 0 <= i < |schema| ==> Fits(schema[i], len)
    ensures FittingNames(schema, len) == Names(schema)
  {
    if schema != [] {
      var init := schema[..|schema| - 1];
      assert forall i :: 0 <= i < |init| ==> init[i] == schema[i];
      FittingNamesWhenAllFit(init, len);
    }
  }

  /** In an all-zero packet every field that fits reads 0 and so decodes to
      its translation. */
  lemma DecodeZeroPacket(schema: seq<FieldSpec>, len: nat, i: nat)
    requires UniqueNames(schema)
    requires i < |schema| && Fits(schema[i], len)
    ensures schema[i].name in Decode(schema, Zeros(len)).entries
    ensures Decode(schema, Zeros(len)).entries[schema[i].name] == schema[i].translate
  {
    ZeroBytesGiveTranslation(schema[i], len);
    DecodeFieldValue(schema, Zeros(len), i);
  }

  lemma ZeroBytesGiveTranslation(f: FieldSpec, len: nat)
    requires Fits(f, len)
    ensures FieldValue(f, Zeros(len)) == f.translate
  {
    FromBytesBigZero(Zeros(len)[f.offset..f.offset + f.size]);
  }

  /** `ECM`: a decoder bound to one field map, which is never changed after
      construction. */
  class ECM {
    const ecmMap: seq<FieldSpec>

    constructor (ecmMap: seq<FieldSpec>)
      ensures this.ecmMap == ecmMap
    {
      this.ecmMap := ecmMap;
    }

    /** `parse_realtime_data`: walks the map in order, skipping every field
        that runs past the end of the packet. The packet is only read. */
    method ParseRealtimeData(rawData: array<Byte>) returns (parsedData: Frame)
      ensures parsedData == Decode(ecmMap, rawData[..])
      ensures parsedData.Valid()
      ensures UniqueNames(ecmMap) ==> parsedData.keys == FittingNames(ecmMap, rawData.Length)
      ensures UniqueNames(ecmMap) ==>
                forall i :: 0 <= i < |ecmMap| ==>
                  (ecmMap[i].name in parsedData.entries <==> Fits(ecmMap[i], rawData.Length))
      ensures UniqueNames(ecmMap) ==>
                forall i :: 0 <= i < |ecmMap| && Fits(ecmMap[i], rawData.Length) ==>
                  ecmMap[i].name in parsedData.entries &&
                  parsedData.entries[ecmMap[i].name] == FieldValue(ecmMap[i], rawData[..])
    {
      parsedData := Empty();
      for n := 0 to |ecmMap|
        invariant parsedData == Decode(ecmMap[..n], rawData[..])
      {
        var spec := ecmMap[n];
        assert ecmMap[..n + 1][..n] == ecmMap[..n];
        if spec.offset + spec.size > rawData.Length {
          continue;
        }
        var rawValueBytes := rawData[spec.offset..spec.offset + spec.size];
        var rawIntValue := BytesToInt(rawValueBytes);
        var realValue := rawIntValue as real * spec.scale + spec.translate;
        assert rawValueBytes == rawData[..][spec.offset..spec.offset + spec.size];
        assert realValue == FieldValue(spec, rawData[..]);
        parsedData := parsedData.Insert(spec.name, realValue);
      }
      assert ecmMap[..|ecmMap|] == ecmMap;
      if UniqueNames(ecmMap) {
        DecodeKeysInMapOrder(ecmMap, rawData[..]);
        forall i | 0 <= i < |ecmMap|
          ensures ecmMap[i].name in parsedData.entries <==> Fits(ecmMap[i], rawData.Length)
          ensures Fits(ecmMap[i], rawData.Length) ==>
                    ecmMap[i].name in parsedData.entries &&
                    parsedData.entries[ecmMap[i].name] == FieldValue(ecmMap[i], rawData[..])
        {
          if Fits(ecmMap[i], rawData.Length) {
            DecodeFieldValue(ecmMap, rawData[..], i);
          } else {
            DecodeSkipsShortField(ecmMap, rawData[..], i);
          }
        }
      }
    }
  }
}
