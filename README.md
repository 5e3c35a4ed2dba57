# Buell ECM real-time packet decoder, in Dafny

This project models the table-driven decoder of `ecm_protocol.py`, which
turns a real-time data packet from a Buell engine controller (ECM) into
named physical values. It has three parts:

- `BUEGB_RT_MAP` is a fixed, ordered field map. Each name maps to
  `(offset, size, scale, translate)`.
- `_bytes_to_int` reads a byte slice as an unsigned big-endian integer.
- `ECM.parse_realtime_data` walks the map in order and skips every field
  that runs past the end of the packet. It stores `raw * scale + translate`
  under the name of every field that fits.

The test harness's sample packet is modelled as well, and the values it prints
are proved over exact reals.

Files and modules:

| file | module | contents |
|---|---|---|
| `bytes.dfy` | `Bytes` | `Byte`, `_bytes_to_int` and its three paths, the positional sum, the big-endian writer used by the harness, round trips |
| `dicts.dfy` | `Dicts` | Python `dict` as insertion-ordered keys plus a map; `d[k] = v` |
| `field_map.dfy` | `FieldMap` | `FieldSpec`, the 90-entry `BUEGB_RT_MAP`, well-formedness of the table |
| `decoder.dfy` | `Decoder` | the pure `Decode` function, the `ECM` class with `ParseRealtimeData`, general decoding lemmas |
| `buegb.dfy` | `Buegb` | decoding facts specific to `BUEGB_RT_MAP`: full, short and all-zero packets, and the alias pairs |
| `harness.dfy` | `Harness` | the harness's sample packet and the values decoded from it |

Modelling decisions:

- Bytes are `int`s in `0..255`. Raw integers are unbounded `nat`s, and the
  bound `< 256^size` is proved rather than assumed.
- `scale`, `translate` and the decoded values are `real`. This makes
  `raw * scale + translate` exact (see "Left out").
- Python dicts keep their insertion order, and that order is part of what
  the decoder returns. So the result is a `Dicts.Dict`: a key sequence and a
  map. Assigning to a key that is already present replaces its value and
  keeps its position.
- The field map is a `seq<FieldSpec>` in dict order. `ECM` keeps it in a
  `const` field, because `__init__` stores it and nothing changes it
  afterwards.
- `ParseRealtimeData` takes the packet as an `array<Byte>`, like the
  bytearray it is given. The method has no `modifies` clause, so the packet
  is provably left untouched. The method's loop is proved against the pure
  `Decode` function, and everything else is proved about `Decode`.
- `ecm_protocol.py` has no field-map registry and does not validate the
  map: `ECM.__init__` accepts any dict, with no check of widths or names. The
  map is a plain dict literal. An empty packet raises no error and decodes
  to an empty dict (`Decoder.DecodeEmptyPacket`). The validity the table has
  is stated as `FieldMap.WellFormed` and proved of the concrete table.
- The table has 90 entries (`ecm_protocol.py:8-97`). Every width is 1 or 2
  bytes, and every field ends at or before byte 107. Byte 104 belongs to no
  field.
- `Unknown-63` (2 bytes) and `ABaro` (1 byte) start at the same offset. The
  model does not decide which width is intended. It proves what the code
  computes: `Unknown-63 = ABaro * 256 + raw[64]`.
- The table literal is split into nine consecutive blocks of ten entries,
  so that name uniqueness can be proved block by block and pair of blocks
  by pair of blocks. `BuegbRtMap` is their concatenation, in source order.

## Model

| member | source | states |
|---|---|---|
| `Bytes.FromBytesBig` | ecm_protocol.py:107 | `int.from_bytes(b, 'big')` of `n` bytes is below `256^n` |
| `Bytes.UnpackU16` | ecm_protocol.py:105 | `struct.unpack('>H')` of two bytes is below 65536 |
| `Bytes.BytesToInt` | ecm_protocol.py:100-107 | the 1-byte, 2-byte and general paths of `_bytes_to_int` all return the big-endian value of the slice; it is below `256^n` (256, 65536 or 2^32 for widths 1, 2 and 4) |
| `Bytes.FromBytesBigIsWeightedSum` | ecm_protocol.py:100-107 | big-endian composition: the value equals the sum of `b[i] * 256^(n-1-i)` |
| `Bytes.ToBytesBig` | test_harness.py:16 | `struct.pack('>H', v)` / `int.to_bytes(v, n, 'big')` yields exactly `n` bytes for `v < 256^n` |
| `Bytes.FromToBytesBig` | test_harness.py:16-19 | reading back a packed value gives that value |
| `Bytes.ToFromBytesBig` | ecm_protocol.py:100-107 | packing a value that was read gives the original bytes, so the reading is injective |
| `Bytes.Zeros` | test_harness.py:13 | `bytearray(n)` is `n` zero bytes |
| `Bytes.FromBytesBigZero` | ecm_protocol.py:107 | all-zero bytes read as 0, whatever the width |
| `Dicts.Dict.Insert` | ecm_protocol.py:127 | `d[k] = v` keeps the key order duplicate-free and in step with the map; `k` then maps to `v` and no other key changes; a new key is appended, an existing one keeps its place |
| `FieldMap.Fits` | ecm_protocol.py:118-123 | the negation of the guard `offset + size > len(raw_data)`; when it holds, the slice `raw_data[offset:offset + size]` yields all `size` bytes, and for a field of at least one byte it holds only then |
| `Dicts.Empty` | ecm_protocol.py:116 | `{}` has no keys |
| `FieldMap.BuegbRtMapWellFormed` | ecm_protocol.py:7-98 | the names of `BUEGB_RT_MAP` are unique, and every width is in {1, 2, 4} |
| `FieldMap.BuegbRtMapFitsReferencePacket` | ecm_protocol.py:8-97 | the map has 90 entries; every one is 1 or 2 bytes wide and ends within 107 bytes |
| `Decoder.RawValue` | ecm_protocol.py:122-123 | the raw integer of a fitting field is the positional sum of its bytes and is below `256^size` |
| `Decoder.AffineMonotone` | ecm_protocol.py:126 | with a non-negative scale, `raw * scale + translate` never decreases as `raw` grows |
| `Decoder.FieldValue` | ecm_protocol.py:122-126 | `(raw_int_value * scale) + translate` of a field that fits; with a non-negative scale it lies between the value of zero bytes and the value of the largest raw integer of that width |
| `Decoder.DecodeField` | ecm_protocol.py:118-127 | one turn of the loop: a field that does not fit leaves the dict as it was (`continue`); a field that fits stores its value under its name, replacing an earlier value in place or appending a new key, and no other key changes |
| `Decoder.Decode` | ecm_protocol.py:114-129 | the decoded dict is well formed (distinct keys in step with the map) and has at most one key per entry |
| `Decoder.DecodeKeySet` | ecm_protocol.py:116-129 | a name is a key of the result if and only if some entry of that name fits in the packet |
| `Decoder.DecodeFieldValue` | ecm_protocol.py:121-127 | every fitting entry is present, with value `BE(raw[offset..offset+size]) * scale + translate` |
| `Decoder.DecodeSkipsShortField` | ecm_protocol.py:117-119 | an entry with `offset + size > len(raw)` is absent |
| `Decoder.DecodeKeysInMapOrder` | ecm_protocol.py:116-129 | the key order of the result is exactly the names of the fitting entries, in map order |
| `Decoder.DecodeEmptyPacket` | ecm_protocol.py:116-119 | an empty packet decodes to an empty dict, not an error, if and only if no entry has offset 0 and size 0 (so for every map whose widths are at least 1) |
| `Decoder.FieldValueOfLongerPacket` | ecm_protocol.py:122-126 | a field that fits decodes to the same value when bytes are appended to the packet |
| `Decoder.DecodeLongerPacket` | ecm_protocol.py:117-127 | appending bytes to a packet keeps every value already decoded, so a short packet gives a partial decode of the full one |
| `Decoder.DecodeZeroPacket` | ecm_protocol.py:122-127 | in an all-zero packet every fitting field decodes to its `translate` |
| `Decoder.ZeroBytesGiveTranslation` | ecm_protocol.py:126 | a field over zero bytes converts to its `translate` |
| `Decoder.AliasesReadSameBytes` | ecm_protocol.py:122-123 | two entries with the same offset and size read the same raw integer |
| `Decoder.ScaledViewOfRawField` | ecm_protocol.py:126 | a scaled alias of an unscaled field is that field's value times the alias's scale |
| `Decoder.WideViewOfNarrowField` | ecm_protocol.py:122-126 | an unscaled 2-byte field over the offset of an unscaled 1-byte field is `narrow * 256 + next byte` |
| `Decoder.AliasesShareRawValue` | ecm_protocol.py:121-127 | two entries over the same bytes both appear, are decoded from one raw integer, and each applies its own scale and translation |
| `Decoder.ECM.constructor` | ecm_protocol.py:111-112 | `ECM(ecm_map)` stores the map |
| `Decoder.ECM.ParseRealtimeData` | ecm_protocol.py:114-129 | the result equals `Decode` of the map and the packet, and the packet is not modified; with unique names, the keys are the fitting names in map order, a name is present if and only if its field fits, and each present value is `raw * scale + translate` |
| `Buegb.SpeedAndFuelEntries` | ecm_protocol.py:18-22 | the RPM, TabFuel1_Raw and TabFuel1 entries of the table are as written in the source |
| `Buegb.ThrottleBatteryTemperatureEntries` | ecm_protocol.py:28-31 | the RLoad, TPP, Bat and TE entries of the table are as written in the source |
| `Buegb.Offset63Entries` | ecm_protocol.py:54-55 | the Unknown-63 and ABaro entries of the table are as written in the source |
| `Buegb.FullPacketDecodesEveryName` | ecm_protocol.py:8-97 | a packet of 107 bytes or more yields a value for every name of the map, in map order |
| `Buegb.ShortPacketDropsTemperature` | ecm_protocol.py:117-119 | a 30- or 31-byte packet has no `TE` but still has `RPM` and `Bat` |
| `Buegb.ZeroPacketDecodesToTranslations` | ecm_protocol.py:8-97 | in a 107-byte all-zero packet every field decodes to its `translate`; `TE` gives -40.0 and `RPM` gives 0.0 |
| `Buegb.TabFuel1ScalesTabFuel1Raw` | ecm_protocol.py:21-22 | `TabFuel1 = TabFuel1_Raw * 0.026666` for every packet of at least 19 bytes |
| `Buegb.ThrottlePercentScalesRLoad` | ecm_protocol.py:28-29 | `TPP = RLoad * 0.392157` for every packet of at least 28 bytes |
| `Buegb.Unknown63ExtendsABaro` | ecm_protocol.py:54-55 | `Unknown-63 = ABaro * 256 + raw[64]` for every packet of at least 65 bytes |
| `Harness.Splice` | test_harness.py:16-19 | slice assignment of an equal-length slice puts `bs` at `off` and leaves every other byte unchanged |
| `Harness.SamplePacket` | test_harness.py:13-22 | the sample packet is 107 bytes long |
| `Harness.SamplePacketBytes` | test_harness.py:13-22 | bytes 11-12 hold big-endian 1200, bytes 30-31 hold 1300, byte 27 holds 13, and bytes 28-29 are zero |
| `Harness.SampleFieldValues` | test_harness.py:9-22 | from those bytes, RPM is 1200, TE is 1300 * 0.1 - 40 = 90, TPP is 13 * 0.392157 and Bat is 0 |
| `Harness.SamplePacketDecodes` | test_harness.py:30-41 | decoding the sample packet with the full map gives RPM 1200, TE 90, TPP 5.098041 and Bat 0 |
| `Harness.HarnessMain` | test_harness.py:25-43 | the harness's parser run on the sample packet returns the four values it formats and prints: RPM 1200, TE 90, TPP 5.098041 over exact reals, and Bat 0 |

## Left out

- Floating point: `raw * scale + translate` is computed over exact reals.
  The Python code uses IEEE-754 doubles, where 0.392157 is rounded before
  the product: Python's `13 * 0.392157` is 5.098040999999999, one unit in the
  last place below the double 5.098041, while the model computes exactly
  5.098041. No claim is made about bit-exact float results.
- Float overflow: `raw_int_value * scale` raises `OverflowError` for raw
  integers of 2^1024 - 2^970 or more (they round to 2^1024), which a field
  of 128 or more bytes can hold.
  `Decode`, `DecodeFieldValue` and `DecodeKeySet` hold for any schema and
  never raise; no entry of the table is wider than 2 bytes.
- Negative offsets and sizes: `offset` and `size` are `nat`. A negative
  offset would make Python slice from the end of the packet, and no entry of
  the table has one.
- `_bytes_to_int` on a 2-byte slice does not raise, because
  `struct.unpack('>H')` is only reached with exactly two bytes. Its error
  path for other lengths is unreachable and not modelled.
- Bytes.ToBytesBig: defined only for values that fit, because
  `struct.pack('>H', v)` raises `struct.error` for a `v` outside 0..65535.
  The harness only packs 1200 and 1300, and the raising path is not
  modelled.
- The WebSocket loop in `main.py` (accept, `send_text`, `asyncio.sleep`,
  disconnect handling) is network I/O and cooperative scheduling.
- `get_real_ecm_data` in `main.py` fills a packet with `random.randint` and
  stands in for serial or Bluetooth I/O. It is nondeterministic, and its
  real version is hardware I/O.
- The simulation branch of `main.py` draws `random`/`uniform` values and
  does float arithmetic on them.
- The wire projection in `main.py` (`round(...)` of RPM, TE and Bat, with
  `get(..., 0)` defaults) depends on Python's float rounding. Its inputs are
  the values `Decode` produces.
- `manage.py` (uvicorn launch, browser thread, `time.sleep`) is process
  plumbing.
- The harness's console printing and its `:.0f`/`:.1f`/`:.2f` formatting are
  not modelled. `Harness.HarnessMain` returns the four values instead of
  printing them.
