/** The sample packet of the test harness: 107 zero bytes with the engine
    speed, the engine temperature and the throttle position written in, and
    what the decoder reads back from it. */
module Harness {
  import opened Bytes
  import opened FieldMap
  import opened Decoder
  import Buegb

  /** `p[off:off + len(bs)] = bs` on a bytearray, for a slice of the same
      length as `bs`. */
  function Splice(p: seq<Byte>, off: nat, bs: seq<Byte>): (q: seq<Byte>)
    requires off + |bs| <= |p|
    ensures |q| == |p|
    ensures q[off..off + |bs|] == bs
    ensures forall k :: 0 <= k < |p| && !(off <= k < off + |bs|) ==> q[k] == p[k]
  {
    p[..off] + bs + p[off + |bs|..]
  }

  /** `sample_data`: RPM 1200 at bytes 11-12, raw temperature 1300 at bytes
      30-31, throttle byte 13 at byte 27, everything else zero. */
  function SamplePacket(): (p: seq<Byte>)
    ensures |p| == ReferencePacketLength
  {
    var speed := Splice(Zeros(ReferencePacketLength), 11, ToBytesBig(1200, 2));
    var temperature := Splice(speed, 30, ToBytesBig(1300, 2));
    temperature[27 := 13]
  }

  /** The bytes under the four fields the harness prints. */
  lemma SamplePacketBytes()
    ensures SamplePacket()[11..13] == ToBytesBig(1200, 2)
    ensures SamplePacket()[30..32] == ToBytesBig(1300, 2)
    ensures SamplePacket()[27..28] == [13]
    ensures SamplePacket()[28..30] == [0, 0]
  {
    var speed := Splice(Zeros(ReferencePacketLength), 11, ToBytesBig(1200, 2));
    var temperature := Splice(speed, 30, ToBytesBig(1300, 2));
    var p := SamplePacket();
    assert p[11..13] == speed[11..13];
    assert p[30..32] == temperature[30..32];
    assert p[28..30] == Zeros(ReferencePacketLength)[28..30];
  }

  /** The values of those fields, computed from their entries alone. */
  lemma SampleFieldValues()
    ensures FieldValue(FieldSpec("RPM", 11, 2, 1.0, 0.0), SamplePacket()) == 1200.0
    ensures FieldValue(FieldSpec("TE", 30, 2, 0.1, -40.0), SamplePacket()) == 90.0
    ensures FieldValue(FieldSpec("TPP", 27, 1, 0.392157, 0.0), SamplePacket()) == 5.098041
    ensures FieldValue(FieldSpec("Bat", 28, 2, 0.01, 0.0), SamplePacket()) == 0.0
  {
    SamplePacketBytes();
    FromToBytesBig(1200, 2);
    FromToBytesBig(1300, 2);
    FromBytesBigZero(SamplePacket()[28..30]);
  }

  /** Decoding the sample packet with the full map: RPM 1200, engine
      temperature 1300 * 0.1 - 40 = 90, throttle 13 * 0.392157, battery 0. */
  lemma SamplePacketDecodes()
    ensures var parsed := Decode(BuegbRtMap, SamplePacket()).entries;
            && "RPM" in parsed && parsed["RPM"] == 1200.0
            && "TE" in parsed && parsed["TE"] == 90.0
            && "TPP" in parsed && parsed["TPP"] == 5.098041
            && "Bat" in parsed && parsed["Bat"] == 0.0
  {
    BuegbRtMapWellFormed();
    Buegb.SpeedAndFuelEntries();
    Buegb.ThrottleBatteryTemperatureEntries();
    SampleFieldValues();
    DecodeFieldValue(BuegbRtMap, SamplePacket(), 10);
    DecodeFieldValue(BuegbRtMap, SamplePacket(), 21);
    DecodeFieldValue(BuegbRtMap, SamplePacket(), 22);
    DecodeFieldValue(BuegbRtMap, SamplePacket(), 23);
  }

  /** The harness's `main`: build the parser on the full map, parse the sample
      packet and return the four values it prints. */
  method HarnessMain() returns (rpm: real, engineTemp: real, throttlePos: real, battery: real)
    ensures rpm == 1200.0 && engineTemp == 90.0 && throttlePos == 5.098041 && battery == 0.0
  {
    var ecm := new ECM(BuegbRtMap);
    var sample := SamplePacket();
    var sampleData := new Byte[|sample|](i requires 0 <= i < |sample| => sample[i]);
    assert sampleData[..] == sample;
    var parsedData := ecm.ParseRealtimeData(sampleData);
    SamplePacketDecodes();
    rpm := parsedData.entries["RPM"];
    engineTemp := parsedData.entries["TE"];
    throttlePos := parsedData.entries["TPP"];
    battery := parsedData.entries["Bat"];
  }
}
