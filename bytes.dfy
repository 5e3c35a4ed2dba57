/** Unsigned big-endian integers read from (and, for building test packets,
    written to) byte strings. */
module Bytes {

  type Byte = b: int | 0 <= b < 256

  /** 256^n, the number of distinct values of an n-byte field. */
  function Pow256(n: nat): (p: nat)
    ensures p >= 1
  {
    if n == 0 then 1 else 256 * Pow256(n - 1)
  }

  /** `int.from_bytes(b, 'big')`: each byte shifts the value read so far
      one byte to the left. */
  function FromBytesBig(b: seq<Byte>): (v: nat)
    ensures v < Pow256(|b|)
  {
    if b == [] then 0 else FromBytesBig(b[..|b| - 1]) * 256 + b[|b| - 1]
  }

  /** `struct.unpack('>H', b)[0]`: an unsigned 16-bit big-endian value. */
  function UnpackU16(b: seq<Byte>): (v: nat)
    requires |b| == 2
    ensures v < 65536
  {
    b[0] as int * 256 + b[1]
  }

  /** `_bytes_to_int`: one byte is read directly, two through the 16-bit
      unpacker, anything else through `int.from_bytes`. The three paths agree:
      the result is always the big-endian unsigned value of the slice. */
  function BytesToInt(b: seq<Byte>): (v: nat)
    ensures v == FromBytesBig(b)
    ensures v < Pow256(|b|)
    ensures |b| == 1 ==> v < 256
    ensures |b| == 2 ==> v < 65536
    ensures |b| == 4 ==> v < 0x1_0000_0000
  {
    if |b| == 1 then
      b[0]
    else if |b| == 2 then
      assert b[..1][..0] == [];
      UnpackU16(b)
    else
      FromBytesBig(b)
  }

  /** The positional reading of a byte string: sum of b[i] * 256^(|b|-1-i). */
  function WeightedSum(b: seq<Byte>): nat
  {
    if b == [] then 0 else b[0] * Pow256(|b| - 1) + WeightedSum(b[1..])
  }

  lemma {:induction false} WeightedSumSnoc(a: seq<Byte>, x: Byte)
    ensures WeightedSum(a + [x]) == WeightedSum(a) * 256 + x
  {
    if a != [] {
      assert (a + [x])[1..] == a[1..] + [x];
      WeightedSumSnoc(a[1..], x);
      calc {
        WeightedSum(a + [x]);
        a[0] * Pow256(|a|) + WeightedSum(a[1..] + [x]);
        a[0] * (256 * Pow256(|a| - 1)) + WeightedSum(a[1..]) * 256 + x;
        { assert a[0] * (256 * Pow256(|a| - 1)) == (a[0] * Pow256(|a| - 1)) * 256; }
        (a[0] * Pow256(|a| - 1) + WeightedSum(a[1..])) * 256 + x;
      }
    } else {
      assert a + [x] == [x];
    }
  }

  /** Big-endian composition: the value read is the positional sum
      b[0]*256^(n-1) + ... + b[n-1]. */
  lemma {:induction false} FromBytesBigIsWeightedSum(b: seq<Byte>)
    ensures FromBytesBig(b) == WeightedSum(b)
  {
    if b != [] {
      var init, last := b[..|b| - 1], b[|b| - 1];
      assert b == init + [last];
      FromBytesBigIsWeightedSum(init);
      WeightedSumSnoc(init, last);
    }
  }

  /** `int.to_bytes(v, n, 'big')` (and `struct.pack('>H', v)` for n = 2);
      defined only where Python does not raise an overflow error. */
  function ToBytesBig(v: nat, n: nat): (b: seq<Byte>)
    requires v < Pow256(n)
    ensures |b| == n
  {
    if n == 0 then [] else ToBytesBig(v / 256, n - 1) + [v % 256]
  }

  /** Reading back what was written gives the original value. */
  lemma {:induction false} FromToBytesBig(v: nat, n: nat)
    requires v < Pow256(n)
    ensures FromBytesBig(ToBytesBig(v, n)) == v
  {
    if n > 0 {
      var b := ToBytesBig(v, n);
      assert b[..n - 1] == ToBytesBig(v / 256, n - 1);
      FromToBytesBig(v / 256, n - 1);
    }
  }

  /** Writing back what was read gives the original bytes. */
  lemma {:induction false} ToFromBytesBig(b: seq<Byte>)
    ensures ToBytesBig(FromBytesBig(b), |b|) == b
  {
    if b != [] {
      var init := b[..|b| - 1];
      ToFromBytesBig(init);
      assert b == init + [b[|b| - 1]];
    }
  }

  /** `bytearray(n)`: n zero bytes. */
  function Zeros(n: nat): (z: seq<Byte>)
    ensures |z| == n && forall i :: 0 <= i < n ==> z[i] == 0
  {
    seq(n, _ => 0)
  }

  /** An all-zero byte string reads as 0, whatever its width. */
  lemma {:induction false} FromBytesBigZero(b: seq<Byte>)
    requires forall i :: 0 <= i < |b| ==> b[i] == 0
    ensures FromBytesBig(b) == 0
  {
    if b != [] {
      FromBytesBigZero(b[..|b| - 1]);
    }
  }
}
