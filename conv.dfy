/** Fixed-width integers of Go, and the little-endian byte conversions that the
    recorder takes from its `conv` helper package (Int16ToBytes, BytesToint16,
    UInt32ToBytes). The package itself is not part of this model: its helpers
    are specified here as the little-endian encodings the RIFF/WAVE format
    requires. */
module Conv {

  type byte = x: int | 0 <= x < 0x100
  type int16 = x: int | -0x8000 <= x < 0x8000
  type uint16 = x: int | 0 <= x < 0x1_0000
  type int32 = x: int | -0x8000_0000 <= x < 0x8000_0000
  type uint32 = x: int | 0 <= x < 0x1_0000_0000
  type uint64 = x: int | 0 <= x < 0x1_0000_0000_0000_0000

  /** Go's conversion `uint32(x)`: keeps the low 32 bits. */
  function U32(x: int): (r: uint32)
    ensures 0 <= x < 0x1_0000_0000 ==> r == x
    ensures (x - r) % 0x1_0000_0000 == 0
  {
    x % 0x1_0000_0000
  }

  /** Unsigned 64-bit arithmetic in Go wraps modulo 2^64. */
  function U64(x: int): (r: uint64)
    ensures 0 <= x < 0x1_0000_0000_0000_0000 ==> r == x
    ensures (x - r) % 0x1_0000_0000_0000_0000 == 0
  {
    x % 0x1_0000_0000_0000_0000
  }

  /** Go's conversion `int32(x)`: the low 32 bits read as two's complement. */
  function ToInt32(x: int): (r: int32)
    ensures -0x8000_0000 <= x < 0x8000_0000 ==> r == x
    ensures (x - r) % 0x1_0000_0000 == 0
  {
    var u := x % 0x1_0000_0000;
    if u < 0x8000_0000 then u else u - 0x1_0000_0000
  }

  /** The two bytes `conv.Int16ToBytes` stores for a sample: low byte first. */
  function Int16Bytes(v: int16): seq<byte>
  {
    var u := v % 0x1_0000;
    [u % 0x100, u / 0x100]
  }

  /** `conv.BytesToint16`: the sample whose little-endian bytes are lo, hi, read
      as a two's complement 16-bit integer. */
  function Int16Of(lo: byte, hi: byte): (r: int16)
    ensures (r as int - lo as int - 0x100 * hi as int) % 0x1_0000 == 0
    ensures hi < 0x80 <==> r >= 0
  {
    var u := lo as int + 0x100 * hi as int;
    if u < 0x8000 then u else u - 0x1_0000
  }

  lemma Int16RoundTrip(v: int16)
    ensures |Int16Bytes(v)| == 2
    ensures Int16Of(Int16Bytes(v)[0], Int16Bytes(v)[1]) == v
  {
    var u := v % 0x1_0000;
    assert u % 0x100 + 0x100 * (u / 0x100) == u;
    if v < 0 {
      assert u == v + 0x1_0000;
    }
  }

  lemma Int16BytesRoundTrip(lo: byte, hi: byte)
    ensures Int16Bytes(Int16Of(lo, hi)) == [lo, hi]
  {
    var u := lo as int + 0x100 * hi as int;
    var v := Int16Of(lo, hi);
    assert (v as int) % 0x1_0000 == u;
    assert u % 0x100 == lo && u / 0x100 == hi;
  }

  /** The four bytes `conv.UInt32ToBytes` stores: least significant first. */
  function UInt32Bytes(x: uint32): seq<byte>
  {
    [x % 0x100, x / 0x100 % 0x100, x / 0x1_0000 % 0x100, x / 0x100_0000]
  }

  /** The little-endian reading of four bytes. */
  function UInt32Of(b: seq<byte>): uint32
    requires |b| == 4
  {
    b[0] as int + 0x100 * b[1] as int + 0x1_0000 * b[2] as int + 0x100_0000 * b[3] as int
  }

  lemma UInt32RoundTrip(x: uint32)
    ensures |UInt32Bytes(x)| == 4
    ensures UInt32Of(UInt32Bytes(x)) == x
  {
    var b := UInt32Bytes(x);
    assert x / 0x100 == x / 0x100 % 0x100 + 0x100 * (x / 0x1_0000);
    assert x / 0x1_0000 == x / 0x1_0000 % 0x100 + 0x100 * (x / 0x100_0000);
  }

  lemma UInt32BytesRoundTrip(b: seq<byte>)
    requires |b| == 4
    ensures UInt32Bytes(UInt32Of(b)) == b
  {
    var x := UInt32Of(b);
    assert x % 0x100 == b[0];
    assert x / 0x100 == b[1] as int + 0x100 * b[2] as int + 0x1_0000 * b[3] as int;
    assert x / 0x1_0000 == b[2] as int + 0x100 * b[3] as int;
    assert x / 0x100_0000 == b[3];
  }

  /** The byte image of a sample sequence: sample i at bytes 2i and 2i+1. */
  function Samples16LE(s: seq<int16>): (b: seq<byte>)
  {
    seq(2 * |s|, j requires 0 <= j < 2 * |s| => Int16Bytes(s[j / 2])[j % 2])
  }

  /** Reads consecutive byte pairs as samples; an odd trailing byte is not a sample. */
  function DecodeSamples(b: seq<byte>): seq<int16>
  {
    seq(|b| / 2, k requires 0 <= k < |b| / 2 => Int16Of(b[2 * k], b[2 * k + 1]))
  }

  lemma {:induction false} SamplesRoundTrip(s: seq<int16>)
    ensures DecodeSamples(Samples16LE(s)) == s
  {
    var b := Samples16LE(s);
    assert |b| / 2 == |s|;
    forall k | 0 <= k < |s|
      ensures DecodeSamples(b)[k] == s[k]
    {
      Int16RoundTrip(s[k]);
      assert b[2 * k] == Int16Bytes(s[k])[0];
      assert b[2 * k + 1] == Int16Bytes(s[k])[1];
    }
  }

  lemma {:induction false} SampleBytesRoundTrip(b: seq<byte>)
    requires |b| % 2 == 0
    ensures Samples16LE(DecodeSamples(b)) == b
  {
    var s := DecodeSamples(b);
    forall j | 0 <= j < |b|
      ensures Samples16LE(s)[j] == b[j]
    {
      var k := j / 2;
      Int16BytesRoundTrip(b[2 * k], b[2 * k + 1]);
      assert j == 2 * k || j == 2 * k + 1;
    }
  }

  /** Decoding splits over concatenation when the first part holds whole samples. */
  lemma {:induction false} DecodeSamplesAppend(a: seq<byte>, b: seq<byte>)
    requires |a| % 2 == 0
    ensures DecodeSamples(a + b) == DecodeSamples(a) + DecodeSamples(b)
  {
    var ab := a + b;
    assert |ab| / 2 == |a| / 2 + |b| / 2;
    forall k | 0 <= k < |ab| / 2
      ensures DecodeSamples(ab)[k] == (DecodeSamples(a) + DecodeSamples(b))[k]
    {
      if k >= |a| / 2 {
        var k' := k - |a| / 2;
        assert ab[2 * k] == b[2 * k'] && ab[2 * k + 1] == b[2 * k' + 1];
      }
    }
  }
}
