/** The `recnsave` step of cmd/main.go: the recorded queue's backing array is
    saved as a RIFF/WAVE file of 16-bit mono linear PCM at 44100 Hz, a
    44-byte header followed by every sample, little-endian. Opening, writing
    and closing the file are left out; the model produces the bytes written.
    Beside it stands `ParseWav`, a strict reference reader of canonical files
    and the inverse of `CanonicalWav`. */
module Wave {
  import opened Conv
  import opened LocklessQ

  datatype Option<T> = None | Some(value: T)

  const HeaderSize: nat := 44
  const Channels: nat := 1
  const SampleRate: nat := 44100
  const BitsPerSample: nat := 16

  /** A four-character chunk identifier as the bytes of its ASCII characters. */
  function Tag(s: string): seq<byte>
    requires |s| == 4 && forall i :: 0 <= i < 4 ==> s[i] as int < 0x100
  {
    [s[0] as int, s[1] as int, s[2] as int, s[3] as int]
  }

  /** The header the recorder writes, for given RIFF chunk size and data size:
      "RIFF", chunk size, "WAVE", then the `fmt ` sub-chunk (size 16, linear
      PCM, one channel, 44100 Hz, 88200 bytes per second, 2-byte blocks, 16 bits
      per sample), then the `data` sub-chunk's identifier and size. */
  function HeaderBytes(chunkSize: uint32, dataSize: uint32): seq<byte>
  {
    Tag("RIFF") + UInt32Bytes(chunkSize) + Tag("WAVE") +
    Tag("fmt ") + UInt32Bytes(16) + [1, 0] + [1, 0] +
    UInt32Bytes(44100) + UInt32Bytes(88200) + [2, 0] + [16, 0] +
    Tag("data") + UInt32Bytes(dataSize)
  }

  /** Every field of the header sits at its fixed offset, and the bytes the
      recorder never writes (the high bytes of the 16-bit fields) are zero. */
  lemma HeaderLayout(chunkSize: uint32, dataSize: uint32)
    ensures var h := HeaderBytes(chunkSize, dataSize);
      |h| == HeaderSize &&
      h[0..4] == Tag("RIFF") &&
      h[4..8] == UInt32Bytes(chunkSize) && UInt32Of(h[4..8]) == chunkSize &&
      h[8..12] == Tag("WAVE") && h[12..16] == Tag("fmt ") &&
      h[16..20] == UInt32Bytes(16) && UInt32Of(h[16..20]) == 16 &&
      h[20] == 1 && h[21] == 0 && h[22] == Channels && h[23] == 0 &&
      h[24..28] == UInt32Bytes(44100) && UInt32Of(h[24..28]) == SampleRate &&
      h[28..32] == UInt32Bytes(88200) &&
      UInt32Of(h[28..32]) == SampleRate * Channels * BitsPerSample / 8 &&
      h[32] == Channels * BitsPerSample / 8 && h[33] == 0 &&
      h[34] == BitsPerSample && h[35] == 0 &&
      h[36..40] == Tag("data") &&
      h[40..44] == UInt32Bytes(dataSize) && UInt32Of(h[40..44]) == dataSize
  {
    var h := HeaderBytes(chunkSize, dataSize);
    assert h[0..4] == Tag("RIFF");
    assert h[4..8] == UInt32Bytes(chunkSize);
    assert h[8..12] == Tag("WAVE");
    assert h[12..16] == Tag("fmt ");
    assert h[16..20] == UInt32Bytes(16);
    assert h[24..28] == UInt32Bytes(44100);
    assert h[28..32] == UInt32Bytes(88200);
    assert h[36..40] == Tag("data");
    assert h[40..44] == UInt32Bytes(dataSize);
    UInt32RoundTrip(chunkSize);
    UInt32RoundTrip(16);
    UInt32RoundTrip(44100);
    UInt32RoundTrip(88200);
    UInt32RoundTrip(dataSize);
  }

  function Zeros(n: nat): seq<byte>
  {
    seq(n, _ => 0)
  }

  /** Writing the next field of `h` into a buffer that holds the first `e` bytes
      of `h` and zeros after them yields one that holds `h` up to the field's
      end, plus the `gap` zero bytes of `h` that follow it. */
  lemma Advance(h: seq<byte>, e: nat, field: seq<byte>, gap: nat)
    requires e + |field| + gap <= |h|
    requires h[e..e + |field|] == field
    requires forall k :: e + |field| <= k < e + |field| + gap ==> h[k] == 0
    ensures var b := h[..e] + Zeros(|h| - e);
      b[..e] + field + b[e + |field|..] == h[..e + |field| + gap] + Zeros(|h| - (e + |field| + gap))
  {
    var b := h[..e] + Zeros(|h| - e);
    var e' := e + |field| + gap;
    var lhs := b[..e] + field + b[e + |field|..];
    var rhs := h[..e'] + Zeros(|h| - e');
    assert |lhs| == |rhs|;
    forall k | 0 <= k < |lhs|
      ensures lhs[k] == rhs[k]
    {
      if k < e {
      } else if k < e + |field| {
        assert lhs[k] == field[k - e] == h[k];
      } else {
        assert lhs[k] == b[k] == 0;
      }
    }
  }

  /** The bytes of a whole file: the header the recorder writes, whose chunk
      size counts 38 bytes besides the samples, then the samples. */
  function AsWrittenWav(s: seq<int16>): (f: seq<byte>)
    ensures |f| == HeaderSize + 2 * |s|
    ensures DecodeSamples(f[HeaderSize..]) == s
  {
    var f := HeaderBytes(U32(38 + 2 * |s|), U32(2 * |s|)) + Samples16LE(s);
    assert f[HeaderSize..] == Samples16LE(s);
    SamplesRoundTrip(s);
    f
  }

  /** The canonical file, whose chunk size counts the 36 header bytes after
      the chunk size field, plus the samples. */
  function CanonicalWav(s: seq<int16>): seq<byte>
    requires 36 + 2 * |s| < 0x1_0000_0000
  {
    HeaderBytes(36 + 2 * |s|, 2 * |s|) + Samples16LE(s)
  }

  /** A strict reader of canonical 16-bit mono 44100 Hz files: every fixed header
      field must match, the RIFF chunk must end at the end of the file, and the
      data chunk must be the rest of the file, in whole samples. */
  function ParseWav(f: seq<byte>): Option<seq<int16>>
  {
    if |f| < HeaderSize then None
    else
      var chunkSize := UInt32Of(f[4..8]);
      var dataSize := UInt32Of(f[40..44]);
      if f[..HeaderSize] == HeaderBytes(chunkSize, dataSize) &&
         chunkSize == |f| - 8 && dataSize == |f| - HeaderSize && dataSize % 2 == 0
      then Some(DecodeSamples(f[HeaderSize..]))
      else None
  }

  /** The canonical file of any sample sequence it can hold reads back as exactly that sequence. */
  lemma CanonicalWavRoundTrip(s: seq<int16>)
    requires 36 + 2 * |s| < 0x1_0000_0000
    ensures ParseWav(CanonicalWav(s)) == Some(s)
  {
    var f := CanonicalWav(s);
    var h := HeaderBytes(36 + 2 * |s|, 2 * |s|);
    HeaderLayout(36 + 2 * |s|, 2 * |s|);
    assert f[..HeaderSize] == h && f[4..8] == h[4..8] && f[40..44] == h[40..44];
    assert f[HeaderSize..] == Samples16LE(s);
    SamplesRoundTrip(s);
  }

  /** The reader accepts nothing but canonical files: what it reads back
      determines the file byte for byte. */
  lemma ParseWavOnlyCanonical(f: seq<byte>, s: seq<int16>)
    requires ParseWav(f) == Some(s)
    ensures 36 + 2 * |s| < 0x1_0000_0000 && f == CanonicalWav(s)
  {
    var data := f[HeaderSize..];
    assert |data| % 2 == 0 && s == DecodeSamples(data);
    SampleBytesRoundTrip(data);
    assert |s| * 2 == |data|;
    assert f == f[..HeaderSize] + data;
  }

  /** The recorder's files are never canonical: the chunk size field claims two
      bytes more than the file holds after it, so the strict reader rejects
      every one of them, the recording of no samples at all included. */
  lemma AsWrittenChunkSizeOffByTwo(s: seq<int16>)
    ensures |AsWrittenWav(s)| == HeaderSize + 2 * |s|
    ensures UInt32Of(AsWrittenWav(s)[4..8]) == U32(|AsWrittenWav(s)| - 6)
    ensures ParseWav(AsWrittenWav(s)) == None
    ensures AsWrittenWav([]) == HeaderBytes(38, 0)
  {
    var f := AsWrittenWav(s);
    var h := HeaderBytes(U32(38 + 2 * |s|), U32(2 * |s|));
    HeaderLayout(U32(38 + 2 * |s|), U32(2 * |s|));
    assert |f| == HeaderSize + 2 * |s|;
    assert f[4..8] == h[4..8];
    assert UInt32Of(f[4..8]) == U32(38 + 2 * |s|) != |f| - 8;
  }

  /** Go's `copy(dst[off:], src)` for a source that fits. */
  method Copy(dst: array<byte>, off: nat, src: seq<byte>)
    requires off + |src| <= dst.Length
    modifies dst
    ensures dst[..] == old(dst[..])[..off] + src + old(dst[..])[off + |src|..]
  {
    for i := 0 to |src|
      invariant dst[..] == old(dst[..])[..off] + src[..i] + old(dst[..])[off + i..]
    {
      dst[off + i] := src[i];
      assert src[..i + 1] == src[..i] + [src[i]];
    }
  }

  /** `conv.UInt32ToBytes(x, dst, off)`: stores x little-endian at dst[off..off+4]. */
  method UInt32ToBytes(x: uint32, dst: array<byte>, off: nat)
    requires off + 4 <= dst.Length
    modifies dst
    ensures dst[..] == old(dst[..])[..off] + UInt32Bytes(x) + old(dst[..])[off + 4..]
  {
    Copy(dst, off, UInt32Bytes(x));
  }

  /** `conv.Int16ToBytes(v, dst, off)`: stores v little-endian at dst[off..off+2]. */
  method Int16ToBytes(v: int16, dst: array<byte>, off: nat)
    requires off + 2 <= dst.Length
    modifies dst
    ensures dst[off] == Int16Bytes(v)[0] && dst[off + 1] == Int16Bytes(v)[1]
    ensures forall k :: 0 <= k < dst.Length && k != off && k != off + 1 ==> dst[k] == old(dst[k])
  {
    var b := Int16Bytes(v);
    dst[off] := b[0];
    dst[off + 1] := b[1];
  }

  /** The buffer holds the first `e` bytes of `want` and zeros after them. */
  ghost predicate FilledUpTo(buff: array<byte>, want: seq<byte>, e: nat)
    reads buff
  {
    e <= |want| == buff.Length && buff[..] == want[..e] + Zeros(|want| - e)
  }

  /** `copy(buff[e:], field)` for the next field of the header. */
  method PutTag(buff: array<byte>, e: nat, field: seq<byte>, ghost want: seq<byte>)
    requires FilledUpTo(buff, want, e) && e + |field| <= |want|
    requires want[e..e + |field|] == field
    modifies buff
    ensures FilledUpTo(buff, want, e + |field|)
  {
    Copy(buff, e, field);
    Advance(want, e, field, 0);
  }

  /** `conv.UInt32ToBytes(x, buff, e)` for the next field of the header. */
  method PutUInt32(buff: array<byte>, e: nat, x: uint32, ghost want: seq<byte>)
    requires FilledUpTo(buff, want, e) && e + 4 <= |want|
    requires want[e..e + 4] == UInt32Bytes(x)
    modifies buff
    ensures FilledUpTo(buff, want, e + 4)
  {
    UInt32ToBytes(x, buff, e);
    Advance(want, e, UInt32Bytes(x), 0);
  }

  /** `buff[e] = v` for the low byte of a 16-bit field whose high byte stays zero. */
  method PutByte(buff: array<byte>, e: nat, v: byte, ghost want: seq<byte>)
    requires FilledUpTo(buff, want, e) && e + 2 <= |want|
    requires want[e] == v && want[e + 1] == 0
    modifies buff
    ensures FilledUpTo(buff, want, e + 2)
  {
    ghost var before := buff[..];
    buff[e] := v;
    assert buff[..] == before[..e] + [v] + before[e + 1..];
    Advance(want, e, [v], 1);
  }

  /** The header for the given chunk size and data size, written field by
      field into a zeroed 44-byte buffer as the recorder does. */
  method BuildHeader(chunksize: uint32, dataSize: uint32) returns (h: seq<byte>)
    ensures h == HeaderBytes(chunksize, dataSize)
  {
    ghost var want := HeaderBytes(chunksize, dataSize);
    HeaderLayout(chunksize, dataSize);
    var buff := new byte[HeaderSize](_ => 0);
    assert buff[..] == want[..0] + Zeros(44);
    PutRiffDescriptor(buff, chunksize, want);
    PutFormatChunk(buff, want);
    PutDataChunkHeader(buff, dataSize, want);
    h := buff[..];
    assert want[..44] == want;
  }

  /** The RIFF descriptor: "RIFF", the chunk size, "WAVE" (bytes 0 to 11). */
  method PutRiffDescriptor(buff: array<byte>, chunksize: uint32, ghost want: seq<byte>)
    requires |want| == HeaderSize && FilledUpTo(buff, want, 0)
    requires want[0..4] == Tag("RIFF") && want[4..8] == UInt32Bytes(chunksize) && want[8..12] == Tag("WAVE")
    modifies buff
    ensures FilledUpTo(buff, want, 12)
  {
    PutTag(buff, 0, Tag("RIFF"), want);
    PutUInt32(buff, 4, chunksize, want);
    PutTag(buff, 8, Tag("WAVE"), want);
  }

  /** The `fmt ` sub-chunk of 16-bit mono PCM at 44100 Hz (bytes 12 to 35). */
  method PutFormatChunk(buff: array<byte>, ghost want: seq<byte>)
    requires |want| == HeaderSize && FilledUpTo(buff, want, 12)
    requires want[12..16] == Tag("fmt ") && want[16..20] == UInt32Bytes(16)
    requires want[20] == 1 && want[21] == 0 && want[22] == 1 && want[23] == 0
    requires want[24..28] == UInt32Bytes(44100) && want[28..32] == UInt32Bytes(88200)
    requires want[32] == 2 && want[33] == 0 && want[34] == 16 && want[35] == 0
    modifies buff
    ensures FilledUpTo(buff, want, 36)
  {
    PutTag(buff, 12, Tag("fmt "), want);
    PutUInt32(buff, 16, 16, want);
    PutByte(buff, 20, 1, want);
    PutByte(buff, 22, 1, want);
    PutUInt32(buff, 24, 44100, want);
    PutUInt32(buff, 28, 44100 * 1 * 16 / 8, want);
    PutByte(buff, 32, 1 * 16 / 8, want);
    PutByte(buff, 34, 16, want);
  }

  /** The `data` sub-chunk's identifier and size (bytes 36 to 43). */
  method PutDataChunkHeader(buff: array<byte>, dataSize: uint32, ghost want: seq<byte>)
    requires |want| == HeaderSize && FilledUpTo(buff, want, 36)
    requires want[36..40] == Tag("data") && want[40..44] == UInt32Bytes(dataSize)
    modifies buff
    ensures FilledUpTo(buff, want, 44)
  {
    PutTag(buff, 36, Tag("data"), want);
    PutUInt32(buff, 40, dataSize, want);
  }

  /** The data chunk: sample i of the backing array at bytes 2i and 2i+1. */
  method EncodeSamples(samples: array<int16>) returns (data: seq<byte>)
    ensures data == Samples16LE(samples[..])
    ensures |data| == 2 * samples.Length && DecodeSamples(data) == samples[..]
  {
    var audioBytes := samples.Length * 2;
    var bytebuff := new byte[audioBytes](_ => 0);
    for i := 0 to samples.Length
      invariant forall j :: 0 <= j < 2 * i ==> bytebuff[j] == Int16Bytes(samples[j / 2])[j % 2]
    {
      Int16ToBytes(samples[i], bytebuff, i * 2);
    }
    data := bytebuff[..];
    SamplesRoundTrip(samples[..]);
  }

  /** The bytes `recnsave` writes for the recorded queue: the header, whose
      chunk size is 38 plus and whose data size is twice the queue's capacity,
      then the whole backing array, occupied or not. While nothing has been
      popped, that is the recording followed by silence up to the capacity. */
  method SaveRecording(q: Qint16) returns (header: seq<byte>, data: seq<byte>)
    requires q.Valid()
    ensures header + data == AsWrittenWav(q.Q[..])
    ensures |header| == HeaderSize && |data| == 2 * q.Q.Length
    ensures DecodeSamples(data) == q.Q[..]
    ensures q.head == 0 ==> DecodeSamples(data) == q.Contents + Silence(q.Q.Length - |q.Contents|)
  {
    var audioBytes := q.Q.Length * 2;
    var chunksize := U32(38 + audioBytes);
    header := BuildHeader(chunksize, U32(audioBytes));
    HeaderLayout(chunksize, U32(audioBytes));
    data := EncodeSamples(q.Q);
    if q.head == 0 {
      q.BackingArrayLayout();
    }
  }

  /** `recnsave` with the chunk size the format prescribes, 36 plus the data
      size: the saved file reads back as the whole backing array, and so, while
      nothing has been popped, as the recording followed by silence. */
  method SaveRecordingCanonical(q: Qint16) returns (header: seq<byte>, data: seq<byte>)
    requires q.Valid() && 36 + 2 * q.Q.Length < 0x1_0000_0000
    ensures header + data == CanonicalWav(q.Q[..])
    ensures ParseWav(header + data) == Some(q.Q[..])
    ensures q.head == 0 ==> ParseWav(header + data) == Some(q.Contents + Silence(q.Q.Length - |q.Contents|))
  {
    var audioBytes := q.Q.Length * 2;
    header := BuildHeader(36 + audioBytes, audioBytes);
    data := EncodeSamples(q.Q);
    CanonicalWavRoundTrip(q.Q[..]);
    if q.head == 0 {
      q.BackingArrayLayout();
    }
  }
}
