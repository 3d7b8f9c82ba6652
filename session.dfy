/** How cmd/main.go sizes the sample queue of a session: from the requested
    recording length when capturing, and from the WAVE file's data chunk when
    playing, where the file's bit depth also picks the queue and sample format. */
module Session {
  import opened Conv
  import opened LocklessQ

  /** The capture sample rate the recorder asks the backend for. */
  const DesiredSampleRate: nat := 44100

  /** Queue capacity for a recording of `sec` seconds: `int32(desiredSR * sec)`,
      computed in unsigned 64-bit arithmetic and then truncated to 32 bits. */
  function RecordCapacity(sec: uint64): (c: int32)
    ensures sec <= 48695 ==> c == DesiredSampleRate * sec
  {
    ToInt32(U64(DesiredSampleRate * sec))
  }

  /** From 48696 seconds on the 32-bit capacity wraps: it is negative up to
      97391 seconds, and at 97392 seconds it is a small positive count again. */
  lemma RecordCapacityWraps(sec: uint64)
    ensures 48696 <= sec <= 97391 ==> RecordCapacity(sec) == DesiredSampleRate * sec - 0x1_0000_0000 < 0
    ensures sec == 97392 ==> RecordCapacity(sec) == 19904
  {
    if 48696 <= sec <= 97391 {
      assert U64(DesiredSampleRate * sec) == DesiredSampleRate * sec;
      assert 0x8000_0000 <= DesiredSampleRate * sec < 0x1_0000_0000;
    }
  }

  /** The outcome of preparing playback for a file of the given bit depth and
      data chunk size. `DivideByZero` is the run-time panic of dividing by a
      zero bytes-per-sample; `UnsupportedBps` is the fatal "Unsupported bps". */
  datatype Setup =
    | DivideByZero
    | UnsupportedBps(bps: uint16)
    | Int16Queue(capacity: int32)
    | Float32Queue(capacity: int32)

  /** Playback setup: the capacity `DataBytesCount / (bps / 8)` is computed
      before the bit depth is checked, so a depth under 8 bits divides by zero
      first; only 16 and 32 bits get a queue, of one slot per sample of the
      data chunk. */
  function PlaybackSetup(bps: uint16, dataBytes: uint32): (r: Setup)
    ensures r.DivideByZero? <==> bps < 8
    ensures r.UnsupportedBps? <==> 8 <= bps && bps != 16 && bps != 32
    ensures r.Int16Queue? <==> bps == 16
    ensures r.Float32Queue? <==> bps == 32
    ensures r.Int16Queue? ==> r.capacity == dataBytes / 2
    ensures r.Float32Queue? ==> r.capacity == dataBytes / 4
  {
    var bytesPerSample := U32(bps / 8);
    if bytesPerSample == 0 then DivideByZero
    else
      var buffsize := ToInt32(dataBytes / bytesPerSample);
      if bps == 16 then Int16Queue(buffsize)
      else if bps == 32 then Float32Queue(buffsize)
      else UnsupportedBps(bps)
  }

  /** A 16-bit file's data chunk, written whole into the queue sized for it,
      is queued completely and in order: the preload drops no sample. */
  lemma PreloadKeepsEverySample(data: seq<byte>)
    requires |data| < 0x1_0000_0000 && |data| % 2 == 0
    ensures PlaybackSetup(16, |data|).Int16Queue?
    ensures PushAll([], DecodeSamples(data), PlaybackSetup(16, |data|).capacity) == DecodeSamples(data)
  {
    PushAllFits([], DecodeSamples(data), PlaybackSetup(16, |data|).capacity);
  }
}
