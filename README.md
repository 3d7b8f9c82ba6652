# recorder: queue adapters and WAVE serialiser, modelled in Dafny

`cloudnoize/recorder` is a small Go command-line program. It records from a
PortAudio input device, plays audio back, or saves a recording as a RIFF/WAVE
file. Its core logic sits in `cmd/main.go`, between the device plumbing and
the command line. This project models that logic and proves properties of it:

- **The stream handlers.** `record.CallBack` pushes every 1024-sample input
  block of the audio callback into a bounded 16-bit sample queue.
  `play.write16` decodes the WAVE reader's byte stream into the same kind of
  queue. `play.cb16` fills every 1024-sample output block from the queue,
  with silence once the queue runs dry. `play.Write` and `play.CallBack`
  choose the 16-bit path exactly when the 16-bit queue is set.
- **Queue sizing.** A recording gets `int32(44100 * sec)` slots. Playback
  gets `DataBytesCount / (bps / 8)` slots and accepts only 16 or 32 bits per
  sample.
- **The WAVE serialiser of `recnsave`.** It writes the 44-byte header for
  16-bit mono PCM at 44100 Hz, then every slot of the queue's backing array,
  little-endian.

Modules:

- `Conv` (conv.dfy): Go's fixed-width integer conversions. Also the
  little-endian encodings that the `conv` helpers stand for.
- `LocklessQ` (locklessq.dfy): the `locklessq.Qint16` queue. It is modelled
  as a sequential ring buffer: a zero-filled backing array `Q` whose length is
  the capacity, and monotonically increasing `head` and `tail` counters. The
  ghost `Contents` is the queued samples, oldest first. The package's source
  is not part of this model. Its policy is modelled as:
  - a full queue rejects the new sample;
  - an empty queue pops `(0, false)`.
- `Adapters` (adapters.dfy): the `record` and `play` handlers. The backend's
  raw buffer pointers become arrays of the 1024 samples the handlers cast
  them to.
- `Session` (session.dfy): queue sizing and the bit-depth gate.
- `Wave` (wave.dfy): the header and sample encoding of `recnsave`. It also
  holds `ParseWav`, a strict reference reader of canonical files and the
  inverse of `CanonicalWav`.

Where the code and the format's usual description disagree, the model follows
the code:

- The callbacks always touch 1024 samples, whatever frame count they are given.
- The RIFF chunk size is written as `38 + audioBytes`, not `36 + audioBytes`.
  See "Findings" below.

## Model

| member | source | states |
|---|---|---|
| Conv.U32 | cmd/main.go:256 | `uint32(x)` keeps x when x fits in 32 bits and always agrees with x modulo 2^32 |
| Conv.ToInt32 | cmd/main.go:135 | `int32(x)` keeps x when it fits and always agrees with x modulo 2^32 |
| Conv.U64 | cmd/main.go:135 | unsigned 64-bit products keep their value when it fits and agree with it modulo 2^64 |
| Conv.Int16Of | cmd/main.go:47 | `conv.BytesToint16` reads bytes lo, hi as the two's complement sample congruent to lo + 256·hi modulo 2^16, non-negative exactly when the high byte's top bit is clear |
| Conv.Int16RoundTrip | cmd/main.go:297 | decoding the two little-endian bytes stored for a sample gives the sample back |
| Conv.Int16BytesRoundTrip | cmd/main.go:47 | encoding the sample decoded from two bytes gives those two bytes back |
| Conv.UInt32RoundTrip | cmd/main.go:257 | the four little-endian bytes stored for a 32-bit field read back as that value |
| Conv.UInt32BytesRoundTrip | cmd/main.go:280 | any four bytes are the encoding of the value they read as |
| Conv.SamplesRoundTrip | cmd/main.go:294-298 | the byte image of a sample sequence (sample i at bytes 2i, 2i+1) decodes to that sequence |
| Conv.SampleBytesRoundTrip | cmd/main.go:45-50 | an even-length byte buffer is the byte image of the samples decoded from it |
| Conv.DecodeSamplesAppend | cmd/main.go:45-50 | decoding splits over a concatenation whose first part has even length |
| LocklessQ.PushAllAdmitsPrefix | cmd/main.go:27-29 | inserting a block one sample at a time keeps the queued samples and appends the longest prefix of the block that fits |
| LocklessQ.PushAllAppend | cmd/main.go:179 | inserting two blocks in turn equals inserting their concatenation |
| LocklessQ.PushAllFits | cmd/main.go:177-179 | with room for the whole block, the queue ends with exactly that block after its old contents |
| LocklessQ.Qint16.constructor | cmd/main.go:135 | a new queue has the given capacity, is empty, and its backing array is all zeros |
| LocklessQ.Qint16.Insert | cmd/main.go:28 | succeeds exactly when not full, appends the sample then, else changes nothing; the invariant is kept |
| LocklessQ.Qint16.Pop | cmd/main.go:70 | when non-empty, returns the oldest sample and removes it; when empty, returns (0, false) and changes nothing |
| LocklessQ.Qint16.BackingArrayLayout | cmd/main.go:296 | while nothing has been popped, the backing array is the queued samples followed by zeros |
| Adapters.WritesCompose | cmd/main.go:179 | feeding the byte stream in several writes, each but the last of even length, queues what one write would |
| Adapters.Record.constructor | cmd/main.go:135 | the capture handler holds the given queue |
| Adapters.Record.CallBack | cmd/main.go:25-30 | 1024 inserts, input sample k in the k-th whatever `frames` is; the queue gains the block's longest fitting prefix |
| Adapters.Player.constructor | cmd/main.go:234 | the playback handler holds the given 16-bit queue, or none |
| Adapters.Player.Write | cmd/main.go:38-43 | the 16-bit path is taken iff the 16-bit queue is set, with the effect of `write16` |
| Adapters.Player.CallBack | cmd/main.go:59-65 | the 16-bit path is taken iff the 16-bit queue is set, with the effect of `cb16` |
| Adapters.Player.Write16 | cmd/main.go:45-50 | inserts the sample of bytes 2k, 2k+1 in the k-th insert and returns the buffer's length; a trailing odd byte ends in an out-of-range read |
| Adapters.Player.Cb16 | cmd/main.go:67-73 | 1024 pops; the output is the first min(1024, queued) samples in order, then silence; those samples leave the queue |
| Session.RecordCapacity | cmd/main.go:135 | the recording queue gets 44100 slots per second, for up to 48695 seconds |
| Session.RecordCapacityWraps | cmd/main.go:135 | from 48696 through 97391 seconds the 32-bit capacity is 44100·sec − 2^32, a negative count; at 97392 seconds it wraps to 19904 slots |
| Session.PlaybackSetup | cmd/main.go:168-186 | below 8 bits the bytes-per-sample divisor is zero; only 16 and 32 bits get a queue, of `DataBytesCount / 2` and `/ 4` slots; any other depth is refused |
| Session.PreloadKeepsEverySample | cmd/main.go:170-179 | a 16-bit data chunk written into the queue sized for it is queued whole and in order |
| Wave.HeaderLayout | cmd/main.go:251-280 | the header is 44 bytes with "RIFF", chunk size, "WAVE", "fmt ", 16, 1, 1, 44100, 88200, 2, 16, "data", data size at their offsets; bytes 21, 23, 33, 35 are 0 |
| Wave.AsWrittenWav | cmd/main.go:249-298 | the file `recnsave` writes is 44 header bytes plus two per sample, and its bytes after the header decode back to exactly the samples |
| Wave.CanonicalWavRoundTrip | cmd/main.go:250-298 | the strict reader reads a canonical file back as exactly its samples |
| Wave.ParseWavOnlyCanonical | cmd/main.go:250-298 | whatever the strict reader accepts is byte for byte the canonical file of what it reads |
| Wave.AsWrittenChunkSizeOffByTwo | cmd/main.go:255-257 | the written chunk size is the file length minus 6, so the strict reader rejects every file the recorder writes |
| Wave.Copy | cmd/main.go:253 | `copy(dst[off:], src)` replaces exactly the bytes off to off+len(src) |
| Wave.UInt32ToBytes | cmd/main.go:257 | stores the little-endian bytes of x at off..off+4 and nothing else |
| Wave.Int16ToBytes | cmd/main.go:297 | stores the little-endian bytes of v at off and off+1 and nothing else |
| Wave.PutTag | cmd/main.go:253-278 | each `copy(buff[k:], []byte(tag))` extends the header written so far by the tag, leaving the bytes after it zero |
| Wave.PutUInt32 | cmd/main.go:257-280 | each `conv.UInt32ToBytes(x, buff[:], k)` extends the header written so far by the four bytes of x, leaving the bytes after it zero |
| Wave.PutByte | cmd/main.go:265-276 | each `buff[k] = v` extends the header written so far by a 16-bit field whose high byte stays zero |
| Wave.PutRiffDescriptor | cmd/main.go:252-259 | writes bytes 0-11 of the header into the zeroed buffer |
| Wave.PutFormatChunk | cmd/main.go:260-276 | writes bytes 12-35 of the header; the high bytes of the 16-bit fields stay zero |
| Wave.PutDataChunkHeader | cmd/main.go:277-280 | writes bytes 36-43 of the header |
| Wave.BuildHeader | cmd/main.go:250-280 | the filled 44-byte buffer is exactly the header for the given chunk and data sizes |
| Wave.EncodeSamples | cmd/main.go:294-298 | the data buffer is twice the array's length, sample i at bytes 2i and 2i+1, and decodes back to the array |
| Wave.SaveRecording | cmd/main.go:249-298 | the written bytes are the header with chunk size 38 + 2·capacity and data size 2·capacity, then the whole backing array; while nothing was popped that is the recording plus trailing silence |
| Wave.SaveRecordingCanonical | cmd/main.go:249-298 | with chunk size 36 + data size, the saved file reads back as the backing array, and so as the recording plus silence |

## Left out

- Flag parsing, the console device prompt and `strconv.Atoi` (cmd/main.go:85-122, 188-199, 221-231): command-line and terminal I/O.
- PortAudio: initialise, list devices, format check, open, start, stop, close and terminate. These are foreign calls. The stream's calls into the handlers are modelled as the callbacks themselves.
- The `time.Sleep` session lengths: wall-clock control. The number of callbacks a session sees is left open.
- `os.OpenFile`, `f.Write`, `f.Close`, `log.Fatal` and the debug printing of the header (cmd/main.go:282-292, 299-304). These are file and console I/O; the model produces the bytes written. The file is opened without truncation, so a longer older file keeps its trailing bytes. That is not modelled.
- `wavreader` (the WAVE reader behind `play` and `io.Copy`): a library that is not part of this model. Its byte stream, its bit depth and its data size are inputs. `Adapters.WritesCompose` covers how `io.Copy` cuts that stream into writes, for cuts at even offsets; a write of odd length ends in the out-of-range read of `Adapters.Player.Write16`.
- The float32 paths `play.write32`, `play.cb32` and `conv.BytesToFloat32`: floating point. Only the dispatch to them is modelled.
- The lock-free, single-producer single-consumer publication of `locklessq`: concurrency. The queue is modelled sequentially, one operation at a time.
- The internals of `conv`: specified as little-endian encode and decode, not modelled from their source.
- LocklessQ.Qint16.Insert: the queue-full policy (reject the newest sample) is chosen, because the package's source is not part of this model.
- LocklessQ.Qint16.constructor: takes a non-negative capacity. The `int32` capacity is negative for recordings of 48696 through 97391 seconds (see `Session.RecordCapacityWraps`); such a capacity would reach `NewQint16`, whose behaviour is not part of this model. Longer recordings wrap back to a small positive capacity (19904 slots at 97392 seconds) that is silently wrong, and the model takes it as given.
- LocklessQ.Qint16: the read and write counters are unbounded; the width of the package's counters is not known.
- Adapters.Player.Write16: `conv.BytesToint16` is taken to index the byte after the offset. An odd-length buffer therefore ends in Go's index-out-of-range panic, after every whole sample is queued. This is returned as `IndexOutOfRange` rather than as a crash.
- Adapters.Player.Write: when the 16-bit queue is not set, the result only says that the float32 path was taken.

## Findings

| source | as written | input that shows it | evidently intended | confidence | as-written member | corrected member |
|---|---|---|---|---|---|---|
| cmd/main.go:256 | `chunksize := uint32(38 + audioBytes)` | any recording. The empty one: a 44-byte file whose chunk size reads 38. One second: 88244 bytes, chunk size 88238 | 36 + audioBytes, the file length minus the 8 bytes of "RIFF" and the size field | high; not executed | Wave.AsWrittenChunkSizeOffByTwo | Wave.SaveRecordingCanonical |
