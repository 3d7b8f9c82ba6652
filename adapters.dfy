/** The stream handlers of cmd/main.go that bind the audio backend's callback
    buffers and the WAVE reader's byte stream to the 16-bit sample queue:
    `record` (the capture producer) and `play` (the file-reading producer and
    the playback consumer). The backend's raw buffer pointers are modelled as
    arrays of the 1024 samples the handlers cast them to; the unused pointer
    of each callback is not modelled. */
module Adapters {
  import opened Conv
  import opened LocklessQ

  /** Feeding the 16-bit handler its byte stream in several writes, every one
      but the last of an even length, queues what one write of the whole stream
      would: how the stream is cut into writes does not matter. */
  lemma {:induction false} WritesCompose(c: seq<int16>, a: seq<byte>, b: seq<byte>, n: nat)
    requires |a| % 2 == 0
    ensures PushAll(PushAll(c, DecodeSamples(a), n), DecodeSamples(b), n)
         == PushAll(c, DecodeSamples(a + b), n)
  {
    DecodeSamplesAppend(a, b);
    PushAllAppend(c, DecodeSamples(a), DecodeSamples(b), n);
  }

  /** The number of samples every callback casts its buffer to. */
  const Frames: nat := 1024

  /** Which sample format a `play` handler dispatches to. */
  datatype Path = Int16Path | Float32Path

  /** What `play.Write` returns. `Written(n)` is `(n, nil)`. `IndexOutOfRange`
      is the run-time panic of reading the second byte of a trailing odd byte.
      `Float32Dispatched` marks the 32-bit float path, whose effect is not modelled. */
  datatype WriteOutcome = Written(n: nat) | IndexOutOfRange(index: nat) | Float32Dispatched

  /** The capture handler: every callback pushes its input block into the queue. */
  class Record {
    var q: Qint16

    constructor (q: Qint16)
      ensures this.q == q
    {
      this.q := q;
    }

    /** `record.CallBack`: exactly 1024 inserts, input sample k in the k-th,
        whatever `frames` says; a full queue drops the rest of the block. */
    method CallBack(inputBuffer: array<int16>, frames: uint64)
      requires q.Valid() && inputBuffer.Length == Frames && inputBuffer != q.Q
      modifies q, q.Q
      ensures q.Valid() && q.Q == old(q.Q) && q.head == old(q.head)
      ensures q.Contents == PushAll(old(q.Contents), inputBuffer[..], q.Q.Length)
      ensures q.Contents == old(q.Contents) + inputBuffer[..Min(Frames, q.Q.Length - |old(q.Contents)|)]
    {
      ghost var c0 := q.Contents;
      for i := 0 to inputBuffer.Length
        invariant q.Valid() && q.Q == old(q.Q) && q.head == old(q.head)
        invariant q.Contents == PushAll(c0, inputBuffer[..i], q.Q.Length)
      {
        assert inputBuffer[..i + 1][..i] == inputBuffer[..i];
        var _ := q.Insert(inputBuffer[i]);
      }
      assert inputBuffer[..inputBuffer.Length] == inputBuffer[..];
      PushAllAdmitsPrefix(c0, inputBuffer[..], q.Q.Length);
    }
  }

  /** The playback handler. Only its 16-bit queue is modelled; the 32-bit float
      queue and the embedded WAVE reader are not part of this model. */
  class Player {
    var q16: Qint16?

    constructor (q16: Qint16?)
      ensures this.q16 == q16
    {
      this.q16 := q16;
    }

    /** The objects the handler may change: its 16-bit queue and that queue's slots. */
    ghost function Repr(): set<object>
      reads this, q16
    {
      if q16 == null then {} else var q: Qint16 := q16; {q, q.Q}
    }

    /** `play.Write`: the 16-bit path is taken exactly when the 16-bit queue is set. */
    method Write(buff: seq<byte>) returns (r: WriteOutcome)
      requires q16 != null ==> q16.Valid()
      modifies Repr()
      ensures r.Float32Dispatched? <==> q16 == null
      ensures q16 != null ==> q16.Valid() && q16.Q == old(q16.Q) && q16.head == old(q16.head)
      ensures q16 != null ==> r == (if |buff| % 2 == 0 then Written(|buff|) else IndexOutOfRange(|buff|))
      ensures q16 != null ==>
        q16.Contents == PushAll(old(q16.Contents), DecodeSamples(buff), q16.Q.Length)
    {
      if q16 != null {
        r := Write16(buff);
      } else {
        r := Float32Dispatched;
      }
    }

    /** `play.CallBack`: the 16-bit path is taken exactly when the 16-bit queue is set. */
    method CallBack(outputBuffer: array<int16>, frames: uint64) returns (path: Path)
      requires q16 != null ==> q16.Valid() && outputBuffer.Length == Frames && outputBuffer != q16.Q
      modifies Repr(), outputBuffer
      ensures path == Int16Path <==> q16 != null
      ensures q16 != null ==> q16.Valid() && q16.Q == old(q16.Q) && q16.tail == old(q16.tail)
      ensures q16 != null ==>
        var m := Min(Frames, |old(q16.Contents)|);
        outputBuffer[..] == old(q16.Contents)[..m] + Silence(Frames - m) &&
        q16.Contents == old(q16.Contents)[m..]
    {
      if q16 != null {
        Cb16(outputBuffer, frames);
        path := Int16Path;
      } else {
        path := Float32Path;
      }
    }

    /** `play.write16`: decodes the buffer two bytes at a time, inserting the k-th
        sample (bytes 2k and 2k+1) in the k-th insert, and returns the whole length.
        A trailing odd byte makes the last decode read one byte past the buffer,
        after every whole sample has been inserted. */
    method Write16(buff: seq<byte>) returns (r: WriteOutcome)
      requires q16 != null && q16.Valid()
      modifies q16, q16.Q
      ensures q16.Valid() && q16.Q == old(q16.Q) && q16.head == old(q16.head)
      ensures r == if |buff| % 2 == 0 then Written(|buff|) else IndexOutOfRange(|buff|)
      ensures q16.Contents == PushAll(old(q16.Contents), DecodeSamples(buff), q16.Q.Length)
    {
      var q := q16;
      ghost var c0 := q.Contents;
      var i := 0;
      while i < |buff|
        invariant 0 <= i <= |buff| && i % 2 == 0
        invariant q.Valid() && q.Q == old(q.Q) && q.head == old(q.head)
        invariant q.Contents == PushAll(c0, DecodeSamples(buff[..i]), q.Q.Length)
      {
        if i + 1 >= |buff| {
          assert DecodeSamples(buff[..i]) == DecodeSamples(buff);
          return IndexOutOfRange(i + 1);
        }
        var sample := Int16Of(buff[i], buff[i + 1]);
        assert DecodeSamples(buff[..i + 2]) == DecodeSamples(buff[..i]) + [sample];
        var _ := q.Insert(sample);
        i := i + 2;
      }
      assert buff[..|buff|] == buff;
      return Written(|buff|);
    }

    /** `play.cb16`: exactly 1024 pops, the i-th popped value into slot i, whatever
        `frames` says; once the queue runs dry every remaining slot gets silence. */
    method Cb16(outputBuffer: array<int16>, frames: uint64)
      requires q16 != null && q16.Valid() && outputBuffer.Length == Frames && outputBuffer != q16.Q
      modifies q16, outputBuffer
      ensures q16.Valid() && q16.Q == old(q16.Q) && q16.tail == old(q16.tail)
      ensures var m := Min(Frames, |old(q16.Contents)|);
        outputBuffer[..] == old(q16.Contents)[..m] + Silence(Frames - m) &&
        q16.Contents == old(q16.Contents)[m..]
    {
      var q := q16;
      ghost var c0 := q.Contents;
      for i := 0 to outputBuffer.Length
        invariant q.Valid() && q.Q == old(q.Q) && q.tail == old(q.tail)
        invariant outputBuffer[..i] == c0[..Min(i, |c0|)] + Silence(i - Min(i, |c0|))
        invariant q.Contents == c0[Min(i, |c0|)..]
      {
        var val, _ := q.Pop();
        outputBuffer[i] := val;
        assert outputBuffer[..i + 1] == outputBuffer[..i] + [val];
        if i < |c0| {
          assert c0[..i + 1] == c0[..i] + [c0[i]];
        } else {
          assert Silence(i + 1 - |c0|) == Silence(i - |c0|) + [0];
        }
      }
      assert outputBuffer[..outputBuffer.Length] == outputBuffer[..];
    }
  }
}
