/** The bounded 16-bit sample queue the recorder takes from its `locklessQ`
    package (`locklessq.Qint16`: `NewQint16`, `Insert`, `Pop`, and the backing
    slice `Q`). The package itself is not part of this model; it is modelled
    here as a sequential ring buffer over a preallocated, zero-filled array of
    fixed capacity, with monotonically increasing read and write counters.
    When full, `Insert` rejects the new sample; when empty, `Pop` returns
    silence (zero) and false. */
module LocklessQ {
  import opened Conv

  function Min(a: int, b: int): int
  {
    if a <= b then a else b
  }

  /** `n` samples of silence. */
  function Silence(n: nat): (s: seq<int16>)
    ensures |s| == n && forall k :: 0 <= k < n ==> s[k] == 0
  {
    seq(n, _ => 0)
  }

  /** One `Insert` on a queue holding `c` with capacity `n`, as seen from its contents. */
  function Push(c: seq<int16>, x: int16, n: nat): seq<int16>
  {
    if |c| < n then c + [x] else c
  }

  /** The contents after inserting the samples of `xs`, one after another, in order. */
  function PushAll(c: seq<int16>, xs: seq<int16>, n: nat): seq<int16>
    decreases |xs|
  {
    if xs == [] then c else Push(PushAll(c, xs[..|xs| - 1], n), xs[|xs| - 1], n)
  }

  /** Inserting a block keeps every queued sample and admits the longest prefix
      of the block that still fits: the rest of the block is dropped. */
  lemma {:induction false} PushAllAdmitsPrefix(c: seq<int16>, xs: seq<int16>, n: nat)
    requires |c| <= n
    ensures PushAll(c, xs, n) == c + xs[..Min(|xs|, n - |c|)]
    decreases |xs|
  {
    if xs != [] {
      var init := xs[..|xs| - 1];
      PushAllAdmitsPrefix(c, init, n);
      assert init[..Min(|init|, n - |c|)] == xs[..Min(|init|, n - |c|)];
      if |c| + |init| < n {
        assert xs[..Min(|init|, n - |c|)] + [xs[|xs| - 1]] == xs[..Min(|xs|, n - |c|)];
      }
    }
  }

  /** Inserting two blocks one after the other is inserting their concatenation. */
  lemma {:induction false} PushAllAppend(c: seq<int16>, xs: seq<int16>, ys: seq<int16>, n: nat)
    ensures PushAll(PushAll(c, xs, n), ys, n) == PushAll(c, xs + ys, n)
    decreases |ys|
  {
    if ys == [] {
      assert xs + ys == xs;
    } else {
      var init := ys[..|ys| - 1];
      PushAllAppend(c, xs, init, n);
      assert (xs + ys)[..|xs + ys| - 1] == xs + init;
      assert (xs + ys)[|xs + ys| - 1] == ys[|ys| - 1];
    }
  }

  /** Proves that the queue does not lose order: with room for the whole block,
      the queue ends with exactly that block. */
  lemma PushAllFits(c: seq<int16>, xs: seq<int16>, n: nat)
    requires |c| + |xs| <= n
    ensures PushAll(c, xs, n) == c + xs
  {
    PushAllAdmitsPrefix(c, xs, n);
    assert xs[..|xs|] == xs;
  }

  lemma ModDistinct(a: nat, b: nat, n: nat)
    requires a < b < a + n
    ensures a % n != b % n
  {
    var d := b / n - a / n;
    assert a == n * (a / n) + a % n && b == n * (b / n) + b % n;
    assert b - a == n * d + (b % n - a % n);
    if d >= 1 {
      assert n * d >= n;
    } else {
      assert n * d <= 0;
    }
  }

  /** The samples of `c` sit in the ring `data` from slot `start` on, wrapping around. */
  ghost predicate InRing(data: seq<int16>, start: nat, c: seq<int16>)
  {
    |c| <= |data| &&
    forall k :: 0 <= k < |c| ==> c[k] == data[(start + k) % |data|]
  }

  lemma RingWrite(data: seq<int16>, start: nat, c: seq<int16>, x: int16)
    requires InRing(data, start, c) && |c| < |data|
    ensures InRing(data[(start + |c|) % |data| := x], start, c + [x])
  {
    var slot := (start + |c|) % |data|;
    var data' := data[slot := x];
    forall k | 0 <= k < |c| + 1
      ensures (c + [x])[k] == data'[(start + k) % |data|]
    {
      if k < |c| {
        ModDistinct(start + k, start + |c|, |data|);
      }
    }
  }

  lemma RingRead(data: seq<int16>, start: nat, c: seq<int16>)
    requires InRing(data, start, c) && |c| > 0
    ensures c[0] == data[start % |data|]
    ensures InRing(data, start + 1, c[1..])
  {
    assert c[0] == data[(start + 0) % |data|];
    forall k | 0 <= k < |c| - 1
      ensures c[1..][k] == data[(start + 1 + k) % |data|]
    {
      assert c[k + 1] == data[(start + (k + 1)) % |data|];
    }
  }

  /** The queue invariant, over the backing array's values: the counters are at
      most a capacity apart, the queued samples sit in the ring from the read
      counter on, and until the write counter first wraps, the slots it has not
      reached still hold the zero they were created with. */
  ghost predicate RingState(data: seq<int16>, head: nat, tail: nat, c: seq<int16>)
  {
    head <= tail && |c| == tail - head &&
    InRing(data, head, c) &&
    (tail < |data| ==> forall j :: tail <= j < |data| ==> data[j] == 0)
  }

  lemma InsertKeepsState(data: seq<int16>, head: nat, tail: nat, c: seq<int16>, x: int16)
    requires RingState(data, head, tail, c) && |c| < |data|
    ensures RingState(data[tail % |data| := x], head, tail + 1, c + [x])
  {
    RingWrite(data, head, c, x);
    if tail < |data| {
      assert tail % |data| == tail;
    }
  }

  class Qint16 {
    /** The backing array; its length is the capacity fixed at construction. */
    var Q: array<int16>
    /** Count of successful pops: the next slot to read is head % capacity. */
    var head: nat
    /** Count of successful inserts: the next slot to write is tail % capacity. */
    var tail: nat
    /** The queued samples, oldest first. */
    ghost var Contents: seq<int16>

    ghost predicate Valid()
      reads this, Q
    {
      RingState(Q[..], head, tail, Contents)
    }

    /** `NewQint16(n)`: an empty queue over `n` zeroed slots. */
    constructor (n: nat)
      ensures Valid() && fresh(Q)
      ensures Q.Length == n && Q[..] == Silence(n)
      ensures Contents == [] && head == 0
    {
      Q := new int16[n](_ => 0);
      head, tail := 0, 0;
      Contents := [];
    }

    method Insert(x: int16) returns (ok: bool)
      requires Valid()
      modifies this, Q
      ensures Valid() && Q == old(Q) && head == old(head)
      ensures ok <==> |old(Contents)| < Q.Length
      ensures Contents == Push(old(Contents), x, Q.Length)
    {
      if tail - head < Q.Length {
        InsertKeepsState(Q[..], head, tail, Contents, x);
        Q[tail % Q.Length] := x;
        tail := tail + 1;
        Contents := Contents + [x];
        ok := true;
      } else {
        ok := false;
      }
    }

    method Pop() returns (x: int16, ok: bool)
      requires Valid()
      modifies this
      ensures Valid() && Q == old(Q) && tail == old(tail)
      ensures ok <==> |old(Contents)| > 0
      ensures ok ==> x == old(Contents)[0] && Contents == old(Contents)[1..]
      ensures !ok ==> x == 0 && Contents == old(Contents)
    {
      if tail - head > 0 {
        RingRead(Q[..], head, Contents);
        x := Q[head % Q.Length];
        head := head + 1;
        Contents := Contents[1..];
        ok := true;
      } else {
        x, ok := 0, false;
      }
    }

    /** While nothing has been popped, the backing array holds the queued samples
        in its first slots, in order, followed by the silence it was created with. */
    lemma BackingArrayLayout()
      requires Valid() && head == 0
      ensures Q[..] == Contents + Silence(Q.Length - |Contents|)
    {
      var rest := Silence(Q.Length - |Contents|);
      forall j | 0 <= j < Q.Length
        ensures Q[j] == (Contents + rest)[j]
      {
        if j < |Contents| {
          assert j % Q.Length == j;
          assert Contents[j] == Q[..][(head + j) % Q.Length];
        }
      }
    }
  }
}
