/** Raw audio as it travels from the recording callback to the speech engine:
    byte chunks, and their concatenation `b''.join(chunks)`. */
module Chunks {

  type Byte = x: int | 0 <= x < 256

  /** One `AudioData.get_raw_data()` buffer. */
  type Chunk = seq<Byte>

  /** `b''.join(chunks)`: the chunks' bytes in arrival order. */
  function Concat(chunks: seq<Chunk>): Chunk
  {
    if chunks == [] then [] else chunks[0] + Concat(chunks[1..])
  }

  // Regrouping a concatenation of queues; keeps the step out of larger proofs.
  lemma QueueAppendAssoc(a: seq<Chunk>, b: seq<Chunk>, c: seq<Chunk>)
    ensures (a + b) + c == a + (b + c)
  {
  }

  /** Joining a queue split in two is joining each half. */
  lemma {:induction false} ConcatAppend(a: seq<Chunk>, b: seq<Chunk>)
    ensures Concat(a + b) == Concat(a) + Concat(b)
    decreases |a|
  {
    if a == [] {
      assert a + b == b;
    } else {
      assert (a + b)[0] == a[0];
      assert (a + b)[1..] == a[1..] + b;
      ConcatAppend(a[1..], b);
    }
  }

  /** Joining a queue of one chunk gives that chunk. */
  lemma ConcatSingle(c: Chunk)
    ensures Concat([c]) == c
  {
    var rest: seq<Chunk> := [];
    assert [c][1..] == rest;
  }

  /** Byte `j` of chunk `i` sits in the joined buffer right after all the
      bytes of the chunks that arrived before chunk `i`. */
  lemma ConcatAt(chunks: seq<Chunk>, i: nat, j: nat)
    requires i < |chunks| && j < |chunks[i]|
    ensures |Concat(chunks[..i])| + j < |Concat(chunks)|
    ensures Concat(chunks)[|Concat(chunks[..i])| + j] == chunks[i][j]
  {
    assert chunks == chunks[..i] + ([chunks[i]] + chunks[i + 1..]);
    ConcatAppend(chunks[..i], [chunks[i]] + chunks[i + 1..]);
    ConcatAppend([chunks[i]], chunks[i + 1..]);
    var none: seq<Chunk> := [];
    assert [chunks[i]][1..] == none;
    assert Concat([chunks[i]]) == chunks[i];
  }
}
