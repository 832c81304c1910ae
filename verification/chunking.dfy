/**
  The partition of a write batch into chunks, as the write loop of
  PutStates produces it (database/database.go:84-102): full chunks of
  BatchSize entries, then one final chunk holding the remainder, which is
  empty when the input length is a multiple of BatchSize.
 */
module Chunking {

  /** The largest number of entries written by one multi-put. */
  const BatchSize: nat := 450

  /** The chunks of s, in input order. */
  function Chunks<T>(s: seq<T>): (cs: seq<seq<T>>)
    ensures |cs| == |s| / BatchSize + 1
    ensures forall i :: 0 <= i < |cs| ==> |cs[i]| <= BatchSize
    ensures forall i :: 0 <= i < |cs| - 1 ==> |cs[i]| == BatchSize
    decreases |s|
  {
    if |s| < BatchSize then [s] else [s[..BatchSize]] + Chunks(s[BatchSize..])
  }

  /** The concatenation of a sequence of sequences. */
  function Concat<T>(cs: seq<seq<T>>): seq<T>
    decreases |cs|
  {
    if |cs| == 0 then [] else cs[0] + Concat(cs[1..])
  }

  lemma {:induction false} ConcatAppend<T>(cs: seq<seq<T>>, c: seq<T>)
    ensures Concat(cs + [c]) == Concat(cs) + c
    decreases |cs|
  {
    if |cs| == 0 {
      assert Concat([c]) == c + Concat([]);
    } else {
      assert (cs + [c])[1..] == cs[1..] + [c];
      ConcatAppend(cs[1..], c);
    }
  }

  /** Writing the chunks one after another writes the whole input, in order. */
  lemma {:induction false} ConcatChunks<T>(s: seq<T>)
    ensures Concat(Chunks(s)) == s
    decreases |s|
  {
    if |s| >= BatchSize {
      var cs := Chunks(s);
      assert cs[1..] == Chunks(s[BatchSize..]);
      ConcatChunks(s[BatchSize..]);
      assert s == s[..BatchSize] + s[BatchSize..];
    }
  }

  /**
    Chunk j is the slice of s starting at j * BatchSize; it is the last chunk
    exactly when it does not reach a full BatchSize entries.
   */
  lemma {:induction false} ChunkAt<T>(s: seq<T>, j: nat)
    requires j * BatchSize <= |s|
    ensures j < |Chunks(s)|
    ensures (j + 1) * BatchSize <= |s| ==> Chunks(s)[j] == s[j * BatchSize .. (j + 1) * BatchSize]
    ensures |s| < (j + 1) * BatchSize ==> Chunks(s)[j] == s[j * BatchSize ..] && j == |Chunks(s)| - 1
    decreases j
  {
    if j > 0 {
      var t := s[BatchSize..];
      ChunkAt(t, j - 1);
      assert Chunks(s)[j] == Chunks(t)[j - 1];
      if (j + 1) * BatchSize <= |s| {
        assert t[(j - 1) * BatchSize .. j * BatchSize] == s[j * BatchSize .. (j + 1) * BatchSize];
      } else {
        assert t[(j - 1) * BatchSize ..] == s[j * BatchSize ..];
      }
    }
  }
}
