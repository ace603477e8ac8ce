/** Shared vocabulary: optional values, results, bytes and chunk lists. */
module Common {

  datatype Option<+T> = None | Some(value: T)

  datatype Result<+T, +E> = Ok(value: T) | Err(error: E)

  /** One octet of a Node.js `Buffer`. */
  type byte = x: int | 0 <= x < 256

  type Bytes = seq<byte>

  /** The sum of the `byteLength`s of a list of chunks. */
  function TotalLength(chunks: seq<Bytes>): nat
  {
    if chunks == [] then 0
    else TotalLength(chunks[..|chunks| - 1]) + |chunks[|chunks| - 1]|
  }

  /**
   * `Buffer.concat(chunks)`: the chunks' bytes, in order, in one sequence,
   * exactly as long as the chunks taken together, ending with the last chunk.
   */
  function Concat(chunks: seq<Bytes>): (r: Bytes)
    ensures |r| == TotalLength(chunks)
    ensures chunks != [] ==> r[|r| - |chunks[|chunks| - 1]|..] == chunks[|chunks| - 1]
  {
    if chunks == [] then []
    else Concat(chunks[..|chunks| - 1]) + chunks[|chunks| - 1]
  }

  /** Lengths add up over a split of the chunk list. */
  lemma {:induction false} TotalLengthAppend(a: seq<Bytes>, b: seq<Bytes>)
    ensures TotalLength(a + b) == TotalLength(a) + TotalLength(b)
  {
    if b != [] {
      assert (a + b)[..|a + b| - 1] == a + b[..|b| - 1];
      TotalLengthAppend(a, b[..|b| - 1]);
    } else {
      assert a + b == a;
    }
  }

  lemma TotalLengthCons(c: Bytes, rest: seq<Bytes>)
    ensures TotalLength([c] + rest) == |c| + TotalLength(rest)
  {
    var first: seq<Bytes> := [c];
    TotalLengthAppend(first, rest);
    assert first[..0] == [];
  }

  /** Concatenation distributes over a split of the chunk list. */
  lemma {:induction false} ConcatAppend(a: seq<Bytes>, b: seq<Bytes>)
    ensures Concat(a + b) == Concat(a) + Concat(b)
  {
    if b != [] {
      assert (a + b)[..|a + b| - 1] == a + b[..|b| - 1];
      ConcatAppend(a, b[..|b| - 1]);
    } else {
      assert a + b == a;
    }
  }
}
