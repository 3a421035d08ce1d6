/** Collecting an upstream body (src/gateway/routes.rs, forward_to_upstream):
    chunk by chunk, up to a limit.  A failed chunk is logged and skipped. */
module Upstream {
  import opened Wrappers
  import opened ContentStore

  datatype Chunk = Data(bytes: Bytes) | Broken

  function Concatenated(chunks: seq<Chunk>): Bytes {
    if chunks == [] then ""
    else (if chunks[0].Data? then chunks[0].bytes else "") + Concatenated(chunks[1..])
  }

  lemma {:induction false} ConcatenatedSplit(a: seq<Chunk>, b: seq<Chunk>)
    ensures Concatenated(a + b) == Concatenated(a) + Concatenated(b)
    decreases |a|
  {
    if a == [] {
      assert a + b == b;
    } else {
      assert (a + b)[1..] == a[1..] + b;
      ConcatenatedSplit(a[1..], b);
    }
  }

  /** A chunk contributes its bytes, a broken one none. */
  lemma OneChunk(chunk: Chunk)
    ensures Concatenated([chunk]) == if chunk.Data? then chunk.bytes else ""
  {
    assert [chunk][1..] == [];
  }

  lemma OneMoreChunk(chunks: seq<Chunk>, i: nat)
    requires i < |chunks|
    ensures Concatenated(chunks[..i + 1]) ==
            Concatenated(chunks[..i]) + (if chunks[i].Data? then chunks[i].bytes else "")
    ensures |Concatenated(chunks[..i + 1])| <= |Concatenated(chunks)|
  {
    assert chunks[..i + 1] == chunks[..i] + [chunks[i]];
    ConcatenatedSplit(chunks[..i], [chunks[i]]);
    OneChunk(chunks[i]);
    assert chunks == chunks[..i + 1] + chunks[i + 1..];
    ConcatenatedSplit(chunks[..i + 1], chunks[i + 1..]);
  }

  /** The whole body is returned, or nothing: a body is refused exactly when it
      is longer than the limit, however it was cut into chunks. */
  method CollectBody(chunks: seq<Chunk>, limit: nat) returns (r: Option<Bytes>)
    ensures r == if |Concatenated(chunks)| <= limit then Some(Concatenated(chunks)) else None
  {
    var total := 0;
    var collected := "";
    for i := 0 to |chunks|
      invariant collected == Concatenated(chunks[..i])
      invariant total == |collected| <= limit
    {
      OneMoreChunk(chunks, i);
      match chunks[i]
      case Data(bytes) =>
        if total + |bytes| > limit {
          return None;
        }
        total := total + |bytes|;
        collected := collected + bytes;
      case Broken =>
    }
    assert chunks[..|chunks|] == chunks;
    return Some(collected);
  }
}
