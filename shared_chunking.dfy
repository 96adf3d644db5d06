/**
 * The chunking handler shared by the agents: each library chunk becomes a dict holding its text and
 * a copy of the caller's metadata with `chunk_id` set to the chunk's position.
 */
module SharedChunking {
  import opened JsonValue
  import opened ChunkLibrary

  /** The metadata of the chunk at position `i`: a copy of `metadata` with `chunk_id` set to `i`. */
  function IndexedMeta(metadata: Object, i: nat): Object {
    metadata["chunk_id" := Int(i)]
  }

  /** What `chunk_text` returns for the library's chunks. */
  function Wrapped(chunks: seq<LibChunk>, metadata: Object): (out: seq<Object>)
    ensures |out| == |chunks|
  {
    seq(|chunks|, i requires 0 <= i < |chunks| => Wrap(chunks[i], IndexedMeta(metadata, i)))
  }

  /**
   * `ChonkieHandler.chunk_text(text, metadata)` given the library's chunks of `text`: one dict per
   * chunk, in order. The caller's map is a value here, so the copy cannot alias it.
   */
  method ChunkText(chunks: seq<LibChunk>, metadata: Object) returns (processed: seq<Object>)
    ensures processed == Wrapped(chunks, metadata)
  {
    processed := [];
    for i := 0 to |chunks|
      invariant processed == Wrapped(chunks[..i], metadata)
    {
      var chunkMeta := metadata;
      chunkMeta := chunkMeta["chunk_id" := Int(i)];
      processed := processed + [Wrap(chunks[i], chunkMeta)];
      assert chunks[..i + 1][..i] == chunks[..i];
    }
    assert chunks[..|chunks|] == chunks;
  }

  /**
   * The i-th dict holds the i-th chunk's text, and metadata whose `chunk_id` is i and whose every
   * other key is the caller's, unchanged.
   */
  lemma {:induction false} WrappedShape(chunks: seq<LibChunk>, metadata: Object, i: nat)
    requires i < |chunks|
    ensures Wrapped(chunks, metadata)[i].Keys == {"text", "metadata"}
    ensures Wrapped(chunks, metadata)[i]["text"] == TextOf(chunks[i])
    ensures Wrapped(chunks, metadata)[i]["metadata"].Dict?
    ensures Wrapped(chunks, metadata)[i]["metadata"].fields.Keys == metadata.Keys + {"chunk_id"}
    ensures Wrapped(chunks, metadata)[i]["metadata"].fields["chunk_id"] == Int(i)
    ensures forall k :: k in metadata && k != "chunk_id" ==>
      Wrapped(chunks, metadata)[i]["metadata"].fields[k] == metadata[k]
  {
  }

  /** Distinct positions get distinct chunk ids. */
  lemma {:induction false} ChunkIdsDistinct(chunks: seq<LibChunk>, metadata: Object, i: nat, j: nat)
    requires i < j < |chunks|
    ensures Wrapped(chunks, metadata)[i] != Wrapped(chunks, metadata)[j]
  {
    WrappedShape(chunks, metadata, i);
    WrappedShape(chunks, metadata, j);
  }
}
