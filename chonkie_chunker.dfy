/**
 * The ingestion chunker: each library chunk becomes a dict holding its text and a copy of the
 * caller's metadata, whose `chunk_id` is set to the library's own id when that id is truthy.
 */
module ChonkieChunker {
  import opened Wrappers
  import opened JsonValue
  import opened ChunkLibrary

  /** `getattr(chunk, 'id', None)`. */
  function IdOf(chunk: LibChunk): Value {
    if chunk.id.Some? then chunk.id.value else Null
  }

  /** The metadata of one chunk: the caller's copy, with `chunk_id` replaced only by a truthy library id. */
  function ChunkMeta(chunk: LibChunk, metadata: Object): Object {
    if Truthy(IdOf(chunk)) then metadata["chunk_id" := IdOf(chunk)] else metadata
  }

  /** What `chunk_text` returns for the library's chunks. */
  function Wrapped(chunks: seq<LibChunk>, metadata: Object): (out: seq<Object>)
    ensures |out| == |chunks|
  {
    seq(|chunks|, i requires 0 <= i < |chunks| => Wrap(chunks[i], ChunkMeta(chunks[i], metadata)))
  }

  /** `ChonkieChunker.chunk_text(text, metadata)` given the library's chunks of `text`: one dict per chunk, in order. */
  method ChunkText(chunks: seq<LibChunk>, metadata: Object) returns (processed: seq<Object>)
    ensures processed == Wrapped(chunks, metadata)
  {
    processed := [];
    for i := 0 to |chunks|
      invariant processed == Wrapped(chunks[..i], metadata)
    {
      var chunk := chunks[i];
      var chunkId := IdOf(chunk);
      var chunkMeta := metadata;
      if Truthy(chunkId) {
        chunkMeta := chunkMeta["chunk_id" := chunkId];
      }
      processed := processed + [Wrap(chunk, chunkMeta)];
      assert chunks[..i + 1][..i] == chunks[..i];
    }
    assert chunks[..|chunks|] == chunks;
  }

  /**
   * A chunk with a truthy id carries it as `chunk_id`; any other chunk keeps the caller's metadata
   * as it is, including a `chunk_id` the caller already had. Every other key is the caller's.
   */
  lemma {:induction false} ChunkIdRule(chunks: seq<LibChunk>, metadata: Object, i: nat)
    requires i < |chunks|
    ensures Wrapped(chunks, metadata)[i]["text"] == TextOf(chunks[i])
    ensures Wrapped(chunks, metadata)[i]["metadata"].Dict?
    ensures chunks[i].id.Some? && Truthy(chunks[i].id.value) ==>
      Wrapped(chunks, metadata)[i]["metadata"].fields == metadata["chunk_id" := chunks[i].id.value]
    ensures !(chunks[i].id.Some? && Truthy(chunks[i].id.value)) ==>
      Wrapped(chunks, metadata)[i]["metadata"].fields == metadata
    ensures forall k :: k in metadata && k != "chunk_id" ==>
      Wrapped(chunks, metadata)[i]["metadata"].fields[k] == metadata[k]
  {
  }
}
