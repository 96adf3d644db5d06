/**
 * The document chunker: every loaded document is chunked by the library, and each chunk becomes a
 * new document holding the chunk's text and a copy of its source document's metadata, with
 * `chunk_id` added when the chunk has an `id` attribute.
 */
module DocumentChunker {
  import opened Wrappers
  import opened JsonValue
  import opened ChunkLibrary

  /** A document as the loaders and the chunker pass it: `page_content` and `metadata`. */
  datatype Document = Document(pageContent: Value, metadata: Object)

  /** The new document made from one chunk of a document with metadata `metadata`. */
  function ChunkDoc(chunk: LibChunk, metadata: Object): Document {
    Document(TextOf(chunk), if chunk.id.Some? then metadata["chunk_id" := chunk.id.value] else metadata)
  }

  /** The chunk documents of one document, in chunk order. */
  function DocChunks(chunks: seq<LibChunk>, metadata: Object): (out: seq<Document>)
    ensures |out| == |chunks|
  {
    seq(|chunks|, j requires 0 <= j < |chunks| => ChunkDoc(chunks[j], metadata))
  }

  /** The output for `documents[..n]`: each document's chunks, in document order. */
  function ChunkedUpTo(documents: seq<Document>, n: nat, chunker: Value -> seq<LibChunk>): seq<Document>
    requires n <= |documents|
  {
    if n == 0 then []
    else (ChunkedUpTo(documents, n - 1, chunker) +
          DocChunks(chunker(documents[n - 1].pageContent), documents[n - 1].metadata))
  }

  /** How many chunks the library makes of `documents[..n]`. */
  function ChunkCount(documents: seq<Document>, n: nat, chunker: Value -> seq<LibChunk>): nat
    requires n <= |documents|
  {
    if n == 0 then 0 else ChunkCount(documents, n - 1, chunker) + |chunker(documents[n - 1].pageContent)|
  }

  /** The fallback chunker, used when the library is missing: it makes no chunk of any text. */
  function FallbackChunker(text: Value): seq<LibChunk> {
    []
  }

  /** `chunk_documents(documents)`: the nested loop over documents and their chunks. */
  method ChunkDocuments(documents: seq<Document>, chunker: Value -> seq<LibChunk>) returns (chunked: seq<Document>)
    ensures chunked == ChunkedUpTo(documents, |documents|, chunker)
  {
    chunked := [];
    for i := 0 to |documents|
      invariant chunked == ChunkedUpTo(documents, i, chunker)
    {
      var doc := documents[i];
      var chunks := chunker(doc.pageContent);
      var done := chunked;
      for j := 0 to |chunks|
        invariant chunked == done + DocChunks(chunks[..j], doc.metadata)
      {
        var chunk := chunks[j];
        var content := TextOf(chunk);
        var meta := doc.metadata;
        if chunk.id.Some? {
          meta := meta["chunk_id" := chunk.id.value];
        }
        assert DocChunks(chunks[..j + 1], doc.metadata) == DocChunks(chunks[..j], doc.metadata) + [Document(content, meta)];
        chunked := chunked + [Document(content, meta)];
      }
      assert chunks[..|chunks|] == chunks;
    }
  }

  // ----- properties -----

  /** The output has one document per chunk: its length is the sum of the per-document chunk counts. */
  lemma {:induction false} ChunkedLength(documents: seq<Document>, n: nat, chunker: Value -> seq<LibChunk>)
    requires n <= |documents|
    ensures |ChunkedUpTo(documents, n, chunker)| == ChunkCount(documents, n, chunker)
  {
    if n > 0 {
      ChunkedLength(documents, n - 1, chunker);
    }
  }

  /** With the fallback chunker every call returns nothing. */
  lemma {:induction false} FallbackChunksNothing(documents: seq<Document>, n: nat)
    requires n <= |documents|
    ensures ChunkedUpTo(documents, n, FallbackChunker) == []
  {
    if n > 0 {
      FallbackChunksNothing(documents, n - 1);
    }
  }

  /**
   * Every output document comes from some input document: its metadata is that document's, with
   * `chunk_id` possibly added, and every other key unchanged.
   */
  lemma {:induction false} ChunkedProvenance(documents: seq<Document>, n: nat, chunker: Value -> seq<LibChunk>)
    requires n <= |documents|
    ensures forall d :: d in ChunkedUpTo(documents, n, chunker) ==>
      exists i :: 0 <= i < n && d.metadata.Keys - {"chunk_id"} == documents[i].metadata.Keys - {"chunk_id"} &&
        forall k :: k in documents[i].metadata && k != "chunk_id" ==> k in d.metadata && d.metadata[k] == documents[i].metadata[k]
  {
    if n > 0 {
      ChunkedProvenance(documents, n - 1, chunker);
      var doc := documents[n - 1];
      var last := DocChunks(chunker(doc.pageContent), doc.metadata);
      forall d | d in last
        ensures d.metadata.Keys - {"chunk_id"} == doc.metadata.Keys - {"chunk_id"}
        ensures forall k :: k in doc.metadata && k != "chunk_id" ==> k in d.metadata && d.metadata[k] == doc.metadata[k]
      {
        var j :| 0 <= j < |last| && last[j] == d;
      }
    }
  }
}
