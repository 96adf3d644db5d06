/** What the semantic chunking library hands back, as the chunkers read it. */
module ChunkLibrary {
  import opened Wrappers
  import opened JsonValue

  /**
   * A chunk from the library: its `text` and `id` attributes when it has them, and `str(chunk)`,
   * which stands in for the text when the attribute is missing.
   */
  datatype LibChunk = LibChunk(text: Option<Value>, id: Option<Value>, rendered: string)

  /** `getattr(chunk, 'text', str(chunk))`. */
  function TextOf(chunk: LibChunk): Value {
    if chunk.text.Some? then chunk.text.value else Str(chunk.rendered)
  }

  /** The `{"text": …, "metadata": …}` dict a chunker emits for one chunk. */
  function Wrap(chunk: LibChunk, meta: Object): Object {
    map["text" := TextOf(chunk), "metadata" := Dict(meta)]
  }
}
