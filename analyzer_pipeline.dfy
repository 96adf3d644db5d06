/**
 * The analyzer pipeline: each new PDF is downloaded and loaded, its pages are chunked, and every
 * chunk is summarised, mined for requirements, embedded and upserted into Qdrant under an id
 * derived from its file name, chunk id and first 64 characters; the file is then marked processed.
 */
module AnalyzerPipeline {
  import opened Wrappers
  import opened JsonValue
  import opened Strings
  import opened ChunkLibrary
  import opened DocumentChunker
  import opened PdfLoader

  /** The collection used when the configuration names none. */
  const DefaultCollection: string := "regulations_chunks"

  /**
   * `cfg.get("qdrant", {}).get("collection", DEFAULT_COLLECTION)` on the loaded configuration: a
   * configuration or a `qdrant` section that is not a dict has no `.get` and raises.
   */
  function CollectionName(config: Value): Outcome<Value> {
    if !config.Dict? then Raised(NoGetMessage(config))
    else
      var section := Get(config.fields, "qdrant", Dict(map[]));
      if !section.Dict? then Raised(NoGetMessage(section))
      else Returned(Get(section.fields, "collection", Str(DefaultCollection)))
  }

  // ----- one chunk -----

  /** An embedding, as the embedder returns it; the model never looks inside. */
  type Vector = seq<real>

  /** A Qdrant point: its id, its vector and its payload. */
  datatype Point = Point(id: string, vector: Vector, payload: Object)

  /** One call of `q_client.upsert` with a single point; `attempt` is 1 for the first try and 2 for the retry. */
  datatype UpsertCall = UpsertCall(collection: Value, point: Point, attempt: nat)

  /**
   * The collaborators: the loader's download and PDF reader, the chunking library, the model, the
   * embedder, SHA-1 (as a hex digest), whether `PointStruct` accepts a point, and Qdrant's upsert.
   * `repr` is `str()` of a value that is not a string.
   */
  datatype Services = Services(
    download: (string, string) -> Outcome<bool>,
    load: string -> Outcome<seq<Document>>,
    chunker: Value -> seq<LibChunk>,
    generate: string -> string,
    embed: Value -> Outcome<Vector>,
    sha1: string -> string,
    accepts: Point -> bool,
    upsert: UpsertCall -> Outcome<()>,
    repr: Value -> string)

  const SummaryPreamble: string := "Summarize the following insurance regulation text in a concise paragraph:\n\n"

  const RequirementsPreamble: string :=
    "Extract any explicit requirements, obligations, or normative statements from the following text. " +
    "Return as a JSON array of requirement strings.\n\n"

  /** The prompt of `_summarize(text)`: the f-string renders any value. */
  function SummaryPrompt(text: Value, repr: Value -> string): string {
    SummaryPreamble + Text(text, repr)
  }

  /** `str(e)` of the `TypeError` raised when a string is concatenated with a value that is not one. */
  function ConcatMessage(v: Value): string {
    "can only concatenate str (not \"" + TypeName(v) + "\") to str"
  }

  /** The prompt of `_extract_requirements(text)`: `+` accepts only a string. */
  function RequirementsPrompt(text: Value): Outcome<string> {
    if text.Str? then Returned(RequirementsPreamble + text.s) else Raised(ConcatMessage(text))
  }

  /** How many characters of the chunk text enter its id. */
  const IdTextLength: nat := 64

  /** The string `_make_id` hashes: `filename-chunk_id-text[:64]`, a missing key reading as ''. */
  function IdBase(metadata: Object, text: string, repr: Value -> string): string {
    Text(Get(metadata, "filename", Str("")), repr) + "-" + Text(Get(metadata, "chunk_id", Str("")), repr) + "-" +
    Take(text, IdTextLength)
  }

  /** `_make_id(metadata, text)`: the SHA-1 hex digest of the id base. */
  function MakeId(metadata: Object, text: string, repr: Value -> string, sha1: string -> string): string {
    sha1(IdBase(metadata, text, repr))
  }

  /** The payload stored with a chunk. */
  function Payload(summary: string, text: Value, requirements: string, metadata: Object): Object {
    map["summary" := Str(summary), "original_text" := text, "requirements" := Str(requirements), "metadata" := Dict(metadata)]
  }

  /**
   * The upserts `_upsert_chunk` makes for `point`: none when `PointStruct` rejects it (the retry then
   * names the unbound `point` and that error is swallowed too), one when the first upsert succeeds,
   * and two when it raises, whatever the retry does. Nothing escapes.
   */
  function UpsertCalls(collection: Value, point: Point, sv: Services): seq<UpsertCall> {
    if !sv.accepts(point) then []
    else if sv.upsert(UpsertCall(collection, point, 1)).Returned? then [UpsertCall(collection, point, 1)]
    else [UpsertCall(collection, point, 1), UpsertCall(collection, point, 2)]
  }

  /**
   * The point `process_file` builds for chunk `c`: the summary, the requirements (whose prompt raises
   * for a text that is not a string), the embedding (which may raise) and the id.
   */
  function ChunkPoint(c: Document, sv: Services): Outcome<Point> {
    var summary := sv.generate(SummaryPrompt(c.pageContent, sv.repr));
    match RequirementsPrompt(c.pageContent)
    case Raised(m) => Raised(m)
    case Returned(prompt) =>
      var requirements := sv.generate(prompt);
      match sv.embed(c.pageContent)
      case Raised(m) => Raised(m)
      case Returned(vector) =>
        Returned(Point(MakeId(c.metadata, c.pageContent.s, sv.repr, sv.sha1), vector,
                       Payload(summary, c.pageContent, requirements, c.metadata)))
  }

  // ----- one file -----

  /** The upserts made so far, and the exception that ended the loop, if one did. */
  datatype Progress = Progress(calls: seq<UpsertCall>, error: Option<string>)

  /** How `process_file` builds the point of a chunk. */
  function PointMaker(sv: Services): Document -> Outcome<Point> {
    c => ChunkPoint(c, sv)
  }

  /** How `_upsert_chunk` sends a point to `collection`. */
  function Upserter(collection: Value, sv: Services): Point -> seq<UpsertCall> {
    p => UpsertCalls(collection, p, sv)
  }

  /**
   * The chunk loop of `process_file` over `chunks[..n]`, where `point` builds a chunk's point and
   * `upserts` sends it.
   */
  function ChunksUpTo(chunks: seq<Document>, n: nat, point: Document -> Outcome<Point>,
                      upserts: Point -> seq<UpsertCall>): Progress
    requires n <= |chunks|
  {
    if n == 0 then Progress([], None)
    else
      var before := ChunksUpTo(chunks, n - 1, point, upserts);
      if before.error.Some? then before
      else match point(chunks[n - 1])
        case Raised(m) => Progress(before.calls, Some(m))
        case Returned(p) => Progress(before.calls + upserts(p), None)
  }

  /** What `process_file` does: its upserts, what it returns or raises, and whether it marks the file. */
  datatype FileRun = FileRun(calls: seq<UpsertCall>, result: Outcome<Object>, marked: bool)

  const NoDocs: Object := map["status" := Str("no_docs")]

  function ProcessedReport(name: string, count: nat): Object {
    map["status" := Str("processed"), "file" := Str(name), "chunks_indexed" := Int(count)]
  }

  /**
   * `process_file(name)`: a load that raises escapes; no pages (None or none loaded) returns
   * `no_docs`; otherwise every chunk is indexed, an exception escaping the loop, and the file is
   * marked and reported with its chunk count.
   */
  function ProcessedFile(name: string, collection: Value, sv: Services): FileRun {
    match Loaded(name, sv.download, sv.load)
    case Raised(m) => FileRun([], Raised(m), false)
    case Returned(docs) =>
      if docs.None? || docs.value == [] then FileRun([], Returned(NoDocs), false)
      else
        var chunks := ChunkedUpTo(docs.value, |docs.value|, sv.chunker);
        var progress := ChunksUpTo(chunks, |chunks|, PointMaker(sv), Upserter(collection, sv));
        if progress.error.Some? then FileRun(progress.calls, Raised(progress.error.value), false)
        else FileRun(progress.calls, Returned(ProcessedReport(name, |chunks|)), true)
  }

  // ----- the batch -----

  /** The state of `process_new_files`: upserts, results, the loader's processed map and its store, and the escaped exception. */
  datatype Batch = Batch(calls: seq<UpsertCall>, results: seq<Object>, processed: map<string, Value>,
                         stored: Option<map<string, Value>>, error: Option<string>)

  /** `process_file` as the batch calls it. */
  function Runner(collection: Value, sv: Services): string -> FileRun {
    name => ProcessedFile(name, collection, sv)
  }

  /** One file of the batch, which ran as `run`. */
  function BatchStep(b: Batch, name: string, run: FileRun): Batch {
    var processed := if run.marked then b.processed[name := Bool(true)] else b.processed;
    Batch(b.calls + run.calls,
          if run.result.Returned? then b.results + [run.result.value] else b.results,
          processed,
          if run.marked then Some(processed) else b.stored,
          if run.result.Raised? then Some(run.result.message) else None)
  }

  /**
   * `process_new_files` over `files[..n]`, starting from the loader's `processed` map and `stored`
   * store; `process` is `process_file`.
   */
  function BatchUpTo(files: seq<string>, n: nat, processed: map<string, Value>, stored: Option<map<string, Value>>,
                     process: string -> FileRun): Batch
    requires n <= |files|
  {
    if n == 0 then Batch([], [], processed, stored, None)
    else
      var b := BatchUpTo(files, n - 1, processed, stored, process);
      if b.error.Some? then b else BatchStep(b, files[n - 1], process(files[n - 1]))
  }

  lemma {:induction false} ChunksStop(chunks: seq<Document>, i: nat, n: nat, point: Document -> Outcome<Point>,
                                      upserts: Point -> seq<UpsertCall>)
    requires i <= n <= |chunks| && ChunksUpTo(chunks, i, point, upserts).error.Some?
    ensures ChunksUpTo(chunks, n, point, upserts) == ChunksUpTo(chunks, i, point, upserts)
    decreases n - i
  {
    if i < n {
      ChunksStop(chunks, i, n - 1, point, upserts);
    }
  }

  lemma {:induction false} BatchStops(files: seq<string>, i: nat, n: nat, processed: map<string, Value>,
                                      stored: Option<map<string, Value>>, process: string -> FileRun)
    requires i <= n <= |files| && BatchUpTo(files, i, processed, stored, process).error.Some?
    ensures BatchUpTo(files, n, processed, stored, process) == BatchUpTo(files, i, processed, stored, process)
    decreases n - i
  {
    if i < n {
      BatchStops(files, i, n - 1, processed, stored, process);
    }
  }

  /** One more chunk of a loop that has not raised. */
  lemma {:induction false} ChunkStep(chunks: seq<Document>, i: nat, point: Document -> Outcome<Point>,
                                     upserts: Point -> seq<UpsertCall>, calls: seq<UpsertCall>)
    requires i < |chunks| && ChunksUpTo(chunks, i, point, upserts) == Progress(calls, None)
    ensures point(chunks[i]).Raised? ==>
      ChunksUpTo(chunks, |chunks|, point, upserts) == Progress(calls, Some(point(chunks[i]).message))
    ensures point(chunks[i]).Returned? ==>
      ChunksUpTo(chunks, i + 1, point, upserts) == Progress(calls + upserts(point(chunks[i]).value), None)
  {
    if point(chunks[i]).Raised? {
      ChunksStop(chunks, i + 1, |chunks|, point, upserts);
    }
  }

  /** One more file of a batch that has not raised. */
  lemma {:induction false} FileStep(files: seq<string>, i: nat, processed: map<string, Value>,
                                    stored: Option<map<string, Value>>, process: string -> FileRun, b: Batch)
    requires i < |files| && BatchUpTo(files, i, processed, stored, process) == b && b.error.None?
    ensures process(files[i]).result.Raised? ==>
      BatchUpTo(files, |files|, processed, stored, process) == BatchStep(b, files[i], process(files[i]))
    ensures process(files[i]).result.Returned? ==>
      BatchUpTo(files, i + 1, processed, stored, process) == BatchStep(b, files[i], process(files[i]))
  {
    if process(files[i]).result.Raised? {
      BatchStops(files, i + 1, |files|, processed, stored, process);
    }
  }

  class AnalyzerPipeline {
    /** The loader holding the processed-files map. */
    const ingest: IngestionPipeline
    /** The Qdrant collection the chunks go to. */
    const collection: Value

    /** `__init__`, with the loader and the collection name already made; the collection bootstrap is not modelled. */
    constructor(ingest: IngestionPipeline, collection: Value)
      ensures this.ingest == ingest && this.collection == collection
    {
      this.ingest := ingest;
      this.collection := collection;
    }

    /**
     * The first part of the chunk loop's body in `process_file`: the summary, the requirements, the
     * embedding, the id and the payload of chunk `c`, or the exception raised on the way.
     */
    method BuildPoint(c: Document, sv: Services) returns (point: Outcome<Point>)
      ensures point == ChunkPoint(c, sv)
    {
      var summary := sv.generate(SummaryPrompt(c.pageContent, sv.repr));
      var prompt := RequirementsPrompt(c.pageContent);
      if prompt.Raised? {
        return Raised(prompt.message);
      }
      var requirements := sv.generate(prompt.value);
      var embedding := sv.embed(c.pageContent);
      if embedding.Raised? {
        return Raised(embedding.message);
      }
      var id := MakeId(c.metadata, c.pageContent.s, sv.repr, sv.sha1);
      var payload := Payload(summary, c.pageContent, requirements, c.metadata);
      point := Returned(Point(id, embedding.value, payload));
    }

    /** The chunk loop of `process_file`: each chunk's point is built and upserted, until one raises. */
    method IndexChunks(chunks: seq<Document>, sv: Services) returns (progress: Progress)
      ensures progress == ChunksUpTo(chunks, |chunks|, PointMaker(sv), Upserter(collection, sv))
    {
      var calls := [];
      for i := 0 to |chunks|
        invariant ChunksUpTo(chunks, i, PointMaker(sv), Upserter(collection, sv)) == Progress(calls, None)
      {
        ChunkStep(chunks, i, PointMaker(sv), Upserter(collection, sv), calls);
        var point := BuildPoint(chunks[i], sv);
        assert point == PointMaker(sv)(chunks[i]);
        if point.Raised? {
          return Progress(calls, Some(point.message));
        }
        calls := calls + UpsertCalls(collection, point.value, sv);
      }
      progress := Progress(calls, None);
    }

    /** `process_file(name)`: its upserts and its result; the loader's map and store change only when the file is marked. */
    method ProcessFile(name: string, sv: Services) returns (calls: seq<UpsertCall>, r: Outcome<Object>)
      modifies ingest
      ensures var run := ProcessedFile(name, collection, sv);
        calls == run.calls && r == run.result &&
        (run.marked ==> ingest.processed == old(ingest.processed)[name := Bool(true)] && ingest.stored == Some(ingest.processed)) &&
        (!run.marked ==> ingest.processed == old(ingest.processed) && ingest.stored == old(ingest.stored))
      ensures ingest.tempFiles <= old(ingest.tempFiles)
    {
      var docs := ingest.DownloadAndLoad(name, sv.download, sv.load);
      if docs.Raised? {
        return [], Raised(docs.message);
      }
      if docs.value.None? || docs.value.value == [] {
        return [], Returned(NoDocs);
      }
      var chunks := ChunkDocuments(docs.value.value, sv.chunker);
      var progress := IndexChunks(chunks, sv);
      calls := progress.calls;
      if progress.error.Some? {
        return calls, Raised(progress.error.value);
      }
      ingest.MarkAsProcessed(name);
      r := Returned(ProcessedReport(name, |chunks|));
    }

    /**
     * `process_new_files()`, given the bucket's listing: every new file in listing order, one result
     * each; an exception from a file ends the batch and escapes, the results gathered so far lost.
     */
    method ProcessNewFiles(listing: seq<string>, sv: Services) returns (calls: seq<UpsertCall>, r: Outcome<seq<Object>>)
      modifies ingest
      ensures var files := NewFiles(listing, old(ingest.processed));
        var b := BatchUpTo(files, |files|, old(ingest.processed), old(ingest.stored), Runner(collection, sv));
        calls == b.calls && r == (if b.error.Some? then Raised(b.error.value) else Returned(b.results)) &&
        ingest.processed == b.processed && ingest.stored == b.stored
      ensures ingest.tempFiles <= old(ingest.tempFiles)
    {
      var files := ingest.GetNewFiles(listing);
      ghost var processed0 := ingest.processed;
      ghost var stored0 := ingest.stored;
      calls := [];
      var results := [];
      for i := 0 to |files|
        invariant BatchUpTo(files, i, processed0, stored0, Runner(collection, sv)) ==
          Batch(calls, results, ingest.processed, ingest.stored, None)
        invariant ingest.tempFiles <= old(ingest.tempFiles)
      {
        ghost var b := BatchUpTo(files, i, processed0, stored0, Runner(collection, sv));
        FileStep(files, i, processed0, stored0, Runner(collection, sv), b);
        var fileCalls, result := ProcessFile(files[i], sv);
        calls := calls + fileCalls;
        if result.Raised? {
          return calls, Raised(result.message);
        }
        results := results + [result.value];
      }
      r := Returned(results);
    }
  }

  // ----- properties -----

  /** Without a `qdrant` section, or without a `collection` in it, the collection is `regulations_chunks`. */
  lemma {:induction false} CollectionDefaults(config: Object)
    ensures "qdrant" !in config ==> CollectionName(Dict(config)) == Returned(Str(DefaultCollection))
    ensures "qdrant" in config && config["qdrant"].Dict? ==>
      CollectionName(Dict(config)) == Returned(Get(config["qdrant"].fields, "collection", Str(DefaultCollection)))
    ensures "qdrant" in config && !config["qdrant"].Dict? ==> CollectionName(Dict(config)).Raised?
  {
  }

  /**
   * The id base is the file name, the chunk id and the text's first 64 characters, joined by '-':
   * a text within the limit enters whole.
   */
  lemma {:induction false} IdBaseShape(metadata: Object, text: string, repr: Value -> string)
    ensures var t := Take(text, IdTextLength);
      IdBase(metadata, text, repr) ==
        Text(Get(metadata, "filename", Str("")), repr) + "-" + Text(Get(metadata, "chunk_id", Str("")), repr) + "-" + t &&
      StartsWith(text, t) && |t| == (if |text| <= IdTextLength then |text| else IdTextLength)
  {
  }

  /**
   * Equal file names, equal chunk ids and equal first 64 characters give equal ids, whatever follows;
   * so two such chunks are upserted as the same point.
   */
  lemma {:induction false} SamePrefixSameId(m1: Object, t1: string, m2: Object, t2: string,
                                            repr: Value -> string, sha1: string -> string)
    requires Get(m1, "filename", Str("")) == Get(m2, "filename", Str(""))
    requires Get(m1, "chunk_id", Str("")) == Get(m2, "chunk_id", Str(""))
    requires Take(t1, IdTextLength) == Take(t2, IdTextLength)
    ensures MakeId(m1, t1, repr, sha1) == MakeId(m2, t2, repr, sha1)
  {
  }

  /**
   * The '-' separator is ambiguous: a file `a-b` with chunk id `c` and a file `a` with chunk id `b-c`
   * hash the same base, so their chunks share an id.
   */
  lemma {:induction false} SeparatorCollision(text: string, repr: Value -> string, sha1: string -> string)
    ensures var m1 := map["filename" := Str("a-b"), "chunk_id" := Str("c")];
      var m2 := map["filename" := Str("a"), "chunk_id" := Str("b-c")];
      m1 != m2 && MakeId(m1, text, repr, sha1) == MakeId(m2, text, repr, sha1)
  {
    var m1 := map["filename" := Str("a-b"), "chunk_id" := Str("c")];
    var m2 := map["filename" := Str("a"), "chunk_id" := Str("b-c")];
    assert m1["filename"] != m2["filename"];
    assert IdBase(m1, text, repr) == "a-b" + "-" + "c" + "-" + Take(text, IdTextLength);
    assert IdBase(m2, text, repr) == "a" + "-" + "b-c" + "-" + Take(text, IdTextLength);
    assert "a-b" + "-" + "c" == "a" + "-" + "b-c";
  }

  /** The payload has exactly the four keys, holding the summary, the text, the requirements and the metadata. */
  lemma {:induction false} PayloadFields(summary: string, text: Value, requirements: string, metadata: Object)
    ensures Payload(summary, text, requirements, metadata).Keys == {"summary", "original_text", "requirements", "metadata"}
    ensures Payload(summary, text, requirements, metadata)["summary"] == Str(summary)
    ensures Payload(summary, text, requirements, metadata)["original_text"] == text
    ensures Payload(summary, text, requirements, metadata)["requirements"] == Str(requirements)
    ensures Payload(summary, text, requirements, metadata)["metadata"] == Dict(metadata)
  {
  }

  /**
   * `_upsert_chunk` never raises: it makes at most two upserts, all of the same point into the same
   * collection, numbered from 1; none exactly when the point is rejected, and a retry exactly when
   * the first upsert raised.
   */
  lemma {:induction false} UpsertAttempts(collection: Value, point: Point, sv: Services)
    ensures var calls := UpsertCalls(collection, point, sv);
      |calls| <= 2 &&
      (forall i :: 0 <= i < |calls| ==> calls[i] == UpsertCall(collection, point, i + 1)) &&
      (calls == [] <==> !sv.accepts(point)) &&
      (|calls| == 2 <==> sv.accepts(point) && sv.upsert(UpsertCall(collection, point, 1)).Raised?)
  {
  }

  /** A point's text is checked before it is embedded: a chunk whose text is not a string raises the concatenation error. */
  lemma {:induction false} NonStringChunkRaises(c: Document, sv: Services)
    requires !c.pageContent.Str?
    ensures ChunkPoint(c, sv) == Raised(ConcatMessage(c.pageContent))
  {
  }

  /** Which exception ends the chunk loop, if any, depends on the points built and not on how they are sent. */
  lemma {:induction false} ChunkErrorIgnoresUpserts(chunks: seq<Document>, n: nat,
                                                    point1: Document -> Outcome<Point>, point2: Document -> Outcome<Point>,
                                                    upserts1: Point -> seq<UpsertCall>, upserts2: Point -> seq<UpsertCall>)
    requires n <= |chunks| && forall c :: point1(c) == point2(c)
    ensures ChunksUpTo(chunks, n, point1, upserts1).error == ChunksUpTo(chunks, n, point2, upserts2).error
  {
    if n > 0 {
      ChunkErrorIgnoresUpserts(chunks, n - 1, point1, point2, upserts1, upserts2);
    }
  }

  /**
   * What `process_file` returns, and whether it marks the file, does not depend on whether any
   * upsert succeeded: upsert failures are swallowed and `chunks_indexed` counts attempts, not writes.
   */
  lemma {:induction false} ResultIgnoresUpserts(name: string, collection: Value, sv: Services,
                                                accepts: Point -> bool, upsert: UpsertCall -> Outcome<()>)
    ensures var sv' := sv.(accepts := accepts, upsert := upsert);
      ProcessedFile(name, collection, sv').result == ProcessedFile(name, collection, sv).result &&
      ProcessedFile(name, collection, sv').marked == ProcessedFile(name, collection, sv).marked
  {
    var sv' := sv.(accepts := accepts, upsert := upsert);
    var loaded := Loaded(name, sv.download, sv.load);
    if loaded.Returned? && loaded.value.Some? && loaded.value.value != [] {
      var docs := loaded.value.value;
      var chunks := ChunkedUpTo(docs, |docs|, sv.chunker);
      forall c ensures PointMaker(sv')(c) == PointMaker(sv)(c) {
        assert ChunkPoint(c, sv') == ChunkPoint(c, sv);
      }
      ChunkErrorIgnoresUpserts(chunks, |chunks|, PointMaker(sv'), PointMaker(sv), Upserter(collection, sv'), Upserter(collection, sv));
    }
  }

  /** A file that yields no pages returns `no_docs`, makes no upsert and is not marked. */
  lemma {:induction false} NoDocsUnmarked(name: string, collection: Value, sv: Services)
    requires Loaded(name, sv.download, sv.load) in {Returned(None), Returned(Some([]))}
    ensures ProcessedFile(name, collection, sv) == FileRun([], Returned(NoDocs), false)
  {
  }

  /**
   * A file whose pages load is marked exactly when it returns; `chunks_indexed` is then the number
   * of chunks the library made of all its pages.
   */
  lemma {:induction false} ChunksIndexedIsChunkCount(name: string, docs: seq<Document>, collection: Value, sv: Services)
    requires Loaded(name, sv.download, sv.load) == Returned(Some(docs)) && docs != []
    ensures ProcessedFile(name, collection, sv).marked <==> ProcessedFile(name, collection, sv).result.Returned?
    ensures ProcessedFile(name, collection, sv).marked ==>
      ProcessedFile(name, collection, sv).result == Returned(ProcessedReport(name, ChunkCount(docs, |docs|, sv.chunker)))
  {
    ChunkedLength(docs, |docs|, sv.chunker);
  }

  /** When a point is sent with at most `k` upserts, the chunk loop makes at most `k` per chunk. */
  lemma {:induction false} UpsertsPerChunkBound(chunks: seq<Document>, n: nat, point: Document -> Outcome<Point>,
                                                upserts: Point -> seq<UpsertCall>, k: nat)
    requires n <= |chunks| && forall p :: |upserts(p)| <= k
    ensures |ChunksUpTo(chunks, n, point, upserts).calls| <= k * n
  {
    if n > 0 {
      UpsertsPerChunkBound(chunks, n - 1, point, upserts, k);
    }
  }

  /** `process_file` makes at most two upserts per chunk. */
  lemma {:induction false} FileUpsertsBound(name: string, docs: seq<Document>, collection: Value, sv: Services)
    requires Loaded(name, sv.download, sv.load) == Returned(Some(docs))
    ensures |ProcessedFile(name, collection, sv).calls| <= 2 * ChunkCount(docs, |docs|, sv.chunker)
  {
    if docs != [] {
      var chunks := ChunkedUpTo(docs, |docs|, sv.chunker);
      ChunkedLength(docs, |docs|, sv.chunker);
      forall p ensures |Upserter(collection, sv)(p)| <= 2 {
        UpsertAttempts(collection, p, sv);
      }
      UpsertsPerChunkBound(chunks, |chunks|, PointMaker(sv), Upserter(collection, sv), 2);
    }
  }

  /** When every point is sent with one upsert, a chunk loop that completes sends each chunk's point once, in chunk order. */
  lemma {:induction false} OneUpsertPerChunk(chunks: seq<Document>, n: nat, point: Document -> Outcome<Point>,
                                             upserts: Point -> seq<UpsertCall>)
    requires n <= |chunks| && (forall p :: |upserts(p)| == 1) && ChunksUpTo(chunks, n, point, upserts).error.None?
    ensures |ChunksUpTo(chunks, n, point, upserts).calls| == n
    ensures forall i :: 0 <= i < n ==>
      point(chunks[i]).Returned? && ChunksUpTo(chunks, n, point, upserts).calls[i] == upserts(point(chunks[i]).value)[0]
  {
    if n > 0 {
      OneUpsertPerChunk(chunks, n - 1, point, upserts);
    }
  }

  /** A Qdrant that accepts every point and every first upsert. */
  ghost predicate Healthy(sv: Services) {
    (forall p :: sv.accepts(p)) && (forall c :: sv.upsert(c).Returned?)
  }

  /**
   * With a healthy Qdrant, a file that is processed gets exactly one upsert per chunk, in chunk
   * order, each of that chunk's point, on the first attempt.
   */
  lemma {:induction false} HealthyUpsertsOnce(name: string, docs: seq<Document>, collection: Value, sv: Services)
    requires Loaded(name, sv.download, sv.load) == Returned(Some(docs)) && docs != []
    requires Healthy(sv) && ProcessedFile(name, collection, sv).marked
    ensures var chunks := ChunkedUpTo(docs, |docs|, sv.chunker);
      var calls := ProcessedFile(name, collection, sv).calls;
      |calls| == |chunks| &&
      forall i :: 0 <= i < |chunks| ==>
        ChunkPoint(chunks[i], sv).Returned? && calls[i] == UpsertCall(collection, ChunkPoint(chunks[i], sv).value, 1)
  {
    var chunks := ChunkedUpTo(docs, |docs|, sv.chunker);
    forall p ensures Upserter(collection, sv)(p) == [UpsertCall(collection, p, 1)] {
      assert sv.accepts(p) && sv.upsert(UpsertCall(collection, p, 1)).Returned?;
    }
    OneUpsertPerChunk(chunks, |chunks|, PointMaker(sv), Upserter(collection, sv));
  }

  /** A batch that completes returns one result per new file, in listing order. */
  lemma {:induction false} OneResultPerFile(files: seq<string>, n: nat, processed: map<string, Value>,
                                            stored: Option<map<string, Value>>, process: string -> FileRun)
    requires n <= |files|
    requires BatchUpTo(files, n, processed, stored, process).error.None?
    ensures var results := BatchUpTo(files, n, processed, stored, process).results;
      |results| == n &&
      forall i :: 0 <= i < n ==> process(files[i]).result == Returned(results[i])
  {
    if n > 0 {
      OneResultPerFile(files, n - 1, processed, stored, process);
    }
  }

  /** A batch that raises raised at some file, every earlier file having returned. */
  lemma {:induction false} BatchRaisedAt(files: seq<string>, n: nat, processed: map<string, Value>,
                                         stored: Option<map<string, Value>>, process: string -> FileRun)
    requires n <= |files|
    requires BatchUpTo(files, n, processed, stored, process).error.Some?
    ensures exists k :: (0 <= k < n &&
                         process(files[k]).result == Raised(BatchUpTo(files, n, processed, stored, process).error.value) &&
                         forall j :: 0 <= j < k ==> process(files[j]).result.Returned?)
  {
    var before := BatchUpTo(files, n - 1, processed, stored, process);
    if before.error.Some? {
      BatchRaisedAt(files, n - 1, processed, stored, process);
    } else {
      forall j | 0 <= j < n - 1 ensures process(files[j]).result.Returned? {
        OneResultPerFile(files, n - 1, processed, stored, process);
      }
    }
  }

  /**
   * After a batch that completes, a name is processed exactly when it was before or the batch marked
   * it; every name the batch marked maps to True and the others keep their values.
   */
  lemma {:induction false} BatchMarks(files: seq<string>, n: nat, processed: map<string, Value>,
                                      stored: Option<map<string, Value>>, process: string -> FileRun, f: string)
    requires n <= |files|
    requires BatchUpTo(files, n, processed, stored, process).error.None?
    ensures var after := BatchUpTo(files, n, processed, stored, process).processed;
      (f in after <==> f in processed || exists i :: 0 <= i < n && files[i] == f && process(files[i]).marked) &&
      ((exists i :: 0 <= i < n && files[i] == f && process(files[i]).marked) ==> after[f] == Bool(true)) &&
      ((forall i :: 0 <= i < n && files[i] == f ==> !process(files[i]).marked) && f in processed ==>
        after[f] == processed[f])
  {
    if n > 0 {
      BatchMarks(files, n - 1, processed, stored, process, f);
    }
  }
}
