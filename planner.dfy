/**
 * The planner: a user query routed through analysis, retrieval and summarising, and the batch that
 * ingests every pending document, moving its status from "pending" to "processing" and then to
 * "processed" or "error".
 */
module Planner {
  import opened Wrappers
  import opened JsonValue
  import opened Strings
  import opened Metadata

  /** A tool call `execute_pipeline` makes, with the arguments it passes. */
  datatype PipelineCall =
    | AnalyzeCall(query: string)
    | SearchCall(query: string, topK: int)
    | SummarizeCall(query: string, context: string)

  /**
   * The registered tools `execute_pipeline` calls (`analyze_query`, `rag_search`,
   * `summarize_results`), and `str` for values that are not strings.
   */
  datatype PipelineTools = PipelineTools(
    analyze: string -> Outcome<Value>,
    ragSearch: (string, int) -> Outcome<Value>,
    summarize: (string, string) -> Outcome<Value>,
    str: Value -> string)

  /** The calls made, in order, and what `execute_pipeline` returned or raised. */
  datatype PipelineRun = PipelineRun(calls: seq<PipelineCall>, result: Outcome<Object>)

  const GraphRagIntent: Value := Str("GraphRAG")

  /** `analysis.get("classification", "RAG")`. */
  function Intent(analysis: Object): Value {
    Get(analysis, "classification", Str("RAG"))
  }

  /** The label put before the retrieved results in the context. */
  function ContextLabel(query: string, intent: Value): string {
    if intent != GraphRagIntent then "RAG Context: "
    else if Contains(Lower(query), "compare") then "GraphRAG/RAG Context: "
    else "GraphRAG Context: "
  }

  /**
   * `execute_pipeline`: the analysis must be a dict whose `entities` (default `{}`) is a dict, or
   * calling `.get` on it raises; the intent picks `top_k` and the context label; the summary is
   * asked once, with the original query, and the answer is returned with the analysis and the
   * context's length.
   */
  function ExecutePipeline(query: string, t: PipelineTools): (run: PipelineRun)
    ensures 1 <= |run.calls| <= 3 && run.calls[0] == AnalyzeCall(query)
    ensures forall i :: 0 <= i < |run.calls| ==> run.calls[i].query == query
    ensures |run.calls| >= 2 ==> run.calls[1].SearchCall? && run.calls[1].topK in {3, 5}
    ensures |run.calls| == 3 ==> run.calls[2].SummarizeCall?
    ensures run.result.Returned? ==>
      |run.calls| == 3 && t.analyze(query).Returned? && t.analyze(query).value.Dict? &&
      t.summarize(query, run.calls[2].context).Returned? &&
      run.result.value.Keys == {"answer", "analysis", "context_used"} &&
      run.result.value["answer"] == t.summarize(query, run.calls[2].context).value &&
      run.result.value["analysis"] == t.analyze(query).value &&
      run.result.value["context_used"] == Int(|run.calls[2].context|)
  {
    var analyzed := t.analyze(query);
    if analyzed.Raised? then PipelineRun([AnalyzeCall(query)], Raised(analyzed.message))
    else if !analyzed.value.Dict? then PipelineRun([AnalyzeCall(query)], Raised(NoGetMessage(analyzed.value)))
    else
      var analysis := analyzed.value.fields;
      var entities := Get(analysis, "entities", Dict(map[]));
      if !entities.Dict? then PipelineRun([AnalyzeCall(query)], Raised(NoGetMessage(entities)))
      else
        var intent := Intent(analysis);
        var topK := if intent == GraphRagIntent then 5 else 3;
        var searched := t.ragSearch(query, topK);
        var calls := [AnalyzeCall(query), SearchCall(query, topK)];
        if searched.Raised? then PipelineRun(calls, Raised(searched.message))
        else
          var context := ContextLabel(query, intent) + Text(searched.value, t.str) + "\n";
          var answered := t.summarize(query, context);
          var allCalls := calls + [SummarizeCall(query, context)];
          if answered.Raised? then PipelineRun(allCalls, Raised(answered.message))
          else
            PipelineRun(allCalls, Returned(map[
              "answer" := answered.value,
              "analysis" := Dict(analysis),
              "context_used" := Int(|context|)]))
  }

  /**
   * Retrieval is reached exactly when the analysis is a dict with dict (or absent) entities; it
   * asks for 5 results when the intent is "GraphRAG" and 3 otherwise.
   */
  lemma {:induction false} PipelineRouting(query: string, t: PipelineTools)
    ensures |ExecutePipeline(query, t).calls| >= 2 <==>
      t.analyze(query).Returned? && t.analyze(query).value.Dict? &&
      Get(t.analyze(query).value.fields, "entities", Dict(map[])).Dict?
    ensures |ExecutePipeline(query, t).calls| >= 2 ==>
      ExecutePipeline(query, t).calls[1] ==
        SearchCall(query, if Intent(t.analyze(query).value.fields) == GraphRagIntent then 5 else 3)
  {
  }

  /** An analysis without a classification is routed as "RAG": 3 results, labelled "RAG Context: ". */
  lemma {:induction false} MissingClassificationIsRag(query: string, t: PipelineTools)
    requires t.analyze(query).Returned? && t.analyze(query).value.Dict?
    requires "classification" !in t.analyze(query).value.fields
    ensures |ExecutePipeline(query, t).calls| >= 2 ==> ExecutePipeline(query, t).calls[1].topK == 3
    ensures |ExecutePipeline(query, t).calls| == 3 ==>
      StartsWith(ExecutePipeline(query, t).calls[2].context, "RAG Context: ")
  {
    var run := ExecutePipeline(query, t);
    if |run.calls| == 3 {
      var rest := Text(t.ragSearch(query, 3).value, t.str) + "\n";
      assert run.calls[2].context == "RAG Context: " + rest;
    }
  }

  /**
   * The context handed to the summary is the label, the retrieved results as text and a newline;
   * the two "GraphRAG" branches make the same search and differ only in the label.
   */
  lemma {:induction false} PipelineContext(query: string, t: PipelineTools)
    requires |ExecutePipeline(query, t).calls| == 3
    ensures var intent := Intent(t.analyze(query).value.fields);
      var searched := t.ragSearch(query, if intent == GraphRagIntent then 5 else 3);
      searched.Returned? &&
      ExecutePipeline(query, t).calls[2].context == ContextLabel(query, intent) + Text(searched.value, t.str) + "\n" &&
      ContextLabel(query, intent) ==
        if intent != GraphRagIntent then "RAG Context: "
        else if Contains(Lower(query), "compare") then "GraphRAG/RAG Context: "
        else "GraphRAG Context: "
  {
  }

  /** A call the ingestion batch makes to a tool, with the arguments it passes. */
  datatype Step =
    | SetStatus(docId: Value, updates: Object)
    | Download(filename: Value)
    | ReadText(path: Value)
    | ChunkText(text: Value, meta: Object)
    | RagIngest(chunks: seq<Object>)
    | GraphIngest(text: Value, meta: Object)

  /**
   * The registered tools the batch calls besides the metadata store (`get_document_content`,
   * `read_document_text`, `chunk_document`, `rag_ingest_chunks`, `graph_ingest_chunk`), and `str`.
   */
  datatype IngestTools = IngestTools(
    download: Value -> Outcome<Value>,
    read: Value -> Outcome<Value>,
    chunk: (Value, Object) -> Outcome<seq<Object>>,
    ragIngest: seq<Object> -> Outcome<Value>,
    graphIngest: (Value, Object) -> Outcome<Value>,
    str: Value -> string)

  /**
   * What the batch has done so far: the metadata file, how many updates it has stamped (update
   * number `k` is stamped `stamp(k)`), and the tool calls made, in order.
   */
  datatype Progress = Progress(file: Option<seq<Record>>, stamps: nat, steps: seq<Step>)

  const Processing: Object := map["status" := Str("processing")]

  function ProcessedUpdate(count: nat): Object {
    map["status" := Str("processed"), "chunks_count" := Int(count)]
  }

  function ErrorUpdate(message: string): Object {
    map["status" := Str("error"), "error" := Str(message)]
  }

  /** The status values the updates among `steps` set, in order. */
  function Statuses(steps: seq<Step>): seq<Value> {
    if steps == [] then []
    else
      var rest := Statuses(steps[1..]);
      if steps[0].SetStatus? then [Get(steps[0].updates, "status", Null)] + rest else rest
  }

  lemma {:induction false} StatusesAppend(a: seq<Step>, b: seq<Step>)
    ensures Statuses(a + b) == Statuses(a) + Statuses(b)
  {
    if a == [] {
      assert a + b == b;
    } else {
      assert (a + b)[0] == a[0] && (a + b)[1..] == a[1..] + b;
      StatusesAppend(a[1..], b);
    }
  }

  /** `update_doc_metadata(doc_id=id, updates=u)`: the store's update, stamped with the next timestamp. */
  function UpdateStep(p: Progress, id: Value, u: Object, stamp: nat -> string): (Outcome<bool>, Progress) {
    var (answer, file) := UpdateOutcome(p.file, id, u, stamp(p.stamps));
    (answer, Progress(file, p.stamps + 1, p.steps + [SetStatus(id, u)]))
  }

  /** The metadata passed to the chunker and the graph builder. */
  function ChunkMeta(doc: Record, fname: Value): Object {
    map["filename" := fname, "country" := Get(doc, "country", Null), "doc_type" := Get(doc, "doc_type", Null)]
  }

  /**
   * The graph-ingest loop over the first `n` chunks: the calls made and the first exception met, if
   * any; a chunk without "text" raises before its call.
   */
  function GraphIngestUpTo(chunks: seq<Object>, meta: Object, build: (Value, Object) -> Outcome<Value>, n: nat)
    : (seq<Step>, Option<string>)
    requires n <= |chunks|
  {
    if n == 0 then ([], None)
    else
      var (steps, exc) := GraphIngestUpTo(chunks, meta, build, n - 1);
      if exc.Some? then (steps, exc)
      else if "text" !in chunks[n - 1] then (steps, Some(KeyErrorMessage("text")))
      else
        var text := chunks[n - 1]["text"];
        var built := build(text, meta);
        (steps + [GraphIngest(text, meta)], if built.Raised? then Some(built.message) else None)
  }

  /** The `try` block for one document: the progress it makes, and the exception it ends with if any. */
  function TryDocument(p: Progress, doc: Record, fname: Value, t: IngestTools, stamp: nat -> string)
    : (Progress, Option<string>)
  {
    if "id" !in doc then (p, Some(KeyErrorMessage("id")))
    else
      var (marked, p1) := UpdateStep(p, doc["id"], Processing, stamp);
      if marked.Raised? then (p1, Some(marked.message))
      else TryFetch(p1, doc, fname, t, stamp)
  }

  /** The `try` block once the document is marked "processing": download and read, then chunking on. */
  function TryFetch(p: Progress, doc: Record, fname: Value, t: IngestTools, stamp: nat -> string)
    : (Progress, Option<string>)
    requires "id" in doc
  {
    var path := t.download(fname);
    var p2 := p.(steps := p.steps + [Download(fname)]);
    if path.Raised? then (p2, Some(path.message))
    else if !Truthy(path.value) then (p2, Some("Download failed"))
    else
      var text := t.read(path.value);
      var p3 := p2.(steps := p2.steps + [ReadText(path.value)]);
      if text.Raised? then (p3, Some(text.message))
      else if !Truthy(text.value) then (p3, Some("Empty or unreadable text"))
      else TryChunks(p3, doc, fname, text.value, t, stamp)
  }

  /** The rest of the `try` block, from chunking on. */
  function TryChunks(p: Progress, doc: Record, fname: Value, text: Value, t: IngestTools, stamp: nat -> string)
    : (Progress, Option<string>)
    requires "id" in doc
  {
    var meta := ChunkMeta(doc, fname);
    var chunked := t.chunk(text, meta);
    var p4 := p.(steps := p.steps + [ChunkText(text, meta)]);
    if chunked.Raised? then (p4, Some(chunked.message))
    else
      var chunks := chunked.value;
      var ingested := t.ragIngest(chunks);
      var p5 := p4.(steps := p4.steps + [RagIngest(chunks)]);
      if ingested.Raised? then (p5, Some(ingested.message))
      else
        var (graphSteps, exc) := GraphIngestUpTo(chunks, meta, t.graphIngest, |chunks|);
        var p6 := p5.(steps := p5.steps + graphSteps);
        if exc.Some? then (p6, exc)
        else
          var (done, p7) := UpdateStep(p6, doc["id"], ProcessedUpdate(|chunks|), stamp);
          (p7, if done.Raised? then Some(done.message) else None)
  }

  /** One document of the batch: its line of `details`, or the exception that ends the batch. */
  datatype DocOutcome = DocOutcome(progress: Progress, detail: Outcome<string>)

  /**
   * The loop body for one pending document: reading its "filename" outside the `try` may raise; an
   * exception inside the `try` is recorded as status "error" with its text, unless recording it
   * raises in turn.
   */
  function ProcessDocument(p: Progress, doc: Record, t: IngestTools, stamp: nat -> string): DocOutcome {
    if "filename" !in doc then DocOutcome(p, Raised(KeyErrorMessage("filename")))
    else
      var fname := doc["filename"];
      var (q, exc) := TryDocument(p, doc, fname, t, stamp);
      if exc.None? then DocOutcome(q, Returned("Processed " + Text(fname, t.str)))
      else RecordFailure(q, doc, fname, exc.value, t, stamp)
  }

  /** The `except` branch: the exception's text is recorded as status "error". */
  function RecordFailure(q: Progress, doc: Record, fname: Value, message: string, t: IngestTools,
                         stamp: nat -> string): DocOutcome {
    if "id" !in doc then DocOutcome(q, Raised(KeyErrorMessage("id")))
    else
      var (recorded, q2) := UpdateStep(q, doc["id"], ErrorUpdate(message), stamp);
      if recorded.Raised? then DocOutcome(q2, Raised(recorded.message))
      else DocOutcome(q2, Returned("Failed " + Text(fname, t.str)))
  }

  /** The batch after its first `n` documents: the progress, the `details` lines, and an exception that ended it. */
  datatype BatchState = BatchState(progress: Progress, details: seq<string>, crashed: Option<string>)

  /**
   * The batch after one more document, `process` being the loop body: unchanged once an exception
   * has ended it.
   */
  function BatchStep(b: BatchState, doc: Record, process: (Progress, Record) -> DocOutcome): BatchState {
    if b.crashed.Some? then b
    else
      var d := process(b.progress, doc);
      match d.detail
      case Raised(msg) => BatchState(d.progress, b.details, Some(msg))
      case Returned(line) => BatchState(d.progress, b.details + [line], None)
  }

  function BatchUpTo(p: Progress, pending: seq<Record>, process: (Progress, Record) -> DocOutcome, n: nat): BatchState
    requires n <= |pending|
  {
    if n == 0 then BatchState(p, [], None)
    else BatchStep(BatchUpTo(p, pending, process, n - 1), pending[n - 1], process)
  }

  /** The loop body of `ingest_pending_documents` with its tools and clock. */
  function Body(t: IngestTools, stamp: nat -> string): (Progress, Record) -> DocOutcome {
    (q, doc) => ProcessDocument(q, doc, t, stamp)
  }

  /** `[d for d in records if d.get("status") == "pending"]`: the pending records, in stored order. */
  function PendingDocs(records: seq<Record>): (pending: seq<Record>)
    ensures forall d :: d in pending <==> d in records && Get(d, "status", Null) == Str("pending")
    ensures Subsequence(pending, records)
    ensures forall d :: multiset(pending)[d] ==
                        (if Get(d, "status", Null) == Str("pending") then multiset(records)[d] else 0)
  {
    if records == [] then []
    else
      var rest := PendingDocs(records[1..]);
      if Get(records[0], "status", Null) == Str("pending") then
        assert ([records[0]] + rest)[1..] == rest;
        assert records == [records[0]] + records[1..];
        [records[0]] + rest
      else
        SubsequenceSkip(rest, records);
        assert records == [records[0]] + records[1..];
        rest
  }

  /**
   * The batch's filter reads "status" with `.get`, so it never raises, and where every record has a
   * status it keeps the same records as `get_pending_documents`.
   */
  lemma {:induction false} PendingDocsAgree(records: seq<Record>)
    requires forall i :: 0 <= i < |records| ==> "status" in records[i]
    ensures Pending(records) == Returned(PendingDocs(records))
  {
    if records != [] {
      PendingDocsAgree(records[1..]);
    }
  }

  function Lines(details: seq<string>): (v: Value)
    ensures v.List? && |v.items| == |details|
    ensures forall i :: 0 <= i < |details| ==> v.items[i] == Str(details[i])
  {
    List(seq(|details|, i requires 0 <= i < |details| => Str(details[i])))
  }

  const NoPendingReport: Object := map["status" := Str("No pending documents.")]

  /**
   * `ingest_pending_documents` on a metadata file: the report it returns (or the exception that
   * escapes it) and the progress made.
   */
  function Ingest(file: Option<seq<Record>>, t: IngestTools, stamp: nat -> string): (Outcome<Object>, Progress) {
    var pending := PendingDocs(if file.Some? then file.value else []);
    var start := Progress(file, 0, []);
    if pending == [] then (Returned(NoPendingReport), start)
    else
      var b := BatchUpTo(start, pending, Body(t, stamp), |pending|);
      if b.crashed.Some? then (Raised(b.crashed.value), b.progress)
      else (Returned(map["status" := Str("Ingestion Complete"), "details" := Lines(b.details)]), b.progress)
  }

  /** The graph-ingest loop: one call per chunk, in order, until a chunk raises. */
  method GraphIngestChunks(chunks: seq<Object>, meta: Object, build: (Value, Object) -> Outcome<Value>)
    returns (steps: seq<Step>, exc: Option<string>)
    ensures (steps, exc) == GraphIngestUpTo(chunks, meta, build, |chunks|)
  {
    steps := [];
    for i := 0 to |chunks|
      invariant GraphIngestUpTo(chunks, meta, build, i) == (steps, None)
    {
      if "text" !in chunks[i] {
        GraphIngestStops(chunks, meta, build, i + 1, |chunks|);
        return steps, Some(KeyErrorMessage("text"));
      }
      var text := chunks[i]["text"];
      var built := build(text, meta);
      steps := steps + [GraphIngest(text, meta)];
      if built.Raised? {
        GraphIngestStops(chunks, meta, build, i + 1, |chunks|);
        return steps, Some(built.message);
      }
    }
    exc := None;
  }

  /** Once a chunk has raised, the later chunks are not ingested. */
  lemma {:induction false} GraphIngestStops(chunks: seq<Object>, meta: Object, build: (Value, Object) -> Outcome<Value>,
                                           i: nat, n: nat)
    requires i <= n <= |chunks| && GraphIngestUpTo(chunks, meta, build, i).1.Some?
    ensures GraphIngestUpTo(chunks, meta, build, n) == GraphIngestUpTo(chunks, meta, build, i)
    decreases n - i
  {
    if i < n {
      GraphIngestStops(chunks, meta, build, i, n - 1);
    }
  }

  /** The `try` block, with early exits where it raises. */
  method TryDocumentStep(store: MetadataManager, doc: Record, fname: Value, t: IngestTools,
                         stamp: nat -> string, steps0: seq<Step>, stamps0: nat)
    returns (exc: Option<string>, steps: seq<Step>, stamps: nat)
    modifies store
    ensures (Progress(store.file, stamps, steps), exc) ==
      TryDocument(Progress(old(store.file), stamps0, steps0), doc, fname, t, stamp)
  {
    steps, stamps := steps0, stamps0;
    if "id" !in doc {
      return Some(KeyErrorMessage("id")), steps, stamps;
    }
    var marked := store.UpdateDocument(doc["id"], Processing, stamp(stamps));
    steps, stamps := steps + [SetStatus(doc["id"], Processing)], stamps + 1;
    if marked.Raised? {
      return Some(marked.message), steps, stamps;
    }
    exc, steps, stamps := TryFetchStep(store, doc, fname, t, stamp, steps, stamps);
  }

  method TryFetchStep(store: MetadataManager, doc: Record, fname: Value, t: IngestTools,
                      stamp: nat -> string, steps0: seq<Step>, stamps0: nat)
    returns (exc: Option<string>, steps: seq<Step>, stamps: nat)
    requires "id" in doc
    modifies store
    ensures (Progress(store.file, stamps, steps), exc) ==
      TryFetch(Progress(old(store.file), stamps0, steps0), doc, fname, t, stamp)
  {
    steps, stamps := steps0, stamps0;
    var path := t.download(fname);
    steps := steps + [Download(fname)];
    if path.Raised? {
      return Some(path.message), steps, stamps;
    }
    if !Truthy(path.value) {
      return Some("Download failed"), steps, stamps;
    }
    var text := t.read(path.value);
    steps := steps + [ReadText(path.value)];
    if text.Raised? {
      return Some(text.message), steps, stamps;
    }
    if !Truthy(text.value) {
      return Some("Empty or unreadable text"), steps, stamps;
    }
    exc, steps, stamps := TryChunksStep(store, doc, fname, text.value, t, stamp, steps, stamps);
  }

  method TryChunksStep(store: MetadataManager, doc: Record, fname: Value, text: Value, t: IngestTools,
                       stamp: nat -> string, steps0: seq<Step>, stamps0: nat)
    returns (exc: Option<string>, steps: seq<Step>, stamps: nat)
    requires "id" in doc
    modifies store
    ensures (Progress(store.file, stamps, steps), exc) ==
      TryChunks(Progress(old(store.file), stamps0, steps0), doc, fname, text, t, stamp)
  {
    steps, stamps := steps0, stamps0;
    var meta := ChunkMeta(doc, fname);
    var chunked := t.chunk(text, meta);
    steps := steps + [ChunkText(text, meta)];
    if chunked.Raised? {
      return Some(chunked.message), steps, stamps;
    }
    var chunks := chunked.value;
    var ingested := t.ragIngest(chunks);
    steps := steps + [RagIngest(chunks)];
    if ingested.Raised? {
      return Some(ingested.message), steps, stamps;
    }
    var graphSteps, failed := GraphIngestChunks(chunks, meta, t.graphIngest);
    steps := steps + graphSteps;
    if failed.Some? {
      return failed, steps, stamps;
    }
    var done := store.UpdateDocument(doc["id"], ProcessedUpdate(|chunks|), stamp(stamps));
    steps, stamps := steps + [SetStatus(doc["id"], ProcessedUpdate(|chunks|))], stamps + 1;
    exc := if done.Raised? then Some(done.message) else None;
  }

  /** The loop body for one document, with its `except` branch. */
  method ProcessDocumentStep(store: MetadataManager, doc: Record, t: IngestTools, stamp: nat -> string,
                             steps0: seq<Step>, stamps0: nat)
    returns (detail: Outcome<string>, steps: seq<Step>, stamps: nat)
    modifies store
    ensures DocOutcome(Progress(store.file, stamps, steps), detail) ==
      ProcessDocument(Progress(old(store.file), stamps0, steps0), doc, t, stamp)
  {
    if "filename" !in doc {
      return Raised(KeyErrorMessage("filename")), steps0, stamps0;
    }
    var fname := doc["filename"];
    var exc;
    exc, steps, stamps := TryDocumentStep(store, doc, fname, t, stamp, steps0, stamps0);
    if exc.None? {
      return Returned("Processed " + Text(fname, t.str)), steps, stamps;
    }
    detail, steps, stamps := RecordFailureStep(store, doc, fname, exc.value, t, stamp, steps, stamps);
  }

  method RecordFailureStep(store: MetadataManager, doc: Record, fname: Value, message: string, t: IngestTools,
                           stamp: nat -> string, steps0: seq<Step>, stamps0: nat)
    returns (detail: Outcome<string>, steps: seq<Step>, stamps: nat)
    modifies store
    ensures DocOutcome(Progress(store.file, stamps, steps), detail) ==
      RecordFailure(Progress(old(store.file), stamps0, steps0), doc, fname, message, t, stamp)
  {
    if "id" !in doc {
      return Raised(KeyErrorMessage("id")), steps0, stamps0;
    }
    var recorded := store.UpdateDocument(doc["id"], ErrorUpdate(message), stamp(stamps0));
    steps, stamps := steps0 + [SetStatus(doc["id"], ErrorUpdate(message))], stamps0 + 1;
    if recorded.Raised? {
      return Raised(recorded.message), steps, stamps;
    }
    detail := Returned("Failed " + Text(fname, t.str));
  }

  /** Once a document has raised, the batch is over. */
  lemma {:induction false} BatchStops(p: Progress, pending: seq<Record>, process: (Progress, Record) -> DocOutcome,
                                     i: nat, n: nat)
    requires i <= n <= |pending| && BatchUpTo(p, pending, process, i).crashed.Some?
    ensures BatchUpTo(p, pending, process, n) == BatchUpTo(p, pending, process, i)
    decreases n - i
  {
    if i < n {
      BatchStops(p, pending, process, i, n - 1);
    }
  }

  /**
   * `ingest_pending_documents`: the pending records of the store, each processed in turn; the
   * report lists one line per document unless an exception escapes. `steps` is the tool calls made.
   */
  method IngestPendingDocuments(store: MetadataManager, t: IngestTools, stamp: nat -> string)
    returns (r: Outcome<Object>, steps: seq<Step>)
    modifies store
    ensures var (report, progress) := Ingest(old(store.file), t, stamp);
      r == report && steps == progress.steps && store.file == progress.file
  {
    var pending := PendingDocs(store.LoadMetadata());
    if pending == [] {
      return Returned(NoPendingReport), [];
    }
    ghost var start := Progress(store.file, 0, []);
    var results: seq<string> := [];
    var stamps := 0;
    steps := [];
    for i := 0 to |pending|
      invariant BatchUpTo(start, pending, Body(t, stamp), i) == BatchState(Progress(store.file, stamps, steps), results, None)
    {
      var detail;
      detail, steps, stamps := ProcessDocumentStep(store, pending[i], t, stamp, steps, stamps);
      if detail.Raised? {
        BatchStops(start, pending, Body(t, stamp), i + 1, |pending|);
        return Raised(detail.message), steps;
      }
      results := results + [detail.value];
    }
    r := Returned(map["status" := Str("Ingestion Complete"), "details" := Lines(results)]);
  }

  /** With no pending record the batch reports so, calls nothing and writes nothing. */
  lemma {:induction false} NoPendingDocuments(file: Option<seq<Record>>, t: IngestTools, stamp: nat -> string)
    requires file.Some? ==> forall i :: 0 <= i < |file.value| ==> Get(file.value[i], "status", Null) != Str("pending")
    ensures Ingest(file, t, stamp) == (Returned(NoPendingReport), Progress(file, 0, []))
  {
    if file.Some? {
      NoPendingRecords(file.value);
    }
  }

  lemma {:induction false} NoPendingRecords(records: seq<Record>)
    requires forall i :: 0 <= i < |records| ==> Get(records[i], "status", Null) != Str("pending")
    ensures PendingDocs(records) == []
  {
    if records != [] {
      NoPendingRecords(records[1..]);
    }
  }

  /** No step in `steps` is a status update. */
  predicate NoUpdates(steps: seq<Step>) {
    forall i :: 0 <= i < |steps| ==> !steps[i].SetStatus?
  }

  lemma {:induction false} StatusesNoUpdates(steps: seq<Step>)
    requires NoUpdates(steps)
    ensures Statuses(steps) == []
  {
    if steps != [] {
      StatusesNoUpdates(steps[1..]);
    }
  }

  /** The graph calls for the first `n` chunks, one per chunk, with its text. */
  function GraphCalls(chunks: seq<Object>, meta: Object, n: nat): (calls: seq<Step>)
    requires n <= |chunks| && forall j :: 0 <= j < |chunks| ==> "text" in chunks[j]
    ensures |calls| == n && NoUpdates(calls)
    ensures forall j :: 0 <= j < n ==> calls[j] == GraphIngest(chunks[j]["text"], meta)
  {
    seq(n, j requires 0 <= j < n => GraphIngest(chunks[j]["text"], meta))
  }

  /** The graph-ingest loop only calls the graph builder: it never updates a status. */
  lemma {:induction false} GraphIngestNoUpdates(chunks: seq<Object>, meta: Object,
                                                build: (Value, Object) -> Outcome<Value>, n: nat)
    requires n <= |chunks|
    ensures NoUpdates(GraphIngestUpTo(chunks, meta, build, n).0)
    ensures |GraphIngestUpTo(chunks, meta, build, n).0| <= n
  {
    if n > 0 {
      GraphIngestNoUpdates(chunks, meta, build, n - 1);
    }
  }

  /** When every chunk has a text and the builder never raises, every chunk is ingested once, in order. */
  lemma {:induction false} GraphIngestAll(chunks: seq<Object>, meta: Object,
                                          build: (Value, Object) -> Outcome<Value>, n: nat)
    requires n <= |chunks|
    requires forall j :: 0 <= j < |chunks| ==> "text" in chunks[j] && build(chunks[j]["text"], meta).Returned?
    ensures GraphIngestUpTo(chunks, meta, build, n) == (GraphCalls(chunks, meta, n), None)
  {
    if n > 0 {
      GraphIngestAll(chunks, meta, build, n - 1);
      assert GraphCalls(chunks, meta, n) == GraphCalls(chunks, meta, n - 1) + [GraphIngest(chunks[n - 1]["text"], meta)];
    }
  }

  /** A document the batch can always finish: it has "filename" and "id", and so does every stored record's id. */
  predicate Ready(p: Progress, doc: Record) {
    (p.file.Some? ==> AllHaveIds(p.file.value)) && "filename" in doc && "id" in doc
  }

  /** An update on a store whose records all have ids returns, and they all keep one. */
  lemma {:induction false} UpdateStepReturns(p: Progress, id: Value, u: Object, stamp: nat -> string)
    requires p.file.Some? ==> AllHaveIds(p.file.value)
    ensures var (answer, q) := UpdateStep(p, id, u, stamp);
      answer.Returned? && (q.file.Some? ==> AllHaveIds(q.file.value)) &&
      q.steps == p.steps + [SetStatus(id, u)] &&
      Statuses(q.steps) == Statuses(p.steps) + [Get(u, "status", Null)]
  {
    UpdateKeepsIds(p.file, id, u, stamp(p.stamps));
    StatusesAppend(p.steps, [SetStatus(id, u)]);
  }

  /** Appending a call that is not a status update leaves the statuses as they were. */
  lemma {:induction false} StatusesCall(steps: seq<Step>, s: Step)
    requires !s.SetStatus?
    ensures Statuses(steps + [s]) == Statuses(steps)
  {
    StatusesAppend(steps, [s]);
  }

  /** From chunking on: the only status update is the final "processed", made exactly when nothing raised. */
  lemma {:induction false} TryChunksStatuses(p: Progress, doc: Record, fname: Value, text: Value, t: IngestTools, stamp: nat -> string)
    requires "id" in doc && (p.file.Some? ==> AllHaveIds(p.file.value))
    ensures var (q, exc) := TryChunks(p, doc, fname, text, t, stamp);
      (q.file.Some? ==> AllHaveIds(q.file.value)) &&
      Statuses(q.steps) == Statuses(p.steps) + (if exc.None? then [Str("processed")] else [])
  {
    var meta := ChunkMeta(doc, fname);
    var p4 := p.(steps := p.steps + [ChunkText(text, meta)]);
    StatusesCall(p.steps, ChunkText(text, meta));
    var chunked := t.chunk(text, meta);
    if chunked.Returned? {
      var chunks := chunked.value;
      var p5 := p4.(steps := p4.steps + [RagIngest(chunks)]);
      StatusesCall(p4.steps, RagIngest(chunks));
      if t.ragIngest(chunks).Returned? {
        var (graphSteps, exc) := GraphIngestUpTo(chunks, meta, t.graphIngest, |chunks|);
        GraphIngestNoUpdates(chunks, meta, t.graphIngest, |chunks|);
        StatusesNoUpdates(graphSteps);
        StatusesAppend(p5.steps, graphSteps);
        var p6 := p5.(steps := p5.steps + graphSteps);
        if exc.None? {
          UpdateStepReturns(p6, doc["id"], ProcessedUpdate(|chunks|), stamp);
        }
      }
    }
  }

  /** After the "processing" mark: the only status update is the final "processed", made exactly when nothing raised. */
  lemma {:induction false} TryFetchStatuses(p: Progress, doc: Record, fname: Value, t: IngestTools, stamp: nat -> string)
    requires "id" in doc && (p.file.Some? ==> AllHaveIds(p.file.value))
    ensures var (q, exc) := TryFetch(p, doc, fname, t, stamp);
      (q.file.Some? ==> AllHaveIds(q.file.value)) &&
      |q.steps| > |p.steps| && q.steps[..|p.steps|] == p.steps &&
      Statuses(q.steps) == Statuses(p.steps) + (if exc.None? then [Str("processed")] else [])
  {
    var path := t.download(fname);
    var p2 := p.(steps := p.steps + [Download(fname)]);
    StatusesCall(p.steps, Download(fname));
    if path.Returned? && Truthy(path.value) {
      var p3 := p2.(steps := p2.steps + [ReadText(path.value)]);
      StatusesCall(p2.steps, ReadText(path.value));
      var text := t.read(path.value);
      if text.Returned? && Truthy(text.value) {
        TryChunksStatuses(p3, doc, fname, text.value, t, stamp);
        TryChunksExtends(p3, doc, fname, text.value, t, stamp);
        assert p3.steps[..|p.steps|] == p.steps;
      }
    }
  }

  /**
   * The `try` block of a ready document first marks it "processing", and its only other status
   * update is the final "processed", made exactly when nothing raised.
   */
  lemma {:induction false} TryDocumentStatuses(p: Progress, doc: Record, t: IngestTools, stamp: nat -> string)
    requires Ready(p, doc)
    ensures var (q, exc) := TryDocument(p, doc, doc["filename"], t, stamp);
      (q.file.Some? ==> AllHaveIds(q.file.value)) &&
      |q.steps| > |p.steps| && q.steps[..|p.steps| + 1] == p.steps + [SetStatus(doc["id"], Processing)] &&
      Statuses(q.steps) == Statuses(p.steps) + [Str("processing")] + (if exc.None? then [Str("processed")] else [])
  {
    UpdateStepReturns(p, doc["id"], Processing, stamp);
    var p1 := UpdateStep(p, doc["id"], Processing, stamp).1;
    TryFetchStatuses(p1, doc, doc["filename"], t, stamp);
    var q := TryFetch(p1, doc, doc["filename"], t, stamp).0;
    assert q.steps[..|p.steps| + 1] == q.steps[..|p1.steps|];
  }

  /** The steps after chunking extend the steps before it. */
  lemma {:induction false} TryChunksExtends(p: Progress, doc: Record, fname: Value, text: Value, t: IngestTools, stamp: nat -> string)
    requires "id" in doc
    ensures var q := TryChunks(p, doc, fname, text, t, stamp).0;
      |q.steps| > |p.steps| && q.steps[..|p.steps|] == p.steps
  {
  }

  /**
   * A ready document never ends the batch. Its status goes from "processing" to "processed" when
   * every step succeeded, with the line "Processed <f>", and otherwise to "error", with the line
   * "Failed <f>"; the first call made for it marks it "processing".
   */
  lemma {:induction false} StatusMachine(p: Progress, doc: Record, t: IngestTools, stamp: nat -> string)
    requires Ready(p, doc)
    ensures var d := ProcessDocument(p, doc, t, stamp);
      var f := Text(doc["filename"], t.str);
      (d.progress.file.Some? ==> AllHaveIds(d.progress.file.value)) &&
      |d.progress.steps| > |p.steps| && d.progress.steps[..|p.steps| + 1] == p.steps + [SetStatus(doc["id"], Processing)] &&
      ((d.detail == Returned("Processed " + f) &&
        Statuses(d.progress.steps) == Statuses(p.steps) + [Str("processing"), Str("processed")]) ||
       (d.detail == Returned("Failed " + f) &&
        Statuses(d.progress.steps) == Statuses(p.steps) + [Str("processing"), Str("error")]))
  {
    TryDocumentStatuses(p, doc, t, stamp);
    var (q, exc) := TryDocument(p, doc, doc["filename"], t, stamp);
    if exc.Some? {
      UpdateStepReturns(q, doc["id"], ErrorUpdate(exc.value), stamp);
      var q2 := UpdateStep(q, doc["id"], ErrorUpdate(exc.value), stamp).1;
      assert q2.steps[..|p.steps| + 1] == q.steps[..|p.steps| + 1];
    }
  }

  /** `line` is the `details` line of a finished document: "Processed <f>" or "Failed <f>". */
  predicate ReportLine(line: string, doc: Record, str: Value -> string) {
    "filename" in doc &&
    (line == "Processed " + Text(doc["filename"], str) || line == "Failed " + Text(doc["filename"], str))
  }

  /** The loop body finishes a ready document with its line, and the stored records keep their ids. */
  predicate FinishesReady(doc: Record, d: DocOutcome, str: Value -> string) {
    d.detail.Returned? && ReportLine(d.detail.value, doc, str) &&
    (d.progress.file.Some? ==> AllHaveIds(d.progress.file.value))
  }

  /** A loop body that finishes every ready document adds one line per document, in order. */
  lemma {:induction false} BatchAllReady(p: Progress, pending: seq<Record>, process: (Progress, Record) -> DocOutcome,
                                         str: Value -> string, n: nat)
    requires n <= |pending|
    requires p.file.Some? ==> AllHaveIds(p.file.value)
    requires forall i :: 0 <= i < |pending| ==> "filename" in pending[i] && "id" in pending[i]
    requires forall q, doc :: Ready(q, doc) ==> FinishesReady(doc, process(q, doc), str)
    ensures var b := BatchUpTo(p, pending, process, n);
      b.crashed.None? && |b.details| == n && (b.progress.file.Some? ==> AllHaveIds(b.progress.file.value)) &&
      forall i :: 0 <= i < n ==> ReportLine(b.details[i], pending[i], str)
  {
    if n > 0 {
      BatchAllReady(p, pending, process, str, n - 1);
      var b := BatchUpTo(p, pending, process, n - 1);
      assert Ready(b.progress, pending[n - 1]);
      var c := BatchUpTo(p, pending, process, n);
      assert c.details == b.details + [process(b.progress, pending[n - 1]).detail.value];
      forall i | 0 <= i < n ensures ReportLine(c.details[i], pending[i], str) {
        if i < n - 1 {
          assert c.details[i] == b.details[i];
        }
      }
    }
  }

  /**
   * A failure of one document never stops the batch: when every stored record has an id and a
   * filename, the report says "Ingestion Complete" and has one "Processed <f>" or "Failed <f>" line
   * per pending document, in stored order.
   */
  lemma {:induction false} BatchCompletes(file: Option<seq<Record>>, t: IngestTools, stamp: nat -> string)
    requires file.Some? ==> AllHaveIds(file.value) && forall i :: 0 <= i < |file.value| ==> "filename" in file.value[i]
    ensures var pending := PendingDocs(if file.Some? then file.value else []);
      var report := Ingest(file, t, stamp).0;
      report.Returned? &&
      (pending != [] ==>
        report.value.Keys == {"status", "details"} && report.value["status"] == Str("Ingestion Complete") &&
        report.value["details"].List? && |report.value["details"].items| == |pending| &&
        forall i :: 0 <= i < |pending| ==>
          report.value["details"].items[i].Str? && ReportLine(report.value["details"].items[i].s, pending[i], t.str))
  {
    if file.Some? {
      var pending := PendingDocs(file.value);
      if pending != [] {
        PendingDocsNamed(file.value, pending);
        BodyFinishesReady(t, stamp);
        BatchAllReady(Progress(file, 0, []), pending, Body(t, stamp), t.str, |pending|);
      }
    }
  }

  lemma {:induction false} PendingDocsNamed(records: seq<Record>, pending: seq<Record>)
    requires AllHaveIds(records) && forall i :: 0 <= i < |records| ==> "filename" in records[i]
    requires pending == PendingDocs(records)
    ensures forall i :: 0 <= i < |pending| ==> "filename" in pending[i] && "id" in pending[i]
  {
    forall i | 0 <= i < |pending| ensures "filename" in pending[i] && "id" in pending[i] {
      assert pending[i] in records;
    }
  }

  lemma {:induction false} BodyFinishesReady(t: IngestTools, stamp: nat -> string)
    ensures forall q, doc :: Ready(q, doc) ==> FinishesReady(doc, Body(t, stamp)(q, doc), t.str)
  {
    forall q, doc | Ready(q, doc) ensures FinishesReady(doc, Body(t, stamp)(q, doc), t.str) {
      StatusMachine(q, doc, t, stamp);
    }
  }

  /** An empty download path marks the document "error" with "Download failed"; nothing is read or chunked. */
  lemma {:induction false} DownloadFailure(p: Progress, doc: Record, t: IngestTools, stamp: nat -> string)
    requires Ready(p, doc)
    requires t.download(doc["filename"]).Returned? && !Truthy(t.download(doc["filename"]).value)
    ensures var d := ProcessDocument(p, doc, t, stamp);
      d.detail == Returned("Failed " + Text(doc["filename"], t.str)) &&
      d.progress.steps == p.steps + [SetStatus(doc["id"], Processing), Download(doc["filename"]),
                                     SetStatus(doc["id"], ErrorUpdate("Download failed"))]
  {
    UpdateStepReturns(p, doc["id"], Processing, stamp);
    var (q, exc) := TryDocument(p, doc, doc["filename"], t, stamp);
    UpdateStepReturns(q, doc["id"], ErrorUpdate("Download failed"), stamp);
  }

  /** An empty text marks the document "error" with "Empty or unreadable text"; nothing is chunked. */
  lemma {:induction false} EmptyText(p: Progress, doc: Record, t: IngestTools, stamp: nat -> string)
    requires Ready(p, doc)
    requires t.download(doc["filename"]).Returned? && Truthy(t.download(doc["filename"]).value)
    requires t.read(t.download(doc["filename"]).value).Returned? &&
             !Truthy(t.read(t.download(doc["filename"]).value).value)
    ensures var d := ProcessDocument(p, doc, t, stamp);
      d.detail == Returned("Failed " + Text(doc["filename"], t.str)) &&
      d.progress.steps == p.steps + [SetStatus(doc["id"], Processing), Download(doc["filename"]),
                                     ReadText(t.download(doc["filename"]).value),
                                     SetStatus(doc["id"], ErrorUpdate("Empty or unreadable text"))]
  {
    UpdateStepReturns(p, doc["id"], Processing, stamp);
    var (q, exc) := TryDocument(p, doc, doc["filename"], t, stamp);
    UpdateStepReturns(q, doc["id"], ErrorUpdate("Empty or unreadable text"), stamp);
  }

  /**
   * From chunking on, when the chunker, the vector ingest and every graph build return: the calls
   * are one chunking, one vector ingest, one graph build per chunk in order, and the "processed"
   * update with the chunk count, and nothing raises.
   */
  lemma {:induction false} TryChunksSucceeds(p: Progress, doc: Record, fname: Value, text: Value, t: IngestTools, stamp: nat -> string)
    requires "id" in doc && (p.file.Some? ==> AllHaveIds(p.file.value))
    requires var meta := ChunkMeta(doc, fname);
      t.chunk(text, meta).Returned? &&
      var chunks := t.chunk(text, meta).value;
      t.ragIngest(chunks).Returned? &&
      forall j :: 0 <= j < |chunks| ==> "text" in chunks[j] && t.graphIngest(chunks[j]["text"], meta).Returned?
    ensures var meta := ChunkMeta(doc, fname);
      var chunks := t.chunk(text, meta).value;
      var (q, exc) := TryChunks(p, doc, fname, text, t, stamp);
      exc.None? &&
      q.steps == p.steps + [ChunkText(text, meta), RagIngest(chunks)] + GraphCalls(chunks, meta, |chunks|) +
        [SetStatus(doc["id"], ProcessedUpdate(|chunks|))]
  {
    var meta := ChunkMeta(doc, fname);
    var chunks := t.chunk(text, meta).value;
    GraphIngestAll(chunks, meta, t.graphIngest, |chunks|);
    var p4 := p.(steps := p.steps + [ChunkText(text, meta)]);
    var p5 := p4.(steps := p4.steps + [RagIngest(chunks)]);
    var p6 := p5.(steps := p5.steps + GraphCalls(chunks, meta, |chunks|));
    assert TryChunks(p, doc, fname, text, t, stamp) ==
      (UpdateStep(p6, doc["id"], ProcessedUpdate(|chunks|), stamp).1, None);
    UpdateStepReturns(p6, doc["id"], ProcessedUpdate(|chunks|), stamp);
  }

  /**
   * A ready document whose every step succeeds is reported "Processed <f>", after the calls in the
   * order the pipeline makes them: mark "processing", download, read, chunk, vector ingest, one graph
   * build per chunk, mark "processed" with the chunk count.
   */
  lemma {:induction false} Success(p: Progress, doc: Record, t: IngestTools, stamp: nat -> string)
    requires Ready(p, doc)
    requires var path := t.download(doc["filename"]);
      path.Returned? && Truthy(path.value) &&
      t.read(path.value).Returned? && Truthy(t.read(path.value).value) &&
      t.chunk(t.read(path.value).value, ChunkMeta(doc, doc["filename"])).Returned? &&
      var chunks := t.chunk(t.read(path.value).value, ChunkMeta(doc, doc["filename"])).value;
      t.ragIngest(chunks).Returned? &&
      forall j :: 0 <= j < |chunks| ==>
        "text" in chunks[j] && t.graphIngest(chunks[j]["text"], ChunkMeta(doc, doc["filename"])).Returned?
    ensures var f := doc["filename"];
      var path := t.download(f).value;
      var text := t.read(path).value;
      var meta := ChunkMeta(doc, f);
      var chunks := t.chunk(text, meta).value;
      var d := ProcessDocument(p, doc, t, stamp);
      d.detail == Returned("Processed " + Text(f, t.str)) &&
      d.progress.steps ==
        p.steps + [SetStatus(doc["id"], Processing), Download(f), ReadText(path), ChunkText(text, meta), RagIngest(chunks)] +
        GraphCalls(chunks, meta, |chunks|) + [SetStatus(doc["id"], ProcessedUpdate(|chunks|))]
  {
    var f := doc["filename"];
    var path := t.download(f).value;
    var text := t.read(path).value;
    UpdateStepReturns(p, doc["id"], Processing, stamp);
    var p1 := UpdateStep(p, doc["id"], Processing, stamp).1;
    var p2 := p1.(steps := p1.steps + [Download(f)]);
    var p3 := p2.(steps := p2.steps + [ReadText(path)]);
    assert TryDocument(p, doc, f, t, stamp) == TryFetch(p1, doc, f, t, stamp);
    assert TryFetch(p1, doc, f, t, stamp) == TryChunks(p3, doc, f, text, t, stamp);
    TryChunksSucceeds(p3, doc, f, text, t, stamp);
  }

  /** Two outcomes that agree on whether, and with what text, the call raised. */
  predicate SameFailure(a: Outcome<Value>, b: Outcome<Value>) {
    a.Returned? == b.Returned? && (a.Raised? ==> b.Raised? && a.message == b.message)
  }

  /** Tools that differ at most in what `rag_ingest_chunks` and `graph_ingest_chunk` return. */
  ghost predicate AgreeOnFailures(t: IngestTools, u: IngestTools) {
    u.download == t.download && u.read == t.read && u.chunk == t.chunk && u.str == t.str &&
    (forall cs :: SameFailure(t.ragIngest(cs), u.ragIngest(cs))) &&
    (forall x, m :: SameFailure(t.graphIngest(x, m), u.graphIngest(x, m)))
  }

  /** The graph-ingest loop depends only on whether the builder raised, not on what it returned. */
  lemma {:induction false} GraphResultIgnored(chunks: seq<Object>, meta: Object,
                                              build: (Value, Object) -> Outcome<Value>,
                                              other: (Value, Object) -> Outcome<Value>, n: nat)
    requires n <= |chunks|
    requires forall x, m :: SameFailure(build(x, m), other(x, m))
    ensures GraphIngestUpTo(chunks, meta, other, n) == GraphIngestUpTo(chunks, meta, build, n)
  {
    if n > 0 {
      GraphResultIgnored(chunks, meta, build, other, n - 1);
    }
  }

  lemma {:induction false} TryChunksIgnoresResults(p: Progress, doc: Record, fname: Value, text: Value, t: IngestTools, u: IngestTools,
                                stamp: nat -> string)
    requires "id" in doc && AgreeOnFailures(t, u)
    ensures TryChunks(p, doc, fname, text, u, stamp) == TryChunks(p, doc, fname, text, t, stamp)
  {
    var meta := ChunkMeta(doc, fname);
    if t.chunk(text, meta).Returned? {
      var chunks := t.chunk(text, meta).value;
      assert SameFailure(t.ragIngest(chunks), u.ragIngest(chunks));
      GraphResultIgnored(chunks, meta, t.graphIngest, u.graphIngest, |chunks|);
    }
  }

  /**
   * The results of `rag_ingest_chunks` and `graph_ingest_chunk` are ignored: tools that return
   * something else (a `False`, say) but raise alike give the same calls, updates and line.
   */
  lemma {:induction false} IngestResultsIgnored(p: Progress, doc: Record, t: IngestTools, u: IngestTools, stamp: nat -> string)
    requires AgreeOnFailures(t, u)
    ensures ProcessDocument(p, doc, u, stamp) == ProcessDocument(p, doc, t, stamp)
  {
    if "filename" in doc && "id" in doc {
      var fname := doc["filename"];
      var p1 := UpdateStep(p, doc["id"], Processing, stamp).1;
      var path := t.download(fname);
      if path.Returned? && Truthy(path.value) {
        var text := t.read(path.value);
        if text.Returned? && Truthy(text.value) {
          var p3 := p1.(steps := p1.steps + [Download(fname), ReadText(path.value)]);
          assert p3 == p1.(steps := p1.steps + [Download(fname)]).(steps := p1.steps + [Download(fname)] + [ReadText(path.value)]);
          TryChunksIgnoresResults(p3, doc, fname, text.value, t, u, stamp);
        }
      }
    }
  }
}
