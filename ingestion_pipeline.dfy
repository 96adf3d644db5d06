/**
 * The Chonkie-GraphRAG ingestion run: every new PDF is downloaded and loaded, each page is cleaned
 * and chunked, each chunk's extraction prompt goes to the model once, and a non-empty answer is
 * handed to the graph builder; a file is marked processed after all its pages, and the builder is
 * closed once at the end.
 */
module IngestionRun {
  import opened Wrappers
  import opened JsonValue
  import opened LlmJson
  import opened ChunkLibrary
  import opened DocumentChunker
  import opened PdfLoader
  import TextCleaner
  import ChonkieChunker
  import AnalyzerAgent

  /** `parse_json_from_llm(response)`: the parsed span from the first `{` to the last `}`, or None. */
  function ParseJsonFromLlm(response: string, parse: string -> Option<Value>): Option<Value> {
    match BraceSpan(response)
    case None => None
    case Some(candidate) => parse(candidate)
  }

  /** An observable step of the run. */
  datatype Event =
    | Generated(prompt: string)
    | Built(cypher: string)
    | Marked(file: string)
    | Closed

  /** The steps taken, and the exception that ended the run early, if any. */
  datatype Trace = Trace(events: seq<Event>, error: Option<string>)

  /** Running `t` and then, unless `t` raised, `u`. */
  function Then(t: Trace, u: Trace): Trace {
    if t.error.Some? then t else Trace(t.events + u.events, u.error)
  }

  /** Running `ts[..n]` one after the other, stopping at the first that raises. */
  function Sequenced(ts: seq<Trace>, n: nat): Trace
    requires n <= |ts|
  {
    if n == 0 then Trace([], None) else Then(Sequenced(ts, n - 1), ts[n - 1])
  }

  /**
   * The collaborators: the object download and the PDF page loader, the semantic chunker, the
   * extraction-prompt template (`models/prompts.py`), the model, and the graph builder.
   */
  datatype Services = Services(
    download: (string, string) -> Outcome<bool>,
    load: string -> Outcome<seq<Document>>,
    chonk: string -> seq<LibChunk>,
    prompt: Value -> string,
    generate: string -> Outcome<string>,
    build: string -> Outcome<()>)

  /**
   * One chunk: its prompt goes to the model, and a non-empty answer is built into the graph. The
   * model call raises when the model is not loaded, and nothing catches it.
   */
  function ChunkTrace(chunk: Object, sv: Services): Trace {
    if "text" !in chunk then Trace([], Some(KeyErrorMessage("text")))
    else
      var p := sv.prompt(chunk["text"]);
      match sv.generate(p)
      case Raised(m) => Trace([Generated(p)], Some(m))
      case Returned(response) =>
        if response == "" then Trace([Generated(p)], None)
        else match sv.build(response)
          case Returned(_) => Trace([Generated(p), Built(response)], None)
          case Raised(m) => Trace([Generated(p), Built(response)], Some(m))
  }

  /** A model call that raises ends the chunk, and with it the run, before anything is built. */
  lemma {:induction false} ModelFailureStopsChunk(chunk: Object, sv: Services)
    requires "text" in chunk && sv.generate(sv.prompt(chunk["text"])).Raised?
    ensures var p := sv.prompt(chunk["text"]);
      ChunkTrace(chunk, sv) == Trace([Generated(p)], Some(sv.generate(p).message))
  {
  }

  function ChunkTraces(chunks: seq<Object>, sv: Services): (ts: seq<Trace>)
    ensures |ts| == |chunks|
  {
    seq(|chunks|, i requires 0 <= i < |chunks| => ChunkTrace(chunks[i], sv))
  }

  /** `str(e)` of the `TypeError` `re.sub` raises on a page whose content is not a string. */
  function NotStringMessage(v: Value): string {
    "expected string or bytes-like object, got '" + TypeName(v) + "'"
  }

  /** A page's chunks: its cleaned text chunked, each chunk carrying a copy of the page's metadata. */
  function PageChunks(doc: Document, sv: Services): Outcome<seq<Object>> {
    if !doc.pageContent.Str? then Raised(NotStringMessage(doc.pageContent))
    else Returned(ChonkieChunker.Wrapped(sv.chonk(TextCleaner.CleanText(doc.pageContent.s)), doc.metadata))
  }

  function PageTrace(doc: Document, sv: Services): Trace {
    match PageChunks(doc, sv)
    case Raised(m) => Trace([], Some(m))
    case Returned(chunks) => Sequenced(ChunkTraces(chunks, sv), |chunks|)
  }

  /** One page's run, as a function value that the page loop's traces are indexed through. */
  function PageRunner(sv: Services): Document -> Trace {
    doc => PageTrace(doc, sv)
  }

  function PageTraces(docs: seq<Document>, sv: Services): (ts: seq<Trace>)
    ensures |ts| == |docs|
  {
    seq(|docs|, i requires 0 <= i < |docs| => PageRunner(sv)(docs[i]))
  }

  /** The trace of page `i` of a file is that page's run. */
  lemma {:induction false} PageTraceAt(docs: seq<Document>, i: nat, sv: Services)
    requires i < |docs|
    ensures PageTraces(docs, sv)[i] == PageTrace(docs[i], sv)
  {
    assert PageTraces(docs, sv)[i] == PageRunner(sv)(docs[i]);
  }

  /** One file: skipped when nothing loads; otherwise all its pages, then the processed mark. */
  function FileTrace(name: string, sv: Services): Trace {
    match Loaded(name, sv.download, sv.load)
    case Raised(m) => Trace([], Some(m))
    case Returned(docs) =>
      if docs.None? || docs.value == [] then Trace([], None)
      else Then(Sequenced(PageTraces(docs.value, sv), |docs.value|), Trace([Marked(name)], None))
  }

  function FileTraces(files: seq<string>, sv: Services): (ts: seq<Trace>)
    ensures |ts| == |files|
  {
    seq(|files|, i requires 0 <= i < |files| => FileTrace(files[i], sv))
  }

  /** `run()` over the new files: nothing at all when there are none; otherwise every file, then the close. */
  function RunTrace(files: seq<string>, sv: Services): Trace {
    if files == [] then Trace([], None)
    else Then(Sequenced(FileTraces(files, sv), |files|), Trace([Closed], None))
  }

  /** The processed map after the marks among `events`. */
  function MarkAll(processed: map<string, Value>, events: seq<Event>): map<string, Value> {
    if events == [] then processed
    else
      var before := MarkAll(processed, events[..|events| - 1]);
      var last := events[|events| - 1];
      if last.Marked? then before[last.file := Bool(true)] else before
  }

  /** Some step among `events` marks a file processed, so the processed-files store was rewritten. */
  predicate HasMark(events: seq<Event>) {
    exists k :: 0 <= k < |events| && events[k].Marked?
  }

  lemma {:induction false} HasMarkAppend(a: seq<Event>, b: seq<Event>)
    ensures HasMark(a + b) <==> HasMark(a) || HasMark(b)
  {
    if HasMark(a + b) {
      var k :| 0 <= k < |a + b| && (a + b)[k].Marked?;
      if k < |a| {
        assert a[k] == (a + b)[k];
      } else {
        assert b[k - |a|] == (a + b)[k];
      }
    }
    if HasMark(a) {
      var k :| 0 <= k < |a| && a[k].Marked?;
      assert (a + b)[k] == a[k];
    }
    if HasMark(b) {
      var k :| 0 <= k < |b| && b[k].Marked?;
      assert (a + b)[|a| + k] == b[k];
    }
  }

  // ----- the loops -----

  lemma {:induction false} SequencedStops(ts: seq<Trace>, i: nat, n: nat)
    requires i <= n <= |ts| && Sequenced(ts, i).error.Some?
    ensures Sequenced(ts, n) == Sequenced(ts, i)
    decreases n - i
  {
    if i < n {
      SequencedStops(ts, i, n - 1);
    }
  }

  /** One more step of a run that has not raised. */
  lemma {:induction false} SequencedStep(ts: seq<Trace>, i: nat, events: seq<Event>)
    requires i < |ts| && Sequenced(ts, i) == Trace(events, None)
    ensures ts[i].error.Some? ==> Sequenced(ts, |ts|) == Trace(events + ts[i].events, ts[i].error)
    ensures ts[i].error.None? ==> Sequenced(ts, i + 1) == Trace(events + ts[i].events, None)
  {
    if ts[i].error.Some? {
      SequencedStops(ts, i + 1, |ts|);
    }
  }

  lemma {:induction false} MarkAllAppend(processed: map<string, Value>, a: seq<Event>, b: seq<Event>)
    ensures MarkAll(processed, a + b) == MarkAll(MarkAll(processed, a), b)
    decreases |b|
  {
    if b == [] {
      assert a + b == a;
    } else {
      var b' := b[..|b| - 1];
      assert (a + b)[..|a + b| - 1] == a + b';
      MarkAllAppend(processed, a, b');
    }
  }

  /** Steps that mark no file but `name` leave `name` marked exactly when one of them marks it, and every other name alone. */
  lemma {:induction false} MarkOnly(processed: map<string, Value>, events: seq<Event>, name: string)
    requires forall e :: e in events && e.Marked? ==> e == Marked(name)
    ensures MarkAll(processed, events) == if Marked(name) in events then processed[name := Bool(true)] else processed
    decreases |events|
  {
    if events != [] {
      var init := events[..|events| - 1];
      assert events == init + [events[|events| - 1]];
      assert forall e :: e in init ==> e in events;
      MarkOnly(processed, init, name);
    }
  }

  /** The chunk loop of one page. */
  method RunChunks(chunks: seq<Object>, sv: Services) returns (t: Trace)
    ensures t == Sequenced(ChunkTraces(chunks, sv), |chunks|)
  {
    ghost var ts := ChunkTraces(chunks, sv);
    var events: seq<Event> := [];
    for i := 0 to |chunks|
      invariant Sequenced(ts, i) == Trace(events, None)
    {
      var chunk := chunks[i];
      if "text" !in chunk {
        SequencedStops(ts, i + 1, |chunks|);
        return Trace(events, Some(KeyErrorMessage("text")));
      }
      var p := sv.prompt(chunk["text"]);
      var answer := sv.generate(p);
      events := events + [Generated(p)];
      if answer.Raised? {
        SequencedStops(ts, i + 1, |chunks|);
        return Trace(events, Some(answer.message));
      }
      var response := answer.value;
      if response != "" {
        events := events + [Built(response)];
        var built := sv.build(response);
        if built.Raised? {
          SequencedStops(ts, i + 1, |chunks|);
          return Trace(events, Some(built.message));
        }
      }
    }
    t := Trace(events, None);
  }

  /** One page: cleaned, chunked with its metadata, then the chunk loop. */
  method RunPage(doc: Document, sv: Services) returns (t: Trace)
    ensures t == PageTrace(doc, sv)
  {
    if !doc.pageContent.Str? {
      return Trace([], Some(NotStringMessage(doc.pageContent)));
    }
    var cleaned := TextCleaner.CleanText(doc.pageContent.s);
    var chunks := ChonkieChunker.ChunkText(sv.chonk(cleaned), doc.metadata);
    t := RunChunks(chunks, sv);
  }

  /** The page loop of one file. */
  method RunPages(docs: seq<Document>, sv: Services) returns (t: Trace)
    ensures t == Sequenced(PageTraces(docs, sv), |docs|)
  {
    ghost var ts := PageTraces(docs, sv);
    var events: seq<Event> := [];
    for i := 0 to |docs|
      invariant Sequenced(ts, i) == Trace(events, None)
    {
      SequencedStep(ts, i, events);
      var page := RunPage(docs[i], sv);
      PageTraceAt(docs, i, sv);
      if page.error.Some? {
        return Trace(events + page.events, page.error);
      }
      events := events + page.events;
    }
    t := Trace(events, None);
  }

  /** One file of the run: its pages, then the processed mark. */
  method RunFile(loader: IngestionPipeline, name: string, sv: Services) returns (t: Trace)
    modifies loader
    ensures t == FileTrace(name, sv)
    ensures loader.processed == if Marked(name) in t.events then old(loader.processed)[name := Bool(true)] else old(loader.processed)
    ensures Marked(name) in t.events ==> loader.stored == Some(loader.processed)
    ensures Marked(name) !in t.events ==> loader.stored == old(loader.stored)
    ensures loader.tempFiles <= old(loader.tempFiles)
  {
    var loaded := loader.DownloadAndLoad(name, sv.download, sv.load);
    if loaded.Raised? {
      return Trace([], Some(loaded.message));
    }
    if loaded.value.None? || loaded.value.value == [] {
      return Trace([], None);
    }
    var docs := loaded.value.value;
    var pages := RunPages(docs, sv);
    FileMarkedLast(name, sv);
    if pages.error.Some? {
      assert FileTrace(name, sv) == pages;
      return pages;
    }
    loader.MarkAsProcessed(name);
    t := Trace(pages.events + [Marked(name)], None);
  }

  /** Steps that mark nothing leave the processed map as it was. */
  lemma {:induction false} UnmarkedKeepsMap(processed: map<string, Value>, events: seq<Event>)
    requires !HasMark(events)
    ensures MarkAll(processed, events) == processed
    decreases |events|
  {
    if events != [] {
      var init := events[..|events| - 1];
      assert !events[|events| - 1].Marked?;
      forall k | 0 <= k < |init| ensures !init[k].Marked? {
        assert init[k] == events[k];
      }
      UnmarkedKeepsMap(processed, init);
    }
  }

  /** Where every mark is of `name`, some step marks a file exactly when one marks `name`. */
  lemma {:induction false} FileHasMark(events: seq<Event>, name: string)
    requires forall e :: e in events && e.Marked? ==> e == Marked(name)
    ensures HasMark(events) <==> Marked(name) in events
  {
    if HasMark(events) {
      var k :| 0 <= k < |events| && events[k].Marked?;
      assert events[k] in events;
    }
    if Marked(name) in events {
      var k :| 0 <= k < |events| && events[k] == Marked(name);
    }
  }

  /** Appending a file's steps, which mark at most that file, to a run's steps. */
  lemma {:induction false} FileMarks(processed: map<string, Value>, events: seq<Event>, file: seq<Event>, name: string)
    requires forall e :: e in file && e.Marked? ==> e == Marked(name)
    ensures MarkAll(processed, events + file) ==
      if Marked(name) in file then MarkAll(processed, events)[name := Bool(true)] else MarkAll(processed, events)
    ensures HasMark(events + file) <==> HasMark(events) || Marked(name) in file
  {
    MarkAllAppend(processed, events, file);
    MarkOnly(MarkAll(processed, events), file, name);
    HasMarkAppend(events, file);
    FileHasMark(file, name);
  }

  /** `run()`: the new files, each in turn, then the close; no new file means an early return. */
  method Run(loader: IngestionPipeline, listing: seq<string>, sv: Services) returns (t: Trace)
    modifies loader
    ensures t == RunTrace(NewFiles(listing, old(loader.processed)), sv)
    ensures loader.processed == MarkAll(old(loader.processed), t.events)
    ensures loader.stored == if HasMark(t.events) then Some(loader.processed) else old(loader.stored)
    ensures !HasMark(t.events) ==> loader.processed == old(loader.processed)
    ensures loader.tempFiles <= old(loader.tempFiles)
  {
    var files := loader.GetNewFiles(listing);
    if files == [] {
      return Trace([], None);
    }
    ghost var ts := FileTraces(files, sv);
    var events: seq<Event> := [];
    for i := 0 to |files|
      invariant Sequenced(ts, i) == Trace(events, None)
      invariant loader.processed == MarkAll(old(loader.processed), events)
      invariant loader.stored == if HasMark(events) then Some(loader.processed) else old(loader.stored)
      invariant loader.tempFiles <= old(loader.tempFiles)
    {
      SequencedStep(ts, i, events);
      var file := RunFile(loader, files[i], sv);
      assert file == ts[i];
      FileMarkedLast(files[i], sv);
      assert forall e :: e in file.events && e.Marked? ==> e == Marked(files[i]) by {
        forall k | 0 <= k < |file.events| && file.events[k].Marked? ensures file.events[k] == Marked(files[i]) {
          assert file.events[k] in file.events;
        }
      }
      FileMarks(old(loader.processed), events, file.events, files[i]);
      if file.error.Some? {
        if !HasMark(events + file.events) {
          UnmarkedKeepsMap(old(loader.processed), events + file.events);
        }
        return Trace(events + file.events, file.error);
      }
      events := events + file.events;
    }
    MarkAllAppend(old(loader.processed), events, [Closed]);
    HasMarkAppend(events, [Closed]);
    if !HasMark(events + [Closed]) {
      UnmarkedKeepsMap(old(loader.processed), events + [Closed]);
    }
    t := Trace(events + [Closed], None);
  }

  // ----- properties -----

  /** A page's steps are model calls and graph builds only. */
  lemma {:induction false} PageTraceUnmarked(doc: Document, sv: Services)
    ensures forall e :: e in PageTrace(doc, sv).events ==> e.Generated? || e.Built?
  {
    if PageChunks(doc, sv).Returned? {
      var chunks := PageChunks(doc, sv).value;
      SequencedModelSteps(ChunkTraces(chunks, sv), |chunks|);
    }
  }

  lemma {:induction false} SequencedModelSteps(ts: seq<Trace>, n: nat)
    requires n <= |ts|
    requires forall i :: 0 <= i < |ts| ==> forall e :: e in ts[i].events ==> e.Generated? || e.Built?
    ensures forall e :: e in Sequenced(ts, n).events ==> e.Generated? || e.Built?
  {
    if n > 0 {
      SequencedModelSteps(ts, n - 1);
    }
  }

  /** A file's pages take model-call and graph-build steps only. */
  lemma {:induction false} PagesUnmarked(docs: seq<Document>, sv: Services)
    ensures forall e :: e in Sequenced(PageTraces(docs, sv), |docs|).events ==> e.Generated? || e.Built?
  {
    var ts := PageTraces(docs, sv);
    forall i | 0 <= i < |ts| ensures forall e :: e in ts[i].events ==> e.Generated? || e.Built? {
      PageTraceUnmarked(docs[i], sv);
      PageTraceAt(docs, i, sv);
    }
    SequencedModelSteps(ts, |docs|);
  }

  lemma {:induction false} SequencedNoClose(ts: seq<Trace>, n: nat)
    requires n <= |ts|
    requires forall i :: 0 <= i < |ts| ==> Closed !in ts[i].events
    ensures Closed !in Sequenced(ts, n).events
  {
    if n > 0 {
      SequencedNoClose(ts, n - 1);
    }
  }

  /**
   * A file is marked processed only as its last step, after every page, and only when nothing
   * raised; a file that raised is not marked; a file's steps never include the close.
   */
  lemma {:induction false} FileMarkedLast(name: string, sv: Services)
    ensures var t := FileTrace(name, sv);
      t.error.None? && t.events != [] ==>
        t.events[|t.events| - 1] == Marked(name) &&
        forall k :: 0 <= k < |t.events| - 1 ==> t.events[k].Generated? || t.events[k].Built?
    ensures var t := FileTrace(name, sv);
      t.error.Some? ==> forall e :: e in t.events ==> e.Generated? || e.Built?
    ensures var loaded := Loaded(name, sv.download, sv.load);
      loaded.Returned? && loaded.value.Some? && loaded.value.value != [] && FileTrace(name, sv).error.None? ==>
        FileTrace(name, sv).events != []
    ensures Closed !in FileTrace(name, sv).events
  {
    var loaded := Loaded(name, sv.download, sv.load);
    if loaded.Returned? && loaded.value.Some? && loaded.value.value != [] {
      var docs := loaded.value.value;
      PagesUnmarked(docs, sv);
      var pages := Sequenced(PageTraces(docs, sv), |docs|);
      if pages.error.None? {
        var events := pages.events + [Marked(name)];
        assert FileTrace(name, sv).events == events;
        assert forall k :: 0 <= k < |events| - 1 ==> events[k] == pages.events[k] && events[k] in pages.events;
        assert Closed !in pages.events;
      } else {
        assert FileTrace(name, sv) == pages;
      }
    }
  }

  /** A file that could not be loaded into any page is neither processed nor marked, and nothing raises. */
  lemma {:induction false} SkippedFileUnmarked(name: string, sv: Services)
    requires Loaded(name, sv.download, sv.load) in {Returned(None), Returned(Some([]))}
    ensures FileTrace(name, sv) == Trace([], None)
  {
  }

  /**
   * The builder is closed exactly when there were new files and nothing raised, and then as the
   * very last step, once.
   */
  lemma {:induction false} ClosedOnceAtEnd(files: seq<string>, sv: Services)
    ensures var t := RunTrace(files, sv);
      Closed in t.events <==> files != [] && t.error.None?
    ensures var t := RunTrace(files, sv);
      Closed in t.events ==> t.events[|t.events| - 1] == Closed && Closed !in t.events[..|t.events| - 1]
  {
    if files != [] {
      var ts := FileTraces(files, sv);
      forall i | 0 <= i < |ts| ensures Closed !in ts[i].events {
        FileMarkedLast(files[i], sv);
      }
      SequencedNoClose(ts, |files|);
      var all := Sequenced(ts, |files|);
      if all.error.None? {
        assert (all.events + [Closed])[..|all.events|] == all.events;
      }
    }
  }

  /** The marks of a run: exactly the files with a processed mark among its steps now map to True. */
  lemma {:induction false} MarkAllSpec(processed: map<string, Value>, events: seq<Event>, f: string)
    ensures f in MarkAll(processed, events) <==> f in processed || Marked(f) in events
    ensures Marked(f) in events ==> MarkAll(processed, events)[f] == Bool(true)
    ensures Marked(f) !in events && f in processed ==> MarkAll(processed, events)[f] == processed[f]
    decreases |events|
  {
    if events != [] {
      var init := events[..|events| - 1];
      MarkAllSpec(processed, init, f);
      assert events == init + [events[|events| - 1]];
      assert Marked(f) in events <==> Marked(f) in init || events[|events| - 1] == Marked(f);
    }
  }

  // ----- model calls and builds -----

  /** Every build is of the answer the model gave to the prompt just before it, and that answer is non-empty. */
  predicate BuildsAnswered(events: seq<Event>, generate: string -> Outcome<string>) {
    forall k :: 0 <= k < |events| && events[k].Built? ==>
      0 < k && events[k - 1].Generated? && generate(events[k - 1].prompt) == Returned(events[k].cypher) && events[k].cypher != ""
  }

  lemma {:induction false} BuildsAnsweredAppend(a: seq<Event>, b: seq<Event>, generate: string -> Outcome<string>)
    requires BuildsAnswered(a, generate) && BuildsAnswered(b, generate)
    ensures BuildsAnswered(a + b, generate)
  {
    var ab := a + b;
    forall k | 0 <= k < |ab| && ab[k].Built?
      ensures 0 < k && ab[k - 1].Generated? && generate(ab[k - 1].prompt) == Returned(ab[k].cypher) && ab[k].cypher != ""
    {
      if k < |a| {
        assert ab[k] == a[k] && ab[k - 1] == a[k - 1];
      } else {
        assert ab[k] == b[k - |a|];
        assert ab[k - 1] == b[k - |a| - 1];
      }
    }
  }

  lemma {:induction false} SequencedBuildsAnswered(ts: seq<Trace>, n: nat, generate: string -> Outcome<string>)
    requires n <= |ts|
    requires forall i :: 0 <= i < |ts| ==> BuildsAnswered(ts[i].events, generate)
    ensures BuildsAnswered(Sequenced(ts, n).events, generate)
  {
    if n > 0 {
      SequencedBuildsAnswered(ts, n - 1, generate);
      if Sequenced(ts, n - 1).error.None? {
        BuildsAnsweredAppend(Sequenced(ts, n - 1).events, ts[n - 1].events, generate);
      }
    }
  }

  lemma {:induction false} ChunksBuildsAnswered(chunks: seq<Object>, sv: Services)
    ensures BuildsAnswered(Sequenced(ChunkTraces(chunks, sv), |chunks|).events, sv.generate)
  {
    SequencedBuildsAnswered(ChunkTraces(chunks, sv), |chunks|, sv.generate);
  }

  lemma {:induction false} PageBuildsAnswered(doc: Document, sv: Services)
    ensures BuildsAnswered(PageTrace(doc, sv).events, sv.generate)
  {
    if PageChunks(doc, sv).Returned? {
      ChunksBuildsAnswered(PageChunks(doc, sv).value, sv);
    }
  }

  lemma {:induction false} PagesBuildsAnswered(docs: seq<Document>, sv: Services)
    ensures BuildsAnswered(Sequenced(PageTraces(docs, sv), |docs|).events, sv.generate)
  {
    var ts := PageTraces(docs, sv);
    forall i | 0 <= i < |ts| ensures BuildsAnswered(ts[i].events, sv.generate) {
      PageBuildsAnswered(docs[i], sv);
      PageTraceAt(docs, i, sv);
    }
    SequencedBuildsAnswered(ts, |docs|, sv.generate);
  }

  lemma {:induction false} FileBuildsAnswered(name: string, sv: Services)
    ensures BuildsAnswered(FileTrace(name, sv).events, sv.generate)
  {
    var loaded := Loaded(name, sv.download, sv.load);
    if loaded.Returned? && loaded.value.Some? && loaded.value.value != [] {
      var docs := loaded.value.value;
      PagesBuildsAnswered(docs, sv);
      BuildsAnsweredAppend(Sequenced(PageTraces(docs, sv), |docs|).events, [Marked(name)], sv.generate);
    }
  }

  /**
   * Over the whole run, the graph is built only from a non-empty model answer, each time right
   * after the model call that produced it.
   */
  lemma {:induction false} RunBuildsAnswered(files: seq<string>, sv: Services)
    ensures BuildsAnswered(RunTrace(files, sv).events, sv.generate)
  {
    if files != [] {
      var ts := FileTraces(files, sv);
      forall i | 0 <= i < |ts| ensures BuildsAnswered(ts[i].events, sv.generate) {
        FileBuildsAnswered(files[i], sv);
      }
      SequencedBuildsAnswered(ts, |files|, sv.generate);
      BuildsAnsweredAppend(Sequenced(ts, |files|).events, [Closed], sv.generate);
    }
  }

  /** How many model calls `events` holds. */
  function ModelCalls(events: seq<Event>): nat {
    if events == [] then 0
    else ModelCalls(events[..|events| - 1]) + (if events[|events| - 1].Generated? then 1 else 0)
  }

  lemma {:induction false} ModelCallsAppend(a: seq<Event>, b: seq<Event>)
    ensures ModelCalls(a + b) == ModelCalls(a) + ModelCalls(b)
    decreases |b|
  {
    if b == [] {
      assert a + b == a;
    } else {
      var b' := b[..|b| - 1];
      assert (a + b)[..|a + b| - 1] == a + b';
      ModelCallsAppend(a, b');
    }
  }

  /** When a page's chunk loop completes, the model was called exactly once per chunk. */
  lemma {:induction false} OneModelCallPerChunk(chunks: seq<Object>, n: nat, sv: Services)
    requires n <= |chunks|
    requires Sequenced(ChunkTraces(chunks, sv), n).error.None?
    ensures ModelCalls(Sequenced(ChunkTraces(chunks, sv), n).events) == n
  {
    if n > 0 {
      var ts := ChunkTraces(chunks, sv);
      var before := Sequenced(ts, n - 1);
      assert before.error.None?;
      OneModelCallPerChunk(chunks, n - 1, sv);
      var step := ts[n - 1].events;
      var g := Generated(sv.prompt(chunks[n - 1]["text"]));
      assert ModelCalls([g]) == 1 by {
        assert [g][..0] == [];
      }
      if |step| == 2 {
        assert step[..1] == [g];
      }
      ModelCallsAppend(before.events, step);
    }
  }

  // ----- the JSON helper -----

  /** `analyze_query` reads the answer as `parse_json_from_llm` does, with its fixed fallback for None. */
  lemma {:induction false} AnalyzerAgreesWithParse(response: string, parse: string -> Option<Value>)
    ensures AnalyzerAgent.AnalyzeResponse(response, parse) ==
      ParseJsonFromLlm(response, parse).GetOr(Dict(AnalyzerAgent.FallbackAnalysis))
  {
  }

  /** Without a `{` before a `}` there is nothing to parse and the result is None. */
  lemma {:induction false} ParseJsonNeedsBraces(response: string, parse: string -> Option<Value>)
    requires forall i, j :: 0 <= i < j < |response| ==> !(response[i] == '{' && response[j] == '}')
    ensures ParseJsonFromLlm(response, parse) == None
  {
    BraceSpanSpec(response);
  }
}
