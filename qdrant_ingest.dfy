/**
 * Ingesting the chunks stored in Qdrant into Neo4j: the collection is scrolled page by page, and
 * every point with a text is handed to the graph builder, counting the points tried and those the
 * builder reports as ingested.
 */
module QdrantIngest {
  import opened Wrappers
  import opened JsonValue

  /** A scrolled point: a record whose `payload` is an attribute, or a plain dict. */
  datatype Point = RecordPoint(payload: Value) | DictPoint(fields: Object)

  /** The page size `ingest_all` scrolls with (the default of `_iterate_points`). */
  const BatchSize: nat := 100

  /** `str(e)` when `.get` is called on a record, which has no such method. */
  const RecordNoGetMessage: string := "'Record' object has no attribute 'get'"

  /** `p.get(...)` on a point. */
  function PointGet(p: Point, key: string, default: Value): Outcome<Value> {
    match p
    case RecordPoint(_) => Raised(RecordNoGetMessage)
    case DictPoint(fields) => Returned(Get(fields, key, default))
  }

  /** `getattr(p, 'payload', None) or p.get('payload', {})`. */
  function PayloadOf(p: Point): Outcome<Value> {
    match p
    case RecordPoint(payload) => if Truthy(payload) then Returned(payload) else PointGet(p, "payload", Dict(map[]))
    case DictPoint(fields) => PointGet(p, "payload", Dict(map[]))
  }

  /**
   * The text and the metadata read from a point's payload: `original_text` when truthy, otherwise
   * `text`; a payload that is not a dict raises.
   */
  function Read(p: Point): Outcome<(Value, Value)> {
    match PayloadOf(p)
    case Raised(m) => Raised(m)
    case Returned(payload) =>
      if !payload.Dict? then Raised(NoGetMessage(payload))
      else
        var original := Get(payload.fields, "original_text", Null);
        var text := if Truthy(original) then original else Get(payload.fields, "text", Null);
        Returned((text, Get(payload.fields, "metadata", Dict(map[]))))
  }

  /** The counters of `ingest_all`, and the builder calls made so far (text and metadata). */
  datatype Tally = Tally(total: nat, ingested: nat, calls: seq<(Value, Value)>)

  /**
   * One point of `ingest_all`: a point without text is skipped; otherwise it is counted and built,
   * a truthy answer counting as ingested. A builder exception is logged with `p.get('id', '')` and
   * the loop goes on, unless that lookup itself raises.
   */
  function Step(t: Tally, p: Point, process: (Value, Value) -> Outcome<bool>): Outcome<Tally> {
    match Read(p)
    case Raised(m) => Raised(m)
    case Returned(read) =>
      var (text, metadata) := read;
      if !Truthy(text) then Returned(t)
      else
        var counted := Tally(t.total + 1, t.ingested, t.calls + [(text, metadata)]);
        match process(text, metadata)
        case Returned(ok) => Returned(if ok then counted.(ingested := t.ingested + 1) else counted)
        case Raised(_) =>
          match PointGet(p, "id", Str(""))
          case Raised(m) => Raised(m)
          case Returned(_) => Returned(counted)
  }

  /** `ingest_all` over the points `points[..n]`: the counters, or the exception that escapes. */
  function Tallied(points: seq<Point>, n: nat, process: (Value, Value) -> Outcome<bool>): Outcome<Tally>
    requires n <= |points|
  {
    if n == 0 then Returned(Tally(0, 0, []))
    else
      match Tallied(points, n - 1, process)
      case Raised(m) => Raised(m)
      case Returned(t) => Step(t, points[n - 1], process)
  }

  /** The points of the first `pages` pages, in order. */
  function PagePoints(scroll: nat -> seq<Point>, pages: nat): seq<Point> {
    if pages == 0 then [] else PagePoints(scroll, pages - 1) + scroll((pages - 1) * BatchSize)
  }

  /** The offsets of the first `pages` pages: 0, 100, 200, … */
  function Offsets(pages: nat): (offsets: seq<nat>)
    ensures |offsets| == pages
  {
    seq(pages, i requires 0 <= i < pages => i * BatchSize)
  }

  /** Every page before `pages` is non-empty. */
  predicate FullPages(scroll: nat -> seq<Point>, pages: nat) {
    forall i :: 0 <= i < pages ==> scroll(i * BatchSize) != []
  }

  /** What `ingest_all` returns: `{"total": …, "ingested": …}`. */
  function Report(t: Tally): Object {
    map["total" := Int(t.total), "ingested" := Int(t.ingested)]
  }

  // ----- the loops -----

  /** Once a point has raised, the later points change nothing. */
  lemma {:induction false} TalliedStops(points: seq<Point>, i: nat, n: nat, process: (Value, Value) -> Outcome<bool>)
    requires i <= n <= |points| && Tallied(points, i, process).Raised?
    ensures Tallied(points, n, process) == Tallied(points, i, process)
    decreases n - i
  {
    if i < n {
      TalliedStops(points, i, n - 1, process);
    }
  }

  /** Reading `points[..n]` and then `more` is reading `(points + more)[..n + |more|]`: the prefix is untouched. */
  lemma {:induction false} TalliedPrefix(points: seq<Point>, more: seq<Point>, n: nat, process: (Value, Value) -> Outcome<bool>)
    requires n <= |points|
    ensures Tallied(points + more, n, process) == Tallied(points, n, process)
  {
    if n > 0 {
      TalliedPrefix(points, more, n - 1, process);
      assert (points + more)[n - 1] == points[n - 1];
    }
  }

  /** Requesting one more page: its offset comes next, its points are appended, and a non-empty page is full. */
  lemma {:induction false} PageStep(scroll: nat -> seq<Point>, page: nat)
    requires FullPages(scroll, page)
    ensures Offsets(page) + [page * BatchSize] == Offsets(page + 1)
    ensures (page + 1) * BatchSize == page * BatchSize + BatchSize
    ensures PagePoints(scroll, page + 1) == PagePoints(scroll, page) + scroll(page * BatchSize)
    ensures scroll(page * BatchSize) != [] ==> FullPages(scroll, page + 1)
  {
    assert Offsets(page) + [page * BatchSize] == Offsets(page + 1);
  }

  /** The inner loop over one page: each point is read, counted and built, until one raises. */
  method IngestPage(done: seq<Point>, page: seq<Point>, t0: Tally, process: (Value, Value) -> Outcome<bool>)
    returns (r: Outcome<Tally>)
    requires Tallied(done, |done|, process) == Returned(t0)
    ensures r == Tallied(done + page, |done + page|, process)
  {
    var t := t0;
    var all := done + page;
    TalliedPrefix(done, page, |done|, process);
    for j := 0 to |page|
      invariant Tallied(all, |done| + j, process) == Returned(t)
    {
      var next := Step(t, page[j], process);
      assert all[|done| + j] == page[j];
      if next.Raised? {
        TalliedStops(all, |done| + j + 1, |all|, process);
        return next;
      }
      t := next.value;
    }
    r := Returned(t);
  }

  /**
   * `ingest_all` with `_iterate_points` inlined: pages are requested at offsets 0, 100, 200, … until
   * the first empty page, and every point of every page is ingested in order. `lastPage` is any page
   * index at which the collection is empty, which bounds the scroll.
   */
  method IngestAll(scroll: nat -> seq<Point>, process: (Value, Value) -> Outcome<bool>, ghost lastPage: nat)
    returns (r: Outcome<Object>, offsets: seq<nat>)
    requires scroll(lastPage * BatchSize) == []
    ensures offsets == Offsets(|offsets|) && 1 <= |offsets| <= lastPage + 1
    ensures r.Returned? ==>
      scroll(offsets[|offsets| - 1]) == [] && FullPages(scroll, |offsets| - 1) &&
      Tallied(PagePoints(scroll, |offsets| - 1), |PagePoints(scroll, |offsets| - 1)|, process).Returned? &&
      r.value == Report(Tallied(PagePoints(scroll, |offsets| - 1), |PagePoints(scroll, |offsets| - 1)|, process).value)
    ensures r.Raised? ==>
      FullPages(scroll, |offsets|) &&
      Tallied(PagePoints(scroll, |offsets|), |PagePoints(scroll, |offsets|)|, process) == Raised(r.message)
  {
    var offset: nat := 0;
    var page: nat := 0;
    var done: seq<Point> := [];
    var t := Tally(0, 0, []);
    offsets := [];
    while true
      invariant page <= lastPage && offset == page * BatchSize
      invariant offsets == Offsets(page) && done == PagePoints(scroll, page) && FullPages(scroll, page)
      invariant Tallied(done, |done|, process) == Returned(t)
      decreases lastPage - page
    {
      var points := scroll(offset);
      PageStep(scroll, page);
      offsets := offsets + [offset];
      if points == [] {
        return Returned(Report(t)), offsets;
      }
      var next := IngestPage(done, points, t, process);
      done := done + points;
      if next.Raised? {
        return Raised(next.message), offsets;
      }
      t := next.value;
      offset := offset + BatchSize;
      page := page + 1;
    }
  }

  // ----- properties -----

  /**
   * The counters: `total` is the number of builder calls, every call has a truthy text, and
   * `ingested` never exceeds `total`.
   */
  lemma {:induction false} TallyBounds(points: seq<Point>, n: nat, process: (Value, Value) -> Outcome<bool>)
    requires n <= |points| && Tallied(points, n, process).Returned?
    ensures Tallied(points, n, process).value.ingested <= Tallied(points, n, process).value.total
    ensures Tallied(points, n, process).value.total == |Tallied(points, n, process).value.calls|
    ensures forall c :: c in Tallied(points, n, process).value.calls ==> Truthy(c.0)
  {
    if n > 0 {
      TallyBounds(points, n - 1, process);
    }
  }

  /** The text handed to the builder is `original_text` when that is truthy, and `text` otherwise. */
  lemma {:induction false} TextPrefersOriginal(p: Point, payload: Object)
    requires PayloadOf(p) == Returned(Dict(payload))
    ensures Read(p).Returned?
    ensures Truthy(Get(payload, "original_text", Null)) ==> Read(p).value.0 == payload["original_text"]
    ensures !Truthy(Get(payload, "original_text", Null)) ==> Read(p).value.0 == Get(payload, "text", Null)
  {
  }

  /** A point without text is skipped: nothing is counted and the builder is not called. */
  lemma {:induction false} TextlessSkipped(t: Tally, p: Point, process: (Value, Value) -> Outcome<bool>)
    requires Read(p).Returned? && !Truthy(Read(p).value.0)
    ensures Step(t, p, process) == Returned(t)
  {
  }

  /** A builder exception on a dict point is logged and the point counts as tried, not ingested. */
  lemma {:induction false} DictBuildErrorContinues(t: Tally, fields: Object, process: (Value, Value) -> Outcome<bool>)
    requires Read(DictPoint(fields)).Returned? && Truthy(Read(DictPoint(fields)).value.0)
    requires process(Read(DictPoint(fields)).value.0, Read(DictPoint(fields)).value.1).Raised?
    ensures Step(t, DictPoint(fields), process) ==
      Returned(Tally(t.total + 1, t.ingested, t.calls + [Read(DictPoint(fields)).value]))
  {
  }

  /**
   * A builder exception on a record point escapes: the log line calls `.get` on the record, which
   * raises inside the `except` block and ends the whole ingest.
   */
  lemma {:induction false} RecordBuildErrorEscapes(t: Tally, payload: Value, process: (Value, Value) -> Outcome<bool>)
    requires Read(RecordPoint(payload)).Returned? && Truthy(Read(RecordPoint(payload)).value.0)
    requires process(Read(RecordPoint(payload)).value.0, Read(RecordPoint(payload)).value.1).Raised?
    ensures Step(t, RecordPoint(payload), process) == Raised(RecordNoGetMessage)
  {
  }

  /** The scroll stops at the first empty page: two page counts that both end at an empty page are equal. */
  lemma {:induction false} FirstEmptyPageUnique(scroll: nat -> seq<Point>, k: nat, l: nat)
    requires FullPages(scroll, k) && scroll(k * BatchSize) == []
    requires FullPages(scroll, l) && scroll(l * BatchSize) == []
    ensures k == l
  {
  }

  /**
   * A collection whose every request returns the same non-empty page, as the `get` fallback does
   * when `scroll` keeps raising, has no empty page at any offset: no `lastPage` exists and the
   * source's loop does not stop.
   */
  lemma {:induction false} PageIndependentScrollNeverEnds(scroll: nat -> seq<Point>, page: seq<Point>, k: nat)
    requires page != [] && forall offset :: scroll(offset) == page
    ensures FullPages(scroll, k) && scroll(k * BatchSize) != []
  {
  }
}
