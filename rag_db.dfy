/**
 * The RAG vector store: chunks become points (a fresh id, the text's embedding, and a payload of
 * the chunk metadata with its text), uploaded in consecutive batches that stop at the first
 * failure; a search returns each hit's text, score and payload.
 */
module RagDb {
  import opened Wrappers
  import opened JsonValue

  /** A point sent to Qdrant: its id, its vector and its payload. */
  datatype Point<V> = Point(id: string, vector: V, payload: Object)

  /** The default number of points per upsert. */
  const DefaultBatchSize: int := 50

  /** `str(e)` of the `TypeError` raised by `**v` on a value that is not a mapping. */
  function NotMappingMessage(v: Value): string {
    "'" + TypeName(v) + "' object is not a mapping"
  }

  /** `str(e)` of the `ValueError` raised by `range` with a zero step. */
  const ZeroStepMessage: string := "range() arg 3 must not be zero"

  /** `{"text": text, **meta}`: the metadata comes last, so its own "text" key wins. */
  function Payload(text: Value, meta: Object): Object {
    map["text" := text] + meta
  }

  /**
   * The point of chunk `i`: its "text" and "metadata" are looked up (a missing key raises), the
   * text is embedded, and the metadata must be a mapping.
   */
  function PointOf<V>(chunk: Object, i: nat, encode: Value -> Outcome<V>, newId: nat -> string): Outcome<Point<V>> {
    if "text" !in chunk then Raised(KeyErrorMessage("text"))
    else if "metadata" !in chunk then Raised(KeyErrorMessage("metadata"))
    else
      match encode(chunk["text"])
      case Raised(m) => Raised(m)
      case Returned(vector) =>
        var meta := chunk["metadata"];
        if !meta.Dict? then Raised(NotMappingMessage(meta))
        else Returned(Point(newId(i), vector, Payload(chunk["text"], meta.fields)))
  }

  /** The points of `chunks[..n]`, in order, or the first exception; `newId(i)` is the i-th `uuid4()`. */
  function PointsUpTo<V>(chunks: seq<Object>, n: nat, encode: Value -> Outcome<V>, newId: nat -> string)
    : Outcome<seq<Point<V>>>
    requires n <= |chunks|
  {
    if n == 0 then Returned([])
    else
      match PointsUpTo(chunks, n - 1, encode, newId)
      case Raised(m) => Raised(m)
      case Returned(points) =>
        match PointOf(chunks[n - 1], n - 1, encode, newId)
        case Raised(m) => Raised(m)
        case Returned(p) => Returned(points + [p])
  }

  /** The slices `points[i:i + size]` for `i` in `range(start, total, size)`, the last one cut at the end. */
  function BatchesFrom<P>(points: seq<P>, start: nat, size: nat): seq<seq<P>>
    requires size > 0
    decreases |points| - start
  {
    if start >= |points| then []
    else
      var end := if start + size <= |points| then start + size else |points|;
      [points[start..end]] + BatchesFrom(points, end, size)
  }

  /** The consecutive slices of at most `size` points that `range(0, total, size)` walks through. */
  function Batches<P>(points: seq<P>, size: nat): seq<seq<P>>
    requires size > 0
  {
    BatchesFrom(points, 0, size)
  }

  /** The batches joined back together. */
  function Concat<P>(batches: seq<seq<P>>): seq<P> {
    if batches == [] then [] else batches[0] + Concat(batches[1..])
  }

  /** Whether every batch of `batches` is upserted without raising. */
  predicate AllUploaded<V>(batches: seq<seq<Point<V>>>, upsert: seq<Point<V>> -> Outcome<Value>) {
    forall k :: 0 <= k < |batches| ==> upsert(batches[k]).Returned?
  }

  /** The loop building the points: one per chunk, in order, until a chunk raises. */
  method BuildPoints<V>(chunks: seq<Object>, encode: Value -> Outcome<V>, newId: nat -> string)
    returns (r: Outcome<seq<Point<V>>>)
    ensures r == PointsUpTo(chunks, |chunks|, encode, newId)
  {
    var points: seq<Point<V>> := [];
    for i := 0 to |chunks|
      invariant PointsUpTo(chunks, i, encode, newId) == Returned(points)
    {
      var p := PointOf(chunks[i], i, encode, newId);
      if p.Raised? {
        PointsStop(chunks, i + 1, |chunks|, encode, newId);
        return Raised(p.message);
      }
      points := points + [p.value];
    }
    r := Returned(points);
  }

  /**
   * The upload loop over `range(0, total, size)`: the batches are upserted in order until one
   * raises, which returns False; True when all were uploaded. `attempted` is the batches sent.
   */
  method UploadBatches<V(==)>(points: seq<Point<V>>, size: nat, upsert: seq<Point<V>> -> Outcome<Value>)
    returns (ok: bool, attempted: seq<seq<Point<V>>>)
    requires size > 0 && points != []
    ensures attempted != [] && IsPrefix(attempted, Batches(points, size))
    ensures AllUploaded(attempted[..|attempted| - 1], upsert)
    ensures ok <==> AllUploaded(attempted, upsert)
    ensures ok ==> attempted == Batches(points, size)
    ensures !ok ==> upsert(attempted[|attempted| - 1]).Raised?
  {
    attempted := [];
    var total := |points|;
    var i := 0;
    ghost var whole := Batches(points, size);
    BatchesNonEmpty(points, size);
    while i < total
      invariant i <= total
      invariant attempted + BatchesFrom(points, i, size) == whole
      invariant AllUploaded(attempted, upsert)
      decreases total - i
    {
      var end := if i + size <= total then i + size else total;
      var batch := points[i..end];
      ghost var later := BatchesFrom(points, end, size);
      assert BatchesFrom(points, i, size) == [batch] + later;
      if upsert(batch).Raised? {
        FailedBatchLast(attempted, batch, later, whole, upsert);
        return false, attempted + [batch];
      }
      MoveFirst(attempted, batch, later, whole);
      attempted := attempted + [batch];
      i := end;
    }
    AllSent(attempted, whole, upsert);
    ok := true;
  }

  /**
   * `ingest_chunks(chunks, batch_size)`: every chunk becomes a point (which may raise); with no
   * points it returns False and uploads nothing; otherwise the batches are uploaded. A zero batch
   * size makes `range` raise; a negative one gives no batch at all, and True.
   */
  method IngestChunks<V(==)>(chunks: seq<Object>, batchSize: int, encode: Value -> Outcome<V>, newId: nat -> string,
                             upsert: seq<Point<V>> -> Outcome<Value>)
    returns (r: Outcome<bool>, attempted: seq<seq<Point<V>>>)
    ensures PointsUpTo(chunks, |chunks|, encode, newId).Raised? ==>
      r == Raised(PointsUpTo(chunks, |chunks|, encode, newId).message) && attempted == []
    ensures chunks == [] ==> r == Returned(false) && attempted == []
    ensures chunks != [] && PointsUpTo(chunks, |chunks|, encode, newId).Returned? ==>
      (batchSize == 0 ==> r == Raised(ZeroStepMessage) && attempted == []) &&
      (batchSize < 0 ==> r == Returned(true) && attempted == []) &&
      (batchSize > 0 ==>
         r.Returned? && attempted != [] &&
         IsPrefix(attempted, Batches(PointsUpTo(chunks, |chunks|, encode, newId).value, batchSize)) &&
         AllUploaded(attempted[..|attempted| - 1], upsert) &&
         (r.value <==> AllUploaded(attempted, upsert)) &&
         (r.value ==> attempted == Batches(PointsUpTo(chunks, |chunks|, encode, newId).value, batchSize)) &&
         (!r.value ==> upsert(attempted[|attempted| - 1]).Raised?))
  {
    var points := BuildPoints(chunks, encode, newId);
    attempted := [];
    if points.Raised? {
      return Raised(points.message), attempted;
    }
    PointsPerChunk(chunks, |chunks|, encode, newId);
    if points.value == [] {
      return Returned(false), attempted;
    }
    if batchSize == 0 {
      return Raised(ZeroStepMessage), attempted;
    }
    if batchSize < 0 {
      return Returned(true), attempted;
    }
    var ok;
    ok, attempted := UploadBatches(points.value, batchSize, upsert);
    r := Returned(ok);
  }

  /** Points that remain give at least one batch. */
  lemma {:induction false} BatchesNonEmpty<P>(points: seq<P>, size: nat)
    requires size > 0
    ensures points != [] <==> Batches(points, size) != []
  {
  }

  /** Whether `a` is a prefix of `b`. */
  predicate IsPrefix<T(==)>(a: seq<T>, b: seq<T>) {
    |a| <= |b| && a == b[..|a|]
  }

  /** Once a chunk has raised, the later chunks change nothing. */
  lemma {:induction false} PointsStop<V>(chunks: seq<Object>, i: nat, n: nat, encode: Value -> Outcome<V>, newId: nat -> string)
    requires i <= n <= |chunks| && PointsUpTo(chunks, i, encode, newId).Raised?
    ensures PointsUpTo(chunks, n, encode, newId) == PointsUpTo(chunks, i, encode, newId)
    decreases n - i
  {
    if i < n {
      PointsStop(chunks, i, n - 1, encode, newId);
    }
  }

  /** Moving the first of the remaining elements to the end of those done keeps the whole. */
  lemma {:induction false} MoveFirst<T>(done: seq<T>, x: T, rest: seq<T>, whole: seq<T>)
    requires done + ([x] + rest) == whole
    ensures (done + [x]) + rest == whole
  {
    assert (done + [x]) + rest == done + ([x] + rest);
  }

  /** A sequence followed by more is a prefix of the whole. */
  lemma {:induction false} PrefixOfBatches<T>(a: seq<T>, rest: seq<T>, whole: seq<T>)
    requires a + rest == whole
    ensures IsPrefix(a, whole)
  {
    assert whole[..|a|] == a;
  }

  /** All the batches sent and uploaded: a prefix of themselves, each uploaded. */
  lemma {:induction false} AllSent<V>(sent: seq<seq<Point<V>>>, whole: seq<seq<Point<V>>>,
                                      upsert: seq<Point<V>> -> Outcome<Value>)
    requires sent + [] == whole && sent != [] && AllUploaded(sent, upsert)
    ensures sent == whole && IsPrefix(sent, whole) && AllUploaded(sent[..|sent| - 1], upsert)
  {
    assert sent + [] == sent;
  }

  /** The batches sent up to a failing one: a prefix of all the batches, all but the last uploaded. */
  lemma {:induction false} FailedBatchLast<V>(uploaded: seq<seq<Point<V>>>, batch: seq<Point<V>>, rest: seq<seq<Point<V>>>,
                                              whole: seq<seq<Point<V>>>, upsert: seq<Point<V>> -> Outcome<Value>)
    requires uploaded + ([batch] + rest) == whole && AllUploaded(uploaded, upsert)
    ensures var sent := uploaded + [batch];
      IsPrefix(sent, whole) && AllUploaded(sent[..|sent| - 1], upsert) && sent[|sent| - 1] == batch
  {
    var sent := uploaded + [batch];
    assert sent[..|sent| - 1] == uploaded;
    MoveFirst(uploaded, batch, rest, whole);
    PrefixOfBatches(sent, rest, whole);
  }

  // ----- properties -----

  /** There is one point per chunk, in order, each with the chunk's payload and its own draw of `uuid4()`. */
  lemma {:induction false} PointsPerChunk<V>(chunks: seq<Object>, n: nat, encode: Value -> Outcome<V>, newId: nat -> string)
    requires n <= |chunks| && PointsUpTo(chunks, n, encode, newId).Returned?
    ensures |PointsUpTo(chunks, n, encode, newId).value| == n
    ensures forall i :: 0 <= i < n ==>
      "text" in chunks[i] && "metadata" in chunks[i] && chunks[i]["metadata"].Dict? &&
      PointsUpTo(chunks, n, encode, newId).value[i].id == newId(i) &&
      PointsUpTo(chunks, n, encode, newId).value[i].payload == Payload(chunks[i]["text"], chunks[i]["metadata"].fields)
  {
    if n > 0 {
      PointsPerChunk(chunks, n - 1, encode, newId);
    }
  }

  /** The payload holds every metadata key unchanged, and "text" is the chunk's text unless the metadata has its own. */
  lemma {:induction false} PayloadKeys(text: Value, meta: Object)
    ensures Payload(text, meta).Keys == meta.Keys + {"text"}
    ensures forall k :: k in meta ==> Payload(text, meta)[k] == meta[k]
    ensures "text" !in meta ==> Payload(text, meta)["text"] == text
  {
  }

  lemma {:induction false} BatchesFromCover<P>(points: seq<P>, start: nat, size: nat)
    requires size > 0 && start <= |points|
    ensures Concat(BatchesFrom(points, start, size)) == points[start..]
    ensures forall k :: 0 <= k < |BatchesFrom(points, start, size)| ==> 0 < |BatchesFrom(points, start, size)[k]| <= size
    ensures forall k :: 0 <= k < |BatchesFrom(points, start, size)| - 1 ==> |BatchesFrom(points, start, size)[k]| == size
    decreases |points| - start
  {
    if start < |points| {
      var end := if start + size <= |points| then start + size else |points|;
      var rest := BatchesFrom(points, end, size);
      BatchesFromCover(points, end, size);
      assert BatchesFrom(points, start, size)[1..] == rest;
      assert points[start..end] + points[end..] == points[start..];
    }
  }

  /** The batches cover all points in order, each holds between one and `size` points, and only the last may be short. */
  lemma {:induction false} BatchesCover<P>(points: seq<P>, size: nat)
    requires size > 0
    ensures Concat(Batches(points, size)) == points
    ensures forall k :: 0 <= k < |Batches(points, size)| ==> 0 < |Batches(points, size)[k]| <= size
    ensures forall k :: 0 <= k < |Batches(points, size)| - 1 ==> |Batches(points, size)[k]| == size
  {
    BatchesFromCover(points, 0, size);
    assert points[0..] == points;
  }

  lemma {:induction false} BatchesFromCount<P>(points: seq<P>, start: nat, size: nat)
    requires size > 0 && start <= |points|
    ensures |points| - start <= |BatchesFrom(points, start, size)| * size
    ensures |BatchesFrom(points, start, size)| == 0 || (|BatchesFrom(points, start, size)| - 1) * size < |points| - start
    decreases |points| - start
  {
    if start < |points| {
      var end := if start + size <= |points| then start + size else |points|;
      var k := |BatchesFrom(points, end, size)|;
      BatchesFromCount(points, end, size);
      assert |BatchesFrom(points, start, size)| == k + 1;
      assert (k + 1) * size == k * size + size;
    }
  }

  /** There are ceil(total / size) batches: the least count whose `size` multiple reaches the total. */
  lemma {:induction false} BatchCount<P>(points: seq<P>, size: nat)
    requires size > 0
    ensures |points| <= |Batches(points, size)| * size
    ensures |Batches(points, size)| == 0 || (|Batches(points, size)| - 1) * size < |points|
  {
    BatchesFromCount(points, 0, size);
  }

  /**
   * `search(query, top_k)`: one entry per hit, in hit order, holding the payload's text, the score
   * and the whole payload as metadata; a payload without "text" raises.
   */
  function SearchResults(hits: seq<(Object, Value)>): (r: Outcome<seq<Object>>)
    ensures r.Raised? <==> exists i :: 0 <= i < |hits| && "text" !in hits[i].0
    ensures r.Returned? ==> |r.value| == |hits|
    ensures r.Returned? ==> forall i :: 0 <= i < |hits| ==>
      r.value[i] == map["text" := hits[i].0["text"], "score" := hits[i].1, "metadata" := Dict(hits[i].0)]
  {
    if hits == [] then Returned([])
    else if "text" !in hits[0].0 then Raised(KeyErrorMessage("text"))
    else
      match SearchResults(hits[1..])
      case Raised(m) => Raised(m)
      case Returned(rest) =>
        Returned([map["text" := hits[0].0["text"], "score" := hits[0].1, "metadata" := Dict(hits[0].0)]] + rest)
  }
}
