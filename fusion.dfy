/**
 * Retrieval fusion: a vector search in Qdrant gives hits, each hit gives seed terms (its country
 * and the first words of its summary), each seed term is expanded in Neo4j, and the model is asked
 * once for a synthesis of the summaries and the graph evidence.
 */
module Fusion {
  import opened Wrappers
  import opened JsonValue
  import opened Strings
  import opened GraphPrompts

  /** A search hit: a scored point whose `payload` is an attribute, or a plain dict. */
  datatype Hit = PointHit(payload: Value) | DictHit(fields: Object)

  /** How many summary words one hit contributes to the seed terms. */
  const MaxSeedWords: nat := 5
  /** Longest prefix of the rendered graph evidence put into the synthesis prompt. */
  const MaxGraphText: nat := 2000

  /** `str(e)` when `.get` is called on a scored point, which has no such method. */
  const PointNoGetMessage: string := "'ScoredPoint' object has no attribute 'get'"

  /** `str(e)` of the `AttributeError` raised by calling `.split` on a value that is not a string. */
  function NoSplitMessage(v: Value): string {
    "'" + TypeName(v) + "' object has no attribute 'split'"
  }

  /** `_vector_search`: the hits, or none when the search raises. */
  function VectorSearch(searched: Outcome<seq<Hit>>): (hits: seq<Hit>)
    ensures searched.Raised? ==> hits == []
  {
    if searched.Returned? then searched.value else []
  }

  /** `getattr(h, 'payload', None) or h.get('payload', {})`. */
  function PayloadOf(h: Hit): Outcome<Value> {
    match h
    case PointHit(p) => if Truthy(p) then Returned(p) else Raised(PointNoGetMessage)
    case DictHit(fields) => Returned(Get(fields, "payload", Dict(map[])))
  }

  /** The words of a summary as seed terms. */
  function WordTerms(words: seq<string>): (terms: seq<Value>)
    ensures |terms| == |words|
  {
    seq(|words|, i requires 0 <= i < |words| => Str(words[i]))
  }

  /** `summary.split()[:5]`: at most the first five whitespace-separated words of a summary. */
  function SummaryTerms(summary: string): (terms: seq<Value>)
    ensures |terms| <= MaxSeedWords
  {
    WordTerms(Take(Words(summary), MaxSeedWords))
  }

  /**
   * What one hit contributes: its payload, kept for the answer, and its seed terms: the country of
   * its metadata when truthy, then at most the first five whitespace-separated words of its summary
   * when that is truthy. A payload or metadata that is not a dict, or a summary that is not a
   * string, raises.
   */
  function HitTerms(h: Hit): Outcome<(Object, seq<Value>)> {
    match PayloadOf(h)
    case Raised(m) => Raised(m)
    case Returned(payload) =>
      if !payload.Dict? then Raised(NoGetMessage(payload))
      else
        var meta := Get(payload.fields, "metadata", Dict(map[]));
        if !meta.Dict? then Raised(NoGetMessage(meta))
        else
          var country := Get(meta.fields, "country", Null);
          var summary := Get(payload.fields, "summary", Str(""));
          var lead := if Truthy(country) then [country] else [];
          if !Truthy(summary) then Returned((payload.fields, lead))
          else if !summary.Str? then Raised(NoSplitMessage(summary))
          else Returned((payload.fields, lead + SummaryTerms(summary.s)))
  }

  /** The payloads and the seed terms gathered from the hits so far. */
  datatype Gathered = Gathered(docs: seq<Object>, seeds: seq<Value>)

  /** The first loop of `retrieve` over `hits[..n]`: what it gathered, or the first exception. */
  function GatherUpTo(hits: seq<Hit>, n: nat): Outcome<Gathered>
    requires n <= |hits|
  {
    if n == 0 then Returned(Gathered([], []))
    else
      match GatherUpTo(hits, n - 1)
      case Raised(m) => Raised(m)
      case Returned(g) =>
        match HitTerms(hits[n - 1])
        case Raised(m) => Raised(m)
        case Returned(contribution) =>
          Returned(Gathered(g.docs + [contribution.0], g.seeds + contribution.1))
  }

  /** `rows or []`: the handler answers None when it has no driver. */
  function RowsOf(rows: Option<seq<Value>>): seq<Value> {
    if rows.Some? then rows.value else []
  }

  /** `_expand_graph(terms)`: the rows of every term's query, concatenated in term order. */
  function Expanded(terms: seq<Value>, graphQuery: Value -> Option<seq<Value>>): seq<Value> {
    if terms == [] then []
    else
      var n := |terms| - 1;
      Expanded(terms[..n], graphQuery) + RowsOf(graphQuery(terms[n]))
  }

  /** The summary of every payload, as the context's list comprehension reads them. */
  function Summaries(docs: seq<Object>): (summaries: seq<Value>)
    ensures |summaries| == |docs|
  {
    seq(|docs|, i requires 0 <= i < |docs| => Get(docs[i], "summary", Str("")))
  }

  /** The payloads as the list returned under `vector_hits`. */
  function DocsValue(docs: seq<Object>): (v: Value)
    ensures v.List? && |v.items| == |docs|
  {
    List(seq(|docs|, i requires 0 <= i < |docs| => Dict(docs[i])))
  }

  /** The synthesis prompt around the joined summaries and the cut graph text. */
  function SynthesisPrompt(context: string, graphText: string): string {
    "Given the following document summaries and graph evidence, produce a concise comparison and identify gaps:\n\n" +
    "Document Summaries:\n" + context + "\n\nGraph Evidence:\n" + graphText + "\n\nAnswer:"
  }

  /** The collaborators of `retrieve`: the embedder, Qdrant's search, Neo4j's query, the model and `str`. */
  datatype Services<!E> = Services(
    encode: string -> Outcome<E>,
    search: (E, int) -> Outcome<seq<Hit>>,
    graphQuery: Value -> Option<seq<Value>>,
    generate: string -> string,
    repr: Value -> string)

  /** The hits `retrieve` works on: the embedding raises, or the search's hits (none if it raised). */
  function HitsOf<E>(query: string, topK: int, s: Services<E>): Outcome<seq<Hit>> {
    match s.encode(query)
    case Raised(m) => Raised(m)
    case Returned(vector) => Returned(VectorSearch(s.search(vector, topK)))
  }

  /** The seed terms `retrieve` sends to the graph, in order (none when it raises before the expansion). */
  function SeedTerms<E>(query: string, topK: int, s: Services<E>): seq<Value> {
    var hits := HitsOf(query, topK, s);
    if hits.Raised? then []
    else
      var g := GatherUpTo(hits.value, |hits.value|);
      if g.Raised? then [] else g.value.seeds
  }

  /**
   * `retrieve(query, embedder, top_k)`: the answer object, or the exception that escapes. The
   * graph text is the first 2000 characters of `str` of the evidence list.
   */
  function Retrieved<E>(query: string, topK: int, s: Services<E>): Outcome<Object> {
    match HitsOf(query, topK, s)
    case Raised(m) => Raised(m)
    case Returned(hits) =>
      match GatherUpTo(hits, |hits|)
      case Raised(m) => Raised(m)
      case Returned(g) =>
        var evidence := Expanded(g.seeds, s.graphQuery);
        match StrsFrom(Summaries(g.docs), 0, s.repr)
        case Raised(m) => Raised(m)
        case Returned(summaries) =>
          var graphText := Take(s.repr(List(evidence)), MaxGraphText);
          var synthesis := s.generate(SynthesisPrompt(Join(summaries, "\n\n"), graphText));
          Returned(map["vector_hits" := DocsValue(g.docs), "graph" := List(evidence), "synthesis" := Str(synthesis)])
  }

  // ----- the loops -----

  /** Once a hit has raised, the later hits change nothing. */
  lemma {:induction false} GatherStops(hits: seq<Hit>, i: nat, n: nat)
    requires i <= n <= |hits| && GatherUpTo(hits, i).Raised?
    ensures GatherUpTo(hits, n) == GatherUpTo(hits, i)
    decreases n - i
  {
    if i < n {
      GatherStops(hits, i, n - 1);
    }
  }

  /** The first loop: each hit's payload is kept and its seed terms appended, until a hit raises. */
  method GatherSeeds(hits: seq<Hit>) returns (r: Outcome<Gathered>)
    ensures r == GatherUpTo(hits, |hits|)
  {
    var seedTerms: seq<Value> := [];
    var docs: seq<Object> := [];
    for i := 0 to |hits|
      invariant GatherUpTo(hits, i) == Returned(Gathered(docs, seedTerms))
    {
      var contribution := HitTerms(hits[i]);
      if contribution.Raised? {
        GatherStops(hits, i + 1, |hits|);
        return Raised(contribution.message);
      }
      docs := docs + [contribution.value.0];
      seedTerms := seedTerms + contribution.value.1;
    }
    r := Returned(Gathered(docs, seedTerms));
  }

  /** `_expand_graph(terms)`: one query per term, in order, the rows appended without deduplication. */
  method ExpandGraph(terms: seq<Value>, graphQuery: Value -> Option<seq<Value>>)
    returns (results: seq<Value>, queried: seq<Value>)
    ensures queried == terms
    ensures results == Expanded(terms, graphQuery)
  {
    results, queried := [], [];
    for i := 0 to |terms|
      invariant queried == terms[..i]
      invariant results == Expanded(queried, graphQuery)
    {
      var rows := graphQuery(terms[i]);
      assert terms[..i + 1] == terms[..i] + [terms[i]];
      queried := queried + [terms[i]];
      assert queried[..i] == terms[..i];
      results := results + RowsOf(rows);
    }
    assert terms[..|terms|] == terms;
  }

  /**
   * `retrieve`: the answer, and the terms sent to the graph in order. The embedding may raise; a
   * failed search means no hits; a hit that cannot be read raises before any graph query.
   */
  method Retrieve<E>(query: string, topK: int, s: Services<E>) returns (r: Outcome<Object>, queried: seq<Value>)
    ensures r == Retrieved(query, topK, s)
    ensures queried == SeedTerms(query, topK, s)
  {
    var vector := s.encode(query);
    if vector.Raised? {
      return Raised(vector.message), [];
    }
    var hits := VectorSearch(s.search(vector.value, topK));
    var gathered := GatherSeeds(hits);
    if gathered.Raised? {
      return Raised(gathered.message), [];
    }
    var evidence;
    evidence, queried := ExpandGraph(gathered.value.seeds, s.graphQuery);
    var summaries := StrsFrom(Summaries(gathered.value.docs), 0, s.repr);
    if summaries.Raised? {
      return Raised(summaries.message), queried;
    }
    var graphText := Take(s.repr(List(evidence)), MaxGraphText);
    var synthesis := s.generate(SynthesisPrompt(Join(summaries.value, "\n\n"), graphText));
    r := Returned(map["vector_hits" := DocsValue(gathered.value.docs), "graph" := List(evidence),
                      "synthesis" := Str(synthesis)]);
  }

  // ----- properties -----

  /** Each hit contributes at most its country and five summary words. */
  lemma {:induction false} HitTermsBound(h: Hit)
    requires HitTerms(h).Returned?
    ensures |HitTerms(h).value.1| <= 1 + MaxSeedWords
  {
  }

  /** The seed terms are at most six per hit, and the payloads are one per hit. */
  lemma {:induction false} GatheredBounds(hits: seq<Hit>, n: nat)
    requires n <= |hits| && GatherUpTo(hits, n).Returned?
    ensures |GatherUpTo(hits, n).value.docs| == n
    ensures |GatherUpTo(hits, n).value.seeds| <= (1 + MaxSeedWords) * n
  {
    if n > 0 {
      GatheredBounds(hits, n - 1);
      HitTermsBound(hits[n - 1]);
    }
  }

  /** Words that are never empty are truthy terms. */
  lemma {:induction false} WordTermsTruthy(words: seq<string>)
    requires forall i :: 0 <= i < |words| ==> words[i] != []
    ensures forall t :: t in WordTerms(words) ==> Truthy(t)
  {
    forall t | t in WordTerms(words)
      ensures Truthy(t)
    {
      var i :| 0 <= i < |words| && WordTerms(words)[i] == t;
    }
  }

  /** Every summary word is a truthy term. */
  lemma {:induction false} SummaryTermsTruthy(summary: string)
    ensures forall t :: t in SummaryTerms(summary) ==> Truthy(t)
  {
    var all := Words(summary);
    WordsShape(summary);
    var words := Take(all, MaxSeedWords);
    assert forall i :: 0 <= i < |words| ==> words[i] == all[i] && all[i] in all;
    WordTermsTruthy(words);
  }

  /** Every term one hit contributes is truthy: a truthy country, or a summary word. */
  lemma {:induction false} HitTermsTruthy(h: Hit)
    requires HitTerms(h).Returned?
    ensures forall t :: t in HitTerms(h).value.1 ==> Truthy(t)
  {
    var payload := PayloadOf(h).value;
    var summary := Get(payload.fields, "summary", Str(""));
    if Truthy(summary) && summary.Str? {
      SummaryTermsTruthy(summary.s);
    }
  }

  /** Every seed term sent to the graph is truthy. */
  lemma {:induction false} SeedTermsTruthy(hits: seq<Hit>, n: nat)
    requires n <= |hits| && GatherUpTo(hits, n).Returned?
    ensures forall t :: t in GatherUpTo(hits, n).value.seeds ==> Truthy(t)
  {
    if n > 0 {
      SeedTermsTruthy(hits, n - 1);
      HitTermsTruthy(hits[n - 1]);
    }
  }

  /** Expansion distributes over concatenation: the evidence keeps every row, in term order, without deduplication. */
  lemma {:induction false} ExpandedAppend(a: seq<Value>, b: seq<Value>, graphQuery: Value -> Option<seq<Value>>)
    ensures Expanded(a + b, graphQuery) == Expanded(a, graphQuery) + Expanded(b, graphQuery)
    decreases |b|
  {
    if b == [] {
      assert a + b == a;
    } else {
      var ab := a + b;
      var n := |b| - 1;
      assert ab[..|ab| - 1] == a + b[..n];
      assert ab[|ab| - 1] == b[n];
      ExpandedAppend(a, b[..n], graphQuery);
      assert Expanded(ab, graphQuery) == Expanded(a + b[..n], graphQuery) + RowsOf(graphQuery(b[n]));
      assert Expanded(b, graphQuery) == Expanded(b[..n], graphQuery) + RowsOf(graphQuery(b[n]));
    }
  }

  /** Terms whose queries answer None or nothing add no evidence. */
  lemma {:induction false} ExpandedEmpty(terms: seq<Value>, graphQuery: Value -> Option<seq<Value>>)
    requires forall i :: 0 <= i < |terms| ==> RowsOf(graphQuery(terms[i])) == []
    ensures Expanded(terms, graphQuery) == []
  {
    if terms != [] {
      ExpandedEmpty(terms[..|terms| - 1], graphQuery);
    }
  }

  /** A failed search gives no hits: no seed term is derived and the graph is never queried. */
  lemma {:induction false} FailedSearchQueriesNothing<E>(query: string, topK: int, s: Services<E>)
    requires s.encode(query).Returned? && s.search(s.encode(query).value, topK).Raised?
    ensures SeedTerms(query, topK, s) == []
    ensures Retrieved(query, topK, s).Returned?
    ensures Retrieved(query, topK, s).value["vector_hits"] == List([])
    ensures Retrieved(query, topK, s).value["graph"] == List([])
  {
    assert StrsFrom(Summaries([]), 0, s.repr) == Returned([]);
  }

  /**
   * The answer has exactly the keys `vector_hits`, `graph` and `synthesis`; the hits are the
   * payloads in hit order; the graph is the evidence of the seed terms; the synthesis is the model's
   * answer to a prompt whose graph text is a prefix of at most 2000 characters of `str(graph)`.
   */
  lemma {:induction false} RetrievedShape<E>(query: string, topK: int, s: Services<E>)
    requires Retrieved(query, topK, s).Returned?
    ensures Retrieved(query, topK, s).value.Keys == {"vector_hits", "graph", "synthesis"}
    ensures Retrieved(query, topK, s).value["graph"] == List(Expanded(SeedTerms(query, topK, s), s.graphQuery))
    ensures |Retrieved(query, topK, s).value["vector_hits"].items| == |HitsOf(query, topK, s).value|
    ensures exists context, graphText ::
      |graphText| <= MaxGraphText &&
      StartsWith(s.repr(Retrieved(query, topK, s).value["graph"]), graphText) &&
      Retrieved(query, topK, s).value["synthesis"] == Str(s.generate(SynthesisPrompt(context, graphText)))
  {
    var hits := HitsOf(query, topK, s).value;
    GatheredBounds(hits, |hits|);
    var g := GatherUpTo(hits, |hits|).value;
    var evidence := Expanded(g.seeds, s.graphQuery);
    var summaries := StrsFrom(Summaries(g.docs), 0, s.repr).value;
    var graphText := Take(s.repr(List(evidence)), MaxGraphText);
    assert Retrieved(query, topK, s).value["synthesis"] ==
      Str(s.generate(SynthesisPrompt(Join(summaries, "\n\n"), graphText)));
  }

  /** The context joins the summaries; a summary that is not a string (even a falsy one) makes the join raise. */
  lemma {:induction false} NonStringSummaryRaises(docs: seq<Object>, j: nat, repr: Value -> string)
    requires j < |docs| && !Get(docs[j], "summary", Str("")).Str?
    ensures StrsFrom(Summaries(docs), 0, repr).Raised?
  {
    assert !Summaries(docs)[j].Str?;
    StrsFromReturned(Summaries(docs), 0, repr);
  }
}
