/**
 * The analyzer agent: `analyze_query` asks the model to classify a query and reads a JSON object
 * out of the answer, falling back to a fixed routing decision; the module registers it and the
 * pipeline's `process_new_files` as tools.
 */
module AnalyzerAgent {
  import opened Wrappers
  import opened JsonValue
  import opened LlmJson
  import opened Rpc

  /** The routing decision used when the answer holds no parsable object. */
  const FallbackAnalysis: Object :=
    map["is_valid" := Bool(true), "classification" := Str("RAG"), "entities" := Dict(map[])]

  /**
   * The result read from the model's answer: whatever the span from the first `{` to the last `}`
   * parses to, unchecked; the fallback when there is no such span or `parse` fails (None).
   */
  function AnalyzeResponse(response: string, parse: string -> Option<Value>): Value {
    match BraceSpan(response)
    case None => Dict(FallbackAnalysis)
    case Some(candidate) =>
      match parse(candidate)
      case None => Dict(FallbackAnalysis)
      case Some(v) => v
  }

  const AnalyzeQueryName: string := "analyze_query"
  const ProcessNewFilesName: string := "analyzer.process_new_files"

  /** `str(e)` of the `TypeError` a call raises when the argument list does not fit. */
  function ArityMessage(function_name: string): string {
    function_name + "() got arguments that do not match its signature"
  }

  /** Binding `analyze_query(query)`: exactly one argument, by position or as `query=`. */
  function QueryArgument(args: Args): Outcome<Value> {
    match args
    case Keyword(kwargs) => if kwargs.Keys == {"query"} then Returned(kwargs["query"]) else Raised(ArityMessage(AnalyzeQueryName))
    case Positional(xs) => if |xs| == 1 then Returned(xs[0]) else Raised(ArityMessage(AnalyzeQueryName))
    case NoArgs => Raised(ArityMessage(AnalyzeQueryName))
  }

  /**
   * The `analyze_query` tool. `ask` is the model's answer to the analysis prompt built around the
   * query's text.
   */
  function AnalyzeQueryTool(ask: string -> string, parse: string -> Option<Value>, repr: Value -> string): Tool {
    args =>
      match QueryArgument(args)
      case Raised(m) => Raised(m)
      case Returned(query) => Returned(AnalyzeResponse(ask(Text(query, repr)), parse))
  }

  /** The `analyzer.process_new_files` tool: no arguments; it returns what `process_new_files` returns. */
  function ProcessNewFilesTool(processed: Outcome<Value>): Tool {
    args =>
      if args == NoArgs || args == Positional([]) || args == Keyword(map[]) then processed
      else Raised(ArityMessage("process_new_documents"))
  }

  /** Module initialisation: the two registrations, in order. */
  method RegisterAnalyzerTools(handler: McpHandler, ask: string -> string, parse: string -> Option<Value>,
                               repr: Value -> string, processed: Outcome<Value>)
    modifies handler
    ensures handler.methods ==
      old(handler.methods)[AnalyzeQueryName := AnalyzeQueryTool(ask, parse, repr)]
                          [ProcessNewFilesName := ProcessNewFilesTool(processed)]
  {
    handler.RegisterTool(AnalyzeQueryName, AnalyzeQueryTool(ask, parse, repr));
    handler.RegisterTool(ProcessNewFilesName, ProcessNewFilesTool(processed));
  }

  // ----- properties -----

  /**
   * With a span that parses, its value is returned as it is, whatever its fields; otherwise the
   * result is exactly the fallback, which routes to plain RAG.
   */
  lemma {:induction false} AnalyzeResponseCases(response: string, parse: string -> Option<Value>)
    ensures BraceSpan(response).Some? && parse(BraceSpan(response).value).Some? ==>
      AnalyzeResponse(response, parse) == parse(BraceSpan(response).value).value
    ensures (forall i, j :: 0 <= i < j < |response| ==> !(response[i] == '{' && response[j] == '}')) ==>
      AnalyzeResponse(response, parse) == Dict(FallbackAnalysis)
    ensures BraceSpan(response).Some? && parse(BraceSpan(response).value).None? ==>
      AnalyzeResponse(response, parse) == Dict(FallbackAnalysis)
  {
    BraceSpanSpec(response);
  }

  /** A well-formed call never raises: the model's answer always leads to a value. */
  lemma {:induction false} AnalyzeQueryReturns(query: Value, ask: string -> string, parse: string -> Option<Value>,
                                               repr: Value -> string)
    ensures AnalyzeQueryTool(ask, parse, repr)(Keyword(map["query" := query])) ==
      Returned(AnalyzeResponse(ask(Text(query, repr)), parse))
    ensures AnalyzeQueryTool(ask, parse, repr)(Positional([query])) ==
      Returned(AnalyzeResponse(ask(Text(query, repr)), parse))
  {
    assert map["query" := query].Keys == {"query"};
    assert QueryArgument(Keyword(map["query" := query])) == Returned(query);
    assert QueryArgument(Positional([query])) == Returned(query);
  }

  /** The fallback classifies the query as valid and as plain RAG, with no entities. */
  lemma {:induction false} FallbackRoutesToRag()
    ensures FallbackAnalysis.Keys == {"is_valid", "classification", "entities"}
    ensures Truthy(FallbackAnalysis["is_valid"]) && FallbackAnalysis["classification"] == Str("RAG")
    ensures !Truthy(FallbackAnalysis["entities"])
  {
  }
}
