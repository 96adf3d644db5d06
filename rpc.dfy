/**
 * The JSON-RPC 2.0 tool registry: a name-to-callable map and the dispatcher that turns a request
 * object into a response object (error codes as in section 5.1 of the JSON-RPC 2.0 Specification,
 * parameter binding as in its section 4.2).
 */
module Rpc {
  import opened Wrappers
  import opened JsonValue

  const Version: string := "2.0"
  const ParseErrorCode: int := -32700
  const MethodNotFoundCode: int := -32601
  const ServerErrorCode: int := -32000

  /** The request envelope once built; absent `params` and `id` are `None`. */
  datatype Request = Request(jsonrpc: string, methodName: string, params: Value, id: Value)

  /** How a tool is called: by keyword, by position, or with no arguments. */
  datatype Args = Keyword(kwargs: Object) | Positional(args: seq<Value>) | NoArgs

  /** A registered tool: it returns a value or raises. */
  type Tool = Args -> Outcome<Value>

  /** The tool call a request led to. */
  datatype Invocation = Invocation(name: string, args: Args)

  /**
   * Building the request envelope from the request body: the body must be a dict, `method` must be
   * present and a string, and `jsonrpc`, when present, must be a string; otherwise building raises.
   */
  function ParseRequest(data: Value): Option<Request> {
    if !data.Dict? then None
    else
      var m := data.fields;
      if "method" !in m || !m["method"].Str? then None
      else if "jsonrpc" in m && !m["jsonrpc"].Str? then None
      else
        var version := if "jsonrpc" in m then m["jsonrpc"].s else Version;
        Some(Request(version, m["method"].s, Get(m, "params", Null), Get(m, "id", Null)))
  }

  /** The request body a client sends for `req`. */
  function RequestBody(req: Request): Value {
    Dict(map["jsonrpc" := Str(req.jsonrpc), "method" := Str(req.methodName),
             "params" := req.params, "id" := req.id])
  }

  /** Every request a client can send is read back as itself. */
  lemma {:induction false} ParseRequestBody(req: Request)
    ensures ParseRequest(RequestBody(req)) == Some(req)
  {
  }

  /** A body that is not a dict, or whose `method` is missing or not a string, cannot be built. */
  lemma {:induction false} ParseRequestRejects(data: Value)
    ensures !data.Dict? ==> ParseRequest(data).None?
    ensures data.Dict? && ("method" !in data.fields || !data.fields["method"].Str?) ==>
      ParseRequest(data).None?
  {
  }

  /** The value of `jsonrpc` is read but never checked: any string gives the same method, params and id. */
  lemma {:induction false} VersionIgnored(m: Object, a: string, b: string)
    ensures var ra := ParseRequest(Dict(m["jsonrpc" := Str(a)]));
      var rb := ParseRequest(Dict(m["jsonrpc" := Str(b)]));
      ra.Some? == rb.Some? &&
      (ra.Some? ==>
        ra.value.methodName == rb.value.methodName && ra.value.params == rb.value.params &&
        ra.value.id == rb.value.id && ra.value.jsonrpc == a && rb.value.jsonrpc == b)
  {
  }

  /** Binding `params` to a call: a dict by name, a list by position, anything else no arguments. */
  function BindParams(params: Value): (a: Args)
    ensures a.Keyword? <==> params.Dict?
    ensures a.Positional? <==> params.List?
    ensures a.NoArgs? <==> !params.Dict? && !params.List?
  {
    match params
    case Dict(m) => Keyword(m)
    case List(xs) => Positional(xs)
    case _ => NoArgs
  }

  /** The `params` value that binds to `args`. */
  function ParamsOf(args: Args): Value {
    match args
    case Keyword(m) => Dict(m)
    case Positional(xs) => List(xs)
    case NoArgs => Null
  }

  /** Binding inverts `ParamsOf`: every call shape is reachable, and carries its arguments unchanged. */
  lemma {:induction false} BindParamsOf(args: Args)
    ensures BindParams(ParamsOf(args)) == args
  {
  }

  /**
   * `JsonRpcResponse(result=..., error=..., id=...).dict(exclude_none=True)`: the fields that are
   * `None` are dropped, and `jsonrpc` is always "2.0".
   */
  function ResponseObject(result: Value, error: Option<Object>, id: Value): (r: Object)
    ensures "jsonrpc" in r && r["jsonrpc"] == Str(Version)
    ensures "result" in r <==> !result.Null?
    ensures "result" in r ==> r["result"] == result
    ensures "error" in r <==> error.Some?
    ensures "error" in r ==> r["error"] == Dict(error.value)
    ensures "id" in r <==> !id.Null?
    ensures "id" in r ==> r["id"] == id
    ensures r.Keys <= {"jsonrpc", "result", "error", "id"}
  {
    var withResult := if result.Null? then map[] else map["result" := result];
    var withError := if error.None? then map[] else map["error" := Dict(error.value)];
    var withId := if id.Null? then map[] else map["id" := id];
    map["jsonrpc" := Str(Version)] + withResult + withError + withId
  }

  /** `_error_response`: an error object with `code` and `message`, the id echoed unless it is `None`. */
  function ErrorResponse(id: Value, code: int, message: string): (r: Object)
    ensures r.Keys == {"jsonrpc", "error"} + (if id.Null? then {} else {"id"})
    ensures r["jsonrpc"] == Str(Version)
    ensures r["error"] == Dict(map["code" := Int(code), "message" := Str(message)])
    ensures "id" in r ==> r["id"] == id
  {
    ResponseObject(Null, Some(map["code" := Int(code), "message" := Str(message)]), id)
  }

  /** A success response: never an `error` key, and no `result` key when the tool returned `None`. */
  function ResultResponse(result: Value, id: Value): (r: Object)
    ensures "error" !in r
    ensures r.Keys == {"jsonrpc"} + (if result.Null? then {} else {"result"}) + (if id.Null? then {} else {"id"})
    ensures "result" in r ==> r["result"] == result
    ensures "id" in r ==> r["id"] == id
  {
    ResponseObject(result, None, id)
  }

  /** A response with neither `result` nor `error`: what a tool that returns `None` yields. */
  lemma {:induction false} NoneResultIsBare(id: Value)
    ensures "result" !in ResultResponse(Null, id) && "error" !in ResultResponse(Null, id)
    ensures ResultResponse(Null, id).Keys <= {"jsonrpc", "id"}
  {
  }

  class McpHandler {
    var methods: map<string, Tool>

    constructor()
      ensures methods == map[]
    {
      methods := map[];
    }

    /** Binds `name` to `tool`, replacing an earlier binding of that name; every other binding is kept. */
    method RegisterTool(name: string, tool: Tool)
      modifies this
      ensures methods == old(methods)[name := tool]
      ensures name in methods && methods[name] == tool
      ensures forall n :: n in old(methods) && n != name ==> n in methods && methods[n] == old(methods)[n]
    {
      methods := methods[name := tool];
    }

    /**
     * Handles one request body. `call` records the tool invocation made, if any. A body that does
     * not build gives "Parse error" with no id; an unregistered method gives "Method not found"
     * and calls nothing; otherwise the tool is called once with the bound parameters, and its
     * value becomes `result`, or the text of what it raised becomes a server error's message.
     */
    method HandleRequest(data: Value) returns (response: Object, call: Option<Invocation>)
      ensures "jsonrpc" in response && response["jsonrpc"] == Str(Version)
      ensures ParseRequest(data).None? ==>
        response == ErrorResponse(Null, ParseErrorCode, "Parse error") && call.None? && "id" !in response
      ensures ParseRequest(data).Some? && ParseRequest(data).value.methodName !in methods ==>
        response == ErrorResponse(ParseRequest(data).value.id, MethodNotFoundCode, "Method not found") &&
        call.None?
      ensures call.Some? <==> ParseRequest(data).Some? && ParseRequest(data).value.methodName in methods
      ensures call.Some? ==>
        var req := ParseRequest(data).value;
        call.value == Invocation(req.methodName, BindParams(req.params)) &&
        match methods[req.methodName](call.value.args)
        case Returned(v) => response == ResultResponse(v, req.id) && "error" !in response
        case Raised(msg) => response == ErrorResponse(req.id, ServerErrorCode, msg)
    {
      var parsed := ParseRequest(data);
      if parsed.None? {
        return ErrorResponse(Null, ParseErrorCode, "Parse error"), None;
      }
      var req := parsed.value;
      if req.methodName !in methods {
        return ErrorResponse(req.id, MethodNotFoundCode, "Method not found"), None;
      }
      var tool := methods[req.methodName];
      var args := BindParams(req.params);
      call := Some(Invocation(req.methodName, args));
      match tool(args) {
        case Returned(v) => response := ResultResponse(v, req.id);
        case Raised(msg) => response := ErrorResponse(req.id, ServerErrorCode, msg);
      }
    }
  }
}
