/**
 * The graph builder: a chunk of text becomes an extraction prompt, the model's answer becomes Cypher
 * statements, and every statement is sent to Neo4j, counting those that run.
 */
module GraphBuilder {
  import opened Wrappers
  import opened JsonValue
  import opened CypherValidator
  import opened GraphPrompts

  /**
   * `Neo4jHandler.execute_query`: without a driver it returns None; with one it returns the rows
   * the session yields, or `[]` when running the query raises. It never raises itself.
   */
  function Neo4jExecute(driver: bool, run: string -> Outcome<seq<Value>>): string -> Outcome<Value> {
    q =>
      if !driver then Returned(Null)
      else match run(q)
        case Returned(rows) => Returned(List(rows))
        case Raised(_) => Returned(List([]))
  }

  /** Whether some statement of `statements` runs without raising. */
  predicate SomeSucceeds(statements: seq<string>, execute: string -> Outcome<Value>) {
    exists i :: 0 <= i < |statements| && execute(statements[i]).Returned?
  }

  /**
   * `process_text_chunk(text, metadata)` as a value: the exception raised while building the
   * prompt, False for an empty answer, or whether some extracted statement ran.
   */
  function ChunkResult(text: Value, metadata: Value, generate: PromptFields -> string,
                       execute: string -> Outcome<Value>, repr: Value -> string): Outcome<bool> {
    match ExtractionPrompt(text, metadata, repr)
    case Raised(m) => Raised(m)
    case Returned(prompt) =>
      Returned(generate(prompt) != "" && SomeSucceeds(StatementsOf(generate(prompt)), execute))
  }

  /** The statements `process_text_chunk` sends to the database, in order. */
  function ChunkStatements(text: Value, metadata: Value, generate: PromptFields -> string,
                           repr: Value -> string): seq<string> {
    match ExtractionPrompt(text, metadata, repr)
    case Raised(_) => []
    case Returned(prompt) => if generate(prompt) == "" then [] else StatementsOf(generate(prompt))
  }

  /** Running one more statement adds it to those run, and one to the count when it succeeds. */
  lemma {:induction false} SuccessesStep(statements: seq<string>, i: nat, execute: string -> Outcome<Value>)
    requires i < |statements|
    ensures statements[..i + 1] == statements[..i] + [statements[i]]
    ensures Successes(statements[..i + 1], execute) ==
      Successes(statements[..i], execute) + (if execute(statements[i]).Returned? then 1 else 0)
  {
    assert statements[..i + 1][..i] == statements[..i];
  }

  /**
   * `_execute_validated_cypher(raw)`: with no statements it returns False and runs nothing;
   * otherwise it runs every statement once, in order, carrying on after one raises, and returns
   * whether at least one of them ran.
   */
  method ExecuteValidatedCypher(raw: string, execute: string -> Outcome<Value>)
    returns (ok: bool, executed: seq<string>)
    ensures executed == StatementsOf(raw)
    ensures ok <==> SomeSucceeds(executed, execute)
  {
    var statements := ExtractCypherStatements(raw);
    executed := [];
    if statements == [] {
      return false, executed;
    }
    var success := 0;
    for i := 0 to |statements|
      invariant executed == statements[..i]
      invariant success == Successes(executed, execute)
    {
      var stmt := statements[i];
      SuccessesStep(statements, i, execute);
      executed := executed + [stmt];
      match execute(stmt) {
        case Returned(_) => success := success + 1;
        case Raised(_) =>
      }
    }
    assert executed == statements;
    SuccessesPositive(executed, execute);
    ok := success > 0;
  }

  /**
   * `process_text_chunk(text, metadata)`: the prompt is built (which may raise), the model answers
   * once, an empty answer returns False without touching the database, and any other answer goes
   * through `_execute_validated_cypher`.
   */
  method ProcessTextChunk(text: Value, metadata: Value, generate: PromptFields -> string,
                          execute: string -> Outcome<Value>, repr: Value -> string)
    returns (r: Outcome<bool>, executed: seq<string>)
    ensures r == ChunkResult(text, metadata, generate, execute, repr)
    ensures executed == ChunkStatements(text, metadata, generate, repr)
  {
    var prompt := ExtractionPrompt(text, metadata, repr);
    if prompt.Raised? {
      return Raised(prompt.message), [];
    }
    var response := generate(prompt.value);
    if response == "" {
      return Returned(false), [];
    }
    var ok;
    ok, executed := ExecuteValidatedCypher(response, execute);
    r := Returned(ok);
  }

  // ----- properties -----

  /** An empty answer from the model returns False and sends nothing to the database. */
  lemma {:induction false} EmptyAnswerRunsNothing(text: Value, metadata: Value, generate: PromptFields -> string,
                                                  execute: string -> Outcome<Value>, repr: Value -> string)
    requires ExtractionPrompt(text, metadata, repr).Returned?
    requires generate(ExtractionPrompt(text, metadata, repr).value) == ""
    ensures ChunkResult(text, metadata, generate, execute, repr) == Returned(false)
    ensures ChunkStatements(text, metadata, generate, repr) == []
  {
  }

  /**
   * The result is True exactly when some statement sent to the database ran without raising; so an
   * answer with no extractable statement gives False.
   */
  lemma {:induction false} ResultIsSomeSuccess(text: Value, metadata: Value, generate: PromptFields -> string,
                                               execute: string -> Outcome<Value>, repr: Value -> string)
    requires ChunkResult(text, metadata, generate, execute, repr).Returned?
    ensures ChunkResult(text, metadata, generate, execute, repr).value <==>
      exists i :: 0 <= i < |ChunkStatements(text, metadata, generate, repr)| &&
        execute(ChunkStatements(text, metadata, generate, repr)[i]).Returned?
  {
    var prompt := ExtractionPrompt(text, metadata, repr).value;
    if generate(prompt) != "" {
      assert ChunkStatements(text, metadata, generate, repr) == StatementsOf(generate(prompt));
    }
  }

  /** The result is True exactly when the success count of the statements sent is positive. */
  lemma {:induction false} ResultCountsSuccesses(text: Value, metadata: Value, generate: PromptFields -> string,
                                                 execute: string -> Outcome<Value>, repr: Value -> string)
    requires ChunkResult(text, metadata, generate, execute, repr).Returned?
    ensures ChunkResult(text, metadata, generate, execute, repr).value <==>
      Successes(ChunkStatements(text, metadata, generate, repr), execute) > 0
  {
    SuccessesPositive(ChunkStatements(text, metadata, generate, repr), execute);
  }

  /**
   * With the Neo4j handler, which never raises, every statement counts as a success: the result is
   * True exactly when the answer yields at least one statement, whatever the database does.
   */
  lemma {:induction false} HandlerResultIsNonEmpty(text: Value, metadata: Value, generate: PromptFields -> string,
                                                   driver: bool, run: string -> Outcome<seq<Value>>,
                                                   repr: Value -> string)
    requires ExtractionPrompt(text, metadata, repr).Returned?
    ensures ChunkResult(text, metadata, generate, Neo4jExecute(driver, run), repr) ==
      Returned(ChunkStatements(text, metadata, generate, repr) != [])
  {
    var statements := ChunkStatements(text, metadata, generate, repr);
    if statements != [] {
      assert Neo4jExecute(driver, run)(statements[0]).Returned?;
    }
  }
}
