# Insurance-regulation RAG agents, modelled in Dafny

This project models the deterministic plumbing of a multi-agent system that answers questions
about insurance regulations by retrieval-augmented generation over a vector store (Qdrant) and a
knowledge graph (Neo4j). The language model, the embedder, the chunking library and the databases
are collaborators the model does not look inside. What is modelled is the control flow, ordering,
counting, merging and string shaping around them:

- the JSON-RPC 2.0 tool registry and dispatcher (`Rpc`), with error codes as in section 5.1 of the
  JSON-RPC 2.0 Specification and parameter binding as in its section 4.2, and the agents' shared
  key/value context (`AgentContext`);
- the document-metadata store, its merge against the object-store listing, and the planner's
  query routing and pending-document batch (`Metadata`, `Planner`);
- the Cypher validator, the graph builder, the extraction prompt, retrieval fusion and the
  Qdrant-to-Neo4j ingest (`CypherValidator`, `GraphBuilder`, `GraphPrompts`, `Fusion`,
  `QdrantIngest`);
- the RAG vector store's batched upload and search (`RagDb`);
- the three chunk wrappers and the text cleaner (`SharedChunking`, `ChonkieChunker`,
  `DocumentChunker`, `TextCleaner`);
- the analyzer agent, its indexing pipeline, the Chonkie-GraphRAG ingestion run and the PDF loader
  it relies on (`LlmJson`, `AnalyzerAgent`, `AnalyzerPipeline`, `IngestionRun`, `PdfLoader`).

Shared modules hold the JSON-shaped values the agents pass around (`JsonValue`), Python's string
operations (`Strings`), the library's chunk shapes (`ChunkLibrary`) and `Option`/`Outcome`
(`Wrappers`). A Python exception is `Outcome.Raised(message)`. A collaborator is a function-typed
parameter, or a datatype of them. Objects whose fields the code updates in place are classes:
`Context`, `McpHandler`, `MetadataManager`, `IngestionPipeline` and `AnalyzerPipeline`. Loops that
update variables are methods proved against specification functions over a prefix of their input.

The metadata sync is a hard sync. The comment at `agents/document_access/metadata.py:89-93`
first considers keeping records whose file left the listing, but the code drops them. The model
follows the code.

## Model

| member | source | states |
|---|---|---|
| AgentContext.Context.constructor | mcp/__init__.py:11-12 | a new context starts with an empty store |
| AgentContext.Context.Set | mcp/__init__.py:14-15 | `set(k, v)` binds `k` to `v` and every other key keeps its value |
| AgentContext.Context.Get | mcp/__init__.py:17-18 | `get` gives the stored value of a present key, and the supplied default (`None` unless given) for an absent one |
| AgentContext.Context.ToDict | mcp/__init__.py:20-21 | `to_dict` is a copy equal to the store; as a value it cannot alias the store |
| AgentContext.Context.SetThenGet | mcp/__init__.py:14-18 | after `set(k, v)`, `get(k, d)` returns `v` whatever the default `d` |
| Rpc.ParseRequestBody | core/mcp/handler.py:4-27 | every well-formed envelope a client sends (method, params, id, jsonrpc) is built back as itself |
| Rpc.ParseRequestRejects | core/mcp/handler.py:4-29 | a body that is not a dict, or lacks a string `method`, fails to build (the -32700 path) |
| Rpc.VersionIgnored | core/mcp/handler.py:5-46 | the request's `jsonrpc` value is never checked: any string gives the same method, params and id |
| Rpc.BindParams | core/mcp/handler.py:39-44 | a dict params binds by keyword, a list by position, and every other value (absent, `None`, a scalar) gives a call with no arguments, each case an if-and-only-if |
| Rpc.BindParamsOf | core/mcp/handler.py:39-44 | binding inverts the params a call shape comes from: every call shape is reachable and carries its arguments unchanged |
| Rpc.ResponseObject | core/mcp/handler.py:10-57 | `dict(exclude_none=True)`: `jsonrpc` is always "2.0", and `result`, `error` and `id` are present exactly when they are not `None`, with their values |
| Rpc.ErrorResponse | core/mcp/handler.py:53-57 | an error response has exactly `jsonrpc`, `error` = {code, message} and, unless it is `None`, the id |
| Rpc.ResultResponse | core/mcp/handler.py:10-46 | a success response never has an `error` key; its keys are `jsonrpc`, `result` unless the tool returned `None`, and `id` unless it is `None` |
| Rpc.NoneResultIsBare | core/mcp/handler.py:10-46 | a tool that returns `None` gives a response with neither `result` nor `error` |
| Rpc.McpHandler.constructor | core/mcp/handler.py:17-18 | the registry starts empty |
| Rpc.McpHandler.RegisterTool | core/mcp/handler.py:20-22 | registering binds the name, silently replaces an earlier callable, and leaves every other binding unchanged |
| Rpc.McpHandler.HandleRequest | core/mcp/handler.py:24-57 | a body that does not build gives -32700 "Parse error" with no id and calls nothing; an unregistered method gives -32601 "Method not found" with the id echoed and calls nothing; otherwise the tool is called exactly once with the bound params, its value becomes the result (no `error` key), and its exception text `str(e)` becomes a -32000 error with the id echoed; every response has `jsonrpc` "2.0" |
| Metadata.IndexShape | agents/document_access/metadata.py:48 | the filename index builds exactly when every stored record has a hashable "filename"; it then points each name at the last record carrying it, and otherwise raises `KeyError` or an unhashable-type `TypeError` |
| Metadata.IndexPointsAtLast | agents/document_access/metadata.py:48 | among stored records sharing a filename, the index entry is the last of them |
| Metadata.DirNameShape | agents/document_access/metadata.py:65-66 | `os.path.dirname` of a name is a prefix of it, empty exactly when the name has no '/' |
| Metadata.CountryOfFolder | agents/document_access/metadata.py:64-74 | a folder maps only to "Tunisia", "France", "Europe" or "Unknown" |
| Metadata.InferCountryFirstSegment | agents/document_access/metadata.py:63-74 | a name with a '/' gets the country of its lowercased first segment ("tunisia", "france", "europe" map to Tunisia, France, Europe; any other folder to "Unknown"), and a root-level name gets "Unknown" |
| Metadata.Refreshed | agents/document_access/metadata.py:55-60 | an existing record keeps every field (id, country, doc_type, status, …) except `size` and `last_modified_minio`, which come from the listing |
| Metadata.RefreshedTwice | agents/document_access/metadata.py:55-60 | refreshing twice is refreshing once from the later listing object, which is why a name listed twice shows its last refresh |
| Metadata.NewRecordFields | agents/document_access/metadata.py:76-87 | a new record has exactly the nine keys, status "pending", doc_type "Regulation", visibility "visible", the inferred country, the drawn id and timestamp, and size and modification time from the listing |
| Metadata.LastPos | agents/document_access/metadata.py:53-60 | the position of the last listed object with a given name, or -1 when there is none |
| Metadata.SyncedAt | agents/document_access/metadata.py:53-87 | the record saved at each position carries that position's listed filename and has a size and a modification time |
| Metadata.Merged | agents/document_access/metadata.py:50-87 | the merged list has one record per listed object, each as `SyncedAt` describes |
| Metadata.Sync | agents/document_access/metadata.py:37-96 | no listing raises the MinIO connection error; sync succeeds exactly when the listing is a list of objects and the index builds; the saved list then has one record per listed object, in listing order, carrying its filename |
| Metadata.SyncValue | agents/document_access/metadata.py:50-96 | each saved record is the stored one refreshed, or a new one, as `SyncedAt` says |
| Metadata.SyncKeepsStoredRecord | agents/document_access/metadata.py:55-60 | a listed name already stored keeps every field of its stored record except `size` and `last_modified_minio`, which come from the last listed object of that name |
| Metadata.SyncDistinctNames | agents/document_access/metadata.py:55-60 | when each name is listed once, a stored record is refreshed from its own listing object |
| Metadata.LastPosDistinct | agents/document_access/metadata.py:53-60 | in a listing with distinct names, the last object with a name is the only one |
| Metadata.SyncNewRecord | agents/document_access/metadata.py:61-87 | a listed name not yet stored gets a fresh record: pending, Regulation, visible, inferred country, size and time from the listing |
| Metadata.SyncDropsUnlisted | agents/document_access/metadata.py:89-96 | hard sync: a stored record whose filename is not listed is not in the saved list |
| Metadata.ResolveMerged | agents/document_access/metadata.py:53-95 | the list written out after the loop, with stored entries shared between index and output and refreshed in place, equals the merged records |
| Metadata.MergeListing | agents/document_access/metadata.py:50-87 | the merge loop with in-place refreshes produces exactly `Merged` |
| Metadata.Updated | agents/document_access/metadata.py:102-103 | `item.update(updates)` then the stamp: the keys are the union, `updates` wins, every other field is kept, and `last_updated` is the clock's value |
| Metadata.FindDoc | agents/document_access/metadata.py:100-101 | the matched position is the first record whose id equals `doc_id`; no match means every record has a different id; a record without "id" before a match raises `KeyError` |
| Metadata.Pending | agents/document_access/metadata.py:108-110 | exactly the records with status "pending", in stored order (a subsequence of the store), each as many times as it is stored, and `KeyError` when a record has no status |
| Metadata.MetadataManager.constructor | agents/document_access/metadata.py:11-24 | a metadata file that does not exist is created holding an empty list; an existing file is kept as stored, readable or not |
| Metadata.MetadataManager.LoadMetadata | agents/document_access/metadata.py:26-31 | a missing or unreadable file loads as `[]`, otherwise as its records |
| Metadata.MetadataManager.SyncWithMinio | agents/document_access/metadata.py:37-96 | the result is `Sync` of the loaded records; on success exactly the returned list is saved; when it raises (no listing, bad index, error dict) the file is not rewritten |
| Metadata.MetadataManager.UpdateDocument | agents/document_access/metadata.py:98-106 | the first record with the id gets the updates merged and `last_updated` stamped, the file is saved with only that record changed and the answer is True; an unknown id answers False without writing; a record missing "id" before the match raises |
| Metadata.UpdateKeepsIds | agents/document_access/metadata.py:98-106 | when every record has an id, an update never raises, keeps the record count, and changes no id unless `updates` sets one |
| Metadata.FindDocAfter | agents/document_access/metadata.py:100-106 | the search is decided by the first record that does not carry a different id |
| Planner.ExecutePipeline | agents/planner/agent.py:10-53 | the analysis is asked first and every call carries the original query; the search asks for 3 or 5 results; a returned pipeline made exactly three calls, ending with the summary, and returns exactly {answer, analysis unchanged, context_used = length of the context} |
| Planner.PipelineRouting | agents/planner/agent.py:17-43 | the search is reached exactly when the analysis is a dict with dict (or absent) entities, and asks for 5 results when the classification is "GraphRAG" and 3 otherwise |
| Planner.MissingClassificationIsRag | agents/planner/agent.py:20-43 | an analysis without a classification is routed as "RAG": 3 results, context labelled "RAG Context: " |
| Planner.PipelineContext | agents/planner/agent.py:27-47 | the summarised context is the label, the search result as text and a newline; both "GraphRAG" branches make the same search and differ only in the label ("GraphRAG/RAG Context: " when the lowercased query contains "compare", else "GraphRAG Context: ") |
| Planner.StatusesAppend | agents/planner/agent.py:72-117 | the status values set by a sequence of calls are those of its parts, in order |
| Planner.PendingDocs | agents/planner/agent.py:67 | the batch considers exactly the records whose status is "pending", in stored order, each as many times as it is stored |
| Planner.PendingDocsAgree | agents/planner/agent.py:67 | where every record has a status, the batch's filter and `get_pending_documents` select the same records (also `agents/document_access/metadata.py:108-110`) |
| Planner.Lines | agents/planner/agent.py:119 | `details` is a list holding the report lines in order |
| Planner.GraphIngestChunks | agents/planner/agent.py:104-107 | the graph-ingest loop makes one call per chunk, in order, until one raises |
| Planner.GraphIngestStops | agents/planner/agent.py:104-114 | once a chunk has raised, no later chunk is ingested |
| Planner.TryDocumentStep | agents/planner/agent.py:75-112 | the `try` block's calls, store writes and exception are those of its specification |
| Planner.TryFetchStep | agents/planner/agent.py:80-89 | the download-and-read part of the `try` block follows its specification |
| Planner.TryChunksStep | agents/planner/agent.py:91-112 | the chunk, vector-ingest, graph-ingest and "processed" part follows its specification |
| Planner.ProcessDocumentStep | agents/planner/agent.py:73-117 | the loop body for one document, with its `except` branch, follows its specification |
| Planner.RecordFailureStep | agents/planner/agent.py:114-117 | the `except` branch records status "error" with the exception text and the line "Failed <f>" |
| Planner.BatchStops | agents/planner/agent.py:73-117 | an exception that escapes a document ends the batch |
| Planner.IngestPendingDocuments | agents/planner/agent.py:55-119 | the report, the calls made and the metadata file afterwards are those of the batch's specification |
| Planner.NoPendingDocuments | agents/planner/agent.py:66-70 | with no pending record the batch returns {"status": "No pending documents."}, calls nothing and writes nothing |
| Planner.NoPendingRecords | agents/planner/agent.py:67-69 | records of which none has status "pending" give an empty batch |
| Planner.StatusesNoUpdates | agents/planner/agent.py:72-117 | calls other than status updates set no status |
| Planner.GraphCalls | agents/planner/agent.py:104-107 | one graph call per chunk, with that chunk's text and the document's metadata |
| Planner.GraphIngestNoUpdates | agents/planner/agent.py:104-107 | the graph-ingest loop never updates a status and makes at most one call per chunk |
| Planner.GraphIngestAll | agents/planner/agent.py:104-107 | when every chunk has a text and no build raises, every chunk is ingested exactly once, in order |
| Planner.UpdateStepReturns | agents/planner/agent.py:78-116 | an update on a store whose records all have ids returns, keeps the ids, and appends its status |
| Planner.StatusesCall | agents/planner/agent.py:72-117 | a call that is not a status update adds no status |
| Planner.TryChunksStatuses | agents/planner/agent.py:91-112 | from chunking on, the only status set is "processed", and it is set exactly when nothing raised |
| Planner.TryFetchStatuses | agents/planner/agent.py:80-112 | after the "processing" mark, the only status set is "processed", exactly when nothing raised |
| Planner.TryDocumentStatuses | agents/planner/agent.py:75-112 | the `try` block first marks the document "processing", before any download, and then sets only "processed" on success |
| Planner.TryChunksExtends | agents/planner/agent.py:91-112 | the calls after chunking extend those before |
| Planner.StatusMachine | agents/planner/agent.py:73-117 | a ready document never ends the batch; its status goes "processing" then "processed" with the line "Processed <f>", or "processing" then "error" with "Failed <f>" |
| Planner.BatchAllReady | agents/planner/agent.py:72-117 | a loop body that finishes every ready document adds one line per document, in order |
| Planner.BatchCompletes | agents/planner/agent.py:72-119 | one failure never stops the batch: with ids and filenames on every record, the report is "Ingestion Complete" with exactly one "Processed <f>" or "Failed <f>" line per pending document, in order |
| Planner.DownloadFailure | agents/planner/agent.py:82-117 | an empty download path records "error" with "Download failed" and nothing is read or chunked |
| Planner.EmptyText | agents/planner/agent.py:87-117 | empty text records "error" with "Empty or unreadable text" and nothing is chunked |
| Planner.TryChunksSucceeds | agents/planner/agent.py:91-111 | when the chunker and the ingests return, the calls are one chunking, one vector ingest, one graph build per chunk in order, then "processed" with `chunks_count` = number of chunks |
| Planner.Success | agents/planner/agent.py:73-112 | a document whose every step succeeds gets "Processed <f>" after exactly: mark processing, download, read, chunk, vector ingest, the graph builds in order, mark processed with the chunk count |
| Planner.GraphResultIgnored | agents/planner/agent.py:107 | the graph loop depends only on whether a build raised, not on what it returned |
| Planner.TryChunksIgnoresResults | agents/planner/agent.py:99-107 | the rest of the `try` block ignores what the two ingests return |
| Planner.IngestResultsIgnored | agents/planner/agent.py:99-107 | tools that return something else (a `False`, say) but raise alike give the same calls, updates and line, so a `False` never marks an error |
| CypherValidator.IsValidFirstToken | agents/graph_rag/validator.py:9-15 | `is_valid_cypher` is false for empty or whitespace-only input, and otherwise true exactly when the first whitespace token, uppercased, is one of the nine keywords |
| CypherValidator.IsValidLeadingRun | agents/graph_rag/validator.py:9-15 | for a query starting with a non-blank character, validity is decided by its leading run of non-blank characters |
| CypherValidator.KeywordLetters | agents/graph_rag/validator.py:6 | every keyword is spelt in upper-case ASCII letters |
| CypherValidator.RemoveMarker | agents/graph_rag/validator.py:24-25 | removing a fence marker and the blanks after it never lengthens the text |
| CypherValidator.RemoveMarkerAbsent | agents/graph_rag/validator.py:24-25 | text without a fence passes through unchanged |
| CypherValidator.RemoveMarkerCount | agents/graph_rag/validator.py:24-25 | fence removal keeps every occurrence of a non-blank character the marker does not contain, ';' included |
| CypherValidator.UnfencePieces | agents/graph_rag/validator.py:24-28 | fence removal never merges or splits the ';'-separated pieces |
| CypherValidator.MergeAtShape | agents/graph_rag/validator.py:49 | a match of `MERGE\s+:(\w+)` starts with "MERGE" and a blank and captures a whole non-empty run of word characters |
| CypherValidator.FixMergeChars | agents/graph_rag/validator.py:49 | the MERGE repair adds only the characters of "MERGE (:)" |
| CypherValidator.FixMergeLast | agents/graph_rag/validator.py:49 | the MERGE repair of a non-empty query ends in the query's last character or in ')' |
| CypherValidator.FixMergeAtMatch | agents/graph_rag/validator.py:49 | at a match, `MERGE :Label` becomes `MERGE (:Label)` |
| CypherValidator.FixMergeNoMatch | agents/graph_rag/validator.py:49 | where no match starts, the character is copied |
| CypherValidator.FixMergeSkips | agents/graph_rag/validator.py:49 | a prefix in which no match starts is copied unchanged |
| CypherValidator.DropTrailingRelShape | agents/graph_rag/validator.py:52 | the trailing `) :REL` cut keeps the whole query or a prefix ending in ')' |
| CypherValidator.DropTrailingRelLast | agents/graph_rag/validator.py:52 | the cut never leaves a trailing blank |
| CypherValidator.HasDanglingRelFrom | agents/graph_rag/validator.py:55 | a match of `\}\s+:\w+\s+:` at any position makes the search succeed |
| CypherValidator.HasDanglingRelAt | agents/graph_rag/validator.py:55 | a successful search has a position where the pattern matches |
| CypherValidator.FixCommonErrorsRejects | agents/graph_rag/validator.py:42-58 | `fix_common_errors` gives `None` exactly for text starting with "This ", "The ", "Here ", "Note:" or "**", or for a repaired query containing `} :X :`; what it returns is free of that pattern |
| CypherValidator.ProseNeverValid | agents/graph_rag/validator.py:33-46 | no such explanation passes the keyword test, so on the extraction path the explanation check never fires |
| CypherValidator.FixMergeFirstToken | agents/graph_rag/validator.py:33-49 | the MERGE repair keeps the leading keyword token of a valid query |
| CypherValidator.DropTrailingRelFirstToken | agents/graph_rag/validator.py:52 | the trailing cut keeps a leading keyword token |
| CypherValidator.RepairKeepsKeyword | agents/graph_rag/validator.py:49-52 | both repairs keep the leading keyword token, which stays the leading token |
| CypherValidator.RepairValid | agents/graph_rag/validator.py:33-52 | a valid query is still valid after the repairs |
| CypherValidator.RepairEnds | agents/graph_rag/validator.py:49-52 | the repairs of a stripped query starting with a keyword neither start nor end with a blank |
| CypherValidator.RepairStripped | agents/graph_rag/validator.py:49-52 | the repairs of a stripped query starting with a keyword give a stripped, non-empty query |
| CypherValidator.RepairAddsNoSemicolon | agents/graph_rag/validator.py:49-52 | the repairs introduce no ';' |
| CypherValidator.StatementKept | agents/graph_rag/validator.py:31-37 | a kept piece is stripped, non-blank, starts with a keyword, and is kept as its repair |
| CypherValidator.StatementShape | agents/graph_rag/validator.py:28-37 | every extracted statement is non-empty, trimmed, contains no ';', and begins with an allowed keyword |
| CypherValidator.Extracted | agents/graph_rag/validator.py:28-39 | there are at most as many statements as ';'-separated pieces |
| CypherValidator.ExtractedOrigins | agents/graph_rag/validator.py:28-39 | the statements keep their source order: the k-th is the repair of the k-th kept piece, at increasing positions, and every other piece is dropped |
| CypherValidator.SplitCount | agents/graph_rag/validator.py:28 | the split has one more piece than the text has ';' |
| CypherValidator.ExtractWith | agents/graph_rag/validator.py:30-39 | the extraction loop keeps what each piece contributes, in order |
| CypherValidator.ExtractCypherStatements | agents/graph_rag/validator.py:17-39 | `extract_cypher_statements` returns the statements of its specification: fences removed, split on ';', each piece kept or dropped |
| CypherValidator.SuccessesPlusErrors | agents/graph_rag/validator.py:67-77 | every statement counts once, as a success or as an error |
| CypherValidator.SuccessesPositive | agents/graph_rag/validator.py:67-73 | the success count is positive exactly when some statement runs without raising |
| CypherValidator.QueryErrorsShape | agents/graph_rag/validator.py:75 | each error is "Query Error: " followed by at most 100 characters |
| CypherValidator.ExecuteAll | agents/graph_rag/validator.py:67-75 | every statement is run exactly once, in order, with the successes counted and the errors listed |
| CypherValidator.ValidateAndExecute | agents/graph_rag/validator.py:60-77 | `validate_and_execute` runs each extracted statement once, in order, and returns (success, n_errors, errors) with success + n_errors = number of statements |
| GraphBuilder.SuccessesStep | agents/graph_rag/builder.py:30-34 | running one more statement adds one to the count exactly when it does not raise |
| GraphBuilder.ExecuteValidatedCypher | agents/graph_rag/builder.py:22-39 | every extracted statement is executed exactly once, in order, even after earlier ones raise (none when nothing is extracted), and the result is True exactly when at least one ran without raising |
| GraphBuilder.ProcessTextChunk | agents/graph_rag/builder.py:11-20 | the prompt is built, the model answers once, an empty answer returns False, and any other answer goes through the validated execution; result and statements run are those of the specification |
| GraphBuilder.EmptyAnswerRunsNothing | agents/graph_rag/builder.py:18-20 | an empty model answer returns False and makes no database call |
| GraphBuilder.ResultIsSomeSuccess | agents/graph_rag/builder.py:24-39 | the result is True exactly when some statement sent ran without raising, so an answer with no extractable statement gives False |
| GraphBuilder.ResultCountsSuccesses | agents/graph_rag/builder.py:30-39 | the result is True exactly when the success count is positive |
| GraphBuilder.HandlerResultIsNonEmpty | agents/graph_rag/builder.py:26-39 | with the Neo4j handler, which never raises, the result is True exactly when at least one statement is extracted |
| GraphPrompts.StrsFromReturned | agents/graph_rag/prompts.py:55-56 | `join` succeeds exactly when every item is a string, and then yields their texts in order |
| GraphPrompts.StrsFromRaised | agents/graph_rag/prompts.py:55-56 | when `join` raises, it names the first item that is not a string |
| GraphPrompts.JoinedStrings | agents/graph_rag/prompts.py:55-56 | a list of strings joins to its items with the separator between them |
| GraphPrompts.FalsyMetadataDefaults | agents/graph_rag/prompts.py:44-59 | `None` (or any falsy) metadata is treated as empty: country "Unknown", policy_type "General", clause_type "Requirement", summary "", no keywords or requirements, and the text cut to 1500 |
| GraphPrompts.AbsentKeysDefault | agents/graph_rag/prompts.py:44-52 | a dict without any of the six keys gives the same prompt as no metadata |
| GraphPrompts.NonDictMetadataRaises | agents/graph_rag/prompts.py:44-45 | truthy metadata that is not a dict makes `.get` raise |
| GraphPrompts.TextTruncated | agents/graph_rag/prompts.py:59 | the inserted text is a prefix of the text: the text itself within 1500 characters, exactly 1500 characters beyond (the limit is the constant at line 3) |
| GraphPrompts.SummaryTruncated | agents/graph_rag/prompts.py:60 | the inserted summary is the first 500 characters of a string summary (the limit is the constant at line 4) |
| GraphPrompts.ListsJoined | agents/graph_rag/prompts.py:51-56 | keyword lists are joined with ", " and requirement lists with "; " |
| GraphPrompts.KeywordItemRaises | agents/graph_rag/prompts.py:55 | a keyword list holding a non-string raises the `TypeError` naming its first such item |
| Fusion.VectorSearch | agents/graph_rag/fusion.py:25-30 | a search that raises yields no hits |
| Fusion.SummaryTerms | agents/graph_rag/fusion.py:62-63 | a summary contributes at most its first five whitespace tokens |
| Fusion.HitTermsBound | agents/graph_rag/fusion.py:58-63 | each hit contributes at most its country and five summary words |
| Fusion.GatherStops | agents/graph_rag/fusion.py:54-63 | once a hit has raised, later hits change nothing |
| Fusion.GatherSeeds | agents/graph_rag/fusion.py:52-63 | the first loop keeps each hit's payload and appends its seed terms, hit by hit in hit order, until a hit raises |
| Fusion.GatheredBounds | agents/graph_rag/fusion.py:52-63 | one payload per hit, and at most six seed terms per hit |
| Fusion.SummaryTermsTruthy | agents/graph_rag/fusion.py:62-63 | every summary word is a non-empty term |
| Fusion.HitTermsTruthy | agents/graph_rag/fusion.py:58-63 | every term a hit contributes is truthy: a truthy country or a summary word |
| Fusion.SeedTermsTruthy | agents/graph_rag/fusion.py:52-63 | every seed term sent to the graph is truthy |
| Fusion.ExpandGraph | agents/graph_rag/fusion.py:32-42 | exactly one query per seed term, in seed order, with the rows concatenated and a `None` answer counting as empty |
| Fusion.ExpandedAppend | agents/graph_rag/fusion.py:34-42 | the evidence of two term lists is the concatenation of theirs: every row kept, in term order, without deduplication |
| Fusion.ExpandedEmpty | agents/graph_rag/fusion.py:40-41 | terms whose queries answer `None` or nothing add no evidence |
| Fusion.Summaries | agents/graph_rag/fusion.py:69 | one summary per payload |
| Fusion.DocsValue | agents/graph_rag/fusion.py:57-79 | `vector_hits` is a list with one payload per hit |
| Fusion.Retrieve | agents/graph_rag/fusion.py:44-79 | `retrieve` returns the answer of its specification and queries the graph with exactly the seed terms, in order |
| Fusion.FailedSearchQueriesNothing | agents/graph_rag/fusion.py:26-66 | a failed search gives no hits, no seed terms and no graph query; the answer has empty `vector_hits` and `graph` |
| Fusion.RetrievedShape | agents/graph_rag/fusion.py:66-79 | the answer has exactly the keys `vector_hits`, `graph` and `synthesis`; one payload per hit; the graph is the evidence of the seed terms; the synthesis answers a prompt whose graph text is a prefix of at most 2000 characters of `str(graph)` |
| Fusion.NonStringSummaryRaises | agents/graph_rag/fusion.py:69 | a summary that is not a string, even a falsy one, makes the context join raise |
| QdrantIngest.Offsets | agents/graph_rag/qdrant_ingest.py:27-42 | the pages requested are at offsets 0, 100, 200, … |
| QdrantIngest.TalliedStops | agents/graph_rag/qdrant_ingest.py:47-62 | once a point has raised, later points change nothing |
| QdrantIngest.TalliedPrefix | agents/graph_rag/qdrant_ingest.py:47-62 | appending points leaves the count over earlier points untouched |
| QdrantIngest.PageStep | agents/graph_rag/qdrant_ingest.py:30-42 | requesting one more page appends its offset and its points, and a non-empty page lets the scroll go on |
| QdrantIngest.IngestPage | agents/graph_rag/qdrant_ingest.py:39-62 | the points of one page are counted in order, until one raises |
| QdrantIngest.IngestAll | agents/graph_rag/qdrant_ingest.py:25-64 | pages are requested at offsets 0, 100, 200, … and the scroll stops at the first empty page (every earlier page is non-empty); the report {total, ingested} counts every point of those pages, in order, unless an exception escapes |
| QdrantIngest.PageIndependentScrollNeverEnds | agents/graph_rag/qdrant_ingest.py:28-42 | when every request returns the same non-empty page, no offset gives an empty page, so the scroll loop has no last page |
| QdrantIngest.FirstEmptyPageUnique | agents/graph_rag/qdrant_ingest.py:36-37 | the page count the scroll stops at is determined: the first empty page |
| QdrantIngest.TallyBounds | agents/graph_rag/qdrant_ingest.py:53-64 | `total` is the number of builder calls, each with a truthy text, and `ingested` ≤ `total` |
| QdrantIngest.TextPrefersOriginal | agents/graph_rag/qdrant_ingest.py:48-50 | a point's text is `original_text` when that is truthy, otherwise `text` |
| QdrantIngest.TextlessSkipped | agents/graph_rag/qdrant_ingest.py:53-54 | a point without text is skipped, is not counted in `total`, and the builder is not called |
| QdrantIngest.DictBuildErrorContinues | agents/graph_rag/qdrant_ingest.py:56-62 | a builder exception for a dict point is logged; the point counts in `total`, not in `ingested`, and iteration goes on |
| QdrantIngest.RecordBuildErrorEscapes | agents/graph_rag/qdrant_ingest.py:61-62 | a builder exception for a record point escapes, because the log line calls `.get` on the record |
| RagDb.BuildPoints | agents/rag/db.py:26-36 | the point-building loop makes one point per chunk, in order, until a chunk raises |
| RagDb.PointsStop | agents/rag/db.py:27-36 | once a chunk has raised, later chunks change nothing |
| RagDb.PointsPerChunk | agents/rag/db.py:26-36 | exactly one point per chunk, in order, each with payload `{"text": text, **metadata}` and its own fresh `uuid4()` id, so re-ingesting a chunk adds a new point |
| RagDb.PayloadKeys | agents/rag/db.py:35 | the payload holds every metadata key unchanged plus "text"; a metadata key named "text" overrides the chunk text |
| RagDb.UploadBatches | agents/rag/db.py:42-55 | the batches are upserted in order; the first failing batch returns False at once, later batches are not attempted and earlier ones stay uploaded; True exactly when every batch was uploaded |
| RagDb.IngestChunks | agents/rag/db.py:24-55 | zero chunks return False without any upsert; otherwise the batches are uploaded as above, and True means points were non-empty and every batch upsert succeeded |
| RagDb.BatchesNonEmpty | agents/rag/db.py:38-45 | there is a batch exactly when there are points |
| RagDb.FailedBatchLast | agents/rag/db.py:51-53 | the batches sent up to a failure form a prefix of all batches, with all but the last uploaded |
| RagDb.BatchesCover | agents/rag/db.py:42-45 | batches are consecutive slices covering all points in order, each of 1 to `batch_size` points, only the last possibly short |
| RagDb.BatchCount | agents/rag/db.py:42-50 | there are ceil(total / batch_size) batches |
| RagDb.SearchResults | agents/rag/db.py:57-67 | `search` returns one {text, score, metadata = whole payload} per hit, in hit order, and raises exactly when a payload has no "text" |
| SharedChunking.Wrapped | agents/shared/chunking.py:27-38 | one output per library chunk |
| SharedChunking.ChunkText | agents/shared/chunking.py:26-40 | the loop emits, in chunk order, the wrapped chunk with its index |
| SharedChunking.WrappedShape | agents/shared/chunking.py:30-38 | the i-th output has exactly `text` and `metadata`; its text is `chunk.text`, or `str(chunk)` when absent; its `metadata["chunk_id"]` is i and every other caller key is copied unchanged |
| SharedChunking.ChunkIdsDistinct | agents/shared/chunking.py:30-33 | outputs at distinct positions differ, since their chunk ids do |
| ChonkieChunker.Wrapped | ingestion/chonkie_chunker.py:28-41 | one output per library chunk |
| ChonkieChunker.ChunkText | ingestion/chonkie_chunker.py:21-43 | the loop emits, in chunk order, each chunk wrapped with its own metadata copy |
| ChonkieChunker.ChunkIdRule | ingestion/chonkie_chunker.py:31-36 | `chunk_id` is set to the library id only when that id is truthy; otherwise the caller's metadata, including any inherited `chunk_id`, is kept; every other key is copied; the text is `chunk.text`, or `str(chunk)` |
| DocumentChunker.DocChunks | processing/chunker.py:51-66 | one new document per library chunk of a document |
| DocumentChunker.ChunkDocuments | processing/chunker.py:33-68 | the nested loop yields, in document order, each document's chunks in chunk order, with `page_content` = `chunk.text` or `str(chunk)` and metadata a copy with `chunk_id` added only when the chunk has an `id` |
| DocumentChunker.ChunkedLength | processing/chunker.py:39-68 | the output length is the sum of the per-document chunk counts |
| DocumentChunker.FallbackChunksNothing | processing/chunker.py:2-8 | with the fallback chunker, used when the library is absent, the output is empty |
| DocumentChunker.ChunkedProvenance | processing/chunker.py:57-64 | every output's metadata is that of some source document, with at most `chunk_id` added or replaced; the source metadata is a value and is never mutated |
| TextCleaner.BlankPageNumbers | processing/cleaner.py:11 | the page-number substitution as modelled empties each digit-only line and keeps every other line, so the line count is unchanged (also `ingestion/cleaner.py:10`) |
| TextCleaner.StripCollapse | processing/cleaner.py:18 | collapsing whitespace runs and stripping leaves exactly the text's words joined by single spaces (also `ingestion/cleaner.py:13`) |
| TextCleaner.CollapseWordFirst | processing/cleaner.py:18 | on a text not starting with a blank, the collapse is its words joined by " ", plus one space if it ends in a blank |
| TextCleaner.WordsAroundSpace | processing/cleaner.py:18 | a blank separates words: the words of `a + c + b` are those of `a` then those of `b` |
| TextCleaner.WordsOfLines | processing/cleaner.py:11-18 | the words of the lines joined by newlines are the lines' words in order |
| TextCleaner.BlankedWords | processing/cleaner.py:11 | after the substitution, the words left are those of the lines that are not page numbers |
| TextCleaner.CleanTextWords | processing/cleaner.py:5-20 | `clean_text` is the words of every line that is not a lone page number, in order, joined by single spaces (also `ingestion/cleaner.py:5-15`) |
| TextCleaner.JoinWordsEnds | processing/cleaner.py:18 | words joined by " " are empty only for no words, and start and end with a non-blank |
| TextCleaner.JoinWordsSpacing | processing/cleaner.py:18 | in words joined by " ", each blank is a single ' ' between two non-blanks |
| TextCleaner.CleanTextShape | processing/cleaner.py:18 | the output has no leading or trailing whitespace, never two consecutive whitespace characters, and every whitespace character in it is ' ' (also `ingestion/cleaner.py:13`) |
| TextCleaner.PageLineDropped | processing/cleaner.py:11 | a line of digits with optional surrounding whitespace contributes nothing: removing it leaves the output unchanged (also `ingestion/cleaner.py:10`) |
| TextCleaner.CleanTextAddsNothing | ingestion/cleaner.py:10-13 | cleaning only deletes characters and replaces whitespace runs: every non-blank character of the output occurs in the input (also `processing/cleaner.py:11-18`) |
| TextCleaner.StripPadded | processing/cleaner.py:18 | stripping blanks around a text that starts and ends with a non-blank gives the text back |
| TextCleaner.MarkerHereIff | processing/cleaner.py:30 | the match attempt at a position succeeds exactly when "page", in any case, is followed there by blanks and a digit |
| TextCleaner.FindPageMarkerIff | processing/cleaner.py:30 | `re.search` finds the marker exactly when it matches at some position |
| TextCleaner.HeaderOrFooterIff | processing/cleaner.py:23-32 | `is_header_or_footer` is true exactly when the stripped line is shorter than 5 characters or contains "Page", in any case, followed by whitespace and digits |
| LlmJson.FirstIndexShape | agents/analyzer/agent.py:41 | the first index of a character holds it and no earlier position does; no index means the character is absent (also `ingestion/pipeline.py:19-27`) |
| LlmJson.LastIndexShape | agents/analyzer/agent.py:41 | the last index of a character holds it and no later position does (also `ingestion/pipeline.py:19-27`) |
| LlmJson.BraceSpanSpec | agents/analyzer/agent.py:41-42 | `\{.*\}` with DOTALL matches exactly when some '{' precedes some '}', and the match runs from the first '{' through the last '}', newlines included (also `ingestion/pipeline.py:22-24`) |
| AnalyzerAgent.AnalyzeResponseCases | agents/analyzer/agent.py:39-48 | a candidate that parses is returned as is, with no field validation; no braces, or a parse failure, gives exactly {"is_valid": True, "classification": "RAG", "entities": {}} |
| AnalyzerAgent.AnalyzeQueryReturns | agents/analyzer/agent.py:31-48 | `analyze_query(query)`, by keyword or by position, never raises: it returns what the answer reads as |
| AnalyzerAgent.FallbackRoutesToRag | agents/analyzer/agent.py:47-48 | the fallback has exactly three keys, is valid, is classified "RAG" and has no entities |
| AnalyzerAgent.RegisterAnalyzerTools | agents/analyzer/agent.py:50-61 | the module registers "analyze_query" and then "analyzer.process_new_files", which returns what `pipeline.process_new_files()` returns; other bindings are kept |
| AnalyzerPipeline.ChunksStop | agents/analyzer/pipeline.py:115-133 | once building a chunk's point has raised, the later chunks change nothing |
| AnalyzerPipeline.BatchStops | agents/analyzer/pipeline.py:142-143 | once a file has raised, the later files change nothing |
| AnalyzerPipeline.ChunkStep | agents/analyzer/pipeline.py:115-133 | a chunk whose point raises ends the loop with that exception and no upsert for it; otherwise its upserts are appended |
| AnalyzerPipeline.FileStep | agents/analyzer/pipeline.py:142-143 | a file whose processing raises ends the batch with that exception; otherwise its result is appended |
| AnalyzerPipeline.AnalyzerPipeline.constructor | agents/analyzer/pipeline.py:19-32 | the pipeline holds its loader and its collection name |
| AnalyzerPipeline.AnalyzerPipeline.BuildPoint | agents/analyzer/pipeline.py:116-130 | the summary, then the requirements, then the embedding, then the id and the payload are computed in that order, the first exception ending the chunk |
| AnalyzerPipeline.AnalyzerPipeline.IndexChunks | agents/analyzer/pipeline.py:115-133 | every chunk's point is built and upserted in chunk order until one raises, which escapes |
| AnalyzerPipeline.AnalyzerPipeline.ProcessFile | agents/analyzer/pipeline.py:106-137 | `process_file`: its upserts and its result; the processed map gains the file mapped to True, and the store is rewritten, exactly when the file is marked; otherwise neither changes |
| AnalyzerPipeline.AnalyzerPipeline.ProcessNewFiles | agents/analyzer/pipeline.py:139-144 | `process_new_files`: every new file in listing order, one result each; the first exception escapes and the results gathered so far are lost, while the files already marked stay marked |
| AnalyzerPipeline.CollectionDefaults | agents/analyzer/pipeline.py:15-32 | without a `qdrant` section or a `collection` in it the collection is "regulations_chunks"; a `qdrant` section that is not a dict raises |
| AnalyzerPipeline.IdBaseShape | agents/analyzer/pipeline.py:75-76 | the hashed base is file name, chunk id and the text's first 64 characters joined by '-', a missing key reading as '' |
| AnalyzerPipeline.SamePrefixSameId | agents/analyzer/pipeline.py:75-77 | chunks with equal file name, chunk id and first 64 characters get the same id, so the later upsert overwrites the earlier point |
| AnalyzerPipeline.SeparatorCollision | agents/analyzer/pipeline.py:76 | file "a-b" with chunk id "c" and file "a" with chunk id "b-c" hash the same base: different chunks, same id |
| AnalyzerPipeline.PayloadFields | agents/analyzer/pipeline.py:125-130 | the payload has exactly the keys summary, original_text, requirements and metadata, holding those values |
| AnalyzerPipeline.UpsertAttempts | agents/analyzer/pipeline.py:94-104 | `_upsert_chunk` never raises; it makes at most two upserts of the same point to the same collection: none when the point is rejected, a retry exactly when the first upsert raised |
| AnalyzerPipeline.NonStringChunkRaises | agents/analyzer/pipeline.py:83-120 | a chunk whose text is not a string raises the concatenation `TypeError` from the requirements prompt |
| AnalyzerPipeline.ChunkErrorIgnoresUpserts | agents/analyzer/pipeline.py:115-133 | which exception ends the chunk loop depends only on the points built, never on how the upserts fare |
| AnalyzerPipeline.ResultIgnoresUpserts | agents/analyzer/pipeline.py:94-137 | the result of `process_file`, and whether it marks the file, are the same whatever Qdrant does with the points: upsert failures are invisible |
| AnalyzerPipeline.NoDocsUnmarked | agents/analyzer/pipeline.py:107-109 | a file that yields no pages returns {"status": "no_docs"}, makes no upsert and is not marked |
| AnalyzerPipeline.ChunksIndexedIsChunkCount | agents/analyzer/pipeline.py:112-137 | a file with pages is marked exactly when it returns, and `chunks_indexed` is then the number of chunks made of its pages, counting attempts and not writes |
| AnalyzerPipeline.UpsertsPerChunkBound | agents/analyzer/pipeline.py:115-133 | with at most k upserts per point the loop makes at most k per chunk |
| AnalyzerPipeline.FileUpsertsBound | agents/analyzer/pipeline.py:94-137 | `process_file` makes at most two upserts per chunk |
| AnalyzerPipeline.OneUpsertPerChunk | agents/analyzer/pipeline.py:115-133 | with one upsert per point a completed loop sends each chunk's point once, in chunk order |
| AnalyzerPipeline.HealthyUpsertsOnce | agents/analyzer/pipeline.py:94-137 | with a Qdrant that accepts every point and upsert, a marked file gets exactly one first-attempt upsert per chunk, in chunk order, of that chunk's point |
| AnalyzerPipeline.OneResultPerFile | agents/analyzer/pipeline.py:139-144 | a batch that completes returns one result per new file, each what `process_file` returned for it, in order |
| AnalyzerPipeline.BatchRaisedAt | agents/analyzer/pipeline.py:142-143 | a batch that raises raised at some file, every earlier file having returned |
| AnalyzerPipeline.BatchMarks | agents/analyzer/pipeline.py:136-143 | after a completed batch a name is processed exactly when it was before or the batch marked it; marked names map to True and the others keep their values |
| IngestionRun.SequencedStops | ingestion/pipeline.py:39-73 | once a step has raised, the later steps change nothing |
| IngestionRun.SequencedStep | ingestion/pipeline.py:39-73 | a step that raises ends the run with its steps so far and that exception; otherwise its steps are appended |
| IngestionRun.MarkAllAppend | ingestion/pipeline.py:73 | marking the files of two runs in turn is marking the files of both |
| IngestionRun.MarkOnly | ingestion/pipeline.py:73 | steps that mark no file but one leave that file marked exactly when one of them marks it, and every other entry alone |
| IngestionRun.PageTraceAt | ingestion/pipeline.py:48-70 | the trace of page i of a file is that page's own run |
| IngestionRun.RunChunks | ingestion/pipeline.py:58-70 | the chunk loop: each chunk's text is turned into a prompt and sent to the model, and a non-empty answer is built into the graph, until a missing "text" key, a model exception or a builder exception escapes |
| IngestionRun.ModelFailureStopsChunk | ingestion/pipeline.py:65 | a model call that raises (`RuntimeError` when the model is not loaded, `models/hf_client.py:84-85`) ends the run at that chunk, after the call and before any build |
| IngestionRun.RunPage | ingestion/pipeline.py:48-70 | one page: its content cleaned (a non-string content raises), chunked with a copy of its metadata, then the chunk loop |
| IngestionRun.RunPages | ingestion/pipeline.py:48-70 | the page loop runs every page in order until one raises |
| IngestionRun.RunFile | ingestion/pipeline.py:42-73 | one file: a load that raises escapes; no pages skips the file unmarked; otherwise every page, then the processed mark, which is the only change to the loader's map. The processed-files store is rewritten to hold that map exactly when the file is marked and is untouched otherwise, and no temporary file is left behind |
| IngestionRun.Run | ingestion/pipeline.py:29-76 | `run()`: no new file returns at once; otherwise each new file in listing order, then the builder is closed; the loader's map ends up with exactly the run's marks applied. The processed-files store holds that map if any file was marked; otherwise the store and the map are both untouched. The run leaves no new temporary file |
| IngestionRun.PageTraceUnmarked | ingestion/pipeline.py:48-70 | a page only calls the model and builds the graph |
| IngestionRun.SequencedModelSteps | ingestion/pipeline.py:48-70 | steps made only of model calls and graph builds stay so when run in sequence |
| IngestionRun.PagesUnmarked | ingestion/pipeline.py:48-70 | a file's pages only call the model and build the graph |
| IngestionRun.SequencedNoClose | ingestion/pipeline.py:39-75 | steps that never close the builder never close it in sequence |
| IngestionRun.FileMarkedLast | ingestion/pipeline.py:42-73 | a file is marked processed only as its last step, after all its pages, and only when nothing raised; a file with pages that completes is marked; a file never closes the builder |
| IngestionRun.SkippedFileUnmarked | ingestion/pipeline.py:42-46 | a file that loads no page is skipped: no step, no mark, no exception |
| IngestionRun.ClosedOnceAtEnd | ingestion/pipeline.py:36-75 | the builder is closed exactly when there were new files and nothing raised, once, as the very last step |
| IngestionRun.MarkAllSpec | ingestion/pipeline.py:73 | after the marks a name is processed exactly when it was before or was marked; marked names map to True, the others keep their values |
| IngestionRun.BuildsAnsweredAppend | ingestion/pipeline.py:65-68 | runs that build only non-empty model answers keep doing so when concatenated |
| IngestionRun.SequencedBuildsAnswered | ingestion/pipeline.py:65-68 | steps that build only non-empty model answers keep doing so in sequence |
| IngestionRun.ChunksBuildsAnswered | ingestion/pipeline.py:58-70 | the chunk loop builds only the non-empty answer to the prompt just sent |
| IngestionRun.PageBuildsAnswered | ingestion/pipeline.py:48-70 | a page builds only the non-empty answer to the prompt just sent |
| IngestionRun.PagesBuildsAnswered | ingestion/pipeline.py:48-70 | a file's pages build only the non-empty answer to the prompt just sent |
| IngestionRun.FileBuildsAnswered | ingestion/pipeline.py:42-73 | a file builds only the non-empty answer to the prompt just sent |
| IngestionRun.RunBuildsAnswered | ingestion/pipeline.py:29-76 | over the whole run the graph is built only from a non-empty model answer, right after the model call that produced it |
| IngestionRun.ModelCallsAppend | ingestion/pipeline.py:65 | model calls add up over concatenated runs |
| IngestionRun.OneModelCallPerChunk | ingestion/pipeline.py:58-70 | a chunk loop that completes calls the model exactly once per chunk, whether or not the answer is empty |
| IngestionRun.AnalyzerAgreesWithParse | ingestion/pipeline.py:19-27 | `analyze_query` reads an answer exactly as `parse_json_from_llm` does, the fixed fallback standing for None (also `agents/analyzer/agent.py:39-48`) |
| IngestionRun.ParseJsonNeedsBraces | ingestion/pipeline.py:19-27 | without a '{' before a '}' there is nothing to parse and the result is None |
| PdfLoader.IngestionPipeline.constructor | ingestion/pdf_loader.py:7-16 | the processed map is the stored one when the store exists and empty otherwise; no temporary file exists yet |
| PdfLoader.IngestionPipeline.GetNewFiles | ingestion/pdf_loader.py:22-26 | the new files are the listed names not in the processed map, in listing order |
| PdfLoader.IngestionPipeline.DownloadAndLoad | ingestion/pdf_loader.py:28-52 | a download that raises lets its exception escape, and one that reports failure returns None; neither leaves a temporary file. Otherwise the loader's exception escapes or every page comes back enriched, and the temporary file is removed either way |
| PdfLoader.IngestionPipeline.MarkAsProcessed | ingestion/pdf_loader.py:54-56 | the name maps to True, every other entry is unchanged, and the store holds the new map, as `_save_processed_files` (lines 18-20) writes it |
| PdfLoader.NewFilesMembers | ingestion/pdf_loader.py:25 | a name is new exactly when it is listed and not processed, so a marked name is never new again |
| PdfLoader.NewFilesAppend | ingestion/pdf_loader.py:25 | the filter keeps the listing's order: the new files of a concatenation are the concatenation of the new files |
| PdfLoader.TempPathShape | ingestion/pdf_loader.py:30 | the temporary path is "temp_" followed by the object name with every '/' turned into '_', so it holds no '/' and keeps every other character in place |
| PdfLoader.EnrichedFields | ingestion/pdf_loader.py:41-47 | `source_path` is the object name, `filename` its last '/'-segment; `country` is the first segment exactly when the name holds a '/', and is left as it was otherwise; every other key is unchanged |

## Left out

- TextCleaner.DropPageNumbers: the page-number substitution is modelled line by line. With `re.MULTILINE`, the source's `\s*` can also span newlines, so it removes blank lines and newlines next to a page-number line: `'5\n\n7'` becomes `''` where the model gives `'\n\n'`. Both remove the same non-whitespace characters, and the removed text always lies between two newlines that remain. So only the intermediate string differs, not the words `clean_text` returns. That equivalence is argued here, not proved: the regex itself is not modelled.
- Asynchronous tools: `handle_request` awaits a coroutine tool and calls a plain one (`core/mcp/handler.py:40-44,59-61`). Both give the same outcome, so a tool is one function from its arguments to an outcome.
- Rpc.ParseRequestRejects: pydantic's envelope validation is approximated. The body must be a dict whose `method` is a string and whose `jsonrpc`, when present, is a string. Pydantic's coercions and its other checks on `params` and `id` are not modelled.
- Exception messages: `str(e)` of Python's built-in errors is approximated by fixed texts. This covers `KeyErrorMessage`, `NoGetMessage`, `NotStringMessage`, `ConcatMessage`, `RecordNoGetMessage`, `PointNoGetMessage`, `ZeroStepMessage`, `UnhashableMessage`, `NoSplitMessage`, `NoLenMessage`, `SliceDictMessage`, `NotMappingMessage` and `Metadata.StringIndexError`. Only their presence and where they go are modelled, not their exact wording in every Python version. `AnalyzerAgent.ArityMessage` is one text standing for three different `TypeError`s: a missing argument, too many positional arguments, and an unexpected keyword argument. Their `str(e)` reaches the -32000 error response verbatim (`core/mcp/handler.py:48-51`), so the model says when a call raises, not which of the three messages the client sees.
- Character classes: `upper`/`lower` and `\d`/`\w` are ASCII-only. `\s` and `str.isspace` are one fixed set of code points (`Strings.IsSpace`). Unicode case mapping, other digits and word characters, and normalisation are not modelled.
- Regular expressions are modelled by their effect on the string (`MERGE\s+:(\w+)`, the trailing-relationship pattern, the page-marker patterns, `\{.*\}` with DOTALL). The regex engine is not modelled.
- Prompt templates: the fixed wording of the extraction, summary and synthesis templates is not reproduced. A prompt is the tuple of the values substituted into it, except for the two analyzer-pipeline preambles, which are spelled out.
- Collaborators are function parameters: the language model, the embedder (vectors are opaque), the semantic chunking library, Qdrant, Neo4j, MinIO, the PDF reader, the JSON parser, SHA-1, `uuid4` and the clock (a timestamp parameter). What they compute is not modelled. A collaborator whose result type is an `Outcome` may raise, as the model call and the MinIO download do. One typed without an `Outcome` (the chunking library, prompt templates, ids, the clock) is assumed not to raise. That leaves out failures of those libraries that the source does not catch either.
- QdrantIngest.IngestAll: the `get` fallback when `scroll` raises (`agents/graph_rag/qdrant_ingest.py:31-33`) is not modelled. Neither is unwrapping `res.points` or `res.get('result')` (`agents/graph_rag/qdrant_ingest.py:35`): a page is the list of points at an offset. Termination rests on a ghost page index at which the collection is empty. The source's `while True` has no such page when `scroll` keeps raising on a non-empty collection: the fallback ignores the offset and returns the same first page each time, so those points are ingested again forever. `QdrantIngest.PageIndependentScrollNeverEnds` states that such a collection has no empty page at any offset. The model therefore leaves this non-terminating run out.
- The Neo4j driver's `execute_query` result convention is abstracted: a statement either returns or raises.
- Tools in the analyzer's and planner's registries are called as pure functions of their arguments.
- AnalyzerPipeline.AnalyzerPipeline.constructor: the configuration file is read into a value, and the collection bootstrap (`agents/analyzer/pipeline.py:34-73`) is left out. It only creates the Qdrant collection and swallows every error, and the dimension it uses never reaches a modelled result.
- The embedding's `tolist()` conversion is left out: a vector is passed to Qdrant as the embedder returned it.
- Qdrant's validation of point ids is the `accepts` parameter.
- The processed-files store of the PDF loader is assumed to hold a JSON object. A store holding another JSON value is not modelled.
- Disk persistence is state: the metadata file and the processed-files store are fields holding what the code last wrote. For the metadata file, the field is `None` when the file exists but cannot be read or parsed, which `load_metadata` treats as `[]`. Whether the file exists is a constructor argument, and creating its directory is left out.
- Temporary files are a ghost set of paths. The file-system calls themselves are left out.
- `print`, logging and `traceback.print_exc` produce no observable state and are left out.
