/** The TypeScript document agent (`server/documentAgent.ts`): both
    processing and querying are driven by workflows, processing with the
    tools `extract_content`, `split_text` and `save_to_pinecone`, querying
    with `query_pinecone` alone, and the retry helper starts at 2000 ms.
    The workflows' model and tools are parameters. */
module DocumentAgentTs {

  import opened Wrappers
  import opened Text
  import opened AgentGraph
  import opened VectorRecords
  import Retry

  /** The retry helper's default initial delay in this version. */
  const DefaultInitialDelay := 2000

  const ProcessingTools := [ExtractContent, SplitText, SaveToPinecone]
  const QueryingTools := [QueryPinecone]

  datatype ProcessResult = ProcessResult(status: string, message: string, documentId: string)
  datatype QueryResult = QueryResult(status: string, message: string)

  /** `existingDocumentId || \`doc_${random}\``: a truthy caller id is kept,
      otherwise a fresh id with the prefix `doc_` is made from the random suffix. */
  function EffectiveId(existingDocumentId: Option<string>, randomSuffix: string): (id: string)
    ensures existingDocumentId.Some? && existingDocumentId.value != "" ==> id == existingDocumentId.value
    ensures existingDocumentId.None? || existingDocumentId.value == "" ==> id == "doc_" + randomSuffix
    ensures id != ""
  {
    if existingDocumentId.Some? && existingDocumentId.value != "" then existingDocumentId.value
    else "doc_" + randomSuffix
  }

  function ProcessSeed(filePath: string, documentId: string): seq<Message>
  {
    [System(DocumentProcessing), Human("Process this document: " + filePath + " with documentId: " + documentId)]
  }

  /** `processDocument(filePath, existingDocumentId)`: runs the processing
      workflow on a request naming the file and the id; on success reports
      that id with status 'success' and the final message's text, otherwise
      rethrows the workflow's error. */
  function ProcessDocument(filePath: string, existingDocumentId: Option<string>, randomSuffix: string,
                           model: seq<Message> -> Result<Reply>, invoke: (ToolName, ToolCall) -> Content, fuel: nat): (r: Result<ProcessResult>)
    ensures var id := EffectiveId(existingDocumentId, randomSuffix);
      var run := RunGraph(model, ProcessingTools, invoke, ProcessSeed(filePath, id), fuel);
      && (r.Ok? <==> run.Ok?)
      && (r.Ok? ==> r.value == ProcessResult("success", FinalText(run.value), id))
      && (r.Err? ==> r.message == run.message)
  {
    var documentId := EffectiveId(existingDocumentId, randomSuffix);
    match RunGraph(model, ProcessingTools, invoke, ProcessSeed(filePath, documentId), fuel)
    case Err(e) => Err(e)
    case Ok(h) => Ok(ProcessResult("success", FinalText(h), documentId))
  }

  /** The id reported on success is the caller's when it is truthy and a
      `doc_` id otherwise; the message is the final reply's content as text. */
  lemma ProcessDocumentReportsId(filePath: string, existingDocumentId: Option<string>, randomSuffix: string,
                                 model: seq<Message> -> Result<Reply>, invoke: (ToolName, ToolCall) -> Content, fuel: nat)
    requires ProcessDocument(filePath, existingDocumentId, randomSuffix, model, invoke, fuel).Ok?
    ensures var r := ProcessDocument(filePath, existingDocumentId, randomSuffix, model, invoke, fuel).value;
      && r.status == "success"
      && (existingDocumentId.Some? && existingDocumentId.value != "" ==> r.documentId == existingDocumentId.value)
      && (existingDocumentId.None? || existingDocumentId.value == "" ==> StartsWith(r.documentId, "doc_"))
  {
    var r := ProcessDocument(filePath, existingDocumentId, randomSuffix, model, invoke, fuel).value;
    assert r.documentId == EffectiveId(existingDocumentId, randomSuffix);
  }

  function QuerySeed(query: string, documentId: string): (r: seq<Message>)
    ensures |r| == 2 && r[0] == System(DocumentQuerying)
    ensures r[1].Human? && EndsWith(r[1].text, " in document: " + documentId)
  {
    var tail := " in document: " + documentId;
    var text := "Find information about: \"" + query + "\"" + tail;
    assert text[|text| - |tail|..] == tail;
    [System(DocumentQuerying), Human(text)]
  }

  /** `queryDocument(query, documentId)`: runs the querying workflow and
      answers with the final message's text; workflow errors are rethrown. */
  function QueryDocument(query: string, documentId: string, model: seq<Message> -> Result<Reply>,
                         invoke: (ToolName, ToolCall) -> Content, fuel: nat): (r: Result<QueryResult>)
    ensures var run := RunGraph(model, QueryingTools, invoke, QuerySeed(query, documentId), fuel);
      && (r.Ok? <==> run.Ok?)
      && (r.Err? ==> r.message == run.message)
      && (r.Ok? ==> r.value.status == "success" && r.value.message == ContentText(run.value[|run.value| - 1].reply.content))
  {
    match RunAnswer(model, QueryingTools, invoke, QuerySeed(query, documentId), fuel)
    case Err(e) => Err(e)
    case Ok(text) => Ok(QueryResult("success", text))
  }

  /** The output is the last reply's content when it is a string and its
      serialisation when it is structured. */
  lemma QueryOutputCoercion(query: string, documentId: string, model: seq<Message> -> Result<Reply>,
                            invoke: (ToolName, ToolCall) -> Content, fuel: nat)
    requires QueryDocument(query, documentId, model, invoke, fuel).Ok?
    ensures var h := RunGraph(model, QueryingTools, invoke, QuerySeed(query, documentId), fuel).value;
      var last := h[|h| - 1].reply.content;
      var m := QueryDocument(query, documentId, model, invoke, fuel).value.message;
      && (last.Text? ==> m == last.text)
      && (last.Structured? ==> m == last.serialization)
  {
  }

  /** The querying workflow can run only `query_pinecone`; the processing
      workflow only `extract_content`, `split_text` and `save_to_pinecone`. */
  lemma WorkflowToolSets(name: string)
    ensures Bind(QueryingTools, name).Some? ==> Bind(QueryingTools, name) == Some(QueryPinecone)
    ensures Bind(QueryingTools, "direct_chat").None?
    ensures Bind(ProcessingTools, name).Some? ==>
      Bind(ProcessingTools, name).value in {ExtractContent, SplitText, SaveToPinecone}
    ensures Bind(ProcessingTools, "query_pinecone").None?
  {
  }

  /** A querying run never reaches a tool outside its set: replacing every
      other tool's behaviour leaves the answer unchanged. */
  lemma QueryingRunUsesOnlyQueryPinecone(query: string, documentId: string, model: seq<Message> -> Result<Reply>,
                                         invoke: (ToolName, ToolCall) -> Content, fuel: nat, other: Content)
    ensures var restricted := (t: ToolName, c: ToolCall) => if t == QueryPinecone then invoke(t, c) else other;
      QueryDocument(query, documentId, model, invoke, fuel) == QueryDocument(query, documentId, model, restricted, fuel)
  {
    var restricted := (t: ToolName, c: ToolCall) => if t == QueryPinecone then invoke(t, c) else other;
    RunOnlyDispatchesBoundTools(model, QueryingTools, invoke, restricted, QuerySeed(query, documentId), fuel);
  }

  /** The `query_pinecone` tool of this version sleeps 2000, 4000, 8000 and
      16000 ms at most, 30000 ms in all. */
  method QueryPineconeWithDefaults(search: nat -> Result<seq<Record>>)
    returns (outcome: Retry.RetryOutcome<seq<Record>>, calls: nat, waits: seq<nat>)
    ensures 1 <= calls <= 5 && |waits| == calls - 1 && waits <= [2000, 4000, 8000, 16000]
    ensures outcome != Retry.MaxRetriesReached
  {
    outcome, calls, waits := VectorRecords.QueryPinecone(search, DefaultInitialDelay);
    assert Retry.Pow2(1) == 2 && Retry.Pow2(2) == 4 && Retry.Pow2(3) == 8;
  }
}
