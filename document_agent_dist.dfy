/** The compiled document agent (`server/dist/documentAgent.js`): documents
    are processed directly (extract, split, write records) rather than by the
    processing workflow, queries go through the querying workflow whose tools
    are `query_pinecone` and `direct_chat`, and `chatWithContext` combines
    several documents. External services are parameters: `extract` is the
    file handler, `split` the text splitter, `addDocuments` the index write,
    `creative` the temperature-0.7 chat model, `model`/`invoke` the querying
    workflow's model and tools. */
module DocumentAgentDist {

  import opened Wrappers
  import opened Text
  import opened AgentGraph
  import opened VectorRecords
  import Retry

  /** The retry helper's default initial delay in this version. */
  const DefaultInitialDelay := 1000

  const ProcessingTools := [ExtractContent, SplitText, SaveToPinecone]
  const QueryingTools := [QueryPinecone, DirectChat]

  datatype ProcessResult = ProcessResult(status: string, documentId: string)
  datatype QueryResult = QueryResult(status: string, message: string)
  datatype ChatResult = ChatResult(status: string, message: string)

  const QueryRequiredMessage := "Query is required"

  /** The records `processDocument` writes: one per chunk, with exactly the
      metadata `{documentId, chunkIndex}`. */
  function DocumentRecords(chunks: seq<string>, documentId: string): seq<Record>
  {
    ChunkRecords(chunks, documentId, map[])
  }

  /** `processDocument(filePath, documentId)`: extraction or write failures
      are rethrown; on success the id it was given comes back unchanged. */
  function ProcessDocument(filePath: string, documentId: string, extract: string -> Result<string>,
                           split: string -> seq<string>, addDocuments: seq<Record> -> Completion): (r: Result<ProcessResult>)
    ensures r.Ok? ==> r.value == ProcessResult("success", documentId)
    ensures r.Err? <==> extract(filePath).Err? || addDocuments(DocumentRecords(split(extract(filePath).value), documentId)).Threw?
    ensures extract(filePath).Err? ==> r == Err(extract(filePath).message)
    ensures extract(filePath).Ok? && addDocuments(DocumentRecords(split(extract(filePath).value), documentId)).Threw? ==>
      r == Err(addDocuments(DocumentRecords(split(extract(filePath).value), documentId)).message)
  {
    match extract(filePath)
    case Err(e) => Err(e)
    case Ok(content) =>
      match addDocuments(DocumentRecords(split(content), documentId))
      case Threw(e) => Err(e)
      case Done => Ok(ProcessResult("success", documentId))
  }

  /** The records of `processDocument` are those `save_to_pinecone` writes
      with no caller metadata: record `i` holds chunk `i` and its metadata is
      exactly the document id and `i`. */
  lemma DocumentRecordsExact(chunks: seq<string>, documentId: string, i: nat)
    requires i < |chunks|
    ensures var r := DocumentRecords(chunks, documentId);
      |r| == |chunks| && r[i] == Record(chunks[i], map[DocumentIdKey := SString(documentId), ChunkIndexKey := SNumber(i)])
  {
  }

  /** The direct chat call shared by the `direct_chat` tool and
      `chatWithContext`: the creative model sees the helpful-assistant prompt
      and the query, and its content is returned as text. */
  function DirectChatReply(query: string, creative: seq<Message> -> Result<Content>): (r: Result<string>)
    ensures creative([System(HelpfulAssistant), Human(query)]).Ok? ==>
      r == Ok(ContentText(creative([System(HelpfulAssistant), Human(query)]).value))
    ensures creative([System(HelpfulAssistant), Human(query)]).Err? ==>
      r == Err(creative([System(HelpfulAssistant), Human(query)]).message)
  {
    match creative([System(HelpfulAssistant), Human(query)])
    case Ok(c) => Ok(ContentText(c))
    case Err(e) => Err(e)
  }

  /** JavaScript truthiness of an optional document id. */
  predicate HasId(documentId: Option<string>)
  {
    documentId.Some? && documentId.value != ""
  }

  /** The two messages `queryDocument` seeds the querying workflow with: the
      retrieval prompt and a request naming the document when there is an id,
      the direct-chat prompt and the bare query otherwise. */
  function QuerySeed(query: string, documentId: Option<string>): (r: seq<Message>)
    ensures |r| == 2 && r[1].Human?
    ensures r[0] == System(if HasId(documentId) then DocumentQuerying else DirectChatRouting)
  {
    if HasId(documentId) then
      [System(DocumentQuerying), Human("Find information about: \"" + query + "\" in document: " + documentId.value)]
    else
      [System(DirectChatRouting), Human("Please respond to this query: \"" + query + "\"")]
  }

  /** `queryDocument(query, documentId)`: runs the querying workflow and
      answers with the text of its final message; workflow errors are rethrown. */
  function QueryDocument(query: string, documentId: Option<string>, model: seq<Message> -> Result<Reply>,
                         invoke: (ToolName, ToolCall) -> Content, fuel: nat): (r: Result<QueryResult>)
    ensures var run := RunGraph(model, QueryingTools, invoke, QuerySeed(query, documentId), fuel);
      && (r.Ok? <==> run.Ok?)
      && (r.Ok? ==> r.value == QueryResult("success", FinalText(run.value)))
      && (r.Err? ==> r.message == run.message)
  {
    match RunAnswer(model, QueryingTools, invoke, QuerySeed(query, documentId), fuel)
    case Err(e) => Err(e)
    case Ok(text) => Ok(QueryResult("success", text))
  }

  /** The prompt depends only on whether the id is truthy: a missing id and
      the empty id both give the direct-chat seed, and a truthy id is named in
      the request. */
  lemma QuerySeedChoice(query: string, documentId: Option<string>)
    ensures var seed := QuerySeed(query, documentId);
      && |seed| == 2 && seed[1].Human?
      && (seed[0] == System(DocumentQuerying) <==> HasId(documentId))
      && (seed[0] == System(DirectChatRouting) <==> !HasId(documentId))
      && (!HasId(documentId) ==> seed == QuerySeed(query, None))
      && (HasId(documentId) ==> EndsWith(seed[1].text, " in document: " + documentId.value))
  {
    if HasId(documentId) {
      var tail := " in document: " + documentId.value;
      var text := "Find information about: \"" + query + "\"" + tail;
      assert QuerySeed(query, documentId)[1].text == text;
      assert text[|text| - |tail|..] == tail;
    }
  }

  /** The ids `chatWithContext` gives to its files, one random suffix per file. */
  function FreshId(newId: nat -> string, i: nat): string
  {
    "doc_" + newId(i)
  }

  function ProcessEach(paths: seq<string>, newId: nat -> string, process: (string, string) -> Result<ProcessResult>): seq<Result<ProcessResult>>
  {
    seq(|paths|, i requires 0 <= i < |paths| => process(paths[i], FreshId(newId, i)))
  }

  function QueryEach(query: string, processed: seq<ProcessResult>, queryDoc: (string, string) -> Result<QueryResult>): seq<Result<QueryResult>>
  {
    seq(|processed|, i requires 0 <= i < |processed| => queryDoc(query, processed[i].documentId))
  }

  function Messages(answers: seq<QueryResult>): seq<string>
  {
    seq(|answers|, i requires 0 <= i < |answers| => answers[i].message)
  }

  /** `chatWithContext(query, filePaths)`: an empty query is refused without
      any call; no file means a direct chat; otherwise every file is processed
      under a fresh id, every id is queried, and the answers are joined with a
      blank line in file order. Any failure anywhere makes the whole result an
      error carrying that failure's message. */
  function ChatWithContext(query: string, filePaths: Option<seq<string>>, creative: seq<Message> -> Result<Content>,
                           newId: nat -> string, process: (string, string) -> Result<ProcessResult>,
                           queryDoc: (string, string) -> Result<QueryResult>): (r: ChatResult)
    ensures r.status == "success" || r.status == "error"
    ensures query == "" ==> r == ChatResult("error", QueryRequiredMessage)
  {
    if query == "" then ChatResult("error", QueryRequiredMessage)
    else
      var paths := if filePaths.Some? then filePaths.value else [];
      if |paths| == 0 then
        match DirectChatReply(query, creative)
        case Ok(m) => ChatResult("success", m)
        case Err(e) => ChatResult("error", e)
      else
        match All(ProcessEach(paths, newId, process))
        case Err(e) => ChatResult("error", e)
        case Ok(processed) =>
          match All(QueryEach(query, processed, queryDoc))
          case Err(e) => ChatResult("error", e)
          case Ok(answers) => ChatResult("success", Join("\n\n", Messages(answers)))
  }

  /** Without files (`undefined` or empty), a non-empty query is a direct chat
      and the result does not depend on document processing or querying. */
  lemma ChatWithoutFilesIsDirect(query: string, filePaths: Option<seq<string>>, creative: seq<Message> -> Result<Content>,
                                 newId: nat -> string, process: (string, string) -> Result<ProcessResult>,
                                 queryDoc: (string, string) -> Result<QueryResult>)
    requires query != "" && (filePaths.None? || filePaths.value == [])
    ensures var r := ChatWithContext(query, filePaths, creative, newId, process, queryDoc);
      match DirectChatReply(query, creative)
      case Ok(m) => r == ChatResult("success", m)
      case Err(e) => r == ChatResult("error", e)
  {
  }

  /** When every file is processed and every document answers, the message is
      the answers joined with a blank line, answer `i` being the one for the
      id that processing returned for file `i`. */
  lemma ChatJoinsAnswersInFileOrder(query: string, paths: seq<string>, creative: seq<Message> -> Result<Content>,
                                    newId: nat -> string, process: (string, string) -> Result<ProcessResult>,
                                    queryDoc: (string, string) -> Result<QueryResult>)
    requires query != "" && |paths| > 0
    requires forall i :: 0 <= i < |paths| ==> process(paths[i], FreshId(newId, i)).Ok?
    requires forall i :: 0 <= i < |paths| ==> queryDoc(query, process(paths[i], FreshId(newId, i)).value.documentId).Ok?
    ensures ChatWithContext(query, Some(paths), creative, newId, process, queryDoc) ==
      ChatResult("success", Join("\n\n", seq(|paths|, i requires 0 <= i < |paths| =>
        queryDoc(query, process(paths[i], FreshId(newId, i)).value.documentId).value.message)))
  {
    var processed := All(ProcessEach(paths, newId, process)).value;
    var answers := All(QueryEach(query, processed, queryDoc));
    assert answers.Ok?;
    assert Messages(answers.value) == seq(|paths|, i requires 0 <= i < |paths| =>
        queryDoc(query, process(paths[i], FreshId(newId, i)).value.documentId).value.message);
  }

  /** All or nothing: if processing file `k` fails and every earlier file was
      processed, the whole result is that failure, and no answer is reported. */
  lemma ChatFailsOnFirstProcessingError(query: string, paths: seq<string>, creative: seq<Message> -> Result<Content>,
                                        newId: nat -> string, process: (string, string) -> Result<ProcessResult>,
                                        queryDoc: (string, string) -> Result<QueryResult>, k: nat)
    requires query != "" && k < |paths|
    requires forall i :: 0 <= i < k ==> process(paths[i], FreshId(newId, i)).Ok?
    requires process(paths[k], FreshId(newId, k)).Err?
    ensures ChatWithContext(query, Some(paths), creative, newId, process, queryDoc) ==
      ChatResult("error", process(paths[k], FreshId(newId, k)).message)
  {
    var each := ProcessEach(paths, newId, process);
    var all := All(each);
    assert each[k].Err?;
    var i :| 0 <= i < |each| && each[i] == Err(all.message) && forall j :: 0 <= j < i ==> each[j].Ok?;
    assert i == k;
  }

  /** All or nothing for the queries too: when every file was processed and
      the query for file `k` is the first to fail, the whole result is that
      failure, and no answer is reported. */
  lemma ChatFailsOnFirstQueryError(query: string, paths: seq<string>, creative: seq<Message> -> Result<Content>,
                                   newId: nat -> string, process: (string, string) -> Result<ProcessResult>,
                                   queryDoc: (string, string) -> Result<QueryResult>, k: nat)
    requires query != "" && k < |paths|
    requires forall i :: 0 <= i < |paths| ==> process(paths[i], FreshId(newId, i)).Ok?
    requires forall i :: 0 <= i < k ==> queryDoc(query, process(paths[i], FreshId(newId, i)).value.documentId).Ok?
    requires queryDoc(query, process(paths[k], FreshId(newId, k)).value.documentId).Err?
    ensures ChatWithContext(query, Some(paths), creative, newId, process, queryDoc) ==
      ChatResult("error", queryDoc(query, process(paths[k], FreshId(newId, k)).value.documentId).message)
  {
    var processed := All(ProcessEach(paths, newId, process)).value;
    var each := QueryEach(query, processed, queryDoc);
    var all := All(each);
    assert each[k].Err?;
    var i :| 0 <= i < |each| && each[i] == Err(all.message) && forall j :: 0 <= j < i ==> each[j].Ok?;
    assert i == k;
  }

  /** With this file's own `processDocument`, the documents queried are
      exactly the fresh ids `doc_<suffix>`, one per file, in file order. */
  lemma ChatQueriesFreshIds(paths: seq<string>, newId: nat -> string, extract: string -> Result<string>,
                            split: string -> seq<string>, addDocuments: seq<Record> -> Completion)
    ensures var process := (p: string, id: string) => ProcessDocument(p, id, extract, split, addDocuments);
      var all := All(ProcessEach(paths, newId, process));
      all.Ok? ==> forall i :: 0 <= i < |paths| ==>
        all.value[i].documentId == FreshId(newId, i) && StartsWith(all.value[i].documentId, "doc_")
  {
  }

  /** The `query_pinecone` tool of this version sleeps 1000, 2000, 4000 and
      8000 ms at most, 15000 ms in all. */
  method QueryPineconeWithDefaults(search: nat -> Result<seq<Record>>)
    returns (outcome: Retry.RetryOutcome<seq<Record>>, calls: nat, waits: seq<nat>)
    ensures 1 <= calls <= 5 && |waits| == calls - 1 && waits <= [1000, 2000, 4000, 8000]
    ensures outcome != Retry.MaxRetriesReached
  {
    outcome, calls, waits := VectorRecords.QueryPinecone(search, DefaultInitialDelay);
    assert Retry.Pow2(1) == 2 && Retry.Pow2(2) == 4 && Retry.Pow2(3) == 8;
  }
}
