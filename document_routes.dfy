/** The upload handler `handleDocumentProcessing`
    (`server/routes/documentRoutes.ts`, compiled to
    `server/dist/routes/documentRoutes.js` with the same logic). Uploaded
    files are processed one after another under one shared id, each upload is
    deleted afterwards, and every distinct id of a successful file is then
    queried. The agent calls are parameters; the delay and the file deletion
    are recorded as a trace of effects. */
module DocumentRoutes {

  import opened Wrappers
  import DocumentAgentDist
  import VectorRecords
  import AgentGraph

  type ProcessResult = DocumentAgentDist.ProcessResult
  type QueryResult = DocumentAgentDist.QueryResult
  type ChatResult = DocumentAgentDist.ChatResult

  const DefaultQuery := "give brief summary of these files"
  const IndexingDelay := 2000
  const NoDocumentsMessage := "Failed to process any documents"
  const QueryFailedMessage := "Failed to query documents"

  datatype UploadedFile = UploadedFile(path: string, originalName: string)

  /** One `processedDocs` entry; `message` is present on failures only. */
  datatype ProcessedDoc = ProcessedDoc(documentId: string, fileName: string, status: string, message: Option<string>)

  /** One entry of `results`. */
  datatype QueryEntry = QueryEntry(status: string, message: string, fileNames: seq<string>, documentId: string)

  /** The observable steps of the processing loop, in order. */
  datatype Effect = ProcessCall(path: string, documentId: string) | Wait(ms: nat) | Unlink(path: string)

  datatype DocResponse =
    | DirectChat(message: string)
    | NoDocuments(processedFiles: seq<ProcessedDoc>)
    | DocumentQuery(results: seq<QueryEntry>, processedFiles: seq<ProcessedDoc>)

  /** `req.body.query || 'give brief summary of these files'`. */
  function EffectiveQuery(query: Option<string>): (r: string)
    ensures r != ""
    ensures query.Some? && query.value != "" ==> r == query.value
    ensures query.None? || query.value == "" ==> r == DefaultQuery
  {
    if query.Some? && query.value != "" then query.value else DefaultQuery
  }

  function SharedId(suffix: string): string
  {
    "doc_" + suffix
  }

  /** The entry recorded for one file: the agent's id and status on success;
      the shared id, status "error" and the error message on failure. */
  function Entry(file: UploadedFile, sharedId: string, process: (string, string) -> Result<ProcessResult>): (r: ProcessedDoc)
    ensures r.fileName == file.originalName
    ensures process(file.path, sharedId).Err? <==> r.message.Some?
    ensures process(file.path, sharedId).Err? ==>
      r == ProcessedDoc(sharedId, file.originalName, "error", Some(process(file.path, sharedId).message))
    ensures process(file.path, sharedId).Ok? ==>
      r == ProcessedDoc(process(file.path, sharedId).value.documentId, file.originalName, process(file.path, sharedId).value.status, None)
  {
    match process(file.path, sharedId)
    case Ok(pr) => ProcessedDoc(pr.documentId, file.originalName, pr.status, None)
    case Err(e) => ProcessedDoc(sharedId, file.originalName, "error", Some(e))
  }

  /** The steps for one file: the call, the wait after a success, and the
      deletion in the `finally` block. */
  function FileEffects(file: UploadedFile, sharedId: string, process: (string, string) -> Result<ProcessResult>): seq<Effect>
  {
    if process(file.path, sharedId).Ok? then [ProcessCall(file.path, sharedId), Wait(IndexingDelay), Unlink(file.path)]
    else [ProcessCall(file.path, sharedId), Unlink(file.path)]
  }

  function AllEntries(files: seq<UploadedFile>, sharedId: string, process: (string, string) -> Result<ProcessResult>): (r: seq<ProcessedDoc>)
    ensures |r| == |files| && forall i :: 0 <= i < |files| ==> r[i] == Entry(files[i], sharedId, process)
  {
    seq(|files|, i requires 0 <= i < |files| => Entry(files[i], sharedId, process))
  }

  function AllEffects(files: seq<UploadedFile>, sharedId: string, process: (string, string) -> Result<ProcessResult>): seq<Effect>
  {
    if |files| == 0 then []
    else AllEffects(files[..|files| - 1], sharedId, process) + FileEffects(files[|files| - 1], sharedId, process)
  }

  /** `processedDocs.filter(doc => doc.status === 'success')`. */
  function Successful(docs: seq<ProcessedDoc>): (r: seq<ProcessedDoc>)
    ensures |r| <= |docs|
    ensures forall d :: d in r <==> d in docs && d.status == "success"
  {
    if |docs| == 0 then []
    else if docs[|docs| - 1].status == "success" then Successful(docs[..|docs| - 1]) + [docs[|docs| - 1]]
    else Successful(docs[..|docs| - 1])
  }

  /** `filter` works entry by entry: filtering a concatenation filters each
      part and keeps them in order, so the order and any repeats of the
      successful entries survive. */
  lemma {:induction false} SuccessfulAppend(a: seq<ProcessedDoc>, b: seq<ProcessedDoc>)
    ensures Successful(a + b) == Successful(a) + Successful(b)
    decreases |b|
  {
    if |b| > 0 {
      var init := b[..|b| - 1];
      assert (a + b)[..|a + b| - 1] == a + init;
      SuccessfulAppend(a, init);
    } else {
      assert a + b == a;
    }
  }

  function Ids(docs: seq<ProcessedDoc>): seq<string>
  {
    seq(|docs|, i requires 0 <= i < |docs| => docs[i].documentId)
  }

  predicate Distinct(ids: seq<string>)
  {
    forall i, j :: 0 <= i < j < |ids| ==> ids[i] != ids[j]
  }

  /** The position of the first occurrence of `x`. */
  function FirstIndex(s: seq<string>, x: string): (r: nat)
    requires x in s
    ensures r < |s| && s[r] == x && x !in s[..r]
  {
    if s[0] == x then 0
    else
      var k := FirstIndex(s[1..], x);
      assert s[..k + 1] == [s[0]] + s[1..][..k];
      k + 1
  }

  /** The first occurrence is the only position before which `x` does not occur. */
  lemma FirstIndexUnique(s: seq<string>, x: string, k: nat)
    requires k < |s| && s[k] == x && x !in s[..k]
    ensures FirstIndex(s, x) == k
  {
  }

  /** `[...new Set(ids)]`: the distinct ids in order of first occurrence. */
  function UniqueIds(ids: seq<string>): (r: seq<string>)
    ensures Distinct(r)
    ensures forall x :: x in r <==> x in ids
    ensures forall i, j :: 0 <= i < j < |r| ==> FirstIndex(ids, r[i]) < FirstIndex(ids, r[j])
  {
    if |ids| == 0 then []
    else
      var init := ids[..|ids| - 1];
      var u := UniqueIds(init);
      var last := ids[|ids| - 1];
      assert ids == init + [last];
      forall x | x in init
        ensures FirstIndex(ids, x) == FirstIndex(init, x)
      {
        var k := FirstIndex(init, x);
        assert ids[..k] == init[..k];
        FirstIndexUnique(ids, x, k);
      }
      if last in u then u
      else
        assert ids[..|ids| - 1] == init;
        FirstIndexUnique(ids, last, |ids| - 1);
        u + [last]
  }

  /** A list repeating one id has that id as its only distinct id. */
  lemma {:induction false} UniqueIdsConstant(ids: seq<string>, x: string)
    requires |ids| > 0 && forall i :: 0 <= i < |ids| ==> ids[i] == x
    ensures UniqueIds(ids) == [x]
  {
    if |ids| > 1 {
      UniqueIdsConstant(ids[..|ids| - 1], x);
    }
  }

  /** The file names of the successful entries with id `id`, in upload order. */
  function FileNamesFor(docs: seq<ProcessedDoc>, id: string): (r: seq<string>)
    ensures |r| <= |docs|
    ensures forall x :: x in r <==> exists k :: 0 <= k < |docs| && docs[k].documentId == id && docs[k].fileName == x
  {
    if |docs| == 0 then []
    else
      var init := docs[..|docs| - 1];
      var last := docs[|docs| - 1];
      assert forall k :: 0 <= k < |init| ==> init[k] == docs[k];
      if last.documentId == id then FileNamesFor(init, id) + [last.fileName] else FileNamesFor(init, id)
  }

  /** The names are collected entry by entry: the names for a concatenation
      are those for each part, in order, with repeats kept. */
  lemma {:induction false} FileNamesForAppend(a: seq<ProcessedDoc>, b: seq<ProcessedDoc>, id: string)
    ensures FileNamesFor(a + b, id) == FileNamesFor(a, id) + FileNamesFor(b, id)
    decreases |b|
  {
    if |b| > 0 {
      var init := b[..|b| - 1];
      assert (a + b)[..|a + b| - 1] == a + init;
      FileNamesForAppend(a, init, id);
    } else {
      assert a + b == a;
    }
  }

  /** The result for one id: the query's status and message, or the fixed
      failure message; a failure is confined to its own id. */
  function QueryFor(query: string, id: string, docs: seq<ProcessedDoc>, queryDoc: (string, string) -> Result<QueryResult>): (r: QueryEntry)
    ensures r.documentId == id && r.fileNames == FileNamesFor(docs, id)
    ensures queryDoc(query, id).Err? ==> r.status == "error" && r.message == QueryFailedMessage
    ensures queryDoc(query, id).Ok? ==> r.status == queryDoc(query, id).value.status && r.message == queryDoc(query, id).value.message
  {
    match queryDoc(query, id)
    case Ok(res) => QueryEntry(res.status, res.message, FileNamesFor(docs, id), id)
    case Err(_) => QueryEntry("error", QueryFailedMessage, FileNamesFor(docs, id), id)
  }

  function QueryResults(query: string, docs: seq<ProcessedDoc>, queryDoc: (string, string) -> Result<QueryResult>): (r: seq<QueryEntry>)
    ensures |r| == |UniqueIds(Ids(docs))|
    ensures forall i :: 0 <= i < |r| ==> r[i].documentId == UniqueIds(Ids(docs))[i] && r[i].fileNames == FileNamesFor(docs, r[i].documentId)
  {
    var ids := UniqueIds(Ids(docs));
    seq(|ids|, i requires 0 <= i < |ids| => QueryFor(query, ids[i], docs, queryDoc))
  }

  /** What follows the loop: no success means a 500 with every entry and no
      query; otherwise one query per distinct successful id. */
  function Conclude(query: string, processed: seq<ProcessedDoc>, queryDoc: (string, string) -> Result<QueryResult>): (r: DocResponse)
    ensures Successful(processed) == [] ==> r == NoDocuments(processed)
  {
    var ok := Successful(processed);
    if |ok| == 0 then NoDocuments(processed)
    else DocumentQuery(QueryResults(query, ok, queryDoc), processed)
  }

  /** The whole handler as a value: the response and the loop's effects. */
  function Respond(query: Option<string>, files: Option<seq<UploadedFile>>, suffix: string,
                   process: (string, string) -> Result<ProcessResult>, queryDoc: (string, string) -> Result<QueryResult>,
                   chat: string -> ChatResult): (r: (DocResponse, seq<Effect>))
    ensures files.None? || files.value == [] ==> r == (DirectChat(chat(EffectiveQuery(query)).message), [])
  {
    if files.None? || |files.value| == 0 then (DirectChat(chat(EffectiveQuery(query)).message), [])
    else
      var shared := SharedId(suffix);
      (Conclude(EffectiveQuery(query), AllEntries(files.value, shared, process), queryDoc),
       AllEffects(files.value, shared, process))
  }

  /** One more file extends the entries and the effects by that file's own. */
  lemma LoopStep(files: seq<UploadedFile>, i: nat, sharedId: string, process: (string, string) -> Result<ProcessResult>)
    requires i < |files|
    ensures AllEntries(files[..i + 1], sharedId, process) == AllEntries(files[..i], sharedId, process) + [Entry(files[i], sharedId, process)]
    ensures AllEffects(files[..i + 1], sharedId, process) == AllEffects(files[..i], sharedId, process) + FileEffects(files[i], sharedId, process)
  {
    assert files[..i + 1][..i] == files[..i];
  }

  /** `handleDocumentProcessing`. The per-file loop is the source's `for`
      loop; the fallback id in `sharedDocumentId || ...` is never used
      because the shared id is never empty. */
  method HandleDocumentProcessing(query: Option<string>, files: Option<seq<UploadedFile>>, suffix: string,
                                  process: (string, string) -> Result<ProcessResult>,
                                  queryDoc: (string, string) -> Result<QueryResult>,
                                  chat: string -> ChatResult) returns (res: DocResponse, effects: seq<Effect>)
    ensures (res, effects) == Respond(query, files, suffix, process, queryDoc, chat)
  {
    var q := EffectiveQuery(query);
    if files.None? || |files.value| == 0 {
      var chatResult := chat(q);
      return DirectChat(chatResult.message), [];
    }
    var uploaded := files.value;
    var shared := SharedId(suffix);
    var processedDocs: seq<ProcessedDoc> := [];
    effects := [];
    for i := 0 to |uploaded|
      invariant processedDocs == AllEntries(uploaded[..i], shared, process)
      invariant effects == AllEffects(uploaded[..i], shared, process)
    {
      var file := uploaded[i];
      var steps := [ProcessCall(file.path, shared)];
      var doc: ProcessedDoc;
      var result := process(file.path, shared);
      match result {
        case Ok(pr) =>
          doc := ProcessedDoc(pr.documentId, file.originalName, pr.status, None);
          steps := steps + [Wait(IndexingDelay)];
        case Err(e) =>
          doc := ProcessedDoc(shared, file.originalName, "error", Some(e));
      }
      steps := steps + [Unlink(file.path)];
      assert doc == Entry(file, shared, process);
      assert steps == FileEffects(file, shared, process);
      LoopStep(uploaded, i, shared, process);
      processedDocs := processedDocs + [doc];
      effects := effects + steps;
    }
    assert uploaded[..|uploaded|] == uploaded;
    var successful := Successful(processedDocs);
    if |successful| == 0 {
      return NoDocuments(processedDocs), effects;
    }
    res := DocumentQuery(QueryResults(q, successful, queryDoc), processedDocs);
  }

  // ---- properties ----

  function UnlinkedPaths(effects: seq<Effect>): seq<string>
  {
    if |effects| == 0 then []
    else (if effects[0].Unlink? then [effects[0].path] else []) + UnlinkedPaths(effects[1..])
  }

  function CalledPaths(effects: seq<Effect>): seq<string>
  {
    if |effects| == 0 then []
    else (if effects[0].ProcessCall? then [effects[0].path] else []) + CalledPaths(effects[1..])
  }

  function Paths(files: seq<UploadedFile>): seq<string>
  {
    seq(|files|, i requires 0 <= i < |files| => files[i].path)
  }

  lemma {:induction false} PathsOfEffectsAppend(a: seq<Effect>, b: seq<Effect>)
    ensures UnlinkedPaths(a + b) == UnlinkedPaths(a) + UnlinkedPaths(b)
    ensures CalledPaths(a + b) == CalledPaths(a) + CalledPaths(b)
  {
    if |a| > 0 {
      assert (a + b)[1..] == a[1..] + b;
      PathsOfEffectsAppend(a[1..], b);
    } else {
      assert a + b == b;
    }
  }

  lemma FileEffectsPaths(file: UploadedFile, sharedId: string, process: (string, string) -> Result<ProcessResult>)
    ensures UnlinkedPaths(FileEffects(file, sharedId, process)) == [file.path]
    ensures CalledPaths(FileEffects(file, sharedId, process)) == [file.path]
  {
    var fe := FileEffects(file, sharedId, process);
    var u := [Unlink(file.path)];
    assert u[1..] == [];
    assert UnlinkedPaths(u) == [file.path] && CalledPaths(u) == [];
    var rest := if process(file.path, sharedId).Ok? then [Wait(IndexingDelay)] + u else u;
    if process(file.path, sharedId).Ok? {
      assert rest[1..] == u;
    }
    assert UnlinkedPaths(rest) == [file.path] && CalledPaths(rest) == [];
    assert fe == [ProcessCall(file.path, sharedId)] + rest;
    assert fe[1..] == rest;
  }

  lemma PathsSnoc(files: seq<UploadedFile>)
    requires |files| > 0
    ensures Paths(files) == Paths(files[..|files| - 1]) + [files[|files| - 1].path]
  {
  }

  /** The calls and the deletions both follow the uploads, one per file. */
  lemma {:induction false} EffectPathsFollowUploads(files: seq<UploadedFile>, sharedId: string,
                                                    process: (string, string) -> Result<ProcessResult>)
    ensures UnlinkedPaths(AllEffects(files, sharedId, process)) == Paths(files)
    ensures CalledPaths(AllEffects(files, sharedId, process)) == Paths(files)
  {
    if |files| > 0 {
      var init := files[..|files| - 1];
      var last := files[|files| - 1];
      var prev := AllEffects(init, sharedId, process);
      var fe := FileEffects(last, sharedId, process);
      assert AllEffects(files, sharedId, process) == prev + fe;
      EffectPathsFollowUploads(init, sharedId, process);
      PathsOfEffectsAppend(prev, fe);
      FileEffectsPaths(last, sharedId, process);
      PathsSnoc(files);
    }
  }

  /** Every call to the agent carries the shared id. */
  lemma {:induction false} CallsUseSharedId(files: seq<UploadedFile>, sharedId: string,
                                            process: (string, string) -> Result<ProcessResult>)
    ensures forall e :: e in AllEffects(files, sharedId, process) && e.ProcessCall? ==> e.documentId == sharedId
  {
    if |files| > 0 {
      var init := files[..|files| - 1];
      var prev := AllEffects(init, sharedId, process);
      var fe := FileEffects(files[|files| - 1], sharedId, process);
      assert AllEffects(files, sharedId, process) == prev + fe;
      CallsUseSharedId(init, sharedId, process);
      assert forall e :: e in fe && e.ProcessCall? ==> e.documentId == sharedId;
    }
  }

  /** Every upload is handed to the agent once and deleted once, in upload
      order, whatever the outcome of its processing; all calls use the
      shared id. */
  lemma EachFileProcessedAndUnlinkedOnce(files: seq<UploadedFile>, sharedId: string,
                                         process: (string, string) -> Result<ProcessResult>)
    ensures UnlinkedPaths(AllEffects(files, sharedId, process)) == Paths(files)
    ensures CalledPaths(AllEffects(files, sharedId, process)) == Paths(files)
    ensures forall e :: e in AllEffects(files, sharedId, process) && e.ProcessCall? ==> e.documentId == sharedId
  {
    EffectPathsFollowUploads(files, sharedId, process);
    CallsUseSharedId(files, sharedId, process);
  }

  /** The distinct ids queried are exactly the ids of successful entries,
      each once, in order of first occurrence. */
  lemma QueriedIds(query: string, processed: seq<ProcessedDoc>, queryDoc: (string, string) -> Result<QueryResult>)
    requires Successful(processed) != []
    ensures var r := Conclude(query, processed, queryDoc);
      var ids := Ids(Successful(processed));
      && r.DocumentQuery? && |r.results| == |UniqueIds(ids)|
      && Distinct(UniqueIds(ids))
      && (forall i :: 0 <= i < |r.results| ==> r.results[i].documentId == UniqueIds(ids)[i])
      && (forall d :: d in processed && d.status == "success" ==> d.documentId in UniqueIds(ids))
      && (forall x :: x in UniqueIds(ids) ==> exists d :: d in processed && d.status == "success" && d.documentId == x)
  {
    var ok := Successful(processed);
    var ids := Ids(ok);
    assert Conclude(query, processed, queryDoc).results == QueryResults(query, ok, queryDoc);
    SuccessfulIdsQueried(processed);
    QueriedIdsSucceeded(processed);
  }

  /** Every successful entry's id is among the distinct ids queried. */
  lemma SuccessfulIdsQueried(processed: seq<ProcessedDoc>)
    ensures forall d :: d in processed && d.status == "success" ==> d.documentId in UniqueIds(Ids(Successful(processed)))
  {
    var ok := Successful(processed);
    var ids := Ids(ok);
    forall d | d in processed && d.status == "success"
      ensures d.documentId in UniqueIds(ids)
    {
      var k :| 0 <= k < |ok| && ok[k] == d;
      assert ids[k] == d.documentId;
    }
  }

  /** Every distinct id queried belongs to a successful entry. */
  lemma QueriedIdsSucceeded(processed: seq<ProcessedDoc>)
    ensures forall x :: x in UniqueIds(Ids(Successful(processed))) ==> exists d :: d in processed && d.status == "success" && d.documentId == x
  {
    var ok := Successful(processed);
    var ids := Ids(ok);
    forall x | x in UniqueIds(ids)
      ensures exists d :: d in processed && d.status == "success" && d.documentId == x
    {
      var k :| 0 <= k < |ids| && ids[k] == x;
      assert ok[k] in ok;
    }
  }

  /** The query of one id fails or succeeds without affecting the result of any other id. */
  lemma QueryFailureIsolated(query: string, docs: seq<ProcessedDoc>, q1: (string, string) -> Result<QueryResult>,
                             q2: (string, string) -> Result<QueryResult>, i: nat)
    requires i < |UniqueIds(Ids(docs))|
    requires q1(query, UniqueIds(Ids(docs))[i]) == q2(query, UniqueIds(Ids(docs))[i])
    ensures |QueryResults(query, docs, q1)| == |QueryResults(query, docs, q2)| == |UniqueIds(Ids(docs))|
    ensures QueryResults(query, docs, q1)[i] == QueryResults(query, docs, q2)[i]
  {
  }

  /** When nothing succeeded, no query result can influence the response. */
  lemma NoSuccessNoQuery(query: string, processed: seq<ProcessedDoc>, q1: (string, string) -> Result<QueryResult>,
                         q2: (string, string) -> Result<QueryResult>)
    requires forall i :: 0 <= i < |processed| ==> processed[i].status != "success"
    ensures Conclude(query, processed, q1) == Conclude(query, processed, q2) == NoDocuments(processed)
  {
  }

  /** When every successful entry carries the same id, exactly one query is
      made, for that id, and it lists every successful file. */
  lemma OneIdOneQuery(query: string, processed: seq<ProcessedDoc>, shared: string, queryDoc: (string, string) -> Result<QueryResult>)
    requires exists k :: 0 <= k < |processed| && processed[k].status == "success"
    requires forall k :: 0 <= k < |processed| && processed[k].status == "success" ==> processed[k].documentId == shared
    ensures var r := Conclude(query, processed, queryDoc);
      && r.DocumentQuery? && |r.results| == 1 && r.results[0].documentId == shared
      && (forall k :: 0 <= k < |processed| && processed[k].status == "success" ==> processed[k].fileName in r.results[0].fileNames)
  {
    var ok := Successful(processed);
    var k :| 0 <= k < |processed| && processed[k].status == "success";
    assert processed[k] in ok;
    var ids := Ids(ok);
    assert forall j :: 0 <= j < |ok| ==> ok[j] in processed;
    assert forall j :: 0 <= j < |ok| ==> ids[j] == shared;
    UniqueIdsConstant(ids, shared);
    forall m | 0 <= m < |processed| && processed[m].status == "success"
      ensures processed[m].fileName in FileNamesFor(ok, shared)
    {
      assert processed[m] in ok;
      var j :| 0 <= j < |ok| && ok[j] == processed[m];
    }
  }

  /** Extraction of the file succeeds and its records are written. */
  predicate Stored(path: string, id: string, extract: string -> Result<string>, split: string -> seq<string>,
                   addDocuments: seq<VectorRecords.Record> -> Completion)
  {
    extract(path).Ok? && addDocuments(DocumentAgentDist.DocumentRecords(split(extract(path).value), id)).Done?
  }

  /** With the document agent of `server/dist/documentAgent.js`, which
      returns the id it was given, all successful files share one id, so a
      request with some success makes exactly one query, listing all the
      successful files in upload order. */
  lemma {:induction false} SharedIdGivesOneQuery(query: Option<string>, files: seq<UploadedFile>, suffix: string,
                                                 extract: string -> Result<string>, split: string -> seq<string>,
                                                 addDocuments: seq<VectorRecords.Record> -> Completion,
                                                 queryDoc: (string, string) -> Result<QueryResult>, chat: string -> ChatResult)
    requires exists k :: 0 <= k < |files| && Stored(files[k].path, SharedId(suffix), extract, split, addDocuments)
    ensures var process := (p: string, id: string) => DocumentAgentDist.ProcessDocument(p, id, extract, split, addDocuments);
      var r := Respond(query, Some(files), suffix, process, queryDoc, chat).0;
      && r.DocumentQuery? && |r.results| == 1 && r.results[0].documentId == SharedId(suffix)
      && (forall k :: 0 <= k < |files| && Stored(files[k].path, SharedId(suffix), extract, split, addDocuments) ==>
            files[k].originalName in r.results[0].fileNames)
  {
    var process := (p: string, id: string) => DocumentAgentDist.ProcessDocument(p, id, extract, split, addDocuments);
    var shared := SharedId(suffix);
    var entries := AllEntries(files, shared, process);
    forall k | 0 <= k < |files|
      ensures entries[k].status == "success" <==> Stored(files[k].path, shared, extract, split, addDocuments)
      ensures entries[k].status == "success" ==> entries[k].documentId == shared
    {
      assert process(files[k].path, shared) == DocumentAgentDist.ProcessDocument(files[k].path, shared, extract, split, addDocuments);
    }
    OneIdOneQuery(EffectiveQuery(query), entries, shared, queryDoc);
  }

  /** Without uploads, the route answers with whatever message the dist
      agent's `chatWithContext` produced, success or error; because the query
      has a non-empty default, that message is never the empty-query refusal
      but the direct chat reply or its error. */
  lemma NoFilesAnswersDirectly(query: Option<string>, files: Option<seq<UploadedFile>>, suffix: string,
                               process: (string, string) -> Result<ProcessResult>,
                               queryDoc: (string, string) -> Result<QueryResult>,
                               creative: seq<AgentGraph.Message> -> Result<AgentGraph.Content>, newId: nat -> string)
    requires files.None? || files.value == []
    ensures var chat := (q: string) => DocumentAgentDist.ChatWithContext(q, None, creative, newId, process, queryDoc);
      var reply := DocumentAgentDist.DirectChatReply(EffectiveQuery(query), creative);
      Respond(query, files, suffix, process, queryDoc, chat)
        == (DirectChat(if reply.Ok? then reply.value else reply.message), [])
  {
    DocumentAgentDist.ChatWithoutFilesIsDirect(EffectiveQuery(query), None, creative, newId, process, queryDoc);
  }
}
