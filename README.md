# AI Study Companion server — a Dafny model

This project models the request-handling core of the AI Study Companion
server (a Node.js/Express backend). Users upload study documents; the server
extracts their text, splits it into chunks and stores the chunks in a
Pinecone vector index under a document id. Questions about a document are
answered by a LangGraph agent that queries the index, and quizzes are
generated from a document and evaluated against the user's answers.

The model covers:

- the shared agent loop (`shouldContinue`, tool dispatch, the agent/tools
  cycle) as `AgentGraph`;
- the retry helper `retryWithExponentialBackoff`, as an imperative loop
  proved against a recursive specification (`Retry`);
- the vector-store tools `save_to_pinecone` and `query_pinecone`
  (`VectorRecords`);
- both variants of the document agent: the compiled
  `server/dist/documentAgent.js` (direct processing, `direct_chat`,
  `chatWithContext`, 1000 ms retry base) as `DocumentAgentDist`, and the
  TypeScript `server/documentAgent.ts` (agent-driven processing, 2000 ms retry
  base) as `DocumentAgentTs`;
- text extraction by file type (`FileHandler`);
- the quiz generator with its response cleanup and schema check
  (`QuizAgent`);
- the quiz routes with the in-memory quiz store (`QuizRoutes`, a class);
- the upload route that processes files one by one and queries the distinct
  ids (`DocumentRoutes`, a loop proved against a specification);
- the credentials singleton (`Credentials`, classes).

Everything the server calls but does not define is a parameter: the chat
models (a function from the message history to a reply), the tool
invoker, the vector index (writes report completion or a thrown error;
searches return records or an error), the document loaders and OCR, the text
splitter, `JSON.parse`, the quiz evaluator and the random id suffixes. Timers
are recorded as the list of waits. A thrown JavaScript error is an `Err`
carrying the error's message.

Where the written description of the system and the code differ, the model
follows the code:

- `retryWithExponentialBackoff` rethrows the last error when the final
  attempt throws; 'Max retries reached' is only reachable when `maxRetries`
  is 0 or less (`Retry.RetryMaxReachedIff`).
- The quiz routes import `quizAgent` from `quizAgent.js`, whose compiled file
  exports `generateQuiz`; the generator is therefore a parameter of the route
  handler, and `QuizAgent.GenerateQuiz` models `generateQuiz` on its own.
- `server/documentAgent.ts` calls `FileHandlerService.extractContent`, which
  `server/services/fileHandlerService.ts` does not define (it exports
  `processFile`); the `extract_content` tool is an invoker result in
  `DocumentAgentTs`, and `FileHandler.ProcessFile` models `processFile`.
- The upload route calls `documentAgent.chatWithContext`, which only the
  compiled agent defines; the route is composed with
  `DocumentAgentDist.ChatWithContext` in `DocumentRoutes.NoFilesAnswersDirectly`.

## Model

| member | source | states |
|---|---|---|
| Wrappers.All | server/dist/documentAgent.js:343-351 | `Promise.all` over results: succeeds iff every element succeeds, keeping order and values; otherwise fails with the first failure in list order, all earlier ones having succeeded |
| Text.Join | server/dist/documentAgent.js:355 | `parts.join(sep)` starts with the first part and ends with the last |
| Text.JoinSnoc | server/dist/documentAgent.js:355 | joining one more part appends the separator and the part, so parts keep their order |
| Text.TrimStart | server/dist/quizAgent.js:127-128 | the result is a suffix of the input (what a leading `\s*` leaves) |
| Text.TrimStartMaximal | server/dist/quizAgent.js:127-128 | only whitespace is removed, and all of the leading run: the rest starts with a non-whitespace character |
| Text.TrimEnd | server/dist/quizAgent.js:129 | the result is a prefix of the input |
| Text.TrimEndMaximal | server/dist/quizAgent.js:129 | only trailing whitespace is removed, and all of it |
| Text.Trim | server/dist/quizAgent.js:124 | `trim()` never lengthens the text |
| Text.LeadingWhitespaceMaximal | server/dist/quizAgent.js:127-128 | the run a leading `\s*` matches is whitespace only and stops at the first non-whitespace character |
| Text.TrailingWhitespaceMaximal | server/dist/quizAgent.js:129 | the run a final `\s*` matches is whitespace only and stops at the last non-whitespace character |
| Text.TrimIsSlice | server/dist/quizAgent.js:124 | `trim()` returns a contiguous slice with whitespace-only text on both sides |
| Text.TrimBoundaries | server/dist/quizAgent.js:124 | what `trim()` keeps neither starts nor ends with whitespace |
| Text.TrimNoop | server/dist/quizAgent.js:124 | text without whitespace at its ends is unchanged by `trim()` |
| Retry.RetryWithExponentialBackoff | server/dist/documentAgent.js:224-245 | the loop's outcome, call count and waits equal the recursive specification `RetrySpec` |
| Retry.RetryFromStopsAtFirstDecisive | server/documentAgent.ts:170-189 | from attempt i the retry stops at the first decisive attempt (a non-empty value, the last attempt, or a throw on the last attempt), with the waits of all earlier attempts |
| Retry.RetryFromDecisive | server/documentAgent.ts:171-186 | from attempt i the run's outcome and call count are those of the first decisive attempt |
| Retry.RetryFromWaits | server/documentAgent.ts:175-177 | from attempt i there is one wait fewer than calls, the k-th being the delay of attempt i + k |
| Retry.RetryStopsAtFirstDecisive | server/documentAgent.ts:170-189 | the whole run makes exactly as many calls as it takes to reach the first decisive attempt |
| Retry.RetryMaxReachedIff | server/documentAgent.ts:188 | 'Max retries reached' is thrown iff `maxRetries` is 0 or less, and then no call is made |
| Retry.RetryReturnsFirstNonEmpty | server/documentAgent.ts:173-180 | a non-empty result is returned at once, after one call per earlier attempt |
| Retry.RetryAlwaysEmpty | server/documentAgent.ts:174-180 | an always-empty search makes `maxRetries` calls and returns the empty result of the last |
| Retry.RetryAlwaysThrowing | server/documentAgent.ts:181-186 | an always-throwing operation makes `maxRetries` calls and rethrows the last error |
| Retry.RetryThrowsTwiceThenSucceeds | server/dist/documentAgent.js:236-242 | two throws then a value: three calls, waits d and 2d, that value |
| Retry.RetryEmptyTwiceThenResult | server/dist/documentAgent.js:228-233 | two empty results then a non-empty one: three calls, waits d and 2d, the non-empty value |
| Retry.RetryTotalWait | server/dist/documentAgent.js:229 | the waits double each time: their sum plus the first delay is `d * 2^(calls-1)` |
| AgentGraph.ShouldContinue | server/documentAgent.ts:130-136 | the route is 'tools' exactly when the last message is an AI reply carrying a `tool_calls` list, '__end__' otherwise |
| AgentGraph.ShouldContinueIff | server/documentAgent.ts:132 | an empty `tool_calls` list still routes to 'tools'; any message other than an AI reply ends the run |
| AgentGraph.Bind | server/dist/documentAgent.js:173-179 | a tool call's name resolves to a tool of the workflow's set with that name, or to none when the set has no such tool |
| AgentGraph.RunGraph | server/dist/documentAgent.js:180-214 | a finished run extends the seed history and ends with an AI message that routes to '__end__' |
| AgentGraph.RunAnswer | server/documentAgent.ts:232-246 | a finished run answers with its last message's content as text; a failed run's error is passed on unchanged |
| AgentGraph.RunOnlyDispatchesBoundTools | server/documentAgent.ts:110-127 | the run depends only on the tools bound to the workflow: invokers that agree on those give the same run |
| AgentGraph.RunOneToolCycle | server/documentAgent.ts:149-163 | one tool call then a plain answer: the history is seed, call, tool result, answer |
| VectorRecords.ChunkRecords | server/documentAgent.ts:68-77 | one record per chunk, record i holding chunk i |
| VectorRecords.ChunkRecordsShape | server/documentAgent.ts:68-77 | record i holds chunk i; its metadata is the caller's metadata with `documentId` and `chunkIndex = i` overriding same-named keys |
| VectorRecords.ChunkRecordsIndexedInOrder | server/dist/documentAgent.js:99-108 | one record per chunk, chunk indexes 0..n-1 in order |
| VectorRecords.SaveToPinecone | server/dist/documentAgent.js:83-112 | writes exactly the chunk records; fails iff the write throws, and then with the write's own message; otherwise reports the chunk count and the id |
| VectorRecords.QueryPinecone | server/dist/documentAgent.js:114-136 | at most 5 searches with doubling waits; every search before the last threw or found nothing; the result is the last search's; never 'Max retries reached'; an empty result or an error only from the fifth |
| DocumentAgentDist.ProcessDocument | server/dist/documentAgent.js:247-276 | extraction and write failures are rethrown with their own messages; success returns status 'success' and the id it was given |
| DocumentAgentDist.DocumentRecordsExact | server/dist/documentAgent.js:260-263 | the records written carry exactly `{documentId, chunkIndex}` as metadata |
| DocumentAgentDist.DirectChatReply | server/dist/documentAgent.js:138-157 | the creative model sees the assistant prompt and the query; its content comes back as text, its error is rethrown |
| DocumentAgentDist.QuerySeed | server/dist/documentAgent.js:282-295 | two messages, the second a human request; the retrieval prompt exactly when the id is truthy, the direct-chat prompt otherwise |
| DocumentAgentDist.QueryDocument | server/dist/documentAgent.js:278-308 | runs the querying workflow from the seed; a finished run's final text is the message, run errors are rethrown |
| DocumentAgentDist.QuerySeedChoice | server/dist/documentAgent.js:282-293 | with an id, the retrieval prompt and a request naming query and id; without, the direct-chat prompt and the quoted query |
| DocumentAgentDist.ChatWithContext | server/dist/documentAgent.js:310-365 | status is 'success' or 'error'; an empty query gives 'Query is required' |
| DocumentAgentDist.ChatWithoutFilesIsDirect | server/dist/documentAgent.js:320-340 | with no files the result is the direct chat reply or its error |
| DocumentAgentDist.ChatJoinsAnswersInFileOrder | server/dist/documentAgent.js:343-356 | when every file and query succeeds, the message joins answer i (for file i's id) with blank lines |
| DocumentAgentDist.ChatFailsOnFirstProcessingError | server/dist/documentAgent.js:343-346 | the first failing file (in order) makes the result an error with its message |
| DocumentAgentDist.ChatFailsOnFirstQueryError | server/dist/documentAgent.js:348-364 | when every file was processed, the first failing query (in file order) makes the result an error with its message |
| DocumentAgentDist.ChatQueriesFreshIds | server/dist/documentAgent.js:344 | when processing succeeds, the ids queried are the fresh "doc_" ids, one per file, in file order |
| DocumentAgentDist.QueryPineconeWithDefaults | server/dist/documentAgent.js:224 | with the defaults, waits are a prefix of 1000, 2000, 4000, 8000 |
| DocumentAgentTs.EffectiveId | server/documentAgent.ts:194 | a given non-empty id is kept; otherwise a "doc_" id is made; never empty |
| DocumentAgentTs.ProcessDocument | server/documentAgent.ts:192-219 | runs the processing workflow from its seed; success returns 'success', the final text and the effective id |
| DocumentAgentTs.ProcessDocumentReportsId | server/documentAgent.ts:210-214 | the reported id is the given one when given, a fresh "doc_" id otherwise |
| DocumentAgentTs.QuerySeed | server/documentAgent.ts:232-234 | the retrieval prompt and a request that ends by naming the document |
| DocumentAgentTs.QueryDocument | server/documentAgent.ts:222-247 | runs the querying workflow; succeeds iff the run finishes, with status 'success' and the last message's content as text; a run error is rethrown |
| DocumentAgentTs.QueryOutputCoercion | server/documentAgent.ts:236-237 | string content is the message; other content is its JSON text |
| DocumentAgentTs.WorkflowToolSets | server/documentAgent.ts:109-111 | querying binds only `query_pinecone` (no `direct_chat`); processing binds only its three tools |
| DocumentAgentTs.QueryingRunUsesOnlyQueryPinecone | server/documentAgent.ts:158-163 | the querying run is unchanged when every tool other than `query_pinecone` is replaced |
| DocumentAgentTs.QueryPineconeWithDefaults | server/documentAgent.ts:170 | with the defaults, waits are a prefix of 2000, 4000, 8000, 16000 |
| FileHandler.ToLower | server/services/fileHandlerService.ts:46 | same length, each character lowered |
| FileHandler.ToLowerIdempotent | server/services/fileHandlerService.ts:46 | lowering twice is lowering once |
| FileHandler.GetLoaderForFileType | server/services/fileHandlerService.ts:8-19 | a loader exists exactly for '.pdf', '.docx' and '.csv' |
| FileHandler.ProcessFile | server/services/fileHandlerService.ts:45-59 | only the three loader types and the three image types can succeed, matched on the lowered extension |
| FileHandler.ExtractImageContent | server/services/fileHandlerService.ts:21-43 | OCR failure gives 'Failed to extract text from image'; no detections give ''; otherwise the first detection's description, or '' when it has none |
| FileHandler.ProcessFileIgnoresCase | server/services/fileHandlerService.ts:45-47 | the extension is matched case-insensitively |
| FileHandler.ProcessFileWithLoader | server/services/fileHandlerService.ts:49-52 | loader types return the loaded pages joined with newlines, or the loader's error |
| FileHandler.ProcessFileWithOcr | server/services/fileHandlerService.ts:54-56 | image types return the OCR result |
| FileHandler.ProcessFileUnsupported | server/services/fileHandlerService.ts:58 | other types fail with 'Unsupported file type: ' and the lowered extension, without loading or OCR |
| QuizAgent.FenceRemovals | server/dist/quizAgent.js:127-129 | each replace removes its marker ("```json" or "```" at the start, "```" at the end) together with the whitespace next to it when the marker is there, and changes nothing otherwise |
| QuizAgent.StripFencesIsSlice | server/dist/quizAgent.js:126-129 | the three removals leave a contiguous slice |
| QuizAgent.CleanIsSlice | server/dist/quizAgent.js:124-129 | the cleaned text is a slice of the trimmed text, so never longer |
| QuizAgent.StripFencesNoop | server/dist/quizAgent.js:126-129 | text without fences at either end is left as it is |
| QuizAgent.CleanWithoutFences | server/dist/quizAgent.js:124-129 | unfenced model output is only trimmed |
| QuizAgent.CleanQuizResponse | server/dist/quizAgent.js:124-129 | the cleaned response is never longer than the raw one |
| QuizAgent.CleanFencedBlock | server/dist/quizAgent.js:124-129 | "```json", newline, body, newline, "```" cleans to the body (body empty or without whitespace at its ends, not itself fenced) |
| QuizAgent.CleanEmptyFencedBlock | server/dist/quizAgent.js:127-129 | an empty fenced block cleans to the empty text |
| QuizAgent.ParseQuestions | server/dist/quizAgent.js:23-34 | a list of items parses iff every item is a valid question, item by item |
| QuizAgent.ParseQuestion | server/dist/quizAgent.js:23-33 | a parsed question comes from an object whose `question` and `explanation` strings and answer letter are the question's |
| QuizAgent.ParseQuiz | server/dist/quizAgent.js:34 | the quiz schema accepts exactly arrays, of any length, of valid questions |
| QuizAgent.ParseQuestionAccepts | server/dist/quizAgent.js:23-33 | a question is valid iff question and explanation are strings, options has string A-D, and correctAnswer is one of "A"-"D" |
| QuizAgent.ParseQuestionRoundTrip | server/dist/quizAgent.js:23-33 | a question's JSON form parses back to it, also with extra keys, which are dropped |
| QuizAgent.ParseQuizAnyLength | server/dist/quizAgent.js:34 | any list of questions in JSON form parses back to itself: the "exactly 2" of the prompt is not checked |
| QuizAgent.DecodeQuiz | server/dist/quizAgent.js:130-141 | succeeds iff the cleaned text parses and passes the schema; both failures give the same message |
| QuizAgent.GenerateQuiz | server/dist/quizAgent.js:100-147 | workflow errors are rethrown unchanged; a finished run's final text is decoded |
| QuizAgent.GenerateFromFencedBlock | server/dist/quizAgent.js:120-135 | a fenced block holding well-formed questions yields those questions |
| QuizAgent.TakeMatching | server/dist/quizAgent.js:70-74 | at most n records, all of the requested document |
| QuizAgent.TakeMatchingFromRanked | server/dist/quizAgent.js:74 | every record taken comes from the search's ranking |
| QuizAgent.OfDocumentOnly | server/dist/quizAgent.js:70-73 | the metadata filter keeps only records of the document, never more records than the ranking |
| QuizAgent.OfDocumentOnlyMembers | server/dist/quizAgent.js:70-73 | the filter keeps every ranked record of the document and nothing else |
| QuizAgent.TakeMatchingIsPrefix | server/dist/quizAgent.js:74 | a search limited to n returns the first n records the filter leaves, in ranking order, or all when fewer |
| QuizAgent.TakeMatchingAll | server/dist/quizAgent.js:74 | with no more than n records, all of the document, all are taken in order |
| QuizAgent.FetchDocumentText | server/dist/quizAgent.js:67-76 | with no record of the document in the index the fetched text is empty |
| QuizAgent.FetchDocumentTextSpec | server/dist/quizAgent.js:61-77 | the fetched text joins with blank lines the contents of the first 10 records of the document in ranking order (all when fewer), whatever else the ranking holds |
| QuizRoutes.Validate | server/dist/routes/quizRoutes.js:7-28 | falsy documentId gives 400; a generator error gives 500 with its message; a string is parsed; a non-array gives 500 'Invalid quiz format received from generator'; otherwise the array is accepted |
| QuizRoutes.AsQuiz | server/dist/routes/quizRoutes.js:15-27 | a string is accepted iff it parses to an array, another value iff it is an array, a thrown generator never; the accepted items are the array's |
| QuizRoutes.Project | server/dist/routes/quizRoutes.js:35-38 | the user view has one item per question, in order, with only `question` and `options`; only a null item fails |
| QuizRoutes.InsertKey | server/dist/routes/quizRoutes.js:30 | `Map.set` adds the key to the key order once |
| QuizRoutes.Evaluation | server/dist/routes/quizRoutes.js:55-106 | 200 iff id truthy, answers an array, quiz found, lengths equal, every answer A-D and the evaluator succeeds, and then the evaluator's result; otherwise, in the source's order, 400 'Valid quizId and answers array are required', 404 listing the stored ids, 400 for a count mismatch, 400 for a letter outside A-D, 500 with the evaluator's message |
| QuizRoutes.QuizStore.constructor | server/dist/routes/quizRoutes.js:4 | the store starts empty |
| QuizRoutes.QuizStore.HandleQuizGeneration | server/dist/routes/quizRoutes.js:5-54 | a rejected request leaves the store unchanged; an accepted one sets exactly the "quiz_" key (overwriting) and keeps the key order valid |
| QuizRoutes.QuizStore.HandleQuizEvaluation | server/dist/routes/quizRoutes.js:55-106 | the checks run in the source's order and the store is not modified |
| QuizRoutes.UserViewHidesAnswers | server/dist/routes/quizRoutes.js:35-43 | for generated questions the user view holds their text and options and nothing else |
| QuizRoutes.StoredQuizIsEvaluated | server/dist/routes/quizRoutes.js:29-30 | a stored quiz is found under its id and the evaluator gets it with the answers |
| QuizRoutes.AnswerCountCheckedBeforeLetters | server/dist/routes/quizRoutes.js:77-89 | a count mismatch is reported before letters are checked and before any evaluation |
| QuizRoutes.InsertKeyKeepsOrder | server/dist/routes/quizRoutes.js:29-30 | storing keeps ids and order in step; a new id goes last |
| DocumentRoutes.EffectiveQuery | server/routes/documentRoutes.ts:27 | a missing or empty query becomes 'give brief summary of these files' |
| DocumentRoutes.Entry | server/routes/documentRoutes.ts:59-78 | a success records the agent's id and status; a failure records the shared id, 'error' and the message |
| DocumentRoutes.AllEntries | server/dist/routes/documentRoutes.js:25-54 | one entry per uploaded file, in upload order |
| DocumentRoutes.Successful | server/routes/documentRoutes.ts:88-90 | exactly the entries with status 'success' |
| DocumentRoutes.SuccessfulAppend | server/routes/documentRoutes.ts:88-90 | filtering a concatenation filters each part, so order and repeats are kept |
| DocumentRoutes.FirstIndex | server/routes/documentRoutes.ts:100-102 | the position of the first occurrence |
| DocumentRoutes.UniqueIds | server/routes/documentRoutes.ts:100-102 | `[...new Set(ids)]`: distinct, the same ids, in order of first occurrence |
| DocumentRoutes.UniqueIdsConstant | server/dist/routes/documentRoutes.js:65-67 | a list repeating one id gives that single id |
| DocumentRoutes.FileNamesFor | server/routes/documentRoutes.ts:107-110 | the names of exactly the successful files with that id |
| DocumentRoutes.FileNamesForAppend | server/routes/documentRoutes.ts:107-110 | the names for a concatenation are those of each part in order, with repeats kept |
| DocumentRoutes.QueryFor | server/routes/documentRoutes.ts:112-133 | the query's status and message, or 'Failed to query documents', with the id's file names |
| DocumentRoutes.QueryResults | server/routes/documentRoutes.ts:104-135 | one result per distinct id, in order, each with that id and the names of its files |
| DocumentRoutes.Conclude | server/routes/documentRoutes.ts:88-97 | no success gives the 500 'Failed to process any documents' with every entry |
| DocumentRoutes.Respond | server/routes/documentRoutes.ts:31-39 | no files means a direct chat whose message is returned whatever its status, with no file effects |
| DocumentRoutes.HandleDocumentProcessing | server/routes/documentRoutes.ts:25-151 | the loop's response and effects equal the specification `Respond` |
| DocumentRoutes.EffectPathsFollowUploads | server/routes/documentRoutes.ts:51-85 | the paths processed and the paths unlinked are each exactly the upload paths, in upload order |
| DocumentRoutes.CallsUseSharedId | server/routes/documentRoutes.ts:55-58 | every processing call receives the shared id |
| DocumentRoutes.EachFileProcessedAndUnlinkedOnce | server/routes/documentRoutes.ts:51-85 | every upload is processed once with the shared id and unlinked once, in upload order, whatever the outcome |
| DocumentRoutes.QueriedIds | server/routes/documentRoutes.ts:100-135 | one result per distinct successful id, in order; every successful id is queried and only those |
| DocumentRoutes.SuccessfulIdsQueried | server/routes/documentRoutes.ts:88-102 | every successful entry's id is among the ids queried |
| DocumentRoutes.QueriedIdsSucceeded | server/routes/documentRoutes.ts:88-102 | every id queried is the id of a successful entry |
| DocumentRoutes.QueryFailureIsolated | server/dist/routes/documentRoutes.js:69-89 | a query's outcome for one id affects no other id's result |
| DocumentRoutes.NoSuccessNoQuery | server/dist/routes/documentRoutes.js:56-63 | with no success, no query result influences the response |
| DocumentRoutes.OneIdOneQuery | server/routes/documentRoutes.ts:100-121 | when successes share one id, exactly one query is made, listing every successful file |
| DocumentRoutes.SharedIdGivesOneQuery | server/routes/documentRoutes.ts:45-58 | with the compiled agent, which returns the id it is given, a request with a success makes one query for the shared id |
| DocumentRoutes.NoFilesAnswersDirectly | server/dist/routes/documentRoutes.js:10-18 | without files the compiled agent's direct chat reply or its error is the message, never 'Query is required' |
| Credentials.CredentialsService.constructor | server/services/credentialsService.ts:9-15 | every credential starts unset |
| Credentials.CredentialsService.SetCredentials | server/services/credentialsService.ts:24-30 | the record is replaced as a whole |
| Credentials.CredentialsService.GetOpenAIKey | server/services/credentialsService.ts:32-37 | the key iff it is set and non-empty, else 'OpenAI API key not set' |
| Credentials.CredentialsService.GetPineconeKey | server/dist/services/credentialsService.js:24-29 | the key iff it is set and non-empty, else 'Pinecone API key not set' |
| Credentials.CredentialsService.GetPineconeIndexName | server/services/credentialsService.ts:46-51 | the name iff it is set and non-empty, else 'Pinecone index name not set' |
| Credentials.Registry.GetInstance | server/dist/services/credentialsService.js:9-14 | the first call creates the instance, later calls return it unchanged |
| Credentials.SingletonIsShared | server/services/credentialsService.ts:17-22 | two `getInstance` calls give the same object, so credentials set through one are seen through the other |
| Credentials.FreshHolderFails | server/services/credentialsService.ts:32-51 | before anything is set every getter fails with its own message |
| Credentials.SetThenGet | server/services/credentialsService.ts:24-51 | after setting non-empty credentials every getter returns its value |

## Left out

- Text splitting (`RecursiveCharacterTextSplitter` with chunk size 1000 and overlap 200) is a parameter; its chunking rules are a library's.
- OpenAI chat models, embeddings, the Pinecone index and Google Vision OCR are external services; they are parameters returning a value or an error.
- LangGraph's own recursion limit and its error wording are library-internal; the agent loop takes a fuel bound, and running out of fuel is an error with a fixed message.
- AgentGraph.ToolNotFound: the text a tools node answers with for an unknown tool is the library's; the model uses a fixed short text rather than its exact wording.
- The compiled agent builds its Pinecone client, chat models and workflows lazily and caches them, so they keep the credentials of first use while the embeddings read fresh keys on every call; the model reads credentials on every call and does not capture that staleness.
- System prompt wording is not modelled; prompts are an enumeration. Human message templates are modelled exactly.
- `JSON.parse` and `JSON.stringify` are not modelled: parsing is a parameter and structured content carries its serialization.
- JSON numbers are integers; floating point is not modelled.
- `path.extname` is not modelled: the extension is an input.
- FileHandler.ToLower: lowers ASCII letters only, while `toLowerCase` also lowers other scripts.
- `Promise.all` timing and concurrency are not modelled: calls are made in list order and the first failure in list order is the one reported.
- `Math.random` ids are parameters (the suffix after "doc_" or "quiz_").
- Logging (`console.log`/`console.error`) is left out.
- HTTP plumbing (Express setup, CORS, multer, the uploads sweep, the set-credentials route) and the server bootstrap files are not part of this model.
- The outer `catch` of the upload route ('Error processing request') cannot be reached in the model, because every call it guards is caught inside; it is not modelled.
- Non-`Error` values thrown (the 'Error generating quiz' and 'Error evaluating quiz' fallbacks) are not modelled: every failure carries a message.
- Credential getter errors inside the vector tools are folded into the write or search outcome.
- The scoring done by `quizEvaluationAgent` is not part of this model; the evaluator is a parameter.
- QuizRoutes.Project: the TypeError message for a `null` question is V8's wording, fixed as a constant.
- DocumentRoutes.HandleDocumentProcessing: the fallback id in `sharedDocumentId || ...` is not modelled, because the shared id is never empty.
- Credentials.Registry.GetInstance: the static `instance` slot is a field of a registry object, since Dafny has no static mutable fields.
