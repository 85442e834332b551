/** The quiz generator (`server/dist/quizAgent.js`): a workflow with the
    single tool `fetch_document_content`, whose final text is cleaned of code
    fences, parsed as JSON and checked against the quiz schema. `JSON.parse`
    is a parameter (`None` when it throws); the schema check is modelled in
    full, including zod's dropping of keys the schema does not name. */
module QuizAgent {

  import opened Wrappers
  import opened Text
  import opened JsonValue
  import opened AgentGraph
  import opened VectorRecords

  const Tools := [FetchDocumentContent]

  // ---- response cleanup ----

  /** The length of the match of `/^```json\s*&#47;`: a leading "```json" and
      the whitespace run after it; 0 when the text does not start with it. */
  function JsonFenceMatch(s: string): (n: nat)
    ensures n <= |s|
  {
    if StartsWith(s, "```json") then 7 + LeadingWhitespace(s[7..]) else 0
  }

  /** `.replace(/^```json\s*&#47;, '')`: the match, if any, is removed. */
  function StripJsonFence(s: string): string
  {
    s[JsonFenceMatch(s)..]
  }

  /** The length of the match of `/^```\s*&#47;`. */
  function FenceMatch(s: string): (n: nat)
    ensures n <= |s|
  {
    if StartsWith(s, "```") then 3 + LeadingWhitespace(s[3..]) else 0
  }

  /** `.replace(/^```\s*&#47;, '')`. */
  function StripFence(s: string): string
  {
    s[FenceMatch(s)..]
  }

  /** The length of the match of `/\s*```$/`: a trailing "```" and the whitespace
      run before it. The leftmost match starts where that run starts, so the
      whole run goes with the fence. */
  function ClosingFenceMatch(s: string): (n: nat)
    ensures n <= |s|
  {
    if EndsWith(s, "```") then 3 + TrailingWhitespace(s[..|s| - 3]) else 0
  }

  /** `.replace(/\s*```$/, '')`. */
  function StripClosingFence(s: string): string
  {
    s[..|s| - ClosingFenceMatch(s)]
  }

  /** Each removal takes off the fence and the whitespace next to it when
      the fence is there, and changes nothing otherwise. */
  lemma FenceRemovals(s: string)
    ensures StartsWith(s, "```json") ==> StripJsonFence(s) == TrimStart(s[7..])
    ensures !StartsWith(s, "```json") ==> StripJsonFence(s) == s
    ensures StartsWith(s, "```") ==> StripFence(s) == TrimStart(s[3..])
    ensures !StartsWith(s, "```") ==> StripFence(s) == s
    ensures EndsWith(s, "```") ==> StripClosingFence(s) == TrimEnd(s[..|s| - 3])
    ensures !EndsWith(s, "```") ==> StripClosingFence(s) == s
  {
  }

  /** The three fence removals, in the order the source applies them. */
  function StripFences(t: string): string
  {
    StripClosingFence(StripFence(StripJsonFence(t)))
  }

  /** The cleanup of the raw model text before parsing. */
  function CleanQuizResponse(raw: string): (r: string)
    ensures |r| <= |raw|
  {
    StripFences(Trim(raw))
  }

  lemma StripFencesIsSlice(t: string) returns (a: nat, b: nat)
    ensures a <= b <= |t| && StripFences(t) == t[a..b]
  {
    var k1 := JsonFenceMatch(t);
    var s1 := t[k1..];
    var k2 := FenceMatch(s1);
    var s2 := s1[k2..];
    var k3 := ClosingFenceMatch(s2);
    DropDropTake(t, k1, k2, k3);
    a, b := k1 + k2, |t| - k3;
  }

  /** Dropping `k1` and then `k2` characters and then keeping all but the last `k3` leaves one slice. */
  lemma DropDropTake(t: string, k1: nat, k2: nat, k3: nat)
    requires k1 + k2 + k3 <= |t|
    ensures t[k1..][k2..][..|t| - k1 - k2 - k3] == t[k1 + k2..|t| - k3]
  {
  }

  /** The cleaned text is a contiguous piece of the trimmed text, so it is never longer. */
  lemma CleanIsSlice(raw: string) returns (a: nat, b: nat)
    ensures a <= b <= |Trim(raw)| && CleanQuizResponse(raw) == Trim(raw)[a..b]
  {
    a, b := StripFencesIsSlice(Trim(raw));
  }

  lemma StripFencesNoop(t: string)
    requires !StartsWith(t, "```") && !EndsWith(t, "```")
    ensures StripFences(t) == t
  {
    assert !StartsWith(t, "```json") by {
      if |t| >= 7 {
        assert t[..7][..3] == t[..3];
      }
    }
  }

  /** Text without fences at either end is only trimmed. */
  lemma CleanWithoutFences(raw: string)
    requires !StartsWith(Trim(raw), "```") && !EndsWith(Trim(raw), "```")
    ensures CleanQuizResponse(raw) == Trim(raw)
  {
    StripFencesNoop(Trim(raw));
  }

  lemma OpeningJsonFence(body: string)
    requires body != [] && !IsWhitespace(body[0])
    ensures StripJsonFence("```json\n" + body + "\n```") == body + "\n```"
  {
    var raw := "```json\n" + body + "\n```";
    assert raw[..7] == "```json";
    var rest := raw[7..];
    assert rest[0] == '\n' && rest[1..] == body + "\n```";
    var s1 := body + "\n```";
    assert s1[0] == body[0];
    assert TrimStart(s1) == s1;
  }

  lemma NoSecondFence(body: string)
    requires body != [] && !StartsWith(body, "```")
    ensures StripFence(body + "\n```") == body + "\n```"
  {
    var s1 := body + "\n```";
    assert !StartsWith(s1, "```") by {
      if |body| >= 3 {
        assert s1[..3] == body[..3];
      } else {
        assert s1[|body|] == '\n';
      }
    }
  }

  lemma ClosingFence(body: string)
    requires body != [] && !IsWhitespace(body[|body| - 1])
    ensures StripClosingFence(body + "\n```") == body
  {
    var s1 := body + "\n```";
    assert s1[|s1| - 3..] == "```";
    var cut := s1[..|s1| - 3];
    assert cut == body + "\n";
    assert cut[|cut| - 1] == '\n' && cut[..|cut| - 1] == body;
    assert TrimEnd(cut) == TrimEnd(body);
  }

  /** A fenced JSON block loses exactly its fences and the line breaks next to
      them, provided the body has no whitespace at its ends and does not itself
      start with a fence. */
  lemma CleanFencedBlock(body: string)
    requires body == [] || (!IsWhitespace(body[0]) && !IsWhitespace(body[|body| - 1]))
    requires !StartsWith(body, "```")
    ensures CleanQuizResponse("```json\n" + body + "\n```") == body
  {
    if body == [] {
      assert "```json\n" + body + "\n```" == "```json\n\n```";
      CleanEmptyFencedBlock();
    } else {
      var raw := "```json\n" + body + "\n```";
      assert raw[0] == '`' && raw[|raw| - 1] == '`';
      TrimNoop(raw);
      OpeningJsonFence(body);
      NoSecondFence(body);
      ClosingFence(body);
    }
  }

  /** An empty fenced block: the JSON fence's `\s*` takes both line breaks,
      and the second pattern then removes the closing fence as an opening one. */
  lemma CleanEmptyFencedBlock()
    ensures CleanQuizResponse("```json\n\n```") == ""
  {
    var raw := "```json\n\n```";
    assert raw[0] == '`' && raw[|raw| - 1] == '`';
    TrimNoop(raw);
    assert raw[..7] == "```json";
    var after := raw[7..];
    assert after == "\n\n```";
    assert after[1..] == "\n```" && after[1..][1..] == "```";
    assert LeadingWhitespace("```") == 0;
    assert LeadingWhitespace(after) == 2;
    var s1 := raw[9..];
    assert s1 == "```";
    assert StripJsonFence(raw) == s1;
    assert LeadingWhitespace(s1[3..]) == 0;
    assert StripFence(s1) == "";
  }

  // ---- schema ----

  datatype Letter = A | B | C | D

  datatype Options = Options(a: string, b: string, c: string, d: string)

  /** A question as `quizSchema.parse` returns it: the four schema keys only. */
  datatype QuizQuestion = QuizQuestion(question: string, options: Options, correctAnswer: Letter, explanation: string)

  function StringField(j: Json, key: string): Option<string>
  {
    match Field(j, key)
    case Some(JString(s)) => Some(s)
    case _ => None
  }

  /** `z.enum(['A', 'B', 'C', 'D'])`. */
  function ParseLetter(j: Option<Json>): Option<Letter>
  {
    match j
    case Some(JString(s)) =>
      if s == "A" then Some(A) else if s == "B" then Some(B)
      else if s == "C" then Some(C) else if s == "D" then Some(D) else None
    case _ => None
  }

  function ParseOptions(j: Option<Json>): Option<Options>
  {
    if j.None? then None
    else
      var a, b, c, d := StringField(j.value, "A"), StringField(j.value, "B"), StringField(j.value, "C"), StringField(j.value, "D");
      if a.Some? && b.Some? && c.Some? && d.Some? then Some(Options(a.value, b.value, c.value, d.value)) else None
  }

  /** `quizQuestionSchema.parse`. */
  function ParseQuestion(j: Json): (r: Option<QuizQuestion>)
    ensures r.Some? ==> j.JObject?
    ensures r.Some? ==>
      && Field(j, "question") == Some(JString(r.value.question))
      && Field(j, "explanation") == Some(JString(r.value.explanation))
      && ParseLetter(Field(j, "correctAnswer")) == Some(r.value.correctAnswer)
  {
    var q, o, l, e := StringField(j, "question"), ParseOptions(Field(j, "options")), ParseLetter(Field(j, "correctAnswer")), StringField(j, "explanation");
    if q.Some? && o.Some? && l.Some? && e.Some? then Some(QuizQuestion(q.value, o.value, l.value, e.value)) else None
  }

  function ParseQuestions(items: seq<Json>): (r: Option<seq<QuizQuestion>>)
    ensures r.Some? <==> forall i :: 0 <= i < |items| ==> ParseQuestion(items[i]).Some?
    ensures r.Some? ==> |r.value| == |items| && forall i :: 0 <= i < |items| ==> ParseQuestion(items[i]) == Some(r.value[i])
  {
    if |items| == 0 then Some([])
    else
      match ParseQuestion(items[0])
      case None => None
      case Some(q) =>
        match ParseQuestions(items[1..])
        case None =>
          assert exists i :: 1 <= i < |items| && ParseQuestion(items[i]).None?;
          None
        case Some(qs) => Some([q] + qs)
  }

  /** `quizSchema.parse`: an array, of any length, of valid questions. */
  function ParseQuiz(j: Json): (r: Option<seq<QuizQuestion>>)
    ensures r.Some? <==> j.JArray? && forall i :: 0 <= i < |j.items| ==> ParseQuestion(j.items[i]).Some?
    ensures r.Some? ==> |r.value| == |j.items| && forall i :: 0 <= i < |j.items| ==> ParseQuestion(j.items[i]) == Some(r.value[i])
  {
    if j.JArray? then ParseQuestions(j.items) else None
  }

  function LetterText(l: Letter): string
  {
    match l
    case A => "A"
    case B => "B"
    case C => "C"
    case D => "D"
  }

  function OptionsJson(o: Options): Json
  {
    JObject(map["A" := JString(o.a), "B" := JString(o.b), "C" := JString(o.c), "D" := JString(o.d)])
  }

  /** The JSON form of a question, as the prompt asks the model to write it. */
  function QuestionJson(q: QuizQuestion): Json
  {
    JObject(map[
      "question" := JString(q.question),
      "options" := OptionsJson(q.options),
      "correctAnswer" := JString(LetterText(q.correctAnswer)),
      "explanation" := JString(q.explanation)])
  }

  /** What the schema accepts, both ways: string question and explanation,
      an options object with four strings, and a correct answer among A-D. */
  lemma ParseQuestionAccepts(j: Json)
    ensures ParseQuestion(j).Some? <==>
      && StringField(j, "question").Some? && StringField(j, "explanation").Some?
      && Field(j, "options").Some?
      && StringField(Field(j, "options").value, "A").Some? && StringField(Field(j, "options").value, "B").Some?
      && StringField(Field(j, "options").value, "C").Some? && StringField(Field(j, "options").value, "D").Some?
      && Field(j, "correctAnswer") in {Some(JString("A")), Some(JString("B")), Some(JString("C")), Some(JString("D"))}
  {
  }

  /** Any well-formed question parses back to itself, and keys outside the
      schema are dropped rather than rejected. */
  lemma ParseQuestionRoundTrip(q: QuizQuestion, extra: map<string, Json>)
    requires forall k :: k in extra ==> k !in {"question", "options", "correctAnswer", "explanation"}
    ensures ParseQuestion(QuestionJson(q)) == Some(q)
    ensures ParseQuestion(JObject(QuestionJson(q).fields + extra)) == Some(q)
  {
    var fields := QuestionJson(q).fields;
    ParsesFromFields(fields, q);
    var merged := fields + extra;
    assert forall k :: k in fields ==> k in merged && merged[k] == fields[k];
    ParsesFromFields(merged, q);
  }

  /** An object whose four schema keys hold the JSON forms of a question's parts parses to that question. */
  lemma ParsesFromFields(fields: map<string, Json>, q: QuizQuestion)
    requires "question" in fields && fields["question"] == JString(q.question)
    requires "options" in fields && fields["options"] == OptionsJson(q.options)
    requires "correctAnswer" in fields && fields["correctAnswer"] == JString(LetterText(q.correctAnswer))
    requires "explanation" in fields && fields["explanation"] == JString(q.explanation)
    ensures ParseQuestion(JObject(fields)) == Some(q)
  {
    assert ParseOptions(Some(OptionsJson(q.options))) == Some(q.options);
    assert ParseLetter(Some(JString(LetterText(q.correctAnswer)))) == Some(q.correctAnswer) by {
      match q.correctAnswer
      case A => case B => case C => case D =>
    }
  }

  /** The schema does not limit the number of questions: a quiz of any length
      (the prompt's "exactly 2" is not checked) parses back to itself. */
  lemma ParseQuizAnyLength(qs: seq<QuizQuestion>)
    ensures ParseQuiz(JArray(seq(|qs|, i requires 0 <= i < |qs| => QuestionJson(qs[i])))) == Some(qs)
  {
    var j := JArray(seq(|qs|, i requires 0 <= i < |qs| => QuestionJson(qs[i])));
    forall i | 0 <= i < |qs|
      ensures ParseQuestion(j.items[i]) == Some(qs[i])
    {
      ParseQuestionRoundTrip(qs[i], map[]);
    }
    var r := ParseQuiz(j).value;
    assert r == qs;
  }

  // ---- generation ----

  const ParseFailedMessage := "Failed to parse quiz response. The model returned invalid JSON."

  const QuizRequestStart := "Create a quiz with 2 multiple choice questions based on the content from document ID: "
  const QuizRequestEnd := ". Remember to return ONLY the JSON array with no additional text."

  /** The workflow's first messages: the quiz prompt and the request naming the document. */
  function GenerationSeed(documentId: string): seq<Message>
  {
    [System(QuizGenerator), Human(QuizRequestStart + documentId + QuizRequestEnd)]
  }

  /** Everything after the workflow: clean, parse, validate; a parse failure
      and a schema failure give the same error. */
  function DecodeQuiz(raw: string, parseJson: string -> Option<Json>): (r: Result<seq<QuizQuestion>>)
    ensures r.Err? ==> r.message == ParseFailedMessage
    ensures r.Ok? <==> parseJson(CleanQuizResponse(raw)).Some? && ParseQuiz(parseJson(CleanQuizResponse(raw)).value).Some?
    ensures r.Ok? ==> Some(r.value) == ParseQuiz(parseJson(CleanQuizResponse(raw)).value)
  {
    match parseJson(CleanQuizResponse(raw))
    case None => Err(ParseFailedMessage)
    case Some(j) =>
      match ParseQuiz(j)
      case None => Err(ParseFailedMessage)
      case Some(quiz) => Ok(quiz)
  }

  /** `generateQuiz(documentId)`: workflow errors are rethrown unchanged; a
      finished run's final text is decoded. */
  function GenerateQuiz(documentId: string, model: seq<Message> -> Result<Reply>, invoke: (ToolName, ToolCall) -> Content,
                        fuel: nat, parseJson: string -> Option<Json>): (r: Result<seq<QuizQuestion>>)
    ensures var run := RunGraph(model, Tools, invoke, GenerationSeed(documentId), fuel);
      && (run.Err? ==> r == Err(run.message))
      && (run.Ok? ==> r == DecodeQuiz(FinalText(run.value), parseJson))
  {
    match RunGraph(model, Tools, invoke, GenerationSeed(documentId), fuel)
    case Err(e) => Err(e)
    case Ok(h) => DecodeQuiz(FinalText(h), parseJson)
  }

  /** A model that answers with a fenced JSON block of well-formed questions
      produces those questions, when the parser reads the block's body as that
      JSON. */
  lemma GenerateFromFencedBlock(body: string, qs: seq<QuizQuestion>, parseJson: string -> Option<Json>)
    requires body != [] && !IsWhitespace(body[0]) && !IsWhitespace(body[|body| - 1])
    requires !StartsWith(body, "```")
    requires parseJson(body) == Some(JArray(seq(|qs|, i requires 0 <= i < |qs| => QuestionJson(qs[i]))))
    ensures DecodeQuiz("```json\n" + body + "\n```", parseJson) == Ok(qs)
  {
    CleanFencedBlock(body);
    ParseQuizAnyLength(qs);
  }

  // ---- the fetch_document_content tool ----

  /** The record's metadata carries `documentId` under the document-id key. */
  predicate OfDocument(rec: Record, documentId: string)
  {
    DocumentIdKey in rec.metadata && rec.metadata[DocumentIdKey] == SString(documentId)
  }

  function TakeMatching(ranked: seq<Record>, documentId: string, n: nat): (r: seq<Record>)
    ensures |r| <= n
    ensures forall i :: 0 <= i < |r| ==> OfDocument(r[i], documentId)
  {
    if n == 0 || |ranked| == 0 then []
    else if OfDocument(ranked[0], documentId) then
      [ranked[0]] + TakeMatching(ranked[1..], documentId, n - 1)
    else TakeMatching(ranked[1..], documentId, n)
  }

  /** Every fetched record is one of the ranked records. */
  lemma {:induction false} TakeMatchingFromRanked(ranked: seq<Record>, documentId: string, n: nat)
    ensures forall x :: x in TakeMatching(ranked, documentId, n) ==> x in ranked
  {
    if n > 0 && |ranked| > 0 {
      var rest := ranked[1..];
      TakeMatchingFromRanked(rest, documentId, if OfDocument(ranked[0], documentId) then n - 1 else n);
      assert forall x :: x in rest ==> x in ranked;
    }
  }

  /** The records of the document, in ranking order: what the metadata
      filter leaves of the ranking before any limit applies. */
  function OfDocumentOnly(ranked: seq<Record>, documentId: string): (r: seq<Record>)
    ensures |r| <= |ranked|
    ensures forall i :: 0 <= i < |r| ==> OfDocument(r[i], documentId)
  {
    if |ranked| == 0 then []
    else (if OfDocument(ranked[0], documentId) then [ranked[0]] else []) + OfDocumentOnly(ranked[1..], documentId)
  }

  /** The filter keeps every ranked record of the document and nothing else. */
  lemma {:induction false} OfDocumentOnlyMembers(ranked: seq<Record>, documentId: string)
    ensures forall x :: x in OfDocumentOnly(ranked, documentId) <==> x in ranked && OfDocument(x, documentId)
  {
    if |ranked| > 0 {
      var rest := ranked[1..];
      OfDocumentOnlyMembers(rest, documentId);
      assert ranked == [ranked[0]] + rest;
    }
  }

  /** The search with a limit of `n` takes the first `n` records the filter
      leaves, or all of them when there are fewer. */
  lemma {:induction false} TakeMatchingIsPrefix(ranked: seq<Record>, documentId: string, n: nat)
    ensures var only := OfDocumentOnly(ranked, documentId);
      TakeMatching(ranked, documentId, n) == only[..if |only| < n then |only| else n]
  {
    if n > 0 && |ranked| > 0 {
      var rest := ranked[1..];
      var tail := OfDocumentOnly(rest, documentId);
      if OfDocument(ranked[0], documentId) {
        TakeMatchingIsPrefix(rest, documentId, n - 1);
        var k := if |tail| < n - 1 then |tail| else n - 1;
        assert ([ranked[0]] + tail)[..k + 1] == [ranked[0]] + tail[..k];
      } else {
        TakeMatchingIsPrefix(rest, documentId, n);
        assert OfDocumentOnly(ranked, documentId) == tail;
      }
    }
  }

  /** `fetch_document_content`: the contents of the first 10 records of the
      document, in the order the index ranks them, joined with a blank line.
      `ranked` is the index's ranking for the empty query. */
  function FetchDocumentText(ranked: seq<Record>, documentId: string): (r: string)
    ensures (forall i :: 0 <= i < |ranked| ==> !OfDocument(ranked[i], documentId)) ==> r == ""
  {
    TakeMatchingIsPrefix(ranked, documentId, 10);
    OfDocumentOnlyMembers(ranked, documentId);
    Join("\n\n", Contents(TakeMatching(ranked, documentId, 10)))
  }

  /** When the index holds at most 10 records of the document, all of them are
      fetched, in ranking order. */
  lemma {:induction false} TakeMatchingAll(ranked: seq<Record>, documentId: string, n: nat)
    requires forall i :: 0 <= i < |ranked| ==> OfDocument(ranked[i], documentId)
    requires |ranked| <= n
    ensures TakeMatching(ranked, documentId, n) == ranked
  {
    if |ranked| > 0 {
      var rest := ranked[1..];
      assert OfDocument(ranked[0], documentId);
      assert TakeMatching(ranked, documentId, n) == [ranked[0]] + TakeMatching(rest, documentId, n - 1);
      TakeMatchingAll(rest, documentId, n - 1);
      assert ranked == [ranked[0]] + rest;
    }
  }

  /** The fetched text is built only from records of the requested document,
      at most 10 of them, and when the index holds no more than 10 records
      and all of them belong to the document, it is all of them in ranking
      order. */
  lemma FetchDocumentTextSpec(ranked: seq<Record>, documentId: string)
    ensures var picked := TakeMatching(ranked, documentId, 10);
      && FetchDocumentText(ranked, documentId) == Join("\n\n", Contents(picked))
      && |picked| <= 10
      && (forall i :: 0 <= i < |picked| ==> picked[i] in ranked && OfDocument(picked[i], documentId))
    ensures (forall i :: 0 <= i < |ranked| ==> OfDocument(ranked[i], documentId)) && |ranked| <= 10
            ==> FetchDocumentText(ranked, documentId) == Join("\n\n", Contents(ranked))
    ensures var only := OfDocumentOnly(ranked, documentId);
      FetchDocumentText(ranked, documentId) == Join("\n\n", Contents(only[..if |only| < 10 then |only| else 10]))
  {
    TakeMatchingIsPrefix(ranked, documentId, 10);
    if (forall i :: 0 <= i < |ranked| ==> OfDocument(ranked[i], documentId)) && |ranked| <= 10 {
      TakeMatchingAll(ranked, documentId, 10);
    }
    TakeMatchingFromRanked(ranked, documentId, 10);
  }
}
