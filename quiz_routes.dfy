/** The quiz HTTP handlers (`server/dist/routes/quizRoutes.js`) over the
    in-memory quiz store. The store is a JavaScript `Map`, modelled as a map
    from quiz id to the stored quiz plus the ids in insertion order (the
    order `quizzes.keys()` lists them in). The generator, `JSON.parse`, the
    random id suffix and the evaluator are parameters. */
module QuizRoutes {

  import opened Wrappers
  import opened Text
  import opened JsonValue
  import QuizAgent

  /** What the generator call produced: a thrown error, a string or a value. */
  datatype Generated = GenThrew(message: string) | GenString(text: string) | GenValue(value: Json)

  /** The answer-free view of a question sent to the user; an absent field is `None`. */
  datatype UserItem = UserItem(question: Option<Json>, options: Option<Json>)

  datatype Body =
    | ErrorBody(message: string)
    | QuizCreated(quizId: string, quiz: seq<UserItem>)
    | Evaluated(evaluation: Json)

  datatype Response = Response(status: nat, body: Body)

  const DocumentIdRequired := "documentId is required"
  const InvalidQuizFormat := "Invalid quiz format received from generator"
  /** The TypeError V8 raises for `q.question` when `q` is `null`. */
  const NullItemMessage := "Cannot read properties of null (reading 'question')"
  const QuizIdAndAnswersRequired := "Valid quizId and answers array are required"
  const QuizNotFoundPrefix := "Quiz not found. Available quizzes: "
  const AnswerCountMismatch := "Number of answers must match number of questions"
  const InvalidAnswerLetter := "All answers must be one of: A, B, C, or D"

  function QuizIdFor(suffix: string): string
  {
    "quiz_" + suffix
  }

  /** Validation before storing: a quiz (a JSON array) or the error response. */
  datatype Validation = Rejected(response: Response) | Accepted(quiz: seq<Json>)

  /** The generator output as the handler reads it: strings are parsed, other
      values taken as they are, and only an array is accepted. */
  function AsQuiz(g: Generated, parseJson: string -> Option<Json>): (r: Option<seq<Json>>)
    ensures g.GenThrew? ==> r.None?
    ensures g.GenString? ==> (r.Some? <==> parseJson(g.text).Some? && parseJson(g.text).value.JArray?)
    ensures g.GenValue? ==> (r.Some? <==> g.value.JArray?)
    ensures r.Some? && g.GenString? ==> parseJson(g.text) == Some(JArray(r.value))
    ensures r.Some? && g.GenValue? ==> g.value == JArray(r.value)
  {
    match g
    case GenThrew(_) => None
    case GenString(text) =>
      if parseJson(text).Some? && parseJson(text).value.JArray? then Some(parseJson(text).value.items) else None
    case GenValue(v) => if v.JArray? then Some(v.items) else None
  }

  /** The checks of `handleQuizGeneration` before the quiz is stored. */
  function Validate(documentId: Option<Json>, generate: Json -> Generated, parseJson: string -> Option<Json>): (r: Validation)
    ensures !Truthy(documentId) ==> r == Rejected(Response(400, ErrorBody(DocumentIdRequired)))
    ensures Truthy(documentId) && generate(documentId.value).GenThrew? ==>
      r == Rejected(Response(500, ErrorBody(generate(documentId.value).message)))
    ensures Truthy(documentId) && !generate(documentId.value).GenThrew? ==>
      match AsQuiz(generate(documentId.value), parseJson)
      case Some(quiz) => r == Accepted(quiz)
      case None => r == Rejected(Response(500, ErrorBody(InvalidQuizFormat)))
  {
    if !Truthy(documentId) then Rejected(Response(400, ErrorBody(DocumentIdRequired)))
    else
      var g := generate(documentId.value);
      if g.GenThrew? then Rejected(Response(500, ErrorBody(g.message)))
      else
        match AsQuiz(g, parseJson)
        case Some(quiz) => Accepted(quiz)
        case None => Rejected(Response(500, ErrorBody(InvalidQuizFormat)))
  }

  /** `quiz.map(q => ({ question: q.question, options: q.options }))`: only a
      `null` item makes the property read throw. */
  function Project(items: seq<Json>): (r: Result<seq<UserItem>>)
    ensures r.Ok? <==> forall i :: 0 <= i < |items| ==> items[i] != JNull
    ensures r.Err? ==> r.message == NullItemMessage
    ensures r.Ok? ==> |r.value| == |items|
    ensures r.Ok? ==> forall i :: 0 <= i < |items| ==>
      r.value[i] == UserItem(Field(items[i], "question"), Field(items[i], "options"))
  {
    if |items| == 0 then Ok([])
    else if items[0] == JNull then Err(NullItemMessage)
    else
      match Project(items[1..])
      case Err(e) =>
        assert exists i :: 1 <= i < |items| && items[i] == JNull;
        Err(e)
      case Ok(rest) => Ok([UserItem(Field(items[0], "question"), Field(items[0], "options"))] + rest)
  }

  /** The response once the quiz is stored under `quizId`. */
  function CreatedResponse(quizId: string, quiz: seq<Json>): Response
  {
    match Project(quiz)
    case Ok(view) => Response(200, QuizCreated(quizId, view))
    case Err(e) => Response(500, ErrorBody(e))
  }

  /** `Map.prototype.set`: a new key goes to the end of the key order, an
      existing key keeps its place. */
  function InsertKey(order: seq<string>, key: string): (r: seq<string>)
    ensures key in r && forall k :: k in r <==> k in order || k == key
  {
    if key in order then order else order + [key]
  }

  predicate Distinct(order: seq<string>)
  {
    forall i, j :: 0 <= i < j < |order| ==> order[i] != order[j]
  }

  /** Every answer is one of the strings "A" to "D". */
  predicate AllLetters(answers: seq<Json>)
  {
    forall i :: 0 <= i < |answers| ==> QuizAgent.ParseLetter(Some(answers[i])).Some?
  }

  /** `handleQuizEvaluation` on a store state, checks in the source's order. */
  function Evaluation(quizzes: map<string, seq<Json>>, order: seq<string>, quizId: Option<Json>, answers: Option<Json>,
                      evaluate: (seq<Json>, seq<Json>) -> Result<Json>): (r: Response)
    ensures r.status == 200 <==>
      && Truthy(quizId) && IsArray(answers) && quizId.value.JString? && quizId.value.s in quizzes
      && |answers.value.items| == |quizzes[quizId.value.s]| && AllLetters(answers.value.items)
      && evaluate(quizzes[quizId.value.s], answers.value.items).Ok?
    ensures r.status == 200 ==> r.body == Evaluated(evaluate(quizzes[quizId.value.s], answers.value.items).value)
    ensures !Truthy(quizId) || !IsArray(answers) ==> r == Response(400, ErrorBody(QuizIdAndAnswersRequired))
    ensures Truthy(quizId) && IsArray(answers) && !(quizId.value.JString? && quizId.value.s in quizzes) ==>
      r == Response(404, ErrorBody(QuizNotFoundPrefix + Join(", ", order)))
    ensures Truthy(quizId) && IsArray(answers) && quizId.value.JString? && quizId.value.s in quizzes ==>
      var quiz := quizzes[quizId.value.s];
      var given := answers.value.items;
      && (|given| != |quiz| ==> r == Response(400, ErrorBody(AnswerCountMismatch)))
      && (|given| == |quiz| && !AllLetters(given) ==> r == Response(400, ErrorBody(InvalidAnswerLetter)))
      && (|given| == |quiz| && AllLetters(given) && evaluate(quiz, given).Err? ==>
            r == Response(500, ErrorBody(evaluate(quiz, given).message)))
  {
    if !Truthy(quizId) || !IsArray(answers) then Response(400, ErrorBody(QuizIdAndAnswersRequired))
    else if !(quizId.value.JString? && quizId.value.s in quizzes) then
      Response(404, ErrorBody(QuizNotFoundPrefix + Join(", ", order)))
    else
      var quiz := quizzes[quizId.value.s];
      var given := answers.value.items;
      if |given| != |quiz| then Response(400, ErrorBody(AnswerCountMismatch))
      else if !AllLetters(given) then Response(400, ErrorBody(InvalidAnswerLetter))
      else
        match evaluate(quiz, given)
        case Ok(e) => Response(200, Evaluated(e))
        case Err(m) => Response(500, ErrorBody(m))
  }

  /** The module-level `quizzes` map of the route file. */
  class QuizStore {
    var quizzes: map<string, seq<Json>>
    var order: seq<string>

    /** The key order lists exactly the stored ids, each once. */
    ghost predicate Valid()
      reads this
    {
      (forall id :: id in quizzes <==> id in order) && Distinct(order)
    }

    constructor ()
      ensures Valid() && quizzes == map[] && order == []
    {
      quizzes := map[];
      order := [];
    }

    /** `handleQuizGeneration`. The quiz is stored before the user view is
        built, so a `null` question still leaves the quiz stored. */
    method HandleQuizGeneration(documentId: Option<Json>, generate: Json -> Generated,
                                parseJson: string -> Option<Json>, suffix: string) returns (res: Response)
      requires Valid()
      modifies this
      ensures Valid()
      ensures Validate(documentId, generate, parseJson).Rejected? ==>
        res == Validate(documentId, generate, parseJson).response && quizzes == old(quizzes) && order == old(order)
      ensures Validate(documentId, generate, parseJson).Accepted? ==>
        var quiz := Validate(documentId, generate, parseJson).quiz;
        && quizzes == old(quizzes)[QuizIdFor(suffix) := quiz]
        && order == InsertKey(old(order), QuizIdFor(suffix))
        && res == CreatedResponse(QuizIdFor(suffix), quiz)
    {
      var v := Validate(documentId, generate, parseJson);
      if v.Rejected? {
        return v.response;
      }
      var quizId := QuizIdFor(suffix);
      quizzes := quizzes[quizId := v.quiz];
      if quizId !in order {
        order := order + [quizId];
      }
      res := CreatedResponse(quizId, v.quiz);
    }

    /** `handleQuizEvaluation`: reads the store and changes nothing. */
    method HandleQuizEvaluation(quizId: Option<Json>, answers: Option<Json>,
                                evaluate: (seq<Json>, seq<Json>) -> Result<Json>) returns (res: Response)
      requires Valid()
      ensures res == Evaluation(quizzes, order, quizId, answers, evaluate)
    {
      if !Truthy(quizId) || !IsArray(answers) {
        return Response(400, ErrorBody(QuizIdAndAnswersRequired));
      }
      if !(quizId.value.JString? && quizId.value.s in quizzes) {
        return Response(404, ErrorBody(QuizNotFoundPrefix + Join(", ", order)));
      }
      var quiz := quizzes[quizId.value.s];
      var given := answers.value.items;
      if |given| != |quiz| {
        return Response(400, ErrorBody(AnswerCountMismatch));
      }
      var i := 0;
      while i < |given|
        invariant 0 <= i <= |given|
        invariant forall k :: 0 <= k < i ==> QuizAgent.ParseLetter(Some(given[k])).Some?
      {
        if QuizAgent.ParseLetter(Some(given[i])).None? {
          return Response(400, ErrorBody(InvalidAnswerLetter));
        }
        i := i + 1;
      }
      match evaluate(quiz, given)
      case Ok(e) => res := Response(200, Evaluated(e));
      case Err(m) => res := Response(500, ErrorBody(m));
    }
  }

  // ---- properties across the two handlers ----

  /** The view sent to the user of a well-formed generated question holds its
      text and its options and nothing else; the correct answer and the
      explanation stay on the server. */
  lemma UserViewHidesAnswers(qs: seq<QuizAgent.QuizQuestion>)
    ensures var quiz := seq(|qs|, i requires 0 <= i < |qs| => QuizAgent.QuestionJson(qs[i]));
      && CreatedResponse("q", quiz).status == 200
      && |CreatedResponse("q", quiz).body.quiz| == |qs|
      && (forall i :: 0 <= i < |qs| ==>
            CreatedResponse("q", quiz).body.quiz[i]
            == UserItem(Some(JString(qs[i].question)), Some(QuizAgent.QuestionJson(qs[i]).fields["options"])))
  {
    var quiz := seq(|qs|, i requires 0 <= i < |qs| => QuizAgent.QuestionJson(qs[i]));
    assert forall i :: 0 <= i < |quiz| ==> quiz[i] != JNull;
  }

  /** A quiz stored by the generation handler is found by the evaluation
      handler under the id that was returned, and with answers of the right
      number, each A to D, the evaluator sees exactly the stored quiz and the
      given answers. */
  lemma StoredQuizIsEvaluated(quizzes: map<string, seq<Json>>, order: seq<string>, suffix: string, quiz: seq<Json>,
                              answers: seq<Json>, evaluate: (seq<Json>, seq<Json>) -> Result<Json>)
    requires |answers| == |quiz| && AllLetters(answers)
    requires evaluate(quiz, answers).Ok?
    ensures Evaluation(quizzes[QuizIdFor(suffix) := quiz], InsertKey(order, QuizIdFor(suffix)),
                       Some(JString(QuizIdFor(suffix))), Some(JArray(answers)), evaluate)
            == Response(200, Evaluated(evaluate(quiz, answers).value))
  {
  }

  /** A check that fails stops the handler before the next: an answer count
      mismatch is reported even when the answers are also not letters, and
      the evaluator's result is then irrelevant. */
  lemma AnswerCountCheckedBeforeLetters(quizzes: map<string, seq<Json>>, order: seq<string>, id: string, answers: seq<Json>,
                                        e1: (seq<Json>, seq<Json>) -> Result<Json>, e2: (seq<Json>, seq<Json>) -> Result<Json>)
    requires id != "" && id in quizzes && |answers| != |quizzes[id]|
    ensures Evaluation(quizzes, order, Some(JString(id)), Some(JArray(answers)), e1)
         == Evaluation(quizzes, order, Some(JString(id)), Some(JArray(answers)), e2)
         == Response(400, ErrorBody(AnswerCountMismatch))
  {
  }

  /** Storing a quiz keeps the store's key order valid, and the new id is
      listed once, after the ids stored before it. */
  lemma {:induction false} InsertKeyKeepsOrder(quizzes: map<string, seq<Json>>, order: seq<string>, key: string, quiz: seq<Json>)
    requires (forall id :: id in quizzes <==> id in order) && Distinct(order)
    ensures var o := InsertKey(order, key);
      && (forall id :: id in quizzes[key := quiz] <==> id in o) && Distinct(o)
      && o[..|order|] == order
      && (key !in quizzes ==> o == order + [key])
  {
  }
}
