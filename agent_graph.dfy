/** The tool-calling loop every workflow of the server is built from: an
    `agent` node that asks the chat model for a reply, the router
    `shouldContinue`, and a `tools` node that runs the requested tools and
    loops back to `agent`. The chat model is a script from the message
    history to a reply (or an error), and the tools are one invoker function;
    their insides are not modelled. */
module AgentGraph {

  import opened Wrappers
  import opened JsonValue

  /** The system prompts the workflows seed a conversation with, by name; their wording is not modelled. */
  datatype SystemPrompt =
    | DocumentProcessing   // processDocument's "document processing assistant"
    | DocumentQuerying     // queryDocument with a documentId: "document querying assistant"
    | DirectChatRouting    // queryDocument without a documentId: "use the direct_chat tool"
    | HelpfulAssistant     // the direct chat prompt of chatWithContext and of the direct_chat tool
    | QuizGenerator        // generateQuiz's JSON-only quiz prompt

  /** Message content: a string, or structured content that the server turns
      into text with `JSON.stringify`; the serialisation is carried along
      rather than computed. */
  datatype Content = Text(text: string) | Structured(serialization: string)

  /** `typeof content === 'string' ? content : JSON.stringify(content)`. */
  function ContentText(c: Content): string
  {
    match c
    case Text(s) => s
    case Structured(j) => j
  }

  /** The tools the server defines. */
  datatype ToolName = ExtractContent | SplitText | SaveToPinecone | QueryPinecone | DirectChat | FetchDocumentContent
  {
    /** The name the model uses to request the tool. */
    function Name(): string
    {
      match this
      case ExtractContent => "extract_content"
      case SplitText => "split_text"
      case SaveToPinecone => "save_to_pinecone"
      case QueryPinecone => "query_pinecone"
      case DirectChat => "direct_chat"
      case FetchDocumentContent => "fetch_document_content"
    }
  }

  datatype ToolCall = ToolCall(id: string, name: string, args: Json)

  /** A model reply; `toolCalls` is `additional_kwargs.tool_calls`, `None` when absent. */
  datatype Reply = Reply(content: Content, toolCalls: Option<seq<ToolCall>>)

  datatype Message =
    | System(prompt: SystemPrompt)
    | Human(text: string)
    | AI(reply: Reply)
    | ToolResult(content: Content, toolCallId: string)

  datatype Route = Tools | End

  /** `shouldContinue`: go to the tools node when the last message carries a
      `tool_calls` field at all (an empty array is truthy), otherwise end. */
  function ShouldContinue(messages: seq<Message>): (r: Route)
    requires |messages| > 0
    ensures r == Tools <==> exists content, calls :: messages[|messages| - 1] == AI(Reply(content, Some(calls)))
  {
    var last := messages[|messages| - 1];
    if last.AI? && last.reply.toolCalls.Some? then
      assert last == AI(Reply(last.reply.content, Some(last.reply.toolCalls.value)));
      Tools
    else End
  }

  /** An empty `tool_calls` list still routes to the tools, and anything but
      a model reply ends the run. */
  lemma ShouldContinueIff(messages: seq<Message>)
    requires |messages| > 0
    ensures messages[|messages| - 1].AI? && messages[|messages| - 1].reply.toolCalls == Some([]) ==>
      ShouldContinue(messages) == Tools
    ensures !messages[|messages| - 1].AI? ==> ShouldContinue(messages) == End
  {
  }

  /** Looks a requested tool up by name in a workflow's tool set. */
  function Bind(tools: seq<ToolName>, name: string): (r: Option<ToolName>)
    ensures r.Some? ==> r.value in tools && r.value.Name() == name
    ensures r.None? ==> forall t :: t in tools ==> t.Name() != name
  {
    if |tools| == 0 then None
    else if tools[0].Name() == name then Some(tools[0])
    else Bind(tools[1..], name)
  }

  /** The text a tool node answers with when the model requests a tool the
      workflow does not have; its exact wording belongs to the library. */
  function ToolNotFound(name: string): string
  {
    "Tool \"" + name + "\" not found."
  }

  /** The tools node's answer to one call: the bound tool's output, tagged with the call's id. */
  function Dispatch(tools: seq<ToolName>, invoke: (ToolName, ToolCall) -> Content, call: ToolCall): Message
  {
    match Bind(tools, call.name)
    case Some(t) => ToolResult(invoke(t, call), call.id)
    case None => ToolResult(Text(ToolNotFound(call.name)), call.id)
  }

  function DispatchAll(tools: seq<ToolName>, invoke: (ToolName, ToolCall) -> Content, calls: seq<ToolCall>): seq<Message>
  {
    seq(|calls|, i requires 0 <= i < |calls| => Dispatch(tools, invoke, calls[i]))
  }

  /** The error a run reports when it uses up its step budget; LangGraph's
      own recursion limit and wording are not modelled. */
  const RecursionLimitMessage := "Recursion limit reached"

  /** A final history: it ends with a model reply that requests no tool. */
  predicate Terminal(h: seq<Message>)
  {
    |h| > 0 && h[|h| - 1].AI? && h[|h| - 1].reply.toolCalls.None?
  }

  /** `app.invoke({messages: history})` with at most `fuel` model calls. A
      model error ends the run with that error. On success the history only
      grew (it is append-only) and it ends with a reply that requests no tool. */
  function RunGraph(model: seq<Message> -> Result<Reply>, tools: seq<ToolName>,
                    invoke: (ToolName, ToolCall) -> Content, history: seq<Message>, fuel: nat): (r: Result<seq<Message>>)
    ensures r.Ok? ==> |r.value| > |history| && r.value[..|history|] == history
    ensures r.Ok? ==> Terminal(r.value) && ShouldContinue(r.value) == End
    decreases fuel
  {
    if fuel == 0 then Err(RecursionLimitMessage)
    else
      match model(history)
      case Err(e) => Err(e)
      case Ok(reply) =>
        var h := history + [AI(reply)];
        if ShouldContinue(h) == End then Ok(h)
        else
          var next := h + DispatchAll(tools, invoke, reply.toolCalls.value);
          var r := RunGraph(model, tools, invoke, next, fuel - 1);
          assert r.Ok? ==> r.value[..|history|] == next[..|history|];
          r
  }

  /** The workflow's output: the last message's content as text. */
  function FinalText(h: seq<Message>): string
    requires Terminal(h)
  {
    ContentText(h[|h| - 1].reply.content)
  }

  /** What both versions of `queryDocument` make of a querying run: the
      final message's text when the run finishes, the run's error otherwise. */
  function RunAnswer(model: seq<Message> -> Result<Reply>, tools: seq<ToolName>,
                     invoke: (ToolName, ToolCall) -> Content, seed: seq<Message>, fuel: nat): (r: Result<string>)
    ensures var run := RunGraph(model, tools, invoke, seed, fuel);
      && (r.Ok? <==> run.Ok?)
      && (r.Ok? ==> r.value == FinalText(run.value))
      && (r.Err? ==> r.message == run.message)
  {
    match RunGraph(model, tools, invoke, seed, fuel)
    case Err(e) => Err(e)
    case Ok(h) => Ok(FinalText(h))
  }

  /** A workflow only ever runs the tools of its own set: two invokers that
      agree on those tools give the same run, whatever they do elsewhere. */
  lemma {:induction false} RunOnlyDispatchesBoundTools(model: seq<Message> -> Result<Reply>, tools: seq<ToolName>,
                    invoke1: (ToolName, ToolCall) -> Content, invoke2: (ToolName, ToolCall) -> Content,
                    history: seq<Message>, fuel: nat)
    requires forall t, c :: t in tools ==> invoke1(t, c) == invoke2(t, c)
    ensures RunGraph(model, tools, invoke1, history, fuel) == RunGraph(model, tools, invoke2, history, fuel)
    decreases fuel
  {
    if fuel > 0 && model(history).Ok? {
      var reply := model(history).value;
      var h := history + [AI(reply)];
      if ShouldContinue(h) == Tools {
        var calls := reply.toolCalls.value;
        assert DispatchAll(tools, invoke1, calls) == DispatchAll(tools, invoke2, calls);
        RunOnlyDispatchesBoundTools(model, tools, invoke1, invoke2, h + DispatchAll(tools, invoke1, calls), fuel - 1);
      }
    }
  }

  /** A model that requests one tool on its first turn and answers with plain
      text on its second: exactly one tools cycle, five messages, and the
      second reply's text is the output. */
  lemma RunOneToolCycle(model: seq<Message> -> Result<Reply>, tools: seq<ToolName>,
                        invoke: (ToolName, ToolCall) -> Content, seed: seq<Message>, fuel: nat,
                        call: ToolCall, first: Content, answer: string)
    requires |seed| == 2 && fuel >= 2
    requires model(seed) == Ok(Reply(first, Some([call])))
    requires model(seed + [AI(Reply(first, Some([call]))), Dispatch(tools, invoke, call)]) == Ok(Reply(Text(answer), None))
    ensures var r := RunGraph(model, tools, invoke, seed, fuel);
      r.Ok? && |r.value| == 5 && r.value[3] == Dispatch(tools, invoke, call) && FinalText(r.value) == answer
  {
    var h := seed + [AI(Reply(first, Some([call])))];
    assert DispatchAll(tools, invoke, [call]) == [Dispatch(tools, invoke, call)];
    assert h + [Dispatch(tools, invoke, call)] == seed + [AI(Reply(first, Some([call]))), Dispatch(tools, invoke, call)];
  }
}
