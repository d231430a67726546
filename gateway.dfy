/** The LLM gateway: how the message list sent to the chat-completions API
    is assembled, how the classifier's JSON reply is decoded (with its
    defaults and its fallback), how tool results are rendered into a
    grounding context, and how a tool-calling reply is turned into tool
    call requests. The API itself is a function-valued parameter. */
module Gateway {
  import opened Wrappers
  import opened Builtins
  import opened Schemas

  datatype ChatMessage = ChatMessage(role: string, content: string)

  /** `{"role": msg.get("role", "user"), "content": msg.get("content", "")}`. */
  function ToChat(h: HistoryEntry): ChatMessage {
    ChatMessage(h.role.GetOr("user"), h.content.GetOr(""))
  }

  function ToChats(hs: seq<HistoryEntry>): (r: seq<ChatMessage>)
    ensures |r| == |hs| && forall i :: 0 <= i < |hs| ==> r[i] == ToChat(hs[i])
  {
    seq(|hs|, i requires 0 <= i < |hs| => ToChat(hs[i]))
  }

  /** How many history entries a response or tool call sees. */
  const ResponseWindow: nat := 10

  /** How many history entries the classifier sees. */
  const ClassifyWindow: nat := 5

  /** `_build_messages`: the system prompt, the last ten history entries,
      the tool context as a second system message when it is non-empty, and
      the user message last. */
  function BuildMessages(systemPrompt: string, userMessage: string, history: seq<HistoryEntry>, toolContext: Option<string>): (r: seq<ChatMessage>)
    ensures var w := Min(ResponseWindow, |history|);
      && |r| == 2 + w + (if TruthyText(toolContext) then 1 else 0)
      && r[0] == ChatMessage("system", systemPrompt)
      && r[|r| - 1] == ChatMessage("user", userMessage)
      && (forall i :: 1 <= i <= w ==> r[i] == ToChat(history[|history| - w + i - 1]))
      && (TruthyText(toolContext) ==> r[|r| - 2] == ChatMessage("system", toolContext.value))
  {
    var context := if TruthyText(toolContext) then [ChatMessage("system", toolContext.value)] else [];
    [ChatMessage("system", systemPrompt)] + ToChats(LastN(history, ResponseWindow)) + context + [ChatMessage("user", userMessage)]
  }

  // ----- intent classification -----

  /** The classifier's instruction text (the enumeration of intents and
      entity keys it asks for); its wording is not reproduced. */
  const ClassifierPrompt: string := "intent classification instructions"

  const ClarifyFallback: string := "I'm not sure I understood that. Could you please rephrase?"

  /** One key of the classifier's JSON object: absent, present with a value
      of the expected type, or present with a value that fails conversion. */
  datatype Field<T> = Missing | Value(v: T) | Malformed

  datatype EntitiesField = EntitiesAbsent | EntitiesValid(e: ExtractedEntities) | EntitiesInvalid

  /** The decoded reply. `intent` is `None` when the key is absent or not a
      string; for `clarificationQuestion`, `Value(None)` is a JSON null. */
  datatype ClassifyJson = ClassifyJson(
    intent: Option<string>,
    confidence: Field<real>,
    entities: EntitiesField,
    requiresClarification: Field<bool>,
    clarificationQuestion: Field<Option<string>>)

  /** The JSON-mode completion: `Err` is a failed call or content that does
      not parse as a JSON object. */
  type ClassifyApi = seq<ChatMessage> -> Result<ClassifyJson, string>

  const ClassificationFallback: IntentClassificationResult :=
    IntentClassificationResult(Unknown, 0.0, NoEntities, true, Some(ClarifyFallback))

  /** The messages `classify_intent` sends: its own system prompt, the last
      five history entries, and the prefixed user message. */
  function ClassifyMessages(message: string, history: seq<HistoryEntry>): (r: seq<ChatMessage>)
    ensures var w := Min(ClassifyWindow, |history|);
      && |r| == 2 + w
      && r[0] == ChatMessage("system", ClassifierPrompt)
      && r[|r| - 1] == ChatMessage("user", "Classify this message: " + message)
      && (forall i :: 1 <= i <= w ==> r[i] == ToChat(history[|history| - w + i - 1]))
  {
    [ChatMessage("system", ClassifierPrompt)] + ToChats(LastN(history, ClassifyWindow)) +
      [ChatMessage("user", "Classify this message: " + message)]
  }

  /** `Intent(result.get("intent", "unknown"))`, with `UNKNOWN` for any
      string that is not one of the ten values. */
  function DecodeIntent(s: Option<string>): (i: Intent)
    ensures s.Some? && ParseIntent(s.value).Some? ==> IntentValue(i) == s.value
    ensures s.None? || ParseIntent(s.value).None? ==> i == Unknown
  {
    if s.None? then Unknown else ParseIntent(s.value).GetOr(Unknown)
  }

  /** The fields of the reply into a result; `None` stands for the exception
      a malformed field raises, which sends the caller to the fallback. */
  function DecodeClassification(j: ClassifyJson): (r: Option<IntentClassificationResult>)
    ensures r.None? <==>
      j.confidence.Malformed? || j.entities.EntitiesInvalid? ||
      j.requiresClarification.Malformed? || j.clarificationQuestion.Malformed?
    ensures r.Some? ==> r.value.intent == DecodeIntent(j.intent)
    ensures r.Some? ==> r.value.confidence == (if j.confidence.Value? then j.confidence.v else 0.5)
    ensures r.Some? ==> r.value.entities == (if j.entities.EntitiesValid? then j.entities.e else NoEntities)
    ensures r.Some? ==> r.value.requiresClarification == (j.requiresClarification.Value? && j.requiresClarification.v)
    ensures r.Some? ==> r.value.clarificationQuestion == (if j.clarificationQuestion.Value? then j.clarificationQuestion.v else None)
  {
    if j.confidence.Malformed? || j.entities.EntitiesInvalid? ||
       j.requiresClarification.Malformed? || j.clarificationQuestion.Malformed?
    then None
    else
      var confidence := match j.confidence { case Value(c) => c case _ => 0.5 };
      var entities := match j.entities { case EntitiesValid(e) => e case _ => NoEntities };
      var clarify := match j.requiresClarification { case Value(b) => b case _ => false };
      var question := match j.clarificationQuestion { case Value(q) => q case _ => None };
      Some(IntentClassificationResult(DecodeIntent(j.intent), confidence, entities, clarify, question))
  }

  /** `classify_intent`: never raises; any failure yields the fallback. */
  function ClassifyIntent(api: ClassifyApi, message: string, history: seq<HistoryEntry>): (r: IntentClassificationResult)
    ensures api(ClassifyMessages(message, history)).Err? ==> r == ClassificationFallback
    ensures api(ClassifyMessages(message, history)).Ok? ==>
      r == DecodeClassification(api(ClassifyMessages(message, history)).value).GetOr(ClassificationFallback)
  {
    match api(ClassifyMessages(message, history))
    case Err(_) => ClassificationFallback
    case Ok(j) => DecodeClassification(j).GetOr(ClassificationFallback)
  }

  /** A failed call yields the fallback: an `UNKNOWN` intent with zero
      confidence and no entities, asking for clarification. */
  lemma FallbackAsksForClarification(api: ClassifyApi, message: string, history: seq<HistoryEntry>)
    requires api(ClassifyMessages(message, history)).Err?
    ensures var r := ClassifyIntent(api, message, history);
      r.intent == Unknown && r.requiresClarification && r.confidence == 0.0 && r.entities == NoEntities
  {
  }

  /** The classification depends on the history only through its last five
      entries. */
  lemma ClassifySeesLastFive(api: ClassifyApi, message: string, h1: seq<HistoryEntry>, h2: seq<HistoryEntry>)
    requires LastN(h1, ClassifyWindow) == LastN(h2, ClassifyWindow)
    ensures ClassifyIntent(api, message, h1) == ClassifyIntent(api, message, h2)
  {
    assert ClassifyMessages(message, h1) == ClassifyMessages(message, h2);
  }

  // ----- grounded response generation -----

  /** A value in one of the dictionaries passed as `tool_results`. */
  datatype ResultValue = TextValue(s: string) | PayloadValue(p: Payload)

  type ResultDict = map<string, ResultValue>

  /** `str(v)`, `json.dumps(v, indent=2, default=str)` and
      `json.dumps(list, default=str)`: the model does not fix their output. */
  datatype Serializer = Serializer(
    display: ResultValue -> string,
    dump: ResultValue -> string,
    dumpAll: seq<ResultDict> -> string)

  /** Plain chat completion: `Err` is any failure of the call. */
  type ChatApi = seq<ChatMessage> -> Result<string, string>

  const ContextHeader: string := "Here are the results from the tools I used to help answer your question:\n\n"

  const Apology: string := "I apologize, but I encountered an error processing your request. Please try again."

  predicate HasRenderKeys(d: ResultDict) {
    "tool_name" in d && "result" in d
  }

  /** One tool's block in the context; the subscripts raise `KeyError`,
      `tool_name` first. */
  function RenderEntry(ser: Serializer, d: ResultDict): (r: Result<string, string>)
    ensures r.Ok? <==> HasRenderKeys(d)
    ensures r.Err? ==> r.error == (if "tool_name" !in d then "'tool_name'" else "'result'")
  {
    if "tool_name" !in d then Err("'tool_name'")
    else if "result" !in d then Err("'result'")
    else Ok("**" + ser.display(d["tool_name"]) + "**:\n```json\n" + ser.dump(d["result"]) + "\n```\n\n")
  }

  /** The loop appending one block per result; the first dictionary that
      lacks a key raises. */
  function RenderResults(ser: Serializer, ds: seq<ResultDict>): (r: Result<string, string>)
    ensures r.Ok? <==> forall i :: 0 <= i < |ds| ==> HasRenderKeys(ds[i])
    ensures r.Err? ==> r.error == "'tool_name'" || r.error == "'result'"
    decreases |ds|
  {
    if |ds| == 0 then Ok("")
    else
      var prev :- RenderResults(ser, ds[..|ds| - 1]);
      var entry :- RenderEntry(ser, ds[|ds| - 1]);
      Ok(prev + entry)
  }

  /** `generate_response`: builds the context (which may raise), then asks
      for a completion, answering with a fixed apology if the call fails. */
  function GenerateResponse(
    chat: ChatApi, ser: Serializer, message: string, systemPrompt: string,
    history: seq<HistoryEntry>, toolResults: seq<ResultDict>
  ): (r: Result<string, string>)
    ensures r.Err? ==> r.error == "'tool_name'" || r.error == "'result'"
    ensures |toolResults| == 0 ==> r.Ok?
  {
    var context :- if |toolResults| == 0 then Ok(None)
                   else var body :- RenderResults(ser, toolResults); Ok(Some(ContextHeader + body));
    var messages := BuildMessages(systemPrompt, message, history, context);
    match chat(messages)
    case Ok(text) => Ok(text)
    case Err(_) => Ok(Apology)
  }

  /** Generation raises exactly when some dictionary lacks a key the
      rendering reads; without tool results it answers with the model's
      text, or the apology when the call fails. */
  lemma GenerateResponseOutcome(
    chat: ChatApi, ser: Serializer, message: string, systemPrompt: string,
    history: seq<HistoryEntry>, toolResults: seq<ResultDict>)
    ensures var r := GenerateResponse(chat, ser, message, systemPrompt, history, toolResults);
      && (r.Ok? <==> forall i :: 0 <= i < |toolResults| ==> HasRenderKeys(toolResults[i]))
      && (|toolResults| == 0 ==>
            r == Ok(match chat(BuildMessages(systemPrompt, message, history, None))
                    case Ok(text) => text case Err(_) => Apology))
  {
  }

  /** With tool results to ground on, the context goes in as a system
      message right before the user message, opening with the header. */
  lemma GroundedContextPlacement(
    chat: ChatApi, ser: Serializer, message: string, systemPrompt: string,
    history: seq<HistoryEntry>, toolResults: seq<ResultDict>)
    requires |toolResults| > 0 && RenderResults(ser, toolResults).Ok?
    ensures var ms := BuildMessages(systemPrompt, message, history, Some(ContextHeader + RenderResults(ser, toolResults).value));
      && |ms| == 3 + Min(ResponseWindow, |history|)
      && ms[|ms| - 2].role == "system"
      && ContextHeader <= ms[|ms| - 2].content
      && GenerateResponse(chat, ser, message, systemPrompt, history, toolResults) ==
           Ok(match chat(ms) case Ok(text) => text case Err(_) => Apology)
  {
  }

  /** Rendering a non-empty list of dictionaries none of which has
      `"tool_name"` raises that `KeyError`. */
  lemma {:induction false} RenderWithoutToolName(ser: Serializer, ds: seq<ResultDict>)
    requires |ds| > 0 && forall i :: 0 <= i < |ds| ==> "tool_name" !in ds[i]
    ensures RenderResults(ser, ds) == Err("'tool_name'")
    decreases |ds|
  {
    var prefix := ds[..|ds| - 1];
    if |prefix| > 0 {
      RenderWithoutToolName(ser, prefix);
    } else {
      assert RenderResults(ser, prefix) == Ok("");
    }
  }

  /** So does grounded generation over such a list. */
  lemma GenerateWithoutToolName(
    chat: ChatApi, ser: Serializer, message: string, systemPrompt: string,
    history: seq<HistoryEntry>, toolResults: seq<ResultDict>)
    requires |toolResults| > 0 && forall i :: 0 <= i < |toolResults| ==> "tool_name" !in toolResults[i]
    ensures GenerateResponse(chat, ser, message, systemPrompt, history, toolResults) == Err("'tool_name'")
  {
    RenderWithoutToolName(ser, toolResults);
  }

  // ----- tool calling -----

  /** The shape of one entry of the `tools` list: the function name, its
      parameter names and the required ones. */
  datatype ToolDefinition = ToolDefinition(name: string, properties: seq<string>, required: seq<string>)

  /** A tool call as the API returns it; `arguments` is the result of
      `json.loads` on the argument text, `Err` when it is not a JSON object. */
  datatype RawToolCall = RawToolCall(id: string, name: string, arguments: Result<map<string, Scalar>, string>)

  datatype ApiMessage = ApiMessage(toolCalls: seq<RawToolCall>, content: Option<string>)

  /** The tool-calling completion: `Err` is any failure of the call. */
  type ToolsApi = (seq<ChatMessage>, seq<ToolDefinition>) -> Result<ApiMessage, string>

  datatype ToolCallRequest = ToolCallRequest(callId: string, toolName: string, arguments: map<string, Scalar>)

  datatype LlmResponse = LlmResponse(content: string, toolCalls: Option<seq<ToolCallRequest>>)

  const ToolErrorPrefix: string := "I encountered an error: "

  /** The loop building one `ToolCallRequest` per API call, in order. */
  function DecodeCalls(raws: seq<RawToolCall>): (r: Result<seq<ToolCallRequest>, string>)
    ensures r.Ok? <==> forall i :: 0 <= i < |raws| ==> raws[i].arguments.Ok?
    ensures r.Ok? ==> |r.value| == |raws| && forall i :: 0 <= i < |raws| ==>
      r.value[i] == ToolCallRequest(raws[i].id, raws[i].name, raws[i].arguments.value)
    decreases |raws|
  {
    if |raws| == 0 then Ok([])
    else
      var prev :- DecodeCalls(raws[..|raws| - 1]);
      var last := raws[|raws| - 1];
      var arguments :- last.arguments;
      Ok(prev + [ToolCallRequest(last.id, last.name, arguments)])
  }

  /** `call_with_tools`: either a non-empty list of tool calls with empty
      content, or content and no tool calls; failures become content. */
  function CallWithTools(api: ToolsApi, message: string, tools: seq<ToolDefinition>, systemPrompt: string, history: seq<HistoryEntry>): (r: LlmResponse)
    ensures r.toolCalls.Some? ==> r.content == "" && |r.toolCalls.value| > 0
  {
    match api(BuildMessages(systemPrompt, message, history, None), tools)
    case Err(e) => LlmResponse(ToolErrorPrefix + e, None)
    case Ok(reply) =>
      if |reply.toolCalls| > 0 then
        match DecodeCalls(reply.toolCalls)
        case Err(e) => LlmResponse(ToolErrorPrefix + e, None)
        case Ok(calls) => LlmResponse("", Some(calls))
      else LlmResponse(reply.content.GetOr(""), None)
  }

  /** What `call_with_tools` returns for each shape of API reply: a failed
      call or undecodable arguments become an error message as content; tool
      calls keep their ids and names, in order. */
  lemma CallWithToolsShape(api: ToolsApi, message: string, tools: seq<ToolDefinition>, systemPrompt: string, history: seq<HistoryEntry>)
    ensures var r := CallWithTools(api, message, tools, systemPrompt, history);
      var reply := api(BuildMessages(systemPrompt, message, history, None), tools);
      && (reply.Err? ==> r == LlmResponse(ToolErrorPrefix + reply.error, None))
      && (reply.Ok? && |reply.value.toolCalls| == 0 ==> r == LlmResponse(reply.value.content.GetOr(""), None))
      && (reply.Ok? && |reply.value.toolCalls| > 0 ==>
            (r.toolCalls.Some? <==> forall i :: 0 <= i < |reply.value.toolCalls| ==> reply.value.toolCalls[i].arguments.Ok?))
      && (r.toolCalls.Some? ==>
            && reply.Ok? && |r.toolCalls.value| == |reply.value.toolCalls|
            && forall i :: 0 <= i < |r.toolCalls.value| ==>
                 r.toolCalls.value[i].callId == reply.value.toolCalls[i].id &&
                 r.toolCalls.value[i].toolName == reply.value.toolCalls[i].name)
  {
  }
}
