/** The shopping agent's turn: classify, persist the user message, branch on
    the intent (a bounded tool-calling loop for product intents, a direct
    order lookup for order intents, plain generation otherwise), persist the
    assistant message and assemble the response bundle. */
module Agent {
  import opened Wrappers
  import opened Builtins
  import opened Models
  import opened Schemas
  import opened Retrieval
  import opened Gateway
  import opened Toolkit
  import opened Conversation

  /** The assistant's system prompt; its wording is not reproduced. */
  const SystemPrompt: string := "shopping assistant instructions"

  /** How many suggestions one tool result contributes, and how many the
      response carries. */
  const SuggestionCap: nat := 5

  /** The foreign services a turn talks to. `callIds(k)` is the id given to
      the `k`-th tool execution of the turn. */
  datatype Oracles = Oracles(
    classify: ClassifyApi,
    chat: ChatApi,
    tools: ToolsApi,
    backend: SearchBackend,
    ser: Serializer,
    callIds: nat -> string)

  /** The agent object: the tables and services it was built over, and its
      three bound operations. `classifyIntent(message, h)` is
      `classify_intent` with history `h`; `executeTool(name, args, userId, k)` is
      `execute_tool`, giving the `k`-th call of a turn its id;
      `callWithTools(message, h)` is `call_with_tools` over the declared
      tools and the system prompt with context history `h`. `NewAgent`
      builds them. */
  datatype ShopAgent = ShopAgent(
    tables: Tables,
    oracles: Oracles,
    classifyIntent: (string, seq<HistoryEntry>) -> IntentClassificationResult,
    executeTool: (string, Arguments, Option<int>, nat) -> ToolResult,
    callWithTools: (string, seq<HistoryEntry>) -> LlmResponse)

  /** `ShopAgent.__init__` over the given tables and services. */
  function NewAgent(tables: Tables, oracles: Oracles): ShopAgent {
    ShopAgent(tables, oracles,
      (message: string, h: seq<HistoryEntry>) => ClassifyIntent(oracles.classify, message, h),
      (toolName: string, args: Arguments, userId: Option<int>, k: nat) =>
        ExecuteTool(tables, oracles.backend, oracles.callIds(k), toolName, args, userId),
      (message: string, h: seq<HistoryEntry>) => CallWithTools(oracles.tools, message, Tools, SystemPrompt, h))
  }

  /** Every execution reports the tool it was asked to run. */
  ghost predicate CarriesNames(agent: ShopAgent) {
    forall toolName, args, userId, k :: agent.executeTool(toolName, args, userId, k).toolName == toolName
  }

  /** A freshly built agent runs `classify_intent`, `execute_tool` and
      `call_with_tools`, and so carries names. */
  lemma NewAgentWiring(tables: Tables, oracles: Oracles)
    ensures CarriesNames(NewAgent(tables, oracles))
    ensures forall message, h ::
      NewAgent(tables, oracles).classifyIntent(message, h) == ClassifyIntent(oracles.classify, message, h)
    ensures forall toolName, args, userId, k ::
      NewAgent(tables, oracles).executeTool(toolName, args, userId, k) ==
      ExecuteTool(tables, oracles.backend, oracles.callIds(k), toolName, args, userId)
    ensures forall message, h ::
      NewAgent(tables, oracles).callWithTools(message, h) == CallWithTools(oracles.tools, message, Tools, SystemPrompt, h)
  {
    var agent := NewAgent(tables, oracles);
    forall toolName, args, userId, k ensures agent.executeTool(toolName, args, userId, k).toolName == toolName {
      var r := ExecuteTool(tables, oracles.backend, oracles.callIds(k), toolName, args, userId);
      assert agent.executeTool(toolName, args, userId, k) == r;
    }
  }

  /** What stays fixed during one turn. */
  datatype TurnContext = TurnContext(
    agent: ShopAgent,
    message: string,
    history: seq<HistoryEntry>,
    userId: Option<int>)

  /** The turn's accumulators, in the order the source declares them. */
  datatype LoopState = LoopState(
    toolCallsMade: seq<string>,
    toolResults: seq<ToolResult>,
    accumulated: seq<ResultDict>,
    suggestions: seq<Product>,
    response: string)

  const Initial: LoopState := LoopState([], [], [], [], "")

  // ----- one tool execution -----

  /** The dictionary appended to `accumulated_results`: keyed `"tool"`. */
  function AccumulatedEntry(toolName: string, r: ToolResult): ResultDict {
    map["tool" := TextValue(toolName), "result" := PayloadValue(r.result)]
  }

  function Execute(ctx: TurnContext, st: LoopState, toolName: string, args: Arguments): ToolResult {
    ctx.agent.executeTool(toolName, args, ctx.userId, |st.toolResults|)
  }

  /** The three appends after a tool runs. */
  function Record(st: LoopState, toolName: string, r: ToolResult): LoopState {
    st.(toolCallsMade := st.toolCallsMade + [toolName],
        toolResults := st.toolResults + [r],
        accumulated := st.accumulated + [AccumulatedEntry(toolName, r)])
  }

  /** The catalog rows of the listed hits that still exist. */
  function LookupHits(products: seq<Product>, hits: seq<SearchResult>): (r: seq<Product>)
    ensures |r| <= |hits|
    decreases |hits|
  {
    if |hits| == 0 then []
    else
      var prev := LookupHits(products, hits[..|hits| - 1]);
      match FindProduct(products, hits[|hits| - 1].product.id)
      case None => prev
      case Some(p) => prev + [p]
  }

  /** A hit whose product is still a row of the table. */
  predicate Resolves(products: seq<Product>, h: SearchResult) {
    FindProduct(products, h.product.id).Some?
  }

  /** Every hit that resolves contributes its row, in hit order: `idx`
      says which hit each row comes from, and lists exactly the hits that
      resolve. */
  lemma {:induction false} LookupHitsOrder(products: seq<Product>, hits: seq<SearchResult>) returns (idx: seq<int>)
    ensures var r := LookupHits(products, hits);
      && |idx| == |r|
      && (forall k :: 0 <= k < |idx| ==>
            0 <= idx[k] < |hits| && FindProduct(products, hits[idx[k]].product.id) == Some(r[k]))
      && (forall k, l :: 0 <= k < l < |idx| ==> idx[k] < idx[l])
      && (forall i :: 0 <= i < |hits| ==> (Resolves(products, hits[i]) <==> i in idx))
    decreases |hits|
  {
    if |hits| == 0 {
      idx := [];
    } else {
      var n := |hits| - 1;
      var prefix := hits[..n];
      var prev := LookupHitsOrder(products, prefix);
      var kept := LookupHits(products, prefix);
      forall i | 0 <= i < n ensures hits[i] == prefix[i] { }
      if Resolves(products, hits[n]) {
        idx := prev + [n];
        assert LookupHits(products, hits) == kept + [FindProduct(products, hits[n].product.id).value];
      } else {
        idx := prev;
        assert LookupHits(products, hits) == kept;
      }
      assert forall k :: 0 <= k < |prev| ==> idx[k] == prev[k];
      assert forall i :: 0 <= i < n ==> (i in idx <==> i in prev);
    }
  }

  /** Each row found is a table row whose id some hit carries. */
  lemma LookupHitsMembers(products: seq<Product>, hits: seq<SearchResult>, p: Product)
    requires p in LookupHits(products, hits)
    ensures p in products && exists k :: 0 <= k < |hits| && hits[k].product.id == p.id
  {
    var r := LookupHits(products, hits);
    var idx := LookupHitsOrder(products, hits);
    var k :| 0 <= k < |r| && r[k] == p;
    assert FindProduct(products, hits[idx[k]].product.id) == Some(p);
  }

  /** What one tool result adds to the suggestions: only a successful,
      non-empty list of product dictionaries does, through its first five. */
  function SuggestionsFrom(products: seq<Product>, r: ToolResult): seq<Product> {
    if r.success && r.result.ProductHits? && |r.result.hits| > 0
    then LookupHits(products, Prefix(r.result.hits, SuggestionCap))
    else []
  }

  /** Suggestions come only from successful hit lists, from their first five
      items, and only as products present in the table. */
  lemma SuggestionsFromHits(products: seq<Product>, r: ToolResult, p: Product)
    requires p in SuggestionsFrom(products, r)
    ensures r.success && r.result.ProductHits? && p in products
    ensures exists k :: 0 <= k < Min(SuggestionCap, |r.result.hits|) && r.result.hits[k].product.id == p.id
  {
    var items := Prefix(r.result.hits, SuggestionCap);
    LookupHitsMembers(products, items, p);
    var k :| 0 <= k < |items| && items[k].product.id == p.id;
    assert items[k] == r.result.hits[k];
  }

  /** One tool call inside the loop: execute, record, collect suggestions. */
  function LoopStep(ctx: TurnContext, st: LoopState, call: ToolCallRequest): LoopState {
    var r := Execute(ctx, st, call.toolName, call.arguments);
    Record(st, call.toolName, r).(suggestions := st.suggestions + SuggestionsFrom(ctx.agent.tables.products, r))
  }

  /** The inner loop over one reply's tool calls. */
  function RecordTools(ctx: TurnContext, st: LoopState, calls: seq<ToolCallRequest>): LoopState
    decreases |calls|
  {
    if |calls| == 0 then st else LoopStep(ctx, RecordTools(ctx, st, calls[..|calls| - 1]), calls[|calls| - 1])
  }

  // ----- the tool loop -----

  /** The history a tool-calling request sees: the turn's history, plus the
      results so far as an assistant message once there are any. */
  function ContextHistory(ctx: TurnContext, accumulated: seq<ResultDict>): (r: seq<HistoryEntry>)
    ensures |accumulated| == 0 ==> r == ctx.history
    ensures |accumulated| > 0 ==> |r| == |ctx.history| + 1 && r[..|ctx.history|] == ctx.history
  {
    if |accumulated| == 0 then ctx.history
    else ctx.history + [HistoryEntry(Some("assistant"), Some("Tool results so far: " + ctx.agent.oracles.ser.dumpAll(accumulated)))]
  }

  function LlmReply(ctx: TurnContext, st: LoopState): LlmResponse {
    ctx.agent.callWithTools(ctx.message, ContextHistory(ctx, st.accumulated))
  }

  /** `if llm_response.tool_calls:`. */
  predicate HasToolCalls(reply: LlmResponse) {
    reply.toolCalls.Some? && |reply.toolCalls.value| > 0
  }

  /** The `while iteration < max_tool_iterations` loop from `iteration` on. */
  function RunLoop(ctx: TurnContext, st: LoopState, iteration: int, maxIterations: int): LoopState
    decreases maxIterations - iteration
  {
    if iteration >= maxIterations then st
    else
      var reply := LlmReply(ctx, st);
      if HasToolCalls(reply) then RunLoop(ctx, RecordTools(ctx, st, reply.toolCalls.value), iteration + 1, maxIterations)
      else st.(response := if reply.content != "" then reply.content else st.response)
  }

  /** How many tool-calling requests `RunLoop` makes. */
  function LoopCalls(ctx: TurnContext, st: LoopState, iteration: int, maxIterations: int): nat
    decreases maxIterations - iteration
  {
    if iteration >= maxIterations then 0
    else
      var reply := LlmReply(ctx, st);
      if HasToolCalls(reply) then 1 + LoopCalls(ctx, RecordTools(ctx, st, reply.toolCalls.value), iteration + 1, maxIterations)
      else 1
  }

  /** The loop makes at most `max_tool_iterations` requests. */
  lemma {:induction false} LoopCallsBounded(ctx: TurnContext, st: LoopState, iteration: int, maxIterations: int)
    ensures LoopCalls(ctx, st, iteration, maxIterations) <= Max(0, maxIterations - iteration)
    decreases maxIterations - iteration
  {
    if iteration < maxIterations {
      var reply := LlmReply(ctx, st);
      if HasToolCalls(reply) {
        LoopCallsBounded(ctx, RecordTools(ctx, st, reply.toolCalls.value), iteration + 1, maxIterations);
      }
    }
  }

  /** One round with a reply that has tool calls runs them and goes on. */
  lemma LoopContinuesOnToolCalls(ctx: TurnContext, st: LoopState, iteration: int, maxIterations: int)
    requires iteration < maxIterations && HasToolCalls(LlmReply(ctx, st))
    ensures var next := RecordTools(ctx, st, LlmReply(ctx, st).toolCalls.value);
      && RunLoop(ctx, st, iteration, maxIterations) == RunLoop(ctx, next, iteration + 1, maxIterations)
      && LoopCalls(ctx, st, iteration, maxIterations) == 1 + LoopCalls(ctx, next, iteration + 1, maxIterations)
  {
  }

  /** The first reply without tool calls ends the loop: its content, when
      non-empty, is the response, and nothing else changes. */
  lemma LoopStopsOnPlainReply(ctx: TurnContext, st: LoopState, iteration: int, maxIterations: int)
    requires iteration < maxIterations && !HasToolCalls(LlmReply(ctx, st))
    ensures var reply := LlmReply(ctx, st);
      && RunLoop(ctx, st, iteration, maxIterations) == st.(response := if reply.content != "" then reply.content else st.response)
      && LoopCalls(ctx, st, iteration, maxIterations) == 1
  {
  }

  /** The three lists grow together, one element per execution, in
      invocation order, and entry `i` of `accumulated` is built from entry
      `i` of the other two. */
  predicate Recorded(st: LoopState) {
    && |st.toolCallsMade| == |st.toolResults| == |st.accumulated|
    && forall i :: 0 <= i < |st.toolResults| ==> st.accumulated[i] == AccumulatedEntry(st.toolCallsMade[i], st.toolResults[i])
  }

  /** Moreover each result names the tool recorded beside it. */
  predicate Aligned(st: LoopState) {
    && Recorded(st)
    && forall i :: 0 <= i < |st.toolResults| ==> st.toolResults[i].toolName == st.toolCallsMade[i]
  }

  /** Every suggestion is a row of the products table. */
  predicate SuggestionsInCatalog(products: seq<Product>, st: LoopState) {
    forall p :: p in st.suggestions ==> p in products
  }

  lemma RecordKeepsAligned(st: LoopState, toolName: string, r: ToolResult)
    requires Recorded(st)
    ensures Recorded(Record(st, toolName, r))
    ensures Aligned(st) && r.toolName == toolName ==> Aligned(Record(st, toolName, r))
  {
  }

  /** The tool names of a reply's calls, in order. */
  function CallNames(calls: seq<ToolCallRequest>): (r: seq<string>)
    ensures |r| == |calls| && forall j :: 0 <= j < |calls| ==> r[j] == calls[j].toolName
  {
    seq(|calls|, j requires 0 <= j < |calls| => calls[j].toolName)
  }

  /** One loop step appends its call to the three lists and adds only catalog
      rows to the suggestions. */
  lemma LoopStepGrows(ctx: TurnContext, st: LoopState, call: ToolCallRequest)
    requires Recorded(st) && SuggestionsInCatalog(ctx.agent.tables.products, st)
    ensures var st' := LoopStep(ctx, st, call);
      && Recorded(st') && SuggestionsInCatalog(ctx.agent.tables.products, st')
      && (CarriesNames(ctx.agent) && Aligned(st) ==> Aligned(st'))
      && st'.toolCallsMade == st.toolCallsMade + [call.toolName]
      && st'.response == st.response
  {
    var r := Execute(ctx, st, call.toolName, call.arguments);
    RecordKeepsAligned(st, call.toolName, r);
    var st' := LoopStep(ctx, st, call);
    forall p | p in st'.suggestions ensures p in ctx.agent.tables.products {
      if p !in st.suggestions {
        SuggestionsFromHits(ctx.agent.tables.products, r, p);
      }
    }
  }

  /** A reply's calls are executed and recorded in order. */
  lemma {:induction false} RecordToolsGrows(ctx: TurnContext, st: LoopState, calls: seq<ToolCallRequest>)
    requires Recorded(st) && SuggestionsInCatalog(ctx.agent.tables.products, st)
    ensures var st' := RecordTools(ctx, st, calls);
      && Recorded(st') && SuggestionsInCatalog(ctx.agent.tables.products, st')
      && (CarriesNames(ctx.agent) && Aligned(st) ==> Aligned(st'))
      && st'.toolCallsMade == st.toolCallsMade + CallNames(calls)
      && st'.response == st.response
    decreases |calls|
  {
    if |calls| > 0 {
      var prefix := calls[..|calls| - 1];
      RecordToolsGrows(ctx, st, prefix);
      LoopStepGrows(ctx, RecordTools(ctx, st, prefix), calls[|calls| - 1]);
      assert CallNames(calls) == CallNames(prefix) + [calls[|calls| - 1].toolName];
    } else {
      assert CallNames(calls) == [];
    }
  }

  /** The loop keeps the three lists aligned and the suggestions in the
      catalog, and leaves the response empty unless a plain reply set it. */
  lemma {:induction false} RunLoopInvariant(ctx: TurnContext, st: LoopState, iteration: int, maxIterations: int)
    requires Recorded(st) && SuggestionsInCatalog(ctx.agent.tables.products, st)
    ensures var st' := RunLoop(ctx, st, iteration, maxIterations);
      && Recorded(st') && SuggestionsInCatalog(ctx.agent.tables.products, st')
      && (CarriesNames(ctx.agent) && Aligned(st) ==> Aligned(st'))
      && |st.toolResults| <= |st'.toolResults|
      && st'.toolCallsMade[..|st.toolCallsMade|] == st.toolCallsMade
    decreases maxIterations - iteration
  {
    if iteration < maxIterations {
      var reply := LlmReply(ctx, st);
      if HasToolCalls(reply) {
        var next := RecordTools(ctx, st, reply.toolCalls.value);
        RecordToolsGrows(ctx, st, reply.toolCalls.value);
        RunLoopInvariant(ctx, next, iteration + 1, maxIterations);
        var st' := RunLoop(ctx, st, iteration, maxIterations);
        assert next.toolCallsMade[..|st.toolCallsMade|] == st.toolCallsMade;
        assert st'.toolCallsMade[..|st.toolCallsMade|] == next.toolCallsMade[..|st.toolCallsMade|];
      }
    }
  }

  // ----- the branches -----

  /** The order branch's single lookup: by order id when the entities carry
      a truthy one, else the user's orders when logged in, else none. */
  function OrderLookup(ctx: TurnContext, entities: ExtractedEntities): (st: LoopState)
    ensures TruthyInt(entities.orderId) ==> st.toolCallsMade == ["check_order_status"]
    ensures !TruthyInt(entities.orderId) && TruthyInt(ctx.userId) ==> st.toolCallsMade == ["get_user_orders"]
    ensures !TruthyInt(entities.orderId) && !TruthyInt(ctx.userId) ==> st == Initial
    ensures Recorded(st) && st.suggestions == [] && st.response == ""
    ensures CarriesNames(ctx.agent) ==> Aligned(st)
    ensures |st.accumulated| > 0 <==> TruthyInt(entities.orderId) || TruthyInt(ctx.userId)
  {
    if TruthyInt(entities.orderId) then
      var args := map["order_id" := SInt(entities.orderId.value)];
      Record(Initial, "check_order_status", Execute(ctx, Initial, "check_order_status", args))
    else if TruthyInt(ctx.userId) then
      Record(Initial, "get_user_orders", Execute(ctx, Initial, "get_user_orders", map[]))
    else Initial
  }

  function Generate(ctx: TurnContext, toolResults: seq<ResultDict>): Result<string, string> {
    GenerateResponse(ctx.agent.oracles.chat, ctx.agent.oracles.ser, ctx.message, SystemPrompt, ctx.history, toolResults)
  }

  /** Generation grounded in what the tools returned so far. */
  function Grounded(ctx: TurnContext, st: LoopState): Result<LoopState, string> {
    var text :- Generate(ctx, st.accumulated);
    Ok(st.(response := text))
  }

  /** The branch on the intent, up to the response text (or the exception
      that escapes the turn). */

  function Respond(ctx: TurnContext, intent: Intent, entities: ExtractedEntities, maxIterations: int): Result<LoopState, string> {
    if intent == Greeting || intent == Farewell then
      var text :- Generate(ctx, []);
      Ok(Initial.(response := text))
    else if IsProductIntent(intent) then
      var st := RunLoop(ctx, Initial, 0, maxIterations);
      if st.response != "" then Ok(st) else Grounded(ctx, st)
    else if IsOrderIntent(intent) then
      Grounded(ctx, OrderLookup(ctx, entities))
    else
      var text :- Generate(ctx, []);
      Ok(Initial.(response := text))
  }

  /** The grounding dictionaries the agent builds lack `"tool_name"`, so
      grounded generation raises `KeyError` as soon as there is one. */
  lemma GroundedGenerationFails(ctx: TurnContext, st: LoopState)
    requires Recorded(st) && |st.accumulated| > 0
    ensures Grounded(ctx, st) == Err("'tool_name'")
  {
    forall i | 0 <= i < |st.accumulated| ensures "tool_name" !in st.accumulated[i] {
      assert st.accumulated[i].Keys == {"tool", "result"};
    }
    GenerateWithoutToolName(ctx.agent.oracles.chat, ctx.agent.oracles.ser, ctx.message, SystemPrompt, ctx.history, st.accumulated);
  }

  /** Grounded generation over recorded results raises exactly when a tool
      ran. */
  lemma GroundedOutcome(ctx: TurnContext, st: LoopState)
    requires Recorded(st)
    ensures Grounded(ctx, st).Err? <==> |st.accumulated| > 0
    ensures Grounded(ctx, st).Err? ==> Grounded(ctx, st).error == "'tool_name'"
  {
    if |st.accumulated| > 0 {
      GroundedGenerationFails(ctx, st);
    }
  }

  /** The order branch raises exactly when it ran a tool. */
  lemma OrderBranchFailsAfterTool(ctx: TurnContext, intent: Intent, entities: ExtractedEntities, maxIterations: int)
    requires IsOrderIntent(intent)
    ensures Respond(ctx, intent, entities, maxIterations).Err? <==> TruthyInt(entities.orderId) || TruthyInt(ctx.userId)
    ensures Respond(ctx, intent, entities, maxIterations).Err? ==>
      Respond(ctx, intent, entities, maxIterations).error == "'tool_name'"
  {
    assert intent != Greeting && intent != Farewell && !IsProductIntent(intent);
    var st := OrderLookup(ctx, entities);
    assert Respond(ctx, intent, entities, maxIterations) == Grounded(ctx, st);
    GroundedOutcome(ctx, st);
  }

  /** A product turn whose loop ran a tool but ended without content raises;
      with no tool run it falls back to plain generation. */
  lemma ProductFallbackFailsAfterTool(ctx: TurnContext, intent: Intent, entities: ExtractedEntities, maxIterations: int)
    requires IsProductIntent(intent)
    ensures var st := RunLoop(ctx, Initial, 0, maxIterations);
      && (st.response == "" && |st.toolResults| > 0 ==> Respond(ctx, intent, entities, maxIterations) == Err("'tool_name'"))
      && (st.response == "" && |st.toolResults| == 0 ==> Respond(ctx, intent, entities, maxIterations).Ok?)
      && (st.response != "" ==> Respond(ctx, intent, entities, maxIterations) == Ok(st))
  {
    RunLoopInvariant(ctx, Initial, 0, maxIterations);
    var st := RunLoop(ctx, Initial, 0, maxIterations);
    if st.response == "" && |st.toolResults| > 0 {
      GroundedGenerationFails(ctx, st);
    }
  }

  /** A product turn whose tools returned a product dictionary never
      completes: either the grounded fallback raises, or the loop's reply
      stands and encoding the tool results for the assistant row does. */
  lemma ProductRowsBreakTheTurn(ctx: TurnContext, intent: Intent, entities: ExtractedEntities, maxIterations: int)
    requires IsProductIntent(intent)
    requires !Dumpable(RunLoop(ctx, Initial, 0, maxIterations).toolResults)
    ensures var outcome := Respond(ctx, intent, entities, maxIterations);
      outcome.Err? || !Dumpable(outcome.value.toolResults)
  {
    ProductFallbackFailsAfterTool(ctx, intent, entities, maxIterations);
  }

  /** Without tools involved, generation cannot raise. */
  lemma ConversationalBranchesSucceed(ctx: TurnContext, intent: Intent, entities: ExtractedEntities, maxIterations: int)
    requires !IsProductIntent(intent) && !IsOrderIntent(intent)
    ensures Respond(ctx, intent, entities, maxIterations).Ok?
    ensures Respond(ctx, intent, entities, maxIterations).value.toolCallsMade == []
  {
  }

  /** `_get_follow_up_questions`: only product intents have any. */
  function FollowUpQuestions(intent: Intent): (r: Option<seq<string>>)
    ensures r.Some? <==> IsProductIntent(intent)
    ensures r.Some? ==> |r.value| == (if intent == ProductDetails then 2 else 3)
  {
    match intent
    case ProductSearch | ProductRecommendation =>
      Some(["Would you like me to filter by price range?", "Should I show more options?", "Want details about any of these products?"])
    case ProductDetails =>
      Some(["Would you like to see similar products?", "Any questions about this product?"])
    case _ => None
  }

  /** The bundle returned at the end of a turn. */
  function Bundle(sessionId: string, classification: IntentClassificationResult, st: LoopState): (r: AgentChatResponse)
    ensures r.suggestions.None? <==> |st.suggestions| == 0
    ensures r.suggestions.Some? ==> |r.suggestions.value| == Min(SuggestionCap, |st.suggestions|) && r.suggestions.value <= st.suggestions
    ensures r.toolCallsMade.None? <==> |st.toolCallsMade| == 0
    ensures r.toolCallsMade.Some? ==> r.toolCallsMade.value == st.toolCallsMade
    ensures r.followUpQuestions.Some? <==> IsProductIntent(classification.intent)
    ensures r.followUpQuestions == FollowUpQuestions(classification.intent)
    ensures r.response == st.response && r.sessionId == sessionId
    ensures r.intent == classification.intent && r.entities == classification.entities
  {
    AgentChatResponse(
      st.response, sessionId, classification.intent, classification.entities,
      if |st.suggestions| == 0 then None else Some(Prefix(st.suggestions, SuggestionCap)),
      if |st.toolCallsMade| == 0 then None else Some(st.toolCallsMade),
      FollowUpQuestions(classification.intent))
  }

  /** Whatever branch ran, the suggestions are catalog rows and the three
      lists are recorded together. */
  lemma RespondKeepsRecords(ctx: TurnContext, intent: Intent, entities: ExtractedEntities, maxIterations: int)
    requires Respond(ctx, intent, entities, maxIterations).Ok?
    ensures var st := Respond(ctx, intent, entities, maxIterations).value;
      Recorded(st) && SuggestionsInCatalog(ctx.agent.tables.products, st)
  {
    if IsProductIntent(intent) && intent != Greeting && intent != Farewell {
      RunLoopInvariant(ctx, Initial, 0, maxIterations);
    }
  }

  /** The suggestions a turn returns are catalog rows, at most five. */
  lemma TurnSuggestionsBounded(ctx: TurnContext, sessionId: string, classification: IntentClassificationResult, maxIterations: int)
    requires Respond(ctx, classification.intent, classification.entities, maxIterations).Ok?
    ensures var r := Bundle(sessionId, classification, Respond(ctx, classification.intent, classification.entities, maxIterations).value);
      r.suggestions.Some? ==>
        && |r.suggestions.value| <= SuggestionCap
        && forall k :: 0 <= k < |r.suggestions.value| ==> r.suggestions.value[k] in ctx.agent.tables.products
  {
    var st := Respond(ctx, classification.intent, classification.entities, maxIterations).value;
    RespondKeepsRecords(ctx, classification.intent, classification.entities, maxIterations);
    SuggestionPrefixInCatalog(ctx.agent.tables.products, st, Bundle(sessionId, classification, st));
  }

  lemma SuggestionPrefixInCatalog(products: seq<Product>, st: LoopState, r: AgentChatResponse)
    requires SuggestionsInCatalog(products, st)
    requires r.suggestions.Some? ==> r.suggestions.value <= st.suggestions
    ensures r.suggestions.Some? ==> forall k :: 0 <= k < |r.suggestions.value| ==> r.suggestions.value[k] in products
  {
    if r.suggestions.Some? {
      forall k | 0 <= k < |r.suggestions.value| ensures r.suggestions.value[k] in products {
        assert r.suggestions.value[k] == st.suggestions[k];
        assert st.suggestions[k] in st.suggestions;
      }
    }
  }

  /** For an agent whose executions report their tool (a `NewAgent` one),
      whatever branch ran, the stored tool-call names and tool results line
      up one to one. */
  lemma TurnToolLogAligned(ctx: TurnContext, intent: Intent, entities: ExtractedEntities, maxIterations: int)
    requires CarriesNames(ctx.agent)
    requires Respond(ctx, intent, entities, maxIterations).Ok?
    ensures Aligned(Respond(ctx, intent, entities, maxIterations).value)
  {
    if IsProductIntent(intent) && intent != Greeting && intent != Farewell {
      RunLoopInvariant(ctx, Initial, 0, maxIterations);
    }
  }

  // ----- the imperative turn -----

  /** The products the first five items of a hit list name, looked up one
      by one. */
  method CollectSuggestions(products: seq<Product>, hits: seq<SearchResult>) returns (found: seq<Product>)
    ensures found == LookupHits(products, Prefix(hits, SuggestionCap))
  {
    var items := Prefix(hits, SuggestionCap);
    found := [];
    for k := 0 to |items|
      invariant found == LookupHits(products, items[..k])
    {
      assert items[..k + 1][..k] == items[..k];
      var product := FindProduct(products, items[k].product.id);
      if product.Some? {
        found := found + [product.value];
      }
    }
    assert items[..|items|] == items;
  }

  /** The inner `for tool_call in llm_response.tool_calls` loop: each call is
      executed, appended to the three lists, and a successful hit list feeds
      the suggestions. */
  method ExecuteCalls(ctx: TurnContext, start: LoopState, requests: seq<ToolCallRequest>) returns (st: LoopState)
    ensures st == RecordTools(ctx, start, requests)
  {
    st := start;
    for j := 0 to |requests|
      invariant st == RecordTools(ctx, start, requests[..j])
    {
      assert requests[..j + 1][..j] == requests[..j];
      var call := requests[j];
      var result := ctx.agent.executeTool(call.toolName, call.arguments, ctx.userId, |st.toolResults|);
      var found: seq<Product> := [];
      if result.success && result.result.ProductHits? && |result.result.hits| > 0 {
        found := CollectSuggestions(ctx.agent.tables.products, result.result.hits);
      }
      st := LoopState(
        st.toolCallsMade + [call.toolName],
        st.toolResults + [result],
        st.accumulated + [AccumulatedEntry(call.toolName, result)],
        st.suggestions + found,
        st.response);
    }
    assert requests[..|requests|] == requests;
  }

  /** One round of the tool loop: ask for tool calls with the results so
      far as context; run them, or stop with the reply's content. */
  method LoopRound(ctx: TurnContext, st: LoopState) returns (next: LoopState, stop: bool)
    ensures var reply := LlmReply(ctx, st);
      && stop == !HasToolCalls(reply)
      && (!stop ==> next == RecordTools(ctx, st, reply.toolCalls.value))
      && (stop ==> next == st.(response := if reply.content != "" then reply.content else st.response))
  {
    var contextHistory := ctx.history;
    if |st.accumulated| > 0 {
      contextHistory := contextHistory + [HistoryEntry(Some("assistant"), Some("Tool results so far: " + ctx.agent.oracles.ser.dumpAll(st.accumulated)))];
    }
    assert contextHistory == ContextHistory(ctx, st.accumulated);
    var reply := ctx.agent.callWithTools(ctx.message, contextHistory);
    next := st;
    if reply.toolCalls.Some? && |reply.toolCalls.value| > 0 {
      next := ExecuteCalls(ctx, st, reply.toolCalls.value);
      stop := false;
    } else {
      if reply.content != "" {
        next := st.(response := reply.content);
      }
      stop := true;
    }
  }

  /** The tool loop of `process_message`; `calls` counts the tool-calling
      requests made. */
  method ToolLoop(ctx: TurnContext, maxIterations: int) returns (st: LoopState, ghost calls: nat)
    ensures st == RunLoop(ctx, Initial, 0, maxIterations)
    ensures calls == LoopCalls(ctx, Initial, 0, maxIterations) && calls <= Max(0, maxIterations)
  {
    LoopCallsBounded(ctx, Initial, 0, maxIterations);
    st := Initial;
    var iteration := 0;
    calls := 0;
    while iteration < maxIterations
      invariant RunLoop(ctx, st, iteration, maxIterations) == RunLoop(ctx, Initial, 0, maxIterations)
      invariant calls + LoopCalls(ctx, st, iteration, maxIterations) == LoopCalls(ctx, Initial, 0, maxIterations)
      decreases maxIterations - iteration
    {
      var next, stop := LoopRound(ctx, st);
      calls := calls + 1;
      if stop {
        LoopStopsOnPlainReply(ctx, st, iteration, maxIterations);
        st := next;
        break;
      }
      LoopContinuesOnToolCalls(ctx, st, iteration, maxIterations);
      st := next;
      iteration := iteration + 1;
    }
  }

  /** The intent branch as the turn runs it. */
  method RespondIn(ctx: TurnContext, intent: Intent, entities: ExtractedEntities, maxIterations: int) returns (r: Result<LoopState, string>)
    ensures r == Respond(ctx, intent, entities, maxIterations)
  {
    if intent == Greeting || intent == Farewell {
      var generated := Generate(ctx, []);
      r := Ok(Initial.(response := generated.value));
    } else if IsProductIntent(intent) {
      var st, calls := ToolLoop(ctx, maxIterations);
      if st.response == "" {
        r := Grounded(ctx, st);
      } else {
        r := Ok(st);
      }
    } else if IsOrderIntent(intent) {
      var st := OrderLookup(ctx, entities);
      r := Grounded(ctx, st);
    } else {
      var generated := Generate(ctx, []);
      r := Ok(Initial.(response := generated.value));
    }
  }

  /** The session a turn runs in. */
  function ResolvedSession(sessions: map<string, SessionRow>, sessionId: Option<string>, userId: Option<int>, freshId: string): SessionRow {
    if Reusable(sessions, sessionId) then sessions[sessionId.value] else SessionRow(freshId, userId, true)
  }

  function UserRow(sessionId: string, message: string, classification: IntentClassificationResult): MessageRow {
    MessageRecord(sessionId, "user", message, Some(IntentValue(classification.intent)), Some(classification.entities), [], [])
  }

  function AssistantRow(sessionId: string, st: LoopState): MessageRow {
    MessageRecord(sessionId, "assistant", st.response, None, None, st.toolCallsMade, st.toolResults)
  }

  /** The start of `process_message`: resolve the session, read its
      history, classify the message and save it as the user row. */
  method OpenTurn(
    store: ConversationStore, agent: ShopAgent, message: string,
    sessionId: Option<string>, userId: Option<int>, freshSessionId: string
  ) returns (session: SessionRow, history: seq<HistoryEntry>, classification: IntentClassificationResult)
    requires store.Valid() && freshSessionId !in store.sessions
    modifies store
    ensures store.Valid()
    ensures session == ResolvedSession(old(store.sessions), sessionId, userId, freshSessionId)
    ensures store.sessions == old(store.sessions)[session.id := session]
    ensures history == SessionHistory(old(store.messages), session.id, HistoryLimit)
    ensures classification == agent.classifyIntent(message, history)
    ensures store.messages == old(store.messages) + [UserRow(session.id, message, classification)]
  {
    session := store.GetOrCreateSession(sessionId, userId, freshSessionId);
    history := store.ConversationHistory(session.id);
    classification := agent.classifyIntent(message, history);
    var saved := store.SaveMessage(session.id, "user", message, Some(IntentValue(classification.intent)), Some(classification.entities), [], []);
  }

  /** The end of `process_message`: an exception from the branch escapes
      with nothing more saved; otherwise the assistant row is saved and the
      bundle returned, unless encoding its tool results raises, which
      escapes with nothing more saved as well. */
  method CloseTurn(
    store: ConversationStore, session: SessionRow, classification: IntentClassificationResult,
    outcome: Result<LoopState, string>
  ) returns (r: Result<AgentChatResponse, string>)
    requires store.Valid() && session.id in store.sessions
    modifies store
    ensures store.Valid() && store.sessions == old(store.sessions)
    ensures outcome.Err? ==> r == Err(outcome.error) && store.messages == old(store.messages)
    ensures outcome.Ok? && Dumpable(outcome.value.toolResults) ==>
      r == Ok(Bundle(session.id, classification, outcome.value)) &&
      store.messages == old(store.messages) + [AssistantRow(session.id, outcome.value)]
    ensures outcome.Ok? && !Dumpable(outcome.value.toolResults) ==>
      r == Err(DatetimeNotSerializable) && store.messages == old(store.messages)
  {
    if outcome.Err? {
      return Err(outcome.error);
    }
    var st := outcome.value;
    var saved := store.SaveMessage(session.id, "assistant", st.response, None, None, st.toolCallsMade, st.toolResults);
    if saved.Err? {
      return Err(saved.error);
    }
    r := Ok(Bundle(session.id, classification, st));
  }

  /** `process_message`. The user message is saved before branching and
      the assistant message after it: a completed turn appends both, in
      that order; a turn whose branch raises, or whose tool results cannot
      be encoded for the assistant row, appends only the user row and ends
      with the exception. */
  method ProcessMessage(
    store: ConversationStore, agent: ShopAgent, message: string,
    sessionId: Option<string>, userId: Option<int>, maxToolIterations: int, freshSessionId: string
  ) returns (r: Result<AgentChatResponse, string>)
    requires store.Valid() && freshSessionId !in store.sessions
    modifies store
    ensures store.Valid()
    ensures var session := ResolvedSession(old(store.sessions), sessionId, userId, freshSessionId);
      && store.sessions == old(store.sessions)[session.id := session]
      && var history := SessionHistory(old(store.messages), session.id, HistoryLimit);
         var classification := agent.classifyIntent(message, history);
         var ctx := TurnContext(agent, message, history, userId);
         var outcome := Respond(ctx, classification.intent, classification.entities, maxToolIterations);
         && (outcome.Err? ==>
               r == Err(outcome.error) &&
               store.messages == old(store.messages) + [UserRow(session.id, message, classification)])
         && (outcome.Ok? && Dumpable(outcome.value.toolResults) ==>
               r == Ok(Bundle(session.id, classification, outcome.value)) &&
               store.messages == old(store.messages) +
                 [UserRow(session.id, message, classification), AssistantRow(session.id, outcome.value)])
         && (outcome.Ok? && !Dumpable(outcome.value.toolResults) ==>
               r == Err(DatetimeNotSerializable) &&
               store.messages == old(store.messages) + [UserRow(session.id, message, classification)])
  {
    ghost var log := store.messages;
    var session, history, classification := OpenTurn(store, agent, message, sessionId, userId, freshSessionId);
    var ctx := TurnContext(agent, message, history, userId);
    var outcome := RespondIn(ctx, classification.intent, classification.entities, maxToolIterations);
    ghost var withUser := store.messages;
    r := CloseTurn(store, session, classification, outcome);
    if outcome.Ok? && Dumpable(outcome.value.toolResults) {
      assert store.messages == withUser + [AssistantRow(session.id, outcome.value)];
      assert withUser + [AssistantRow(session.id, outcome.value)] ==
        log + [UserRow(session.id, message, classification), AssistantRow(session.id, outcome.value)];
    }
  }
}
