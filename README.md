# Shop-AI backend core in Dafny

This project models the core of the Shop-AI e-commerce backend in Dafny and
proves properties of that model. The model covers:

- the shopping agent's chat turn (`process_message`);
- the five agent tools it can run (`execute_tool`);
- the persisted conversation sessions and messages;
- the language-model gateway: message building, intent classification,
  grounded generation and tool calling;
- semantic product search over a vector index: filters, product text and
  metadata, indexing, search, similar products;
- the database services behind the REST endpoints: product listing and
  lookup, wishlists, orders and reviews.

How the model is split:

- **Wrappers**, **Builtins**: `Option`/`Result`, and the Python built-ins the
  code relies on (slicing, `" ".join(filter(None, …))`, `str(int)`/`int(str)`,
  truthiness).
- **Models**: the `products`, `orders`, `order_items` and `reviews` rows, and
  the table scans `query(...).filter(...).first()/.all()`.
- **Schemas**: intents, extracted entities, tool results, the response bundle.
- **Retrieval** (`pinecone_service.py`): metadata filters, product text and
  metadata, a `VectorIndex` class holding the stored vectors, indexing,
  deletion, search and similar products.
- **Gateway** (`groq_service.py`): message lists, intent classification and
  its fallback, grounded generation, tool calling.
- **Toolkit** (`AgentToolkit.TOOLS`, `execute_tool`): the tool declarations
  and the five tools.
- **Conversation**: a `ConversationStore` class with the sessions table and
  the append-only message log, get-or-create session, save message, and the
  history window.
- **Agent** (`ShopAgent`): the tool loop, the order lookup, the intent
  branches, follow-up questions, and `ProcessMessage` over a
  `ConversationStore`.
- **Services** (`services.py`): a `ShopDb` class holding the tables, the
  wishlist and review operations, and order creation.

The external services are parameters. The language model is three functions
from message lists to replies (classification, chat, tool calling). The
embedder and the vector index's query are functions too, and so is
`json.dumps`. The ids given to tool calls are a function of the call's
position in the turn. A new session's uuid is a parameter that is not yet a
key. An exception is `Err(text)` of a `Result`, carrying the text Python
would put in it where the code fixes it (`'order_id'`, `'tool_name'`,
`Product 7 not found`, `Order not found`, …).

The agent's operations are bound once, in `Agent.NewAgent`, as closures over
the tables and services. Those operations are classification, tool execution
and tool calling. `Agent.NewAgentWiring` proves that the closures are exactly
`ClassifyIntent`, `ExecuteTool` and `CallWithTools`. The turn-level lemmas
are stated over any agent, and the ones that need it assume `CarriesNames`,
which `NewAgentWiring` establishes.

There are two behaviours of the code that a reader should know about. Both
make a turn raise out of `process_message` after the user message is saved
and before the assistant message is, and the model keeps both.

The first is a `KeyError`:

- the grounding dictionaries the agent builds use the key `"tool"`;
- `generate_response` reads `result['tool_name']` before its `try`.

So a grounded generation raises `KeyError('tool_name')`:

- an order turn raises exactly when it ran a tool
  (`Agent.OrderBranchFailsAfterTool`);
- a product turn raises when its loop ran tools but ended without text
  (`Agent.ProductFallbackFailsAfterTool`).

The second is a `TypeError` in `_save_message`:

- a product dictionary in a tool result comes from `model_dump()` and keeps
  `created_at` as a `datetime`;
- `_save_message` encodes the tool results with `json.dumps` and no
  `default`, which raises on a `datetime`, before the row is added.

So a turn that would otherwise complete raises when any of its tool results
is a product, or a non-empty list of products
(`Conversation.ConversationStore.SaveMessage`, `Agent.CloseTurn`). A product
turn whose tools returned a product therefore never completes
(`Agent.ProductRowsBreakTheTurn`). Order results carry their dates as ISO
strings and are saved. `Agent.ProcessMessage` states all three outcomes of a
turn.

## Model

| member | source | states |
|---|---|---|
| Models.FindProduct | backend/services.py:31-36 | `get_product`: the result is a row of the table with the requested id; `None` exactly when no row has that id (inactive rows are found too) |
| Models.FindActiveProduct | backend/agent_service.py:223-227 | an active row with the id, `None` exactly when there is none |
| Models.SelectProducts | backend/services.py:23-26 | a row is selected iff it is active and, when the category is non-empty, of that category |
| Models.FindOrder | backend/agent_service.py:293-295 | the order with the id, `None` exactly when no order has it |
| Models.OrdersOfUser | backend/services.py:124 | exactly the orders whose `user_id` is the user |
| Builtins.Prefix | backend/agent_service.py:608 | `s[:k]` is a prefix of `s` of length `min(k, len(s))`, or all but the last `-k` for negative `k` |
| Builtins.LastN | backend/groq_service.py:58 | `s[-n:]`: the last `min(n, len(s))` elements, in order |
| Builtins.NonEmpty | backend/pinecone_service.py:82 | `filter(None, parts)` keeps no empty string and adds no element |
| Builtins.ParseIntToString | backend/pinecone_service.py:210 | `int(str(n)) == n`: the id stored as `str(product.id)` parses back to the product id |
| Builtins.IntToStringInjective | backend/pinecone_service.py:104 | distinct product ids give distinct vector ids |
| Schemas.ParseIntent | backend/schemas.py:121-131 | whenever `Intent(s)` yields an intent, that intent's value is `s` |
| Schemas.ParseIntentValue | backend/schemas.py:121-131 | round trip: `Intent(intent.value) == intent` for all ten intents |
| Retrieval.BuildFilter | backend/pinecone_service.py:139-158 | no filter iff no category, no minimum and no maximum; a category clause iff the category is non-empty; a price clause iff either bound is given |
| Retrieval.BuildFilterAdmits | backend/pinecone_service.py:148-156 | the filter admits a product's metadata iff it meets every requested constraint (category equal, price at least the minimum, at most the maximum) |
| Retrieval.ProductToTextEndsWithPrice | backend/pinecone_service.py:75-82 | the product text always ends with the `price $…` phrase |
| Retrieval.ProductToTextAllFields | backend/pinecone_service.py:75-82 | with all fields present, the text is name, description, category, brand and price phrase joined by single spaces |
| Retrieval.ProductToTextSkipsMissing | backend/pinecone_service.py:75-82 | missing description and brand are skipped, not rendered as empty words |
| Retrieval.ProductToMetadata | backend/pinecone_service.py:84-94 | the metadata carries the product's id and active flag, and `""` for a missing brand |
| Retrieval.EntriesForAt | backend/pinecone_service.py:115-124 | one vector per product, in order, the `i`-th built from the `i`-th product |
| Retrieval.UpsertAllAppend | backend/pinecone_service.py:126-131 | upserting two batches one after the other equals upserting their concatenation |
| Retrieval.UpsertAllStores | backend/pinecone_service.py:102-108 | after an upsert of vectors with distinct ids, each of them is stored under its id |
| Retrieval.UpsertAllKeeps | backend/pinecone_service.py:102-108 | an upsert leaves every id it does not mention as it was |
| Retrieval.SelectKeepsUniqueIds | backend/pinecone_service.py:112 | the active products of a table keyed by id have distinct ids |
| Retrieval.VectorIndex.Upsert | backend/pinecone_service.py:102-108 | the index maps each upserted id to its vector, later vectors winning, and records the batch |
| Retrieval.VectorIndex.IndexProduct | backend/pinecone_service.py:96-108 | the product's vector is stored under `str(product.id)`, and nothing else changes |
| Retrieval.VectorIndex.DeleteProduct | backend/pinecone_service.py:135-137 | the id `str(product_id)` is removed, and nothing else changes |
| Retrieval.VectorIndex.IndexAllProducts | backend/pinecone_service.py:110-133 | returns the number of active products; the batches sent are non-empty, at most `batch_size` long, and concatenate to the active products' vectors in table order; the index ends as that upsert |
| Retrieval.IndexAllStoresActive | backend/pinecone_service.py:110-133 | after indexing, every active product is stored under its id with its current text and metadata |
| Retrieval.RehydrateErrSticky | backend/pinecone_service.py:208-217 | once a match id fails `int()`, the search raises that `ValueError` whatever follows |
| Retrieval.Search | backend/pinecone_service.py:160-219 | the loop over the matches computes the search's specification, including its exceptions |
| Retrieval.RehydrateSound | backend/pinecone_service.py:208-217 | every result is an active row of the table, looked up by its id, with a similarity at least the threshold and within [0, 1] |
| Retrieval.RehydrateOrder | backend/pinecone_service.py:208-217 | the results are exactly the qualifying matches, in match order, each with its match's score |
| Retrieval.SearchResultsLive | backend/pinecone_service.py:160-219 | a search's results are live catalog rows above `min_score` (0.3 by default), and are sorted by descending similarity whenever the index returns its matches so sorted |
| Retrieval.OtherProductsOrder | backend/pinecone_service.py:241 | the comprehension keeps its input's order: each kept result sits at an increasing position of the input, and the positions kept are exactly those of other products |
| Retrieval.OtherProductsMembers | backend/pinecone_service.py:241 | a result is kept iff it is in the input and of another product |
| Retrieval.FindSimilarProducts | backend/pinecone_service.py:221-241 | an unknown product gives `[]`; otherwise at most `top_k` live catalog rows at or above the 0.2 floor, never the product itself |
| Retrieval.FirstOtherProducts | backend/pinecone_service.py:241 | `[...][:top_k]` keeps, in order, the first other products: any other product cut comes after all kept ones, and none is cut when fewer than `top_k` are kept |
| Retrieval.FindSimilarFromSearch | backend/pinecone_service.py:229-241 | for a known product: raises iff the search on its text for `top_k + 1` matches at `min_score=0.2` raises, with its error; otherwise the first `top_k` of that search's results that are other products, in search order |
| Retrieval.RehydrateShrinks | backend/pinecone_service.py:208-217 | at most one result per match |
| Retrieval.SearchAtMostTopK | backend/pinecone_service.py:194-217 | over an index that returns at most `top_k` matches, a search returns at most `top_k` results |
| Gateway.ToChats | backend/groq_service.py:59-62 | each history entry becomes a message whose role defaults to `user` and content to `""` |
| Gateway.BuildMessages | backend/groq_service.py:47-68 | system prompt first, then the last ten history entries, then the tool context when non-empty, then the user message |
| Gateway.ClassifyMessages | backend/groq_service.py:112-121 | classifier prompt, the last five history entries, then `Classify this message: …` |
| Gateway.DecodeIntent | backend/groq_service.py:135-139 | a recognised intent string gives that intent; a missing or unknown one gives `UNKNOWN` |
| Gateway.DecodeClassification | backend/groq_service.py:135-151 | decoding fails iff a field has the wrong type; otherwise confidence defaults to 0.5, entities to empty, clarification to false and none |
| Gateway.ClassifyIntent | backend/groq_service.py:70-160 | never raises: a failed call or a failed decoding gives the fallback, otherwise the decoded reply |
| Gateway.FallbackAsksForClarification | backend/groq_service.py:153-160 | the fallback is `UNKNOWN`, zero confidence, no entities, clarification requested |
| Gateway.ClassifySeesLastFive | backend/groq_service.py:114-119 | the classification depends on the history only through its last five entries |
| Gateway.RenderEntry | backend/groq_service.py:174 | renders iff both keys are present; otherwise the `KeyError` names `tool_name` first |
| Gateway.RenderResults | backend/groq_service.py:171-174 | renders iff every dictionary has both keys |
| Gateway.GenerateResponse | backend/groq_service.py:162-193 | raises only a `KeyError` on `tool_name` or `result`; never raises without tool results |
| Gateway.GenerateResponseOutcome | backend/groq_service.py:162-193 | raises iff some dictionary lacks a rendered key; without tool results the answer is the model's text, or the fixed apology when the call fails |
| Gateway.GroundedContextPlacement | backend/groq_service.py:170-181 | with tool results, the context goes in as one system message right before the user message, opening with the header |
| Gateway.RenderWithoutToolName | backend/groq_service.py:173-174 | rendering dictionaries without `tool_name` raises `KeyError('tool_name')` |
| Gateway.GenerateWithoutToolName | backend/groq_service.py:171-174 | so does generation grounded on them |
| Gateway.DecodeCalls | backend/groq_service.py:227-233 | decoding succeeds iff every call's arguments are valid JSON, keeping id, name and arguments in order |
| Gateway.CallWithTools | backend/groq_service.py:195-246 | a reply with tool calls has empty content and at least one call |
| Gateway.CallWithToolsShape | backend/groq_service.py:207-246 | a failed call gives `I encountered an error: …`; a plain reply gives its content or `""`; tool calls are returned iff all arguments decode, with their ids and names |
| Toolkit.ToolsWellFormed | backend/agent_service.py:42-152 | the five tool names are distinct, every required parameter is declared, and the names are exactly the five |
| Toolkit.TextArg | backend/agent_service.py:205 | `arguments.get(key, default)`: the default when absent, the string when present |
| Toolkit.IntArg | backend/agent_service.py:261 | `arguments.get(key, default)`: the default when absent, the integer when present |
| Toolkit.SearchTopK | backend/agent_service.py:207 | `min(limit, 10)` with limit 5 by default; never above 10 |
| Toolkit.OrderSummaries | backend/agent_service.py:333-338 | one summary per order, in order, without the address |
| Toolkit.SearchProductsTool | backend/agent_service.py:203-219 | a wrong-typed argument raises; otherwise the tool is the search on `query`, `min(limit, 10)`, `category`, `min_price` and `max_price` as read: its hits when it succeeds, its error when it raises |
| Toolkit.ProductDetailsTool | backend/agent_service.py:221-253 | a found product is a catalog row; by id, it succeeds iff an active product has that id, and returns that product; else by name, a non-string name raises, a failing search passes its error on, and otherwise it succeeds iff the one-match search on the name has a first hit whose id names a row, and returns that row; with neither argument, `Product not found` |
| Toolkit.RecommendationsTool | backend/agent_service.py:255-290 | a successful recommendation yields a hit list |
| Toolkit.OrderStatusTool | backend/agent_service.py:292-317 | a missing `order_id` raises `KeyError('order_id')`; otherwise succeeds iff the order exists, else `Order not found` |
| Toolkit.UserOrdersTool | backend/agent_service.py:319-340 | without a user the error is `Please log in to view your orders`; with one, the summaries of exactly that user's orders (`OrderSummaries` of `OrdersOfUser`) |
| Toolkit.ExecuteTool | backend/agent_service.py:192-358 | never raises; carries call id and tool name; success iff no error message; a failure has no result; an unknown name gives `Unknown tool: …` |
| Toolkit.SearchProductsAtMostTen | backend/agent_service.py:203-211 | a success is the search with the arguments as read; over an index that honours `top_k` it has at most ten hits, and at most five without `limit` |
| Toolkit.UserOrdersNeedsLogin | backend/agent_service.py:320-327 | without a user the tool fails with the login message whatever the orders table holds |
| Toolkit.OrderStatusMissing | backend/agent_service.py:310-317 | an unknown order id gives `Order not found` |
| Toolkit.RecommendationPriority | backend/agent_service.py:257-281 | `product_id` wins over `preferences`/`category`; with neither, the first five active products with similarity 1.0 |
| Toolkit.RecommendSimilar | backend/agent_service.py:257-262 | with a truthy `product_id`, `preferences` and `category` are ignored; an id naming no product gives no hits; otherwise the result is `find_similar_products` with the limit: never that product, live rows at or above 0.2, at most `limit` |
| Toolkit.RecommendByQuery | backend/agent_service.py:263-270 | otherwise, with preferences or a category: `product_id` is ignored; a wrong-typed argument raises; otherwise the search on the preferences (else the category) for `limit` matches filtered by the category, its error passed on; live rows at or above 0.3, and at most `limit` with no cap of ten |
| Conversation.MessageRecord | backend/agent_service.py:396-404 | the tool-call and tool-result columns are NULL exactly when the lists are empty, else the lists |
| Conversation.SessionMessagesOrder | backend/agent_service.py:417-419 | the session's messages keep insertion order: each sits at an increasing position of the log, and the positions kept are exactly those of the session's rows |
| Conversation.SessionMessagesMembers | backend/agent_service.py:417-419 | exactly the messages of the session |
| Conversation.SessionHistory | backend/agent_service.py:410-422 | the newest `min(limit, n)` of the session's `n` messages, oldest first, as role/content pairs |
| Conversation.SessionMessagesRoundTrip | backend/agent_service.py:384-419 | rows written to a session nobody had written to come back as its messages, in order |
| Conversation.SessionRoundTrip | backend/agent_service.py:384-422 | writing N rows to a fresh session and reading with `limit >= N` gives all N back, in order |
| Conversation.HistoryAfterSave | backend/agent_service.py:384-422 | a saved message becomes the newest history entry of its session, and no other session's history changes |
| Conversation.UnusedSessionHasNoHistory | backend/agent_service.py:410-422 | a session nobody wrote to has an empty history |
| Conversation.NoMessagesOfUnusedSession | backend/agent_service.py:417-419 | a session nobody wrote to has no messages |
| Conversation.ConversationStore.GetOrCreateSession | backend/agent_service.py:360-382 | reuses an existing active session when the id is given; otherwise inserts a new active session for the user; messages unchanged |
| Conversation.ConversationStore.SaveMessage | backend/agent_service.py:384-408 | when the tool results encode, appends exactly the message's row and returns it; when one holds a product dictionary, raises the `datetime` `TypeError` and appends nothing |
| Conversation.NewSessionHasNoHistory | backend/agent_service.py:375-382 | a freshly created session starts with an empty history |
| Agent.NewAgentWiring | backend/agent_service.py:181-184 | the built agent classifies, executes tools and calls the model exactly as `classify_intent`, `execute_tool` and `call_with_tools` do, so every result names its tool |
| Agent.LookupHitsOrder | backend/agent_service.py:526-534 | every hit whose id names a row contributes that row, in hit order, and no other hit contributes |
| Agent.LookupHitsMembers | backend/agent_service.py:526-534 | each row found is a catalog row whose id some hit carries |
| Agent.SuggestionsFromHits | backend/agent_service.py:525-534 | suggestions come only from successful hit lists, from their first five items, as catalog rows |
| Agent.ContextHistory | backend/agent_service.py:496-501 | the history itself until a tool has run, then the history plus one entry |
| Agent.LoopCallsBounded | backend/agent_service.py:495-541 | the loop asks the model at most `max_tool_iterations` times |
| Agent.LoopContinuesOnToolCalls | backend/agent_service.py:510-536 | a reply with tool calls runs them all and starts the next iteration |
| Agent.LoopStopsOnPlainReply | backend/agent_service.py:537-540 | a reply without tool calls ends the loop, taking its content when non-empty |
| Agent.RecordKeepsAligned | backend/agent_service.py:518-523 | the three appends keep the call log, results and grounding list in step |
| Agent.LoopStepGrows | backend/agent_service.py:511-534 | one tool call appends its name, keeps the lists in step and the suggestions in the catalog, and leaves the response alone |
| Agent.RecordToolsGrows | backend/agent_service.py:511-534 | the calls of one reply are logged in order, with the same invariants |
| Agent.RunLoopInvariant | backend/agent_service.py:495-541 | the whole loop keeps the lists in step and the suggestions in the catalog, and only appends to the log |
| Agent.OrderLookup | backend/agent_service.py:550-576 | an order id runs `check_order_status`; otherwise a user runs `get_user_orders`; otherwise nothing runs |
| Agent.GroundedGenerationFails | backend/agent_service.py:520-523 | the agent's grounding dictionaries lack `tool_name`, so generation over any of them raises `KeyError('tool_name')` |
| Agent.GroundedOutcome | backend/agent_service.py:578-583 | grounded generation raises exactly when a tool ran |
| Agent.OrderBranchFailsAfterTool | backend/agent_service.py:550-583 | an order turn raises `KeyError('tool_name')` iff it has an order id or a user |
| Agent.ProductFallbackFailsAfterTool | backend/agent_service.py:542-548 | a product turn whose loop ended without text raises iff a tool ran; with text the loop's state is the answer |
| Agent.ProductRowsBreakTheTurn | backend/agent_service.py:542-598 | a product turn whose tools returned a product dictionary either raises in the grounded fallback or cannot save its assistant row |
| Agent.ConversationalBranchesSucceed | backend/agent_service.py:585-590 | greeting, farewell and every other non-product, non-order turn succeeds and runs no tool |
| Agent.FollowUpQuestions | backend/agent_service.py:424-442 | follow-ups exactly for product intents: three for search and recommendation, two for details |
| Agent.Bundle | backend/agent_service.py:601-611 | the response text, session id, intent and entities are the turn's; suggestions are `None` iff empty and then the first five; the tool log is `None` iff empty; the follow-ups are the intent's, present iff product intent |
| Agent.RespondKeepsRecords | backend/agent_service.py:474-590 | whatever branch ran, the lists are in step and the suggestions are catalog rows |
| Agent.TurnSuggestionsBounded | backend/agent_service.py:608 | a turn returns at most five suggestions, all catalog rows |
| Agent.TurnToolLogAligned | backend/agent_service.py:518-519 | each saved tool result names the tool logged beside it |
| Agent.CollectSuggestions | backend/agent_service.py:526-534 | the loop over the first five hits computes `LookupHits` |
| Agent.ExecuteCalls | backend/agent_service.py:511-524 | the loop over a reply's calls computes `RecordTools` |
| Agent.LoopRound | backend/agent_service.py:496-540 | one iteration: stops iff the reply has no tool calls, else runs them |
| Agent.ToolLoop | backend/agent_service.py:492-541 | the `while` loop computes `RunLoop`, with at most `max_tool_iterations` model calls |
| Agent.RespondIn | backend/agent_service.py:480-590 | the intent branches compute `Respond` |
| Agent.OpenTurn | backend/agent_service.py:461-472 | resolves the session, reads its history, classifies, and appends the user row |
| Agent.CloseTurn | backend/agent_service.py:592-611 | an exception escapes with nothing saved; so does the `TypeError` of tool results holding a product; otherwise appends the assistant row and returns the bundle of the branch's state |
| Agent.ProcessMessage | backend/agent_service.py:444-611 | the session is resolved or created; a turn whose branch raises, or whose tool results hold a product, saves only the user row and returns the exception; otherwise the user row and then the assistant row are saved and the bundle of the branch's answer, the session and the classification returned |
| Services.ListProducts | backend/services.py:21-29 | the page of the active (category) rows from `OFFSET skip` of length `LIMIT limit`, in table order |
| Services.ListedProductsQualify | backend/services.py:23-28 | every listed row is active and of the category; a zero limit lists nothing |
| Services.PagesConcatenate | backend/services.py:28 | consecutive pages concatenate to the larger page |
| Services.RemoveFirst | backend/services.py:69 | `list.remove`: absent leaves the list; present removes one item; no other membership changes |
| Services.AddIdOnce | backend/services.py:54-55 | adding keeps the wishlist duplicate-free, contains the product, and is idempotent |
| Services.RemoveFirstAbsent | backend/services.py:68-69 | on a duplicate-free wishlist the product is gone after removal, and removing again changes nothing |
| Services.WishlistProducts | backend/services.py:80 | when every id resolves, one product per id in wishlist order |
| Services.PriceItemsSpec | backend/services.py:89-101 | pricing succeeds iff every product exists; line `k` is item `k` at its product's price; otherwise the error names the first missing product |
| Services.PriceItemsErrSticky | backend/services.py:89-92 | once an item fails, the order fails with that error |
| Services.WithOrderId | backend/services.py:113-115 | every line gets the order's id, nothing else changes |
| Services.AssignOrderId | backend/services.py:113-115 | the loop computes `WithOrderId` |
| Services.FindReview | backend/services.py:131-134 | the existing review of this user for this product, `None` exactly when there is none |
| Services.ReviewsOfProduct | backend/services.py:151-154 | exactly the product's reviews |
| Services.ShopDb.AddToWishlist | backend/services.py:46-58 | true iff user and product exist; then the product is in the wishlist once; nothing else changes |
| Services.ShopDb.RemoveFromWishlist | backend/services.py:60-72 | true iff user and product exist; then the product is no longer in the wishlist; nothing else changes |
| Services.ShopDb.WishlistComplete | backend/services.py:74-80 | an unknown user has an empty wishlist; otherwise one catalog product per wishlist entry, in order |
| Services.ShopDb.CreateOrder | backend/services.py:83-120 | an unknown product raises with nothing written; otherwise one pending order with the summed total and its lines under the new id |
| Services.ShopDb.PriceOrderItems | backend/services.py:86-101 | the pricing loop computes `PriceItems` and the running total `LinesTotal` |
| Services.ShopDb.UserOrders | backend/services.py:122-125 | exactly the user's orders |
| Services.ShopDb.CreateReview | backend/services.py:128-149 | a second review by the same user of the same product raises `You have already reviewed this product`; otherwise exactly one review is inserted |
| Services.ShopDb.ProductReviews | backend/services.py:151-154 | exactly the product's reviews |

## Left out

- `EmailService` (`services.py`), the FastAPI routes and authentication (`main.py`), the demo-data script and the settings loading (`config.py`) are not part of this model. The only setting it uses is the default minimum score 0.3.
- The prompt texts (`SYSTEM_PROMPT`, the classifier instructions) are placeholders. Only their position in the message lists is modelled.
- `create_product` is not modelled. It is a plain insert that no other operation depends on.
- I/O and the external services (Groq, Pinecone, the sentence-transformer embedder) are function parameters. Their replies are arbitrary, and `async` is ignored since each turn runs sequentially.
- Floating point: prices, totals and scores are reals. `round(score, 4)`, float summation error and the text of `f"{price}"` are not modelled. The price text is a parameter of the text model.
- Timestamps are not modelled. The history window relies on insertion order standing in for `ORDER BY created_at`, so ties between equal timestamps are not represented.
- Random ids: `uuid4` session ids are a fresh parameter. Tool call ids are a function of the call's position.
- SQLite semantics: autoincrement ids are the counters `nextOrderId` and `nextReviewId`. Queries without `ORDER BY` return table order. The only foreign key kept as an invariant is the wishlist's into products. `create_review` checks neither product nor user, and `create_order` does not check the user, so those rows are not constrained either.
- Match ids are taken to be the canonical `str(int)` text the indexing writes. Python's `int()` also accepts surrounding whitespace, underscores between digits and non-ASCII digits; the model's parse rejects such ids, so a search on an index holding one raises where the code would not.
- Tool arguments are JSON scalars. Python's coercion of `True` to `1` is not modelled, so a boolean argument is no id and matches no row. Non-integer ids match no row. Nested JSON values are not modelled.
- Where the code raises on a wrong-typed tool argument (a non-string `query`, `product_name` or `preferences`, a non-integer `limit`), the model raises one placeholder message instead of Python's `TypeError` text.
- A non-string `category` (`search_products`, `get_recommendations`) or a non-number `min_price`/`max_price` (`search_products`) is not modelled faithfully. The code puts such a value in the Pinecone filter and queries the index. The model's filter holds only strings and numbers, so the tool fails with the placeholder message without querying the index.
- A numeric-string confidence (`float("0.9")`) counts as malformed.
- A model reply whose content is `None` is not modelled. It is treated as text.
- The pydantic re-validation of `ProductResponse` rows is not modelled. Rows are taken as valid.
- Agent.ProcessMessage: stated over any agent value. Only agents built by `NewAgent` behave like `ShopAgent.__init__`, which `Agent.NewAgentWiring` proves.
- Agent.TurnToolLogAligned: requires `CarriesNames`, which holds for agents built by `NewAgent` but not for arbitrary closures.
- Toolkit.RecommendationsTool: states only that a success is a hit list. The branch taken is described by `Toolkit.RecommendationPriority`, and what each branch returns by `Toolkit.RecommendSimilar` and `Toolkit.RecommendByQuery`.
