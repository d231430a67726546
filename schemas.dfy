/** The value types the assistant exchanges: the intent enumeration, the
    extracted entities, JSON scalars of tool arguments, tool results and the
    chat response bundle. */
module Schemas {
  import opened Wrappers
  import opened Models

  datatype Intent =
    | ProductSearch
    | ProductRecommendation
    | ProductDetails
    | OrderHelp
    | OrderStatus
    | GeneralQuestion
    | Greeting
    | Farewell
    | Complaint
    | Unknown

  /** `intent.value`. */
  function IntentValue(i: Intent): string {
    match i
    case ProductSearch => "product_search"
    case ProductRecommendation => "product_recommendation"
    case ProductDetails => "product_details"
    case OrderHelp => "order_help"
    case OrderStatus => "order_status"
    case GeneralQuestion => "general_question"
    case Greeting => "greeting"
    case Farewell => "farewell"
    case Complaint => "complaint"
    case Unknown => "unknown"
  }

  /** `Intent(s)`; `None` is the `ValueError` raised for any other string. */
  function ParseIntent(s: string): (r: Option<Intent>)
    ensures r.Some? ==> IntentValue(r.value) == s
  {
    if s == "product_search" then Some(ProductSearch)
    else if s == "product_recommendation" then Some(ProductRecommendation)
    else if s == "product_details" then Some(ProductDetails)
    else if s == "order_help" then Some(OrderHelp)
    else if s == "order_status" then Some(OrderStatus)
    else if s == "general_question" then Some(GeneralQuestion)
    else if s == "greeting" then Some(Greeting)
    else if s == "farewell" then Some(Farewell)
    else if s == "complaint" then Some(Complaint)
    else if s == "unknown" then Some(Unknown)
    else None
  }

  /** Parsing is the inverse of `.value`, so the two directions together make
      `ParseIntent` a bijection between the ten values and the enumeration. */
  lemma ParseIntentValue(i: Intent)
    ensures ParseIntent(IntentValue(i)) == Some(i)
  {
  }

  predicate IsProductIntent(i: Intent) {
    i == ProductSearch || i == ProductRecommendation || i == ProductDetails
  }

  predicate IsOrderIntent(i: Intent) {
    i == OrderHelp || i == OrderStatus
  }

  /** Every field is optional: absence means "not mentioned". */
  datatype ExtractedEntities = ExtractedEntities(
    productNames: Option<seq<string>>,
    categories: Option<seq<string>>,
    brands: Option<seq<string>>,
    priceMin: Option<real>,
    priceMax: Option<real>,
    orderId: Option<int>,
    quantity: Option<int>,
    attributes: Option<map<string, string>>)

  const NoEntities := ExtractedEntities(None, None, None, None, None, None, None, None)

  datatype IntentClassificationResult = IntentClassificationResult(
    intent: Intent,
    confidence: real,
    entities: ExtractedEntities,
    requiresClarification: bool,
    clarificationQuestion: Option<string>)

  /** A JSON scalar, as found in the arguments the model asks a tool to run with. */
  datatype Scalar = SNull | SBool(b: bool) | SInt(i: int) | SNum(r: real) | SStr(s: string)

  /** Python truthiness of a decoded JSON scalar. */
  predicate Truthy(v: Scalar) {
    match v
    case SNull => false
    case SBool(b) => b
    case SInt(i) => i != 0
    case SNum(r) => r != 0.0
    case SStr(s) => s != ""
  }

  /** A catalog item with its similarity score. */
  datatype SearchResult = SearchResult(product: Product, similarity: real)

  /** What a tool puts in `ToolResult.result`; only `ProductHits` is a list of
      dictionaries carrying an `"id"` key (order summaries carry `"order_id"`). */
  datatype OrderInfo = OrderInfo(orderId: int, status: string, totalAmount: real, shippingAddress: Option<string>)

  datatype Payload =
    | NoPayload
    | ProductInfo(product: Product)
    | ProductHits(hits: seq<SearchResult>)
    | OrderDetail(order: OrderInfo)
    | OrderList(orders: seq<OrderInfo>)

  datatype ToolResult = ToolResult(
    callId: string,
    toolName: string,
    result: Payload,
    success: bool,
    errorMessage: Option<string>)

  /** A `{"role": ..., "content": ...}` history dictionary; either key may be missing. */
  datatype HistoryEntry = HistoryEntry(role: Option<string>, content: Option<string>)

  datatype AgentChatResponse = AgentChatResponse(
    response: string,
    sessionId: string,
    intent: Intent,
    entities: ExtractedEntities,
    suggestions: Option<seq<Product>>,
    toolCallsMade: Option<seq<string>>,
    followUpQuestions: Option<seq<string>>)
}
