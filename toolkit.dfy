/** The agent's five tools: their declarations as offered to the model, and
    the dispatcher that runs one call against the tables and the retrieval
    service and wraps whatever happens, an exception included, into exactly
    one `ToolResult`. */
module Toolkit {
  import opened Wrappers
  import opened Builtins
  import opened Models
  import opened Schemas
  import opened Retrieval
  import opened Gateway

  /** The declared tools, with their parameter names and required ones. */
  const Tools: seq<ToolDefinition> := [
    ToolDefinition("search_products", ["query", "category", "min_price", "max_price", "limit"], ["query"]),
    ToolDefinition("get_product_details", ["product_id", "product_name"], []),
    ToolDefinition("get_recommendations", ["product_id", "category", "preferences", "limit"], []),
    ToolDefinition("check_order_status", ["order_id"], ["order_id"]),
    ToolDefinition("get_user_orders", [], [])
  ]

  /** The five declared names; `ToolsWellFormed` shows they are exactly the
      names in `Tools`. */
  const ToolNames: set<string> :=
    {"search_products", "get_product_details", "get_recommendations", "check_order_status", "get_user_orders"}

  predicate IsToolName(name: string) {
    exists i :: 0 <= i < |Tools| && Tools[i].name == name
  }

  /** Tool names are distinct and every required parameter is declared. */
  lemma ToolsWellFormed()
    ensures forall i, j :: 0 <= i < j < |Tools| ==> Tools[i].name != Tools[j].name
    ensures forall i, k :: 0 <= i < |Tools| && 0 <= k < |Tools[i].required| ==> Tools[i].required[k] in Tools[i].properties
    ensures forall name :: IsToolName(name) <==> name in ToolNames
  {
    assert Tools[0].name == "search_products";
    assert Tools[1].name == "get_product_details";
    assert Tools[2].name == "get_recommendations";
    assert Tools[3].name == "check_order_status";
    assert Tools[4].name == "get_user_orders";
  }

  /** The rows the tools read. */
  datatype Tables = Tables(products: seq<Product>, orders: seq<Order>)

  type Arguments = map<string, Scalar>

  /** Stand-in for the text of the `TypeError` a Python operation raises on
      an argument of the wrong JSON type. */
  const ArgumentTypeError: string := "argument of unsupported type"

  /** `arguments.get(key, default)` used as a string. */
  function TextArg(args: Arguments, key: string, default: string): (r: Result<string, string>)
    ensures key !in args ==> r == Ok(default)
    ensures key in args && args[key].SStr? ==> r == Ok(args[key].s)
  {
    if key !in args then Ok(default)
    else match args[key]
      case SStr(s) => Ok(s)
      case _ => Err(ArgumentTypeError)
  }

  /** `arguments.get(key)` used as an optional string: absent and `null` are `None`. */
  function OptTextArg(args: Arguments, key: string): Result<Option<string>, string> {
    if key !in args then Ok(None)
    else match args[key]
      case SNull => Ok(None)
      case SStr(s) => Ok(Some(s))
      case _ => Err(ArgumentTypeError)
  }

  /** `arguments.get(key)` used as an optional number. */
  function OptNumberArg(args: Arguments, key: string): Result<Option<real>, string> {
    if key !in args then Ok(None)
    else match args[key]
      case SNull => Ok(None)
      case SInt(n) => Ok(Some(n as real))
      case SNum(x) => Ok(Some(x))
      case _ => Err(ArgumentTypeError)
  }

  /** `arguments.get(key, default)` used as an integer. */
  function IntArg(args: Arguments, key: string, default: int): (r: Result<int, string>)
    ensures key !in args ==> r == Ok(default)
    ensures key in args && args[key].SInt? ==> r == Ok(args[key].i)
  {
    if key !in args then Ok(default)
    else match args[key]
      case SInt(n) => Ok(n)
      case _ => Err(ArgumentTypeError)
  }

  /** `if arguments.get(key):`. */
  predicate ArgTruthy(args: Arguments, key: string) {
    key in args && Truthy(args[key])
  }

  /** The id an argument compares equal to in `Model.id == value`. */
  function IdOf(v: Scalar): Option<int> {
    if v.SInt? then Some(v.i) else None
  }

  /** `min(arguments.get("limit", 5), 10)`. */
  function SearchTopK(args: Arguments): (r: Result<int, string>)
    ensures r.Ok? ==> r.value <= 10
    ensures "limit" !in args ==> r == Ok(5)
    ensures "limit" in args && args["limit"].SInt? ==> r == Ok(Min(args["limit"].i, 10))
  {
    var limit :- IntArg(args, "limit", 5);
    Ok(Min(limit, 10))
  }

  function OrderSummary(o: Order): OrderInfo {
    OrderInfo(o.id, o.status, o.totalAmount, Some(o.shippingAddress))
  }

  /** The per-order dictionaries of `get_user_orders`, which carry no address. */
  function OrderSummaries(os: seq<Order>): (r: seq<OrderInfo>)
    ensures |r| == |os| && forall i :: 0 <= i < |os| ==> r[i] == OrderInfo(os[i].id, os[i].status, os[i].totalAmount, None)
  {
    seq(|os|, i requires 0 <= i < |os| => OrderInfo(os[i].id, os[i].status, os[i].totalAmount, None))
  }

  /** A tool's own outcome: `Err` carries the message of a soft failure or
      the text of a caught exception; both become `success=False`. */
  type Outcome = Result<Payload, string>

  /** Every argument `search_products` reads has a usable type. */
  predicate SearchArgsRead(args: Arguments) {
    && TextArg(args, "query", "").Ok? && SearchTopK(args).Ok? && OptTextArg(args, "category").Ok?
    && OptNumberArg(args, "min_price").Ok? && OptNumberArg(args, "max_price").Ok?
  }

  function SearchProductsTool(tables: Tables, backend: SearchBackend, args: Arguments): (r: Outcome)
    ensures r.Ok? ==> r.value.ProductHits?
    // a wrong-typed argument raises before the search
    ensures !SearchArgsRead(args) ==> r == Err(ArgumentTypeError)
    // otherwise the tool is the search on the arguments as read, its error passed on
    ensures SearchArgsRead(args) ==>
      var s := SearchSpec(tables.products, backend, TextArg(args, "query", "").value, SearchTopK(args).value,
                 OptTextArg(args, "category").value, OptNumberArg(args, "min_price").value, OptNumberArg(args, "max_price").value, None);
      (s.Ok? ==> r == Ok(ProductHits(s.value))) && (s.Err? ==> r == Err(s.error))
  {
    var query :- TextArg(args, "query", "");
    var topK :- SearchTopK(args);
    var category :- OptTextArg(args, "category");
    var minPrice :- OptNumberArg(args, "min_price");
    var maxPrice :- OptNumberArg(args, "max_price");
    var hits :- SearchSpec(tables.products, backend, query, topK, category, minPrice, maxPrice, None);
    Ok(ProductHits(hits))
  }

  function ProductDetailsTool(tables: Tables, backend: SearchBackend, args: Arguments): (r: Outcome)
    ensures r.Ok? ==> r.value.ProductInfo? && r.value.product in tables.products
    ensures ArgTruthy(args, "product_id") ==>
      (r.Ok? <==> IdOf(args["product_id"]).Some? && FindActiveProduct(tables.products, IdOf(args["product_id"]).value).Some?)
    ensures ArgTruthy(args, "product_id") && r.Ok? ==>
      Some(r.value.product) == FindActiveProduct(tables.products, IdOf(args["product_id"]).value)
    ensures !ArgTruthy(args, "product_id") && !ArgTruthy(args, "product_name") ==> r == Err("Product not found")
    // by name: the first hit of a one-match search on the name, looked up
    // again in the table; a name that is not a string fails before the search
    ensures !ArgTruthy(args, "product_id") && ArgTruthy(args, "product_name") ==>
      && (!args["product_name"].SStr? ==> r == Err(ArgumentTypeError))
      && (args["product_name"].SStr? ==>
            var hits := SearchSpec(tables.products, backend, args["product_name"].s, 1, None, None, None, None);
            && (hits.Err? ==> r == Err(hits.error))
            && (hits.Ok? ==>
                  (r.Ok? <==> |hits.value| > 0 && FindProduct(tables.products, hits.value[0].product.id).Some?))
            && (hits.Ok? && r.Err? ==> r.error == "Product not found")
            && (r.Ok? ==> Some(r.value.product) == FindProduct(tables.products, hits.value[0].product.id)))
  {
    if ArgTruthy(args, "product_id") then
      match IdOf(args["product_id"])
      case None => Err("Product not found")
      case Some(id) =>
        match FindActiveProduct(tables.products, id)
        case None => Err("Product not found")
        case Some(p) => Ok(ProductInfo(p))
    else if ArgTruthy(args, "product_name") then
      var name :- TextArg(args, "product_name", "");
      var hits :- SearchSpec(tables.products, backend, name, 1, None, None, None, None);
      if |hits| == 0 then Err("Product not found")
      else match FindProduct(tables.products, hits[0].product.id)
        case None => Err("Product not found")
        case Some(p) => Ok(ProductInfo(p))
    else Err("Product not found")
  }

  /** The branch taken by `get_recommendations`, in its priority order. */
  datatype RecommendationSource = SimilarTo | QuerySearch | FirstActive

  function RecommendationBranch(args: Arguments): RecommendationSource {
    if ArgTruthy(args, "product_id") then SimilarTo
    else if ArgTruthy(args, "preferences") || ArgTruthy(args, "category") then QuerySearch
    else FirstActive
  }

  /** `arguments.get("preferences", arguments.get("category", ""))`. */
  function RecommendationQuery(args: Arguments): Result<string, string> {
    if "preferences" in args then TextArg(args, "preferences", "") else TextArg(args, "category", "")
  }

  function RecommendationsTool(tables: Tables, backend: SearchBackend, args: Arguments): (r: Outcome)
    ensures r.Ok? ==> r.value.ProductHits?
  {
    match RecommendationBranch(args)
    case SimilarTo =>
      // an id that names no product gives no results before the limit is read
      match IdOf(args["product_id"]) {
        case None => Ok(ProductHits([]))
        case Some(id) =>
          if FindProduct(tables.products, id).None? then Ok(ProductHits([]))
          else
            var limit :- IntArg(args, "limit", 5);
            var hits :- FindSimilarProducts(tables.products, backend, id, limit);
            Ok(ProductHits(hits))
      }
    case QuerySearch =>
      var query :- RecommendationQuery(args);
      var limit :- IntArg(args, "limit", 5);
      var category :- OptTextArg(args, "category");
      var hits :- SearchSpec(tables.products, backend, query, limit, category, None, None, None);
      Ok(ProductHits(hits))
    case FirstActive =>
      var first := Prefix(ActiveProducts(tables.products), 5);
      Ok(ProductHits(seq(|first|, k requires 0 <= k < |first| => SearchResult(first[k], 1.0))))
  }

  function OrderStatusTool(tables: Tables, args: Arguments): (r: Outcome)
    ensures "order_id" !in args ==> r == Err("'order_id'")
    ensures "order_id" in args ==>
      (r.Ok? <==> IdOf(args["order_id"]).Some? && FindOrder(tables.orders, IdOf(args["order_id"]).value).Some?)
    ensures "order_id" in args && r.Err? ==> r.error == "Order not found"
    ensures r.Ok? ==> r.value.OrderDetail? && r.value.order.orderId == IdOf(args["order_id"]).value
  {
    if "order_id" !in args then Err("'order_id'")
    else match IdOf(args["order_id"])
      case None => Err("Order not found")
      case Some(id) =>
        match FindOrder(tables.orders, id)
        case None => Err("Order not found")
        case Some(o) => Ok(OrderDetail(OrderSummary(o)))
  }

  function UserOrdersTool(tables: Tables, userId: Option<int>): (r: Outcome)
    ensures !TruthyInt(userId) ==> r == Err("Please log in to view your orders")
    ensures TruthyInt(userId) ==>
      r.Ok? && r.value.OrderList? && |r.value.orders| == |OrdersOfUser(tables.orders, userId.value)|
    ensures TruthyInt(userId) ==> r == Ok(OrderList(OrderSummaries(OrdersOfUser(tables.orders, userId.value))))
  {
    if !TruthyInt(userId) then Err("Please log in to view your orders")
    else Ok(OrderList(OrderSummaries(OrdersOfUser(tables.orders, userId.value))))
  }

  /** The dispatch on the tool name. */
  function RunTool(tables: Tables, backend: SearchBackend, toolName: string, args: Arguments, userId: Option<int>): Outcome {
    if toolName == "search_products" then SearchProductsTool(tables, backend, args)
    else if toolName == "get_product_details" then ProductDetailsTool(tables, backend, args)
    else if toolName == "get_recommendations" then RecommendationsTool(tables, backend, args)
    else if toolName == "check_order_status" then OrderStatusTool(tables, args)
    else if toolName == "get_user_orders" then UserOrdersTool(tables, userId)
    else Err("Unknown tool: " + toolName)
  }

  /** `execute_tool`: total; the call id and tool name are carried through,
      and a failure has no result and an error message. */
  function ExecuteTool(tables: Tables, backend: SearchBackend, callId: string, toolName: string, args: Arguments, userId: Option<int>): (r: ToolResult)
    ensures r.callId == callId && r.toolName == toolName
    ensures r.success <==> r.errorMessage.None?
    ensures !r.success ==> r.result == NoPayload
    ensures toolName !in ToolNames ==> r == ToolResult(callId, toolName, NoPayload, false, Some("Unknown tool: " + toolName))
    ensures r.success && (toolName == "search_products" || toolName == "get_recommendations") ==> r.result.ProductHits?
  {
    match RunTool(tables, backend, toolName, args, userId)
    case Ok(payload) => ToolResult(callId, toolName, payload, true, None)
    case Err(message) => ToolResult(callId, toolName, NoPayload, false, Some(message))
  }

  /** `search_products` is one search with the arguments read as the code
      reads them; over an index that honours `top_k` it returns at most ten
      products, and at most five when no `limit` is given. */
  lemma SearchProductsAtMostTen(tables: Tables, backend: SearchBackend, args: Arguments)
    requires QueryBounded(backend.query)
    ensures var r := SearchProductsTool(tables, backend, args);
      r.Ok? ==>
        && SearchArgsRead(args)
        && r.value.hits == SearchSpec(tables.products, backend, TextArg(args, "query", "").value, SearchTopK(args).value,
             OptTextArg(args, "category").value, OptNumberArg(args, "min_price").value, OptNumberArg(args, "max_price").value, None).value
        && |r.value.hits| <= 10
        && ("limit" !in args ==> |r.value.hits| <= 5)
  {
    var r := SearchProductsTool(tables, backend, args);
    if r.Ok? {
      var query := TextArg(args, "query", "").value;
      var topK := SearchTopK(args).value;
      var category := OptTextArg(args, "category").value;
      var minPrice := OptNumberArg(args, "min_price").value;
      var maxPrice := OptNumberArg(args, "max_price").value;
      SearchAtMostTopK(tables.products, backend, query, topK, category, minPrice, maxPrice, None);
    }
  }

  /** `get_user_orders` without a logged-in user fails without touching the
      orders: its result does not depend on the orders table. */
  lemma UserOrdersNeedsLogin(tables: Tables, other: seq<Order>, backend: SearchBackend, callId: string, args: Arguments, userId: Option<int>)
    requires !TruthyInt(userId)
    ensures var r := ExecuteTool(tables, backend, callId, "get_user_orders", args, userId);
      r == ExecuteTool(Tables(tables.products, other), backend, callId, "get_user_orders", args, userId) &&
      !r.success && r.errorMessage == Some("Please log in to view your orders")
  {
  }

  /** `check_order_status` on an id that names no order. */
  lemma OrderStatusMissing(tables: Tables, backend: SearchBackend, callId: string, args: Arguments, userId: Option<int>)
    requires "order_id" in args && args["order_id"].SInt? && FindOrder(tables.orders, args["order_id"].i).None?
    ensures var r := ExecuteTool(tables, backend, callId, "check_order_status", args, userId);
      !r.success && r.errorMessage == Some("Order not found")
  {
  }

  /** Recommendations follow the fixed priority: similar products for a
      truthy `product_id`, else a search on preferences or category, else
      the first five active products at similarity 1.0. */
  lemma RecommendationPriority(tables: Tables, backend: SearchBackend, args: Arguments)
    ensures ArgTruthy(args, "product_id") ==> RecommendationBranch(args) == SimilarTo
    ensures !ArgTruthy(args, "product_id") && (ArgTruthy(args, "preferences") || ArgTruthy(args, "category")) ==>
      RecommendationBranch(args) == QuerySearch
    ensures RecommendationBranch(args) == FirstActive ==>
      var r := RecommendationsTool(tables, backend, args);
      && r.Ok? && |r.value.hits| == Min(5, |ActiveProducts(tables.products)|)
      && forall k :: 0 <= k < |r.value.hits| ==>
           r.value.hits[k].similarity == 1.0 && r.value.hits[k].product.isActive && r.value.hits[k].product in tables.products
  {
    if RecommendationBranch(args) == FirstActive {
      var active := ActiveProducts(tables.products);
      var r := RecommendationsTool(tables, backend, args);
      forall k | 0 <= k < |r.value.hits|
        ensures r.value.hits[k].product.isActive && r.value.hits[k].product in tables.products
      {
        assert r.value.hits[k].product == active[k];
        assert active[k] in active;
      }
    }
  }

  /** `get_recommendations` with a truthy `product_id`: the other arguments
      are not consulted; an id that names no product gives no results;
      otherwise the result is `find_similar_products` with the given limit,
      so never the product itself, only live rows at or above the 0.2
      floor, and no more than the limit. */
  lemma RecommendSimilar(tables: Tables, backend: SearchBackend, args: Arguments)
    requires ArgTruthy(args, "product_id")
    ensures var r := RecommendationsTool(tables, backend, args);
      && r == RecommendationsTool(tables, backend, args - {"preferences", "category"})
      && (IdOf(args["product_id"]).None? || FindProduct(tables.products, IdOf(args["product_id"]).value).None? ==>
            r == Ok(ProductHits([])))
      && (IdOf(args["product_id"]).Some? && FindProduct(tables.products, IdOf(args["product_id"]).value).Some? ==>
            && (IntArg(args, "limit", 5).Err? ==> r == Err(ArgumentTypeError))
            && (IntArg(args, "limit", 5).Ok? ==>
                  var f := FindSimilarProducts(tables.products, backend, IdOf(args["product_id"]).value, IntArg(args, "limit", 5).value);
                  (f.Err? ==> r == Err(f.error)) && (f.Ok? ==> r == Ok(ProductHits(f.value)))))
      && (r.Ok? ==> forall k :: 0 <= k < |r.value.hits| ==>
            && IdOf(args["product_id"]) != Some(r.value.hits[k].product.id)
            && r.value.hits[k].product in tables.products && r.value.hits[k].product.isActive
            && SimilarMinScore <= r.value.hits[k].similarity)
      && (r.Ok? && IntArg(args, "limit", 5).Ok? && 0 <= IntArg(args, "limit", 5).value ==>
            |r.value.hits| <= IntArg(args, "limit", 5).value)
  {
    var rest := args - {"preferences", "category"};
    assert rest["product_id"] == args["product_id"];
    assert ("limit" in rest <==> "limit" in args) && ("limit" in args ==> rest["limit"] == args["limit"]);
    assert IntArg(rest, "limit", 5) == IntArg(args, "limit", 5);
  }

  /** `get_recommendations` with preferences or a category and no truthy
      `product_id`: one search on the preferences (or the category), for
      `limit` matches, filtered by the category. It returns only live rows at
      or above the default floor, and, over an index that honours `top_k`, at
      most `limit` of them: unlike `search_products`, no cap of ten. */
  lemma RecommendByQuery(tables: Tables, backend: SearchBackend, args: Arguments)
    requires !ArgTruthy(args, "product_id") && (ArgTruthy(args, "preferences") || ArgTruthy(args, "category"))
    ensures var r := RecommendationsTool(tables, backend, args);
      && r == RecommendationsTool(tables, backend, args - {"product_id"})
      && (RecommendationQuery(args).Err? || IntArg(args, "limit", 5).Err? || OptTextArg(args, "category").Err? ==>
            r == Err(ArgumentTypeError))
      && (RecommendationQuery(args).Ok? && IntArg(args, "limit", 5).Ok? && OptTextArg(args, "category").Ok? ==>
            var s := SearchSpec(tables.products, backend, RecommendationQuery(args).value, IntArg(args, "limit", 5).value,
                       OptTextArg(args, "category").value, None, None, None);
            (s.Err? ==> r == Err(s.error)) && (s.Ok? ==> r == Ok(ProductHits(s.value))))
      && (r.Ok? ==> forall k :: 0 <= k < |r.value.hits| ==>
            r.value.hits[k].product in tables.products && r.value.hits[k].product.isActive
            && DefaultMinScore <= r.value.hits[k].similarity)
      && (QueryBounded(backend.query) && r.Ok? ==> |r.value.hits| <= IntArg(args, "limit", 5).value)
  {
    var rest := args - {"product_id"};
    assert forall key :: key != "product_id" ==> (key in rest <==> key in args) && (key in args ==> rest[key] == args[key]);
    assert !ArgTruthy(rest, "product_id");
    assert ArgTruthy(rest, "preferences") == ArgTruthy(args, "preferences");
    assert ArgTruthy(rest, "category") == ArgTruthy(args, "category");
    assert RecommendationQuery(rest) == RecommendationQuery(args);
    assert IntArg(rest, "limit", 5) == IntArg(args, "limit", 5);
    assert OptTextArg(rest, "category") == OptTextArg(args, "category");
    var r := RecommendationsTool(tables, backend, args);
    if r.Ok? {
      var query := RecommendationQuery(args).value;
      var limit := IntArg(args, "limit", 5).value;
      var category := OptTextArg(args, "category").value;
      SearchResultsLive(tables.products, backend, query, limit, category, None, None, None);
      if QueryBounded(backend.query) {
        SearchAtMostTopK(tables.products, backend, query, limit, category, None, None, None);
      }
    }
  }
}
