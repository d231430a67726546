/** The table-backed services: catalog listing, wishlists, orders and
    reviews. The tables live in one `ShopDb` object whose methods change
    them the way the sessions' commits do. */
module Services {
  import opened Wrappers
  import opened Builtins
  import opened Models

  // ----- catalog listing -----

  /** Where SQLite's `OFFSET skip` starts in a result of `n` rows: a negative
      offset counts as zero. */
  function PageStart(n: nat, skip: int): (start: nat)
    ensures start <= n
  {
    Min(Max(skip, 0), n)
  }

  /** How many rows `LIMIT limit` keeps after the offset: a negative limit
      means no limit. */
  function PageLength(n: nat, skip: int, limit: int): (len: nat)
    ensures PageStart(n, skip) + len <= n
  {
    var rest := n - PageStart(n, skip);
    if limit < 0 then rest else Min(limit, rest)
  }

  /** `get_products`: the active products, of the category when it is truthy,
      then `offset(skip).limit(limit)`. */
  function ListProducts(ps: seq<Product>, skip: int, limit: int, category: Option<string>): (r: seq<Product>)
    ensures var selected := SelectProducts(ps, category);
      && |r| == PageLength(|selected|, skip, limit)
      && forall i :: 0 <= i < |r| ==> r[i] == selected[PageStart(|selected|, skip) + i]
  {
    var selected := SelectProducts(ps, category);
    var start := PageStart(|selected|, skip);
    selected[start..start + PageLength(|selected|, skip, limit)]
  }

  /** A listed product is active and, when a category is given, of that
      category; a limit of zero lists nothing. */
  lemma ListedProductsQualify(ps: seq<Product>, skip: int, limit: int, category: Option<string>)
    ensures forall p :: p in ListProducts(ps, skip, limit, category) ==>
      p in ps && p.isActive && (TruthyText(category) ==> p.category == category.value)
    ensures limit == 0 ==> ListProducts(ps, skip, limit, category) == []
  {
    var r := ListProducts(ps, skip, limit, category);
    var selected := SelectProducts(ps, category);
    forall p | p in r ensures p in selected {
      var i :| 0 <= i < |r| && r[i] == p;
      assert p == selected[PageStart(|selected|, skip) + i];
    }
  }

  /** Consecutive pages tile the listing: the page of `n` rows at `skip`
      followed by the page of `m` rows at `skip + n` is the page of `n + m`
      rows at `skip`. */
  lemma PagesConcatenate(ps: seq<Product>, skip: nat, n: nat, m: nat, category: Option<string>)
    ensures ListProducts(ps, skip, n, category) + ListProducts(ps, skip + n, m, category) ==
      ListProducts(ps, skip, n + m, category)
  {
    var selected := SelectProducts(ps, category);
    var a := ListProducts(ps, skip, n, category);
    var b := ListProducts(ps, skip + n, m, category);
    var c := ListProducts(ps, skip, n + m, category);
    assert |a + b| == |c|;
    forall i | 0 <= i < |c| ensures (a + b)[i] == c[i] {
      if i < |a| {
        assert (a + b)[i] == selected[PageStart(|selected|, skip) + i];
      } else {
        assert (a + b)[i] == b[i - |a|];
      }
    }
  }

  // ----- wishlists -----

  /** A list with no repeated element, as the association table's primary
      key guarantees for one user's wishlist. */
  predicate NoDup(w: seq<int>) {
    forall i, j :: 0 <= i < j < |w| ==> w[i] != w[j]
  }

  /** `if product not in user.wishlist_products: append(product)`. */
  function AddId(w: seq<int>, id: int): seq<int> {
    if id in w then w else w + [id]
  }

  /** `list.remove`: drops the first occurrence. */
  function RemoveFirst(w: seq<int>, id: int): (r: seq<int>)
    ensures id !in w ==> r == w
    ensures id in w ==> |r| == |w| - 1
    ensures forall x :: x in r ==> x in w
    ensures forall x :: x != id ==> (x in r <==> x in w)
    decreases |w|
  {
    if |w| == 0 then []
    else
      assert forall x :: x in w <==> x == w[0] || x in w[1..] by {
        assert w == [w[0]] + w[1..];
      }
      if w[0] == id then w[1..]
      else [w[0]] + RemoveFirst(w[1..], id)
  }

  /** After an add the product is in the wishlist exactly once, nothing else
      changed, and adding again is a no-op. */
  lemma AddIdOnce(w: seq<int>, id: int)
    requires NoDup(w)
    ensures NoDup(AddId(w, id)) && id in AddId(w, id)
    ensures forall x :: x in AddId(w, id) <==> x in w || x == id
    ensures AddId(AddId(w, id), id) == AddId(w, id)
  {
  }

  lemma NoDupTail(w: seq<int>)
    requires NoDup(w) && |w| > 0
    ensures NoDup(w[1..]) && w[0] !in w[1..]
  {
    forall i, j | 0 <= i < j < |w[1..]| ensures w[1..][i] != w[1..][j] {
      assert w[1..][i] == w[i + 1] && w[1..][j] == w[j + 1];
    }
    forall k | 0 <= k < |w[1..]| ensures w[1..][k] != w[0] {
      assert w[1..][k] == w[k + 1];
    }
  }

  lemma NoDupCons(x: int, s: seq<int>)
    requires NoDup(s) && x !in s
    ensures NoDup([x] + s)
  {
    var r := [x] + s;
    forall i, j | 0 <= i < j < |r| ensures r[i] != r[j] {
      assert r[j] == s[j - 1];
      if i > 0 {
        assert r[i] == s[i - 1];
      }
    }
  }

  /** After a remove the product is absent and the list still has no
      repeats, so removing again is a no-op. */
  lemma {:induction false} RemoveFirstAbsent(w: seq<int>, id: int)
    requires NoDup(w)
    ensures id !in RemoveFirst(w, id) && NoDup(RemoveFirst(w, id))
    ensures RemoveFirst(RemoveFirst(w, id), id) == RemoveFirst(w, id)
    decreases |w|
  {
    if |w| > 0 {
      NoDupTail(w);
      if w[0] != id {
        RemoveFirstAbsent(w[1..], id);
        NoDupCons(w[0], RemoveFirst(w[1..], id));
      }
    }
  }

  /** The wishlist's products by id, in list order. */
  function WishlistProducts(ps: seq<Product>, ids: seq<int>): (r: seq<Product>)
    ensures |r| <= |ids|
    ensures (forall k :: 0 <= k < |ids| ==> FindProduct(ps, ids[k]).Some?) ==>
      |r| == |ids| && forall k :: 0 <= k < |ids| ==> r[k] in ps && r[k].id == ids[k]
    decreases |ids|
  {
    if |ids| == 0 then []
    else
      var prev := WishlistProducts(ps, ids[..|ids| - 1]);
      match FindProduct(ps, ids[|ids| - 1])
      case None => prev
      case Some(p) => prev + [p]
  }

  // ----- orders -----

  /** One line of an `OrderCreate`. */
  datatype OrderItemRequest = OrderItemRequest(productId: int, quantity: int)

  /** The pricing loop of `create_order`: each item becomes a line carrying
      the product's current price, and the first unknown product raises. The
      lines get their order id once the order exists. */
  function PriceItems(ps: seq<Product>, items: seq<OrderItemRequest>): (r: Result<seq<OrderItem>, string>)
    decreases |items|
  {
    if |items| == 0 then Ok([])
    else
      var prev :- PriceItems(ps, items[..|items| - 1]);
      var item := items[|items| - 1];
      match FindProduct(ps, item.productId)
      case None => Err("Product " + IntToString(item.productId) + " not found")
      case Some(p) => Ok(prev + [OrderItem(0, item.productId, item.quantity, p.price)])
  }

  /** `sum(price * quantity)` over the lines, in order. */
  function LinesTotal(lines: seq<OrderItem>): real
    decreases |lines|
  {
    if |lines| == 0 then 0.0
    else
      var last := lines[|lines| - 1];
      LinesTotal(lines[..|lines| - 1]) + last.price * last.quantity as real
  }

  /** Pricing succeeds exactly when every product exists; then line `k` is
      item `k` at its product's price; otherwise the error names the first
      missing product. */
  lemma {:induction false} PriceItemsSpec(ps: seq<Product>, items: seq<OrderItemRequest>)
    ensures PriceItems(ps, items).Ok? <==> forall k :: 0 <= k < |items| ==> FindProduct(ps, items[k].productId).Some?
    ensures PriceItems(ps, items).Ok? ==>
      var lines := PriceItems(ps, items).value;
      && |lines| == |items|
      && forall k :: 0 <= k < |items| ==>
           && lines[k].productId == items[k].productId
           && lines[k].quantity == items[k].quantity
           && lines[k].price == FindProduct(ps, items[k].productId).value.price
    ensures PriceItems(ps, items).Err? ==>
      exists k :: 0 <= k < |items| && FindProduct(ps, items[k].productId).None? &&
        (forall j :: 0 <= j < k ==> FindProduct(ps, items[j].productId).Some?) &&
        PriceItems(ps, items).error == "Product " + IntToString(items[k].productId) + " not found"
  {
    PricedLines(ps, items);
    PricedWhenAllFound(ps, items);
    PriceFailsAtFirstMissing(ps, items);
  }

  lemma {:induction false} PricedLines(ps: seq<Product>, items: seq<OrderItemRequest>)
    ensures PriceItems(ps, items).Ok? ==>
      var lines := PriceItems(ps, items).value;
      && |lines| == |items|
      && forall k :: 0 <= k < |items| ==>
           && FindProduct(ps, items[k].productId).Some?
           && lines[k].productId == items[k].productId
           && lines[k].quantity == items[k].quantity
           && lines[k].price == FindProduct(ps, items[k].productId).value.price
    decreases |items|
  {
    if |items| > 0 {
      var prefix := items[..|items| - 1];
      PricedLines(ps, prefix);
      assert forall k :: 0 <= k < |prefix| ==> prefix[k] == items[k];
    }
  }

  lemma {:induction false} PricedWhenAllFound(ps: seq<Product>, items: seq<OrderItemRequest>)
    ensures (forall k :: 0 <= k < |items| ==> FindProduct(ps, items[k].productId).Some?) ==> PriceItems(ps, items).Ok?
    decreases |items|
  {
    if |items| > 0 && forall k :: 0 <= k < |items| ==> FindProduct(ps, items[k].productId).Some? {
      var prefix := items[..|items| - 1];
      assert forall k :: 0 <= k < |prefix| ==> prefix[k] == items[k];
      PricedWhenAllFound(ps, prefix);
      assert FindProduct(ps, items[|items| - 1].productId).Some?;
    }
  }

  lemma {:induction false} PriceFailsAtFirstMissing(ps: seq<Product>, items: seq<OrderItemRequest>)
    ensures PriceItems(ps, items).Err? ==>
      exists k :: 0 <= k < |items| && FindProduct(ps, items[k].productId).None? &&
        (forall j :: 0 <= j < k ==> FindProduct(ps, items[j].productId).Some?) &&
        PriceItems(ps, items).error == "Product " + IntToString(items[k].productId) + " not found"
    decreases |items|
  {
    if |items| > 0 && PriceItems(ps, items).Err? {
      var prefix := items[..|items| - 1];
      assert forall k :: 0 <= k < |prefix| ==> prefix[k] == items[k];
      if PriceItems(ps, prefix).Err? {
        PriceFailsAtFirstMissing(ps, prefix);
        var k :| 0 <= k < |prefix| && FindProduct(ps, prefix[k].productId).None? &&
          (forall j :: 0 <= j < k ==> FindProduct(ps, prefix[j].productId).Some?) &&
          PriceItems(ps, prefix).error == "Product " + IntToString(prefix[k].productId) + " not found";
        assert items[k] == prefix[k];
      } else {
        PricedLines(ps, prefix);
        var k := |items| - 1;
        assert FindProduct(ps, items[k].productId).None?;
      }
    }
  }

  /** Once a prefix of the items fails to price, the whole order fails the
      same way. */
  lemma {:induction false} PriceItemsErrSticky(ps: seq<Product>, items: seq<OrderItemRequest>, n: nat)
    requires n <= |items| && PriceItems(ps, items[..n]).Err?
    ensures PriceItems(ps, items) == PriceItems(ps, items[..n])
    decreases |items| - n
  {
    if n < |items| {
      assert items[..n + 1][..n] == items[..n];
      PriceItemsErrSticky(ps, items, n + 1);
    } else {
      assert items[..n] == items;
    }
  }

  /** `order_item.order_id = order.id` on every line. */
  function WithOrderId(lines: seq<OrderItem>, orderId: int): (r: seq<OrderItem>)
    ensures |r| == |lines|
    ensures forall k :: 0 <= k < |lines| ==> r[k] == lines[k].(orderId := orderId)
  {
    seq(|lines|, k requires 0 <= k < |lines| => lines[k].(orderId := orderId))
  }

  /** The second loop of `create_order`: every line gets the new order's id. */
  method AssignOrderId(lines: seq<OrderItem>, orderId: int) returns (rows: seq<OrderItem>)
    ensures rows == WithOrderId(lines, orderId)
  {
    rows := [];
    for j := 0 to |lines|
      invariant rows == WithOrderId(lines[..j], orderId)
    {
      rows := rows + [lines[j].(orderId := orderId)];
    }
    assert lines[..|lines|] == lines;
  }

  // ----- reviews -----

  /** The first review by `userId` of `productId`. */
  function FindReview(rs: seq<Review>, userId: int, productId: int): (r: Option<Review>)
    ensures r.Some? ==> r.value in rs && r.value.userId == userId && r.value.productId == productId
    ensures r.None? <==> forall x :: x in rs ==> !(x.userId == userId && x.productId == productId)
    decreases |rs|
  {
    if |rs| == 0 then None
    else if rs[0].userId == userId && rs[0].productId == productId then Some(rs[0])
    else FindReview(rs[1..], userId, productId)
  }

  /** At most one review per (user, product). */
  predicate OneReviewPerPair(rs: seq<Review>) {
    forall i, j :: 0 <= i < j < |rs| ==> !(rs[i].userId == rs[j].userId && rs[i].productId == rs[j].productId)
  }

  /** `get_product_reviews`: the product's reviews in table order. */
  function ReviewsOfProduct(rs: seq<Review>, productId: int): (r: seq<Review>)
    ensures forall x :: x in r <==> x in rs && x.productId == productId
    ensures |r| <= |rs|
    decreases |rs|
  {
    if |rs| == 0 then []
    else
      var rest := ReviewsOfProduct(rs[1..], productId);
      assert forall x :: x in rs <==> x == rs[0] || x in rs[1..];
      if rs[0].productId == productId then [rs[0]] + rest else rest
  }

  /** The database the services share. A user exists exactly when it has a
      `wishlists` entry, which lists its wishlist's product ids in list
      order; `nextOrderId` and `nextReviewId` are the ids the next inserts
      receive. */
  class ShopDb {
    var products: seq<Product>
    var wishlists: map<int, seq<int>>
    var orders: seq<Order>
    var orderItems: seq<OrderItem>
    var reviews: seq<Review>
    var nextOrderId: int
    var nextReviewId: int

    /** The association table's key, its foreign key into products, one
        review per (user, product), and ids not yet handed out. */
    predicate Valid()
      reads this
    {
      && (forall u :: u in wishlists ==> NoDup(wishlists[u]))
      && (forall u, x :: u in wishlists && x in wishlists[u] ==> FindProduct(products, x).Some?)
      && OneReviewPerPair(reviews)
      && (forall i :: 0 <= i < |orders| ==> orders[i].id < nextOrderId)
      && (forall i :: 0 <= i < |reviews| ==> reviews[i].id < nextReviewId)
    }

    /** A catalog and its users, with empty wishlists and no orders or
        reviews. */
    constructor (catalog: seq<Product>, users: set<int>)
      ensures Valid()
      ensures products == catalog && wishlists == (map u | u in users :: []) && orders == [] && orderItems == [] && reviews == []
    {
      products := catalog;
      wishlists := map u | u in users :: [];
      orders := [];
      orderItems := [];
      reviews := [];
      nextOrderId := 1;
      nextReviewId := 1;
    }

    /** `add_to_wishlist`: `False` when the user or the product is missing;
        otherwise the product is appended unless already there. */
    method AddToWishlist(userId: int, productId: int) returns (ok: bool)
      requires Valid()
      modifies this
      ensures Valid()
      ensures ok <==> userId in old(wishlists) && FindProduct(old(products), productId).Some?
      ensures !ok ==> wishlists == old(wishlists)
      ensures ok ==> wishlists == old(wishlists)[userId := AddId(old(wishlists)[userId], productId)]
      ensures ok ==> productId in wishlists[userId]
      ensures products == old(products) && orders == old(orders) && orderItems == old(orderItems)
      ensures reviews == old(reviews) && nextOrderId == old(nextOrderId) && nextReviewId == old(nextReviewId)
    {
      if userId !in wishlists || FindProduct(products, productId).None? {
        return false;
      }
      var w := wishlists[userId];
      AddIdOnce(w, productId);
      if productId !in w {
        wishlists := wishlists[userId := w + [productId]];
      }
      return true;
    }

    /** `remove_from_wishlist`: `False` when the user or the product is
        missing; otherwise the product is removed if present. */
    method RemoveFromWishlist(userId: int, productId: int) returns (ok: bool)
      requires Valid()
      modifies this
      ensures Valid()
      ensures ok <==> userId in old(wishlists) && FindProduct(old(products), productId).Some?
      ensures !ok ==> wishlists == old(wishlists)
      ensures ok ==> wishlists == old(wishlists)[userId := RemoveFirst(old(wishlists)[userId], productId)]
      ensures ok ==> productId !in wishlists[userId]
      ensures products == old(products) && orders == old(orders) && orderItems == old(orderItems)
      ensures reviews == old(reviews) && nextOrderId == old(nextOrderId) && nextReviewId == old(nextReviewId)
    {
      if userId !in wishlists || FindProduct(products, productId).None? {
        return false;
      }
      var w := wishlists[userId];
      RemoveFirstAbsent(w, productId);
      if productId in w {
        wishlists := wishlists[userId := RemoveFirst(w, productId)];
      }
      return true;
    }

    /** `get_wishlist`: the user's wishlist products, or none for an unknown
        user. */
    function Wishlist(userId: int): seq<Product>
      reads this
    {
      if userId in wishlists then WishlistProducts(products, wishlists[userId]) else []
    }

    /** Every id in a user's wishlist yields its product, in order; an
        unknown user has an empty wishlist. */
    lemma WishlistComplete(userId: int)
      requires Valid()
      ensures userId !in wishlists ==> Wishlist(userId) == []
      ensures userId in wishlists ==>
        && |Wishlist(userId)| == |wishlists[userId]|
        && forall k :: 0 <= k < |wishlists[userId]| ==>
             Wishlist(userId)[k] in products && Wishlist(userId)[k].id == wishlists[userId][k]
    {
      if userId in wishlists {
        var w := wishlists[userId];
        assert forall k :: 0 <= k < |w| ==> w[k] in w;
      }
    }

    /** `create_order`: prices every item (raising, with nothing written, at
        the first unknown product), inserts the order with the accumulated
        total, then inserts the lines under the new order's id. */
    method CreateOrder(userId: int, items: seq<OrderItemRequest>, shippingAddress: string) returns (r: Result<Order, string>)
      requires Valid()
      modifies this
      ensures Valid()
      ensures var priced := PriceItems(old(products), items);
        && (priced.Err? ==> r == Err(priced.error) && orders == old(orders) && orderItems == old(orderItems) && nextOrderId == old(nextOrderId))
        && (priced.Ok? ==>
              && r == Ok(Order(old(nextOrderId), userId, LinesTotal(priced.value), "pending", shippingAddress))
              && orders == old(orders) + [r.value]
              && orderItems == old(orderItems) + WithOrderId(priced.value, r.value.id)
              && nextOrderId == old(nextOrderId) + 1)
      ensures products == old(products) && wishlists == old(wishlists)
      ensures reviews == old(reviews) && nextReviewId == old(nextReviewId)
    {
      var priced, total := PriceOrderItems(items);
      if priced.Err? {
        return Err(priced.error);
      }
      var lines := priced.value;
      var order := Order(nextOrderId, userId, total, "pending", shippingAddress);
      orders := orders + [order];
      nextOrderId := nextOrderId + 1;
      var rows := AssignOrderId(lines, order.id);
      orderItems := orderItems + rows;
      r := Ok(order);
    }

    /** The pricing loop of `create_order`, accumulating the lines and the
        total. */
    method PriceOrderItems(items: seq<OrderItemRequest>) returns (priced: Result<seq<OrderItem>, string>, total: real)
      ensures priced == PriceItems(products, items)
      ensures priced.Ok? ==> total == LinesTotal(priced.value)
    {
      total := 0.0;
      var lines: seq<OrderItem> := [];
      for i := 0 to |items|
        invariant PriceItems(products, items[..i]) == Ok(lines)
        invariant total == LinesTotal(lines)
      {
        assert items[..i + 1][..i] == items[..i];
        var item := items[i];
        var product := FindProduct(products, item.productId);
        if product.None? {
          PriceItemsErrSticky(products, items, i + 1);
          return Err("Product " + IntToString(item.productId) + " not found"), total;
        }
        var line := OrderItem(0, item.productId, item.quantity, product.value.price);
        assert LinesTotal(lines + [line]) == LinesTotal(lines) + line.price * line.quantity as real by {
          assert (lines + [line])[..|lines|] == lines;
        }
        total := total + product.value.price * item.quantity as real;
        lines := lines + [line];
      }
      assert items[..|items|] == items;
      priced := Ok(lines);
    }

    /** `get_user_orders`. */
    function UserOrders(userId: int): (r: seq<Order>)
      reads this
      ensures forall o :: o in r <==> o in orders && o.userId == userId
    {
      OrdersOfUser(orders, userId)
    }

    /** `create_review`: refuses a second review of the same product by the
        same user; otherwise inserts exactly one review. */
    method CreateReview(userId: int, productId: int, rating: int, comment: Option<string>) returns (r: Result<Review, string>)
      requires Valid()
      modifies this
      ensures Valid()
      ensures FindReview(old(reviews), userId, productId).Some? ==>
        r == Err("You have already reviewed this product") && reviews == old(reviews) && nextReviewId == old(nextReviewId)
      ensures FindReview(old(reviews), userId, productId).None? ==>
        && r == Ok(Review(old(nextReviewId), userId, productId, rating, comment))
        && reviews == old(reviews) + [r.value]
        && nextReviewId == old(nextReviewId) + 1
      ensures products == old(products) && wishlists == old(wishlists)
      ensures orders == old(orders) && orderItems == old(orderItems) && nextOrderId == old(nextOrderId)
    {
      var existing := FindReview(reviews, userId, productId);
      if existing.Some? {
        return Err("You have already reviewed this product");
      }
      var review := Review(nextReviewId, userId, productId, rating, comment);
      assert forall i :: 0 <= i < |reviews| ==> reviews[i] in reviews;
      reviews := reviews + [review];
      nextReviewId := nextReviewId + 1;
      r := Ok(review);
    }

    /** `get_product_reviews`. */
    function ProductReviews(productId: int): (r: seq<Review>)
      reads this
      ensures forall x :: x in r <==> x in reviews && x.productId == productId
    {
      ReviewsOfProduct(reviews, productId)
    }
  }
}
