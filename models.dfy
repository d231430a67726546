/** The relational tables the core reads (products, orders, order items,
    reviews) and the table scans it runs over them. A table is a sequence in
    row order; `.first()` is the first matching row in that order. */
module Models {
  import opened Wrappers
  import opened Builtins

  datatype Product = Product(
    id: int,
    name: string,
    description: Option<string>,
    price: real,
    category: string,
    brand: Option<string>,
    imageUrl: Option<string>,
    stockQuantity: int,
    isActive: bool)

  datatype Order = Order(
    id: int,
    userId: int,
    totalAmount: real,
    status: string,
    shippingAddress: string)

  /** One order line; `price` is the product's price when the order was placed. */
  datatype OrderItem = OrderItem(orderId: int, productId: int, quantity: int, price: real)

  datatype Review = Review(id: int, userId: int, productId: int, rating: int, comment: Option<string>)

  /** The primary key of the products table. */
  predicate UniqueProductIds(ps: seq<Product>) {
    forall i, j :: 0 <= i < j < |ps| ==> ps[i].id != ps[j].id
  }

  /** `db.query(Product).filter(Product.id == id).first()`. */
  function FindProduct(ps: seq<Product>, id: int): (r: Option<Product>)
    ensures r.Some? ==> r.value in ps && r.value.id == id
    ensures r.None? <==> forall p :: p in ps ==> p.id != id
    decreases |ps|
  {
    if |ps| == 0 then None
    else if ps[0].id == id then Some(ps[0])
    else FindProduct(ps[1..], id)
  }

  /** The same query with `Product.is_active == True` added. */
  function FindActiveProduct(ps: seq<Product>, id: int): (r: Option<Product>)
    ensures r.Some? ==> r.value in ps && r.value.id == id && r.value.isActive
    ensures r.None? <==> forall p :: p in ps ==> !(p.id == id && p.isActive)
    decreases |ps|
  {
    if |ps| == 0 then None
    else if ps[0].id == id && ps[0].isActive then Some(ps[0])
    else FindActiveProduct(ps[1..], id)
  }

  /** Active products, restricted to one category when the category is
      truthy: `filter(Product.is_active == True)` then, `if category:`,
      `filter(Product.category == category)`. */
  function SelectProducts(ps: seq<Product>, category: Option<string>): (r: seq<Product>)
    ensures forall p :: p in r <==> p in ps && p.isActive && (TruthyText(category) ==> p.category == category.value)
    ensures |r| <= |ps|
    decreases |ps|
  {
    if |ps| == 0 then []
    else
      var rest := SelectProducts(ps[1..], category);
      assert forall p :: p in ps <==> p == ps[0] || p in ps[1..];
      if ps[0].isActive && (TruthyText(category) ==> ps[0].category == category.value)
      then [ps[0]] + rest
      else rest
  }

  function ActiveProducts(ps: seq<Product>): seq<Product> {
    SelectProducts(ps, None)
  }

  /** `db.query(Order).filter(Order.id == id).first()`. */
  function FindOrder(os: seq<Order>, id: int): (r: Option<Order>)
    ensures r.Some? ==> r.value in os && r.value.id == id
    ensures r.None? <==> forall o :: o in os ==> o.id != id
    decreases |os|
  {
    if |os| == 0 then None
    else if os[0].id == id then Some(os[0])
    else FindOrder(os[1..], id)
  }

  /** `db.query(Order).filter(Order.user_id == user_id).all()`. */
  function OrdersOfUser(os: seq<Order>, userId: int): (r: seq<Order>)
    ensures forall o :: o in r <==> o in os && o.userId == userId
    ensures |r| <= |os|
    decreases |os|
  {
    if |os| == 0 then []
    else
      var rest := OrdersOfUser(os[1..], userId);
      assert forall o :: o in os <==> o == os[0] || o in os[1..];
      if os[0].userId == userId then [os[0]] + rest else rest
  }
}
