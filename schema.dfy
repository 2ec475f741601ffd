/** The record shapes, enumerations and the order-item validation rule shared
    by the server and the client (shared/schema.ts). Money is counted in
    integer minor units (paise), so every sum is exact. */
module Schema {
  import opened Wrappers
  import Seqs

  // ---------------------------------------------------------------- roles

  /** `users.role`; `Customer` is the literal "user". */
  datatype Role = Customer | Admin | Delivery

  function RoleName(r: Role): string {
    match r
    case Customer => "user"
    case Admin => "admin"
    case Delivery => "delivery"
  }

  /** The column's enumeration check on a role literal. */
  function ParseRole(s: string): (r: Option<Role>)
    ensures r.Some? ==> RoleName(r.value) == s
  {
    if s == "user" then Some(Customer)
    else if s == "admin" then Some(Admin)
    else if s == "delivery" then Some(Delivery)
    else None
  }

  /** Every role survives its literal, and no two roles share one. */
  lemma RoleNameRoundTrip(r: Role)
    ensures ParseRole(RoleName(r)) == Some(r)
  {
    match r
    case Customer =>
    case Admin => assert RoleName(r) != "user";
    case Delivery =>
      assert RoleName(r) != "user";
      assert RoleName(r) != "admin";
  }

  /** The column default: a user inserted without a role is a "user". */
  function RoleOrDefault(given: Option<Role>): (r: Role)
    ensures given.None? ==> r == Customer
    ensures given.Some? ==> r == given.value
  {
    given.GetOr(Customer)
  }

  // ------------------------------------------------------------- statuses

  /** The `orders.status` literals in declaration order, which is also the
      order of the delivery lifecycle up to `delivered`. */
  const OrderStatuses: seq<string> :=
    ["pending", "preparing", "assigned", "delivering", "delivered", "cancelled"]

  const Pending: string := "pending"
  const Preparing: string := "preparing"
  const Assigned: string := "assigned"
  const Delivering: string := "delivering"
  const Delivered: string := "delivered"
  const Cancelled: string := "cancelled"

  /** The status is one of the six literals of the column's enumeration. */
  predicate IsOrderStatus(s: string) {
    s in OrderStatuses
  }

  /** The position of a status in the enumeration. */
  function StatusRank(s: string): (r: nat)
    requires IsOrderStatus(s)
    ensures r < |OrderStatuses| && OrderStatuses[r] == s
  {
    if s == Pending then 0
    else if s == Preparing then 1
    else if s == Assigned then 2
    else if s == Delivering then 3
    else if s == Delivered then 4
    else 5
  }

  /** The six literals are pairwise different, so a status is exactly one of them. */
  lemma StatusesDistinct()
    ensures Seqs.Distinct(OrderStatuses)
  {
  }

  // -------------------------------------------------------------- records

  /** A row of `users`. */
  datatype User = User(
    id: int, username: string, password: string, role: Role,
    fullName: string, address: Option<string>, phone: Option<string>)

  /** `InsertUser`: a user without an id; the role may be omitted. */
  datatype InsertUser = InsertUser(
    username: string, password: string, role: Option<Role>,
    fullName: string, address: Option<string>, phone: Option<string>)

  /** A row of `categories`. */
  datatype Category = Category(id: int, name: string)

  /** A row of `products`. Neither price nor stock has a lower bound. */
  datatype Product = Product(
    id: int, name: string, description: string, price: int,
    image: string, category: string, stock: int)

  /** The body of a product creation; `stock` may be omitted. */
  datatype InsertProduct = InsertProduct(
    name: string, description: string, price: int,
    image: string, category: string, stock: Option<int>)

  /** `Partial<Product>`: the fields a product update supplies. */
  datatype ProductPatch = ProductPatch(
    id: Option<int>, name: Option<string>, description: Option<string>,
    price: Option<int>, image: Option<string>, category: Option<string>,
    stock: Option<int>)

  /** An element of an order's (or a cart's) `items`. */
  datatype OrderItem = OrderItem(productId: int, quantity: int, name: string, price: int)

  /** A row of `orders`; `createdAt` is not modelled. `status` is a string
      because nothing on the write paths checks it against the enumeration. */
  datatype Order = Order(
    id: int, userId: int, status: string, deliveryPartnerId: Option<int>,
    items: seq<OrderItem>, total: int, address: string)

  /** A row of `cart`. */
  datatype Cart = Cart(id: int, userId: int, items: seq<OrderItem>, total: int)

  /** The column default: a product inserted without a stock has stock 0. */
  function StockOrDefault(given: Option<int>): (r: int)
    ensures given.None? ==> r == 0
    ensures given.Some? ==> r == given.value
  {
    given.GetOr(0)
  }

  /** The object spread of `updateProduct`: the stored record's fields,
      each overridden by the patch's field when the patch has one. */
  function Patched(p: Product, patch: ProductPatch): (q: Product)
    ensures patch == ProductPatch(None, None, None, None, None, None, None) ==> q == p
  {
    Product(
      patch.id.GetOr(p.id), patch.name.GetOr(p.name),
      patch.description.GetOr(p.description), patch.price.GetOr(p.price),
      patch.image.GetOr(p.image), patch.category.GetOr(p.category),
      patch.stock.GetOr(p.stock))
  }

  /** Applying the same patch a second time changes nothing more. */
  lemma PatchedIdempotent(p: Product, patch: ProductPatch)
    ensures Patched(Patched(p, patch), patch) == Patched(p, patch)
  {
  }

  /** The patch decides each field it supplies; the others are the old ones. */
  lemma PatchedFields(p: Product, patch: ProductPatch)
    ensures var q := Patched(p, patch);
      && (patch.id.Some? ==> q.id == patch.id.value)
      && (patch.id.None? ==> q.id == p.id)
      && (patch.name.Some? ==> q.name == patch.name.value)
      && (patch.name.None? ==> q.name == p.name)
      && (patch.description.Some? ==> q.description == patch.description.value)
      && (patch.description.None? ==> q.description == p.description)
      && (patch.price.Some? ==> q.price == patch.price.value)
      && (patch.price.None? ==> q.price == p.price)
      && (patch.image.Some? ==> q.image == patch.image.value)
      && (patch.image.None? ==> q.image == p.image)
      && (patch.category.Some? ==> q.category == patch.category.value)
      && (patch.category.None? ==> q.category == p.category)
      && (patch.stock.Some? ==> q.stock == patch.stock.value)
      && (patch.stock.None? ==> q.stock == p.stock)
  {
  }

  // ---------------------------------------------------------------- money

  /** A `reduce` from 0 that adds each item's price times its quantity:
      the total of an order and of a cart. */
  function Subtotal(items: seq<OrderItem>): (r: int)
    ensures (forall i :: 0 <= i < |items| ==> items[i].price >= 0 && items[i].quantity >= 0) ==> r >= 0
  {
    if items == [] then 0
    else items[0].price * items[0].quantity + Subtotal(items[1..])
  }

  /** The total of a concatenation is the sum of the totals. */
  lemma {:induction false} SubtotalConcat(a: seq<OrderItem>, b: seq<OrderItem>)
    ensures Subtotal(a + b) == Subtotal(a) + Subtotal(b)
  {
    if a == [] {
      assert a + b == b;
    } else {
      assert (a + b)[1..] == a[1..] + b;
      SubtotalConcat(a[1..], b);
    }
  }

  // ------------------------------------------------- order-item validation

  /** A JSON value as a request body carries it (numbers are integers here). */
  datatype Json =
    | JNull
    | JBool(b: bool)
    | JNum(n: int)
    | JStr(s: string)
    | JArr(elems: seq<Json>)
    | JObj(fields: map<string, Json>)

  /** The object a client sends for one item. */
  function ItemJson(it: OrderItem): Json {
    JObj(map["productId" := JNum(it.productId), "quantity" := JNum(it.quantity),
             "name" := JStr(it.name), "price" := JNum(it.price)])
  }

  function ItemsJson(items: seq<OrderItem>): (j: Json)
    ensures j.JArr? && |j.elems| == |items|
    ensures forall i :: 0 <= i < |items| ==> j.elems[i] == ItemJson(items[i])
  {
    JArr(seq(|items|, i requires 0 <= i < |items| => ItemJson(items[i])))
  }

  /** A number field of an object, if it is present and a number. */
  function NumField(f: map<string, Json>, key: string): Option<int> {
    if key in f && f[key].JNum? then Some(f[key].n) else None
  }

  /** `orderItemSchema.parse`: an object whose `productId`, `quantity` and
      `price` are numbers, whose `quantity` is at least 1 and whose `name` is a
      string; other fields are dropped. */
  function ParseOrderItem(j: Json): (r: Option<OrderItem>)
    ensures r.Some? ==> r.value.quantity >= 1
  {
    if !j.JObj? then None
    else
      var f := j.fields;
      match (NumField(f, "productId"), NumField(f, "quantity"), NumField(f, "price"))
      case (Some(pid), Some(q), Some(pr)) =>
        if q >= 1 && "name" in f && f["name"].JStr?
        then Some(OrderItem(pid, q, f["name"].s, pr))
        else None
      case _ => None
  }

  /** Parsing accepts an object exactly when each field has its type and the
      quantity is at least one. */
  lemma ParseOrderItemAccepts(j: Json)
    ensures ParseOrderItem(j).Some? <==>
      j.JObj? &&
      "productId" in j.fields && j.fields["productId"].JNum? &&
      "quantity" in j.fields && j.fields["quantity"].JNum? && j.fields["quantity"].n >= 1 &&
      "price" in j.fields && j.fields["price"].JNum? &&
      "name" in j.fields && j.fields["name"].JStr?
  {
  }

  /** An item sent as JSON parses back to itself exactly when its quantity is
      at least one; a price below zero is accepted. */
  lemma ItemRoundTrip(it: OrderItem)
    ensures ParseOrderItem(ItemJson(it)) == if it.quantity >= 1 then Some(it) else None
  {
  }

  /** `z.array(orderItemSchema).parse`: an array all of whose elements parse. */
  function ParseOrderItems(j: Json): (r: Option<seq<OrderItem>>)
    ensures r.Some? ==> j.JArr? && |r.value| == |j.elems|
    ensures r.Some? ==> forall i :: 0 <= i < |r.value| ==> r.value[i].quantity >= 1
  {
    if !j.JArr? then None else ParseAll(j.elems)
  }

  function ParseAll(js: seq<Json>): (r: Option<seq<OrderItem>>)
    ensures r.Some? ==> |r.value| == |js|
    ensures r.Some? ==> forall i :: 0 <= i < |js| ==> ParseOrderItem(js[i]) == Some(r.value[i])
    ensures r.None? ==> exists i :: 0 <= i < |js| && ParseOrderItem(js[i]).None?
  {
    if js == [] then Some([])
    else
      match (ParseOrderItem(js[0]), ParseAll(js[1..]))
      case (Some(it), Some(rest)) => Some([it] + rest)
      case (None, _) => None
      case (_, None) => None
  }

  /** A list of items sent as JSON parses back to itself exactly when every
      quantity is at least one. */
  lemma {:induction false} ItemsRoundTrip(items: seq<OrderItem>)
    ensures ParseOrderItems(ItemsJson(items)) ==
      if forall i :: 0 <= i < |items| ==> items[i].quantity >= 1 then Some(items) else None
  {
    var js := ItemsJson(items).elems;
    forall i | 0 <= i < |items| ensures ParseOrderItem(js[i]) == (if items[i].quantity >= 1 then Some(items[i]) else None) {
      ItemRoundTrip(items[i]);
    }
    var r := ParseAll(js);
    if r.Some? {
      assert r.value == items;
    }
  }
}
