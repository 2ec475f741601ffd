/** The request handlers of server/routes.ts, lifted out of Express: each
    takes the signed-in user (`req.user`, absent when there is no session)
    and the request's parameters, and acts on the shared store. */
module Routes {
  import opened Wrappers
  import opened Schema
  import opened Storage
  import Seqs

  /** What a handler does with the response. */
  datatype Response<T> =
    | JsonBody(code: nat, body: T)      // a JSON body with that status; a plain res.json is code 200
    | Text(code: nat, message: string)  // a plain-text body, or a bare status with its standard text
    | Thrown(message: string)           // the handler threw; no handler catches it

  /** The caller is signed in and an admin: the gate on every product write. */
  predicate IsAdmin(user: Option<User>) {
    user.Some? && user.value.role == Admin
  }

  /** The status is falsy: absent or the empty string. */
  predicate StatusMissing(status: Option<string>) {
    status.None? || status.value == ""
  }

  /** The partner id passed to the store on a status change: the caller's own
      id when the caller is a delivery user, and none otherwise. */
  function ActingPartner(user: User): (p: Option<int>)
    ensures p.Some? <==> user.role == Delivery
    ensures p.Some? ==> p.value == user.id
  {
    if user.role == Delivery then Some(user.id) else None
  }

  /** Stands for the validation error a failed item parse throws. The error's
      actual message (the list of failed fields) is not modelled: only the
      fact that the handler throws is. */
  const InvalidItems: string := "ZodError"

  /** `GET /api/products`: open to everyone. */
  method ListProducts(store: MemStorage) returns (resp: Response<seq<Product>>)
    requires store.Valid()
    ensures resp.JsonBody? && resp.code == 200
    ensures resp.body == store.GetProducts()
    ensures forall p :: p in resp.body <==> exists k :: k in store.products.entries && store.products.entries[k] == p
  {
    var ps := store.GetProducts();
    resp := JsonBody(200, ps);
  }

  /** `POST /api/products`: only an admin creates; anyone else gets 403 and
      the store is untouched. */
  method CreateProduct(store: MemStorage, user: Option<User>, body: InsertProduct)
    returns (resp: Response<Product>)
    requires store.Valid()
    modifies store
    ensures store.Valid()
    ensures !IsAdmin(user) ==> resp == Text(403, "Unauthorized") && unchanged(store)
    ensures IsAdmin(user) ==>
      && resp.JsonBody? && resp.code == 201
      && resp.body == Product(old(store.currentId.products), body.name, body.description,
           body.price, body.image, body.category, StockOrDefault(body.stock))
      && resp.body.id !in old(store.products.entries)
      && store.products == old(store.products).Set(resp.body.id, resp.body)
      && store.currentId == old(store.currentId).(products := old(store.currentId.products) + 1)
      && store.orders == old(store.orders) && store.users == old(store.users)
      && store.categories == old(store.categories) && store.carts == old(store.carts)
  {
    if !IsAdmin(user) {
      return Text(403, "Unauthorized");
    }
    var p := Product(0, body.name, body.description, body.price, body.image,
                     body.category, StockOrDefault(body.stock));
    var created := store.CreateProduct(p);
    resp := JsonBody(201, created);
  }

  /** `PATCH /api/products/:id`: only an admin updates; an unknown id makes
      the store throw "Product not found". */
  method UpdateProduct(store: MemStorage, user: Option<User>, id: int, patch: ProductPatch)
    returns (resp: Response<Product>)
    requires store.Valid()
    modifies store
    ensures store.Valid()
    ensures !IsAdmin(user) ==> resp == Text(403, "Unauthorized") && unchanged(store)
    ensures IsAdmin(user) && id !in old(store.products.entries) ==>
      resp == Thrown("Product not found") && unchanged(store)
    ensures IsAdmin(user) && id in old(store.products.entries) ==>
      && resp == JsonBody(200, Patched(old(store.products.entries[id]), patch))
      && store.products == old(store.products).Set(id, resp.body)
      && store.orders == old(store.orders) && store.users == old(store.users)
      && store.categories == old(store.categories) && store.carts == old(store.carts)
      && store.currentId == old(store.currentId)
  {
    if !IsAdmin(user) {
      return Text(403, "Unauthorized");
    }
    var r := store.UpdateProduct(id, patch);
    if r.Err? {
      return Thrown(r.message);
    }
    resp := JsonBody(200, r.value);
  }

  /** `DELETE /api/products/:id`: only an admin deletes; deleting an absent
      id succeeds too. */
  method DeleteProduct(store: MemStorage, user: Option<User>, id: int)
    returns (resp: Response<()>)
    requires store.Valid()
    modifies store
    ensures store.Valid()
    ensures !IsAdmin(user) ==> resp == Text(403, "Unauthorized") && unchanged(store)
    ensures IsAdmin(user) ==>
      && resp == Text(200, "OK")
      && store.products == old(store.products).Delete(id)
      && id !in store.products.entries
      && store.orders == old(store.orders) && store.users == old(store.users)
      && store.categories == old(store.categories) && store.carts == old(store.carts)
      && store.currentId == old(store.currentId)
  {
    if !IsAdmin(user) {
      return Text(403, "Unauthorized");
    }
    store.DeleteProduct(id);
    resp := Text(200, "OK");
  }

  /** `POST /api/orders`: needs a session; the items must parse; the total is
      the sum of price times quantity; a new order is always "pending", has
      no delivery partner and belongs to the caller. */
  method CreateOrder(store: MemStorage, user: Option<User>, items: Json, address: string)
    returns (resp: Response<Order>)
    requires store.Valid()
    modifies store
    ensures store.Valid()
    ensures user.None? ==> resp == Text(401, "Unauthorized") && unchanged(store)
    ensures user.Some? && ParseOrderItems(items).None? ==>
      resp == Thrown(InvalidItems) && unchanged(store)
    ensures user.Some? && ParseOrderItems(items).Some? ==>
      && resp.JsonBody? && resp.code == 201
      && resp.body.id == old(store.currentId.orders)
      && resp.body.id !in old(store.orders.entries)
      && resp.body.userId == user.value.id
      && resp.body.status == Pending
      && resp.body.deliveryPartnerId == None
      && resp.body.items == ParseOrderItems(items).value
      && resp.body.total == Subtotal(resp.body.items)
      && resp.body.address == address
      && store.orders == old(store.orders).Set(resp.body.id, resp.body)
      && store.currentId == old(store.currentId).(orders := old(store.currentId.orders) + 1)
      && store.products == old(store.products) && store.users == old(store.users)
      && store.categories == old(store.categories) && store.carts == old(store.carts)
  {
    if user.None? {
      return Text(401, "Unauthorized");
    }
    var parsed := ParseOrderItems(items);
    if parsed.None? {
      return Thrown(InvalidItems);
    }
    var total := Subtotal(parsed.value);
    var order := Order(0, user.value.id, Pending, None, parsed.value, total, address);
    var created := store.CreateOrder(order);
    resp := JsonBody(201, created);
  }

  /** `GET /api/orders`: an admin sees every order, a delivery user exactly
      the orders assigned to them, anyone else exactly their own orders. */
  method ListOrders(store: MemStorage, user: Option<User>) returns (resp: Response<seq<Order>>)
    requires store.Valid()
    ensures user.None? ==> resp == Text(401, "Unauthorized")
    ensures user.Some? ==> resp.JsonBody? && resp.code == 200
    ensures user.Some? && user.value.role == Admin ==>
      && resp.body == store.GetOrders()
      && forall o :: o in resp.body <==> o.id in store.orders.entries && store.orders.entries[o.id] == o
    ensures user.Some? && user.value.role == Delivery ==>
      && resp.body == store.GetOrdersByDeliveryPartner(user.value.id)
      && forall o :: o in resp.body <==> o in store.GetOrders() && o.deliveryPartnerId == Some(user.value.id)
    ensures user.Some? && user.value.role == Customer ==>
      && resp.body == store.GetOrdersByUser(user.value.id)
      && forall o :: o in resp.body <==> o in store.GetOrders() && o.userId == user.value.id
  {
    if user.None? {
      return Text(401, "Unauthorized");
    }
    var orders;
    if user.value.role == Admin {
      orders := store.GetOrders();
    } else if user.value.role == Delivery {
      orders := store.GetOrdersByDeliveryPartner(user.value.id);
    } else {
      orders := store.GetOrdersByUser(user.value.id);
    }
    resp := JsonBody(200, orders);
  }

  /** `PATCH /api/orders/:id/status`: needs a session and a non-empty status;
      any status string is accepted; a delivery caller becomes the order's
      partner, any other caller leaves the partner as it was. */
  method UpdateOrderStatus(store: MemStorage, user: Option<User>, id: int, status: Option<string>)
    returns (resp: Response<Order>)
    requires store.Valid()
    modifies store
    ensures store.Valid()
    ensures user.None? ==> resp == Text(401, "Unauthorized") && unchanged(store)
    ensures user.Some? && StatusMissing(status) ==>
      resp == Text(400, "Status is required") && unchanged(store)
    ensures user.Some? && !StatusMissing(status) && id !in old(store.orders.entries) ==>
      resp == Thrown("Order not found") && unchanged(store)
    ensures user.Some? && !StatusMissing(status) && id in old(store.orders.entries) ==>
      var was := old(store.orders.entries[id]);
      && resp.JsonBody? && resp.code == 200
      && resp.body.status == status.value
      && resp.body.deliveryPartnerId ==
           (if user.value.role == Delivery then Some(user.value.id) else was.deliveryPartnerId)
      && resp.body == was.(status := status.value, deliveryPartnerId := resp.body.deliveryPartnerId)
      && store.orders == old(store.orders).Set(id, resp.body)
      && store.products == old(store.products) && store.users == old(store.users)
      && store.categories == old(store.categories) && store.carts == old(store.carts)
      && store.currentId == old(store.currentId)
  {
    if user.None? {
      return Text(401, "Unauthorized");
    }
    if StatusMissing(status) {
      return Text(400, "Status is required");
    }
    var r := store.UpdateOrderStatus(id, status.value, ActingPartner(user.value));
    if r.Err? {
      return Thrown(r.message);
    }
    resp := JsonBody(200, r.value);
  }
}
