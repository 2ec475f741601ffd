/** The in-memory store (`MemStorage`, server/storage.ts): five insertion-
    ordered tables and one id counter per table. */
module Storage {
  import opened Wrappers
  import opened Schema
  import opened JsMaps
  import Seqs

  /** `currentId`: the id the next record of each table receives. */
  datatype Counters = Counters(users: nat, products: nat, orders: nat, categories: nat, carts: nat)

  /** The selections the store's queries make. */
  function PlacedBy(userId: int): Order -> bool {
    (o: Order) => o.userId == userId
  }

  function AssignedTo(partnerId: int): Order -> bool {
    (o: Order) => o.deliveryPartnerId == Some(partnerId)
  }

  predicate IsDeliveryUser(u: User) {
    u.role == Delivery
  }

  /** The `find` over the listed users: the first one with that username. */
  function FindByUsername(us: seq<User>, username: string): (r: Option<User>)
    ensures r.None? <==> forall i :: 0 <= i < |us| ==> us[i].username != username
    ensures r.Some? ==> r.value.username == username
    ensures r.Some? ==>
      exists i :: 0 <= i < |us| && us[i] == r.value && forall j :: 0 <= j < i ==> us[j].username != username
  {
    if us == [] then None
    else if us[0].username == username then Some(us[0])
    else
      var r := FindByUsername(us[1..], username);
      assert r.Some? ==>
        exists i :: 0 <= i < |us| && us[i] == r.value && forall j :: 0 <= j < i ==> us[j].username != username
      by {
        if r.Some? {
          var i :| 0 <= i < |us| - 1 && us[1..][i] == r.value &&
            forall j :: 0 <= j < i ==> us[1..][j].username != username;
          assert us[i + 1] == r.value;
          forall j | 0 <= j < i + 1 ensures us[j].username != username {
            if j > 0 { assert us[j] == us[1..][j - 1]; }
          }
        }
      }
      r
  }

  /** Listing a table whose records are stored under their own ids (as
      given by `id`) yields exactly the stored records. */
  lemma ByOwnId<V(!new)>(m: JsMap<int, V>, id: V -> int)
    requires m.Valid()
    requires forall k :: k in m.entries ==> id(m.entries[k]) == k
    ensures forall v :: v in m.Values() <==> id(v) in m.entries && m.entries[id(v)] == v
  {
    forall v ensures v in m.Values() <==> id(v) in m.entries && m.entries[id(v)] == v {
      if v in m.Values() {
        var k := ListedValue(m, v);
      }
      if id(v) in m.entries {
        ValueListed(m, id(v));
      }
    }
  }

  /** Product records may carry an id other than their key (see `Valid`), so
      their listing is characterised by the keys that hold them. */
  lemma ProductValues(m: JsMap<int, Product>)
    requires m.Valid()
    ensures forall p :: p in m.Values() <==> exists k :: k in m.entries && m.entries[k] == p
  {
    forall p ensures p in m.Values() <==> exists k :: k in m.entries && m.entries[k] == p {
      if p in m.Values() {
        var k := ListedValue(m, p);
      }
      if exists k :: k in m.entries && m.entries[k] == p {
        var k :| k in m.entries && m.entries[k] == p;
        ValueListed(m, k);
      }
    }
  }

  class MemStorage {
    var users: JsMap<int, User>
    var products: JsMap<int, Product>
    var orders: JsMap<int, Order>
    var categories: JsMap<int, Category>
    var carts: JsMap<int, Cart>
    var currentId: Counters

    /** Every table is a well-formed map; every key was handed out by its
        counter (so it lies in [1, counter)); users, categories and orders are
        stored under their own id, carts under their user's id. A product
        update may rewrite the stored `id` field, so products are not
        claimed to be stored under their own id. */
    ghost predicate Valid()
      reads this
    {
      && users.Valid() && products.Valid() && orders.Valid()
      && categories.Valid() && carts.Valid()
      && currentId.users >= 1 && currentId.products >= 1 && currentId.orders >= 1
      && currentId.categories >= 1 && currentId.carts >= 1
      && (forall k :: k in users.entries ==> 1 <= k < currentId.users && users.entries[k].id == k)
      && (forall k :: k in products.entries ==> 1 <= k < currentId.products)
      && (forall k :: k in orders.entries ==> 1 <= k < currentId.orders && orders.entries[k].id == k)
      && (forall k :: k in categories.entries ==> 1 <= k < currentId.categories && categories.entries[k].id == k)
      && (forall k :: k in carts.entries ==> carts.entries[k].id == k)
    }

    constructor ()
      ensures Valid()
      ensures users.entries == map[] && products.entries == map[] && orders.entries == map[]
      ensures categories.entries == map[] && carts.entries == map[]
      ensures currentId == Counters(1, 1, 1, 1, 1)
    {
      users, products, orders := Empty(), Empty(), Empty();
      categories, carts := Empty(), Empty();
      currentId := Counters(1, 1, 1, 1, 1);
    }

    // ---------------------------------------------------------------- users

    /** `getUser`. */
    function GetUser(id: int): (r: Option<User>)
      requires Valid()
      reads this
      ensures r.Some? <==> id in users.entries
      ensures r.Some? ==> r.value == users.entries[id] && r.value.id == id
    {
      users.Get(id)
    }

    /** `getUserByUsername`: the first user, in insertion order, with that name. */
    function GetUserByUsername(username: string): (r: Option<User>)
      requires Valid()
      reads this
      ensures r.None? <==> forall k :: k in users.entries ==> users.entries[k].username != username
      ensures r.Some? ==> r.value.username == username
      ensures r.Some? ==> r.value.id in users.entries && users.entries[r.value.id] == r.value
    {
      ByOwnId(users, (u: User) => u.id);
      var r := FindByUsername(users.Values(), username);
      r
    }

    /** `createUser`: the record gets the users counter as its id (and the
        default role when none is given), and the counter moves on. */
    method CreateUser(u: InsertUser) returns (user: User)
      requires Valid()
      modifies this
      ensures Valid()
      ensures user == User(old(currentId.users), u.username, u.password,
        RoleOrDefault(u.role), u.fullName, u.address, u.phone)
      ensures user.id !in old(users.entries)
      ensures users == old(users).Set(user.id, user)
      ensures currentId == old(currentId).(users := old(currentId.users) + 1)
      ensures products == old(products) && orders == old(orders)
      ensures categories == old(categories) && carts == old(carts)
    {
      var id := currentId.users;
      currentId := currentId.(users := id + 1);
      user := User(id, u.username, u.password, RoleOrDefault(u.role), u.fullName, u.address, u.phone);
      users := users.Set(id, user);
    }

    /** `getDeliveryPartners`: the users whose role is "delivery". */
    function GetDeliveryPartners(): (r: seq<User>)
      requires Valid()
      reads this
      ensures forall u :: u in r <==> u in users.Values() && u.role == Delivery
    {
      Seqs.Filter(users.Values(), IsDeliveryUser)
    }

    // ----------------------------------------------------------- categories

    /** `getCategories`. */
    function GetCategories(): (r: seq<Category>)
      requires Valid()
      reads this
      ensures |r| == |categories.entries|
      ensures forall c :: c in r <==> c.id in categories.entries && categories.entries[c.id] == c
    {
      ByOwnId(categories, (c: Category) => c.id);
      assert |categories.entries.Keys| == |categories.order| by {
        Seqs.DistinctCard(categories.order);
        assert categories.entries.Keys == set k | k in categories.order;
      }
      categories.Values()
    }

    /** `createCategory`. */
    method CreateCategory(name: string) returns (c: Category)
      requires Valid()
      modifies this
      ensures Valid()
      ensures c == Category(old(currentId.categories), name)
      ensures c.id !in old(categories.entries)
      ensures categories == old(categories).Set(c.id, c)
      ensures currentId == old(currentId).(categories := old(currentId.categories) + 1)
      ensures users == old(users) && products == old(products)
      ensures orders == old(orders) && carts == old(carts)
    {
      var id := currentId.categories;
      currentId := currentId.(categories := id + 1);
      c := Category(id, name);
      categories := categories.Set(id, c);
    }

    /** `deleteCategory`: never fails; afterwards the id is absent. */
    method DeleteCategory(id: int)
      requires Valid()
      modifies this
      ensures Valid()
      ensures categories == old(categories).Delete(id)
      ensures id !in categories.entries
      ensures users == old(users) && products == old(products) && orders == old(orders)
      ensures carts == old(carts) && currentId == old(currentId)
    {
      categories := categories.Delete(id);
    }

    // ------------------------------------------------------------- products

    /** `getProducts`. */
    function GetProducts(): (r: seq<Product>)
      requires Valid()
      reads this
      ensures forall p :: p in r <==> exists k :: k in products.entries && products.entries[k] == p
    {
      ProductValues(products);
      products.Values()
    }

    /** `getProduct`. */
    function GetProduct(id: int): (r: Option<Product>)
      requires Valid()
      reads this
      ensures r.Some? <==> id in products.entries
      ensures r.Some? ==> r.value == products.entries[id]
    {
      products.Get(id)
    }

    /** `createProduct`: the record with its id overwritten by the counter. */
    method CreateProduct(p: Product) returns (created: Product)
      requires Valid()
      modifies this
      ensures Valid()
      ensures created == p.(id := old(currentId.products))
      ensures created.id !in old(products.entries)
      ensures products == old(products).Set(created.id, created)
      ensures currentId == old(currentId).(products := old(currentId.products) + 1)
      ensures users == old(users) && orders == old(orders)
      ensures categories == old(categories) && carts == old(carts)
    {
      var id := currentId.products;
      currentId := currentId.(products := id + 1);
      created := p.(id := id);
      products := products.Set(id, created);
    }

    /** `updateProduct`: fails with "Product not found" and changes nothing
        when the id is absent; otherwise stores the patched record under the
        same key. */
    method UpdateProduct(id: int, patch: ProductPatch) returns (r: Result<Product>)
      requires Valid()
      modifies this
      ensures Valid()
      ensures id !in old(products.entries) ==>
        r == Err("Product not found") && unchanged(this)
      ensures id in old(products.entries) ==>
        r == Ok(Patched(old(products.entries[id]), patch)) &&
        products == old(products).Set(id, r.value)
      ensures users == old(users) && orders == old(orders) && categories == old(categories)
      ensures carts == old(carts) && currentId == old(currentId)
    {
      var existing := GetProduct(id);
      if existing.None? {
        return Err("Product not found");
      }
      var updated := Patched(existing.value, patch);
      products := products.Set(id, updated);
      r := Ok(updated);
    }

    /** `deleteProduct`: never fails; afterwards the id is absent. */
    method DeleteProduct(id: int)
      requires Valid()
      modifies this
      ensures Valid()
      ensures products == old(products).Delete(id)
      ensures id !in products.entries
      ensures users == old(users) && orders == old(orders) && categories == old(categories)
      ensures carts == old(carts) && currentId == old(currentId)
    {
      products := products.Delete(id);
    }

    // ----------------------------------------------------------------- carts

    /** `getCart`. */
    function GetCart(userId: int): (r: Option<Cart>)
      requires Valid()
      reads this
      ensures r.Some? <==> userId in carts.entries
      ensures r.Some? ==> r.value == carts.entries[userId] && r.value.id == userId
    {
      carts.Get(userId)
    }

    /** `updateCart`: stores the cart under the user's id with its `id` forced
        to that id, and hands back the argument as it was given. */
    method UpdateCart(userId: int, cart: Cart) returns (r: Cart)
      requires Valid()
      modifies this
      ensures Valid()
      ensures r == cart
      ensures carts == old(carts).Set(userId, cart.(id := userId))
      ensures users == old(users) && products == old(products) && orders == old(orders)
      ensures categories == old(categories) && currentId == old(currentId)
    {
      carts := carts.Set(userId, cart.(id := userId));
      r := cart;
    }

    // ---------------------------------------------------------------- orders

    /** `createOrder`: the record with its id overwritten by the counter. */
    method CreateOrder(order: Order) returns (created: Order)
      requires Valid()
      modifies this
      ensures Valid()
      ensures created == order.(id := old(currentId.orders))
      ensures created.id !in old(orders.entries)
      ensures orders == old(orders).Set(created.id, created)
      ensures currentId == old(currentId).(orders := old(currentId.orders) + 1)
      ensures users == old(users) && products == old(products)
      ensures categories == old(categories) && carts == old(carts)
    {
      var id := currentId.orders;
      currentId := currentId.(orders := id + 1);
      created := order.(id := id);
      orders := orders.Set(id, created);
    }

    /** `getOrders`. */
    function GetOrders(): (r: seq<Order>)
      requires Valid()
      reads this
      ensures forall o :: o in r <==> o.id in orders.entries && orders.entries[o.id] == o
    {
      ByOwnId(orders, (o: Order) => o.id);
      orders.Values()
    }

    /** `getOrdersByUser`: the stored orders placed by that user. */
    function GetOrdersByUser(userId: int): (r: seq<Order>)
      requires Valid()
      reads this
      ensures forall o :: o in r <==> o in GetOrders() && o.userId == userId
    {
      Seqs.Filter(GetOrders(), PlacedBy(userId))
    }

    /** `getOrdersByDeliveryPartner`: the stored orders whose partner is that
        id; an order without a partner matches no id. */
    function GetOrdersByDeliveryPartner(partnerId: int): (r: seq<Order>)
      requires Valid()
      reads this
      ensures forall o :: o in r <==> o in GetOrders() && o.deliveryPartnerId == Some(partnerId)
    {
      Seqs.Filter(GetOrders(), AssignedTo(partnerId))
    }

    /** `updateOrderStatus`: fails with "Order not found" and changes nothing
        when the id is absent. Otherwise the status is overwritten whatever it
        was, the partner is replaced only when one is supplied, and the
        record stays under its key. */
    method UpdateOrderStatus(id: int, status: string, partnerId: Option<int>)
      returns (r: Result<Order>)
      requires Valid()
      modifies this
      ensures Valid()
      ensures id !in old(orders.entries) ==> r == Err("Order not found") && unchanged(this)
      ensures id in old(orders.entries) ==>
        var was := old(orders.entries[id]);
        && r.Ok?
        && r.value.status == status
        && r.value.deliveryPartnerId == (if partnerId.Some? then partnerId else was.deliveryPartnerId)
        && r.value == was.(status := status, deliveryPartnerId := r.value.deliveryPartnerId)
        && orders == old(orders).Set(id, r.value)
      ensures users == old(users) && products == old(products) && categories == old(categories)
      ensures carts == old(carts) && currentId == old(currentId)
    {
      var order := orders.Get(id);
      if order.None? {
        return Err("Order not found");
      }
      var partner := if partnerId.Some? then partnerId else order.value.deliveryPartnerId;
      var updated := order.value.(status := status, deliveryPartnerId := partner);
      orders := orders.Set(id, updated);
      r := Ok(updated);
    }
  }

  /** An example of the counter rule of `CreateOrder`: on a fresh store the
      first two orders receive the ids 1 and 2. */
  method FirstOrderIds(a: Order, b: Order) returns (first: int, second: int)
    ensures first == 1 && second == 2
  {
    var store := new MemStorage();
    var x := store.CreateOrder(a);
    var y := store.CreateOrder(b);
    first, second := x.id, y.id;
  }
}
