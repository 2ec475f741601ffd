# Grocery ordering: store, order handlers, cart and dashboards in Dafny

This project models the order-and-cart logic of a grocery-ordering web
application and proves properties of it. The parts it covers:

- **The in-memory store** (`MemStorage`): five insertion-ordered tables (users,
  products, orders, categories, carts) and one id counter per table. It has create,
  get, update and delete operations, plus equality-filtered listings. In
  `Storage.MemStorage` every table is a `JsMaps.JsMap`: a JavaScript `Map` with its
  key order and its entries. Each method `modifies this` and states the new value
  of every field.
- **The request handlers** for products and orders (`Routes`). They cover the admin
  gate on product writes, the 401 and 400 checks, and the order total. They also
  cover the initial `"pending"` status, the role-scoped listing, and the rule that
  only a delivery caller becomes the order's partner. Each handler takes the
  signed-in user (absent when there is no session) and acts on the store.
- **The client cart** (`ShoppingCart`). Add, remove and set-quantity are pure
  functions on the item list. `CartProvider` holds the list and a log of the
  requests it posts. The log records the known quirk: add, remove and
  update-quantity post the list as it was before the change.
- **The delivery task view** (`DeliveryTasks`): the active/completed split of the
  orders and the one forward button each active order offers.
- **The admin dashboard statistics** (`Dashboard`): order count, revenue, pending
  count, number of distinct partners, and the per-status histogram.
- **The shared record shapes** (`Schema`): the role and status enumerations, the
  defaults, the product patch, the order total, and the order-item validation.

Money, prices and quantities are integers (minor currency units), so every sum is
exact. An order's status is a `string`: neither the order-creation path nor the
status-update path checks it against the six literals of the column's
enumeration. `Schema.IsOrderStatus` says when a status is one of them.

Behaviour of the code that the model keeps:

- The store never checks usernames for uniqueness. `GetUserByUsername` returns the
  first match in insertion order.
- A product update body may carry an `id` field, because it is a `Partial<Product>`.
  The spread then rewrites the stored record's `id` but keeps its key. So
  `MemStorage.Valid` does not claim that products sit under their own id.
- `updateOrderStatus` replaces the partner only when a partner id is supplied
  (`??`). The dashboard's partner filter, however, drops a partner id of 0,
  because 0 is falsy.
- A failed item parse, or a store that throws "Product not found" or "Order not
  found", is a `Thrown` response. No handler catches these errors.

## Model

| member | source | states |
|---|---|---|
| `Seqs.Filter` | server/storage.ts:146-150 | `Array.prototype.filter`: the result holds exactly the elements that satisfy the predicate, never more elements than the input |
| `Seqs.FilterConcat` | server/storage.ts:146-150 | filtering distributes over concatenation, so a filter keeps its input's relative order |
| `JsMaps.JsMap.Set` | server/storage.ts:74 | `Map.set` keeps the map well formed; a new key goes to the end of the enumeration order, an existing key keeps its place and gets the new value |
| `JsMaps.JsMap.Get` | server/storage.ts:103-105 | `Map.get` finds a value exactly when the key is present, and it is the value stored under that key |
| `JsMaps.Empty` | server/storage.ts:50-54 | `new Map()` is well formed and has no entries |
| `JsMaps.JsMap.Delete` | server/storage.ts:96 | `Map.delete` removes the key and keeps the map well formed. The other keys keep their enumeration order, with the gap closed. An absent key changes nothing |
| `JsMaps.WithoutAt` | server/storage.ts:96 | taking the one occurrence of a key out of a repetition-free key order leaves the keys before it and after it in their order |
| `JsMaps.DeleteTwice` | server/storage.ts:122-124 | deleting the same key twice equals deleting it once |
| `JsMaps.JsMap.Values` | server/storage.ts:143 | `Array.from(map.values())` lists one value per key, in key insertion order |
| `JsMaps.ValueListed` | server/storage.ts:143 | every stored value is listed |
| `JsMaps.ListedValue` | server/storage.ts:143 | every listed value is stored under some key |
| `Schema.ParseRole` | shared/schema.ts:14 | a role literal parses only to the role whose literal it is |
| `Schema.RoleNameRoundTrip` | shared/schema.ts:14 | each of user, admin, delivery parses back from its literal, so the three literals are distinct |
| `Schema.RoleOrDefault` | shared/schema.ts:14 | a user inserted without a role gets the role "user"; a given role is kept |
| `Schema.StatusRank` | shared/schema.ts:33-35 | a status of the enumeration has a position in it, the position of that literal |
| `Schema.StatusesDistinct` | shared/schema.ts:33-35 | the six status literals are pairwise different, so a status is exactly one of them |
| `Schema.StockOrDefault` | shared/schema.ts:27 | stock defaults to 0 when it is not given; a given stock, even a negative one, is kept |
| `Schema.Patched` | server/storage.ts:117 | the object spread of `updateProduct`; an empty patch leaves the record as it was |
| `Schema.PatchedFields` | server/storage.ts:117 | for each of the seven fields (id, name, description, price, image, category, stock), a field the patch supplies takes the patch's value and an omitted field keeps the old value |
| `Schema.PatchedIdempotent` | server/storage.ts:117 | applying the same patch twice gives the same record as applying it once |
| `Schema.Subtotal` | server/routes.ts:49 | the sum of price × quantity; it is never negative when no price or quantity is |
| `Schema.SubtotalConcat` | server/routes.ts:49 | the total of a concatenation of item lists is the sum of their totals |
| `Schema.ParseOrderItem` | shared/schema.ts:71-76 | an accepted item has quantity at least 1 |
| `Schema.ParseOrderItemAccepts` | shared/schema.ts:71-76 | an item parses exactly when it is an object with a numeric `productId`, a numeric `quantity` of at least 1, a numeric `price` and a string `name` |
| `Schema.ItemRoundTrip` | shared/schema.ts:71-76 | an item sent as JSON parses back to itself exactly when its quantity is at least 1; a negative price is accepted |
| `Schema.ParseOrderItems` | server/routes.ts:48 | an accepted array has one item per element, each with quantity at least 1 |
| `Schema.ItemsRoundTrip` | server/routes.ts:48 | a list of items sent as JSON parses back to itself exactly when every quantity is at least 1, and fails otherwise |
| `Storage.FindByUsername` | server/storage.ts:65-69 | `find` returns nothing exactly when no user has the name; otherwise it returns the first user with that name |
| `Storage.ByOwnId` | server/storage.ts:142-144 | listing a table whose records sit under their own ids gives exactly the stored records (used for users, categories and orders) |
| `Storage.ProductValues` | server/storage.ts:99-101 | listing the products gives exactly the records stored under some key, since a product's id may differ from its key |
| `Storage.MemStorage.constructor` | server/storage.ts:49-59 | a new store has empty tables and every counter at 1 |
| `Storage.MemStorage.GetUser` | server/storage.ts:61-63 | the user is found exactly when its id is a key, and the user's id is that key |
| `Storage.MemStorage.GetUserByUsername` | server/storage.ts:65-69 | nothing is found exactly when no stored user has the name; a found user is stored under its own id |
| `Storage.MemStorage.CreateUser` | server/storage.ts:71-76 | the new user is the input with the users counter as id and the default role if none was given; that id was unused; the counter goes up by one; no other table changes |
| `Storage.MemStorage.GetDeliveryPartners` | server/storage.ts:78-82 | returns exactly the stored users whose role is delivery |
| `Storage.MemStorage.GetCategories` | server/storage.ts:84-86 | lists each stored category once, and nothing else |
| `Storage.MemStorage.CreateCategory` | server/storage.ts:88-93 | the category gets the categories counter as id; that id was unused; the counter goes up by one; nothing else changes |
| `Storage.MemStorage.DeleteCategory` | server/storage.ts:95-97 | never fails; afterwards the id is absent and nothing else changes |
| `Storage.MemStorage.GetProducts` | server/storage.ts:99-101 | lists exactly the stored products |
| `Storage.MemStorage.GetProduct` | server/storage.ts:103-105 | a product is found exactly when its key is stored |
| `Storage.MemStorage.CreateProduct` | server/storage.ts:107-112 | the stored product is the input with the products counter as id; that id was unused; the counter goes up by one; nothing else changes |
| `Storage.MemStorage.UpdateProduct` | server/storage.ts:114-120 | an absent id fails with "Product not found" and changes nothing; otherwise the patched record replaces the old one under the same key and no other entry changes |
| `Storage.MemStorage.DeleteProduct` | server/storage.ts:122-124 | never fails; afterwards the id is absent and nothing else changes |
| `Storage.MemStorage.GetCart` | server/storage.ts:126-128 | a cart is found exactly when the user's id is a key, and its `id` is that user id |
| `Storage.MemStorage.UpdateCart` | server/storage.ts:130-133 | stores the cart under the user's id with its `id` forced to that id, and returns the argument unchanged |
| `Storage.MemStorage.CreateOrder` | server/storage.ts:135-140 | the stored order is the input with the orders counter as id; that id was unused; the counter goes up by one; nothing else changes |
| `Storage.MemStorage.GetOrders` | server/storage.ts:142-144 | lists exactly the stored orders, each under its own id |
| `Storage.MemStorage.GetOrdersByUser` | server/storage.ts:146-150 | returns exactly the stored orders whose `userId` is the given id |
| `Storage.MemStorage.GetOrdersByDeliveryPartner` | server/storage.ts:152-156 | returns exactly the stored orders whose partner is the given id; an order without a partner never matches |
| `Storage.MemStorage.UpdateOrderStatus` | server/storage.ts:158-174 | an absent id fails with "Order not found" and changes nothing. Otherwise the status is overwritten with no transition check. The partner is replaced only when one is supplied. No other field and no other order changes |
| `Storage.FirstOrderIds` | server/storage.ts:55 | an example of the counter rule of `CreateOrder`: on a fresh store the first two orders get the ids 1 and 2 |
| `Routes.ActingPartner` | server/routes.ts:87 | a partner id is passed exactly when the caller's role is delivery, and it is the caller's own id |
| `Routes.ListProducts` | server/routes.ts:12-15 | anyone gets code 200 and the store's product listing, each product once and in insertion order, and exactly the stored products |
| `Routes.CreateProduct` | server/routes.ts:17-23 | a caller who is not an admin, or no caller at all (`IsAdmin` fails), gets 403 and the store is untouched. An admin gets 201 and the new product, stored under a fresh id. The products counter goes up by one, and no other table or counter changes |
| `Routes.UpdateProduct` | server/routes.ts:25-34 | a non-admin gets 403 and nothing changes. For an admin an unknown id throws "Product not found" with nothing changed. A known one is patched in place, and no other table or counter changes |
| `Routes.DeleteProduct` | server/routes.ts:36-42 | a non-admin gets 403 and nothing changes. An admin's delete always succeeds, the id is then absent, and no other table or counter changes |
| `Routes.CreateOrder` | server/routes.ts:45-61 | no session gives 401 and no order; items that fail to parse throw and create no order. Otherwise the new order belongs to the caller, is "pending", has no partner, and its total is the sum of price × quantity over the parsed items. The orders counter goes up by one, and no other table or counter changes |
| `Routes.ListOrders` | server/routes.ts:63-76 | no session gives 401. An admin gets the store's order listing, a delivery user exactly the orders assigned to them, a customer exactly their own orders. Each list keeps the store's insertion order and lists each order once |
| `Routes.UpdateOrderStatus` | server/routes.ts:78-91 | no session gives 401; a missing or empty status gives 400 (`StatusMissing`: the status is falsy); an unknown order throws. In all three cases no order changes. Otherwise any status is stored; a delivery caller becomes the partner, any other caller leaves the partner unchanged. No other order, table or counter changes |
| `ShoppingCart.RemoveItem` | client/src/hooks/use-cart.tsx:96 | the result holds exactly the items for other products, and no item for the removed product |
| `ShoppingCart.Incremented` | client/src/hooks/use-cart.tsx:79-83 | the `map` for a product already in the cart keeps the length and every item's product id |
| `ShoppingCart.AddItem` | client/src/hooks/use-cart.tsx:76-91 | after adding, the product is in the cart. The length stays the same when the product was already there, and grows by one otherwise |
| `ShoppingCart.SetQuantity` | client/src/hooks/use-cart.tsx:101-105 | the length never changes: nothing is removed, even at quantity 0 |
| `ShoppingCart.AddExisting` | client/src/hooks/use-cart.tsx:77-84 | adding a product already in the cart raises that item's quantity by 1. Length, order and all other items stay the same |
| `ShoppingCart.AddNew` | client/src/hooks/use-cart.tsx:85-90 | adding a product not in the cart appends `{productId, quantity: 1, name, price}` at the end |
| `ShoppingCart.AddKeepsDistinct` | client/src/hooks/use-cart.tsx:77-90 | adding keeps the product ids pairwise distinct; the cart then holds the old products plus the added one |
| `ShoppingCart.RemoveKeepsDistinct` | client/src/hooks/use-cart.tsx:96 | removing keeps the product ids pairwise distinct |
| `ShoppingCart.UpdateKeepsDistinct` | client/src/hooks/use-cart.tsx:101-105 | setting a quantity keeps the product ids pairwise distinct |
| `ShoppingCart.UpdateOne` | client/src/hooks/use-cart.tsx:101-105 | setting a quantity changes only the matching item's quantity, to the given value, even 0 |
| `ShoppingCart.UpdateAbsent` | client/src/hooks/use-cart.tsx:101-105 | setting the quantity of a product that is not in the cart changes nothing |
| `ShoppingCart.RemoveAbsent` | client/src/hooks/use-cart.tsx:96 | removing a product that is not in the cart changes nothing |
| `ShoppingCart.AddExistingTotal` | client/src/hooks/use-cart.tsx:77-84 | adding one more of a product already in the cart raises the total by that item's stored price |
| `ShoppingCart.AddNewTotal` | client/src/hooks/use-cart.tsx:85-90 | adding a new product raises the total by its price |
| `ShoppingCart.UpdateTotal` | client/src/hooks/use-cart.tsx:101-105 | setting a quantity changes the total by price × (new quantity − old quantity) |
| `ShoppingCart.RemoveTotal` | client/src/hooks/use-cart.tsx:96 | removing a product takes its price × quantity off the total |
| `ShoppingCart.Mirror` | client/src/hooks/use-cart.tsx:42-45 | the mirror payload is a cart save that carries the items unchanged; its total is never negative when no price or quantity is |
| `ShoppingCart.CartProvider.constructor` | client/src/hooks/use-cart.tsx:29 | the cart starts empty and has sent nothing |
| `ShoppingCart.CartProvider.Load` | client/src/hooks/use-cart.tsx:31-38 | a stored cart from the server replaces the items; without one the items stay |
| `ShoppingCart.CartProvider.Total` | client/src/hooks/use-cart.tsx:114 | the total is 0 for an empty cart and never negative when no price or quantity is |
| `ShoppingCart.CartProvider.AddToCart` | client/src/hooks/use-cart.tsx:75-93 | the items become the add-or-increment of the old items; the list mirrored is the old one; distinct ids stay distinct |
| `ShoppingCart.CartProvider.RemoveFromCart` | client/src/hooks/use-cart.tsx:95-98 | the items lose the product; the list mirrored is the old one; distinct ids stay distinct |
| `ShoppingCart.CartProvider.UpdateQuantity` | client/src/hooks/use-cart.tsx:100-107 | the matching item gets the quantity; the list mirrored is the old one; distinct ids stay distinct |
| `ShoppingCart.CartProvider.ClearCart` | client/src/hooks/use-cart.tsx:109-112 | the cart is empty, its total is 0, and an empty list with total 0 is mirrored |
| `ShoppingCart.CartProvider.Checkout` | client/src/hooks/use-cart.tsx:50-60 | the items are posted with the placeholder address; an accepted order leaves the cart empty, a rejected one leaves it as it was |
| `DeliveryTasks.ActiveOrders` | client/src/pages/delivery/tasks.tsx:37-39 | exactly the orders with status assigned or delivering; nothing when there is no data |
| `DeliveryTasks.CompletedOrders` | client/src/pages/delivery/tasks.tsx:41-43 | exactly the orders with status delivered; nothing when there is no data |
| `DeliveryTasks.Actions` | client/src/pages/delivery/tasks.tsx:76-102 | an order offers at most one action. It offers exactly one when it is assigned or delivering, and that action moves one step forward in the status enumeration |
| `DeliveryTasks.ListsDisjoint` | client/src/pages/delivery/tasks.tsx:37-43 | no order is both active and completed; pending, preparing and cancelled orders are in neither list |
| `DeliveryTasks.Partition` | client/src/pages/delivery/tasks.tsx:37-43 | the active, completed and hidden orders together account for every order exactly once |
| `DeliveryTasks.ActionsReachDelivered` | client/src/pages/delivery/tasks.tsx:77-97 | assigned leads to delivering, delivering leads to delivered, and a delivered order offers no action |
| `Dashboard.Revenue` | client/src/pages/admin/dashboard.tsx:29 | the revenue is never negative when no order total is |
| `Dashboard.RevenueConcat` | client/src/pages/admin/dashboard.tsx:29 | the revenue of two batches of orders is the sum of their revenues |
| `Dashboard.PartnerIds` | client/src/pages/admin/dashboard.tsx:31 | the set holds exactly the truthy (present, non-zero) partner ids of the orders |
| `Dashboard.PartnerIdsBound` | client/src/pages/admin/dashboard.tsx:31 | there are never more distinct partners than orders that have a partner |
| `Dashboard.NoPartners` | client/src/pages/admin/dashboard.tsx:31 | the partner count is 0 exactly when no order has a truthy partner id |
| `Dashboard.Entries` | client/src/pages/admin/dashboard.tsx:52-55 | one chart entry per key, in key order, with that key's count |
| `Dashboard.Bump` | client/src/pages/admin/dashboard.tsx:48 | one step of the tally keeps the map well formed |
| `Dashboard.ByStatus` | client/src/pages/admin/dashboard.tsx:47-50 | the tally folds the orders from first to last into a well-formed map; `ByStatusCounts` gives its contents |
| `Dashboard.ChartData` | client/src/pages/admin/dashboard.tsx:52-55 | `Object.entries` of the tally: bar i is the tally's i-th key, with that key's count |
| `Dashboard.ByStatusOrder` | client/src/pages/admin/dashboard.tsx:47-55 | the tally, and so the chart, lists the statuses in the order of their first occurrence: one status comes before another exactly when its first order comes before the other's first order |
| `Dashboard.ByStatusFirstSeen` | client/src/pages/admin/dashboard.tsx:47-50 | of two keys of the tally, the earlier one is first seen earlier among the orders |
| `Dashboard.ComputeStats` | client/src/pages/admin/dashboard.tsx:25-65 | no data gives no stats. Otherwise `totalOrders` is the number of orders, `totalRevenue` their summed totals and `pendingOrders` the number that are pending. `activeDeliveryPartners` is the number of distinct truthy partner ids, never more than the orders. The chart is the tally's entries, and its counts add up to `totalOrders` |
| `Dashboard.ByStatusCounts` | client/src/pages/admin/dashboard.tsx:47-50 | a status is tallied exactly when some order has it, and its tally is the number of orders with that status |
| `Dashboard.ChartSumsToTotal` | client/src/pages/admin/dashboard.tsx:47-55 | the counts of the chart add up to the number of orders |
| `Dashboard.ChartCounts` | client/src/pages/admin/dashboard.tsx:47-55 | each status appears in the chart at most once, with the number of orders that have it, which is never 0. Every order's status appears |

## Left out

- Sessions, login, registration, password hashing and the session store are not modelled. The signed-in user is a parameter.
- Dates are not modelled: `createdAt`, the dashboard's daily revenue and currency formatting.
- Floating point is not modelled. Prices, totals and quantities are integers, so JavaScript number rounding and `Number(...)` conversions of `numeric` columns do not appear.
- `parseInt` of a non-numeric path id (which gives `NaN`) is not modelled; every id is an integer.
- Parse failures of a product creation body are not modelled; that body is typed. JSON `null` in a product patch is not modelled either; a field is either given or omitted.
- The product update body is passed to the store without validation, so the spread stores whatever keys and values it carries. `ProductPatch` has only the seven product fields, each with its declared type. So unknown keys and wrongly typed values (such as a string price) are not modelled, and `Storage.MemStorage.UpdateProduct` and `Routes.UpdateProduct` cover only typed patches.
- A status body that is truthy but not a string is not modelled. An order body without an `address` is not modelled either; the in-memory store would keep it as `undefined`.
- The in-memory store does not apply column defaults, so an omitted `stock` stays `undefined` there. The model applies the column default 0. An omitted `role` likewise stays `undefined`, and every role check then treats it as "user", which is what the default gives.
- `Object.entries` lists integer-like keys first and treats inherited keys such as `constructor` specially. The status histogram model ignores both; it lists the statuses in the order they first appear.
- Async behaviour is not modelled: React Query caching, refetching, cache invalidation, toasts and the scheduling of state updates. Each operation runs to completion in sequence.
- The cart drawer's `Math.max(0, quantity - 1)` decrement is not modelled. It is a caller of `updateQuantity`, and `ShoppingCart.UpdateOne` covers every quantity, 0 included.
- The text of the validation error thrown for order items that fail to parse is not modelled. `Routes.InvalidItems` only stands for it.
- How Express handles a handler that throws is not modelled. Such a handler yields `Thrown`, with no response code.
- Two rules sometimes described for this application are not part of the code and are not modelled. One is a delivery-partner assignment rule (the first partner with fewer than three active orders). The other is an enforced status transition table. The code creates every order "pending" without a partner and accepts any status on update.
- Server bootstrap, database access, the seeders, the older schema draft and the page rendering are not part of this model.
