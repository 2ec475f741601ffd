/** The client's shopping cart (client/src/hooks/use-cart.tsx): an ordered
    list of items, each operation a transformation of the list, and a
    provider that holds the list and mirrors it to the server. */
module ShoppingCart {
  import opened Wrappers
  import opened Schema
  import Seqs

  /** `CartItem` has exactly the fields of an order item. */
  type CartItem = OrderItem

  /** Some item of the cart is for that product. */
  predicate InCart(items: seq<CartItem>, productId: int) {
    exists i :: 0 <= i < |items| && items[i].productId == productId
  }

  /** No two items of the cart are for the same product. */
  predicate DistinctIds(items: seq<CartItem>) {
    forall i, j :: 0 <= i < j < |items| ==> items[i].productId != items[j].productId
  }

  /** The `map` of `addToCart` for a product already in the cart: the item
      for that product gets one more, the others stay as they are. */
  function Incremented(items: seq<CartItem>, productId: int): (r: seq<CartItem>)
    ensures |r| == |items|
    ensures forall i :: 0 <= i < |r| ==> r[i].productId == items[i].productId
  {
    seq(|items|, i requires 0 <= i < |items| =>
      if items[i].productId == productId then items[i].(quantity := items[i].quantity + 1)
      else items[i])
  }

  /** `addToCart`: one more of a product already in the cart, or a new item
      with quantity 1 at the end. */
  function AddItem(items: seq<CartItem>, product: Product): (r: seq<CartItem>)
    ensures InCart(r, product.id)
    ensures |r| == if InCart(items, product.id) then |items| else |items| + 1
  {
    if InCart(items, product.id) then
      var r := Incremented(items, product.id);
      var k :| 0 <= k < |items| && items[k].productId == product.id;
      assert r[k].productId == product.id;
      r
    else
      var r := items + [OrderItem(product.id, 1, product.name, product.price)];
      assert r[|items|].productId == product.id;
      r
  }

  function IsNotProduct(productId: int): CartItem -> bool {
    (it: CartItem) => it.productId != productId
  }

  /** `removeFromCart`: a `filter` that keeps the items for other products. */
  function RemoveItem(items: seq<CartItem>, productId: int): (r: seq<CartItem>)
    ensures forall it :: it in r <==> it in items && it.productId != productId
    ensures !InCart(r, productId)
  {
    Seqs.Filter(items, IsNotProduct(productId))
  }

  /** `updateQuantity`: every item for the product gets the given quantity,
      which may be zero or less; nothing is removed. */
  function SetQuantity(items: seq<CartItem>, productId: int, quantity: int): (r: seq<CartItem>)
    ensures |r| == |items|
  {
    seq(|items|, i requires 0 <= i < |items| =>
      if items[i].productId == productId then items[i].(quantity := quantity) else items[i])
  }

  // ------------------------------------------------------------ properties

  /** Adding a product that is in the cart raises that item's quantity by
      one and leaves the length, the order and every other item alone. */
  lemma AddExisting(items: seq<CartItem>, product: Product, k: nat)
    requires DistinctIds(items)
    requires k < |items| && items[k].productId == product.id
    ensures AddItem(items, product) == items[k := items[k].(quantity := items[k].quantity + 1)]
  {
    var r := AddItem(items, product);
    var s := items[k := items[k].(quantity := items[k].quantity + 1)];
    assert |r| == |s|;
    forall i | 0 <= i < |r| ensures r[i] == s[i] {
      if i != k {
        assert items[i].productId != product.id by {
          if i < k { assert items[i].productId != items[k].productId; }
          else { assert items[k].productId != items[i].productId; }
        }
      }
    }
  }

  /** Adding a product that is not in the cart appends one item for it. */
  lemma AddNew(items: seq<CartItem>, product: Product)
    requires !InCart(items, product.id)
    ensures AddItem(items, product) == items + [OrderItem(product.id, 1, product.name, product.price)]
  {
  }

  /** Every cart operation keeps the product ids distinct. */
  lemma AddKeepsDistinct(items: seq<CartItem>, product: Product)
    requires DistinctIds(items)
    ensures DistinctIds(AddItem(items, product))
    ensures forall pid :: InCart(AddItem(items, product), pid) <==> InCart(items, pid) || pid == product.id
  {
    var r := AddItem(items, product);
    if InCart(items, product.id) {
      assert forall i :: 0 <= i < |r| ==> r[i].productId == items[i].productId;
    } else {
      assert r == items + [OrderItem(product.id, 1, product.name, product.price)];
      assert r[|items|].productId == product.id;
      forall pid | InCart(items, pid) ensures InCart(r, pid) {
        var i :| 0 <= i < |items| && items[i].productId == pid;
        assert r[i] == items[i];
      }
    }
  }

  lemma {:induction false} RemoveKeepsDistinct(items: seq<CartItem>, productId: int)
    requires DistinctIds(items)
    ensures DistinctIds(RemoveItem(items, productId))
  {
    if items != [] {
      RemoveKeepsDistinct(items[1..], productId);
      var tail := RemoveItem(items[1..], productId);
      if items[0].productId != productId {
        forall j | 0 <= j < |tail| ensures tail[j].productId != items[0].productId {
          assert tail[j] in items[1..];
          var b :| 0 <= b < |items| - 1 && items[1..][b] == tail[j];
          assert items[b + 1] == tail[j];
        }
        assert RemoveItem(items, productId) == [items[0]] + tail;
      }
    }
  }

  lemma UpdateKeepsDistinct(items: seq<CartItem>, productId: int, quantity: int)
    requires DistinctIds(items)
    ensures DistinctIds(SetQuantity(items, productId, quantity))
  {
    var r := SetQuantity(items, productId, quantity);
    assert forall i :: 0 <= i < |r| ==> r[i].productId == items[i].productId;
  }

  /** Setting a quantity changes only the matching item, even to zero. */
  lemma UpdateOne(items: seq<CartItem>, productId: int, quantity: int, k: nat)
    requires DistinctIds(items)
    requires k < |items| && items[k].productId == productId
    ensures SetQuantity(items, productId, quantity) == items[k := items[k].(quantity := quantity)]
  {
    var r := SetQuantity(items, productId, quantity);
    var s := items[k := items[k].(quantity := quantity)];
    forall i | 0 <= i < |r| ensures r[i] == s[i] {
      if i != k {
        assert items[i].productId != productId by {
          if i < k { assert items[i].productId != items[k].productId; }
          else { assert items[k].productId != items[i].productId; }
        }
      }
    }
  }

  /** Setting the quantity of a product that is not in the cart changes nothing. */
  lemma UpdateAbsent(items: seq<CartItem>, productId: int, quantity: int)
    requires !InCart(items, productId)
    ensures SetQuantity(items, productId, quantity) == items
  {
    var r := SetQuantity(items, productId, quantity);
    forall i | 0 <= i < |r| ensures r[i] == items[i] {
      assert items[i].productId != productId;
    }
  }

  /** Removing a product that is not in the cart changes nothing. */
  lemma {:induction false} RemoveAbsent(items: seq<CartItem>, productId: int)
    requires !InCart(items, productId)
    ensures RemoveItem(items, productId) == items
  {
    if items != [] {
      assert items[0].productId != productId;
      RemoveAbsent(items[1..], productId);
    }
  }

  // ----------------------------------------------------------------- totals

  /** Replacing one item changes the total by the difference of the two
      items' line amounts. */
  lemma {:induction false} SubtotalReplace(items: seq<CartItem>, k: nat, it: CartItem)
    requires k < |items|
    ensures Subtotal(items[k := it]) ==
      Subtotal(items) - items[k].price * items[k].quantity + it.price * it.quantity
  {
    if k == 0 {
      assert items[k := it][1..] == items[1..];
    } else {
      assert items[k := it][1..] == items[1..][k - 1 := it];
      SubtotalReplace(items[1..], k - 1, it);
    }
  }

  /** The change of a line amount when only the quantity changes. */
  lemma Distribute(price: int, before: int, after: int)
    ensures price * after - price * before == price * (after - before)
  {
  }

  lemma OneMore(price: int, quantity: int)
    ensures price * (quantity + 1) == price * quantity + price
  {
  }

  /** Adding one more of a product already in the cart raises the total by
      that item's price (the price when it was first added). */
  lemma AddExistingTotal(items: seq<CartItem>, product: Product, k: nat)
    requires DistinctIds(items)
    requires k < |items| && items[k].productId == product.id
    ensures Subtotal(AddItem(items, product)) == Subtotal(items) + items[k].price
  {
    AddExisting(items, product, k);
    BumpTotal(items, k);
  }

  /** One more of the item at `k` raises the total by that item's price. */
  lemma BumpTotal(items: seq<CartItem>, k: nat)
    requires k < |items|
    ensures Subtotal(items[k := items[k].(quantity := items[k].quantity + 1)]) == Subtotal(items) + items[k].price
  {
    var it := items[k];
    SubtotalReplace(items, k, it.(quantity := it.quantity + 1));
    OneMore(it.price, it.quantity);
  }

  /** Adding a new product raises the total by its price. */
  lemma AddNewTotal(items: seq<CartItem>, product: Product)
    requires !InCart(items, product.id)
    ensures Subtotal(AddItem(items, product)) == Subtotal(items) + product.price
  {
    var it := OrderItem(product.id, 1, product.name, product.price);
    SubtotalConcat(items, [it]);
    assert Subtotal([it]) == product.price * 1 + Subtotal([]);
  }

  /** Setting a product's quantity changes the total by its price times the
      change in quantity. */
  lemma UpdateTotal(items: seq<CartItem>, productId: int, quantity: int, k: nat)
    requires DistinctIds(items)
    requires k < |items| && items[k].productId == productId
    ensures Subtotal(SetQuantity(items, productId, quantity)) ==
      Subtotal(items) + items[k].price * (quantity - items[k].quantity)
  {
    UpdateOne(items, productId, quantity, k);
    RequantifyTotal(items, k, quantity);
  }

  /** A new quantity for the item at `k` changes the total by that item's
      price times the change. */
  lemma RequantifyTotal(items: seq<CartItem>, k: nat, quantity: int)
    requires k < |items|
    ensures Subtotal(items[k := items[k].(quantity := quantity)]) ==
      Subtotal(items) + items[k].price * (quantity - items[k].quantity)
  {
    var it := items[k];
    SubtotalReplace(items, k, it.(quantity := quantity));
    Distribute(it.price, it.quantity, quantity);
  }

  /** Removing a product takes its line amount off the total. */
  lemma {:induction false} RemoveTotal(items: seq<CartItem>, productId: int, k: nat)
    requires DistinctIds(items)
    requires k < |items| && items[k].productId == productId
    ensures Subtotal(RemoveItem(items, productId)) ==
      Subtotal(items) - items[k].price * items[k].quantity
  {
    if k == 0 {
      forall i | 0 <= i < |items| - 1 ensures items[1..][i].productId != productId {
        assert items[0].productId != items[i + 1].productId;
      }
      RemoveAbsent(items[1..], productId);
    } else {
      assert items[0].productId != items[k].productId;
      RemoveTotal(items[1..], productId, k - 1);
    }
  }

  // --------------------------------------------------------------- provider

  /** A request the provider sends to the server. */
  datatype Request =
    | SaveCart(items: seq<CartItem>, total: int)        // POST /api/cart
    | PlaceOrder(items: seq<CartItem>, address: string) // POST /api/orders

  /** The payload `updateCartMutation` posts for a list of items: the items
      and their total, computed as the cart's own total is. */
  function Mirror(items: seq<CartItem>): (r: Request)
    ensures r.SaveCart? && r.items == items
    ensures (forall i :: 0 <= i < |items| ==> items[i].price >= 0 && items[i].quantity >= 0) ==> r.total >= 0
  {
    SaveCart(items, Subtotal(items))
  }

  /** The address the checkout sends in place of the user's own. */
  const PlaceholderAddress: string := "User's Address"

  /** `CartProvider`: the `items` state and the requests it has sent, oldest
      first. Each of add, remove and update-quantity mirrors the list as it
      was BEFORE the change, because it posts the `items` of the render in
      which it was called. */
  class CartProvider {
    var items: seq<CartItem>
    var sent: seq<Request>

    constructor ()
      ensures items == [] && sent == []
    {
      items, sent := [], [];
    }

    /** The cart query's `onSuccess`: a stored cart replaces the items. */
    method Load(data: Option<Schema.Cart>)
      modifies this
      ensures items == if data.Some? then data.value.items else old(items)
      ensures sent == old(sent)
    {
      if data.Some? {
        items := data.value.items;
      }
    }

    /** `total`: the sum over the items of price times quantity. */
    function Total(): (t: int)
      reads this
      ensures (forall i :: 0 <= i < |items| ==> items[i].price >= 0 && items[i].quantity >= 0) ==> t >= 0
      ensures items == [] ==> t == 0
    {
      Subtotal(items)
    }

    method AddToCart(product: Product)
      modifies this
      ensures items == AddItem(old(items), product)
      ensures sent == old(sent) + [Mirror(old(items))]
      ensures DistinctIds(old(items)) ==> DistinctIds(items)
    {
      var before := items;
      if DistinctIds(items) {
        AddKeepsDistinct(items, product);
      }
      items := AddItem(items, product);
      sent := sent + [Mirror(before)];
    }

    method RemoveFromCart(productId: int)
      modifies this
      ensures items == RemoveItem(old(items), productId)
      ensures sent == old(sent) + [Mirror(old(items))]
      ensures DistinctIds(old(items)) ==> DistinctIds(items)
    {
      var before := items;
      if DistinctIds(items) {
        RemoveKeepsDistinct(items, productId);
      }
      items := RemoveItem(items, productId);
      sent := sent + [Mirror(before)];
    }

    method UpdateQuantity(productId: int, quantity: int)
      modifies this
      ensures items == SetQuantity(old(items), productId, quantity)
      ensures sent == old(sent) + [Mirror(old(items))]
      ensures DistinctIds(old(items)) ==> DistinctIds(items)
    {
      var before := items;
      if DistinctIds(items) {
        UpdateKeepsDistinct(items, productId, quantity);
      }
      items := SetQuantity(items, productId, quantity);
      sent := sent + [Mirror(before)];
    }

    /** `clearCart`: empties the cart and mirrors an empty list. */
    method ClearCart()
      modifies this
      ensures items == [] && Total() == 0
      ensures sent == old(sent) + [SaveCart([], 0)]
    {
      items := [];
      sent := sent + [Mirror([])];
    }

    /** `checkout`: posts the items with the placeholder address; when the
        server accepts the order the cart is emptied, otherwise it stays. */
    method Checkout(accepted: bool)
      modifies this
      ensures sent == old(sent) + [PlaceOrder(old(items), PlaceholderAddress)]
      ensures items == if accepted then [] else old(items)
    {
      sent := sent + [PlaceOrder(items, PlaceholderAddress)];
      if accepted {
        items := [];
      }
    }
  }
}
