/** The delivery partner's task view (client/src/pages/delivery/tasks.tsx):
    the fetched orders split into active and completed ones, and the one
    button each active order shows. */
module DeliveryTasks {
  import opened Wrappers
  import opened Schema
  import Seqs

  /** The `activeOrders` filter: assigned or being delivered. */
  predicate IsActive(o: Order) {
    o.status == Assigned || o.status == Delivering
  }

  /** The `completedOrders` filter: delivered. */
  predicate IsCompleted(o: Order) {
    o.status == Delivered
  }

  /** Neither list shows the order. */
  predicate IsHidden(o: Order) {
    !IsActive(o) && !IsCompleted(o)
  }

  /** A `filter` of the fetched orders; nothing while there is no data. */
  function ActiveOrders(orders: Option<seq<Order>>): (r: Option<seq<Order>>)
    ensures r.Some? <==> orders.Some?
    ensures r.Some? ==> forall o :: o in r.value <==>
      o in orders.value && (o.status == "assigned" || o.status == "delivering")
  {
    if orders.None? then None else Some(Seqs.Filter(orders.value, IsActive))
  }

  function CompletedOrders(orders: Option<seq<Order>>): (r: Option<seq<Order>>)
    ensures r.Some? <==> orders.Some?
    ensures r.Some? ==> forall o :: o in r.value <==> o in orders.value && o.status == "delivered"
  {
    if orders.None? then None else Some(Seqs.Filter(orders.value, IsCompleted))
  }

  /** The statuses the buttons of an active order request: "Start Delivery"
      when it is assigned, "Mark as Delivered" when it is being delivered. */
  function Actions(status: string): (r: seq<string>)
    ensures |r| <= 1
    ensures |r| == 1 <==> status == "assigned" || status == "delivering"
    ensures forall i :: 0 <= i < |r| ==>
      IsOrderStatus(status) && IsOrderStatus(r[i]) && StatusRank(r[i]) == StatusRank(status) + 1
  {
    assert OrderStatuses[2] == Assigned && OrderStatuses[3] == Delivering && OrderStatuses[4] == Delivered;
    assert StatusRank(Assigned) == 2 && StatusRank(Delivering) == 3 && StatusRank(Delivered) == 4;
    (if status == Assigned then [Delivering] else []) +
    (if status == Delivering then [Delivered] else [])
  }

  /** No order is both active and completed; pending, preparing and
      cancelled orders are in neither list. */
  lemma ListsDisjoint(orders: seq<Order>)
    ensures forall o :: o in Seqs.Filter(orders, IsActive) ==> o !in Seqs.Filter(orders, IsCompleted)
    ensures forall o :: o in orders && o.status in {Pending, Preparing, Cancelled} ==>
      o !in Seqs.Filter(orders, IsActive) && o !in Seqs.Filter(orders, IsCompleted)
  {
  }

  /** Every order is counted in exactly one of: active, completed, neither. */
  lemma {:induction false} Partition(orders: seq<Order>)
    ensures |Seqs.Filter(orders, IsActive)| + |Seqs.Filter(orders, IsCompleted)| +
      |Seqs.Filter(orders, IsHidden)| == |orders|
  {
    if orders != [] {
      Partition(orders[1..]);
    }
  }

  /** Following the buttons, an assigned order is delivered after exactly two
      presses and then shows no button. */
  lemma ActionsReachDelivered()
    ensures Actions(Assigned) == [Delivering]
    ensures Actions(Delivering) == [Delivered]
    ensures Actions(Delivered) == []
  {
  }
}
