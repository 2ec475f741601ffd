/** The admin dashboard's statistics (the `stats` memo of
    client/src/pages/admin/dashboard.tsx), without the daily revenue. */
module Dashboard {
  import opened Wrappers
  import opened Schema
  import opened JsMaps
  import Seqs

  /** One bar of the status chart. */
  datatype StatusCount = StatusCount(status: string, count: nat)

  datatype Stats = Stats(
    totalOrders: nat,
    totalRevenue: int,
    pendingOrders: nat,
    activeDeliveryPartners: nat,
    chartData: seq<StatusCount>)

  function StatusIs(status: string): Order -> bool {
    (o: Order) => o.status == status
  }

  /** The number of orders with that status. */
  function CountStatus(orders: seq<Order>, status: string): nat {
    Seqs.Count(orders, StatusIs(status))
  }

  /** A `reduce` from 0 that adds up the orders' totals. */
  function Revenue(orders: seq<Order>): (r: int)
    ensures (forall i :: 0 <= i < |orders| ==> orders[i].total >= 0) ==> r >= 0
  {
    if orders == [] then 0 else orders[0].total + Revenue(orders[1..])
  }

  /** The revenue of two batches of orders is the sum of their revenues. */
  lemma {:induction false} RevenueConcat(a: seq<Order>, b: seq<Order>)
    ensures Revenue(a + b) == Revenue(a) + Revenue(b)
  {
    if a == [] {
      assert a + b == b;
    } else {
      assert (a + b)[1..] == a[1..] + b;
      RevenueConcat(a[1..], b);
    }
  }

  /** The order's partner id is truthy: present and not 0. */
  predicate HasPartner(o: Order) {
    o.deliveryPartnerId.Some? && o.deliveryPartnerId.value != 0
  }

  /** The `Set` built from the partner ids of the orders that have a truthy
      one (`filter`, then `map`). */
  function PartnerIds(orders: seq<Order>): (ids: set<int>)
    ensures forall id :: id in ids ==> id != 0
    ensures forall i :: 0 <= i < |orders| && HasPartner(orders[i]) ==> orders[i].deliveryPartnerId.value in ids
    ensures forall id :: id in ids ==> exists i :: 0 <= i < |orders| && orders[i].deliveryPartnerId == Some(id)
  {
    if orders == [] then {}
    else
      var rest := PartnerIds(orders[1..]);
      assert forall id :: id in rest ==> exists i :: 1 <= i < |orders| && orders[i].deliveryPartnerId == Some(id) by {
        forall id | id in rest ensures exists i :: 1 <= i < |orders| && orders[i].deliveryPartnerId == Some(id) {
          var j :| 0 <= j < |orders| - 1 && orders[1..][j].deliveryPartnerId == Some(id);
          assert orders[j + 1].deliveryPartnerId == Some(id);
        }
      }
      assert forall i :: 1 <= i < |orders| && HasPartner(orders[i]) ==> orders[i].deliveryPartnerId.value in rest by {
        forall i | 1 <= i < |orders| && HasPartner(orders[i]) ensures orders[i].deliveryPartnerId.value in rest {
          assert orders[1..][i - 1] == orders[i];
        }
      }
      (if HasPartner(orders[0]) then {orders[0].deliveryPartnerId.value} else {}) + rest
  }

  /** There are never more partners than orders with a partner. */
  lemma {:induction false} PartnerIdsBound(orders: seq<Order>)
    ensures |PartnerIds(orders)| <= Seqs.Count(orders, HasPartner)
  {
    if orders != [] {
      PartnerIdsBound(orders[1..]);
    }
  }

  /** One step of the tally: the status's count goes up by one, starting
      from 0 when the status has no entry yet. */
  function Bump(acc: JsMap<string, nat>, status: string): (r: JsMap<string, nat>)
    requires acc.Valid()
    ensures r.Valid()
  {
    acc.Set(status, (if status in acc.entries then acc.entries[status] else 0) + 1)
  }

  /** The `ordersByStatus` reduce, folding the orders from the first to the last. */
  function ByStatus(orders: seq<Order>): (m: JsMap<string, nat>)
    ensures m.Valid()
  {
    if orders == [] then Empty()
    else Bump(ByStatus(orders[..|orders| - 1]), orders[|orders| - 1].status)
  }

  /** `Object.entries` of the tally, each pair turned into a chart bar. */
  function Entries(keys: seq<string>, counts: map<string, nat>): (cs: seq<StatusCount>)
    requires forall k :: k in keys ==> k in counts
    ensures |cs| == |keys|
    ensures forall i :: 0 <= i < |keys| ==> cs[i] == StatusCount(keys[i], counts[keys[i]])
  {
    if keys == [] then [] else [StatusCount(keys[0], counts[keys[0]])] + Entries(keys[1..], counts)
  }

  /** The chart: one bar per tallied status, in the order the statuses were
      first tallied. */
  function ChartData(m: JsMap<string, nat>): (cs: seq<StatusCount>)
    requires m.Valid()
    ensures |cs| == |m.order|
    ensures forall i :: 0 <= i < |cs| ==> cs[i].status == m.order[i]
    ensures forall i :: 0 <= i < |cs| ==> cs[i].status in m.entries && cs[i].count == m.entries[cs[i].status]
  {
    Entries(m.order, m.entries)
  }

  function SumCounts(cs: seq<StatusCount>): nat {
    if cs == [] then 0 else cs[0].count + SumCounts(cs[1..])
  }

  /** The `stats` memo: nothing without order data. */
  function ComputeStats(orders: Option<seq<Order>>): (r: Option<Stats>)
    ensures r.None? <==> orders.None?
    ensures r.Some? ==> r.value.totalOrders == |orders.value|
    ensures r.Some? ==> r.value.pendingOrders == CountStatus(orders.value, Pending)
    ensures r.Some? ==> r.value.totalRevenue == Revenue(orders.value)
    ensures r.Some? ==> r.value.activeDeliveryPartners == |PartnerIds(orders.value)|
    ensures r.Some? ==> r.value.activeDeliveryPartners <= r.value.totalOrders
    ensures r.Some? ==> r.value.chartData == ChartData(ByStatus(orders.value))
    ensures r.Some? ==> SumCounts(r.value.chartData) == r.value.totalOrders
  {
    if orders.None? then None
    else
      var os := orders.value;
      Seqs.FilterLength(os, StatusIs(Pending));
      PartnerIdsBound(os);
      ChartSumsToTotal(os);
      Some(Stats(
        |os|,
        Revenue(os),
        |Seqs.Filter(os, StatusIs(Pending))|,
        |PartnerIds(os)|,
        ChartData(ByStatus(os))))
  }

  // ------------------------------------------------------------- properties

  /** A status is a key of the tally exactly when some order has it, and its
      value is the number of orders with it. */
  lemma {:induction false} ByStatusCounts(orders: seq<Order>, status: string)
    ensures status in ByStatus(orders).entries <==> CountStatus(orders, status) > 0
    ensures status in ByStatus(orders).entries ==> ByStatus(orders).entries[status] == CountStatus(orders, status)
  {
    if orders != [] {
      var init, last := orders[..|orders| - 1], orders[|orders| - 1];
      ByStatusCounts(init, status);
      assert orders == init + [last];
      Seqs.CountConcat(init, [last], StatusIs(status));
      assert Seqs.Count([last], StatusIs(status)) == if last.status == status then 1 else 0;
    }
  }

  /** Counting over keys whose value rises by one at a key they hold once. */
  lemma {:induction false} SumBumped(keys: seq<string>, counts: map<string, nat>, k: string)
    requires Seqs.Distinct(keys)
    requires forall x :: x in keys ==> x in counts
    requires k in counts
    ensures SumCounts(Entries(keys, counts[k := counts[k] + 1])) ==
      SumCounts(Entries(keys, counts)) + (if k in keys then 1 else 0)
  {
    if keys != [] {
      assert keys[0] !in keys[1..];
      SumBumped(keys[1..], counts, k);
    }
  }

  /** Counting over keys that do not include a changed key. */
  lemma {:induction false} SumUntouched(keys: seq<string>, counts: map<string, nat>, k: string, v: nat)
    requires forall x :: x in keys ==> x in counts
    requires k !in keys
    ensures Entries(keys, counts[k := v]) == Entries(keys, counts)
  {
  }

  /** Counting over a key appended at the end. */
  lemma {:induction false} SumAppended(keys: seq<string>, counts: map<string, nat>, k: string)
    requires forall x :: x in keys ==> x in counts
    requires k in counts
    ensures SumCounts(Entries(keys + [k], counts)) == SumCounts(Entries(keys, counts)) + counts[k]
  {
    if keys == [] {
      assert keys + [k] == [k];
    } else {
      assert (keys + [k])[1..] == keys[1..] + [k];
      SumAppended(keys[1..], counts, k);
    }
  }

  /** One more order adds one to the chart's counts. */
  lemma BumpSum(acc: JsMap<string, nat>, status: string)
    requires acc.Valid()
    ensures SumCounts(ChartData(Bump(acc, status))) == SumCounts(ChartData(acc)) + 1
  {
    var e := acc.entries;
    var b := Bump(acc, status);
    assert ChartData(b) == Entries(b.order, b.entries);
    if status in e {
      assert b.order == acc.order && b.entries == e[status := e[status] + 1];
      SumBumped(acc.order, e, status);
    } else {
      var e' := e[status := 1];
      assert b.order == acc.order + [status] && b.entries == e';
      SumUntouched(acc.order, e, status, 1);
      SumAppended(acc.order, e', status);
    }
  }

  /** The chart's counts add up to the number of orders. */
  lemma {:induction false} ChartSumsToTotal(orders: seq<Order>)
    ensures SumCounts(ChartData(ByStatus(orders))) == |orders|
  {
    if orders != [] {
      var init := orders[..|orders| - 1];
      ChartSumsToTotal(init);
      BumpSum(ByStatus(init), orders[|orders| - 1].status);
    }
  }

  /** `j` is the position of the first order with that status. */
  predicate FirstAt(orders: seq<Order>, status: string, j: int) {
    0 <= j < |orders| && orders[j].status == status &&
    forall k :: 0 <= k < j ==> orders[k].status != status
  }

  /** A tallied status occurs among the orders. */
  lemma KeyOccurs(orders: seq<Order>, status: string) returns (c: nat)
    requires status in ByStatus(orders).entries
    ensures c < |orders| && orders[c].status == status
  {
    ByStatusCounts(orders, status);
    assert !forall i :: 0 <= i < |orders| ==> !StatusIs(status)(orders[i]);
    c :| 0 <= c < |orders| && StatusIs(status)(orders[c]);
  }

  /** A first occurrence within the first `|init|` orders is a first
      occurrence in `init`. */
  lemma FirstInPrefix(orders: seq<Order>, init: seq<Order>, status: string, a: int, c: nat)
    requires |init| <= |orders| && init == orders[..|init|]
    requires FirstAt(orders, status, a) && c < |init| && init[c].status == status
    ensures FirstAt(init, status, a)
  {
    assert orders[c].status == status;
  }

  /** A status the tally of all but the last order lacks is first seen at
      the last order. */
  lemma NewKeyFirstAtEnd(orders: seq<Order>, b: int)
    requires orders != []
    requires orders[|orders| - 1].status !in ByStatus(orders[..|orders| - 1]).entries
    requires FirstAt(orders, orders[|orders| - 1].status, b)
    ensures b == |orders| - 1
  {
    var init := orders[..|orders| - 1];
    var last := orders[|orders| - 1].status;
    ByStatusCounts(init, last);
    assert forall k :: 0 <= k < |init| ==> !StatusIs(last)(init[k]);
  }

  /** A key of the tally of all but the last order is first seen among
      those orders. */
  lemma OldKeyFirstInInit(orders: seq<Order>, status: string, a: int)
    requires orders != []
    requires status in ByStatus(orders[..|orders| - 1]).entries
    requires FirstAt(orders, status, a)
    ensures FirstAt(orders[..|orders| - 1], status, a)
  {
    var init := orders[..|orders| - 1];
    var c := KeyOccurs(init, status);
    FirstInPrefix(orders, init, status, a, c);
  }

  /** The tally lists the statuses in the order of their first occurrence:
      an earlier key is first seen earlier. */
  lemma {:induction false} ByStatusFirstSeen(orders: seq<Order>, i: nat, j: nat, a: int, b: int)
    requires i < j < |ByStatus(orders).order|
    requires FirstAt(orders, ByStatus(orders).order[i], a)
    requires FirstAt(orders, ByStatus(orders).order[j], b)
    ensures a < b
  {
    var init := orders[..|orders| - 1];
    var last := orders[|orders| - 1].status;
    var m0 := ByStatus(init);
    assert ByStatus(orders) == Bump(m0, last);
    assert ByStatus(orders).order[..|m0.order|] == m0.order;
    var s, t := ByStatus(orders).order[i], ByStatus(orders).order[j];
    assert m0.order[i] == s;
    OldKeyFirstInInit(orders, s, a);
    if j < |m0.order| {
      assert m0.order[j] == t;
      OldKeyFirstInInit(orders, t, b);
      ByStatusFirstSeen(init, i, j, a, b);
    } else {
      NewKeyFirstAtEnd(orders, b);
    }
  }

  /** A status comes before another in the tally exactly when its first
      order comes before the other's first order. */
  lemma ByStatusOrder(orders: seq<Order>, i: nat, j: nat, a: int, b: int)
    requires i < |ByStatus(orders).order| && j < |ByStatus(orders).order|
    requires FirstAt(orders, ByStatus(orders).order[i], a)
    requires FirstAt(orders, ByStatus(orders).order[j], b)
    ensures i < j <==> a < b
  {
    var m := ByStatus(orders);
    if i < j {
      ByStatusFirstSeen(orders, i, j, a, b);
    } else if j < i {
      ByStatusFirstSeen(orders, j, i, b, a);
    }
  }

  /** No status has two bars. */
  lemma ChartDistinct(m: JsMap<string, nat>)
    requires m.Valid()
    ensures var chart := ChartData(m);
      forall i, j :: 0 <= i < j < |chart| ==> chart[i].status != chart[j].status
  {
    var chart := ChartData(m);
    forall i, j | 0 <= i < j < |chart| ensures chart[i].status != chart[j].status {
      assert chart[i] == StatusCount(m.order[i], m.entries[m.order[i]]);
      assert chart[j] == StatusCount(m.order[j], m.entries[m.order[j]]);
    }
  }

  /** Each bar counts the orders with its status, and so is never zero. */
  lemma ChartExact(orders: seq<Order>)
    ensures var chart := ChartData(ByStatus(orders));
      forall i :: 0 <= i < |chart| ==> chart[i].count == CountStatus(orders, chart[i].status) && chart[i].count >= 1
  {
    var chart := ChartData(ByStatus(orders));
    forall i | 0 <= i < |chart|
      ensures chart[i].count == CountStatus(orders, chart[i].status) && chart[i].count >= 1
    {
      ByStatusCounts(orders, chart[i].status);
    }
  }

  /** An order's status is counted at least once. */
  lemma StatusCounted(orders: seq<Order>, j: int)
    requires 0 <= j < |orders|
    ensures CountStatus(orders, orders[j].status) > 0
  {
    assert StatusIs(orders[j].status)(orders[j]);
  }

  /** A tallied status has a bar; `i` is its position. */
  lemma KeyHasBar(m: JsMap<string, nat>, status: string) returns (i: nat)
    requires m.Valid() && status in m.entries
    ensures i < |ChartData(m)| && ChartData(m)[i].status == status
  {
    i :| 0 <= i < |m.order| && m.order[i] == status;
    assert ChartData(m)[i] == StatusCount(m.order[i], m.entries[m.order[i]]);
  }

  /** The status of the order at `j` has a bar; `i` is its position. */
  lemma StatusHasBar(orders: seq<Order>, j: int) returns (i: nat)
    requires 0 <= j < |orders|
    ensures i < |ChartData(ByStatus(orders))| && ChartData(ByStatus(orders))[i].status == orders[j].status
  {
    StatusCounted(orders, j);
    ByStatusCounts(orders, orders[j].status);
    i := KeyHasBar(ByStatus(orders), orders[j].status);
  }

  /** Every order's status has a bar. */
  lemma ChartCovers(orders: seq<Order>)
    ensures var chart := ChartData(ByStatus(orders));
      forall j :: 0 <= j < |orders| ==> exists i :: 0 <= i < |chart| && chart[i].status == orders[j].status
  {
    var chart := ChartData(ByStatus(orders));
    forall j | 0 <= j < |orders| ensures exists i :: 0 <= i < |chart| && chart[i].status == orders[j].status {
      var i := StatusHasBar(orders, j);
      assert chart[i].status == orders[j].status;
    }
  }

  /** Each bar of the chart is a distinct status with the number of orders
      that have it, and that number is never zero: a status no order has
      gets no bar. */
  lemma ChartCounts(orders: seq<Order>)
    ensures var chart := ChartData(ByStatus(orders));
      && (forall i, j :: 0 <= i < j < |chart| ==> chart[i].status != chart[j].status)
      && (forall i :: 0 <= i < |chart| ==> chart[i].count == CountStatus(orders, chart[i].status) && chart[i].count >= 1)
      && (forall j :: 0 <= j < |orders| ==> exists i :: 0 <= i < |chart| && chart[i].status == orders[j].status)
  {
    ChartDistinct(ByStatus(orders));
    ChartExact(orders);
    ChartCovers(orders);
  }

  /** The number of active partners is zero exactly when no order has a
      (truthy) partner id. */
  lemma NoPartners(orders: seq<Order>)
    ensures |PartnerIds(orders)| == 0 <==> forall i :: 0 <= i < |orders| ==> !HasPartner(orders[i])
  {
    if exists i :: 0 <= i < |orders| && HasPartner(orders[i]) {
      var i :| 0 <= i < |orders| && HasPartner(orders[i]);
      assert orders[i].deliveryPartnerId.value in PartnerIds(orders);
    }
  }
}
