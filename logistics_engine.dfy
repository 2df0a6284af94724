/** Reconciliation of Shopify orders with Prozo shipments: dispatch time,
  * the per-order unified row, the matching run over the stored tables and
  * the dashboard metrics computed over the unified rows. Timestamps are
  * seconds since an epoch; money is `real`. */
module LogisticsEngine {
  import opened Wrappers
  import Text

  // ---------------------------------------------------------------------------
  // Dispatch time
  // ---------------------------------------------------------------------------

  /** Hours from order creation to pickup; `None` when either time is missing
    * (or was unparseable) or when the pickup precedes the order. */
  function DispatchHours(orderTime: Option<int>, pickupTime: Option<int>): (r: Option<real>)
    ensures r.None? <==> orderTime.None? || pickupTime.None? || pickupTime.value < orderTime.value
    ensures r.Some? ==> r.value >= 0.0 && r.value * 3600.0 == (pickupTime.value - orderTime.value) as real
  {
    if orderTime.None? || pickupTime.None? then None
    else
      var hours := (pickupTime.value - orderTime.value) as real / 3600.0;
      if hours >= 0.0 then Some(hours) else None
  }

  datatype DispatchCategory = NotDispatched | Fast | Normal | Delayed

  /** The dispatch band: within a day is fast, within two days normal. */
  function CategorizeDispatch(hours: Option<real>): DispatchCategory
  {
    match hours
    case None => NotDispatched
    case Some(h) => if h <= 24.0 then Fast else if h <= 48.0 then Normal else Delayed
  }

  /** The bands in order of slowness. */
  function DispatchRank(c: DispatchCategory): nat
  {
    match c
    case Fast => 0
    case Normal => 1
    case Delayed => 2
    case NotDispatched => 3
  }

  /** A slower dispatch never lands in a faster band. */
  lemma DispatchBandsMonotone(h1: real, h2: real)
    requires h1 <= h2
    ensures DispatchRank(CategorizeDispatch(Some(h1))) <= DispatchRank(CategorizeDispatch(Some(h2)))
  {
  }

  /** The bands by elapsed seconds: a pickup within 86400 seconds is fast,
    * within 172800 normal, later delayed; a pickup before the order, or a
    * missing time, is not dispatched. */
  lemma {:induction false} DispatchBandsBySeconds(orderTime: Option<int>, pickupTime: Option<int>)
    ensures var c := CategorizeDispatch(DispatchHours(orderTime, pickupTime));
      (c == NotDispatched <==> orderTime.None? || pickupTime.None? || pickupTime.value < orderTime.value)
      && (c == Fast <==> orderTime.Some? && pickupTime.Some? && 0 <= pickupTime.value - orderTime.value <= 86400)
      && (c == Normal <==> orderTime.Some? && pickupTime.Some? && 86400 < pickupTime.value - orderTime.value <= 172800)
      && (c == Delayed <==> orderTime.Some? && pickupTime.Some? && 172800 < pickupTime.value - orderTime.value)
  {
    var r := DispatchHours(orderTime, pickupTime);
    if r.Some? {
      var seconds := (pickupTime.value - orderTime.value) as real;
      assert r.value * 3600.0 == seconds;
      assert r.value <= 24.0 <==> seconds <= 86400.0;
      assert r.value <= 48.0 <==> seconds <= 172800.0;
    }
  }

  // ---------------------------------------------------------------------------
  // Stored records
  // ---------------------------------------------------------------------------

  /** A stored Shopify order (an empty order id marks a row without one). */
  datatype ShopifyOrder = ShopifyOrder(
    orderId: string, email: Option<string>, phone: Option<string>, billingPhone: Option<string>,
    shippingName: Option<string>, billingName: Option<string>, shippingCity: Option<string>,
    shippingState: Option<string>, shippingPincode: Option<string>, orderDate: Option<int>,
    total: Option<real>, financialStatus: Option<string>, paymentMethod: Option<string>)

  /** A stored Prozo shipment. */
  datatype ProzoShipment = ProzoShipment(
    orderId: string, awb: string, status: string, statusRaw: Option<string>,
    courierPartner: Option<string>, pickupDate: Option<int>, deliveryDate: Option<int>,
    rtoDate: Option<int>, dropPhone: Option<string>, dropName: Option<string>,
    dropCity: Option<string>, dropState: Option<string>, dropPincode: Option<string>)

  datatype RevenueCategory = Actual | Pending | Lost

  /** A row of the unified table. */
  datatype UnifiedRow = UnifiedRow(
    orderId: string, email: Option<string>, phone: Option<string>, name: Option<string>,
    city: Option<string>, state: Option<string>, pincode: Option<string>,
    orderDate: Option<int>, total: Option<real>, paymentMode: Option<string>,
    financialStatus: Option<string>, awb: Option<string>, deliveryStatus: string,
    deliveryStatusRaw: Option<string>, courierPartner: Option<string>,
    pickupDate: Option<int>, deliveryDate: Option<int>, rtoDate: Option<int>,
    dispatchHours: Option<real>, dispatchCategory: DispatchCategory,
    isDelivered: bool, isInTransit: bool, isRto: bool, isCancelled: bool,
    isRefunded: bool, isNotShipped: bool, revenue: RevenueCategory)

  // ---------------------------------------------------------------------------
  // One order
  // ---------------------------------------------------------------------------

  /** A customer field from the order, falling back to the shipment's drop
    * field when the order has none and a shipment exists. */
  function WithDropFallback(fromOrder: Option<string>, prozo: Option<ProzoShipment>, drop: Option<string>): (r: Option<string>)
    ensures Given(fromOrder) || prozo.None? ==> r == fromOrder
    ensures !Given(fromOrder) && prozo.Some? ==> r == drop
  {
    if !Given(fromOrder) && prozo.Some? then drop else fromOrder
  }

  /** The shipment's status, or 'not_shipped' without a shipment. */
  function ShippedStatus(prozo: Option<ProzoShipment>): string
  {
    if prozo.Some? then prozo.value.status else "not_shipped"
  }

  predicate IsRefunded(financialStatus: Option<string>)
  {
    financialStatus == Some("refunded") || financialStatus == Some("partially_refunded")
  }

  /** A voided payment or a cancelled shipment cancels the order. */
  predicate IsCancelled(financialStatus: Option<string>, prozo: Option<ProzoShipment>)
  {
    financialStatus == Some("voided") || ShippedStatus(prozo) == "cancelled"
  }

  /** The delivery status written for the order. */
  function DeliveryStatus(financialStatus: Option<string>, prozo: Option<ProzoShipment>): (r: string)
    ensures IsCancelled(financialStatus, prozo) ==> r == "cancelled"
    ensures !IsCancelled(financialStatus, prozo) ==> r == ShippedStatus(prozo)
    ensures prozo.None? ==> r == "not_shipped" || r == "cancelled"
  {
    if IsCancelled(financialStatus, prozo) then "cancelled" else ShippedStatus(prozo)
  }

  /** Revenue is actual once delivered and not refunded, pending while in
    * transit or not shipped (refunded or not), and lost otherwise. */
  function RevenueOf(status: string, refunded: bool): (r: RevenueCategory)
    ensures r == Actual <==> status == "delivered" && !refunded
    ensures r == Pending <==> status == "in_transit" || status == "not_shipped"
    ensures r == Lost <==> ((status == "delivered" && refunded)
      || (status != "delivered" && status != "in_transit" && status != "not_shipped"))
  {
    if status == "delivered" && !refunded then Actual
    else if status == "in_transit" || status == "not_shipped" then Pending
    else Lost
  }

  /** The consistency the matching run gives every unified row: the flags
    * follow the delivery status, a cancelled order has status 'cancelled',
    * the revenue category follows status and refund, and the dispatch band
    * follows the (non-negative) dispatch hours. */
  predicate WellFormed(r: UnifiedRow)
  {
    (r.isDelivered <==> r.deliveryStatus == "delivered")
    && (r.isInTransit <==> r.deliveryStatus == "in_transit")
    && (r.isRto <==> r.deliveryStatus == "rto")
    && (r.isNotShipped <==> r.deliveryStatus == "not_shipped")
    && (r.isCancelled <==> r.deliveryStatus == "cancelled")
    && r.revenue == RevenueOf(r.deliveryStatus, r.isRefunded)
    && (r.dispatchHours.Some? ==> r.dispatchHours.value >= 0.0)
    && r.dispatchCategory == CategorizeDispatch(r.dispatchHours)
  }

  /** The unified row of one order and its shipment, if any. */
  function UnifiedRowOf(s: ShopifyOrder, prozo: Option<ProzoShipment>): (r: UnifiedRow)
    ensures WellFormed(r)
    ensures r.orderId == s.orderId && r.total == s.total && r.orderDate == s.orderDate
    ensures r.deliveryStatus == DeliveryStatus(s.financialStatus, prozo)
    ensures r.isCancelled <==> IsCancelled(s.financialStatus, prozo)
    ensures r.isRefunded <==> IsRefunded(s.financialStatus)
    ensures r.awb.Some? <==> prozo.Some?
    ensures prozo.None? ==> r.pickupDate.None? && r.dispatchCategory == NotDispatched
    ensures r.dispatchHours == DispatchHours(s.orderDate, if prozo.Some? then prozo.value.pickupDate else None)
    ensures r.phone == WithDropFallback(OrElse(s.phone, s.billingPhone), prozo, if prozo.Some? then prozo.value.dropPhone else None)
  {
    var status := DeliveryStatus(s.financialStatus, prozo);
    var refunded := IsRefunded(s.financialStatus);
    var pickup := if prozo.Some? then prozo.value.pickupDate else None;
    var hours := DispatchHours(s.orderDate, pickup);
    UnifiedRow(
      s.orderId, s.email,
      WithDropFallback(OrElse(s.phone, s.billingPhone), prozo, if prozo.Some? then prozo.value.dropPhone else None),
      WithDropFallback(OrElse(s.shippingName, s.billingName), prozo, if prozo.Some? then prozo.value.dropName else None),
      WithDropFallback(s.shippingCity, prozo, if prozo.Some? then prozo.value.dropCity else None),
      WithDropFallback(s.shippingState, prozo, if prozo.Some? then prozo.value.dropState else None),
      WithDropFallback(s.shippingPincode, prozo, if prozo.Some? then prozo.value.dropPincode else None),
      s.orderDate, s.total, s.paymentMethod, s.financialStatus,
      if prozo.Some? then Some(prozo.value.awb) else None,
      status,
      if prozo.Some? then prozo.value.statusRaw else None,
      if prozo.Some? then prozo.value.courierPartner else None,
      pickup,
      if prozo.Some? then prozo.value.deliveryDate else None,
      if prozo.Some? then prozo.value.rtoDate else None,
      hours, CategorizeDispatch(hours),
      status == "delivered", status == "in_transit", status == "rto",
      IsCancelled(s.financialStatus, prozo), refunded, status == "not_shipped",
      RevenueOf(status, refunded))
  }

  /** A refund only marks the order: it never changes its delivery status. */
  lemma RefundKeepsStatus(s: ShopifyOrder, prozo: Option<ProzoShipment>, refundStatus: string)
    requires refundStatus == "refunded" || refundStatus == "partially_refunded"
    requires s.financialStatus == Some("paid")
    ensures var refunded := UnifiedRowOf(s.(financialStatus := Some(refundStatus)), prozo);
      refunded.deliveryStatus == UnifiedRowOf(s, prozo).deliveryStatus && refunded.isRefunded
  {
  }

  // ---------------------------------------------------------------------------
  // Keying the stored tables by order id
  // ---------------------------------------------------------------------------

  /** Shopify orders by order id: positions in first-seen order, values from
    * the last row with that id; rows without an id are ignored. */
  datatype Keyed = Keyed(ids: seq<string>, orders: map<string, ShopifyOrder>)

  function KeyShopify(rows: seq<ShopifyOrder>): (k: Keyed)
    ensures forall id :: id in k.ids <==> id in k.orders
    ensures "" !in k.orders
    decreases |rows|
  {
    if rows == [] then Keyed([], map[])
    else
      var n := |rows| - 1;
      var before := KeyShopify(rows[..n]);
      var id := rows[n].orderId;
      if id == "" then before
      else Keyed(if id in before.orders then before.ids else before.ids + [id], before.orders[id := rows[n]])
  }

  /** Every keyed order appears once in the id list. */
  lemma {:induction false} KeyShopifyDistinct(rows: seq<ShopifyOrder>)
    ensures forall i, j :: 0 <= i < j < |KeyShopify(rows).ids| ==> KeyShopify(rows).ids[i] != KeyShopify(rows).ids[j]
    decreases |rows|
  {
    if rows != [] {
      var n := |rows| - 1;
      KeyShopifyDistinct(rows[..n]);
      var before := KeyShopify(rows[..n]);
      var id := rows[n].orderId;
      if id != "" && id !in before.orders {
        assert id !in before.ids;
        assert KeyShopify(rows).ids == before.ids + [id];
      }
    }
  }

  /** Shipments by order id: the last shipment of an order wins; shipments
    * without an order id are ignored. */
  function KeyProzo(rows: seq<ProzoShipment>): (m: map<string, ProzoShipment>)
    ensures "" !in m
    ensures forall id :: id in m ==> m[id].orderId == id
    decreases |rows|
  {
    if rows == [] then map[]
    else
      var n := |rows| - 1;
      var before := KeyProzo(rows[..n]);
      if rows[n].orderId == "" then before else before[rows[n].orderId := rows[n]]
  }

  /** A shipment is the one kept for its order exactly when no later shipment
    * carries the same order id. */
  lemma {:induction false} LastShipmentWins(rows: seq<ProzoShipment>, i: int)
    requires 0 <= i < |rows| && rows[i].orderId != ""
    requires forall j :: i < j < |rows| ==> rows[j].orderId != rows[i].orderId
    ensures rows[i].orderId in KeyProzo(rows) && KeyProzo(rows)[rows[i].orderId] == rows[i]
    decreases |rows|
  {
    var n := |rows| - 1;
    if i < n {
      assert forall j :: i < j < n ==> rows[..n][j] == rows[j];
      LastShipmentWins(rows[..n], i);
    }
  }

  /** An order id is keyed exactly when some shipment carries it. */
  lemma {:induction false} KeyProzoDomain(rows: seq<ProzoShipment>, id: string)
    requires id != ""
    ensures id in KeyProzo(rows) <==> exists i :: 0 <= i < |rows| && rows[i].orderId == id
    decreases |rows|
  {
    if rows != [] {
      var n := |rows| - 1;
      KeyProzoDomain(rows[..n], id);
      if id in KeyProzo(rows[..n]) {
        var i :| 0 <= i < n && rows[..n][i].orderId == id;
        assert rows[i].orderId == id;
      }
      if exists i :: 0 <= i < |rows| && rows[i].orderId == id {
        var i :| 0 <= i < |rows| && rows[i].orderId == id;
        if i < n {
          assert rows[..n][i].orderId == id;
        }
      }
    }
  }

  // ---------------------------------------------------------------------------
  // The matching run
  // ---------------------------------------------------------------------------

  /** The shipment of an order, if it has one. */
  function ShipmentFor(shipments: map<string, ProzoShipment>, id: string): Option<ProzoShipment>
  {
    if id in shipments then Some(shipments[id]) else None
  }

  /** The rows `unify` builds for the listed orders, in list order. */
  function UnifiedRowsWith(ids: seq<string>, orders: map<string, ShopifyOrder>, shipments: map<string, ProzoShipment>,
                           unify: (ShopifyOrder, Option<ProzoShipment>) -> UnifiedRow): (r: seq<UnifiedRow>)
    requires forall id :: id in ids ==> id in orders
    ensures |r| == |ids|
    decreases |ids|
  {
    if ids == [] then []
    else
      var n := |ids| - 1;
      UnifiedRowsWith(ids[..n], orders, shipments, unify) + [unify(orders[ids[n]], ShipmentFor(shipments, ids[n]))]
  }

  /** The unified rows of the listed orders, in list order. */
  function UnifiedRows(ids: seq<string>, orders: map<string, ShopifyOrder>, shipments: map<string, ProzoShipment>): seq<UnifiedRow>
    requires forall id :: id in ids ==> id in orders
  {
    UnifiedRowsWith(ids, orders, shipments, UnifiedRowOf)
  }

  /** The number of listed orders that have a shipment. */
  function MatchedCount(ids: seq<string>, shipments: map<string, ProzoShipment>): (c: nat)
    ensures c <= |ids|
    decreases |ids|
  {
    if ids == [] then 0 else MatchedCount(ids[..|ids| - 1], shipments) + if ids[|ids| - 1] in shipments then 1 else 0
  }

  /** Row `i` is the unified row of the `i`-th order: one row per order, in
    * order, with status 'not_shipped' or 'cancelled' when it has no shipment. */
  lemma UnifiedRowsAt(ids: seq<string>, orders: map<string, ShopifyOrder>, shipments: map<string, ProzoShipment>, i: int)
    requires forall id :: id in ids ==> id in orders
    requires 0 <= i < |ids|
    ensures |UnifiedRows(ids, orders, shipments)| == |ids|
    ensures UnifiedRows(ids, orders, shipments)[i] == UnifiedRowOf(orders[ids[i]], if ids[i] in shipments then Some(shipments[ids[i]]) else None)
    ensures UnifiedRows(ids, orders, shipments)[i].orderId == orders[ids[i]].orderId
    ensures WellFormed(UnifiedRows(ids, orders, shipments)[i])
  {
    UnifiedRowsWithAt(ids, orders, shipments, UnifiedRowOf, i);
  }

  lemma {:induction false} UnifiedRowsWithAt(ids: seq<string>, orders: map<string, ShopifyOrder>, shipments: map<string, ProzoShipment>,
                                             unify: (ShopifyOrder, Option<ProzoShipment>) -> UnifiedRow, i: int)
    requires forall id :: id in ids ==> id in orders
    requires 0 <= i < |ids|
    ensures UnifiedRowsWith(ids, orders, shipments, unify)[i] == unify(orders[ids[i]], ShipmentFor(shipments, ids[i]))
    decreases |ids|
  {
    var n := |ids| - 1;
    var prefix := ids[..n];
    assert forall j :: 0 <= j < n ==> prefix[j] == ids[j];
    if i < n {
      UnifiedRowsWithAt(prefix, orders, shipments, unify, i);
    }
  }

  /** The matching loop: one row per listed order, built by `unify` from the
    * order and its shipment, counting the orders with and without one. */
  method BuildRows(ids: seq<string>, orders: map<string, ShopifyOrder>, shipments: map<string, ProzoShipment>,
                   unify: (ShopifyOrder, Option<ProzoShipment>) -> UnifiedRow)
    returns (built: seq<UnifiedRow>, matched: nat, notShipped: nat)
    requires forall id :: id in ids ==> id in orders
    ensures built == UnifiedRowsWith(ids, orders, shipments, unify)
    ensures matched == MatchedCount(ids, shipments)
    ensures matched + notShipped == |ids|
  {
    built := [];
    matched := 0;
    notShipped := 0;
    var i := 0;
    while i < |ids|
      invariant 0 <= i <= |ids|
      invariant built == UnifiedRowsWith(ids[..i], orders, shipments, unify)
      invariant matched == MatchedCount(ids[..i], shipments)
      invariant matched + notShipped == i
    {
      assert ids[..i + 1][..i] == ids[..i];
      var id := ids[i];
      var prozo: Option<ProzoShipment> := None;
      if id in shipments {
        prozo := Some(shipments[id]);
        matched := matched + 1;
      } else {
        notShipped := notShipped + 1;
      }
      built := built + [unify(orders[id], prozo)];
      i := i + 1;
    }
    assert ids[..i] == ids;
  }

  /** What a matching run reports. */
  datatype MatchSummary = MatchSummary(totalOrders: nat, matched: nat, notShipped: nat, noOrders: bool)

  /** The unified table. */
  class UnifiedStore {
    var rows: seq<UnifiedRow>

    constructor()
      ensures rows == []
    {
      rows := [];
    }

    /** Rebuild the table from the stored orders and shipments. Without any
      * Shopify order the run reports that and leaves the table as it was. */
    method RunMatching(shopifyRows: seq<ShopifyOrder>, prozoRows: seq<ProzoShipment>) returns (summary: MatchSummary)
      modifies this
      ensures var keyed := KeyShopify(shopifyRows);
        keyed.ids == [] ==> summary == MatchSummary(0, 0, 0, true) && rows == old(rows)
      ensures var keyed := KeyShopify(shopifyRows);
        keyed.ids != [] ==>
          rows == UnifiedRows(keyed.ids, keyed.orders, KeyProzo(prozoRows))
          && summary == MatchSummary(|keyed.ids|, MatchedCount(keyed.ids, KeyProzo(prozoRows)),
                                     |keyed.ids| - MatchedCount(keyed.ids, KeyProzo(prozoRows)), false)
          && summary.matched + summary.notShipped == summary.totalOrders
    {
      var keyed := KeyShopify(shopifyRows);
      if keyed.ids == [] {
        summary := MatchSummary(0, 0, 0, true);
        return;
      }
      var shipments := KeyProzo(prozoRows);
      var built, matched, notShipped := BuildRows(keyed.ids, keyed.orders, shipments, UnifiedRowOf);
      rows := built;
      summary := MatchSummary(|keyed.ids|, matched, notShipped, false);
    }
  }

  // ---------------------------------------------------------------------------
  // Dashboard metrics
  // ---------------------------------------------------------------------------

  /** The calendar day of a timestamp. */
  function Day(t: int): int
  {
    t / 86400
  }

  /** The date filter: a bound that is set excludes rows without an order date. */
  predicate InRange(r: UnifiedRow, start: Option<int>, end: Option<int>)
  {
    (start.None? || (r.orderDate.Some? && Day(r.orderDate.value) >= start.value))
    && (end.None? || (r.orderDate.Some? && Day(r.orderDate.value) <= end.value))
  }

  function Filtered(rows: seq<UnifiedRow>, start: Option<int>, end: Option<int>): (r: seq<UnifiedRow>)
    ensures |r| <= |rows|
    ensures forall x :: x in r ==> x in rows && InRange(x, start, end)
    ensures start.None? && end.None? ==> r == rows
    decreases |rows|
  {
    if rows == [] then []
    else
      var n := |rows| - 1;
      assert rows[..n] + [rows[n]] == rows;
      Filtered(rows[..n], start, end) + if InRange(rows[n], start, end) then [rows[n]] else []
  }

  /** The elements satisfying `p`, in order. */
  function Keep<T>(xs: seq<T>, p: T -> bool): seq<T>
    decreases |xs|
  {
    if xs == [] then [] else Keep(xs[..|xs| - 1], p) + if p(xs[|xs| - 1]) then [xs[|xs| - 1]] else []
  }

  lemma {:induction false} KeepMultiset<T>(xs: seq<T>, p: T -> bool, x: T)
    ensures multiset(Keep(xs, p))[x] == if p(x) then multiset(xs)[x] else 0
    decreases |xs|
  {
    if xs != [] {
      var n := |xs| - 1;
      KeepMultiset(xs[..n], p, x);
      assert xs == xs[..n] + [xs[n]];
    }
  }

  lemma {:induction false} KeepConcat<T>(a: seq<T>, b: seq<T>, p: T -> bool)
    ensures Keep(a + b, p) == Keep(a, p) + Keep(b, p)
    decreases |b|
  {
    if b == [] {
      assert a + b == a;
    } else {
      var n := |b| - 1;
      KeepConcat(a, b[..n], p);
      assert (a + b)[..|a + b| - 1] == a + b[..n];
      assert (a + b)[|a + b| - 1] == b[n];
      Text.ConcatAssoc(Keep(a, p), Keep(b[..n], p), if p(b[n]) then [b[n]] else []);
    }
  }

  /** The date filter keeps the in-range rows in order. */
  lemma {:induction false} FilteredIsKeep(rows: seq<UnifiedRow>, start: Option<int>, end: Option<int>)
    ensures Filtered(rows, start, end) == Keep(rows, x => InRange(x, start, end))
    decreases |rows|
  {
    if rows != [] {
      FilteredIsKeep(rows[..|rows| - 1], start, end);
    }
  }

  /** The filter keeps every in-range row as often as it occurs and drops the rest. */
  lemma FilteredMultiset(rows: seq<UnifiedRow>, start: Option<int>, end: Option<int>, x: UnifiedRow)
    ensures multiset(Filtered(rows, start, end))[x] == if InRange(x, start, end) then multiset(rows)[x] else 0
  {
    FilteredIsKeep(rows, start, end);
    KeepMultiset(rows, x => InRange(x, start, end), x);
  }

  /** Every in-range row is kept. */
  lemma FilteredKeepsInRange(rows: seq<UnifiedRow>, start: Option<int>, end: Option<int>)
    ensures forall x :: x in rows && InRange(x, start, end) ==> x in Filtered(rows, start, end)
  {
    forall x | x in rows && InRange(x, start, end) ensures x in Filtered(rows, start, end) {
      FilteredMultiset(rows, start, end, x);
    }
  }

  /** Filtering two lists one after the other keeps their order. */
  lemma FilteredConcat(a: seq<UnifiedRow>, b: seq<UnifiedRow>, start: Option<int>, end: Option<int>)
    ensures Filtered(a + b, start, end) == Filtered(a, start, end) + Filtered(b, start, end)
  {
    FilteredIsKeep(a + b, start, end);
    FilteredIsKeep(a, start, end);
    FilteredIsKeep(b, start, end);
    KeepConcat(a, b, x => InRange(x, start, end));
  }

  /** The number of rows satisfying `p`. */
  function CountIf(rows: seq<UnifiedRow>, p: UnifiedRow -> bool): (c: nat)
    ensures c <= |rows|
    decreases |rows|
  {
    if rows == [] then 0 else CountIf(rows[..|rows| - 1], p) + if p(rows[|rows| - 1]) then 1 else 0
  }

  /** The order amount; a missing amount adds nothing to a sum. */
  function Amount(r: UnifiedRow): real
  {
    r.total.UnwrapOr(0.0)
  }

  /** The summed amount of the rows satisfying `p`. */
  function SumIf(rows: seq<UnifiedRow>, p: UnifiedRow -> bool): real
    decreases |rows|
  {
    if rows == [] then 0.0 else SumIf(rows[..|rows| - 1], p) + if p(rows[|rows| - 1]) then Amount(rows[|rows| - 1]) else 0.0
  }

  predicate AnyRow(r: UnifiedRow) { true }
  predicate DeliveredUnrefunded(r: UnifiedRow) { r.isDelivered && !r.isRefunded }
  predicate ActualRow(r: UnifiedRow) { r.revenue == Actual }
  predicate PendingRow(r: UnifiedRow) { r.revenue == Pending }
  predicate LostRow(r: UnifiedRow) { r.revenue == Lost }
  predicate RefundedRow(r: UnifiedRow) { r.isRefunded }
  predicate RtoRow(r: UnifiedRow) { r.isRto }
  predicate CancelledNotRto(r: UnifiedRow) { r.isCancelled && !r.isRto }
  predicate CancelledRow(r: UnifiedRow) { r.isCancelled }
  predicate InTransitRow(r: UnifiedRow) { r.isInTransit }
  predicate NotShippedRow(r: UnifiedRow) { r.isNotShipped }

  /** `n` as a percentage of `d`, 0 when `d` is 0. */
  function Percent(n: real, d: real): (r: real)
    ensures d <= 0.0 ==> r == 0.0
    ensures d > 0.0 && 0.0 <= n <= d ==> 0.0 <= r <= 100.0
  {
    if d > 0.0 then
      if 0.0 <= n <= d then QuotientAtMostOne(n, d); n / d * 100.0 else n / d * 100.0
    else 0.0
  }

  lemma QuotientAtMostOne(n: real, d: real)
    requires d > 0.0 && 0.0 <= n <= d
    ensures 0.0 <= n / d <= 1.0
  {
    var q := n / d;
    assert q * d == n;
  }

  /** An average order value, 0 without orders. */
  function Aov(amount: real, count: nat): (r: real)
    ensures count == 0 ==> r == 0.0
    ensures count > 0 ==> r * (count as real) == amount
  {
    if count > 0 then amount / (count as real) else 0.0
  }

  /** The sum and number of the dispatch hours that are known. */
  function HoursSum(rows: seq<UnifiedRow>): real
    decreases |rows|
  {
    if rows == [] then 0.0
    else HoursSum(rows[..|rows| - 1]) + rows[|rows| - 1].dispatchHours.UnwrapOr(0.0)
  }

  function HoursCount(rows: seq<UnifiedRow>): (c: nat)
    ensures c <= |rows|
    decreases |rows|
  {
    if rows == [] then 0 else HoursCount(rows[..|rows| - 1]) + if rows[|rows| - 1].dispatchHours.Some? then 1 else 0
  }

  /** The average dispatch time over the dispatched rows; `None` when there
    * are none or when the average is zero. */
  function AverageDispatch(sum: real, count: nat): (r: Option<real>)
    ensures r.None? <==> count == 0 || sum == 0.0
    ensures r.Some? ==> r.value * (count as real) == sum
  {
    if count == 0 then None
    else
      var avg := sum / (count as real);
      if avg == 0.0 then None else Some(avg)
  }

  /** The dashboard figures. */
  datatype Metrics = Metrics(
    totalOrders: nat, projectedRevenue: real, projectedAov: real,
    deliveredOrders: nat, actualRevenue: real, actualAov: real,
    lostOrders: nat, lostRevenue: real, pendingOrders: nat, pendingRevenue: real,
    lostPercentage: real, deliveryRate: real, rtoRate: real,
    refundedOrders: nat, refundedAmount: real, rtoOrders: nat, rtoAmount: real,
    cancelledOrders: nat, cancelledAmount: real, inTransitOrders: nat, inTransitAmount: real,
    notShippedOrders: nat, notShippedAmount: real, avgDispatchHours: Option<real>)

  /** The figures over the rows that pass the date filter. Counts and sums
    * use the row flags; rates and percentages are relative to all orders
    * and are 0 when their base is 0. */
  function DashboardMetrics(rows: seq<UnifiedRow>, start: Option<int>, end: Option<int>): (m: Metrics)
    ensures var f := Filtered(rows, start, end);
      m.totalOrders == |f| && m.deliveredOrders == CountIf(f, DeliveredUnrefunded)
      && m.lostOrders == CountIf(f, LostRow) && m.pendingOrders == CountIf(f, PendingRow)
      && m.cancelledOrders == CountIf(f, CancelledNotRto)
    ensures m.totalOrders == 0 ==> m.projectedAov == 0.0 && m.deliveryRate == 0.0 && m.rtoRate == 0.0
    ensures m.deliveredOrders == 0 ==> m.actualAov == 0.0
    ensures m.projectedRevenue <= 0.0 ==> m.lostPercentage == 0.0
    ensures 0.0 <= m.deliveryRate <= 100.0 && 0.0 <= m.rtoRate <= 100.0
  {
    var f := Filtered(rows, start, end);
    var total := |f|;
    var projected := SumIf(f, AnyRow);
    var delivered := CountIf(f, DeliveredUnrefunded);
    var actual := SumIf(f, DeliveredUnrefunded);
    var rto := CountIf(f, RtoRow);
    var lost := SumIf(f, LostRow);
    Metrics(
      total, projected, Aov(projected, total),
      delivered, actual, Aov(actual, delivered),
      CountIf(f, LostRow), lost, CountIf(f, PendingRow), SumIf(f, PendingRow),
      Percent(lost, projected),
      Percent(delivered as real, total as real), Percent(rto as real, total as real),
      CountIf(f, RefundedRow), SumIf(f, RefundedRow), rto, SumIf(f, RtoRow),
      CountIf(f, CancelledNotRto), SumIf(f, CancelledNotRto),
      CountIf(f, InTransitRow), SumIf(f, InTransitRow),
      CountIf(f, NotShippedRow), SumIf(f, NotShippedRow),
      AverageDispatch(HoursSum(f), HoursCount(f)))
  }

  /** Every row falls in exactly one revenue category. */
  lemma {:induction false} RevenueCountsPartition(rows: seq<UnifiedRow>)
    ensures CountIf(rows, ActualRow) + CountIf(rows, PendingRow) + CountIf(rows, LostRow) == |rows|
    decreases |rows|
  {
    if rows != [] {
      RevenueCountsPartition(rows[..|rows| - 1]);
    }
  }

  lemma {:induction false} RevenueSumsPartition(rows: seq<UnifiedRow>)
    ensures SumIf(rows, ActualRow) + SumIf(rows, PendingRow) + SumIf(rows, LostRow) == SumIf(rows, AnyRow)
    decreases |rows|
  {
    if rows != [] {
      RevenueSumsPartition(rows[..|rows| - 1]);
    }
  }

  /** Predicates that agree on every row count and sum alike. */
  lemma {:induction false} SameFilter(rows: seq<UnifiedRow>, p: UnifiedRow -> bool, q: UnifiedRow -> bool)
    requires forall i :: 0 <= i < |rows| ==> p(rows[i]) == q(rows[i])
    ensures CountIf(rows, p) == CountIf(rows, q) && SumIf(rows, p) == SumIf(rows, q)
    decreases |rows|
  {
    if rows != [] {
      var n := |rows| - 1;
      assert forall i :: 0 <= i < n ==> rows[..n][i] == rows[i];
      SameFilter(rows[..n], p, q);
    }
  }

  /** On rows the matching run built, the delivered, pending and lost orders
    * make up all orders, and their amounts the projected revenue. */
  lemma MetricsPartition(rows: seq<UnifiedRow>, start: Option<int>, end: Option<int>)
    requires forall i :: 0 <= i < |rows| ==> WellFormed(rows[i])
    ensures var m := DashboardMetrics(rows, start, end);
      m.deliveredOrders + m.pendingOrders + m.lostOrders == m.totalOrders
      && m.actualRevenue + m.pendingRevenue + m.lostRevenue == m.projectedRevenue
  {
    var f := Filtered(rows, start, end);
    assert forall i :: 0 <= i < |f| ==> f[i] in rows;
    assert forall i :: 0 <= i < |f| ==> WellFormed(f[i]);
    SameFilter(f, DeliveredUnrefunded, ActualRow);
    RevenueCountsPartition(f);
    RevenueSumsPartition(f);
  }

  /** On rows the matching run built a cancelled order is never an RTO, so
    * excluding RTO rows from the cancelled figures changes nothing. */
  lemma CancelledExcludesNoRto(rows: seq<UnifiedRow>, start: Option<int>, end: Option<int>)
    requires forall i :: 0 <= i < |rows| ==> WellFormed(rows[i])
    ensures var f := Filtered(rows, start, end);
      DashboardMetrics(rows, start, end).cancelledOrders == CountIf(f, CancelledRow)
      && DashboardMetrics(rows, start, end).cancelledAmount == SumIf(f, CancelledRow)
  {
    var f := Filtered(rows, start, end);
    assert forall i :: 0 <= i < |f| ==> f[i] in rows;
    SameFilter(f, CancelledNotRto, CancelledRow);
  }

  /** Known dispatch hours are never negative, so the reported average is
    * positive whenever there is one. */
  lemma {:induction false} HoursSumNonNegative(rows: seq<UnifiedRow>)
    requires forall i :: 0 <= i < |rows| ==> WellFormed(rows[i])
    ensures HoursSum(rows) >= 0.0
    decreases |rows|
  {
    if rows != [] {
      var n := |rows| - 1;
      assert forall i :: 0 <= i < n ==> rows[..n][i] == rows[i];
      HoursSumNonNegative(rows[..n]);
    }
  }

  lemma AverageDispatchPositive(rows: seq<UnifiedRow>, start: Option<int>, end: Option<int>)
    requires forall i :: 0 <= i < |rows| ==> WellFormed(rows[i])
    ensures var a := DashboardMetrics(rows, start, end).avgDispatchHours;
      a.Some? ==> a.value > 0.0
  {
    var f := Filtered(rows, start, end);
    assert forall i :: 0 <= i < |f| ==> f[i] in rows;
    HoursSumNonNegative(f);
    AverageOfNonNegative(HoursSum(f), HoursCount(f));
    assert DashboardMetrics(rows, start, end).avgDispatchHours == AverageDispatch(HoursSum(f), HoursCount(f));
  }

  lemma AverageOfNonNegative(sum: real, count: nat)
    requires sum >= 0.0
    ensures AverageDispatch(sum, count).Some? ==> AverageDispatch(sum, count).value > 0.0
  {
    if count > 0 && sum > 0.0 {
      assert sum / (count as real) > 0.0;
    }
  }

  // ---------------------------------------------------------------------------
  // Breakdowns
  // ---------------------------------------------------------------------------

  /** The figures of one group: rows, amount, and the known dispatch hours. */
  datatype Group = Group(count: nat, total: real, hoursSum: real, hoursCount: nat)

  function AddRow(g: Group, r: UnifiedRow): Group
  {
    Group(g.count + 1, g.total + Amount(r), g.hoursSum + r.dispatchHours.UnwrapOr(0.0),
      g.hoursCount + if r.dispatchHours.Some? then 1 else 0)
  }

  /** The rows grouped by a key; rows without a key are left out. */
  function GroupBy(rows: seq<UnifiedRow>, keyOf: UnifiedRow -> Option<string>): map<string, Group>
    decreases |rows|
  {
    if rows == [] then map[]
    else
      var n := |rows| - 1;
      var groups := GroupBy(rows[..n], keyOf);
      match keyOf(rows[n])
      case None => groups
      case Some(k) => groups[k := AddRow(if k in groups then groups[k] else Group(0, 0.0, 0.0, 0), rows[n])]
  }

  /** The number of rows with key `k`. */
  function CountKey(rows: seq<UnifiedRow>, keyOf: UnifiedRow -> Option<string>, k: string): (c: nat)
    ensures c <= |rows|
    decreases |rows|
  {
    if rows == [] then 0 else CountKey(rows[..|rows| - 1], keyOf, k) + if keyOf(rows[|rows| - 1]) == Some(k) then 1 else 0
  }

  /** A group exists exactly for the keys some row has, and counts the rows
    * with that key. */
  lemma {:induction false} GroupByCounts(rows: seq<UnifiedRow>, keyOf: UnifiedRow -> Option<string>, k: string)
    ensures k in GroupBy(rows, keyOf) <==> CountKey(rows, keyOf, k) > 0
    ensures k in GroupBy(rows, keyOf) ==> GroupBy(rows, keyOf)[k].count == CountKey(rows, keyOf, k)
    decreases |rows|
  {
    if rows != [] {
      GroupByCounts(rows[..|rows| - 1], keyOf, k);
    }
  }

  /** A payment or delivery breakdown entry. */
  datatype SalesEntry = SalesEntry(count: nat, total: real, percentage: real)

  /** A dispatch breakdown entry; the average is `None` when no row of the
    * group has known hours or when it is zero. */
  datatype DispatchEntry = DispatchEntry(count: nat, avgHours: Option<real>, percentage: real)

  function SalesEntryOf(g: Group, totalOrders: nat): (e: SalesEntry)
    ensures e.count == g.count && e.total == g.total
    ensures totalOrders == 0 ==> e.percentage == 0.0
  {
    SalesEntry(g.count, g.total, Percent(g.count as real, totalOrders as real))
  }

  function DispatchEntryOf(g: Group, totalOrders: nat): (e: DispatchEntry)
    ensures e.count == g.count
    ensures totalOrders == 0 ==> e.percentage == 0.0
    ensures e.avgHours == AverageDispatch(g.hoursSum, g.hoursCount)
  {
    DispatchEntry(g.count, AverageDispatch(g.hoursSum, g.hoursCount), Percent(g.count as real, totalOrders as real))
  }

  function PaymentKey(r: UnifiedRow): Option<string> { r.paymentMode }
  function DeliveryKey(r: UnifiedRow): Option<string> { Some(r.deliveryStatus) }

  function CategoryName(c: DispatchCategory): string
  {
    match c
    case NotDispatched => "not_dispatched"
    case Fast => "fast"
    case Normal => "normal"
    case Delayed => "delayed"
  }

  function DispatchKey(r: UnifiedRow): Option<string> { Some(CategoryName(r.dispatchCategory)) }

  /** The grouping loop: fold the filtered rows into their groups. */
  method GroupRows(rows: seq<UnifiedRow>, keyOf: UnifiedRow -> Option<string>) returns (groups: map<string, Group>)
    ensures groups == GroupBy(rows, keyOf)
    ensures forall k :: k in groups ==> groups[k].count == CountKey(rows, keyOf, k)
  {
    groups := map[];
    var i := 0;
    while i < |rows|
      invariant 0 <= i <= |rows|
      invariant groups == GroupBy(rows[..i], keyOf)
    {
      assert rows[..i + 1][..i] == rows[..i];
      var key := keyOf(rows[i]);
      if key.Some? {
        var g := if key.value in groups then groups[key.value] else Group(0, 0.0, 0.0, 0);
        groups := groups[key.value := AddRow(g, rows[i])];
      }
      i := i + 1;
    }
    assert rows[..i] == rows;
    forall k | k in groups
      ensures groups[k].count == CountKey(rows, keyOf, k)
    {
      GroupByCounts(rows, keyOf, k);
    }
  }

  /** The payment, delivery and dispatch breakdowns of the filtered rows,
    * each entry's percentage relative to all filtered orders. */
  method Breakdowns(rows: seq<UnifiedRow>, start: Option<int>, end: Option<int>)
    returns (payment: map<string, SalesEntry>, delivery: map<string, SalesEntry>, dispatch: map<string, DispatchEntry>)
    ensures var f := Filtered(rows, start, end);
      payment == (map k | k in GroupBy(f, PaymentKey) :: SalesEntryOf(GroupBy(f, PaymentKey)[k], |f|))
      && delivery == (map k | k in GroupBy(f, DeliveryKey) :: SalesEntryOf(GroupBy(f, DeliveryKey)[k], |f|))
      && dispatch == (map k | k in GroupBy(f, DispatchKey) :: DispatchEntryOf(GroupBy(f, DispatchKey)[k], |f|))
    ensures forall k :: k in payment ==> payment[k].count == CountKey(Filtered(rows, start, end), PaymentKey, k)
  {
    var f := Filtered(rows, start, end);
    var byPayment := GroupRows(f, PaymentKey);
    var byStatus := GroupRows(f, DeliveryKey);
    var byDispatch := GroupRows(f, DispatchKey);
    payment := map k | k in byPayment :: SalesEntryOf(byPayment[k], |f|);
    delivery := map k | k in byStatus :: SalesEntryOf(byStatus[k], |f|);
    dispatch := map k | k in byDispatch :: DispatchEntryOf(byDispatch[k], |f|);
  }
}
