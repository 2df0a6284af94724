/** Parsing of the Shopify order export and the Prozo shipment report:
  * identifier normalisers, payment and carrier-status classifiers, line-item
  * aggregation per order and the import counters. The phone and e-mail
  * normalisers are shared with the user-journey loaders, which behave alike. */
module LogisticsParsers {
  import opened Wrappers
  import opened Text

  /** A raw CSV cell: `None` stands for an empty (NaN) cell. */
  type Cell = Option<string>

  // ---------------------------------------------------------------------------
  // Identifier normalisers
  // ---------------------------------------------------------------------------

  /** The ten digits left after dropping a recognised country or trunk prefix. */
  function PhoneFromDigits(d: string): (r: Option<string>)
    ensures r.Some? ==> |r.value| == 10 && |d| >= 10 && r.value == d[|d| - 10..]
    ensures r.Some? <==>
      |d| == 10 || (|d| == 12 && StartsWith(d, "91")) || (|d| == 11 && StartsWith(d, "0"))
      || (|d| == 13 && StartsWith(d, "091"))
  {
    var d' :=
      if |d| == 12 && StartsWith(d, "91") then d[2..]
      else if |d| == 11 && StartsWith(d, "0") then d[1..]
      else if |d| == 13 && StartsWith(d, "091") then d[3..]
      else d;
    if |d'| == 10 then Some(d') else None
  }

  /** A phone number as ten digits, or `None`. */
  function NormalizePhone(cell: Cell): (r: Option<string>)
    ensures r.Some? ==> |r.value| == 10 && forall i :: 0 <= i < 10 ==> IsDigit(r.value[i])
    ensures cell.None? ==> r.None?
  {
    match cell
    case None => None
    case Some(raw) =>
      var s := Strip(raw);
      if s == [] then None else PhoneFromDigits(Digits(s))
  }

  /** A normalised phone number is the last ten digits of the cell, and there
    * is one exactly when the cell's digits have one of the accepted forms. */
  lemma NormalizePhoneLastTen(raw: string)
    ensures var d := Digits(raw);
      var r := NormalizePhone(Some(raw));
      (r.Some? ==> |d| >= 10 && r.value == d[|d| - 10..])
      && (r.Some? <==> |d| == 10 || (|d| == 12 && StartsWith(d, "91")) || (|d| == 11 && StartsWith(d, "0"))
                       || (|d| == 13 && StartsWith(d, "091")))
  {
    DigitsOfStrip(raw);
    if Strip(raw) == [] {
      assert Digits(raw) == [];
    }
  }

  /** With a 91 country code the phone is the ten digits after it. */
  lemma PhoneDropsCountryCode(raw: string)
    requires |Digits(Strip(raw))| == 12 && StartsWith(Digits(Strip(raw)), "91")
    ensures NormalizePhone(Some(raw)) == Some(Digits(Strip(raw))[2..])
  {
  }

  /** A phone with too few or too many digits is rejected. */
  lemma PhoneOfWrongLengthRejected(raw: string)
    requires |Digits(Strip(raw))| < 10 || |Digits(Strip(raw))| > 13
    ensures NormalizePhone(Some(raw)) == None
  {
  }

  /** Normalising an already normalised phone changes nothing. */
  lemma NormalizePhoneIdempotent(cell: Cell)
    requires NormalizePhone(cell).Some?
    ensures NormalizePhone(NormalizePhone(cell)) == NormalizePhone(cell)
  {
    NormalizedPhoneFixed(NormalizePhone(cell).value);
  }

  /** Ten digits are their own normal form. */
  lemma NormalizedPhoneFixed(p: string)
    requires |p| == 10 && forall i :: 0 <= i < 10 ==> IsDigit(p[i])
    ensures NormalizePhone(Some(p)) == Some(p)
  {
    assert !IsSpace(p[0]) && !IsSpace(p[9]);
    StripNoop(p);
    DigitsOfDigits(p);
    assert PhoneFromDigits(p) == Some(p);
  }

  /** The trimmed cell text (`safe_str`), `None` when empty. */
  function SafeStr(cell: Cell): (r: Option<string>)
    ensures r.Some? ==> cell.Some? && r.value != [] && r.value == Strip(cell.value)
    ensures cell.Some? && Strip(cell.value) != [] ==> r.Some?
  {
    match cell
    case None => None
    case Some(raw) => var s := Strip(raw); if s == [] then None else Some(s)
  }

  /** A number truncated toward zero, as `int(float(x))` does. */
  function Truncate(x: real): (r: int)
    ensures x >= 0.0 ==> r as real <= x < r as real + 1.0
    ensures x < 0.0 ==> r as real - 1.0 < x <= r as real
  {
    if x >= 0.0 then x.Floor else -((-x).Floor)
  }

  function SafeInt(cell: Option<real>): (r: Option<int>)
    ensures r.Some? <==> cell.Some?
  {
    match cell
    case None => None
    case Some(x) => Some(Truncate(x))
  }

  /** An order id trimmed and without one leading '#', `None` when nothing is left. */
  function NormalizeOrderId(cell: Cell): (r: Option<string>)
    ensures r.Some? ==> r.value != []
    ensures r.Some? ==> cell.Some? && (r.value == Strip(cell.value) || "#" + r.value == Strip(cell.value))
    ensures cell.Some? && Strip(cell.value) != [] && Strip(cell.value) != "#" ==> r.Some?
  {
    match cell
    case None => None
    case Some(raw) =>
      var s := Strip(raw);
      var id := if StartsWith(s, "#") then s[1..] else s;
      if id == [] then None else Some(id)
  }

  /** Exactly one leading '#' is removed, and whatever follows it is kept,
    * whitespace or a second '#' included. */
  lemma OrderIdDropsOneHash(raw: string, rest: string)
    requires Strip(raw) == "#" + rest && rest != []
    ensures NormalizeOrderId(Some(raw)) == Some(rest)
  {
    assert StartsWith("#" + rest, "#");
    assert ("#" + rest)[1..] == rest;
  }

  /** A lone '#' is no order id. */
  lemma OrderIdOfHashOnly(raw: string)
    requires Strip(raw) == "#"
    ensures NormalizeOrderId(Some(raw)) == None
  {
    var s := Strip(raw);
    assert StartsWith(s, "#") && s[1..] == [];
  }

  /** An e-mail address trimmed and lower-cased; `None` without an '@'. */
  function NormalizeEmail(cell: Cell): (r: Option<string>)
    ensures r.Some? ==> '@' in r.value && Lower(r.value) == r.value
    ensures r.Some? ==> cell.Some? && r.value == Lower(Strip(cell.value))
    ensures cell.Some? && '@' in Lower(Strip(cell.value)) ==> r.Some?
  {
    match cell
    case None => None
    case Some(raw) =>
      LowerIdempotent(Strip(raw));
      var e := Lower(Strip(raw));
      if '@' !in e then None else Some(e)
  }

  lemma NormalizeEmailIdempotent(cell: Cell)
    requires NormalizeEmail(cell).Some?
    ensures NormalizeEmail(NormalizeEmail(cell)) == NormalizeEmail(cell)
  {
    var raw := cell.value;
    LowerStrip(Strip(raw));
    StripIdempotent(raw);
    LowerIdempotent(Strip(raw));
    LowerStrip(raw);
    StripIdempotent(Lower(raw));
  }

  // ---------------------------------------------------------------------------
  // Classifiers
  // ---------------------------------------------------------------------------

  datatype PaymentClass = Cod | Prepaid | Partial | UnknownPayment

  predicate IsRefundStatus(status: string)
  {
    status == "voided" || status == "refunded" || status == "partially_refunded"
  }

  predicate HasCodMarker(payment: string)
  {
    Contains(payment, "cod") || Contains(payment, "cash")
  }

  predicate HasPrepaidMarker(payment: string)
  {
    Contains(payment, "razorpay") || Contains(payment, "upi") || Contains(payment, "card")
  }

  /** The lower-cased trimmed text of a cell, empty when there is none. */
  function LowerText(cell: Cell): string
  {
    Lower(SafeStr(cell).UnwrapOr(""))
  }

  /** The payment class of a Shopify order: a cash marker in the payment
    * method wins, then the financial status decides, and for voided or
    * refunded orders it is the gateway in the payment method. */
  function ClassifyPaymentMethod(financialStatus: Cell, paymentMethod: Cell): (r: PaymentClass)
    ensures HasCodMarker(LowerText(paymentMethod)) ==> r == Cod
    ensures r == Partial <==> !HasCodMarker(LowerText(paymentMethod)) && LowerText(financialStatus) == "partially_paid"
    ensures r == Prepaid <==> (!HasCodMarker(LowerText(paymentMethod)) &&
      (LowerText(financialStatus) == "paid"
        || (IsRefundStatus(LowerText(financialStatus)) && HasPrepaidMarker(LowerText(paymentMethod)))
        || (LowerText(financialStatus) !in {"paid", "partially_paid", "pending"}
            && !IsRefundStatus(LowerText(financialStatus)) && Contains(LowerText(paymentMethod), "razorpay"))))
    ensures r == UnknownPayment <==> (!HasCodMarker(LowerText(paymentMethod))
      && LowerText(financialStatus) !in {"paid", "partially_paid", "pending"}
      && !IsRefundStatus(LowerText(financialStatus)) && !Contains(LowerText(paymentMethod), "razorpay"))
  {
    var status := LowerText(financialStatus);
    var payment := LowerText(paymentMethod);
    if HasCodMarker(payment) then Cod
    else if status == "paid" then Prepaid
    else if status == "partially_paid" then Partial
    else if status == "pending" then Cod
    else if IsRefundStatus(status) then
      if HasPrepaidMarker(payment) then Prepaid else Cod
    else if Contains(payment, "razorpay") then Prepaid
    else UnknownPayment
  }

  /** The carrier status table: exact upper-case statuses and their category. */
  const DeliveryStatusMapping: map<string, string> := map[
    "DELIVERED" := "delivered",
    "SHIPMENT_DELAYED" := "in_transit",
    "OUT_FOR_DELIVERY" := "in_transit",
    "FAILED_DELIVERY" := "in_transit",
    "CANCELLED_ORDER" := "cancelled",
    "RTO_DELIVERED" := "rto",
    "RTO_REQUESTED" := "rto",
    "RTO_INTRANSIT" := "rto",
    "RTO_OUT_FOR_DELIVERY" := "rto"
  ]

  /** The five shipment categories. */
  const StatusCategories: set<string> := {"delivered", "rto", "cancelled", "in_transit", "unknown"}

  /** The keyword fallback for statuses the table does not list. */
  function StatusByKeyword(status: string): (r: string)
    ensures r in StatusCategories
  {
    if Contains(status, "DELIVER") && !Contains(status, "RTO") then "delivered"
    else if Contains(status, "RTO") then "rto"
    else if Contains(status, "CANCEL") then "cancelled"
    else if Contains(status, "TRANSIT") || Contains(status, "DELAY") || Contains(status, "PICKUP") then "in_transit"
    else "unknown"
  }

  /** Which keywords decide the fallback: delivered exactly with DELIVER and no
    * RTO, rto exactly with RTO, unknown exactly without any keyword. */
  lemma StatusByKeywordMeaning(status: string)
    ensures StatusByKeyword(status) == "delivered" <==> Contains(status, "DELIVER") && !Contains(status, "RTO")
    ensures StatusByKeyword(status) == "rto" <==> Contains(status, "RTO")
    ensures StatusByKeyword(status) == "unknown" <==> (!Contains(status, "DELIVER") && !Contains(status, "RTO")
      && !Contains(status, "CANCEL") && !Contains(status, "TRANSIT")
      && !Contains(status, "DELAY") && !Contains(status, "PICKUP"))
  {
  }

  /** The normalised shipment status: the table entry for the exact upper-cased
    * status, otherwise the keyword fallback. */
  function MapProzoStatus(statusRaw: Cell, mapping: map<string, string>): (r: string)
    ensures Upper(SafeStr(statusRaw).UnwrapOr("")) in mapping ==> r == mapping[Upper(SafeStr(statusRaw).UnwrapOr(""))]
    ensures Upper(SafeStr(statusRaw).UnwrapOr("")) !in mapping ==> r == StatusByKeyword(Upper(SafeStr(statusRaw).UnwrapOr("")))
  {
    var upper := StatusKey(statusRaw);
    if upper in mapping then mapping[upper] else StatusByKeyword(upper)
  }

  /** The status as looked up: upper-cased, then stripped. Stripping changes
    * nothing, since the safe cast already stripped it. */
  function StatusKey(statusRaw: Cell): (u: string)
    ensures u == Upper(SafeStr(statusRaw).UnwrapOr(""))
  {
    UpperKeepsTrim(SafeStr(statusRaw).UnwrapOr(""));
    Strip(Upper(SafeStr(statusRaw).UnwrapOr("")))
  }

  /** Upper-casing a trimmed string leaves it trimmed. */
  lemma UpperKeepsTrim(s: string)
    requires s == [] || (!IsSpace(s[0]) && !IsSpace(s[|s| - 1]))
    ensures Strip(Upper(s)) == Upper(s)
  {
    if s != [] {
      assert Upper(s)[0] == UpperChar(s[0]);
      assert Upper(s)[|s| - 1] == UpperChar(s[|s| - 1]);
    }
    StripNoop(Upper(s));
  }

  /** With the shipped table every status falls into one of five categories. */
  lemma ProzoStatusCategories(statusRaw: Cell)
    ensures MapProzoStatus(statusRaw, DeliveryStatusMapping) in StatusCategories
  {
    MappingCategories();
    CategoriesKept(statusRaw, DeliveryStatusMapping);
  }

  /** A table whose entries are all among the five categories yields one of the five. */
  lemma CategoriesKept(statusRaw: Cell, mapping: map<string, string>)
    requires mapping.Values <= StatusCategories
    ensures MapProzoStatus(statusRaw, mapping) in StatusCategories
  {
    var upper := Upper(SafeStr(statusRaw).UnwrapOr(""));
    var r := MapProzoStatus(statusRaw, mapping);
    if upper in mapping {
      assert r == mapping[upper];
      assert r in mapping.Values;
    } else {
      assert r == StatusByKeyword(upper);
    }
  }

  /** Every category of the carrier table is one of the five. */
  lemma MappingCategories()
    ensures DeliveryStatusMapping.Values <= StatusCategories
  {
  }

  /** The table is consulted before the keywords: a listed status that is
    * already trimmed and upper-case keeps its table category, whatever its
    * keywords would say. Every key of the carrier table has that form. */
  lemma TableBeforeKeywords(status: string, mapping: map<string, string>)
    requires status in mapping
    requires status == [] || (!IsSpace(status[0]) && !IsSpace(status[|status| - 1]))
    requires forall i :: 0 <= i < |status| ==> !IsLowerLetter(status[i])
    ensures MapProzoStatus(Some(status), mapping) == mapping[status]
  {
    StripNoop(status);
    assert Upper(status) == status;
  }

  /** The keywords alone would call a failed delivery attempt delivered; the
    * table keeps it in transit. */
  lemma FailedDeliveryKeywordMisread()
    ensures StatusByKeyword("FAILED_DELIVERY") == "delivered"
    ensures DeliveryStatusMapping["FAILED_DELIVERY"] == "in_transit"
  {
    var t := "FAILED_DELIVERY";
    assert OccursAt(t, "DELIVER", 7);
    forall i | 0 <= i <= |t| - 3 ensures !OccursAt(t, "RTO", i) {
      assert t[i..i + 3][1] == t[i + 1];
      assert t[i + 1] != 'T';
    }
  }

  // ---------------------------------------------------------------------------
  // Shopify line-item aggregation
  // ---------------------------------------------------------------------------

  /** One row of the Shopify export (one line item of an order). */
  datatype ShopifyRow = ShopifyRow(
    name: Cell, email: Cell, phone: Cell, financialStatus: Cell, paymentMethod: Cell,
    total: Option<real>, lineitemName: Cell, lineitemQuantity: Option<real>)

  /** An order assembled from its rows: customer and financial fields from the
    * first row, line-item names and quantity from all of them. */
  datatype OrderAgg = OrderAgg(
    orderId: string, email: Option<string>, phone: Option<string>,
    financialStatus: Option<string>, paymentMethodRaw: Option<string>, total: Option<real>,
    lineitemNames: seq<string>, totalQuantity: int)

  datatype LineItem = LineItem(orderId: string, name: Option<string>, quantity: int)

  /** The normalised order id of every row, computed as a column before the
    * rows are aggregated. */
  function OrderIdColumnOf(rows: seq<ShopifyRow>): (ids: seq<Option<string>>)
    ensures |ids| == |rows| && forall i :: 0 <= i < |rows| ==> ids[i] == NormalizeOrderId(rows[i].name)
  {
    seq(|rows|, i requires 0 <= i < |rows| => NormalizeOrderId(rows[i].name))
  }

  /** The quantity of a line item; a missing or zero quantity counts as 1. */
  function LineQuantity(q: Option<real>): (r: int)
    ensures r != 0
    ensures q.None? ==> r == 1
    ensures q.Some? && Truncate(q.value) != 0 ==> r == Truncate(q.value)
  {
    var t := SafeInt(q);
    if t.None? || t.value == 0 then 1 else t.value
  }

  function LineItemOf(id: string, row: ShopifyRow): LineItem
  {
    LineItem(id, SafeStr(row.lineitemName), LineQuantity(row.lineitemQuantity))
  }

  function NewOrder(id: string, row: ShopifyRow): OrderAgg
  {
    OrderAgg(id, NormalizeEmail(row.email), NormalizePhone(row.phone), SafeStr(row.financialStatus),
      SafeStr(row.paymentMethod), row.total, [], 0)
  }

  /** Add one line item to an order. */
  function AddItem(o: OrderAgg, item: LineItem): (r: OrderAgg)
    ensures r.(lineitemNames := [], totalQuantity := 0) == o.(lineitemNames := [], totalQuantity := 0)
    ensures r.lineitemNames == o.lineitemNames + [item.name.UnwrapOr("")]
    ensures r.totalQuantity == o.totalQuantity + item.quantity
  {
    o.(lineitemNames := o.lineitemNames + [item.name.UnwrapOr("")],
       totalQuantity := o.totalQuantity + item.quantity)
  }

  /** The aggregation state: order ids in first-seen order, orders, line items. */
  datatype Aggregation = Aggregation(ids: seq<string>, orders: map<string, OrderAgg>, items: seq<LineItem>)

  /** One row folded in, given how a new order and a line item are built
    * from a row: a row without an order id is skipped. */
  function Step(a: Aggregation, id: Option<string>, row: ShopifyRow,
                newOrder: (string, ShopifyRow) -> OrderAgg, itemOf: (string, ShopifyRow) -> LineItem): Aggregation
  {
    match id
    case None => a
    case Some(k) =>
      var item := itemOf(k, row);
      var ids := if k in a.orders then a.ids else a.ids + [k];
      var order := if k in a.orders then a.orders[k] else newOrder(k, row);
      Aggregation(ids, a.orders[k := AddItem(order, item)], a.items + [item])
  }

  /** The rows folded in order, with their id column. */
  function AggregateWith(rows: seq<ShopifyRow>, ids: seq<Option<string>>,
                         newOrder: (string, ShopifyRow) -> OrderAgg, itemOf: (string, ShopifyRow) -> LineItem): (a: Aggregation)
    requires |ids| == |rows|
    ensures forall k :: k in a.ids <==> k in a.orders
    decreases |rows|
  {
    if rows == [] then Aggregation([], map[], [])
    else
      var n := |rows| - 1;
      Step(AggregateWith(rows[..n], ids[..n], newOrder, itemOf), ids[n], rows[n], newOrder, itemOf)
  }

  /** The aggregation of the export rows with the order and line-item fields
    * the importer takes from them. */
  function Aggregate(rows: seq<ShopifyRow>, ids: seq<Option<string>>): Aggregation
    requires |ids| == |rows|
  {
    AggregateWith(rows, ids, NewOrder, LineItemOf)
  }

  /** The aggregation pass over the export rows. */
  method AggregateShopifyRows(rows: seq<ShopifyRow>) returns (agg: Aggregation)
    ensures agg == Aggregate(rows, OrderIdColumnOf(rows))
  {
    agg := AggregateRows(rows, OrderIdColumnOf(rows), NewOrder, LineItemOf);
  }

  /** The aggregation loop: each row with an order id adds a line item, and
    * the first row of an order also creates it. */
  method AggregateRows(rows: seq<ShopifyRow>, column: seq<Option<string>>,
                       newOrder: (string, ShopifyRow) -> OrderAgg, itemOf: (string, ShopifyRow) -> LineItem)
    returns (agg: Aggregation)
    requires |column| == |rows|
    ensures agg == AggregateWith(rows, column, newOrder, itemOf)
  {
    var ids: seq<string> := [];
    var orders: map<string, OrderAgg> := map[];
    var items: seq<LineItem> := [];
    var i := 0;
    while i < |rows|
      invariant 0 <= i <= |rows|
      invariant Aggregation(ids, orders, items) == AggregateWith(rows[..i], column[..i], newOrder, itemOf)
    {
      assert rows[..i + 1][..i] == rows[..i] && column[..i + 1][..i] == column[..i];
      var row := rows[i];
      var normalized := column[i];
      if normalized.Some? {
        var id := normalized.value;
        var item := itemOf(id, row);
        items := items + [item];
        if id !in orders {
          orders := orders[id := newOrder(id, row)];
          ids := ids + [id];
        }
        orders := orders[id := AddItem(orders[id], item)];
      }
      i := i + 1;
    }
    assert rows[..i] == rows && column[..i] == column;
    agg := Aggregation(ids, orders, items);
  }

  /** The sum of the line quantities of the rows of order `k`. */
  function QuantityOf(rows: seq<ShopifyRow>, ids: seq<Option<string>>, k: string): int
    requires |ids| == |rows|
    decreases |rows|
  {
    if rows == [] then 0
    else
      var n := |rows| - 1;
      QuantityOf(rows[..n], ids[..n], k) + if ids[n] == Some(k) then LineQuantity(rows[n].lineitemQuantity) else 0
  }

  /** The line-item names of the rows of order `k`, '' for a missing name. */
  function NamesOf(rows: seq<ShopifyRow>, ids: seq<Option<string>>, k: string): seq<string>
    requires |ids| == |rows|
    decreases |rows|
  {
    if rows == [] then []
    else
      var n := |rows| - 1;
      NamesOf(rows[..n], ids[..n], k) + if ids[n] == Some(k) then [SafeStr(rows[n].lineitemName).UnwrapOr("")] else []
  }

  /** The index of the first row of order `k`, or -1. */
  function FirstRow(ids: seq<Option<string>>, k: string): (r: int)
    ensures -1 <= r < |ids|
    ensures r >= 0 ==> ids[r] == Some(k) && forall j :: 0 <= j < r ==> ids[j] != Some(k)
    ensures r == -1 ==> forall j :: 0 <= j < |ids| ==> ids[j] != Some(k)
    decreases |ids|
  {
    if ids == [] then -1
    else
      var n := |ids| - 1;
      var r := FirstRow(ids[..n], k);
      if r >= 0 then r
      else if ids[n] == Some(k) then n
      else -1
  }

  /** An order no row carries has no quantity and no names. */
  lemma {:induction false} AbsentOrderIsEmpty(rows: seq<ShopifyRow>, ids: seq<Option<string>>, k: string)
    requires |ids| == |rows| && FirstRow(ids, k) == -1
    ensures QuantityOf(rows, ids, k) == 0 && NamesOf(rows, ids, k) == []
    decreases |rows|
  {
    if rows != [] {
      var n := |rows| - 1;
      assert forall j :: 0 <= j < n ==> ids[..n][j] == ids[j];
      AbsentOrderIsEmpty(rows[..n], ids[..n], k);
    }
  }

  /** Every order is listed exactly when some row carries its id; its quantity
    * is the sum over its rows, its names are those of its rows, and its
    * customer and financial fields come from its first row. */
  lemma {:induction false} AggregateCharacterised(rows: seq<ShopifyRow>, ids: seq<Option<string>>, k: string)
    requires |ids| == |rows|
    ensures k in Aggregate(rows, ids).orders <==> FirstRow(ids, k) >= 0
    ensures k in Aggregate(rows, ids).orders ==>
      var o := Aggregate(rows, ids).orders[k];
      o.totalQuantity == QuantityOf(rows, ids, k)
      && o.lineitemNames == NamesOf(rows, ids, k)
      && o.(lineitemNames := [], totalQuantity := 0) == NewOrder(k, rows[FirstRow(ids, k)])
    decreases |rows|
  {
    if rows != [] {
      var n := |rows| - 1;
      AggregateCharacterised(rows[..n], ids[..n], k);
      var before := Aggregate(rows[..n], ids[..n]);
      var after := Aggregate(rows, ids);
      assert after == Step(before, ids[n], rows[n], NewOrder, LineItemOf);
      var first := FirstRow(ids[..n], k);
      assert QuantityOf(rows, ids, k) == QuantityOf(rows[..n], ids[..n], k)
        + if ids[n] == Some(k) then LineQuantity(rows[n].lineitemQuantity) else 0;
      assert NamesOf(rows, ids, k) == NamesOf(rows[..n], ids[..n], k)
        + if ids[n] == Some(k) then [SafeStr(rows[n].lineitemName).UnwrapOr("")] else [];
      if first >= 0 {
        assert rows[..n][first] == rows[first];
        assert FirstRow(ids, k) == first;
        if ids[n] == Some(k) {
          assert after.orders[k] == AddItem(before.orders[k], LineItemOf(k, rows[n]));
        } else {
          assert k in after.orders && after.orders[k] == before.orders[k];
        }
      } else if ids[n] == Some(k) {
        AbsentOrderIsEmpty(rows[..n], ids[..n], k);
        assert FirstRow(ids, k) == n;
        assert after.orders[k] == AddItem(NewOrder(k, rows[n]), LineItemOf(k, rows[n]));
      } else {
        assert FirstRow(ids, k) == -1;
        assert k !in after.orders;
      }
    }
  }

  /** The ids list every order exactly once, in first-seen order. */
  lemma {:induction false} AggregateIdsDistinct(rows: seq<ShopifyRow>, ids: seq<Option<string>>)
    requires |ids| == |rows|
    ensures forall i, j :: 0 <= i < j < |Aggregate(rows, ids).ids| ==> Aggregate(rows, ids).ids[i] != Aggregate(rows, ids).ids[j]
    decreases |rows|
  {
    if rows != [] {
      var n := |rows| - 1;
      AggregateIdsDistinct(rows[..n], ids[..n]);
      var before := Aggregate(rows[..n], ids[..n]);
      var after := Aggregate(rows, ids);
      assert after == Step(before, ids[n], rows[n], NewOrder, LineItemOf);
      if ids[n].Some? {
        var k := ids[n].value;
        if k !in before.orders {
          assert k !in before.ids;
          assert after.ids == before.ids + [k];
        } else {
          assert after.ids == before.ids;
        }
      }
    }
  }

  /** The number of rows with an order id. */
  function RowsWithId(ids: seq<Option<string>>): nat
    decreases |ids|
  {
    if ids == [] then 0 else RowsWithId(ids[..|ids| - 1]) + if ids[|ids| - 1].Some? then 1 else 0
  }

  /** One line item per row with an order id, the last one for the last such row. */
  lemma {:induction false} AggregateItems(rows: seq<ShopifyRow>, ids: seq<Option<string>>)
    requires |ids| == |rows|
    ensures |Aggregate(rows, ids).items| == RowsWithId(ids)
    ensures rows != [] && ids[|rows| - 1].Some? ==>
      Aggregate(rows, ids).items[|Aggregate(rows, ids).items| - 1] == LineItemOf(ids[|rows| - 1].value, rows[|rows| - 1])
    decreases |rows|
  {
    if rows != [] {
      var n := |rows| - 1;
      var prev := Aggregate(rows[..n], ids[..n]);
      AggregateItems(rows[..n], ids[..n]);
      assert Aggregate(rows, ids) == Step(prev, ids[n], rows[n], NewOrder, LineItemOf);
      assert Aggregate(rows, ids).items ==
        prev.items + if ids[n].Some? then [LineItemOf(ids[n].value, rows[n])] else [];
    }
  }

  /** The finished order: names joined with ", " (empty ones dropped) and the
    * payment class. */
  datatype FinishedOrder = FinishedOrder(order: OrderAgg, lineitemNames: string, payment: PaymentClass)

  function Finish(o: OrderAgg): (r: FinishedOrder)
    ensures r.order == o
    ensures r.payment == ClassifyPaymentMethod(o.financialStatus, o.paymentMethodRaw)
    ensures r.lineitemNames == Join(NonEmpty(o.lineitemNames), ", ")
    ensures (forall i :: 0 <= i < |o.lineitemNames| ==> o.lineitemNames[i] == []) ==> r.lineitemNames == []
  {
    NoNamesJoinEmpty(o.lineitemNames);
    FinishedOrder(o, Join(NonEmpty(o.lineitemNames), ", "),
      ClassifyPaymentMethod(o.financialStatus, o.paymentMethodRaw))
  }

  lemma {:induction false} NoNamesJoinEmpty(names: seq<string>)
    ensures (forall i :: 0 <= i < |names| ==> names[i] == []) ==> NonEmpty(names) == []
    decreases |names|
  {
    if names != [] {
      NoNamesJoinEmpty(names[1..]);
      if forall i :: 0 <= i < |names| ==> names[i] == [] {
        assert names[0] == [];
        assert forall i :: 0 <= i < |names[1..]| ==> names[1..][i] == names[i + 1];
      }
    }
  }

  // ---------------------------------------------------------------------------
  // Import results
  // ---------------------------------------------------------------------------

  /** What the database said about one record: already stored, not stored,
    * or the statement failed. */
  datatype DbResult = Exists | Missing | DbError

  datatype ImportResult = ImportResult(success: bool, total: nat, newCount: nat, updatedCount: nat, failedCount: nat)

  /** The counters after one more record with the given database answer. */
  function Count(c: (nat, nat, nat), answer: DbResult): (r: (nat, nat, nat))
    ensures r.0 + r.1 + r.2 == c.0 + c.1 + c.2 + 1
  {
    match answer
    case Exists => (c.0, c.1 + 1, c.2)
    case Missing => (c.0 + 1, c.1, c.2)
    case DbError => (c.0, c.1, c.2 + 1)
  }

  /** The counters over the given order ids: new, updated, failed. */
  function Tally(keys: seq<string>, db: string -> DbResult): (r: (nat, nat, nat))
    ensures r.0 + r.1 + r.2 == |keys|
    decreases |keys|
  {
    if keys == [] then (0, 0, 0) else Count(Tally(keys[..|keys| - 1], db), db(keys[|keys| - 1]))
  }

  /** The required Shopify export columns. */
  const ShopifyRequired: set<string> := {"Name", "Total", "Financial Status"}

  /** Each listed order finished by `finish`, in list order. */
  function FinishedWith(ids: seq<string>, orders: map<string, OrderAgg>, finish: OrderAgg -> FinishedOrder): (r: seq<FinishedOrder>)
    requires forall k :: k in ids ==> k in orders
    ensures |r| == |ids|
    decreases |ids|
  {
    if ids == [] then [] else FinishedWith(ids[..|ids| - 1], orders, finish) + [finish(orders[ids[|ids| - 1]])]
  }

  /** The finished form of each listed order, in list order. */
  function FinishedOrders(ids: seq<string>, orders: map<string, OrderAgg>): seq<FinishedOrder>
    requires forall k :: k in ids ==> k in orders
  {
    FinishedWith(ids, orders, Finish)
  }

  lemma {:induction false} FinishedWithAt(ids: seq<string>, orders: map<string, OrderAgg>, finish: OrderAgg -> FinishedOrder, i: int)
    requires forall k :: k in ids ==> k in orders
    requires 0 <= i < |ids|
    ensures FinishedWith(ids, orders, finish)[i] == finish(orders[ids[i]])
    decreases |ids|
  {
    var n := |ids| - 1;
    var prefix := ids[..n];
    assert forall j :: 0 <= j < n ==> prefix[j] == ids[j];
    assert FinishedWith(ids, orders, finish) == FinishedWith(prefix, orders, finish) + [finish(orders[ids[n]])];
    if i < n {
      FinishedWithAt(prefix, orders, finish, i);
    }
  }

  /** Each finished order is the finished form of the order listed there. */
  lemma FinishedOrdersAt(ids: seq<string>, orders: map<string, OrderAgg>, i: int)
    requires forall k :: k in ids ==> k in orders
    requires 0 <= i < |ids|
    ensures |FinishedOrders(ids, orders)| == |ids| && FinishedOrders(ids, orders)[i] == Finish(orders[ids[i]])
  {
    FinishedWithAt(ids, orders, Finish, i);
  }

  /** The import of the aggregated orders. */
  method ImportOrders(agg: Aggregation, db: string -> DbResult)
    returns (counts: (nat, nat, nat), finished: seq<FinishedOrder>)
    requires forall k :: k in agg.ids ==> k in agg.orders
    ensures counts == Tally(agg.ids, db)
    ensures finished == FinishedOrders(agg.ids, agg.orders)
  {
    counts, finished := ImportOrdersWith(agg, db, Finish);
  }

  /** The import loop: each order is counted by the database answer for its
    * id and finished by `finish`. */
  method ImportOrdersWith(agg: Aggregation, db: string -> DbResult, finish: OrderAgg -> FinishedOrder)
    returns (counts: (nat, nat, nat), finished: seq<FinishedOrder>)
    requires forall k :: k in agg.ids ==> k in agg.orders
    ensures counts == Tally(agg.ids, db)
    ensures finished == FinishedWith(agg.ids, agg.orders, finish)
  {
    counts := (0, 0, 0);
    finished := [];
    var i := 0;
    while i < |agg.ids|
      invariant 0 <= i <= |agg.ids|
      invariant counts == Tally(agg.ids[..i], db)
      invariant finished == FinishedWith(agg.ids[..i], agg.orders, finish)
    {
      assert agg.ids[..i + 1][..i] == agg.ids[..i];
      var id := agg.ids[i];
      finished := finished + [finish(agg.orders[id])];
      counts := Count(counts, db(id));
      i := i + 1;
    }
    assert agg.ids[..i] == agg.ids;
  }

  /** The Shopify import: fails with zero counts when a required column is
    * missing; otherwise every aggregated order is inserted or updated once. */
  method ParseShopify(columns: set<string>, rows: seq<ShopifyRow>, db: string -> DbResult)
    returns (result: ImportResult, finished: seq<FinishedOrder>)
    ensures !(ShopifyRequired <= columns) ==> result == ImportResult(false, 0, 0, 0, 0) && finished == []
    ensures ShopifyRequired <= columns ==>
      var a := Aggregate(rows, OrderIdColumnOf(rows));
      result.success && result.total == |a.ids|
      && (result.newCount, result.updatedCount, result.failedCount) == Tally(a.ids, db)
      && result.newCount + result.updatedCount + result.failedCount == result.total
      && finished == FinishedOrders(a.ids, a.orders)
  {
    if !(ShopifyRequired <= columns) {
      result := ImportResult(false, 0, 0, 0, 0);
      finished := [];
      return;
    }
    var agg := AggregateShopifyRows(rows);
    AggregateIdsDistinct(rows, OrderIdColumnOf(rows));
    var counts;
    counts, finished := ImportOrders(agg, db);
    result := ImportResult(true, |agg.ids|, counts.0, counts.1, counts.2);
  }

  // ---------------------------------------------------------------------------
  // Prozo report
  // ---------------------------------------------------------------------------

  /** A report row: the cell of each column present. */
  type ProzoRow = map<string, Cell>

  /** The columns the order id may come from, in order of preference. */
  const OrderIdColumns: seq<string> := ["channelOrderName", "Channel Order Name", "Reference Number", "Order ID"]

  /** The first candidate column present in the report. */
  function FirstPresent(columns: set<string>, candidates: seq<string>): (r: Option<string>)
    ensures r.Some? ==> r.value in columns
    ensures r.Some? ==> exists i :: (0 <= i < |candidates| && candidates[i] == r.value
      && forall j :: 0 <= j < i ==> candidates[j] !in columns)
    ensures r.None? <==> forall i :: 0 <= i < |candidates| ==> candidates[i] !in columns
  {
    if candidates == [] then None
    else if candidates[0] in columns then Some(candidates[0])
    else
      var r := FirstPresent(columns, candidates[1..]);
      if r.Some? then
        var i :| 0 <= i < |candidates[1..]| && candidates[1..][i] == r.value
          && forall j :: 0 <= j < i ==> candidates[1..][j] !in columns;
        assert candidates[i + 1] == r.value;
        r
      else r
  }

  function CellOf(row: ProzoRow, column: string): Cell
  {
    if column in row then row[column] else None
  }

  /** A shipment record taken from a report row. */
  datatype Shipment = Shipment(awb: string, orderId: Option<string>, statusRaw: Option<string>, status: string)

  function ShipmentOf(row: ProzoRow, awb: string, idColumn: string): (r: Shipment)
    ensures r.awb == awb
  {
    var statusRaw := SafeStr(CellOf(row, "Status"));
    Shipment(awb, NormalizeOrderId(CellOf(row, idColumn)), statusRaw, MapProzoStatus(statusRaw, DeliveryStatusMapping))
  }

  /** The AWB of a report row, stripped; none when the cell is missing or blank. */
  function AwbOf(row: ProzoRow): Option<string>
  {
    SafeStr(CellOf(row, "AWB"))
  }

  /** The AWB column of the report, one entry per row. */
  function AwbColumnOf(rows: seq<ProzoRow>): (awbs: seq<Option<string>>)
    ensures |awbs| == |rows| && forall i :: 0 <= i < |rows| ==> awbs[i] == AwbOf(rows[i])
  {
    seq(|rows|, i requires 0 <= i < |rows| => AwbOf(rows[i]))
  }

  /** One report row, by its AWB, against the AWBs stored so far: a row without
    * an AWB, or whose statements raise, is failed; an AWB already stored is
    * updated; any other is inserted as new and is stored from then on. The
    * lookup runs on the connection that wrote the earlier rows, so "stored"
    * includes the AWBs this report has already inserted. */
  function ProzoStep(c: (nat, nat, nat), stored: set<string>, awb: Option<string>, raises: bool): (r: ((nat, nat, nat), set<string>))
    ensures r.0.0 + r.0.1 + r.0.2 == c.0 + c.1 + c.2 + 1
    ensures stored <= r.1
  {
    if awb.None? || raises then (Count(c, DbError), stored)
    else if awb.value in stored then (Count(c, Exists), stored)
    else (Count(c, Missing), stored + {awb.value})
  }

  /** The counters (new, updated, failed) and the stored AWBs after the rows
    * with the given AWBs, starting from the AWBs stored before the import;
    * `raises[i]` says whether the statements for row `i` raise. */
  function ProzoOutcome(awbs: seq<Option<string>>, stored: set<string>, raises: seq<bool>): (r: ((nat, nat, nat), set<string>))
    requires |raises| == |awbs|
    ensures r.0.0 + r.0.1 + r.0.2 == |awbs|
    ensures stored <= r.1
    decreases |awbs|
  {
    if awbs == [] then ((0, 0, 0), stored)
    else
      var n := |awbs| - 1;
      var before := ProzoOutcome(awbs[..n], stored, raises[..n]);
      ProzoStep(before.0, before.1, awbs[n], raises[n])
  }

  /** The distinct AWBs present. */
  function Awbs(awbs: seq<Option<string>>): set<string>
  {
    set i | 0 <= i < |awbs| && awbs[i].Some? :: awbs[i].value
  }

  lemma AwbsSnoc(awbs: seq<Option<string>>)
    requires awbs != []
    ensures Awbs(awbs) == Awbs(awbs[..|awbs| - 1]) + if awbs[|awbs| - 1].Some? then {awbs[|awbs| - 1].value} else {}
  {
    var n := |awbs| - 1;
    var pre := awbs[..n];
    forall k | k in Awbs(awbs)
      ensures k in Awbs(pre) + if awbs[n].Some? then {awbs[n].value} else {}
    {
      var i :| 0 <= i < |awbs| && awbs[i].Some? && awbs[i].value == k;
      if i < n { assert pre[i] == awbs[i]; }
    }
    forall k | k in Awbs(pre) ensures k in Awbs(awbs) {
      var i :| 0 <= i < |pre| && pre[i].Some? && pre[i].value == k;
      assert awbs[i] == pre[i];
    }
  }

  /** The number of rows without an AWB. */
  function RowsWithoutAwb(awbs: seq<Option<string>>): (n: nat)
    ensures n <= |awbs|
    decreases |awbs|
  {
    if awbs == [] then 0 else RowsWithoutAwb(awbs[..|awbs| - 1]) + if awbs[|awbs| - 1].None? then 1 else 0
  }

  /** The number of rows that fail: those without an AWB and those whose
    * statements raise. */
  function FailedRows(awbs: seq<Option<string>>, raises: seq<bool>): (n: nat)
    requires |raises| == |awbs|
    ensures n <= |awbs|
    decreases |awbs|
  {
    if awbs == [] then 0
    else
      var n := |awbs| - 1;
      FailedRows(awbs[..n], raises[..n]) + if awbs[n].None? || raises[n] then 1 else 0
  }

  /** The failed counter counts exactly the failing rows, errors included. */
  lemma {:induction false} ProzoFailedCount(awbs: seq<Option<string>>, stored: set<string>, raises: seq<bool>)
    requires |raises| == |awbs|
    ensures ProzoOutcome(awbs, stored, raises).0.2 == FailedRows(awbs, raises)
    decreases |awbs|
  {
    if awbs != [] {
      var n := |awbs| - 1;
      ProzoFailedCount(awbs[..n], stored, raises[..n]);
      var before := ProzoOutcome(awbs[..n], stored, raises[..n]);
      assert ProzoOutcome(awbs, stored, raises) == ProzoStep(before.0, before.1, awbs[n], raises[n]);
    }
  }

  lemma FreshAwbCount(awb: string, stored: set<string>, earlier: set<string>)
    ensures |(earlier + {awb}) - stored| == |earlier - stored| + (if awb in stored + earlier then 0 else 1)
  {
    var newAwbs := earlier - stored;
    if awb in stored + earlier {
      assert (earlier + {awb}) - stored == newAwbs;
    } else {
      assert (earlier + {awb}) - stored == newAwbs + {awb};
      assert awb !in newAwbs;
    }
  }

  /** When no statement raises, every AWB of the report ends up stored, the new
    * records are exactly the distinct AWBs not stored before the import, and
    * the failed records are exactly the rows without an AWB; every other row
    * with an AWB is an update. */
  lemma {:induction false} ProzoWithoutErrors(awbs: seq<Option<string>>, stored: set<string>, raises: seq<bool>)
    requires |raises| == |awbs|
    requires forall i :: 0 <= i < |raises| ==> !raises[i]
    ensures ProzoOutcome(awbs, stored, raises).1 == stored + Awbs(awbs)
    ensures ProzoOutcome(awbs, stored, raises).0.0 == |Awbs(awbs) - stored|
    ensures ProzoOutcome(awbs, stored, raises).0.2 == RowsWithoutAwb(awbs)
    decreases |awbs|
  {
    if awbs == [] {
      assert Awbs(awbs) == {};
    } else {
      var n := |awbs| - 1;
      var pre := awbs[..n];
      assert forall i :: 0 <= i < |raises[..n]| ==> raises[..n][i] == raises[i];
      ProzoWithoutErrors(pre, stored, raises[..n]);
      AwbsSnoc(awbs);
      var before := ProzoOutcome(pre, stored, raises[..n]);
      assert ProzoOutcome(awbs, stored, raises) == ProzoStep(before.0, before.1, awbs[n], false);
      if awbs[n].Some? {
        FreshAwbCount(awbs[n].value, stored, Awbs(pre));
      }
    }
  }

  /** Two rows of one report with the same AWB, new to the table, count one new
    * record and one update. */
  lemma RepeatedAwbIsNewThenUpdated(awb: string, stored: set<string>)
    requires awb !in stored
    ensures ProzoOutcome([Some(awb), Some(awb)], stored, [false, false]).0 == (1, 1, 0)
  {
    assert [Some(awb), Some(awb)][..1] == [Some(awb)];
    assert [Some(awb)][..0] == [];
    assert [false, false][..1] == [false];
    assert [false][..0] == [];
    assert ProzoOutcome([Some(awb)][..0], stored, [false][..0]) == ((0, 0, 0), stored);
    var afterFirst := ProzoOutcome([Some(awb)], stored, [false]);
    assert afterFirst == ProzoStep((0, 0, 0), stored, Some(awb), false) == ((1, 0, 0), stored + {awb});
    assert ProzoOutcome([Some(awb), Some(awb)], stored, [false, false])
      == ProzoStep(afterFirst.0, afterFirst.1, Some(awb), false);
  }

  /** The shipment records built by `ship` for the report rows: one per row
    * with an AWB, in row order. */
  function ShipmentsWith(rows: seq<ProzoRow>, idColumn: string, ship: (ProzoRow, string, string) -> Shipment): (r: seq<Shipment>)
    ensures |r| <= |rows|
    decreases |rows|
  {
    if rows == [] then []
    else
      var n := |rows| - 1;
      var awb := AwbOf(rows[n]);
      ShipmentsWith(rows[..n], idColumn, ship) + if awb.Some? then [ship(rows[n], awb.value, idColumn)] else []
  }

  /** The shipment records written for the report rows. */
  function Shipments(rows: seq<ProzoRow>, idColumn: string): seq<Shipment>
  {
    ShipmentsWith(rows, idColumn, ShipmentOf)
  }

  lemma {:induction false} ShipmentsWithAwb(rows: seq<ProzoRow>, idColumn: string, ship: (ProzoRow, string, string) -> Shipment)
    requires forall row, awb, c :: ship(row, awb, c).awb == awb
    ensures forall k :: 0 <= k < |ShipmentsWith(rows, idColumn, ship)| ==> ShipmentsWith(rows, idColumn, ship)[k].awb != []
    decreases |rows|
  {
    if rows != [] {
      var n := |rows| - 1;
      ShipmentsWithAwb(rows[..n], idColumn, ship);
    }
  }

  /** Every shipment record carries a non-empty AWB. */
  lemma ShipmentsHaveAwb(rows: seq<ProzoRow>, idColumn: string)
    ensures forall k :: 0 <= k < |Shipments(rows, idColumn)| ==> Shipments(rows, idColumn)[k].awb != []
  {
    ShipmentsWithAwb(rows, idColumn, ShipmentOf);
  }

  /** A row without an AWB is always counted as failed and stores nothing. */
  lemma MissingAwbFails(awbs: seq<Option<string>>, stored: set<string>, raises: seq<bool>)
    requires |raises| == |awbs|
    requires awbs != [] && awbs[|awbs| - 1].None?
    ensures var n := |awbs| - 1;
      ProzoOutcome(awbs, stored, raises).0.2 == ProzoOutcome(awbs[..n], stored, raises[..n]).0.2 + 1
      && ProzoOutcome(awbs, stored, raises).1 == ProzoOutcome(awbs[..n], stored, raises[..n]).1
  {
  }

  /** The row import of the Prozo report. */
  method ImportShipments(rows: seq<ProzoRow>, idColumn: string, stored: set<string>, raises: seq<bool>)
    returns (counts: (nat, nat, nat), storedAfter: set<string>, shipments: seq<Shipment>)
    requires |raises| == |rows|
    ensures (counts, storedAfter) == ProzoOutcome(AwbColumnOf(rows), stored, raises)
    ensures shipments == Shipments(rows, idColumn)
  {
    counts, storedAfter, shipments := ImportShipmentsWith(rows, idColumn, stored, raises, ShipmentOf);
  }

  /** The row loop: every row is counted against the AWBs stored so far, which
    * grow with each insert, and a row with an AWB also yields the record
    * `ship` builds. */
  method ImportShipmentsWith(rows: seq<ProzoRow>, idColumn: string, stored: set<string>, raises: seq<bool>,
                             ship: (ProzoRow, string, string) -> Shipment)
    returns (counts: (nat, nat, nat), storedAfter: set<string>, shipments: seq<Shipment>)
    requires |raises| == |rows|
    ensures (counts, storedAfter) == ProzoOutcome(AwbColumnOf(rows), stored, raises)
    ensures shipments == ShipmentsWith(rows, idColumn, ship)
  {
    var awbs := AwbColumnOf(rows);
    counts := (0, 0, 0);
    storedAfter := stored;
    shipments := [];
    var i := 0;
    while i < |rows|
      invariant 0 <= i <= |rows|
      invariant (counts, storedAfter) == ProzoOutcome(awbs[..i], stored, raises[..i])
      invariant shipments == ShipmentsWith(rows[..i], idColumn, ship)
    {
      assert rows[..i + 1][..i] == rows[..i];
      assert awbs[..i + 1][..i] == awbs[..i];
      assert raises[..i + 1][..i] == raises[..i];
      var awb := awbs[i];
      if awb.None? {
        counts := Count(counts, DbError);
        i := i + 1;
        continue;
      }
      shipments := shipments + [ship(rows[i], awb.value, idColumn)];
      if raises[i] {
        counts := Count(counts, DbError);
      } else if awb.value in storedAfter {
        counts := Count(counts, Exists);
      } else {
        counts := Count(counts, Missing);
        storedAfter := storedAfter + {awb.value};
      }
      i := i + 1;
    }
    assert rows[..i] == rows;
    assert awbs[..i] == awbs;
    assert raises[..i] == raises;
  }

  /** The Prozo import: fails with zero counts, storing nothing, without AWB,
    * Status or an order id column; otherwise every row is counted once. */
  method ParseProzo(columns: set<string>, rows: seq<ProzoRow>, stored: set<string>, raises: seq<bool>)
    returns (result: ImportResult, storedAfter: set<string>, shipments: seq<Shipment>)
    requires |raises| == |rows|
    ensures "AWB" !in columns || "Status" !in columns || FirstPresent(columns, OrderIdColumns).None? ==>
      result == ImportResult(false, 0, 0, 0, 0) && storedAfter == stored && shipments == []
    ensures "AWB" in columns && "Status" in columns && FirstPresent(columns, OrderIdColumns).Some? ==>
      result.success && result.total == |rows|
      && ((result.newCount, result.updatedCount, result.failedCount), storedAfter) == ProzoOutcome(AwbColumnOf(rows), stored, raises)
      && result.newCount + result.updatedCount + result.failedCount == |rows|
      && shipments == Shipments(rows, FirstPresent(columns, OrderIdColumns).value)
  {
    var idColumn := FirstPresent(columns, OrderIdColumns);
    if "AWB" !in columns || "Status" !in columns || idColumn.None? {
      result := ImportResult(false, 0, 0, 0, 0);
      storedAfter := stored;
      shipments := [];
      return;
    }
    var counts;
    counts, storedAfter, shipments := ImportShipments(rows, idColumn.value, stored, raises);
    result := ImportResult(true, |rows|, counts.0, counts.1, counts.2);
  }
}
