/** The seller's order list (src/pages/SellerOrders.tsx): the search and
    status filter, the status colours, and the status-update buttons of the
    detail view. The page's own order record is `SellerOrder`. */
module SellerOrders {
  import opened Types
  import Seqs
  import Text

  /** The page's order record: one product line per order. */
  datatype SellerOrder = SellerOrder(
    id: string,
    customerName: string,
    customerEmail: string,
    customerPhone: string,
    productName: string,
    productImage: string,
    quantity: int,
    amount: real,
    status: OrderStatus,
    date: string,
    address: string,
    paymentMethod: string)

  /** The lower-cased query occurs in the lower-cased customer name, product
      name or order id. */
  predicate MatchesSearch(o: SellerOrder, query: string) {
    var q := Text.ToLower(query);
    || Text.Contains(Text.ToLower(o.customerName), q)
    || Text.Contains(Text.ToLower(o.productName), q)
    || Text.Contains(Text.ToLower(o.id), q)
  }

  /** The status drop-down: "all" or a status name. */
  predicate MatchesStatus(o: SellerOrder, statusFilter: string) {
    statusFilter == "all" || StatusName(o.status) == statusFilter
  }

  /** The `filteredOrders` callback. */
  function Listed(query: string, statusFilter: string): SellerOrder -> bool {
    (o: SellerOrder) => MatchesSearch(o, query) && MatchesStatus(o, statusFilter)
  }

  function FilteredOrders(orders: seq<SellerOrder>, query: string, statusFilter: string): seq<SellerOrder> {
    Seqs.Filter(orders, Listed(query, statusFilter))
  }

  /** An order is listed exactly when it matches the search and the status
      filter; the list keeps the original order. */
  lemma FilteredOrdersSpec(orders: seq<SellerOrder>, query: string, statusFilter: string, o: SellerOrder)
    ensures o in FilteredOrders(orders, query, statusFilter) <==>
      && o in orders
      && (|| Text.Contains(Text.ToLower(o.customerName), Text.ToLower(query))
          || Text.Contains(Text.ToLower(o.productName), Text.ToLower(query))
          || Text.Contains(Text.ToLower(o.id), Text.ToLower(query)))
      && (statusFilter == "all" || StatusName(o.status) == statusFilter)
    ensures multiset(FilteredOrders(orders, query, statusFilter))[o] ==
      if Listed(query, statusFilter)(o) then multiset(orders)[o] else 0
    ensures Seqs.IsSubsequence(FilteredOrders(orders, query, statusFilter), orders)
  {
    Seqs.FilterMembership(orders, Listed(query, statusFilter), o);
    Seqs.FilterCount(orders, Listed(query, statusFilter), o);
    Seqs.FilterIsSubsequence(orders, Listed(query, statusFilter));
  }

  /** An empty search with "all" lists every order. */
  lemma EmptySearchListsAll(orders: seq<SellerOrder>)
    ensures FilteredOrders(orders, "", "all") == orders
  {
    forall i | 0 <= i < |orders| ensures Listed("", "all")(orders[i]) {
      Text.ContainsEmpty(Text.ToLower(orders[i].customerName));
    }
    Seqs.FilterAll(orders, Listed("", "all"));
  }

  /** The search ignores the case of the query. */
  lemma SearchIgnoresQueryCase(orders: seq<SellerOrder>, query: string, statusFilter: string)
    ensures FilteredOrders(orders, Text.ToLower(query), statusFilter) == FilteredOrders(orders, query, statusFilter)
  {
    Text.ToLowerIsLower(query);
    Seqs.FilterExtensional(orders, Listed(Text.ToLower(query), statusFilter), Listed(query, statusFilter));
  }

  /** Choosing a status in the drop-down shows exactly the listed orders in that status. */
  lemma StatusFilterSelectsStatus(orders: seq<SellerOrder>, query: string, st: OrderStatus, o: SellerOrder)
    ensures o in FilteredOrders(orders, query, StatusName(st)) <==>
      o in FilteredOrders(orders, query, "all") && o.status == st
  {
    FilteredOrdersSpec(orders, query, StatusName(st), o);
    FilteredOrdersSpec(orders, query, "all", o);
    if StatusName(o.status) == StatusName(st) {
      StatusNameInjective(o.status, st);
    }
  }

  // ---------------------------------------------------------------- colours

  const DefaultStatusColor := "bg-gray-100 text-gray-800"

  /** `getStatusColor`. */
  function StatusColor(status: string): string {
    if status == "pending" then "bg-yellow-100 text-yellow-800"
    else if status == "confirmed" then "bg-blue-100 text-blue-800"
    else if status == "shipped" then "bg-purple-100 text-purple-800"
    else if status == "delivered" then "bg-green-100 text-green-800"
    else if status == "cancelled" then "bg-red-100 text-red-800"
    else DefaultStatusColor
  }

  /** No status is shown in the default colour. */
  lemma StatusColorNotDefault(a: OrderStatus)
    ensures StatusColor(StatusName(a)) != DefaultStatusColor
  {
  }

  /** Every status has its own colour. */
  lemma StatusColorsDistinct(a: OrderStatus, b: OrderStatus)
    ensures a != b ==> StatusColor(StatusName(a)) != StatusColor(StatusName(b))
  {
  }

  /** A string that names no status gets the default colour. */
  lemma UnknownStatusColor(other: string)
    ensures (forall s: OrderStatus :: StatusName(s) != other) ==> StatusColor(other) == DefaultStatusColor
  {
    if forall s: OrderStatus :: StatusName(s) != other {
      assert StatusName(Pending) != other && StatusName(Confirmed) != other;
      assert StatusName(Shipped) != other && StatusName(Delivered) != other;
      assert StatusName(Cancelled) != other;
    }
  }

  // ---------------------------------------------------------------- status updates

  predicate IsTerminal(s: OrderStatus) {
    s == Delivered || s == Cancelled
  }

  /** The "Update Status" buttons of the detail view, left to right. */
  function UpdateButtons(s: OrderStatus): seq<OrderStatus> {
    if IsTerminal(s) then []
    else
      (if s == Pending then [Confirmed] else [])
      + (if s == Confirmed then [Shipped] else [])
      + (if s == Shipped then [Delivered] else [])
      + [Cancelled]
  }

  /** Position along the fulfilment path; cancellation sits past the end. */
  function Stage(s: OrderStatus): nat {
    match s
    case Pending => 0
    case Confirmed => 1
    case Shipped => 2
    case Delivered => 3
    case Cancelled => 4
  }

  /** The offered moves: none from delivered or cancelled; otherwise cancel,
      plus exactly the next step of pending → confirmed → shipped → delivered.
      Every offered move goes strictly forward, so no status comes back. */
  lemma UpdateButtonsSpec(s: OrderStatus, t: OrderStatus)
    ensures UpdateButtons(s) == [] <==> IsTerminal(s)
    ensures t in UpdateButtons(s) <==>
      !IsTerminal(s) && (t == Cancelled || Stage(t) == Stage(s) + 1)
    ensures t in UpdateButtons(s) ==> Stage(t) > Stage(s)
  {
  }

  /** A chain of status updates, each one offered by the buttons. */
  predicate OfferedChain(chain: seq<OrderStatus>) {
    forall i :: 0 <= i < |chain| - 1 ==> chain[i + 1] in UpdateButtons(chain[i])
  }

  /** Stages strictly rise along an offered chain, so it has at most five
      statuses and never repeats one. */
  lemma {:induction false} OfferedChainRises(chain: seq<OrderStatus>)
    requires OfferedChain(chain) && chain != []
    ensures Stage(chain[|chain| - 1]) >= Stage(chain[0]) + |chain| - 1
    ensures |chain| <= 5
  {
    if |chain| > 1 {
      var tail := chain[1..];
      assert OfferedChain(tail) by {
        forall i | 0 <= i < |tail| - 1 ensures tail[i + 1] in UpdateButtons(tail[i]) {
          assert tail[i] == chain[i + 1] && tail[i + 1] == chain[i + 2];
        }
      }
      OfferedChainRises(tail);
      UpdateButtonsSpec(chain[0], chain[1]);
      assert tail[|tail| - 1] == chain[|chain| - 1];
    }
  }

  /** The page's state besides the (fixed) order list. */
  datatype OrdersView = OrdersView(searchQuery: string, statusFilter: string, selectedOrder: Option<SellerOrder>)

  /** `updateOrderStatus`: past its log line, closes the detail view. The order list is not
      part of the view and is not an input, so no order changes. */
  function UpdateOrderStatus(v: OrdersView, orderId: string, newStatus: OrderStatus): (r: OrdersView)
    ensures r.selectedOrder.None?
    ensures r.searchQuery == v.searchQuery && r.statusFilter == v.statusFilter
  {
    v.(selectedOrder := None)
  }
}
