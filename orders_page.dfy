/** The superadmin orders page: the search filter, the page slice, the list of
    distinct sellers shown for each order, the displayed amount and status
    colours, and the state behind the status dialog, the table paging and the
    auto-cancellation button.

    The routed page and the earlier grid version share the status-dialog and
    auto-cancellation handlers word for word; one class models both, and the
    earlier version's own colour rule is `LegacyStatusChip`. */
module OrdersPage {
  import opened Js
  import opened Strings

  datatype OrderItem = OrderItem(
    productCreatedBy: Option<string>,
    productCreatedByName: Option<string>,
    productCreatedByRole: Option<string>)

  /** The fields of an order the page reads; `deliveryName` and `phone` are
      `deliveryAddress.name` and `deliveryAddress.phone`, `pricingTotal` is `pricing.total`. */
  datatype Order = Order(
    orderId: Option<string>,
    status: Option<string>,
    deliveryName: Option<string>,
    phone: Option<string>,
    items: Option<seq<OrderItem>>,
    pricingTotal: Option<int>,
    total: Option<int>)

  // ---------------------------------------------------------------------------
  // Search and paging

  /** `s?.toLowerCase().includes(q.toLowerCase())`: a missing field never matches. */
  predicate FieldMatches(field: Option<string>, query: string) {
    field.Some? && Includes(Lower(field.value), Lower(query))
  }

  /** The search rule: order id or delivery name, ignoring case, or the phone number verbatim. */
  predicate Matches(o: Order, query: string) {
    FieldMatches(o.orderId, query)
    || FieldMatches(o.deliveryName, query)
    || (o.phone.Some? && Includes(o.phone.value, query))
  }

  /** `filteredOrders`: the matching orders, in fetched order. */
  function FilterOrders(orders: seq<Order>, query: string): (r: seq<Order>)
    ensures Subsequence(r, orders)
    ensures forall i :: 0 <= i < |r| ==> Matches(r[i], query)
    ensures forall i :: 0 <= i < |orders| && Matches(orders[i], query) ==> orders[i] in r
  {
    Filter(orders, (o: Order) => Matches(o, query))
  }

  /** The query is case-insensitive for the id and the name. */
  lemma QueryCaseIgnored(o: Order, query: string)
    requires o.phone.None?
    ensures Matches(o, query) <==> Matches(o, Lower(query))
  {
    assert Lower(Lower(query)) == Lower(query);
  }

  /** An order lacking id, name and phone is never listed, not even for an empty query. */
  lemma BareOrderNeverListed(orders: seq<Order>, query: string, i: nat)
    requires i < |orders|
    requires orders[i].orderId.None? && orders[i].deliveryName.None? && orders[i].phone.None?
    ensures orders[i] !in FilterOrders(orders, query)
  {
  }

  /** The empty query keeps every order that has at least one of the three fields. */
  lemma EmptyQueryKeepsOrdersWithAField(orders: seq<Order>, i: nat)
    requires i < |orders|
    requires orders[i].orderId.Some? || orders[i].deliveryName.Some? || orders[i].phone.Some?
    ensures orders[i] in FilterOrders(orders, "")
  {
    assert StartsWith(Lower(""), Lower("")) && StartsWith("", "");
    var o := orders[i];
    if o.orderId.Some? {
      assert StartsWith(Lower(o.orderId.value), Lower(""));
    } else if o.deliveryName.Some? {
      assert StartsWith(Lower(o.deliveryName.value), Lower(""));
    } else {
      assert StartsWith(o.phone.value, "");
    }
  }

  /** `paginatedOrders`: the slice `[page*rowsPerPage, page*rowsPerPage + rowsPerPage)`. */
  function PageOf(filtered: seq<Order>, page: nat, rowsPerPage: nat): (r: seq<Order>)
    ensures |r| <= rowsPerPage
    ensures forall k :: 0 <= k < |r| ==> page * rowsPerPage + k < |filtered| && r[k] == filtered[page * rowsPerPage + k]
    ensures page * rowsPerPage + rowsPerPage <= |filtered| ==> |r| == rowsPerPage
  {
    Slice(filtered, page * rowsPerPage, page * rowsPerPage + rowsPerPage)
  }

  /** Every filtered order is on exactly one page: order `i` is row `i % rowsPerPage` of page `i / rowsPerPage`. */
  lemma EveryOrderOnItsPage(filtered: seq<Order>, rowsPerPage: nat, i: nat)
    requires rowsPerPage > 0 && i < |filtered|
    ensures i % rowsPerPage < |PageOf(filtered, i / rowsPerPage, rowsPerPage)|
    ensures PageOf(filtered, i / rowsPerPage, rowsPerPage)[i % rowsPerPage] == filtered[i]
  {
    var p, k := i / rowsPerPage, i % rowsPerPage;
    assert p * rowsPerPage + k == i;
    var r := PageOf(filtered, p, rowsPerPage);
    assert |r| == Min(p * rowsPerPage + rowsPerPage, |filtered|) - p * rowsPerPage;
  }

  /** The search box does not reset the page: a page past the end of a shorter filtered list is empty. */
  lemma PagePastTheEndIsEmpty(filtered: seq<Order>, page: nat, rowsPerPage: nat)
    requires |filtered| <= page * rowsPerPage
    ensures PageOf(filtered, page, rowsPerPage) == []
  {
  }

  // ---------------------------------------------------------------------------
  // Sellers of an order

  datatype Seller = Seller(id: string, name: string, role: string)

  /** The seller an item contributes: name defaults to 'Unknown', role to 'admin'. */
  function SellerOf(item: OrderItem): (s: Seller)
    requires Truthy(item.productCreatedBy)
    ensures s.id == item.productCreatedBy.value && s.name != "" && s.role != ""
  {
    Seller(item.productCreatedBy.value, OrElse(item.productCreatedByName, "Unknown"),
           OrElse(item.productCreatedByRole, "admin"))
  }

  predicate HasId(acc: seq<Seller>, id: string) {
    exists k :: 0 <= k < |acc| && acc[k].id == id
  }

  /** One step of the reduce: push the item's seller unless it has no creator or is already listed. */
  function AddSeller(acc: seq<Seller>, item: OrderItem): seq<Seller> {
    if Truthy(item.productCreatedBy) && !HasId(acc, item.productCreatedBy.value)
    then acc + [SellerOf(item)]
    else acc
  }

  /** `items.reduce(AddSeller, [])`. */
  function SellersOf(items: seq<OrderItem>): seq<Seller>
    decreases |items|
  {
    if items == [] then [] else AddSeller(SellersOf(items[..|items| - 1]), items[|items| - 1])
  }

  /** The index of the first item created by `id` (`|items|` when there is none). */
  function FirstIndexOf(items: seq<OrderItem>, id: string): (r: nat)
    ensures r <= |items|
    ensures r < |items| ==> items[r].productCreatedBy == Some(id)
    ensures forall j :: 0 <= j < r ==> items[j].productCreatedBy != Some(id)
  {
    if items == [] then 0
    else if items[0].productCreatedBy == Some(id) then 0
    else 1 + FirstIndexOf(items[1..], id)
  }

  /** The first creator of `id` in a prefix is its first creator in the whole list. */
  lemma FirstIndexInPrefix(items: seq<OrderItem>, n: nat, id: string)
    requires n <= |items| && FirstIndexOf(items[..n], id) < n
    ensures FirstIndexOf(items, id) == FirstIndexOf(items[..n], id)
  {
    var a := FirstIndexOf(items[..n], id);
    assert items[a] == items[..n][a];
  }

  predicate UniqueIds(r: seq<Seller>) {
    forall k, l :: 0 <= k < l < |r| ==> r[k].id != r[l].id
  }

  /** Each listed seller is built from the first item its creator appears on. */
  predicate FromFirstItems(items: seq<OrderItem>, r: seq<Seller>) {
    forall k :: 0 <= k < |r| ==>
      FirstIndexOf(items, r[k].id) < |items| && r[k].id != ""
      && r[k] == SellerOf(items[FirstIndexOf(items, r[k].id)])
  }

  /** Every item with a creator has its creator listed. */
  predicate CoversCreators(items: seq<OrderItem>, r: seq<Seller>) {
    forall j :: 0 <= j < |items| && Truthy(items[j].productCreatedBy) ==> HasId(r, items[j].productCreatedBy.value)
  }

  predicate InFirstOccurrenceOrder(items: seq<OrderItem>, r: seq<Seller>) {
    forall k, l :: 0 <= k < l < |r| ==> FirstIndexOf(items, r[k].id) < FirstIndexOf(items, r[l].id)
  }

  /** Listed ids are never repeated. */
  lemma {:induction false} SellersUnique(items: seq<OrderItem>)
    ensures UniqueIds(SellersOf(items))
    decreases |items|
  {
    if items != [] {
      var p := items[..|items| - 1];
      SellersUnique(p);
    }
  }

  /** Every creator that appears on an item is listed. */
  lemma {:induction false} SellersCover(items: seq<OrderItem>)
    ensures CoversCreators(items, SellersOf(items))
    decreases |items|
  {
    if items != [] {
      var n := |items|;
      var p, it := items[..n - 1], items[n - 1];
      SellersCover(p);
      var acc, r := SellersOf(p), SellersOf(items);
      forall j | 0 <= j < n && Truthy(items[j].productCreatedBy)
        ensures HasId(r, items[j].productCreatedBy.value)
      {
        var id := items[j].productCreatedBy.value;
        if j < n - 1 {
          assert p[j] == items[j];
          var k :| 0 <= k < |acc| && acc[k].id == id;
          assert r[k] == acc[k];
        } else if !HasId(acc, id) {
          assert r[|acc|].id == id;
        }
      }
    }
  }

  /** For the sellers already listed from a prefix, appending an item does not move their first item. */
  lemma PrefixKeepsFirstItems(items: seq<OrderItem>)
    requires items != []
    requires FromFirstItems(items[..|items| - 1], SellersOf(items[..|items| - 1]))
    ensures var acc := SellersOf(items[..|items| - 1]);
      forall k :: 0 <= k < |acc| ==> FirstIndexOf(items, acc[k].id) == FirstIndexOf(items[..|items| - 1], acc[k].id)
  {
    var p := items[..|items| - 1];
    var acc := SellersOf(p);
    forall k | 0 <= k < |acc|
      ensures FirstIndexOf(items, acc[k].id) == FirstIndexOf(p, acc[k].id)
    {
      FirstIndexInPrefix(items, |items| - 1, acc[k].id);
    }
  }

  /** A creator pushed by the last item appears on no earlier item. */
  lemma NewSellerFirstAtEnd(items: seq<OrderItem>)
    requires items != []
    requires Truthy(items[|items| - 1].productCreatedBy)
    requires !HasId(SellersOf(items[..|items| - 1]), items[|items| - 1].productCreatedBy.value)
    ensures FirstIndexOf(items, items[|items| - 1].productCreatedBy.value) == |items| - 1
  {
    var n := |items|;
    var p, id := items[..n - 1], items[n - 1].productCreatedBy.value;
    SellersCover(p);
    forall j | 0 <= j < n - 1
      ensures items[j].productCreatedBy != Some(id)
    {
      assert items[j] == p[j];
    }
  }

  /** Each listed seller comes from its creator's first item. */
  lemma {:induction false} SellersFromFirst(items: seq<OrderItem>)
    ensures FromFirstItems(items, SellersOf(items))
    decreases |items|
  {
    if items != [] {
      var n := |items|;
      var p, it := items[..n - 1], items[n - 1];
      SellersFromFirst(p);
      PrefixKeepsFirstItems(items);
      var acc, r := SellersOf(p), SellersOf(items);
      var added := Truthy(it.productCreatedBy) && !HasId(acc, it.productCreatedBy.value);
      if added {
        NewSellerFirstAtEnd(items);
      }
      forall k | 0 <= k < |r|
        ensures FirstIndexOf(items, r[k].id) < |items| && r[k].id != ""
        ensures r[k] == SellerOf(items[FirstIndexOf(items, r[k].id)])
      {
        if k < |acc| {
          assert r[k] == acc[k];
          var f := FirstIndexOf(p, acc[k].id);
          assert items[f] == p[f];
        } else {
          assert added && r[k] == SellerOf(it);
        }
      }
    }
  }

  /** Sellers are listed in the order their creators first appear. */
  lemma {:induction false} SellersOrdered(items: seq<OrderItem>)
    ensures InFirstOccurrenceOrder(items, SellersOf(items))
    decreases |items|
  {
    if items != [] {
      var n := |items|;
      var p, it := items[..n - 1], items[n - 1];
      SellersOrdered(p);
      SellersFromFirst(p);
      PrefixKeepsFirstItems(items);
      var acc, r := SellersOf(p), SellersOf(items);
      var added := Truthy(it.productCreatedBy) && !HasId(acc, it.productCreatedBy.value);
      if added {
        NewSellerFirstAtEnd(items);
      }
      forall k, l | 0 <= k < l < |r|
        ensures FirstIndexOf(items, r[k].id) < FirstIndexOf(items, r[l].id)
      {
        assert r[k] == acc[k];
        if l < |acc| {
          assert r[l] == acc[l];
        } else {
          assert added && r[l] == SellerOf(it);
          assert FirstIndexOf(p, acc[k].id) < |p|;
        }
      }
    }
  }

  /** The seller list: unique ids, one entry per creator found in the items,
      each entry taken from that creator's first item, and entries in the
      order their creators first appear. */
  lemma SellerListProperties(items: seq<OrderItem>)
    ensures UniqueIds(SellersOf(items))
    ensures FromFirstItems(items, SellersOf(items))
    ensures CoversCreators(items, SellersOf(items))
    ensures InFirstOccurrenceOrder(items, SellersOf(items))
  {
    SellersUnique(items);
    SellersFromFirst(items);
    SellersCover(items);
    SellersOrdered(items);
  }

  /** `acc.find(s => s.id === id)`, reporting whether a seller was found. */
  method FindSeller(acc: seq<Seller>, id: string) returns (found: bool)
    ensures found <==> HasId(acc, id)
  {
    var k := 0;
    while k < |acc|
      invariant 0 <= k <= |acc|
      invariant forall m :: 0 <= m < k ==> acc[m].id != id
    {
      if acc[k].id == id {
        return true;
      }
      k := k + 1;
    }
    return false;
  }

  /** The reduce over the items, pushing into the accumulator; a missing item list gives no sellers. */
  method CollectSellers(items: Option<seq<OrderItem>>) returns (sellers: seq<Seller>)
    ensures items.None? ==> sellers == []
    ensures items.Some? ==> sellers == SellersOf(items.value)
  {
    sellers := [];
    if items.None? {
      return;
    }
    var list := items.value;
    var i := 0;
    while i < |list|
      invariant 0 <= i <= |list|
      invariant sellers == SellersOf(list[..i])
    {
      var item := list[i];
      assert list[..i + 1][..i] == list[..i];
      var known := false;
      if Truthy(item.productCreatedBy) {
        known := FindSeller(sellers, item.productCreatedBy.value);
      }
      if Truthy(item.productCreatedBy) && !known {
        sellers := sellers + [SellerOf(item)];
      }
      i := i + 1;
    }
    assert list[..|list|] == list;
  }

  /** The sellers cell: the first two sellers, and `+<n-2> more` when there are more than two. */
  datatype SellerCell = SellerCell(shown: seq<Seller>, more: Option<string>)

  function SellerSummary(sellers: seq<Seller>): (c: SellerCell)
    ensures |c.shown| == Min(2, |sellers|) && c.shown == sellers[..|c.shown|]
    ensures c.more.Some? <==> |sellers| > 2
    ensures |sellers| > 2 ==> exists hidden: nat :: hidden == |sellers| - |c.shown| && c.more == Some("+" + NatToString(hidden) + " more")
  {
    var shown := Slice(sellers, 0, 2);
    assert shown == sellers[..|shown|];
    SellerCell(shown, if |sellers| > 2 then Some("+" + NatToString(|sellers| - 2) + " more") else None)
  }

  /** The "+n more" text determines how many sellers are hidden. */
  lemma MoreTextCountsHidden(a: seq<Seller>, b: seq<Seller>)
    requires |a| > 2 && |b| > 2
    requires SellerSummary(a).more == SellerSummary(b).more
    ensures |a| == |b|
  {
    var ta, tb := NatToString(|a| - 2), NatToString(|b| - 2);
    assert "+" + ta + " more" == "+" + tb + " more";
    assert ta == ("+" + ta + " more")[1..1 + |ta|];
    assert |ta| == |tb|;
    assert tb == ("+" + tb + " more")[1..1 + |tb|];
    NatToStringInjective(|a| - 2, |b| - 2);
  }

  // ---------------------------------------------------------------------------
  // Displayed amount and status colours

  /** `pricing.total || total || 0`. */
  function DisplayedAmount(o: Order): (amount: int)
    ensures o.pricingTotal.Some? && o.pricingTotal.value != 0 ==> amount == o.pricingTotal.value
    ensures amount == 0 <==> OrNum(o.pricingTotal, 0) == 0 && OrNum(o.total, 0) == 0
    ensures amount != 0 ==> Some(amount) == o.pricingTotal || Some(amount) == o.total
  {
    OrNum(o.pricingTotal, OrNum(o.total, 0))
  }

  datatype Colors = Colors(bg: string, text: string)

  /** The statuses the dialog offers, in menu order. */
  const DialogStatuses: seq<string> := ["pending", "confirmed", "processing", "shipped", "delivered", "cancelled"]

  const StatusColors: map<string, Colors> := map[
    "pending" := Colors("#FEF3C7", "#92400E"),
    "confirmed" := Colors("#DBEAFE", "#1E40AF"),
    "processing" := Colors("#E0E7FF", "#3730A3"),
    "shipped" := Colors("#E9D5FF", "#6B21A8"),
    "delivered" := Colors("#D1FAE5", "#065F46"),
    "cancelled" := Colors("#FEE2E2", "#991B1B")]

  const FallbackColors := Colors("#F3F4F6", "#6B7280")

  /** The status chip's colours: the table entry, or grey for any other or missing status. */
  function StatusChipColors(status: Option<string>): (c: Colors)
    ensures status.Some? && status.value in StatusColors ==> c == StatusColors[status.value]
    ensures (status.None? || status.value !in StatusColors) ==> c == FallbackColors
  {
    if status.Some? && status.value in StatusColors then StatusColors[status.value] else FallbackColors
  }

  /** Every status the dialog can set has its own colours, distinct from the fallback and from each other. */
  lemma DialogStatusesColored()
    ensures forall i :: 0 <= i < |DialogStatuses| ==> StatusChipColors(Some(DialogStatuses[i])) != FallbackColors
    ensures forall i, j :: 0 <= i < j < |DialogStatuses| ==>
      StatusChipColors(Some(DialogStatuses[i])).bg != StatusChipColors(Some(DialogStatuses[j])).bg
    ensures StatusColors.Keys == set i | 0 <= i < |DialogStatuses| :: DialogStatuses[i]
  {
    var keys := set i | 0 <= i < |DialogStatuses| :: DialogStatuses[i];
    assert keys == {"pending", "confirmed", "processing", "shipped", "delivered", "cancelled"} by {
      assert DialogStatuses[0] in keys && DialogStatuses[1] in keys && DialogStatuses[2] in keys;
      assert DialogStatuses[3] in keys && DialogStatuses[4] in keys && DialogStatuses[5] in keys;
    }
  }

  const LegacyColors: map<string, string> := map[
    "pending" := "#ff9800", "confirmed" := "#2196f3", "processing" := "#2196f3",
    "shipped" := "#9c27b0", "delivered" := "#4caf50", "cancelled" := "#f44336"]

  datatype Chip = Chip(caption: string, color: string)

  /** The earlier grid's status chip: caption `value || 'pending'`, colour `statusColors[value] || '#666'`. */
  function LegacyStatusChip(value: Option<string>): (c: Chip)
    ensures Truthy(value) ==> c.caption == value.value
    ensures !Truthy(value) ==> c.caption == "pending"
    ensures value.Some? && value.value in LegacyColors ==> c.color == LegacyColors[value.value]
    ensures (value.None? || value.value !in LegacyColors) ==> c.color == "#666"
  {
    Chip(OrElse(value, "pending"),
         if value.Some? && value.value in LegacyColors then LegacyColors[value.value] else "#666")
  }

  /** The caption falls back to 'pending' but the colour lookup uses the raw value:
      an order without a status reads "pending" in grey, not in the pending orange. */
  lemma MissingStatusReadsPendingInGrey()
    ensures LegacyStatusChip(None) == Chip("pending", "#666")
    ensures LegacyStatusChip(None).color != LegacyStatusChip(Some("pending")).color
  {
  }

  // ---------------------------------------------------------------------------
  // Page state

  datatype StatusUpdate = StatusUpdate(orderId: Option<string>, status: string)

  /** What the backend reports for an auto-cancellation run. */
  datatype CancelReport = CancelReport(success: Option<bool>, message: Option<string>, cancelled: Option<int>)

  /** The banner shown after the button: the backend's report, or a local failure. */
  datatype CancelBanner = Reported(report: CancelReport) | Failed(success: bool, message: string)

  /** Rows-per-page choices of the table pager. */
  const RowsPerPageOptions: seq<nat> := [5, 10, 25, 50]

  class OrdersPageState {
    var orders: seq<Order>
    var loading: bool
    var error: Option<string>
    var searchQuery: string
    var page: nat
    var rowsPerPage: nat
    var selected: Option<Order>
    var detailDialogOpen: bool
    var statusDialogOpen: bool
    var newStatus: string
    var autoCancelLoading: bool
    var autoCancelResult: Option<CancelBanner>

    constructor ()
      ensures orders == [] && !loading && error.None? && searchQuery == ""
      ensures page == 0 && rowsPerPage == 10
      ensures selected.None? && !detailDialogOpen && !statusDialogOpen && newStatus == ""
      ensures !autoCancelLoading && autoCancelResult.None?
    {
      orders, loading, error, searchQuery := [], false, None, "";
      page, rowsPerPage := 0, 10;
      selected, detailDialogOpen, statusDialogOpen, newStatus := None, false, false, "";
      autoCancelLoading, autoCancelResult := false, None;
    }

    /** The rows on screen. */
    function Visible(): (r: seq<Order>)
      reads this
      ensures |r| <= rowsPerPage
      ensures forall k :: 0 <= k < |r| ==>
        page * rowsPerPage + k < |FilterOrders(orders, searchQuery)|
        && r[k] == FilterOrders(orders, searchQuery)[page * rowsPerPage + k]
      ensures forall k :: 0 <= k < |r| ==> Matches(r[k], searchQuery) && r[k] in orders
    {
      var filtered := FilterOrders(orders, searchQuery);
      var r := PageOf(filtered, page, rowsPerPage);
      assert forall k :: 0 <= k < |r| ==> r[k] in filtered;
      r
    }

    /** `fetchAllOrders`: `response.orders || []` on success, `err.message || 'Failed to load orders'` on failure. */
    method FetchAllOrders(response: Result<Option<seq<Order>>, Option<string>>)
      modifies this`orders, this`loading, this`error
      ensures !loading
      ensures response.Ok? ==> error.None? && orders == (if response.value.Some? then response.value.value else [])
      ensures response.Err? ==> error == Some(OrElse(response.error, "Failed to load orders")) && orders == old(orders)
    {
      loading := true;
      error := None;
      if response.Ok? {
        orders := if response.value.Some? then response.value.value else [];
      } else {
        error := Some(OrElse(response.error, "Failed to load orders"));
      }
      loading := false;
    }

    method ChangeSearch(query: string)
      modifies this`searchQuery
      ensures searchQuery == query
    {
      searchQuery := query;
    }

    method ChangePage(newPage: nat)
      modifies this`page
      ensures page == newPage
    {
      page := newPage;
    }

    /** `handleChangeRowsPerPage`: a new page size sends the table back to its first page. */
    method ChangeRowsPerPage(n: nat)
      requires n in RowsPerPageOptions
      modifies this`rowsPerPage, this`page
      ensures rowsPerPage == n && page == 0
      ensures Visible() == Slice(FilterOrders(orders, searchQuery), 0, n)
    {
      rowsPerPage := n;
      page := 0;
    }

    /** The eye button: select the order and open the details dialog. */
    method ViewDetails(order: Order)
      modifies this`selected, this`detailDialogOpen
      ensures selected == Some(order) && detailDialogOpen
    {
      selected := Some(order);
      detailDialogOpen := true;
    }

    /** The Update button's `disabled`: `!newStatus || newStatus === selectedOrder?.status`. */
    predicate UpdateDisabled()
      reads this
    {
      newStatus == "" || (selected.Some? && selected.value.status == Some(newStatus))
    }

    /** `openStatusDialog(order)`: the new status is preset to the current one,
        so Update stays disabled until a different status is picked. */
    method OpenStatusDialog(order: Order)
      modifies this`selected, this`newStatus, this`statusDialogOpen
      ensures selected == Some(order) && statusDialogOpen
      ensures newStatus == OrElse(order.status, "")
      ensures UpdateDisabled()
    {
      selected := Some(order);
      newStatus := OrElse(order.status, "");
      statusDialogOpen := true;
    }

    /** Picking a value in the New Status select. */
    method ChooseStatus(status: string)
      modifies this`newStatus
      ensures newStatus == status
      ensures !UpdateDisabled() <==> status != "" && (selected.None? || selected.value.status != Some(status))
    {
      newStatus := status;
    }

    /** Cancel: close the dialog, keep the selection and the chosen status. */
    method CloseStatusDialog()
      modifies this`statusDialogOpen
      ensures !statusDialogOpen
    {
      statusDialogOpen := false;
    }

    /** `handleStatusUpdate`: nothing is sent without a selected order and a new
        status; a successful update closes the dialog, clears the selection and
        the new status, and asks for a refetch; a failed one changes nothing. */
    method UpdateStatus(succeeded: bool) returns (sent: Option<StatusUpdate>, refetch: bool)
      modifies this`statusDialogOpen, this`selected, this`newStatus
      ensures (old(selected).None? || old(newStatus) == "") ==>
        sent.None? && !refetch && unchanged(this)
      ensures old(selected).Some? && old(newStatus) != "" ==>
        sent == Some(StatusUpdate(old(selected).value.orderId, old(newStatus)))
        && refetch == succeeded
        && (succeeded ==> !statusDialogOpen && selected.None? && newStatus == "")
        && (!succeeded ==> unchanged(this))
    {
      if selected.None? || newStatus == "" {
        return None, false;
      }
      sent := Some(StatusUpdate(selected.value.orderId, newStatus));
      if succeeded {
        statusDialogOpen := false;
        selected := None;
        newStatus := "";
      }
      refetch := succeeded;
    }

    /** `handleAutoCancellation`: the backend's report is shown and the lists are
        refetched only when it cancelled a positive number of orders; a failure
        shows `success: false` with the error message or the default. */
    method AutoCancel(outcome: Result<CancelReport, Option<string>>) returns (refetch: bool)
      modifies this`autoCancelLoading, this`autoCancelResult
      ensures !autoCancelLoading
      ensures outcome.Ok? ==>
        (autoCancelResult == Some(Reported(outcome.value))
         && (refetch <==> outcome.value.cancelled.Some? && outcome.value.cancelled.value > 0))
      ensures outcome.Err? ==>
        (!refetch
         && autoCancelResult == Some(Failed(false, OrElse(outcome.error, "Failed to trigger auto-cancellation"))))
    {
      autoCancelLoading := true;
      autoCancelResult := None;
      refetch := false;
      if outcome.Ok? {
        autoCancelResult := Some(Reported(outcome.value));
        if outcome.value.cancelled.Some? && outcome.value.cancelled.value > 0 {
          refetch := true;
        }
      } else {
        autoCancelResult := Some(Failed(false, OrElse(outcome.error, "Failed to trigger auto-cancellation")));
      }
      autoCancelLoading := false;
    }
  }
}
