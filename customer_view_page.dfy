/** One customer's page: the order stats, the status colours and the
    fetch that loads the customer and their orders. The initials are the
    customers list's `Initials`, the same rule. */
module CustomerViewPage {
  import opened Js
  import CustomersPage

  datatype CustomerOrder = CustomerOrder(status: Option<string>, totalAmount: Option<int>)

  datatype OrderStats = OrderStats(totalOrders: nat, totalSpent: int, pendingOrders: nat, completedOrders: nat)

  predicate IsPending(o: CustomerOrder) { o.status == Some("pending") || o.status == Some("processing") }

  predicate IsCompleted(o: CustomerOrder) { o.status == Some("delivered") }

  /** `orders.reduce((sum, o) => sum + (o.totalAmount || 0), 0)`. */
  function TotalSpent(orders: seq<CustomerOrder>): (sum: int)
    ensures (forall i :: 0 <= i < |orders| ==> OrNum(orders[i].totalAmount, 0) >= 0) ==> sum >= 0
    decreases |orders|
  {
    if orders == [] then 0 else OrNum(orders[0].totalAmount, 0) + TotalSpent(orders[1..])
  }

  function StatsOf(orders: seq<CustomerOrder>): (s: OrderStats)
    ensures s.totalOrders == |orders|
    ensures s.pendingOrders == |Filter(orders, IsPending)| && s.completedOrders == |Filter(orders, IsCompleted)|
    ensures s.pendingOrders + s.completedOrders <= s.totalOrders
    ensures s.totalSpent == TotalSpent(orders)
  {
    PendingAndCompletedDisjoint(orders);
    OrderStats(|orders|, TotalSpent(orders), |Filter(orders, IsPending)|, |Filter(orders, IsCompleted)|)
  }

  /** No order is both pending and completed, so the two counts never add up past the total. */
  lemma {:induction false} PendingAndCompletedDisjoint(orders: seq<CustomerOrder>)
    ensures |Filter(orders, IsPending)| + |Filter(orders, IsCompleted)| <= |orders|
    decreases |orders|
  {
    if orders != [] {
      PendingAndCompletedDisjoint(orders[1..]);
    }
  }

  /** Amounts add up across a split of the order list. */
  lemma {:induction false} TotalSpentAppend(a: seq<CustomerOrder>, b: seq<CustomerOrder>)
    ensures TotalSpent(a + b) == TotalSpent(a) + TotalSpent(b)
    decreases |a|
  {
    if a != [] {
      assert (a + b)[1..] == a[1..] + b;
      TotalSpentAppend(a[1..], b);
    } else {
      assert a + b == b;
    }
  }

  datatype Colors = Colors(bg: string, text: string)

  const StatusColors: map<string, Colors> := map[
    "pending" := Colors("#FEF3C7", "#92400E"),
    "processing" := Colors("#DBEAFE", "#1E40AF"),
    "shipped" := Colors("#E0E7FF", "#3730A3"),
    "delivered" := Colors("#D1FAE5", "#065F46"),
    "cancelled" := Colors("#FEE2E2", "#991B1B")]

  /** `getStatusColor(status)`: the table entry, or the pending colours for anything else. */
  function StatusColor(status: Option<string>): (c: Colors)
    ensures status.Some? && status.value in StatusColors ==> c == StatusColors[status.value]
    ensures !(status.Some? && status.value in StatusColors) ==> c == StatusColors["pending"]
  {
    if status.Some? && status.value in StatusColors then StatusColors[status.value] else StatusColors["pending"]
  }

  /** A 'confirmed' order has no entry of its own and reads as pending. */
  lemma ConfirmedLooksPending()
    ensures StatusColor(Some("confirmed")) == StatusColor(Some("pending"))
    ensures StatusColor(None) == StatusColor(Some("pending"))
  {
  }

  datatype Customer = Customer(id: string, name: Option<string>)

  class CustomerView {
    var customer: Option<Customer>
    var orders: seq<CustomerOrder>
    var loading: bool
    var stats: OrderStats

    constructor ()
      ensures customer.None? && orders == [] && loading && stats == OrderStats(0, 0, 0, 0)
    {
      customer, orders, loading, stats := None, [], true, OrderStats(0, 0, 0, 0);
    }

    /** The avatar initials of the loaded customer. */
    function Initials(): (r: string)
      reads this
      ensures |r| <= 2
      ensures customer.None? || !Truthy(customer.value.name) ==> r == "U"
    ensures forall i :: 0 <= i < |r| ==> !('a' <= r[i] <= 'z')
    {
      CustomersPage.Initials(if customer.Some? then customer.value.name else None)
    }

    /** `fetchCustomerData`: load the customer, then their orders (`orders || []`)
        and the stats over them. Either request failing leaves no customer and
        no orders, and the stats as they were. */
    method FetchCustomerData(customerRes: Result<Customer, string>, ordersRes: Result<Option<seq<CustomerOrder>>, string>)
      modifies this
      ensures !loading
      ensures customerRes.Ok? && ordersRes.Ok? ==>
        customer == Some(customerRes.value)
        && orders == (if ordersRes.value.Some? then ordersRes.value.value else [])
        && stats == StatsOf(orders)
      ensures customerRes.Err? || ordersRes.Err? ==> customer.None? && orders == [] && stats == old(stats)
    {
      loading := true;
      if customerRes.Err? {
        customer := None;
        orders := [];
        loading := false;
        return;
      }
      customer := Some(customerRes.value);
      if ordersRes.Err? {
        customer := None;
        orders := [];
        loading := false;
        return;
      }
      orders := if ordersRes.value.Some? then ordersRes.value.value else [];
      stats := StatsOf(orders);
      loading := false;
    }
  }
}
