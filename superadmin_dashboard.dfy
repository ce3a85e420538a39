/** The superadmin dashboard's data preparation: six settled requests are
    turned into the stat cards, the recent-orders table, seven week rows, the
    user-activity series and the top products. */
module SuperAdminDashboard {
  import opened Js

  /** The order-stats response fields the page reads (`{}` has them all missing). */
  datatype OrderStats = OrderStats(
    totalOrders: Option<int>,
    total: Option<int>,
    totalRevenue: Option<int>,
    revenue: Option<int>,
    pendingOrders: Option<int>,
    cancelledOrders: Option<int>,
    realtimeActivity: Option<seq<ActivityPoint>>)

  datatype ProductStats = ProductStats(totalProducts: Option<int>, total: Option<int>, topProducts: Option<seq<ProductSummary>>)

  /** `users.total` and `users.active` of the platform stats. */
  datatype PlatformStats = PlatformStats(usersTotal: Option<int>, usersActive: Option<int>)

  datatype DashOrder = DashOrder(orderId: Option<string>, status: Option<string>)

  /** `ordersData.orders`, `None` when missing or not an array. */
  datatype OrdersData = OrdersData(orders: Option<seq<DashOrder>>)

  datatype ProductSummary = ProductSummary(id: Option<string>, name: Option<string>)

  datatype ActivityPoint = ActivityPoint(minute: int, users: int)

  const NoOrderStats := OrderStats(None, None, None, None, None, None, None)
  const NoProductStats := ProductStats(None, None, None)
  const NoPlatformStats := PlatformStats(None, None)

  /** The stat cards (the growth percentages are left out). `activeUsers` shows the total user count. */
  datatype DashStats = DashStats(
    totalSales: int,
    totalOrders: int,
    pendingOrders: int,
    cancelledOrders: int,
    activeUsers: int,
    totalProducts: int,
    lowStockProducts: nat)

  function StatsOf(o: OrderStats, p: ProductStats, lowStock: Option<seq<ProductSummary>>, u: PlatformStats): (s: DashStats)
    ensures OrNum(o.totalRevenue, 0) != 0 ==> s.totalSales == o.totalRevenue.value
    ensures OrNum(o.totalRevenue, 0) == 0 ==> s.totalSales == OrNum(o.revenue, 0)
    ensures OrNum(o.totalOrders, 0) != 0 ==> s.totalOrders == o.totalOrders.value
    ensures OrNum(o.totalOrders, 0) == 0 ==> s.totalOrders == OrNum(o.total, 0)
    ensures OrNum(p.totalProducts, 0) != 0 ==> s.totalProducts == p.totalProducts.value
    ensures OrNum(p.totalProducts, 0) == 0 ==> s.totalProducts == OrNum(p.total, 0)
    ensures s.lowStockProducts == (if lowStock.Some? then |lowStock.value| else 0)
    ensures s.pendingOrders == OrNum(o.pendingOrders, 0) && s.cancelledOrders == OrNum(o.cancelledOrders, 0)
    ensures s.activeUsers == OrNum(u.usersTotal, 0)
  {
    DashStats(
      OrNum(o.totalRevenue, OrNum(o.revenue, 0)),
      OrNum(o.totalOrders, OrNum(o.total, 0)),
      OrNum(o.pendingOrders, 0),
      OrNum(o.cancelledOrders, 0),
      OrNum(u.usersTotal, 0),
      OrNum(p.totalProducts, OrNum(p.total, 0)),
      LengthOr0(lowStock))
  }

  /** With every request rejected the cards show zeros. */
  lemma AllRejectedShowsZeros()
    ensures StatsOf(NoOrderStats, NoProductStats, Some([]), NoPlatformStats) == DashStats(0, 0, 0, 0, 0, 0, 0)
  {
  }

  /** The card labelled active users shows the total user count, whatever the active count is. */
  lemma ActiveUsersCardShowsTotal(o: OrderStats, p: ProductStats, low: Option<seq<ProductSummary>>, total: int, active: int)
    requires total != 0
    ensures StatsOf(o, p, low, PlatformStats(Some(total), Some(active))).activeUsers == total
  {
  }

  predicate NotCancelled(o: DashOrder) { o.status != Some("cancelled") }

  /** `orders.filter(o => o.status !== 'cancelled').slice(0, 4)`. */
  function RecentOrders(orders: seq<DashOrder>): (r: seq<DashOrder>)
    ensures |r| <= 4
    ensures forall k :: 0 <= k < |r| ==> NotCancelled(r[k])
    ensures |r| == Min(4, |Filter(orders, NotCancelled)|)
    ensures r == Filter(orders, NotCancelled)[..|r|]
  {
    var kept := Filter(orders, NotCancelled);
    var r := Slice(kept, 0, 4);
    assert r == kept[..|r|];
    r
  }

  /** Recent orders keep the fetched order: they are a subsequence of the orders. */
  lemma RecentOrdersInFetchedOrder(orders: seq<DashOrder>)
    ensures Subsequence(RecentOrders(orders), orders)
  {
    var kept := Filter(orders, NotCancelled);
    PrefixIsSubsequence(kept, |RecentOrders(orders)|);
    SubsequenceTrans(RecentOrders(orders), kept, orders);
  }

  const Days: seq<string> := ["Sun", "Mon", "Tue", "Wed", "Thu", "Fri", "Sat"]

  datatype WeekRow = WeekRow(day: string, customers: int, products: int, stock: int, outOfStock: int)

  /** The weekday of row `k` (0 = six days ago, 6 = today) when today is weekday `today`. */
  function DayIndex(k: nat, today: nat): (d: nat)
    ensures d < 7
  {
    (today + 1 + k) % 7
  }

  /** Row `k` of the week. */
  function WeekRowAt(k: nat, today: nat, totalUsers: int, totalProducts: int, lowStock: int): (row: WeekRow)
    requires k < 7 && today < 7
    ensures row.day == Days[DayIndex(k, today)]
    ensures row.stock + row.outOfStock == totalProducts
    ensures row.customers == totalUsers && row.outOfStock == lowStock
  {
    WeekRow(Days[DayIndex(k, today)], totalUsers, totalProducts, totalProducts - lowStock, lowStock)
  }

  /** The `for (let i = 6; i >= 0; i--)` loop pushing one row per day. */
  method BuildWeek(today: nat, totalUsers: int, totalProducts: int, lowStock: int) returns (week: seq<WeekRow>)
    requires today < 7
    ensures |week| == 7
    ensures forall k :: 0 <= k < 7 ==> week[k] == WeekRowAt(k, today, totalUsers, totalProducts, lowStock)
  {
    week := [];
    var i := 6;
    while i >= 0
      invariant -1 <= i <= 6
      invariant |week| == 6 - i
      invariant forall k :: 0 <= k < |week| ==> week[k] == WeekRowAt(k, today, totalUsers, totalProducts, lowStock)
    {
      var dayName := Days[(today + 7 - i) % 7];
      week := week + [WeekRow(dayName, totalUsers, totalProducts, totalProducts - lowStock, lowStock)];
      i := i - 1;
    }
  }

  /** The week ends today, and each row is the weekday after the previous one. */
  lemma WeekEndsToday(today: nat)
    requires today < 7
    ensures DayIndex(6, today) == today
    ensures forall k: nat :: k < 6 ==> DayIndex(k + 1, today) == (DayIndex(k, today) + 1) % 7
  {
    forall k: nat | k < 6
      ensures DayIndex(k + 1, today) == (DayIndex(k, today) + 1) % 7
    {
      var x := today + 1 + k;
      if x < 7 {
        assert x % 7 == x;
      } else {
        assert x % 7 == x - 7;
        assert (x + 1) % 7 == x + 1 - 7;
      }
    }
  }

  /** The activity series: the last 30 realtime entries when there are any,
      otherwise 30 entries `{minute: i, users: floor(activeUsers / 30)}`. */
  function Activity(realtime: seq<ActivityPoint>, activeUsers: int): (r: seq<ActivityPoint>)
    ensures |realtime| > 0 ==> r == SliceLast(realtime, 30)
    ensures |realtime| == 0 ==> |r| == 30 && forall i :: 0 <= i < 30 ==> r[i] == ActivityPoint(i, activeUsers / 30)
    ensures 1 <= |r| <= 30
  {
    if |realtime| > 0 then SliceLast(realtime, 30) else seq(30, i => ActivityPoint(i, activeUsers / 30))
  }

  /** The spread-out series never shows more users than the active count (when it is not negative). */
  lemma SpreadActivityWithinActive(activeUsers: nat)
    ensures var r := Activity([], activeUsers);
      forall i :: 0 <= i < |r| ==> 30 * r[i].users <= activeUsers
  {
  }

  /** Top products: the first three top-sellers if there are any, else the first
      three of `productStats.topProducts` when it is an array, else no update. */
  function TopProducts(topSelling: Option<seq<ProductSummary>>, fromStats: Option<seq<ProductSummary>>): (r: Option<seq<ProductSummary>>)
    ensures topSelling.Some? && |topSelling.value| > 0 ==> r == Some(Slice(topSelling.value, 0, 3))
    ensures !(topSelling.Some? && |topSelling.value| > 0) && fromStats.Some? ==> r == Some(Slice(fromStats.value, 0, 3))
    ensures !(topSelling.Some? && |topSelling.value| > 0) && fromStats.None? ==> r.None?
    ensures r.Some? ==> |r.value| <= 3
  {
    if topSelling.Some? && |topSelling.value| > 0 then Some(Slice(topSelling.value, 0, 3))
    else if fromStats.Some? then Some(Slice(fromStats.value, 0, 3))
    else None
  }

  class DashboardState {
    var stats: DashStats
    var loading: bool
    var weeklyData: seq<WeekRow>
    var userActivityData: seq<ActivityPoint>
    var recentOrders: seq<DashOrder>
    var topProducts: seq<ProductSummary>

    constructor ()
      ensures stats == DashStats(0, 0, 0, 0, 0, 0, 0) && loading
      ensures weeklyData == [] && userActivityData == [] && recentOrders == [] && topProducts == []
    {
      stats := DashStats(0, 0, 0, 0, 0, 0, 0);
      loading := true;
      weeklyData, userActivityData, recentOrders, topProducts := [], [], [], [];
    }

    /** `fetchDashboardData` once the six requests have settled; a rejected
        request counts as `{}` for objects and `[]` for lists. `today` is the
        weekday of the current date. */
    method FetchDashboardData(
      orderStatsRes: Settled<OrderStats>,
      productStatsRes: Settled<ProductStats>,
      ordersRes: Settled<OrdersData>,
      lowStockRes: Settled<Option<seq<ProductSummary>>>,
      platformRes: Settled<PlatformStats>,
      topRes: Settled<Option<seq<ProductSummary>>>,
      today: nat)
      requires today < 7
      modifies this
      ensures !loading
      ensures var o := SettledOr(orderStatsRes, NoOrderStats);
        var p := SettledOr(productStatsRes, NoProductStats);
        var u := SettledOr(platformRes, NoPlatformStats);
        var low := SettledOr(lowStockRes, Some([]));
        stats == StatsOf(o, p, low, u)
        && |weeklyData| == 7
        && (forall k :: 0 <= k < 7 ==>
              weeklyData[k] == WeekRowAt(k, today, OrNum(u.usersTotal, 0), stats.totalProducts, stats.lowStockProducts))
        && userActivityData == Activity(if o.realtimeActivity.Some? then o.realtimeActivity.value else [], OrNum(u.usersActive, 0))
      ensures var orders := SettledOr(ordersRes, OrdersData(None)).orders;
        recentOrders == (if orders.Some? then RecentOrders(orders.value) else old(recentOrders))
      ensures var top := TopProducts(SettledOr(topRes, Some([])), SettledOr(productStatsRes, NoProductStats).topProducts);
        topProducts == (if top.Some? then top.value else old(topProducts))
    {
      loading := true;
      var o := SettledOr(orderStatsRes, NoOrderStats);
      var p := SettledOr(productStatsRes, NoProductStats);
      var ordersData := SettledOr(ordersRes, OrdersData(None));
      var low := SettledOr(lowStockRes, Some([]));
      var u := SettledOr(platformRes, NoPlatformStats);
      var top := SettledOr(topRes, Some([]));

      stats := StatsOf(o, p, low, u);
      if ordersData.orders.Some? {
        recentOrders := RecentOrders(ordersData.orders.value);
      }
      weeklyData := BuildWeek(today, OrNum(u.usersTotal, 0), stats.totalProducts, stats.lowStockProducts);
      var realtime := if o.realtimeActivity.Some? then o.realtimeActivity.value else [];
      userActivityData := Activity(realtime, OrNum(u.usersActive, 0));
      var chosen := TopProducts(top, p.topProducts);
      if chosen.Some? {
        topProducts := chosen.value;
      }
      loading := false;
    }
  }
}
