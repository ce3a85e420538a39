/** The admin dashboard's stat cards, built from six settled requests, and
    the header's name and viewing-as-admin flag. */
module AdminDashboard {
  import opened Js

  /** The response fields read: `total`, `count`, `revenue`, `active` (a rejected request reads as `{}`). */
  datatype Counts = Counts(total: Option<int>, count: Option<int>, revenue: Option<int>, active: Option<int>)

  const NoCounts := Counts(None, None, None, None)

  datatype AdminStats = AdminStats(
    totalProducts: int,
    totalOrders: int,
    activeCarts: int,
    totalRevenue: int,
    lowStockProducts: nat,
    pendingOrders: nat)

  /** The stats object: `??` chains, so a present 0 is kept, and list lengths
      that are 0 for a rejected request or a value that is not an array. */
  function StatsOf<L, P>(
    productStats: Settled<Counts>,
    orderStats: Settled<Counts>,
    cartStats: Settled<Counts>,
    lowStock: Settled<Option<seq<L>>>,
    pending: Settled<Option<seq<P>>>): (s: AdminStats)
    ensures var p := SettledOr(productStats, NoCounts);
      (p.total.Some? ==> s.totalProducts == p.total.value)
      && (p.total.None? && p.count.Some? ==> s.totalProducts == p.count.value)
      && (p.total.None? && p.count.None? ==> s.totalProducts == 0)
    ensures var o := SettledOr(orderStats, NoCounts);
      (o.total.Some? ==> s.totalOrders == o.total.value)
      && (o.total.None? && o.count.Some? ==> s.totalOrders == o.count.value)
      && (o.total.None? && o.count.None? ==> s.totalOrders == 0)
      && (o.revenue.Some? ==> s.totalRevenue == o.revenue.value)
      && (o.revenue.None? ==> s.totalRevenue == 0)
    ensures var c := SettledOr(cartStats, NoCounts);
      (c.active.Some? ==> s.activeCarts == c.active.value)
      && (c.active.None? && c.count.Some? ==> s.activeCarts == c.count.value)
      && (c.active.None? && c.count.None? ==> s.activeCarts == 0)
    ensures lowStock.Rejected? ==> s.lowStockProducts == 0
    ensures pending.Rejected? ==> s.pendingOrders == 0
    ensures lowStock.Fulfilled? ==> s.lowStockProducts == (if lowStock.value.Some? then |lowStock.value.value| else 0)
    ensures pending.Fulfilled? ==> s.pendingOrders == (if pending.value.Some? then |pending.value.value| else 0)
  {
    var p := SettledOr(productStats, NoCounts);
    var o := SettledOr(orderStats, NoCounts);
    var c := SettledOr(cartStats, NoCounts);
    AdminStats(
      Coalesce(p.total, Coalesce(p.count, 0)),
      Coalesce(o.total, Coalesce(o.count, 0)),
      Coalesce(c.active, Coalesce(c.count, 0)),
      Coalesce(o.revenue, 0),
      LengthOr0(SettledOr(lowStock, Some([]))),
      LengthOr0(SettledOr(pending, Some([]))))
  }

  /** Unlike `||`, `??` keeps a reported total of zero even when a count is present. */
  lemma ZeroTotalIsKept<L, P>(count: int, low: Settled<Option<seq<L>>>, pend: Settled<Option<seq<P>>>)
    ensures StatsOf(Fulfilled(Counts(Some(0), Some(count), None, None)), Rejected, Rejected, low, pend).totalProducts == 0
  {
  }

  /** Everything rejected shows all zeros. */
  lemma AllRejectedShowsZeros<L, P>()
    ensures StatsOf<L, P>(Rejected, Rejected, Rejected, Rejected, Rejected) == AdminStats(0, 0, 0, 0, 0, 0)
  {
  }

  /** `adminInfo?.name || user?.name`. */
  function DisplayName(adminInfoName: Option<string>, userName: Option<string>): (name: Option<string>)
    ensures Truthy(adminInfoName) ==> name == adminInfoName
    ensures !Truthy(adminInfoName) ==> name == userName
  {
    OrOpt(adminInfoName, userName)
  }

  /** `!!adminId`: the page was opened from the superadmin's admin view. */
  function IsViewingAsAdmin(adminId: Option<string>): (viewing: bool)
    ensures viewing <==> adminId.Some? && adminId.value != ""
  {
    Truthy(adminId)
  }
}
