/** The `live` slice of the Redux store, fed by the live-statistics stream. */
module LiveSlice {
  import opened Js

  /** The live statistics object, key by key. */
  type Stats = map<string, int>

  /** `{ ...stats, ...payload }`: the payload's keys override, the others are
      kept, and a null `stats` spreads as nothing. */
  function Merged(stats: Option<Stats>, payload: Stats): (r: Stats)
    ensures r.Keys == payload.Keys + (if stats.Some? then stats.value.Keys else {})
    ensures forall k :: k in payload ==> r[k] == payload[k]
    ensures stats.Some? ==> forall k :: k in stats.value && k !in payload ==> r[k] == stats.value[k]
  {
    (if stats.Some? then stats.value else map[]) + payload
  }

  /** Merging the same payload twice is merging it once. */
  lemma MergeIdempotent(stats: Option<Stats>, payload: Stats)
    ensures Merged(Some(Merged(stats, payload)), payload) == Merged(stats, payload)
  {
  }

  /** Merging an empty payload keeps the statistics (and turns null into `{}`). */
  lemma MergeEmpty(stats: Option<Stats>)
    ensures Merged(stats, map[]) == if stats.Some? then stats.value else map[]
  {
  }

  class LiveState {
    var stats: Option<Stats>
    var activeUsers: int
    var currentOrders: seq<string>
    var liveRevenue: int
    var isConnected: bool
    var lastUpdate: Option<string>

    /** The `initialState` of the slice. */
    predicate IsInitial()
      reads this
    {
      stats.None? && activeUsers == 0 && currentOrders == [] && liveRevenue == 0
      && !isConnected && lastUpdate.None?
    }

    constructor ()
      ensures IsInitial()
    {
      stats, activeUsers, currentOrders, liveRevenue, isConnected, lastUpdate := None, 0, [], 0, false, None;
    }

    /** `setLiveStats(payload)`; `now` is `new Date().toISOString()`. */
    method SetLiveStats(payload: Option<Stats>, now: string)
      modifies this`stats, this`lastUpdate
      ensures stats == payload && lastUpdate == Some(now)
    {
      stats := payload;
      lastUpdate := Some(now);
    }

    method SetActiveUsers(n: int)
      modifies this`activeUsers
      ensures activeUsers == n
    {
      activeUsers := n;
    }

    method SetCurrentOrders(orders: seq<string>)
      modifies this`currentOrders
      ensures currentOrders == orders
    {
      currentOrders := orders;
    }

    method SetLiveRevenue(amount: int)
      modifies this`liveRevenue
      ensures liveRevenue == amount
    {
      liveRevenue := amount;
    }

    method SetConnectionStatus(connected: bool)
      modifies this`isConnected
      ensures isConnected == connected
    {
      isConnected := connected;
    }

    /** `updateLiveStats(payload)`: merge and stamp. */
    method UpdateLiveStats(payload: Stats, now: string)
      modifies this`stats, this`lastUpdate
      ensures stats == Some(Merged(old(stats), payload)) && lastUpdate == Some(now)
    {
      stats := Some(Merged(stats, payload));
      lastUpdate := Some(now);
    }

    /** `clearLiveData()`: exactly the initial state, from any state, so it is idempotent. */
    method ClearLiveData()
      modifies this
      ensures IsInitial()
    {
      stats, activeUsers, currentOrders, liveRevenue, isConnected, lastUpdate := None, 0, [], 0, false, None;
    }
  }
}
