/** The `adminOrders` slice of the Redux store: the fetched orders, their pagination and the loading/error flags. */
module OrdersSlice {
  import opened Js

  /** An order; the slice stores orders as they come. */
  datatype Order = Order(id: string, fields: map<string, string>)

  datatype Pagination = Pagination(page: int, limit: int, total: int)

  /** The payload of `fetchOrders.fulfilled`: a bare array, or an object whose
      `orders` is an array (`Some`) or not (`None`), with an optional pagination. */
  datatype OrdersPayload =
    | OrdersArray(items: seq<Order>)
    | OrdersObject(orders: Option<seq<Order>>, pagination: Option<Pagination>)

  /** `Array.isArray(p.orders) ? p.orders : (Array.isArray(p) ? p : [])`. */
  function OrdersOf(p: OrdersPayload): (list: seq<Order>)
    ensures p.OrdersObject? && p.orders.Some? ==> list == p.orders.value
    ensures p.OrdersArray? ==> list == p.items
    ensures p.OrdersObject? && p.orders.None? ==> list == []
  {
    match p
    case OrdersObject(orders, _) => if orders.Some? then orders.value else []
    case OrdersArray(items) => items
  }

  /** `p.pagination || null`: a bare array has none. */
  function PaginationOf(p: OrdersPayload): (r: Option<Pagination>)
    ensures p.OrdersArray? ==> r.None?
    ensures p.OrdersObject? ==> r == p.pagination
  {
    match p
    case OrdersObject(_, pagination) => pagination
    case OrdersArray(_) => None
  }

  class OrdersState {
    var list: seq<Order>
    var pagination: Option<Pagination>
    var loading: bool
    var error: Option<string>

    constructor ()
      ensures list == [] && pagination.None? && !loading && error.None?
    {
      list, pagination, loading, error := [], None, false, None;
    }

    /** `fetchOrders.pending`. */
    method FetchPending()
      modifies this`loading, this`error
      ensures loading && error.None?
    {
      loading, error := true, None;
    }

    /** `fetchOrders.fulfilled`: the error is left as it was. */
    method FetchFulfilled(p: OrdersPayload)
      modifies this`loading, this`list, this`pagination
      ensures !loading && list == OrdersOf(p) && pagination == PaginationOf(p)
    {
      loading := false;
      list := OrdersOf(p);
      pagination := PaginationOf(p);
    }

    /** `fetchOrders.rejected`: the list and the pagination are left as they were. */
    method FetchRejected(message: Option<string>)
      modifies this`loading, this`error
      ensures !loading && error == message
    {
      loading, error := false, message;
    }
  }
}
