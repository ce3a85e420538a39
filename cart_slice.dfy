/** The `carts` slice of the Redux store. */
module CartSlice {
  import opened Js

  /** A cart as the backend reports it; the slice stores carts as they come. */
  datatype Cart = Cart(id: string, fields: map<string, string>)

  datatype CartStats = CartStats(active: int, abandoned: int, total: int)

  class CartState {
    var carts: seq<Cart>
    var activeCarts: seq<Cart>
    var abandonedCarts: seq<Cart>
    var stats: Option<CartStats>
    var loading: bool
    var error: Option<string>

    constructor ()
      ensures carts == [] && activeCarts == [] && abandonedCarts == []
      ensures stats.None? && !loading && error.None?
    {
      carts, activeCarts, abandonedCarts := [], [], [];
      stats, loading, error := None, false, None;
    }

    method SetLoading(b: bool)
      modifies this`loading
      ensures loading == b
    {
      loading := b;
    }

    /** `setError`: the error is stored and loading ends. */
    method SetError(e: Option<string>)
      modifies this`error, this`loading
      ensures error == e && !loading
    {
      error := e;
      loading := false;
    }

    /** `setCarts`: the carts are stored, loading ends and the error clears. */
    method SetCarts(c: seq<Cart>)
      modifies this`carts, this`loading, this`error
      ensures carts == c && !loading && error.None?
    {
      carts := c;
      loading := false;
      error := None;
    }

    method SetActiveCarts(c: seq<Cart>)
      modifies this`activeCarts
      ensures activeCarts == c
    {
      activeCarts := c;
    }

    method SetAbandonedCarts(c: seq<Cart>)
      modifies this`abandonedCarts
      ensures abandonedCarts == c
    {
      abandonedCarts := c;
    }

    method SetCartStats(s: Option<CartStats>)
      modifies this`stats
      ensures stats == s
    {
      stats := s;
    }

    /** `clearCartData`: the lists empty, stats and error null; `loading` is not touched. */
    method ClearCartData()
      modifies this`carts, this`activeCarts, this`abandonedCarts, this`stats, this`error
      ensures carts == [] && activeCarts == [] && abandonedCarts == [] && stats.None? && error.None?
    {
      carts, activeCarts, abandonedCarts := [], [], [];
      stats, error := None, None;
    }
  }
}
