/** The `adminProducts` slice of the Redux store: the product list and the
    loading/error flags, updated in place by the fetch/create/update/delete
    reducers. */
module ProductsSlice {
  import opened Js

  /** A product; the reducers only look at its `_id`, the other fields are carried along. */
  datatype Product = Product(id: string, fields: map<string, string>)

  /** The payload of `fetchProducts.fulfilled`: an array, an object that may
      carry `products` and/or `data` arrays, or nothing usable. */
  datatype ProductsPayload =
    | ProductArray(items: seq<Product>)
    | ProductObject(products: Option<seq<Product>>, data: Option<seq<Product>>)
    | NoPayload

  /** `Array.isArray(p) ? p : (p?.products || p?.data || [])`; an array, even an empty one, is truthy. */
  function Normalize(p: ProductsPayload): (list: seq<Product>)
    ensures p.ProductArray? ==> list == p.items
    ensures p.ProductObject? && p.products.Some? ==> list == p.products.value
    ensures p.ProductObject? && p.products.None? && p.data.Some? ==> list == p.data.value
    ensures p.NoPayload? || (p.ProductObject? && p.products.None? && p.data.None?) ==> list == []
  {
    match p
    case ProductArray(items) => items
    case ProductObject(products, data) =>
      if products.Some? then products.value else if data.Some? then data.value else []
    case NoPayload => []
  }

  /** `list.findIndex(p => p._id === id)`. */
  function IndexOfId(list: seq<Product>, id: string): (i: int)
    ensures -1 <= i < |list|
    ensures i == -1 <==> forall k :: 0 <= k < |list| ==> list[k].id != id
    ensures i >= 0 ==> list[i].id == id && forall k :: 0 <= k < i ==> list[k].id != id
  {
    if list == [] then -1
    else if list[0].id == id then 0
    else
      var j := IndexOfId(list[1..], id);
      if j == -1 then -1 else j + 1
  }

  /** The list after `updateProduct.fulfilled(p)`: the first product with `p`'s
      id is replaced, everything else stays where it was. */
  function Replaced(list: seq<Product>, p: Product): (r: seq<Product>)
    ensures |r| == |list|
    ensures IndexOfId(list, p.id) == -1 ==> r == list
    ensures IndexOfId(list, p.id) >= 0 ==> r[IndexOfId(list, p.id)] == p
    ensures forall k :: 0 <= k < |list| && k != IndexOfId(list, p.id) ==> r[k] == list[k]
  {
    var i := IndexOfId(list, p.id);
    if i < 0 then list else list[i := p]
  }

  /** `list.filter(p => p._id !== id)`. */
  function WithoutId(list: seq<Product>, id: string): (r: seq<Product>)
    ensures |r| <= |list|
    ensures forall k :: 0 <= k < |r| ==> r[k].id != id && r[k] in list
    ensures forall x :: x in list && x.id != id ==> x in r
  {
    if list == [] then []
    else if list[0].id == id then WithoutId(list[1..], id)
    else [list[0]] + WithoutId(list[1..], id)
  }

  /** The filter keeps the survivors in their original relative order:
      removing from a concatenation is concatenating the removals. */
  lemma {:induction false} WithoutIdKeepsOrder(a: seq<Product>, b: seq<Product>, id: string)
    ensures WithoutId(a + b, id) == WithoutId(a, id) + WithoutId(b, id)
  {
    if a == [] {
      assert a + b == b;
    } else {
      assert (a + b)[1..] == a[1..] + b;
      WithoutIdKeepsOrder(a[1..], b, id);
    }
  }

  /** Deleting an id that no product has changes nothing. */
  lemma {:induction false} WithoutAbsentId(list: seq<Product>, id: string)
    requires forall k :: 0 <= k < |list| ==> list[k].id != id
    ensures WithoutId(list, id) == list
  {
    if list != [] {
      WithoutAbsentId(list[1..], id);
    }
  }

  /** Updating a product that was just created, and whose id no earlier product has, replaces it at the end. */
  lemma ReplaceAfterAppend(list: seq<Product>, p: Product, q: Product)
    requires q.id == p.id && IndexOfId(list, p.id) == -1
    ensures Replaced(list + [p], q) == list + [q]
  {
    var l := list + [p];
    assert forall k :: 0 <= k < |list| ==> l[k] == list[k] && l[k].id != p.id;
    assert l[|list|] == p;
    assert IndexOfId(l, p.id) == |list|;
  }

  class ProductsState {
    var list: seq<Product>
    var loading: bool
    var error: Option<string>

    constructor ()
      ensures list == [] && !loading && error.None?
    {
      list, loading, error := [], false, None;
    }

    /** `fetchProducts.pending`. */
    method FetchPending()
      modifies this`loading, this`error
      ensures loading && error.None?
    {
      loading, error := true, None;
    }

    /** `fetchProducts.fulfilled`: the error is left as it was. */
    method FetchFulfilled(p: ProductsPayload)
      modifies this`loading, this`list
      ensures !loading && list == Normalize(p)
    {
      loading := false;
      list := Normalize(p);
    }

    /** `fetchProducts.rejected`, with the thunk error's message. */
    method FetchRejected(message: Option<string>)
      modifies this`loading, this`error
      ensures !loading && error == message
    {
      loading, error := false, message;
    }

    /** `createProduct.fulfilled`: `list.push(p)`. */
    method CreateFulfilled(p: Product)
      modifies this`list
      ensures list == old(list) + [p]
    {
      list := list + [p];
    }

    /** The `findIndex` scan. */
    method FindIndex(id: string) returns (i: int)
      ensures i == IndexOfId(list, id)
    {
      i := 0;
      while i < |list| && list[i].id != id
        invariant 0 <= i <= |list|
        invariant forall k :: 0 <= k < i ==> list[k].id != id
      {
        i := i + 1;
      }
      if i == |list| {
        i := -1;
      }
    }

    /** `updateProduct.fulfilled`: `list[i] = p` at the first index with `p`'s id, if any. */
    method UpdateFulfilled(p: Product)
      modifies this`list
      ensures list == Replaced(old(list), p)
    {
      var i := FindIndex(p.id);
      if i >= 0 {
        list := list[i := p];
      }
    }

    /** `deleteProduct.fulfilled`: every product with that id is dropped. */
    method DeleteFulfilled(id: string)
      modifies this`list
      ensures list == WithoutId(old(list), id)
    {
      list := WithoutId(list, id);
    }
  }
}
