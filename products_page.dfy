/** The product pages: the superadmin catalogue (search, twelve-per-page
    paging, stats over the whole catalogue) and the editor dialog both product
    pages share (edit preload, image selection and removal, close-and-reset,
    submit payload), plus the admin grid's creator column and row ids. */
module ProductsPage {
  import opened Js
  import opened Strings
  import ImageUtils

  /** A numeric field of a product as JSON delivers it: absent, an explicit `null`, or a number. */
  datatype Field = Undefined | Null | Given(value: int)

  /** `Number(x)`: `None` stands for `NaN`, which an absent field gives; `null` converts to 0. */
  function NumberOf(f: Field): (n: Option<int>)
    ensures n.None? <==> f.Undefined?
    ensures f.Null? ==> n == Some(0)
    ensures f.Given? ==> n == Some(f.value)
  {
    match f
    case Undefined => None
    case Null => Some(0)
    case Given(v) => Some(v)
  }

  /** The fields of a product the pages read; `id` is `_id`, `altId` is `id`. */
  datatype Listing = Listing(
    id: Option<string>,
    altId: Option<string>,
    name: string,
    description: Option<string>,
    price: Field,
    category: string,
    stock: Field,
    status: Option<string>,
    images: Option<seq<string>>,
    createdByRole: Option<string>,
    createdByName: Option<string>)

  // ---------------------------------------------------------------------------
  // Catalogue view

  /** The search rule: the query occurs in the name or the category, ignoring case. */
  predicate Matches(p: Listing, query: string) {
    Includes(Lower(p.name), Lower(query)) || Includes(Lower(p.category), Lower(query))
  }

  /** `filteredProducts`. */
  function FilterProducts(products: seq<Listing>, query: string): (r: seq<Listing>)
    ensures Subsequence(r, products)
    ensures forall i :: 0 <= i < |r| ==> Matches(r[i], query)
    ensures forall i :: 0 <= i < |products| && Matches(products[i], query) ==> products[i] in r
  {
    Filter(products, (p: Listing) => Matches(p, query))
  }

  /** The empty query lists the whole catalogue. */
  lemma EmptyQueryListsAll(products: seq<Listing>)
    ensures FilterProducts(products, "") == products
  {
    forall i | 0 <= i < |products|
      ensures Matches(products[i], "")
    {
      assert StartsWith(Lower(products[i].name), Lower(""));
    }
    FilterKeepsAll(products, (p: Listing) => Matches(p, ""));
  }

  const ItemsPerPage: nat := 12

  /** `Math.ceil(n / 12)`. */
  function TotalPages(n: nat): (t: nat)
    ensures n == 0 <==> t == 0
    ensures n > 0 ==> (t - 1) * ItemsPerPage < n <= t * ItemsPerPage
  {
    (n + ItemsPerPage - 1) / ItemsPerPage
  }

  /** The pager is shown only when there is more than one page, i.e. more than twelve matches. */
  lemma PaginationShownIff(n: nat)
    ensures TotalPages(n) > 1 <==> n > ItemsPerPage
  {
  }

  /** `paginatedProducts` for page `page` (counted from 1): items `[(page-1)*12, page*12)`. */
  function PageItems(filtered: seq<Listing>, page: nat): (r: seq<Listing>)
    requires page >= 1
    ensures |r| <= ItemsPerPage
    ensures forall k :: 0 <= k < |r| ==>
      (page - 1) * ItemsPerPage + k < |filtered| && r[k] == filtered[(page - 1) * ItemsPerPage + k]
  {
    Slice(filtered, (page - 1) * ItemsPerPage, page * ItemsPerPage)
  }

  /** Item `i` is on page `i / 12 + 1`, a page no later than the last one. */
  lemma EveryItemOnItsPage(filtered: seq<Listing>, i: nat)
    requires i < |filtered|
    ensures 1 <= i / ItemsPerPage + 1 <= TotalPages(|filtered|)
    ensures i % ItemsPerPage < |PageItems(filtered, i / ItemsPerPage + 1)|
    ensures PageItems(filtered, i / ItemsPerPage + 1)[i % ItemsPerPage] == filtered[i]
  {
    var p, k := i / ItemsPerPage, i % ItemsPerPage;
    assert p * ItemsPerPage + k == i;
  }

  /** Pages after the last one are empty. */
  lemma PagesPastTheLastAreEmpty(filtered: seq<Listing>, page: nat)
    requires page > TotalPages(|filtered|)
    ensures PageItems(filtered, page) == []
  {
    var t := TotalPages(|filtered|);
    assert |filtered| <= t * ItemsPerPage;
    assert t * ItemsPerPage <= (page - 1) * ItemsPerPage;
  }

  /** The four stat cards; `totalValue` is `None` where JavaScript arithmetic gives `NaN`. */
  datatype Stats = Stats(total: nat, active: nat, lowStock: nat, totalValue: Option<int>)

  predicate IsActive(p: Listing) { p.status == Some("active") }

  /** `p.stock < 10`: an absent stock compares false, a `null` one as 0. */
  predicate IsLowStock(p: Listing) {
    var n := NumberOf(p.stock);
    n.Some? && n.value < 10
  }

  /** A `null` stock counts as low stock. */
  lemma NullStockIsLow(p: Listing)
    requires p.stock.Null?
    ensures IsLowStock(p)
  {
  }

  /** `products.reduce((sum, p) => sum + Number(p.price) * Number(p.stock), 0)`:
      one product without a price or a stock turns the whole sum into `NaN`. */
  function ValueOf(products: seq<Listing>): (v: Option<int>)
    ensures v.None? <==> exists i :: 0 <= i < |products| && (products[i].price.Undefined? || products[i].stock.Undefined?)
    decreases |products|
  {
    if products == [] then Some(0)
    else
      var rest := ValueOf(products[1..]);
      var p := products[0];
      var price, stock := NumberOf(p.price), NumberOf(p.stock);
      if price.None? || stock.None? || rest.None? then
        (if rest.None? then
           var i :| 0 <= i < |products[1..]| && (products[1..][i].price.Undefined? || products[1..][i].stock.Undefined?);
           assert products[i + 1] == products[1..][i];
           None
         else None)
      else
        (assert forall i :: 0 < i < |products| ==> products[i] == products[1..][i - 1];
         Some(price.value * stock.value + rest.value))
  }

  /** A product with a `null` price or stock adds nothing to the value (and keeps it a number). */
  lemma NullAddsNothing(p: Listing, rest: seq<Listing>)
    requires (p.price.Null? && !p.stock.Undefined?) || (p.stock.Null? && !p.price.Undefined?)
    ensures ValueOf([p] + rest) == ValueOf(rest)
  {
    assert ([p] + rest)[1..] == rest;
  }

  /** `stats`, computed over the whole catalogue rather than the filtered list. */
  function StatsOf(products: seq<Listing>): (s: Stats)
    ensures s.total == |products|
    ensures s.active <= s.total && s.lowStock <= s.total
    ensures s.active == |Filter(products, IsActive)| && s.lowStock == |Filter(products, IsLowStock)|
    ensures s.totalValue == ValueOf(products)
  {
    Stats(|products|, |Filter(products, IsActive)|, |Filter(products, IsLowStock)|, ValueOf(products))
  }

  /** The stats read the catalogue, not the search result: whatever the query, the list shown is no longer than the total. */
  lemma FilteredWithinTotal(products: seq<Listing>, query: string)
    ensures |FilterProducts(products, query)| <= StatsOf(products).total
  {
  }

  // ---------------------------------------------------------------------------
  // Admin grid

  /** The creator column: 'Super Admin' for a superadmin's product, else `createdByName || 'Unknown'`. */
  function CreatorName(p: Listing): (name: string)
    ensures name != ""
    ensures p.createdByRole == Some("superadmin") ==> name == "Super Admin"
    ensures p.createdByRole != Some("superadmin") ==> name == OrElse(p.createdByName, "Unknown")
  {
    if p.createdByRole == Some("superadmin") then "Super Admin" else OrElse(p.createdByName, "Unknown")
  }

  /** The avatar: `displayName.charAt(0).toUpperCase()`, one character since the name is never empty. */
  function CreatorAvatar(p: Listing): (letter: string)
    ensures |letter| == 1 && letter[0] == UpperChar(CreatorName(p)[0])
  {
    Upper(CreatorName(p)[..1])
  }

  /** A creator with an empty name shows as 'Unknown', avatar 'U', unless they are a superadmin. */
  lemma NamelessCreatorUnknown(p: Listing)
    requires p.createdByRole != Some("superadmin") && !Truthy(p.createdByName)
    ensures CreatorName(p) == "Unknown" && CreatorAvatar(p) == "U"
  {
  }

  /** The grid row id: `_id || id`. */
  function RowId(p: Listing): (id: Option<string>)
    ensures Truthy(p.id) ==> id == p.id
    ensures !Truthy(p.id) ==> id == p.altId
  {
    OrOpt(p.id, p.altId)
  }

  // ---------------------------------------------------------------------------
  // Editor dialog

  /** A form field holds whatever the product had: text, a number, or nothing. */
  datatype Value = Text(s: string) | Num(n: int) | Missing

  datatype Form = Form(name: Value, description: Value, price: Value, category: Value, stock: Value, status: Value)

  const BlankForm := Form(Text(""), Text(""), Text(""), Text(""), Text(""), Text("active"))

  function TextOf(v: Option<string>): Value { if v.Some? then Text(v.value) else Missing }
  /** An absent or `null` number leaves the field empty. */
  function NumOf(v: Field): Value { if v.Given? then Num(v.value) else Missing }

  /** The form `handleEdit` loads: the six fields copied from the product. */
  function FormOf(p: Listing): (f: Form)
    ensures f.name == Text(p.name) && f.category == Text(p.category)
    ensures f.description.Text? <==> p.description.Some?
    ensures f.price.Num? <==> p.price.Given?
    ensures f.stock.Num? <==> p.stock.Given?
    ensures f.status.Text? <==> p.status.Some?
    ensures p.status.Some? ==> f.status.s == p.status.value
  {
    Form(Text(p.name), TextOf(p.description), NumOf(p.price), Text(p.category), NumOf(p.stock), TextOf(p.status))
  }

  datatype Preview = Preview(url: string, isExisting: bool)

  /** `images.map(url => ({url, isExisting: true}))`. */
  function ExistingPreviews(images: seq<string>): (r: seq<Preview>)
    ensures |r| == |images|
    ensures forall k :: 0 <= k < |r| ==> r[k] == Preview(images[k], true)
  {
    if images == [] then [] else [Preview(images[0], true)] + ExistingPreviews(images[1..])
  }

  function NewPreviews(urls: seq<string>): (r: seq<Preview>)
    ensures |r| == |urls|
    ensures forall k :: 0 <= k < |r| ==> r[k] == Preview(urls[k], false)
  {
    if urls == [] then [] else [Preview(urls[0], false)] + NewPreviews(urls[1..])
  }

  /** `s.filter((_, i) => i !== index)`. */
  function WithoutIndex<T>(s: seq<T>, index: nat): (r: seq<T>)
    ensures index < |s| ==> |r| == |s| - 1
    ensures index >= |s| ==> r == s
    ensures forall k :: 0 <= k < |r| ==> r[k] == (if k < index then s[k] else s[k + 1])
  {
    if index < |s| then s[..index] + s[index + 1..] else s
  }

  /** The object URL a single preview contributes: none for a stored image. */
  function NewUrl(p: Preview): seq<string> { if p.isExisting then [] else [p.url] }

  /** The URLs of the previews made from newly picked files, in order. */
  function NewUrls(previews: seq<Preview>): (urls: seq<string>)
    ensures |urls| <= |previews|
    ensures forall k :: 0 <= k < |previews| && !previews[k].isExisting ==> previews[k].url in urls
    ensures forall u :: u in urls ==> Preview(u, false) in previews
  {
    if previews == [] then []
    else NewUrl(previews[0]) + NewUrls(previews[1..])
  }

  /** Existing images have no object URL to release. */
  lemma ExistingPreviewsRevokeNothing(images: seq<string>)
    ensures NewUrls(ExistingPreviews(images)) == []
  {
  }

  datatype ProductData = ProductData(form: Form, images: Option<seq<string>>)

  datatype SaveRequest = Create(data: ProductData) | Update(id: Option<string>, data: ProductData)

  /** `productData = {...formData}`, with `images` only when new images were picked. */
  function PayloadOf(form: Form, selectedImages: seq<string>): (d: ProductData)
    ensures d.form == form
    ensures d.images.Some? <==> |selectedImages| > 0
    ensures d.images.Some? ==> d.images.value == selectedImages
  {
    ProductData(form, if |selectedImages| > 0 then Some(selectedImages) else None)
  }

  class ProductEditor {
    var dialogOpen: bool
    var editing: Option<Listing>
    var form: Form
    var selectedImages: seq<string>
    var previews: seq<Preview>

    constructor ()
      ensures !dialogOpen && editing.None? && form == BlankForm
      ensures selectedImages == [] && previews == []
    {
      dialogOpen, editing, form := false, None, BlankForm;
      selectedImages, previews := [], [];
    }

    /** `handleEdit(product)`: the previews become the product's images only
        when it has some; otherwise they are left as they were. */
    method Edit(product: Listing)
      modifies this`editing, this`form, this`previews, this`dialogOpen
      ensures editing == Some(product) && form == FormOf(product) && dialogOpen
      ensures product.images.Some? && |product.images.value| > 0 ==> previews == ExistingPreviews(product.images.value)
      ensures !(product.images.Some? && |product.images.value| > 0) ==> previews == old(previews)
    {
      editing := Some(product);
      form := FormOf(product);
      if product.images.Some? && |product.images.value| > 0 {
        previews := ExistingPreviews(product.images.value);
      }
      dialogOpen := true;
    }

    /** `handleImageSelect`: files are checked with a 10 MB limit; a failed
        check or a failed compression only raises an alert; otherwise the
        compressed images and one new preview per file replace the old ones.
        `urls` are the object URLs the browser makes for the files. */
    method SelectImages(files: seq<ImageUtils.ImageFile>, compressed: Result<seq<string>, string>, urls: seq<string>)
      returns (alert: Option<string>)
      requires |urls| == |files|
      modifies this`selectedImages, this`previews
      ensures files == [] ==> alert.None? && unchanged(this)
      ensures files != [] && ImageUtils.FileErrors(files, 10) != [] ==>
        alert == Some("Image validation failed:\n" + Join(ImageUtils.FileErrors(files, 10), '\n')) && unchanged(this)
      ensures files != [] && ImageUtils.FileErrors(files, 10) == [] && compressed.Err? ==>
        alert == Some("Failed to process images. Please try again.") && unchanged(this)
      ensures files != [] && ImageUtils.FileErrors(files, 10) == [] && compressed.Ok? ==>
        alert.None? && selectedImages == compressed.value && previews == NewPreviews(urls)
    {
      if files == [] {
        return None;
      }
      var valid, errors := ImageUtils.ValidateImageFiles(files, 10);
      ImageUtils.NoErrorsIffAllValid(files, 10);
      if !valid {
        return Some("Image validation failed:\n" + Join(errors, '\n'));
      }
      if compressed.Err? {
        return Some("Failed to process images. Please try again.");
      }
      selectedImages := compressed.value;
      previews := NewPreviews(urls);
      alert := None;
    }

    /** `handleRemoveImage(index)`: drop entry `index` from both lists; only a
        new preview's URL is released. */
    method RemoveImage(index: nat) returns (revoked: seq<string>)
      requires index < |previews|
      modifies this`previews, this`selectedImages
      ensures previews == WithoutIndex(old(previews), index)
      ensures selectedImages == WithoutIndex(old(selectedImages), index)
      ensures revoked == (if old(previews)[index].isExisting then [] else [old(previews)[index].url])
    {
      var preview := previews[index];
      revoked := if preview.isExisting then [] else [preview.url];
      previews := WithoutIndex(previews, index);
      selectedImages := WithoutIndex(selectedImages, index);
    }

    /** `handleCloseDialog`: release every new preview's URL (the `forEach`),
        then close the dialog and restore the blank form and empty image lists. */
    method CloseDialog() returns (revoked: seq<string>)
      modifies this
      ensures revoked == NewUrls(old(previews))
      ensures !dialogOpen && editing.None? && form == BlankForm
      ensures selectedImages == [] && previews == []
    {
      revoked := [];
      var i := 0;
      while i < |previews|
        invariant 0 <= i <= |previews|
        invariant previews == old(previews)
        invariant revoked == NewUrls(previews[..i])
      {
        NewUrlsAppend(previews[..i], previews[i]);
        assert previews[..i + 1] == previews[..i] + [previews[i]];
        if !previews[i].isExisting {
          revoked := revoked + [previews[i].url];
        }
        i := i + 1;
      }
      assert previews[..i] == previews;
      dialogOpen := false;
      editing := None;
      form := BlankForm;
      selectedImages := [];
      previews := [];
    }

    /** `handleSubmit`: update the product being edited (by `_id`) or create a
        new one; a successful save closes and resets the dialog, a failed one
        leaves everything as it was. */
    method Submit(succeeded: bool) returns (request: SaveRequest, revoked: seq<string>)
      modifies this
      ensures old(editing).Some? ==> request == Update(old(editing).value.id, PayloadOf(old(form), old(selectedImages)))
      ensures old(editing).None? ==> request == Create(PayloadOf(old(form), old(selectedImages)))
      ensures succeeded ==> revoked == NewUrls(old(previews)) && !dialogOpen && editing.None?
                            && form == BlankForm && selectedImages == [] && previews == []
      ensures !succeeded ==> revoked == [] && unchanged(this)
    {
      var data := PayloadOf(form, selectedImages);
      request := if editing.Some? then Update(editing.value.id, data) else Create(data);
      revoked := [];
      if succeeded {
        revoked := CloseDialog();
      }
    }
  }

  lemma NewUrlsCons(q: seq<Preview>)
    requires q != []
    ensures NewUrls(q) == NewUrl(q[0]) + NewUrls(q[1..])
  {
  }

  lemma {:induction false} NewUrlsAppend(ps: seq<Preview>, p: Preview)
    ensures NewUrls(ps + [p]) == NewUrls(ps) + NewUrl(p)
    decreases |ps|
  {
    if ps == [] {
      assert ps + [p] == [p];
      NewUrlsCons([p]);
    } else {
      var q := ps + [p];
      assert q[0] == ps[0] && q[1..] == ps[1..] + [p];
      NewUrlsCons(q);
      NewUrlsCons(ps);
      NewUrlsAppend(ps[1..], p);
      assert NewUrl(ps[0]) + (NewUrls(ps[1..]) + NewUrl(p)) == (NewUrl(ps[0]) + NewUrls(ps[1..])) + NewUrl(p);
    }
  }

  /** Removing an existing image only hides it: with no new images picked the
      payload carries no `images`, so the saved product keeps all of them. */
  lemma RemovedExistingImageIsNotSaved(form: Form, selectedImages: seq<string>, index: nat)
    requires selectedImages == []
    ensures PayloadOf(form, WithoutIndex(selectedImages, index)).images.None?
  {
  }
}
