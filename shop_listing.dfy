/**
 * The category listing `ShopBreadCrumbImg`: the four sort options, the page count and the
 * page slice, the category name shown in the breadcrumb, and the request it sends.
 *
 * ECMAScript's `Array.prototype.sort` is stable, so each option is `Lists.SortBy` under a
 * key; a descending comparator `(a, b) => k(b) - k(a)` is an ascending sort under `-k`.
 */
module ShopListing {
  import opened Wrappers
  import Lists
  import Routes
  import opened Products

  const SoldHighToLow := "soldQuantityHighToLow"
  const DiscountHighToLow := "discountHighToLow"
  const PriceHighToLow := "priceHighToLow"
  const PriceLowToHigh := "priceLowToHigh"

  /** `p.sold || 0`. */
  function SoldOf(p: ProductType): int
  {
    IntOr(p.sold, 0)
  }

  /**
   * `Math.floor(100 - (p.salePrice / p.price) * 100)`. For a zero price the comparator yields
   * `NaN`, which this model does not follow; such a product is keyed as 0.
   */
  function DiscountOf(p: ProductType): int
  {
    DiscountPercent(p.price, p.salePrice).GetOr(0)
  }

  /** The ascending key each sort option sorts by; any other option keeps the order. */
  function SortKey(option: string): Option<ProductType -> int>
  {
    if option == SoldHighToLow then Some(p => 0 - SoldOf(p))
    else if option == DiscountHighToLow then Some(p => 0 - DiscountOf(p))
    else if option == PriceHighToLow then Some((p: ProductType) => 0 - p.price)
    else if option == PriceLowToHigh then Some((p: ProductType) => p.price)
    else None
  }

  /**
   * The copy-then-sort both listings share: a stable sort under the option's key, or a plain
   * copy when there is none.
   */
  function SortedUnder(products: seq<ProductType>, key: Option<ProductType -> int>): (r: seq<ProductType>)
    ensures multiset(r) == multiset(products)
    ensures |r| == |products|
    ensures key.None? ==> r == products
    ensures key.Some? ==> Lists.SortedBy(r, key.value)
  {
    match key
    case None => products
    case Some(k) =>
      Lists.SortByPermutes(products, k);
      Lists.SortBySorted(products, k);
      assert |multiset(Lists.SortBy(products, k))| == |multiset(products)|;
      Lists.SortBy(products, k)
  }

  /** `sortedData`: a sorted copy of the products; an unknown option returns a plain copy. */
  function SortedData(products: seq<ProductType>, option: string): (r: seq<ProductType>)
    ensures multiset(r) == multiset(products)
    ensures |r| == |products|
    ensures SortKey(option).None? ==> r == products
  {
    SortedUnder(products, SortKey(option))
  }

  /** Best sellers first, a missing `sold` counting as 0. */
  lemma SoldSortIsDescending(products: seq<ProductType>)
    ensures var r := SortedData(products, SoldHighToLow);
      forall i, j :: 0 <= i < j < |r| ==> SoldOf(r[i]) >= SoldOf(r[j])
  {
    var key := SortKey(SoldHighToLow).value;
    Lists.SortBySorted(products, key);
    var r := SortedData(products, SoldHighToLow);
    forall i, j | 0 <= i < j < |r| ensures SoldOf(r[i]) >= SoldOf(r[j]) {
      assert key(r[i]) <= key(r[j]);
    }
  }

  /** Largest whole-percent discount first. */
  lemma DiscountSortIsDescending(products: seq<ProductType>)
    ensures var r := SortedData(products, DiscountHighToLow);
      forall i, j :: 0 <= i < j < |r| ==> DiscountOf(r[i]) >= DiscountOf(r[j])
  {
    var key := SortKey(DiscountHighToLow).value;
    Lists.SortBySorted(products, key);
    var r := SortedData(products, DiscountHighToLow);
    forall i, j | 0 <= i < j < |r| ensures DiscountOf(r[i]) >= DiscountOf(r[j]) {
      assert key(r[i]) <= key(r[j]);
    }
  }

  /** Most expensive first. */
  lemma PriceHighSortIsDescending(products: seq<ProductType>)
    ensures var r := SortedData(products, PriceHighToLow);
      forall i, j :: 0 <= i < j < |r| ==> r[i].price >= r[j].price
  {
    var key := SortKey(PriceHighToLow).value;
    Lists.SortBySorted(products, key);
    var r := SortedData(products, PriceHighToLow);
    forall i, j | 0 <= i < j < |r| ensures r[i].price >= r[j].price {
      assert key(r[i]) <= key(r[j]);
    }
  }

  /** Cheapest first. */
  lemma PriceLowSortIsAscending(products: seq<ProductType>)
    ensures var r := SortedData(products, PriceLowToHigh);
      forall i, j :: 0 <= i < j < |r| ==> r[i].price <= r[j].price
  {
    var key := SortKey(PriceLowToHigh).value;
    Lists.SortBySorted(products, key);
    var r := SortedData(products, PriceLowToHigh);
    forall i, j | 0 <= i < j < |r| ensures r[i].price <= r[j].price {
      assert key(r[i]) <= key(r[j]);
    }
  }

  // ---------------------------------------------------------------------------
  // pagination

  /** `Math.ceil(n / perPage)`. */
  function PageCount(n: nat, perPage: nat): nat
    requires perPage > 0
  {
    Lists.CeilDiv(n, perPage)
  }

  /** `sortedData.slice(offset, offset + perPage)` with `offset = page * perPage`. */
  function CurrentProducts<T>(sorted: seq<T>, page: nat, perPage: nat): seq<T>
  {
    Lists.JsSlice(sorted, page * perPage, page * perPage + perPage)
  }

  /**
   * A page holds at most `perPage` products, taken in order from `page * perPage`; every page
   * below the page count is non-empty and every page from it on is empty.
   */
  lemma CurrentProductsBounds<T>(sorted: seq<T>, page: nat, perPage: nat)
    requires perPage > 0
    ensures var r := CurrentProducts(sorted, page, perPage);
      |r| <= perPage
      && (forall k :: 0 <= k < |r| ==> r[k] == sorted[page * perPage + k])
      && (page < PageCount(|sorted|, perPage) <==> |r| > 0)
      && (page + 1 < PageCount(|sorted|, perPage) ==> |r| == perPage)
  {
    var n := |sorted|;
    var c := PageCount(n, perPage);
    var start := page * perPage;
    if page < c {
      MulLe(page, c - 1, perPage);
      assert start < n;
    } else {
      MulLe(c, page, perPage);
      assert start >= n;
    }
    if page + 1 < c {
      MulLe(page + 1, c - 1, perPage);
      assert (page + 1) * perPage == start + perPage;
    }
  }

  lemma MulLe(a: nat, b: nat, c: nat)
    requires a <= b
    ensures a * c <= b * c
  {
    assert b * c == a * c + (b - a) * c;
  }

  /**
   * Every product is shown on some page: the one at `page * perPage + k`, with `k < perPage`,
   * is item `k` of page `page`, and that page is below the page count.
   */
  lemma PagesCoverEveryProduct<T>(sorted: seq<T>, perPage: nat, page: nat, k: nat)
    requires k < perPage && page * perPage + k < |sorted|
    ensures page < PageCount(|sorted|, perPage)
    ensures var r := CurrentProducts(sorted, page, perPage);
      k < |r| && r[k] == sorted[page * perPage + k]
  {
    var n := |sorted|;
    var c := PageCount(n, perPage);
    var start := page * perPage;
    assert page < c by {
      if page >= c {
        MulLe(c, page, perPage);
      }
    }
    var r := CurrentProducts(sorted, page, perPage);
    assert r == sorted[start..if start + perPage <= n then start + perPage else n];
  }

  // ---------------------------------------------------------------------------
  // category name and request

  /** The name when products arrive as a prop: the first product's category name, or 'Shop'. */
  function NameFromData(data: seq<ProductType>): (r: string)
  {
    if data == [] then "Shop" else StrOr(Some(data[0].category.name), "Shop")
  }

  /** The name after a fetch: a subcategory name only when a subcategory was asked for. */
  function FetchedCategoryName(subcategoryId: Option<string>, products: seq<ProductType>): (r: string)
  {
    if |products| > 0 then
      if StrOr(subcategoryId, "") != "" && products[0].subcategory.Some?
         && products[0].subcategory.value.name != ""
      then products[0].subcategory.value.name
      else StrOr(Some(products[0].category.name), "Shop")
    else "Shop"
  }

  /**
   * The breadcrumb is never blank. It is 'Shop' for an empty result; otherwise it is the
   * first product's subcategory name exactly when a subcategory was asked for and that name
   * is present, and else the first product's category name or 'Shop'.
   */
  lemma CategoryNameChoice(subcategoryId: Option<string>, products: seq<ProductType>)
    ensures FetchedCategoryName(subcategoryId, products) != ""
    ensures products == [] ==> FetchedCategoryName(subcategoryId, products) == "Shop"
    ensures products != [] ==>
      var first := products[0];
      var useSub := subcategoryId.Some? && subcategoryId.value != ""
        && first.subcategory.Some? && first.subcategory.value.name != "";
      (useSub ==> FetchedCategoryName(subcategoryId, products) == first.subcategory.value.name)
      && (!useSub && first.category.name != "" ==> FetchedCategoryName(subcategoryId, products) == first.category.name)
      && (!useSub && first.category.name == "" ==> FetchedCategoryName(subcategoryId, products) == "Shop")
    ensures subcategoryId.None? ==> FetchedCategoryName(subcategoryId, products) == NameFromData(products)
  {
  }

  /** The request path and query: a missing `categoryId` asks for 'all'. */
  function ProductsRequest(categoryId: Option<string>, subcategoryId: Option<string>): (r: Routes.Route)
    ensures Routes.Get(r.query, "subcategoryId").Some? <==> StrOr(subcategoryId, "") != ""
  {
    var query := if StrOr(subcategoryId, "") != "" then [("subcategoryId", subcategoryId.value)] else [];
    Routes.Route("/api/products/by-category/" + categoryId.GetOr("all"), query)
  }

  /**
   * A missing category is requested as 'all'; a present one, even the empty string (`??`
   * only replaces `null`), is requested as given. The subcategory travels in the query
   * exactly when it is truthy.
   */
  lemma ProductsRequestTarget(categoryId: Option<string>, subcategoryId: Option<string>)
    ensures var r := ProductsRequest(categoryId, subcategoryId);
      (categoryId.None? ==> r.path == "/api/products/by-category/all")
      && (categoryId.Some? ==> r.path == "/api/products/by-category/" + categoryId.value)
      && (StrOr(subcategoryId, "") != "" ==> Routes.Get(r.query, "subcategoryId") == subcategoryId)
      && (StrOr(subcategoryId, "") == "" ==> r.query == [])
  {
  }

  /** What the fetch gives back: the product array, or the message of the error it threw. */
  datatype ProductsReply = ProductsOk(products: seq<ProductType>) | ProductsFailed(message: string)

  class ShopListingView {
    const perPage: nat
    var products: seq<ProductType>
    var sortOption: string
    var currentPage: nat
    var categoryName: string
    var loading: bool
    var error: Option<string>

    constructor (productPerPage: nat)
      requires productPerPage > 0
      ensures perPage == productPerPage && products == [] && sortOption == SoldHighToLow
      ensures currentPage == 0 && categoryName == "Shop" && loading && error.None?
    {
      perPage := productPerPage;
      products := [];
      sortOption := SoldHighToLow;
      currentPage := 0;
      categoryName := "Shop";
      loading := true;
      error := None;
    }

    /** The effect when products come in as a prop: nothing is fetched. */
    method LoadData(data: seq<ProductType>)
      modifies this
      ensures products == data && categoryName == NameFromData(data) && !loading
      ensures sortOption == old(sortOption) && currentPage == old(currentPage) && error == old(error)
    {
      products := data;
      categoryName := NameFromData(data);
      loading := false;
    }

    /**
     * The fetching effect: it sends `ProductsRequest` and applies the reply. A failure empties
     * the list and records the message, leaving the category name as it was.
     */
    method FetchProducts(categoryId: Option<string>, subcategoryId: Option<string>, reply: ProductsReply)
      returns (request: Routes.Route)
      modifies this
      ensures request == ProductsRequest(categoryId, subcategoryId)
      ensures !loading && sortOption == old(sortOption) && currentPage == old(currentPage)
      ensures reply.ProductsOk? ==>
        products == reply.products && error.None?
        && categoryName == FetchedCategoryName(subcategoryId, reply.products)
      ensures reply.ProductsFailed? ==>
        products == [] && error == Some(reply.message) && categoryName == old(categoryName)
    {
      loading := true;
      error := None;
      request := ProductsRequest(categoryId, subcategoryId);
      match reply {
        case ProductsOk(arr) =>
          categoryName := FetchedCategoryName(subcategoryId, arr);
          products := arr;
        case ProductsFailed(message) =>
          error := Some(message);
          products := [];
      }
      loading := false;
    }

    /** A new sort option always starts again from the first page. */
    method HandleSortChange(option: string)
      modifies this
      ensures sortOption == option && currentPage == 0
      ensures products == old(products) && categoryName == old(categoryName)
      ensures loading == old(loading) && error == old(error)
    {
      sortOption := option;
      currentPage := 0;
    }

    method HandlePageChange(selected: nat)
      modifies this
      ensures currentPage == selected && sortOption == old(sortOption) && products == old(products)
      ensures categoryName == old(categoryName) && loading == old(loading) && error == old(error)
    {
      currentPage := selected;
    }

    function SortedProducts(): seq<ProductType>
      reads this
    {
      SortedData(products, sortOption)
    }

    function PageCountShown(): nat
      reads this
      requires perPage > 0
    {
      PageCount(|products|, perPage)
    }

    /** The products on the current page, as `currentProducts`. */
    function CurrentPageProducts(): (r: seq<ProductType>)
      reads this
      requires perPage > 0
      ensures |r| <= perPage
      ensures currentPage < PageCountShown() <==> |r| > 0
    {
      CurrentProductsBounds(SortedProducts(), currentPage, perPage);
      CurrentProducts(SortedProducts(), currentPage, perPage)
    }
  }
}
