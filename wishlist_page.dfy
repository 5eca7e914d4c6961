/**
 * The wishlist page: it fills in defaults for every stored item (`filteredData`), sorts a
 * copy by the chosen option, counts pages of 12, keeps the current page in range and shows
 * one page. The wishlist itself comes from `WishlistContext` and is read-only here.
 */
module WishlistPage {
  import opened Wrappers
  import Lists
  import opened Products
  import ShopListing

  /** A stored wishlist entry: any product field may be missing. */
  datatype WishlistItem = WishlistItem(
    id: Option<string>,
    dbId: Option<string>,
    name: Option<string>,
    description: Option<string>,
    price: Option<int>,
    salePrice: Option<int>,
    category: Option<Category>,
    subcategory: Option<Subcategory>,
    thumbnails: Option<seq<string>>,
    gallery: Option<seq<string>>,
    sku: Option<string>,
    stock: Option<int>,
    specifications: Option<string>,
    reviews: Option<seq<Review>>,
    kind: Option<string>,
    gender: Option<string>,
    isNew: Option<bool>,
    sale: Option<bool>,
    rate: Option<int>,
    originPrice: Option<int>,
    brand: Option<string>,
    sold: Option<int>,
    slug: Option<string>)

  const ProductsPerPage: nat := 12
  const UnknownCategory := Category("no-data", "Unknown", None, None, None)

  /** One entry of `filteredData`: `||` defaults for most fields, `??` for the sale price and flags. */
  function NormaliseItem(item: WishlistItem): ProductType
  {
    ProductType(
      id := StrOr(item.id, StrOr(item.dbId, "no-id")),
      dbId := StrOr(item.dbId, "no-id"),
      name := StrOr(item.name, "Unnamed Product"),
      description := StrOr(item.description, "No description available"),
      price := IntOr(item.price, 0),
      salePrice := item.salePrice.GetOr(item.price.GetOr(0)),
      category := item.category.GetOr(UnknownCategory),
      subcategory := item.subcategory,
      thumbnails := item.thumbnails.GetOr([]),
      gallery := item.gallery.GetOr([]),
      sku := StrOr(item.sku, "N/A"),
      stock := IntOr(item.stock, 0),
      specifications := StrOr(item.specifications, ""),
      reviews := Some(item.reviews.GetOr([])),
      kind := item.kind,
      gender := item.gender,
      isNew := Some(item.isNew.GetOr(false)),
      sale := Some(item.sale.GetOr(false)),
      rate := item.rate,
      originPrice := item.originPrice,
      brand := item.brand,
      sold := Some(item.sold.GetOr(0)),
      slug := item.slug)
  }

  /** `filteredData`: one normalised product per wishlist entry. */
  function FilteredData(items: seq<WishlistItem>): seq<ProductType>
  {
    seq(|items|, i requires 0 <= i < |items| => NormaliseItem(items[i]))
  }

  /**
   * The id falls back from `id` to `_id` to 'no-id', skipping empty strings, so it is never
   * blank. The sale price is `salePrice ?? price ?? 0`: a stored sale price, even 0, is kept;
   * without one the sale price is the stored price, and 0 when neither exists.
   */
  lemma NormaliseItemRules(item: WishlistItem)
    ensures var p := NormaliseItem(item);
      p.id != "" && p.dbId != "" && p.name != ""
      && (item.id.Some? && item.id.value != "" ==> p.id == item.id.value)
      && ((item.id.None? || item.id.value == "") && item.dbId.Some? && item.dbId.value != "" ==>
            p.id == item.dbId.value)
      && ((item.id.None? || item.id.value == "") && (item.dbId.None? || item.dbId.value == "") ==>
            p.id == "no-id")
      && (item.salePrice.Some? ==> p.salePrice == item.salePrice.value)
      && (item.salePrice.None? && item.price.Some? ==> p.salePrice == item.price.value)
      && (item.salePrice.None? && item.price.None? ==> p.salePrice == 0)
      && p.sold.Some? && p.isNew.Some? && p.sale.Some? && p.reviews.Some?
  {
  }

  /** Normalisation keeps the length and the order of the wishlist, so the count shown is its length. */
  lemma FilteredDataPointwise(items: seq<WishlistItem>)
    ensures |FilteredData(items)| == |items|
    ensures forall i :: 0 <= i < |items| ==> FilteredData(items)[i] == NormaliseItem(items[i])
  {
  }

  // ---------------------------------------------------------------------------
  // sorting

  /** `Math.floor(100 - (p.salePrice / (p.price || 1)) * 100)`: a zero price divides by 1. */
  function WishlistDiscountOf(p: ProductType): int
  {
    DiscountPercent(if p.price == 0 then 1 else p.price, p.salePrice).value
  }

  /** The ascending key of each option; `sold ?? 0` here where the shop has `sold || 0`. */
  function SortKey(option: string): Option<ProductType -> int>
  {
    if option == ShopListing.SoldHighToLow then Some((p: ProductType) => 0 - p.sold.GetOr(0))
    else if option == ShopListing.DiscountHighToLow then Some(p => 0 - WishlistDiscountOf(p))
    else if option == ShopListing.PriceHighToLow then Some((p: ProductType) => 0 - p.price)
    else if option == ShopListing.PriceLowToHigh then Some((p: ProductType) => p.price)
    else None
  }

  /**
   * `sortedData`: a copy, sorted in place for the four known options. It is the shop's sort
   * under this page's keys, so a known option leaves the products in ascending key order.
   */
  function SortedData(products: seq<ProductType>, option: string): (r: seq<ProductType>)
    ensures multiset(r) == multiset(products)
    ensures |r| == |products|
    ensures SortKey(option).None? ==> r == products
    ensures SortKey(option).Some? ==>
      forall i, j :: 0 <= i < j < |r| ==> SortKey(option).value(r[i]) <= SortKey(option).value(r[j])
  {
    ShopListing.SortedUnder(products, SortKey(option))
  }

  /** The initial, empty option keeps the wishlist order. */
  lemma EmptyOptionKeepsOrder(products: seq<ProductType>)
    ensures SortedData(products, "") == products
  {
  }

  /**
   * The wishlist sorts exactly as the shop listing does, for every option, as long as no
   * product has a zero price (where the two discount formulas part ways).
   */
  lemma SortAgreesWithShop(products: seq<ProductType>, option: string)
    requires forall p :: p in products ==> p.price != 0
    ensures SortedData(products, option) == ShopListing.SortedData(products, option)
  {
    var mine := SortKey(option);
    var shop := ShopListing.SortKey(option);
    assert mine.Some? <==> shop.Some?;
    if mine.Some? {
      forall p | p in products ensures mine.value(p) == shop.value(p) {
        if option == ShopListing.SoldHighToLow {
          assert p.sold.GetOr(0) == ShopListing.SoldOf(p);
        } else if option == ShopListing.DiscountHighToLow {
          assert WishlistDiscountOf(p) == ShopListing.DiscountOf(p);
        }
      }
      Lists.SortByAgree(products, mine.value, shop.value);
    }
  }

  /** With a zero price the discount key is `100 - 100 * salePrice`. */
  lemma ZeroPriceDiscount(p: ProductType)
    requires p.price == 0
    ensures WishlistDiscountOf(p) == 100 - 100 * p.salePrice
  {
    var d := DiscountPercent(1, p.salePrice).value;
    assert p.salePrice as real / 1.0 == p.salePrice as real;
    assert d as real <= (100 - 100 * p.salePrice) as real < d as real + 1.0;
  }

  // ---------------------------------------------------------------------------
  // pages

  /**
   * The page-clamp effect: page 0 when there are no pages, the last page when the current
   * one is past the end, and otherwise the current page.
   */
  function ClampedPage(page: nat, pageCount: nat): (r: nat)
    ensures pageCount == 0 ==> r == 0
    ensures pageCount > 0 ==> r < pageCount
    ensures page < pageCount ==> r == page
    ensures 0 < pageCount <= page ==> r == pageCount - 1
  {
    if pageCount == 0 then 0
    else if page >= pageCount then pageCount - 1
    else page
  }

  /** Once clamped, the page stays put: the effect settles after one run. */
  lemma ClampSettles(page: nat, pageCount: nat)
    ensures ClampedPage(ClampedPage(page, pageCount), pageCount) == ClampedPage(page, pageCount)
  {
  }

  /** After clamping, the page shown is empty exactly when the wishlist is. */
  lemma ClampedPageShowsProducts<T>(sorted: seq<T>, page: nat)
    ensures var c := ShopListing.PageCount(|sorted|, ProductsPerPage);
      var shown := ShopListing.CurrentProducts(sorted, ClampedPage(page, c), ProductsPerPage);
      (|shown| > 0 <==> |sorted| > 0) && |shown| <= ProductsPerPage
  {
    var c := ShopListing.PageCount(|sorted|, ProductsPerPage);
    ShopListing.CurrentProductsBounds(sorted, ClampedPage(page, c), ProductsPerPage);
  }

  class WishlistView {
    var wishlistArray: seq<WishlistItem>
    var sortOption: string
    var currentPage: nat

    constructor (wishlist: seq<WishlistItem>)
      ensures wishlistArray == wishlist && sortOption == "" && currentPage == 0
    {
      wishlistArray := wishlist;
      sortOption := "";
      currentPage := 0;
    }

    function Products(): seq<ProductType>
      reads this
    {
      FilteredData(wishlistArray)
    }

    /** `totalProducts`, the count shown above the grid. */
    function TotalProducts(): (r: nat)
      reads this
      ensures r == |wishlistArray|
    {
      |Products()|
    }

    function Sorted(): seq<ProductType>
      reads this
    {
      SortedData(Products(), sortOption)
    }

    function PageCountShown(): (r: nat)
      reads this
      ensures r == Lists.CeilDiv(|wishlistArray|, ProductsPerPage)
    {
      ShopListing.PageCount(|Sorted()|, ProductsPerPage)
    }

    /** The visible page, never more than 12 products. */
    function CurrentProducts(): (r: seq<ProductType>)
      reads this
      ensures |r| <= ProductsPerPage
    {
      ShopListing.CurrentProductsBounds(Sorted(), currentPage, ProductsPerPage);
      ShopListing.CurrentProducts(Sorted(), currentPage, ProductsPerPage)
    }

    /** Choosing a sort option here does not reset the page. */
    method HandleSortChange(option: string)
      modifies this
      ensures sortOption == option && currentPage == old(currentPage) && wishlistArray == old(wishlistArray)
    {
      sortOption := option;
    }

    method HandlePageChange(selected: nat)
      modifies this
      ensures currentPage == selected && sortOption == old(sortOption) && wishlistArray == old(wishlistArray)
    {
      currentPage := selected;
    }

    /** The effect on `[pageCount, currentPage]`: afterwards the page is valid. */
    method ClampPage()
      modifies this
      ensures wishlistArray == old(wishlistArray) && sortOption == old(sortOption)
      ensures currentPage == ClampedPage(old(currentPage), PageCountShown())
      ensures PageCountShown() == 0 ==> currentPage == 0
      ensures PageCountShown() > 0 ==> currentPage < PageCountShown()
    {
      var pageCount := PageCountShown();
      if pageCount == 0 {
        currentPage := 0;
      } else if currentPage >= pageCount {
        currentPage := pageCount - 1;
      }
    }
  }
}
