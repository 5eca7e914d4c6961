/**
 * The product record shared by the listing, detail, cart, compare and wishlist code.
 * `_id` is written `dbId`, `type` is `kind` and `new` is `isNew`; optional fields are `Option`s.
 * Prices and counts are integers; review dates are kept as the strings the API returns.
 */
module Products {
  import opened Wrappers

  datatype Category = Category(
    dbId: string,
    name: string,
    status: Option<string>,
    productCount: Option<int>,
    subcategoryCount: Option<int>)

  datatype Subcategory = Subcategory(dbId: string, name: string)

  datatype Review = Review(id: string, userName: string, rating: int, comment: string, date: string)

  datatype ProductType = ProductType(
    id: string,
    dbId: string,
    name: string,
    description: string,
    price: int,
    salePrice: int,
    category: Category,
    subcategory: Option<Subcategory>,
    thumbnails: seq<string>,
    gallery: seq<string>,
    sku: string,
    stock: int,
    specifications: string,
    reviews: Option<seq<Review>>,
    kind: Option<string>,
    gender: Option<string>,
    isNew: Option<bool>,
    sale: Option<bool>,
    rate: Option<int>,
    originPrice: Option<int>,
    brand: Option<string>,
    sold: Option<int>,
    slug: Option<string>)

  /** `Math.floor(a / b)` for a non-zero integer divisor (Dafny's `/` floors only for `b > 0`). */
  function FloorDiv(a: int, b: int): int
    requires b != 0
  {
    if b > 0 then a / b else (-a) / (-b)
  }

  /**
   * `Math.floor(100 - (salePrice / price) * 100)` in exact arithmetic: the discount in whole
   * percent. A zero price makes the quotient infinite or NaN, which is `None` here.
   */
  function DiscountPercent(price: int, salePrice: int): (r: Option<int>)
    ensures r.Some? <==> price != 0
    ensures r.Some? ==>
      var x := 100.0 - (salePrice as real / price as real) * 100.0;
      r.value as real <= x < r.value as real + 1.0
  {
    if price == 0 then None
    else
      var q := FloorDiv(100 * (price - salePrice), price);
      FloorDivBounds(100 * (price - salePrice), price);
      QuotientForm(price as real, salePrice as real);
      Some(q)
  }

  /** `100 - (s / p) * 100` is `100 * (p - s) / p`. */
  lemma QuotientForm(p: real, s: real)
    requires p != 0.0
    ensures 100.0 - (s / p) * 100.0 == (100.0 * (p - s)) / p
  {
    var x := 100.0 - (s / p) * 100.0;
    var y := (100.0 * (p - s)) / p;
    assert (s / p) * p == s;
    assert x * p == 100.0 * p - 100.0 * s;
    assert y * p == 100.0 * (p - s);
    assert x == (x * p) / p;
    assert y == (y * p) / p;
  }

  /** The floor of the exact quotient lies within one below it. */
  lemma FloorDivBounds(a: int, b: int)
    requires b != 0
    ensures FloorDiv(a, b) as real <= a as real / b as real < FloorDiv(a, b) as real + 1.0
  {
    var q := FloorDiv(a, b);
    var c, d := if b > 0 then a else -a, if b > 0 then b else -b;
    assert q == c / d && d > 0;
    var m := c - q * d;
    assert 0 <= m < d;
    assert a as real / b as real == c as real / d as real;
    assert c as real / d as real == q as real + m as real / d as real;
    assert 0.0 <= m as real / d as real < 1.0;
  }

  /** A sale price between 0 and a positive list price gives a discount from 0 to 100 percent. */
  lemma DiscountPercentBounds(price: int, salePrice: int)
    requires 0 <= salePrice <= price && price > 0
    ensures var r := DiscountPercent(price, salePrice).value; 0 <= r <= 100
    ensures salePrice == price ==> DiscountPercent(price, salePrice) == Some(0)
    ensures salePrice == 0 ==> DiscountPercent(price, salePrice) == Some(100)
  {
  }
}
