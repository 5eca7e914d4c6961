/**
 * The product detail view: normalising the API record, clamping the quantity picker,
 * review statistics and sorting, and the review form's checks and outcomes.
 * The current time, used as the default review date, is a parameter `now`; parsing a review
 * date into a timestamp is a parameter `parseTime`.
 */
module ProductDetail {
  import opened Wrappers
  import Lists
  import Routes
  import opened Products

  // ---------------------------------------------------------------------------
  // normalisation of the API record

  /** A JSON field that should be an array: `Array.isArray` fails for anything else. */
  datatype RawList = NotArray | ArrayOf(items: seq<string>)

  datatype RawCategory = RawCategory(
    dbId: Option<string>,
    name: Option<string>,
    status: Option<string>,
    productCount: Option<int>,
    subcategoryCount: Option<int>)

  datatype RawSubcategory = RawSubcategory(dbId: Option<string>, name: Option<string>)

  datatype RawReview = RawReview(
    dbId: Option<string>,
    id: Option<string>,
    userName: Option<string>,
    rating: Option<int>,
    comment: Option<string>,
    date: Option<string>)

  /** The product as the API sends it; the sale price arrives as `saleprice`. */
  datatype RawProduct = RawProduct(
    dbId: Option<string>,
    name: Option<string>,
    description: Option<string>,
    price: Option<int>,
    saleprice: Option<int>,
    salePrice: Option<int>,
    category: Option<RawCategory>,
    subcategory: Option<RawSubcategory>,
    thumbnails: RawList,
    gallery: RawList,
    sku: Option<string>,
    stock: Option<int>,
    specifications: Option<string>,
    reviews: Option<seq<RawReview>>,
    kind: Option<string>,
    gender: Option<string>,
    isNew: Option<bool>,
    sale: Option<bool>,
    rate: Option<int>,
    brand: Option<string>,
    sold: Option<int>,
    slug: Option<string>)

  function ListOrEmpty(l: RawList): seq<string>
  {
    match l
    case ArrayOf(items) => items
    case NotArray => []
  }

  function NormaliseReview(r: RawReview, now: string): Review
  {
    Review(
      id := StrOr(r.dbId, StrOr(r.id, "unknown")),
      userName := StrOr(r.userName, "Anonymous"),
      rating := IntOr(r.rating, 0),
      comment := StrOr(r.comment, ""),
      date := StrOr(r.date, now))
  }

  /** `reviews?.map(...) || []`. */
  function NormaliseReviews(reviews: Option<seq<RawReview>>, now: string): (r: seq<Review>)
    ensures reviews.None? ==> r == []
    ensures reviews.Some? ==> |r| == |reviews.value|
  {
    match reviews
    case None => []
    case Some(rs) => seq(|rs|, i requires 0 <= i < |rs| => NormaliseReview(rs[i], now))
  }

  /** The category as `fetchProduct` keeps it, with its counts. */
  function NormaliseCategory(c: Option<RawCategory>): Category
  {
    match c
    case None => Category("unknown", "Uncategorized", None, None, None)
    case Some(rc) =>
      Category(StrOr(rc.dbId, "unknown"), StrOr(rc.name, "Uncategorized"), rc.status, rc.productCount, rc.subcategoryCount)
  }

  function NormaliseSubcategory(c: Option<RawSubcategory>): Option<Subcategory>
  {
    match c
    case None => None
    case Some(rs) => Some(Subcategory(StrOr(rs.dbId, "unknown"), StrOr(rs.name, "None")))
  }

  /** The object `fetchProduct` builds from the API record. */
  function NormaliseProduct(raw: RawProduct, now: string): ProductType
  {
    ProductType(
      id := "",
      dbId := StrOr(raw.dbId, "unknown-id"),
      name := StrOr(raw.name, "Unnamed Product"),
      description := StrOr(raw.description, "No description available"),
      price := IntOr(raw.price, 0),
      salePrice := IntOr(raw.saleprice, 0),
      category := NormaliseCategory(raw.category),
      subcategory := NormaliseSubcategory(raw.subcategory),
      thumbnails := ListOrEmpty(raw.thumbnails),
      gallery := ListOrEmpty(raw.gallery),
      sku := StrOr(raw.sku, "N/A"),
      stock := IntOr(raw.stock, 0),
      specifications := StrOr(raw.specifications, ""),
      reviews := Some(NormaliseReviews(raw.reviews, now)),
      kind := Some(StrOr(raw.kind, "Unknown")),
      gender := Some(StrOr(raw.gender, "Unisex")),
      isNew := Some(BoolOr(raw.isNew)),
      sale := Some(BoolOr(raw.sale)),
      rate := Some(IntOr(raw.rate, 0)),
      originPrice := Some(IntOr(raw.price, 0)),
      brand := Some(StrOr(raw.brand, "Unknown")),
      sold := Some(IntOr(raw.sold, 0)),
      slug := Some(StrOr(raw.slug, StrOr(raw.dbId, "unknown-slug"))))
  }

  /**
   * The sale price comes from `saleprice` alone (a `salePrice` field is ignored) and defaults
   * to 0; non-array thumbnails and gallery become []; stock defaults to 0 and sku to "N/A";
   * the original price equals the price; reviews keep their number and order.
   */
  lemma NormaliseProductDefaults(raw: RawProduct, now: string)
    ensures var p := NormaliseProduct(raw, now);
      p.salePrice == (if raw.saleprice.Some? then raw.saleprice.value else 0)
      && p == NormaliseProduct(raw.(salePrice := None), now)
      && (raw.thumbnails.NotArray? ==> p.thumbnails == [])
      && (raw.gallery.NotArray? ==> p.gallery == [])
      && (raw.thumbnails.ArrayOf? ==> p.thumbnails == raw.thumbnails.items)
      && (raw.stock.None? ==> p.stock == 0)
      && (raw.sku.None? || raw.sku == Some("") ==> p.sku == "N/A")
      && p.originPrice == Some(p.price)
      && p.reviews.Some?
      && (raw.reviews.Some? ==> |p.reviews.value| == |raw.reviews.value|)
      && (raw.reviews.None? ==> p.reviews.value == [])
  {
  }

  /**
   * The identifying strings are never empty after normalisation, and the slug falls back to
   * the product's own id before "unknown-slug".
   */
  lemma NormalisedNamesNonEmpty(raw: RawProduct, now: string)
    ensures var p := NormaliseProduct(raw, now);
      p.dbId != "" && p.name != "" && p.description != "" && p.sku != ""
      && p.category.dbId != "" && p.category.name != ""
      && p.slug.Some? && p.slug.value != ""
      && (StrOr(raw.slug, "") == "" ==> p.slug.value == p.dbId || p.slug.value == "unknown-slug")
  {
  }

  /** Each review keeps its position; a missing date becomes `now` and a missing rating 0. */
  lemma NormaliseReviewsPointwise(rs: seq<RawReview>, now: string, i: nat)
    requires i < |rs|
    ensures var r := NormaliseReviews(Some(rs), now)[i];
      r.rating == IntOr(rs[i].rating, 0)
      && (rs[i].date.None? ==> r.date == now)
      && (rs[i].rating.None? ==> r.rating == 0)
      && (rs[i].dbId.None? && rs[i].id.None? ==> r.id == "unknown")
      && (rs[i].userName.None? ==> r.userName == "Anonymous")
  {
  }

  // ---------------------------------------------------------------------------
  // quantity picker

  /**
   * What the page holds as its product: the object `fetchProduct` builds, or, after an
   * accepted review, the server's record spread as it came, with only its category,
   * subcategory, image lists and reviews rebuilt. The spread record keeps the server's field
   * names (the sale price stays under `saleprice`) and gets none of the other defaults.
   */
  datatype ShownProduct =
    | Normalised(p: ProductType)
    | Spread(raw: RawProduct, category: Category, subcategory: Option<Subcategory>,
             thumbnails: seq<string>, gallery: seq<string>, reviews: seq<Review>)

  /** `product?.stock || 0`: no product, or a stock that is 0 or absent, gives 0. */
  function StockOf(product: Option<ShownProduct>): int
  {
    match product
    case None => 0
    case Some(Normalised(p)) => p.stock
    case Some(Spread(raw, _, _, _, _, _)) => IntOr(raw.stock, 0)
  }

  /** `product?.salePrice`: absent on a spread record whose server sent only `saleprice`. */
  function SalePriceOf(shown: ShownProduct): Option<int>
  {
    match shown
    case Normalised(p) => Some(p.salePrice)
    case Spread(raw, _, _, _, _, _) => raw.salePrice
  }

  /** `product?.reviews`. */
  function ReviewsOf(product: Option<ShownProduct>): Option<seq<Review>>
  {
    match product
    case None => None
    case Some(Normalised(p)) => p.reviews
    case Some(Spread(_, _, _, _, _, reviews)) => Some(reviews)
  }

  /**
   * `handleQuantityChange`: below 1 gives 1; above the stock gives the stock, or 1 when the
   * stock is 0; anything else is kept.
   */
  function ClampQuantity(newQuantity: int, stock: int): (r: int)
    ensures stock >= 0 ==> 1 <= r && (r <= stock || r == 1)
    ensures 1 <= newQuantity <= stock ==> r == newQuantity
    ensures newQuantity < 1 ==> r == 1
    ensures stock < 0 && newQuantity >= 1 ==> r == stock
  {
    if newQuantity < 1 then 1
    else if newQuantity > stock then (if stock != 0 then stock else 1)
    else newQuantity
  }

  /** With a non-negative stock, clamping twice is clamping once. */
  lemma ClampIdempotent(q: int, stock: int)
    requires stock >= 0
    ensures ClampQuantity(ClampQuantity(q, stock), stock) == ClampQuantity(q, stock)
  {
  }

  // ---------------------------------------------------------------------------
  // review statistics

  datatype RatingStats = RatingStats(average: real, total: nat, distribution: seq<real>)

  /** The order in which the distribution lists the stars. */
  const StarOrder := [5, 4, 3, 2, 1]

  const NoStats := RatingStats(0.0, 0, [0.0, 0.0, 0.0, 0.0, 0.0])

  function Rating(r: Review): int
  {
    r.rating
  }

  function HasRating(star: int): Review -> bool
  {
    (r: Review) => r.rating == star
  }

  function RatingCount(reviews: seq<Review>, star: int): nat
  {
    |Lists.Filter(reviews, HasRating(star))|
  }

  /** The mean rating of a non-empty list, exactly. */
  function Average(rs: seq<Review>): real
    requires rs != []
  {
    Lists.SumBy(rs, Rating) as real / |rs| as real
  }

  /** The percentage of a non-empty list rated `star`, exactly. */
  function Share(rs: seq<Review>, star: int): real
    requires rs != []
  {
    (RatingCount(rs, star) as real / |rs| as real) * 100.0
  }

  /** `calculateRatingStats`, with exact division in place of floating point. */
  function CalculateRatingStats(reviews: Option<seq<Review>>): (st: RatingStats)
    ensures |st.distribution| == 5
  {
    if reviews.None? || |reviews.value| == 0 then NoStats
    else
      var rs := reviews.value;
      RatingStats(Average(rs), |rs|, seq(5, k requires 0 <= k < 5 => Share(rs, StarOrder[k])))
  }

  predicate RatingsInRange(rs: seq<Review>)
  {
    forall i :: 0 <= i < |rs| ==> 1 <= rs[i].rating <= 5
  }

  /** When every rating is a star from 1 to 5, the five counts add up to the number of reviews. */
  lemma {:induction false} StarCountsCoverAll(rs: seq<Review>)
    requires RatingsInRange(rs)
    ensures RatingCount(rs, 5) + RatingCount(rs, 4) + RatingCount(rs, 3) + RatingCount(rs, 2) + RatingCount(rs, 1) == |rs|
    decreases |rs|
  {
    if rs != [] {
      StarCountsCoverAll(rs[1..]);
      RatingCountCons(rs, 5);
      RatingCountCons(rs, 4);
      RatingCountCons(rs, 3);
      RatingCountCons(rs, 2);
      RatingCountCons(rs, 1);
    }
  }

  /** The count of a star, split into the first review and the rest. */
  lemma RatingCountCons(rs: seq<Review>, star: int)
    requires rs != []
    ensures RatingCount(rs, star) == (if rs[0].rating == star then 1 else 0) + RatingCount(rs[1..], star)
  {
    assert Lists.Filter(rs, HasRating(star))
      == (if HasRating(star)(rs[0]) then [rs[0]] else []) + Lists.Filter(rs[1..], HasRating(star));
  }

  // exact arithmetic on shares of a positive total

  lemma DivTimes(c: real, t: real)
    requires t > 0.0
    ensures (c / t) * t == c
  {
  }

  lemma QuotientTimes(a: real, t: real, q: real)
    requires t > 0.0 && q == a / t
    ensures q * t == a
  {
    DivTimes(a, t);
  }

  lemma ShareTimes(c: real, t: real)
    requires t > 0.0
    ensures ((c / t) * 100.0) * t == 100.0 * c
  {
  }

  lemma ShareTimesAs(c: real, t: real, d: real)
    requires t > 0.0 && d == (c / t) * 100.0
    ensures d * t == 100.0 * c
  {
    ShareTimes(c, t);
  }

  lemma AddDiv(a: real, b: real, t: real)
    requires t > 0.0
    ensures a / t + b / t == (a + b) / t
  {
  }

  lemma DivBounds(s: real, t: real, lo: real, hi: real)
    requires t > 0.0 && lo * t <= s <= hi * t
    ensures lo <= s / t <= hi
  {
  }

  /** Five counts that make up the total give percentages that add up to 100. */
  lemma SharesSum(c0: real, c1: real, c2: real, c3: real, c4: real, t: real)
    requires t > 0.0 && c0 + c1 + c2 + c3 + c4 == t
    ensures (c0 / t) * 100.0 + (c1 / t) * 100.0 + (c2 / t) * 100.0 + (c3 / t) * 100.0 + (c4 / t) * 100.0 == 100.0
  {
    AddDiv(c0, c1, t);
    AddDiv(c0 + c1, c2, t);
    AddDiv(c0 + c1 + c2, c3, t);
    AddDiv(c0 + c1 + c2 + c3, c4, t);
    assert t / t == 1.0;
  }

  /** Without reviews, or with an empty list, every statistic is 0. */
  lemma RatingStatsWithoutReviews(reviews: Option<seq<Review>>)
    requires reviews.None? || reviews.value == []
    ensures CalculateRatingStats(reviews) == NoStats
  {
  }

  /** With reviews, the total is their number, the average their mean and the k-th entry of the
   * distribution the share of star 5 - k (5, 4, 3, 2, 1). */
  lemma RatingStatsMeaning(rs: seq<Review>, k: nat)
    requires rs != [] && k < 5
    ensures CalculateRatingStats(Some(rs)).total == |rs|
    ensures CalculateRatingStats(Some(rs)).average == Average(rs)
    ensures CalculateRatingStats(Some(rs)).distribution[k] == Share(rs, 5 - k)
  {
    assert StarOrder[k] == 5 - k;
  }

  /** The mean times the number of reviews is the rating sum. */
  lemma AverageTimesTotal(rs: seq<Review>)
    requires rs != []
    ensures Average(rs) * (|rs| as real) == Lists.SumBy(rs, Rating) as real
  {
    QuotientTimes(Lists.SumBy(rs, Rating) as real, |rs| as real, Average(rs));
  }

  /** A star's share times the number of reviews is 100 times the number rated that star. */
  lemma ShareTimesTotal(rs: seq<Review>, star: int)
    requires rs != []
    ensures Share(rs, star) * (|rs| as real) == (100 * RatingCount(rs, star)) as real
  {
    var c := RatingCount(rs, star);
    ShareTimesAs(c as real, |rs| as real, Share(rs, star));
    assert (100 * c) as real == 100.0 * (c as real);
  }

  /** With every rating from 1 to 5, the average lies between 1 and 5. */
  lemma RatingAverageInRange(rs: seq<Review>)
    requires rs != [] && RatingsInRange(rs)
    ensures 1.0 <= CalculateRatingStats(Some(rs)).average <= 5.0
  {
    var sum := Lists.SumBy(rs, Rating);
    forall i | 0 <= i < |rs| ensures 1 <= Rating(rs[i]) <= 5 {
    }
    Lists.SumByBounds(rs, Rating, 1, 5);
    DivBounds(sum as real, |rs| as real, 1.0, 5.0);
  }

  /** With every rating from 1 to 5, the distribution adds up to 100 percent. */
  lemma RatingDistributionSumsTo100(rs: seq<Review>)
    requires rs != [] && RatingsInRange(rs)
    ensures var d := CalculateRatingStats(Some(rs)).distribution;
      d[0] + d[1] + d[2] + d[3] + d[4] == 100.0
  {
    StarCountsCoverAll(rs);
    SharesSum(RatingCount(rs, 5) as real, RatingCount(rs, 4) as real, RatingCount(rs, 3) as real,
      RatingCount(rs, 2) as real, RatingCount(rs, 1) as real, |rs| as real);
  }

  // ---------------------------------------------------------------------------
  // review sorting

  /** The star filter selected by "5 Star" ... "1 Star". */
  function StarOption(option: string): (r: Option<int>)
    ensures r.Some? ==> 1 <= r.value <= 5
  {
    if option == "5 Star" then Some(5)
    else if option == "4 Star" then Some(4)
    else if option == "3 Star" then Some(3)
    else if option == "2 Star" then Some(2)
    else if option == "1 Star" then Some(1)
    else None
  }

  /** `new Date(b.date) - new Date(a.date)` orders by this key, ascending. */
  function NewestFirstKey(parseTime: string -> int): Review -> int
  {
    (r: Review) => 0 - parseTime(r.date)
  }

  /** `getSortedReviews` over a copy of the product's reviews. */
  function GetSortedReviews(reviews: Option<seq<Review>>, sortOption: string, parseTime: string -> int): seq<Review>
  {
    if reviews.None? then []
    else
      var copy := reviews.value;
      if sortOption == "Newest" then Lists.SortBy(copy, NewestFirstKey(parseTime))
      else
        match StarOption(sortOption)
        case Some(star) => Lists.Filter(copy, HasRating(star))
        case None => copy
  }

  /** The reviews dated at timestamp `t`. */
  function DatedAt(parseTime: string -> int, t: int): Review -> bool
  {
    (r: Review) => parseTime(r.date) == t
  }

  /** "Newest" returns the same reviews, latest date first; equal dates keep their order. */
  lemma NewestIsSortedPermutation(rs: seq<Review>, parseTime: string -> int)
    ensures var r := GetSortedReviews(Some(rs), "Newest", parseTime);
      multiset(r) == multiset(rs)
      && (forall i, j :: 0 <= i < j < |r| ==> parseTime(r[i].date) >= parseTime(r[j].date))
      && (forall t :: Lists.Filter(r, DatedAt(parseTime, t)) == Lists.Filter(rs, DatedAt(parseTime, t)))
  {
    var key := NewestFirstKey(parseTime);
    var r := Lists.SortBy(rs, key);
    Lists.SortByPermutes(rs, key);
    Lists.SortBySorted(rs, key);
    forall i, j | 0 <= i < j < |r| ensures parseTime(r[i].date) >= parseTime(r[j].date) {
      assert key(r[i]) <= key(r[j]);
    }
    forall t ensures Lists.Filter(r, DatedAt(parseTime, t)) == Lists.Filter(rs, DatedAt(parseTime, t)) {
      Lists.SortByStable(rs, key, 0 - t);
      Lists.FilterAgree(r, DatedAt(parseTime, t), Lists.KeyIs(key, 0 - t));
      Lists.FilterAgree(rs, DatedAt(parseTime, t), Lists.KeyIs(key, 0 - t));
    }
  }

  /**
   * "N Star" returns exactly the reviews rated N, in their original order, and as many of them
   * as the distribution counts.
   */
  lemma StarOptionFilters(rs: seq<Review>, option: string, parseTime: string -> int)
    requires StarOption(option).Some?
    ensures var n := StarOption(option).value;
      var r := GetSortedReviews(Some(rs), option, parseTime);
      (forall i :: 0 <= i < |r| ==> r[i].rating == n && r[i] in rs)
      && (forall i :: 0 <= i < |rs| && rs[i].rating == n ==> rs[i] in r)
      && Lists.IsSubsequence(r, rs)
      && |r| == RatingCount(rs, n)
  {
    var n := StarOption(option).value;
    Lists.FilterIsSubsequence(rs, HasRating(n));
  }

  /** Any other option returns the reviews as they are; a product without reviews shows none. */
  lemma OtherOptionsKeepReviews(reviews: Option<seq<Review>>, option: string, parseTime: string -> int)
    requires option != "Newest" && StarOption(option).None?
    ensures GetSortedReviews(reviews, option, parseTime) == (if reviews.Some? then reviews.value else [])
    ensures GetSortedReviews(None, "Newest", parseTime) == []
  {
  }

  // ---------------------------------------------------------------------------
  // the review form

  datatype ReviewForm = ReviewForm(userName: string, email: string, rating: int, comment: string)

  const EmptyReviewForm := ReviewForm("", "", 0, "")

  /** The body posted: the e-mail is checked but not sent. */
  datatype ReviewData = ReviewData(userName: string, rating: int, comment: string)

  datatype ReviewCheck = AskLogin | MissingFields | SendReview(data: ReviewData)

  /** The guards of `handleReviewSubmit`. */
  function CheckReview(isAuthenticated: bool, form: ReviewForm): ReviewCheck
  {
    if !isAuthenticated then AskLogin
    else if form.userName == "" || form.email == "" || form.rating == 0 || form.comment == "" then MissingFields
    else SendReview(ReviewData(form.userName, form.rating, form.comment))
  }

  /**
   * A review is sent exactly when the user is signed in and name, e-mail, comment and rating
   * are all filled; the e-mail is not part of what is sent.
   */
  lemma CheckReviewCases(isAuthenticated: bool, form: ReviewForm)
    ensures CheckReview(isAuthenticated, form) == AskLogin <==> !isAuthenticated
    ensures CheckReview(isAuthenticated, form).SendReview? <==>
      isAuthenticated && form.userName != "" && form.email != "" && form.rating != 0 && form.comment != ""
    ensures CheckReview(isAuthenticated, form).SendReview? ==>
      CheckReview(isAuthenticated, form).data == ReviewData(form.userName, form.rating, form.comment)
      && CheckReview(isAuthenticated, form) == CheckReview(isAuthenticated, form.(email := "x"))
  {
  }

  /** The server's answer to a posted review; an accepted one carries the product record. */
  datatype ReviewReply =
    | ReviewRejected(status: int, message: Option<string>)
    | ReviewAccepted(updated: RawProduct)
    | ReviewThrew(reason: string)

  /**
   * The product after an accepted review: `{ ...updatedProduct, category, subcategory,
   * thumbnails, gallery, reviews }`, with the category reduced to id and name.
   */
  function ApplyUpdatedProduct(updated: RawProduct, now: string): ShownProduct
  {
    var cat := if updated.category.Some? then
        Category(StrOr(updated.category.value.dbId, "unknown"), StrOr(updated.category.value.name, "Uncategorized"), None, None, None)
      else Category("unknown", "Uncategorized", None, None, None);
    Spread(updated, cat, NormaliseSubcategory(updated.subcategory),
      ListOrEmpty(updated.thumbnails), ListOrEmpty(updated.gallery), NormaliseReviews(updated.reviews, now))
  }

  /**
   * The record a review reply carries is not normalised as `fetchProduct` normalises it: its
   * lists and reviews are checked as there, but its sale price is the server's `salePrice`
   * key (not `saleprice`) and its stock gets no default; its category keeps only id and name.
   * The same record fetched has its sale price taken from `saleprice`.
   */
  lemma ReviewReplyIsNotRenormalised(updated: RawProduct, now: string)
    ensures var shown := ApplyUpdatedProduct(updated, now);
      SalePriceOf(shown) == updated.salePrice
      && SalePriceOf(Normalised(NormaliseProduct(updated, now))) == Some(IntOr(updated.saleprice, 0))
      && StockOf(Some(shown)) == StockOf(Some(Normalised(NormaliseProduct(updated, now))))
      && ReviewsOf(Some(shown)) == ReviewsOf(Some(Normalised(NormaliseProduct(updated, now))))
      && shown.thumbnails == NormaliseProduct(updated, now).thumbnails
      && shown.category.status.None? && shown.category.productCount.None?
      && shown.category.dbId == NormaliseProduct(updated, now).category.dbId
  {
  }

  /** A server answer with only `saleprice` set leaves the shown product without a sale price. */
  lemma ReviewReplyLosesSalePrice(updated: RawProduct, now: string)
    requires updated.saleprice == Some(150) && updated.salePrice.None?
    ensures SalePriceOf(ApplyUpdatedProduct(updated, now)).None?
    ensures SalePriceOf(Normalised(NormaliseProduct(updated, now))) == Some(150)
  {
  }

  /** What the product request gives: the record, a response that is not ok, or an exception. */
  datatype ProductReply = ProductFound(raw: RawProduct) | ProductNotOk(statusText: string) | ProductThrew(message: string)

  const FetchFailedFallback := "Failed to fetch product"

  /** `(err as Error).message || 'Failed to fetch product'` for the two failures. */
  function FetchErrorText(reply: ProductReply): (r: string)
    requires !reply.ProductFound?
    ensures r != ""
    ensures reply.ProductNotOk? ==> r == "Failed to fetch product: " + reply.statusText
    ensures reply.ProductThrew? && reply.message != "" ==> r == reply.message
  {
    match reply
    case ProductNotOk(statusText) => "Failed to fetch product: " + statusText
    case ProductThrew(message) => if message != "" then message else FetchFailedFallback
  }

  const LoginPath := "/login"
  const AskLoginAlert := "Please log in to submit a review."
  const MissingFieldsAlert := "Please fill in all required fields, including a rating (1–5 stars)."
  const SessionExpiredAlert := "Session expired. Please log in again."
  const ReviewSavedAlert := "Review submitted successfully!"

  function ReviewFailedAlert(reason: string): string
  {
    "Failed to submit review: " + reason
  }

  class ProductDetailView {
    var product: Option<ShownProduct>
    var loading: bool
    var error: Option<string>
    var quantity: int
    var sortOption: string
    var newReview: ReviewForm
    var alerts: seq<string>
    var route: Option<Routes.Route>
    /** How many times the view asked the auth context to log out. */
    var logoutCalls: nat

    constructor ()
      ensures product.None? && loading && error.None?
      ensures quantity == 1 && sortOption == "Newest" && newReview == EmptyReviewForm
      ensures alerts == [] && route.None? && logoutCalls == 0
    {
      product := None;
      loading := true;
      error := None;
      quantity := 1;
      sortOption := "Newest";
      newReview := EmptyReviewForm;
      alerts := [];
      route := None;
      logoutCalls := 0;
    }

    /**
     * `fetchProduct` with the server's answer: the normalised record on success, the error
     * message otherwise; loading ends either way.
     */
    method FetchProduct(reply: ProductReply, now: string)
      modifies this
      ensures !loading
      ensures reply.ProductFound? ==>
        product == Some(Normalised(NormaliseProduct(reply.raw, now))) && error == old(error)
      ensures !reply.ProductFound? ==> error == Some(FetchErrorText(reply)) && product == old(product)
      ensures quantity == old(quantity) && sortOption == old(sortOption) && newReview == old(newReview)
      ensures alerts == old(alerts) && route == old(route) && logoutCalls == old(logoutCalls)
    {
      match reply
      case ProductFound(raw) =>
        product := Some(Normalised(NormaliseProduct(raw, now)));
        loading := false;
      case ProductNotOk(_) =>
        error := Some(FetchErrorText(reply));
        loading := false;
      case ProductThrew(_) =>
        error := Some(FetchErrorText(reply));
        loading := false;
    }

    method HandleQuantityChange(newQuantity: int)
      modifies this
      ensures quantity == ClampQuantity(newQuantity, StockOf(product))
      ensures StockOf(product) >= 0 ==> 1 <= quantity && (quantity <= StockOf(product) || quantity == 1)
      ensures product == old(product) && loading == old(loading) && error == old(error)
      ensures sortOption == old(sortOption) && newReview == old(newReview) && alerts == old(alerts)
      ensures route == old(route) && logoutCalls == old(logoutCalls)
    {
      var stock := StockOf(product);
      if newQuantity < 1 {
        quantity := 1;
      } else if newQuantity > stock {
        quantity := if stock != 0 then stock else 1;
      } else {
        quantity := newQuantity;
      }
    }

    /** The review sorting shown below the statistics. */
    function SortedReviews(parseTime: string -> int): seq<Review>
      reads this
    {
      GetSortedReviews(ReviewsOf(product), sortOption, parseTime)
    }

    /**
     * `handleReviewSubmit`: the guards, then the server's answer; a 401 logs out and goes to
     * the login page, any other failure only alerts, and an accepted review replaces the
     * product and clears the form.
     */
    method HandleReviewSubmit(isAuthenticated: bool, reply: ReviewReply, now: string) returns (sent: Option<ReviewData>)
      modifies this
      ensures var check := CheckReview(isAuthenticated, old(newReview));
        (sent.Some? <==> check.SendReview?) && (sent.Some? ==> sent.value == check.data)
      ensures var check := CheckReview(isAuthenticated, old(newReview));
        (check == AskLogin ==>
          (alerts == old(alerts) + [AskLoginAlert] && route == Some(Routes.Path(LoginPath))
           && product == old(product) && newReview == old(newReview)))
        && (check == MissingFields ==>
          (alerts == old(alerts) + [MissingFieldsAlert] && route == old(route)
           && product == old(product) && newReview == old(newReview)))
      ensures sent.Some? && reply.ReviewRejected? && reply.status == 401 ==>
        (logoutCalls == old(logoutCalls) + 1 && alerts == old(alerts) + [SessionExpiredAlert]
         && route == Some(Routes.Path(LoginPath)) && product == old(product) && newReview == old(newReview))
      ensures sent.Some? && reply.ReviewRejected? && reply.status != 401 ==>
        (alerts == old(alerts) + [ReviewFailedAlert(StrOr(reply.message, "Failed to submit review"))]
         && product == old(product) && route == old(route) && newReview == old(newReview))
      ensures sent.Some? && reply.ReviewThrew? ==>
        (alerts == old(alerts) + [ReviewFailedAlert(reply.reason)] && product == old(product)
         && route == old(route) && newReview == old(newReview))
      ensures sent.Some? && reply.ReviewAccepted? ==>
        (product == Some(ApplyUpdatedProduct(reply.updated, now)) && newReview == EmptyReviewForm
         && alerts == old(alerts) + [ReviewSavedAlert] && route == old(route))
      ensures !(sent.Some? && reply.ReviewRejected? && reply.status == 401) ==> logoutCalls == old(logoutCalls)
      ensures quantity == old(quantity) && sortOption == old(sortOption)
      ensures loading == old(loading) && error == old(error)
    {
      var check := CheckReview(isAuthenticated, newReview);
      match check
      case AskLogin =>
        alerts := alerts + [AskLoginAlert];
        route := Some(Routes.Path(LoginPath));
        sent := None;
      case MissingFields =>
        alerts := alerts + [MissingFieldsAlert];
        sent := None;
      case SendReview(data) =>
        sent := Some(data);
        match reply
        case ReviewRejected(status, message) =>
          if status == 401 {
            logoutCalls := logoutCalls + 1;
            alerts := alerts + [SessionExpiredAlert];
            route := Some(Routes.Path(LoginPath));
          } else {
            alerts := alerts + [ReviewFailedAlert(StrOr(message, "Failed to submit review"))];
          }
        case ReviewThrew(message) =>
          alerts := alerts + [ReviewFailedAlert(message)];
        case ReviewAccepted(updated) =>
          product := Some(ApplyUpdatedProduct(updated, now));
          newReview := EmptyReviewForm;
          alerts := alerts + [ReviewSavedAlert];
    }
  }

  // ---------------------------------------------------------------------------
  // the sale badge

  /** `product.price`: absent on a spread record whose server left it out. */
  function PriceOf(shown: ShownProduct): Option<int>
  {
    match shown
    case Normalised(p) => Some(p.price)
    case Spread(raw, _, _, _, _, _) => raw.price
  }

  /**
   * `percentSale` as written: a missing or zero sale price gives 0; otherwise it divides the
   * price by itself, so it is 0 for every non-zero price, and NaN (`None`) when the price is 0
   * or missing.
   */
  function PercentSaleAsWritten(shown: ShownProduct): Option<int>
  {
    var sale := SalePriceOf(shown).GetOr(0);
    var price := PriceOf(shown);
    if sale == 0 then Some(0)
    else if price.None? || price.value == 0 then None
    else Some(FloorDiv(100 * (price.value - price.value), price.value))
  }

  /** The badge as written never shows a discount. */
  lemma PercentSaleAsWrittenIsNeverPositive(shown: ShownProduct)
    ensures PercentSaleAsWritten(shown) == Some(0) || PercentSaleAsWritten(shown).None?
  {
  }

  /** A product at 200 on sale for 150 shows 0 percent off instead of 25. */
  lemma PercentSaleCounterexample(p: ProductType)
    requires p.price == 200 && p.salePrice == 150
    ensures PercentSaleAsWritten(Normalised(p)) == Some(0)
    ensures PercentSale(Normalised(p)) == Some(25)
  {
  }

  /**
   * The badge with the sale price divided by the price, as the product card computes it; a
   * missing or zero sale price still gives 0, and a missing price gives NaN (`None`).
   */
  function PercentSale(shown: ShownProduct): (r: Option<int>)
    ensures SalePriceOf(shown).GetOr(0) == 0 ==> r == Some(0)
    ensures SalePriceOf(shown).GetOr(0) != 0 && PriceOf(shown).None? ==> r.None?
    ensures SalePriceOf(shown).GetOr(0) != 0 && PriceOf(shown).Some? ==>
      r == DiscountPercent(PriceOf(shown).value, SalePriceOf(shown).value)
    ensures var sale := SalePriceOf(shown).GetOr(0); var price := PriceOf(shown).GetOr(0);
      0 <= sale <= price && price > 0 ==> r.Some? && 0 <= r.value <= 100
    ensures var sale := SalePriceOf(shown).GetOr(0); var price := PriceOf(shown).GetOr(0);
      0 < sale < price && 100 * (price - sale) >= price ==> r.Some? && r.value > 0
  {
    var sale := SalePriceOf(shown).GetOr(0);
    var price := PriceOf(shown);
    if sale == 0 then Some(0)
    else if price.None? then None
    else
      var r := DiscountPercent(price.value, sale);
      assert 0 <= sale <= price.value && price.value > 0 ==> r.Some? && 0 <= r.value <= 100 by {
        if 0 <= sale <= price.value && price.value > 0 {
          DiscountPercentBounds(price.value, sale);
        }
      }
      r
  }

  /**
   * After a review reply whose record carries its sale price only under `saleprice`, even the
   * corrected badge is 0, where the freshly fetched product shows the discount.
   */
  lemma BadgeAfterReviewReply(updated: RawProduct, now: string)
    requires updated.saleprice == Some(150) && updated.salePrice.None? && updated.price == Some(200)
    ensures PercentSale(ApplyUpdatedProduct(updated, now)) == Some(0)
    ensures PercentSale(Normalised(NormaliseProduct(updated, now))) == Some(25)
  {
  }
}
