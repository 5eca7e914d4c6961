# MalukForever storefront core, modelled in Dafny

MalukForever is a Next.js storefront. This project models the part of its front end that holds business logic:

- the cart and compare reducers;
- the authentication context (login, logout, rehydration from storage, the periodic expiry check);
- the product card's add-to-cart and wishlist toggle;
- the cart page's totals, shipping and coupon handling, and its hand-over to checkout;
- the checkout page's form handling, validation, pincode look-ups, totals and order submission;
- the product detail page's normalisation of the API record, quantity clamp, rating statistics, review sorting and review submission;
- the shop listing's sorting, pagination and category name;
- the wishlist page's normalisation, sorting and page clamp;
- the `Rate` star row;
- the account page's loading, address form, address saving, order cancelling and dashboard;
- the order-confirmation and payment-failure pages' entry logic, error routing and display rules.

## How it is built

Each core file is one module:

| module | file |
| --- | --- |
| `CartContext` | `cart_context.dfy` |
| `CompareContext` | `compare_context.dfy` |
| `AuthContext` | `auth_context.dfy` |
| `ProductCard` | `product_card.dfy` |
| `CartPage` | `cart_page.dfy` |
| `CheckoutPage` | `checkout_page.dfy` |
| `ProductDetail` | `product_detail.dfy` |
| `ShopListing` | `shop_listing.dfy` |
| `WishlistPage` | `wishlist_page.dfy` |
| `Rate` | `rate.dfy` |
| `MyAccount` | `my_account.dfy` |
| `OrderConfirmation` | `order_confirmation.dfy` |
| `OrderFailure` | `order_failure.dfy` |

Six shared modules sit under them:

- `Wrappers`: `Option`, plus JavaScript's `||` on optional values, which is kept apart from `??`.
- `Text`: trimming, digit filtering, `indexOf` and `includes`, `String(n)` and `Number(s)` on integers, and the e-mail pattern.
- `Lists`: `filter`, sums, a stable sort by key, `Math.ceil` division and `slice`.
- `Products`: the product record and the whole-percent discount.
- `Orders`: the order record and its subtotal.
- `Routes`: a route as a path with its query, and `URLSearchParams.get`.

Reducers, computations and predicates are functions. Each page's React state becomes a class whose fields are the state variables. Its handlers are methods that state the whole new state, with the server's answer passed in as a parameter: each either lists in `ensures` every field it leaves alone or names in a field-level `modifies` clause (``modifies this`shippingCost``) the only fields it may write.

Loops in the source stay loops:

- the `Rate` rendering loop;
- the checkout's `forEach` over the cart.

JavaScript details the model writes out:

- The falsy values `""` and `0` are handled explicitly.
- `Array.prototype.sort` is stable, so sorting is modelled by a stable insertion sort, with a negated key for descending order.
- `URLSearchParams.get` returns the first value for a key.
- `Math.floor` of a quotient is computed on exact rationals.

## Model

| member | source | states |
|---|---|---|
| CartContext.AddAppendsOne | src/context/CartContext.tsx:44-59 | ADD_TO_CART appends exactly one line at the end, keeps every earlier line and never merges lines |
| CartContext.NewItemDefaults | src/context/CartContext.tsx:45-55 | the defaults apply only to absent fields; a present 0 or "" is kept |
| CartContext.AddTwiceDuplicates | src/context/CartContext.tsx:44-59 | adding the same product twice leaves two lines with the same id |
| CartContext.RemoveDropsExactlyId | src/context/CartContext.tsx:60-64 | after removal no line carries the id, every other line survives, and the survivors keep their order |
| CartContext.RemoveIdempotent | src/context/CartContext.tsx:60-64 | removing twice is removing once |
| CartContext.RemoveAbsentId | src/context/CartContext.tsx:60-64 | removing an id no line carries changes nothing |
| CartContext.UpdateSetsMatchingLines | src/context/CartContext.tsx:65-78 | every line with the id gets the new quantity, size and color and keeps its other fields; other lines are untouched; length and order are kept |
| CartContext.UpdateAbsentId | src/context/CartContext.tsx:65-78 | updating an id no line carries changes nothing |
| CartContext.LoadReplaces | src/context/CartContext.tsx:79-83 | LOAD_CART replaces the cart with the given lines |
| CartContext.OtherActionIsIdentity | src/context/CartContext.tsx:84-85 | any other action leaves the state unchanged |
| CompareContext.AddAppends | src/context/CompareContext.tsx:28-33 | adding appends the product at the end, even when its `_id` is already listed |
| CompareContext.RemoveFiltersDbId | src/context/CompareContext.tsx:34-38 | removal drops every entry with that `_id`, whatever its `id`, and keeps the others in order |
| CompareContext.RemoveIdempotent | src/context/CompareContext.tsx:34-38 | removing twice is removing once |
| CompareContext.AddThenRemove | src/context/CompareContext.tsx:28-38 | adding and then removing a product's `_id` equals removing it from the original list |
| CompareContext.LoadReplaces | src/context/CompareContext.tsx:39-43 | LOAD_COMPARE replaces the list |
| CompareContext.OtherActionIsIdentity | src/context/CompareContext.tsx:44-45 | any other action leaves the state unchanged |
| AuthContext.LoginPersistsSameValue | src/lib/authContext.tsx:21-26 | login sets the tokens and stores exactly the same value |
| AuthContext.LogoutAlwaysClears | src/lib/authContext.tsx:28-46 | logout always ends with no tokens and nothing stored, since the `finally` runs whether the request succeeds or throws; it sends a server request exactly when a token is held |
| AuthContext.RehydrateStoredToken | src/lib/authContext.tsx:49-75 | a stored token that has expired or cannot be decoded is cleared from state and storage; a valid one is restored |
| AuthContext.ExpiryAtNowIsValid | src/lib/authContext.tsx:56-58 | a token whose expiry equals the current time still counts as valid |
| AuthContext.RehydrateEndsLoading | src/lib/authContext.tsx:49-75 | loading ends after rehydration unless the stored text is not JSON, where the parse throws first |
| AuthContext.RehydrateMissingToken | src/lib/authContext.tsx:53-67 | a stored object without an access token is treated like an undecodable one |
| AuthContext.CheckTokenExpirationOutcomes | src/lib/authContext.tsx:77-94 | the periodic check does nothing while loading or without a token; otherwise it logs out exactly when the token has expired or cannot be decoded |
| AuthContext.FreshLoginSurvivesCheck | src/lib/authContext.tsx:21-26 | a login with an unexpired token survives the periodic check once loading is over |
| AuthContext.AuthProvider.constructor | src/lib/authContext.tsx:16-17 | first render: no tokens, loading, and whatever is already stored |
| AuthContext.AuthProvider.Login | src/lib/authContext.tsx:21-26 | the new state and storage are those of the login step |
| AuthContext.AuthProvider.Logout | src/lib/authContext.tsx:28-46 | the new state is the logout step's, and the request is sent only with a token |
| AuthContext.AuthProvider.Rehydrate | src/lib/authContext.tsx:49-75 | the new state is the rehydration step's; when the parse throws, it reports that it was not handled and nothing changes |
| AuthContext.AuthProvider.CheckTokenExpiration | src/lib/authContext.tsx:77-94 | the new state is the periodic check step's |
| ProductCard.FindLine | src/components/Product/Product.tsx:32 | the index of the first cart line with the product's `_id`, or none when no line has it |
| ProductCard.AddNewProduct | src/components/Product/Product.tsx:31-34 | a product not yet in the cart is appended as one line with quantity 1 and the chosen size and color |
| ProductCard.AddExistingProduct | src/components/Product/Product.tsx:35-38 | for a product already in the cart: the line count stays the same, its quantity grows by exactly one, and other lines are untouched |
| ProductCard.AddOrIncrementKeepsOneLinePerProduct | src/components/Product/Product.tsx:30-40 | on a cart whose lines are keyed by their `_id`, adding keeps it keyed and with one line per product |
| ProductCard.AddOrIncrementKeepsUniqueIds | src/components/Product/Product.tsx:30-40 | on any cart with at most one line per `_id`, keyed or not, adding to the cart keeps at most one line per `_id` |
| ProductCard.AddAllKeepsOneLinePerProduct | src/components/Product/Product.tsx:30-40 | on a keyed cart, any sequence of add-to-cart clicks keeps one line per product |
| ProductCard.AddAllKeepsUniqueIds | src/components/Product/Product.tsx:30-40 | on any cart with at most one line per `_id`, any sequence of add-to-cart clicks keeps at most one line per `_id` |
| ProductCard.FromEmptyCart | src/components/Product/Product.tsx:30-40 | every click sequence starting from an empty cart keeps one line per product |
| ProductCard.ToggleFlipsMembership | src/components/Product/Product.tsx:42-49 | a wishlist click flips the product's membership and leaves every other product's alone |
| ProductCard.ToggleTwiceRestoresMembership | src/components/Product/Product.tsx:42-49 | two clicks restore every product's membership |
| ProductCard.BadgeAgreesWithPrice | src/components/Product/Product.tsx:129-130 | with the sale badge, the shown price is the sale price and differs from the struck-out price; without it, the list price is shown |
| ProductCard.ProductCardView.HandleAddToCart | src/components/Product/Product.tsx:30-40 | the cart becomes the add-or-increment result and the cart modal opens |
| ProductCard.ProductCardView.HandleAddToWishlist | src/components/Product/Product.tsx:42-49 | the wishlist is toggled and the wishlist modal opens |
| CartPage.Shipping | src/app/cart/page.tsx:41-47 | shipping is free exactly when the cart is empty or its subtotal reaches 150; otherwise it is the local rate of 30 |
| CartPage.FreeShipRemainder | src/app/cart/page.tsx:121 | the amount still missing before shipping becomes free: never negative, 0 exactly from 150 on, and otherwise exactly the gap to 150 |
| CartPage.NoRemainderMeansFreeShipping | src/app/cart/page.tsx:41-47 | once the banner asks for nothing more, no shipping is charged |
| CartPage.SubtotalOfAppend | src/app/cart/page.tsx:38 | adding a line adds exactly its sale price times quantity to the subtotal |
| CartPage.SubtotalNonNegative | src/app/cart/page.tsx:38 | with non-negative prices and quantities the subtotal is non-negative |
| CartPage.FindById | src/app/cart/page.tsx:51 | the index of the first line with that id, or none |
| CartPage.QuantityChangeEffect | src/app/cart/page.tsx:50-55 | without a line of that id nothing changes; otherwise every line with the id gets the quantity and the first such line's size and color |
| CartPage.ControlsKeepQuantitiesPositive | src/app/cart/page.tsx:180-189 | the minus and plus controls never take a line below one |
| CartPage.RemoveKeepsQuantitiesPositive | src/app/cart/page.tsx:200 | the remove control keeps every remaining quantity positive |
| CartPage.CouponResult | src/app/cart/page.tsx:57-85 | there is no error exactly when the coupon is accepted; a rejected coupon gives discount 0 and a non-empty error |
| CartPage.CheckoutQuery | src/app/cart/page.tsx:87-92 | the query carries discount and shipping, and `coupon` only when a discount is applied |
| CartPage.DiscountAfterInput | src/app/cart/page.tsx:216 | as evidently intended, an edit that changes the code withdraws the discount, so a positive discount always goes with the code that earned it |
| CartPage.CartView.constructor | src/app/cart/page.tsx:20-47 | the initial state followed by the totals effect |
| CartPage.CartView.RecomputeTotals | src/app/cart/page.tsx:37-48 | the subtotal is recomputed and shipping is reset from it |
| CartPage.CartView.ChooseShipping | src/app/cart/page.tsx:41-47 | a shipping radio click sets shipping; a disabled radio does nothing |
| CartPage.CartView.HandleQuantityChange | src/app/cart/page.tsx:50-55 | the cart becomes the reducer's result and the totals follow it |
| CartPage.CartView.Remove | src/app/cart/page.tsx:200 | the line is removed and the totals follow |
| CartPage.CartView.HandleApplyCoupon | src/app/cart/page.tsx:57-85 | a blank code only sets the error and sends nothing; otherwise the current total is sent and the answer applied |
| CartPage.CartView.HandleCouponInput | src/app/cart/page.tsx:215-216 | typing in the coupon input changes only the code; an applied discount stays |
| CartPage.CartView.RedirectToCheckout | src/app/cart/page.tsx:87-92 | the route becomes checkout with the query above |
| CheckoutPage.FillFormFields | src/app/checkout/page.tsx:79-92 | loading a saved address into the form maps each field and strips "+91" from the phone |
| CheckoutPage.DigitsHaveNoCountryCode | src/app/checkout/page.tsx:576 | a digits-only phone never contains "+91" |
| CheckoutPage.FormAddressRoundTrip | src/app/checkout/page.tsx:79-92 | a form with a digits-only phone survives conversion to an address and back |
| CheckoutPage.AddressFormRoundTrip | src/app/checkout/page.tsx:79-92 | a saved address with a "+91"-and-digits phone survives conversion to a form and back |
| CheckoutPage.PhoneFilter | src/app/checkout/page.tsx:481 | the phone keeps only digits, at most ten of them |
| CheckoutPage.PhoneFilterIdempotent | src/app/checkout/page.tsx:481 | filtering a filtered phone changes nothing, and a short digit string is kept |
| CheckoutPage.CartTotals | src/app/checkout/page.tsx:349-356 | the loop's totals are the sale-price sum and the per-line savings sum |
| CheckoutPage.SavingsNonNegative | src/app/checkout/page.tsx:349-356 | with non-negative quantities the savings are never negative |
| CheckoutPage.SavingsAreListMinusSale | src/app/checkout/page.tsx:349-356 | when no line sells above list price, savings are list total minus sale total |
| CheckoutPage.SingleProductTotals | src/app/checkout/page.tsx:342-344 | savings are counted only when the list price exceeds the sale price |
| CheckoutPage.SingleProductIsOneLineCart | src/app/checkout/page.tsx:337-357 | a single product is totalled like a one-line cart |
| CheckoutPage.CartQueryRoundTrip | src/app/checkout/page.tsx:327-335 | checkout reads back exactly the discount and shipping the cart page sent, and treats the coupon as applied exactly when the discount is positive |
| CheckoutPage.CheckoutTotalMatchesCartTotal | src/app/checkout/page.tsx:327-335 | coming from the cart with the same cart, the checkout total equals the cart page's total exactly when the discount is 0, or positive and sent with a non-empty code |
| CheckoutPage.ClearedCouponLosesDiscount | src/app/cart/page.tsx:88-90 | a discount of 10 sent with an empty code after the input was cleared: checkout charges the subtotal plus 30, while the cart showed the subtotal plus 20 |
| CheckoutPage.IntendedHandOffKeepsTotal | src/app/cart/page.tsx:215-216 | with the intended coupon input, the checkout total equals the cart page's total whatever is typed before leaving |
| CheckoutPage.CheckPinCodeAvailability | src/app/checkout/page.tsx:156-180 | serviceable exactly when the answer is ok and successful, and then the cost is never 0 (a missing or zero cost becomes 50); otherwise the cost is 0 and a non-empty message is given |
| CheckoutPage.FetchPincodeDetails | src/app/checkout/page.tsx:182-201 | success exactly when the answer is ok and successful and carries a `details` object; success takes city and state from `details`; an ok, successful answer without `details` throws on `result.details.city` and ends in the catch's "Error fetching pincode details"; any failure carries a non-empty message and no city or state |
| CheckoutPage.OrderItems | src/app/checkout/page.tsx:547-564 | one item for a single product, or one per cart line with its quantity, each priced at the sale price |
| CheckoutPage.FindAddress | src/app/checkout/page.tsx:566 | the first saved address with that `_id`, or none |
| CheckoutPage.EndpointChoice | src/app/checkout/page.tsx:646-649 | the order goes to PhonePe's endpoint exactly for the "PhonePe" method |
| CheckoutPage.SubmitCheckOrder | src/app/checkout/page.tsx:530-620 | the checks run in a fixed order and the first failing one decides the message |
| CheckoutPage.SubmitSendsOrder | src/app/checkout/page.tsx:576-649 | a sent order goes to its method's endpoint; a typed phone carries "+91"; the coupon is sent only with a positive discount |
| CheckoutPage.OrderReplyOutcomes | src/app/checkout/page.tsx:662-704 | only an accepted COD order reaches the confirmation page; only an accepted PhonePe order with a payment URL and a loaded script opens the PhonePe checkout; every other answer shows an error |
| CheckoutPage.CheckoutView.constructor | src/app/checkout/page.tsx:100-150 | the page's initial state |
| CheckoutPage.CheckoutView.ApplyQuery | src/app/checkout/page.tsx:327-357 | coupon, discount and shipping come from the query, and the totals come from the cart or product; its `modifies` clause names those seven fields and no other |
| CheckoutPage.CheckoutView.ApplySetup | src/app/checkout/page.tsx:327-335 | shipping comes from the query; an applied coupon sets the code, the discount and the applied flag; no other field may change |
| CheckoutPage.CheckoutView.ApplyTotals | src/app/checkout/page.tsx:337-357 | the totals are the single product's when there is one, otherwise the cart loop's; a malformed product changes nothing; only the product and the two totals may change |
| CheckoutPage.CheckoutView.HandlePhoneChange | src/app/checkout/page.tsx:479-489 | the edited form's phone becomes the filtered value and its saved address is deselected (billing only when it does not follow shipping); only the forms and their selections may change |
| CheckoutPage.CheckoutView.HandlePinCodeChange | src/app/checkout/page.tsx:447-477 | a 6-character shipping pincode is looked up; any other length clears the status and the shipping cost; only the forms, their selections, the shipping cost and the pincode status may change |
| CheckoutPage.CheckoutView.ShippingPinCodeChange | src/app/checkout/page.tsx:449-472 | the saved shipping address is deselected and the pincode stored; a 6-character pincode takes city and state from a successful look-up (blank otherwise) and cost and status from the availability answer; any other length clears city, state, cost and status; no other field may change |
| CheckoutPage.CheckoutView.BillingPinCodeChange | src/app/checkout/page.tsx:473-476 | only the billing pincode changes, and the saved billing address is deselected unless billing follows shipping; no other field may change |
| CheckoutPage.CheckoutView.HandleApplyCoupon | src/app/checkout/page.tsx:203-235 | nothing happens once a coupon is applied; a blank code is an error and posts nothing; otherwise the code and the current total are posted and the server's answer is applied; only the discount, the coupon error, the applied flag and the request log may change |
| CheckoutPage.CheckoutView.HandleSubmit | src/app/checkout/page.tsx:530-660 | the outcome is the pure check of the page's state; a failed check sets its message and clears the busy flag; a sent order leaves the page busy; only the route, the busy flag, the payment error and the sent orders may change |
| CheckoutPage.CheckoutView.ApplySubmitOutcome | src/app/checkout/page.tsx:532-620 | a redirect or a failed check ends with the page not busy; a crash or a sent order leaves it busy; only a sent order is recorded; only the route, the busy flag, the payment error and the sent orders may change |
| CheckoutPage.CheckoutView.HandleOrderReply | src/app/checkout/page.tsx:662-704 | a confirmation routes away, an opened PhonePe checkout keeps the page busy with its payment URL, and a failure sets the error; only the route, the busy flag, the payment error and the payment URL may change, so the totals and `FinalAmountShown` survive |
| CheckoutPage.CheckoutView.HandlePhonePeCallback | src/app/checkout/page.tsx:680-689 | the page is no longer busy whatever the answer; a cancel sets the error and a conclusion sets the status message; no other field may change |
| ProductDetail.NormaliseReviews | src/components/Product/Detail/Default.tsx:88-128 | reviews default to an empty list and keep their number |
| ProductDetail.NormaliseProductDefaults | src/components/Product/Detail/Default.tsx:88-128 | the sale price comes from `saleprice` alone, defaulting to 0; non-array lists become []; the other documented defaults apply |
| ProductDetail.NormalisedNamesNonEmpty | src/components/Product/Detail/Default.tsx:88-128 | the id, name and slug are never empty; the slug falls back to the product id |
| ProductDetail.NormaliseReviewsPointwise | src/components/Product/Detail/Default.tsx:88-128 | each review keeps its position; a missing date becomes now and a missing rating 0 |
| ProductDetail.ClampQuantity | src/components/Product/Detail/Default.tsx:158-162 | below 1 gives 1; above the stock gives the stock, or 1 when the stock is 0; anything else is kept |
| ProductDetail.ClampIdempotent | src/components/Product/Detail/Default.tsx:158-162 | clamping twice is clamping once |
| ProductDetail.CalculateRatingStats | src/components/Product/Detail/Default.tsx:244-255 | the distribution lists five entries, for stars 5 down to 1 |
| ProductDetail.StarCountsCoverAll | src/components/Product/Detail/Default.tsx:248-254 | with every rating from 1 to 5, the five star counts add up to the number of reviews |
| ProductDetail.RatingStatsWithoutReviews | src/components/Product/Detail/Default.tsx:245-247 | without reviews every statistic is 0 |
| ProductDetail.RatingStatsMeaning | src/components/Product/Detail/Default.tsx:244-255 | the total is the review count, the average is the mean, and entry k is the share of star 5 - k |
| ProductDetail.AverageTimesTotal | src/components/Product/Detail/Default.tsx:248 | the average times the count is the rating sum |
| ProductDetail.ShareTimesTotal | src/components/Product/Detail/Default.tsx:249-254 | a star's share times the count is 100 times that star's count |
| ProductDetail.RatingAverageInRange | src/components/Product/Detail/Default.tsx:248 | with ratings from 1 to 5 the average lies from 1 to 5 |
| ProductDetail.RatingDistributionSumsTo100 | src/components/Product/Detail/Default.tsx:249-254 | with ratings from 1 to 5 the distribution adds up to 100 |
| ProductDetail.StarOption | src/components/Product/Detail/Default.tsx:263-272 | a star filter, when one is selected, is a star from 1 to 5 |
| ProductDetail.NewestIsSortedPermutation | src/components/Product/Detail/Default.tsx:261-262 | "Newest" returns the same reviews latest first, and reviews with the same date keep their original order |
| ProductDetail.StarOptionFilters | src/components/Product/Detail/Default.tsx:263-272 | "N Star" returns exactly the reviews rated N, in order, as many as the distribution counts |
| ProductDetail.OtherOptionsKeepReviews | src/components/Product/Detail/Default.tsx:259-274 | any other option returns the reviews unchanged |
| ProductDetail.CheckReviewCases | src/components/Product/Detail/Default.tsx:179-190 | a review is sent exactly when the user is signed in and name, e-mail, comment and rating are all filled |
| ProductDetail.FetchErrorText | src/components/Product/Detail/Default.tsx:85-133 | a failed product request gives a non-empty message: the status text after "Failed to fetch product: ", or the exception's message, or the fallback |
| ProductDetail.ReviewReplyIsNotRenormalised | src/components/Product/Detail/Default.tsx:217-235 | the record a review reply carries is spread as it came: lists, reviews and stock read as after a fetch, but the sale price is the server's `salePrice` key and the category keeps only id and name |
| ProductDetail.ReviewReplyLosesSalePrice | src/components/Product/Detail/Default.tsx:217-235 | a reply with only `saleprice` set leaves the shown product without a sale price, where a fetch of the same record shows one |
| ProductDetail.ProductDetailView.constructor | src/components/Product/Detail/Default.tsx:27-36 | the page's initial state |
| ProductDetail.ProductDetailView.FetchProduct | src/components/Product/Detail/Default.tsx:79-137 | a found record becomes the normalised product; a failure records its message; loading ends either way and nothing else changes |
| ProductDetail.ProductDetailView.HandleQuantityChange | src/components/Product/Detail/Default.tsx:158-162 | the quantity becomes the clamped value for the shown product's stock; nothing else changes |
| ProductDetail.ProductDetailView.HandleReviewSubmit | src/components/Product/Detail/Default.tsx:179-242 | the guards come first; a 401 logs out and goes to login; another failure only alerts; success shows the server's record, spread, and clears the form; every branch states the rest of the state unchanged |
| ProductDetail.PercentSaleAsWrittenIsNeverPositive | src/components/Product/Detail/Default.tsx:285 | the badge as written never shows a discount, whichever way the product was obtained |
| ProductDetail.BadgeAfterReviewReply | src/components/Product/Detail/Default.tsx:217-235 | after a review reply whose record names its sale price `saleprice`, even the corrected badge drops from 25 to 0 |
| ProductDetail.PercentSaleCounterexample | src/components/Product/Detail/Default.tsx:285 | a product priced 200 on sale for 150 shows 0 percent instead of 25 |
| ProductDetail.PercentSale | src/components/Product/Detail/Default.tsx:285 | the corrected badge, for a fetched product or one spread from a review reply: 0 without a sale price, NaN without a price, from 0 to 100 for a sale price between 0 and a positive list price, and positive for a discount of at least one percent |
| ShopListing.SortedUnder | src/components/Shop/ShopBreadCrumbImg.tsx:97-113 | the copy-then-sort both listings share: a permutation, in ascending order of the key when there is one, the copy unchanged when there is none |
| ShopListing.SortedData | src/components/Shop/ShopBreadCrumbImg.tsx:97-113 | the result is a permutation of the products, and an unknown option keeps the order |
| ShopListing.SoldSortIsDescending | src/components/Shop/ShopBreadCrumbImg.tsx:99-100 | best sellers come first, with a missing `sold` counting as 0 |
| ShopListing.DiscountSortIsDescending | src/components/Shop/ShopBreadCrumbImg.tsx:101-106 | the largest whole-percent discount comes first |
| ShopListing.PriceHighSortIsDescending | src/components/Shop/ShopBreadCrumbImg.tsx:107-108 | the most expensive product comes first |
| ShopListing.PriceLowSortIsAscending | src/components/Shop/ShopBreadCrumbImg.tsx:109-110 | the cheapest product comes first |
| ShopListing.CurrentProductsBounds | src/components/Shop/ShopBreadCrumbImg.tsx:115-116 | a page holds at most `productPerPage` products, taken in order from its offset; it is non-empty exactly below the page count, and full before the last page |
| ShopListing.PagesCoverEveryProduct | src/components/Shop/ShopBreadCrumbImg.tsx:31 | every product appears on the page its position falls in, and that page is below the page count |
| ShopListing.CategoryNameChoice | src/components/Shop/ShopBreadCrumbImg.tsx:66-73 | the breadcrumb is never blank; it is 'Shop' for an empty result, and otherwise the subcategory or category name of the first product |
| ShopListing.ProductsRequest | src/components/Shop/ShopBreadCrumbImg.tsx:46-51 | the request path is the category endpoint |
| ShopListing.ProductsRequestTarget | src/components/Shop/ShopBreadCrumbImg.tsx:46-51 | a missing category is requested as 'all'; the subcategory is sent only when it is non-empty |
| ShopListing.ShopListingView.constructor | src/components/Shop/ShopBreadCrumbImg.tsx:19-24 | the initial state |
| ShopListing.ShopListingView.LoadData | src/components/Shop/ShopBreadCrumbImg.tsx:34-38 | products passed in as data are shown without a fetch |
| ShopListing.ShopListingView.FetchProducts | src/components/Shop/ShopBreadCrumbImg.tsx:41-83 | the request is sent and the reply applied; a failure empties the list and records the message |
| ShopListing.ShopListingView.HandleSortChange | src/components/Shop/ShopBreadCrumbImg.tsx:92-95 | a new sort option starts again from page 0 |
| ShopListing.ShopListingView.HandlePageChange | src/components/Shop/ShopBreadCrumbImg.tsx:118-120 | the page becomes the selected one |
| ShopListing.ShopListingView.CurrentPageProducts | src/components/Shop/ShopBreadCrumbImg.tsx:116 | the shown page never holds more than `productPerPage` products |
| WishlistPage.NormaliseItemRules | src/app/wishlist/page.tsx:36-59 | the id falls back from `id` to `_id` to 'no-id'; the sale price is `salePrice ?? price ?? 0` |
| WishlistPage.FilteredDataPointwise | src/app/wishlist/page.tsx:36-61 | normalisation keeps the wishlist's length and order |
| WishlistPage.SortedData | src/app/wishlist/page.tsx:63-76 | the shop's copy-then-sort under this page's keys: a permutation, in ascending key order for a known option, and an unknown option keeps the order |
| WishlistPage.EmptyOptionKeepsOrder | src/app/wishlist/page.tsx:22-26 | the initial empty option keeps the wishlist order |
| WishlistPage.SortAgreesWithShop | src/app/wishlist/page.tsx:63-76 | with no zero-priced product, the wishlist sorts exactly as the shop listing does |
| WishlistPage.ZeroPriceDiscount | src/app/wishlist/page.tsx:68-71 | with a zero price the discount key is 100 - 100 × the sale price |
| WishlistPage.ClampedPage | src/app/wishlist/page.tsx:81-87 | the page is 0 without pages, otherwise below the page count, and past the end it becomes the last page |
| WishlistPage.ClampSettles | src/app/wishlist/page.tsx:81-87 | the clamp effect settles after one run |
| WishlistPage.ClampedPageShowsProducts | src/app/wishlist/page.tsx:78-89 | after clamping, the shown page is empty exactly when the wishlist is |
| WishlistPage.WishlistView.constructor | src/app/wishlist/page.tsx:22-26 | the initial state |
| WishlistPage.WishlistView.TotalProducts | src/app/wishlist/page.tsx:61 | the count shown equals the wishlist's length |
| WishlistPage.WishlistView.PageCountShown | src/app/wishlist/page.tsx:78 | the page count is the ceiling of the length over 12 |
| WishlistPage.WishlistView.CurrentProducts | src/app/wishlist/page.tsx:89 | a page never holds more than 12 products |
| WishlistPage.WishlistView.HandleSortChange | src/app/wishlist/page.tsx:32-34 | choosing a sort option does not reset the page |
| WishlistPage.WishlistView.HandlePageChange | src/app/wishlist/page.tsx:91-93 | the page becomes the selected one |
| WishlistPage.WishlistView.ClampPage | src/app/wishlist/page.tsx:81-87 | afterwards the page is valid for the current page count |
| Rate.Stars | src/components/Other/Rate.tsx:12-26 | five stars; star i is filled exactly when the rate is defined and at least i + 1; a click reports i + 1 when a callback is given |
| Rate.FilledStarsFormPrefix | src/components/Other/Rate.tsx:12-26 | the filled stars are exactly the first ones, and an undefined rate fills none |
| MyAccount.MountStep | src/app/my-account/page.tsx:103-112 | nothing happens exactly while auth loads; after that, a visitor with no token is sent to login and one with a token has the data fetched |
| MyAccount.RoleCheck | src/app/my-account/page.tsx:120-133 | only customers get in; a customer's orders are the array the server sent, or [] |
| MyAccount.NewAddressFormDefaults | src/app/my-account/page.tsx:203-221 | the new-address form has the documented defaults and the user's own contact fields |
| MyAccount.AddressChangeRules | src/app/my-account/page.tsx:223-238 | a phone edit leaves at most ten digits and changes nothing else; a repeated edit changes nothing further |
| MyAccount.SaveAddressPhoneRule | src/app/my-account/page.tsx:245-250 | an address is posted exactly when its phone is ten digits, with or without "+91"; the posted phone carries "+91" |
| MyAccount.TypedPhoneIsSaveable | src/app/my-account/page.tsx:229-250 | a typed phone can be saved exactly when at least ten digits were typed |
| MyAccount.CancelNeedsReason | src/app/my-account/page.tsx:161-172 | a blank reason sends nothing; any other reason is sent untrimmed to the order's cancel endpoint |
| MyAccount.CancelEligibility | src/app/my-account/page.tsx:585 | the cancel button is offered exactly for Pending and Processing orders |
| MyAccount.RecentOrdersCap | src/app/my-account/page.tsx:478 | the dashboard shows the first five orders, or all of them when there are fewer |
| MyAccount.DisplayNameRules | src/app/my-account/page.tsx:398 | the display name is never blank and is trimmed; it is 'User' exactly when name and last name are blank or the trimmed full name is itself "User" |
| MyAccount.AccountView.constructor | src/app/my-account/page.tsx:73-97 | the initial state |
| MyAccount.AccountView.LogoutToLogin | src/app/my-account/page.tsx:137-140 | logs out and goes to the login page |
| MyAccount.AccountView.LoadAccount | src/app/my-account/page.tsx:114-144 | a non-customer is logged out and sent to login; a 401 logs out; otherwise the user and orders are set; loading ends |
| MyAccount.AccountView.ApplyLoadOutcome | src/app/my-account/page.tsx:114-144 | for each outcome: the requests made, the user and orders set, the toast shown and whether the visitor is logged out |
| MyAccount.AccountView.LoadFailed | src/app/my-account/page.tsx:136-141 | a failed load shows the error toast and logs out exactly on a 401 |
| MyAccount.AccountView.HandleAddNewAddress | src/app/my-account/page.tsx:203-221 | the form gets the new-address defaults and editing starts |
| MyAccount.AccountView.HandleAddressChange | src/app/my-account/page.tsx:223-238 | the form becomes the edited one |
| MyAccount.AccountView.HandleSaveAddress | src/app/my-account/page.tsx:240-268 | a rejected phone only shows its error and sends nothing; a posted address is requested once, then a success replaces the address list with the server's and closes the form, and a failure shows the server's error and logs out on a 401 |
| MyAccount.AccountView.ApplySaveReply | src/app/my-account/page.tsx:252-266 | a saved address replaces the user's addresses and closes the form; a failure shows the server's error and logs out on a 401 |
| MyAccount.AccountView.HandleCancelOrder | src/app/my-account/page.tsx:160-195 | a blank reason only shows a toast; on success the popup closes, the reason is cleared and a reload is asked for; the address editor and the user's data are never touched |
| MyAccount.AccountView.ApplyCancelReply | src/app/my-account/page.tsx:174-194 | a success clears the reason, closes the popup and asks for a reload; a failure shows the server's error and logs out on a 401; loading ends either way; the address editor and the user's data are never touched |
| MyAccount.AccountView.DashboardOrders | src/app/my-account/page.tsx:478 | the dashboard lists at most five orders |
| Orders.SubtotalAddLine | src/app/order-confirmation/page.tsx:116 | adding a product line adds exactly its amount to the subtotal |
| Orders.SubtotalNonNegative | src/app/order-failure/page.tsx:173 | with non-negative prices and quantities the subtotal is non-negative |
| Orders.DiscountRowFollowsCoupon | src/app/order-confirmation/page.tsx:210-215 | the discount row depends on the coupon code alone, even when the discount amount is 0 |
| Orders.UnauthorizedIsRecognised | src/app/order-confirmation/page.tsx:51-57 | a 401 response, or any body mentioning 401, gives a message containing "401" |
| OrderConfirmation.EntryOutcomes | src/app/order-confirmation/page.tsx:66-84 | without an order id nothing is fetched; with one, the order is fetched exactly for a success, processing or shipped status or a held token; otherwise the visitor goes to login |
| OrderConfirmation.OrderRequest | src/app/order-confirmation/page.tsx:31-33 | the request path is the order's path |
| OrderConfirmation.OrderRequestCarriesTransaction | src/app/order-confirmation/page.tsx:31-33 | the transaction id is sent exactly when it is present and non-empty |
| OrderConfirmation.FetchErrorRouting | src/app/order-confirmation/page.tsx:51-60 | a 401 with a token drops the tokens and goes to login; without a token or transaction id every error goes to login with a redirect |
| OrderConfirmation.HeadingCases | src/app/order-confirmation/page.tsx:131 | the heading follows the status: processing, shipped, or confirmed otherwise |
| OrderConfirmation.TransactionShownOnlyForPrepaid | src/app/order-confirmation/page.tsx:137-157 | COD orders show no transaction id; other orders always show the cell, preferring the query's id |
| OrderConfirmation.OrderConfirmationView.constructor | src/app/order-confirmation/page.tsx:15-17 | the initial state |
| OrderConfirmation.OrderConfirmationView.OnQuery | src/app/order-confirmation/page.tsx:24-84 | the new state follows the entry decision and, after a fetch, the reply and the error routing |
| OrderFailure.FailureMessageParts | src/app/order-failure/page.tsx:79-81 | the message starts with the error or 'Unknown error', and has a region suffix exactly when a region is given |
| OrderFailure.EntryOutcomes | src/app/order-failure/page.tsx:61-83 | without an order id nothing is fetched; with one, a token holder gets the fetch and anyone else gets the explanation from the query |
| OrderFailure.UnauthorizedHandling | src/app/order-failure/page.tsx:50-55 | a 401 with a token drops the tokens; an error that does not mention 401 never does |
| OrderFailure.OrderFailureView.constructor | src/app/order-failure/page.tsx:14-16 | the initial state |
| OrderFailure.OrderFailureView.OnQuery | src/app/order-failure/page.tsx:22-83 | the new state follows the entry decision and, after a fetch, the reply; a parse failure changes nothing |

## Left out

- Network requests, timers and randomness. Every `fetch` is replaced by its answer, passed in as a parameter. The current time is a parameter `now`. JWT decoding is a parameter. The cart page's countdown timer is not modelled.
- Toasts, alerts and modals are recorded only as fields that a handler sets. Layout, tabs, image galleries and other purely visual state are not modelled.
- `WishlistContext` is not part of this model. The wishlist toggle assumes that its reducer appends on add and filters by `_id` on remove.
- Floating point is replaced by exact arithmetic. Prices and quantities are integers, the rating average and shares are exact rationals, and `Math.floor` of the discount is computed exactly. `Number(s)` is modelled only for strings of decimal digits; any other string reads as 0.
- Percent-encoding of query values is not modelled, including the shop listing's double encoding of `subcategoryId`.
- `ShopListing.DiscountOf`: for a zero price the source's floating-point key is minus infinity when the sale price is positive (such a product sorts after every other), plus infinity when it is negative, and `NaN` when it is 0 (the comparator is then inconsistent and the order unspecified). The model keys every zero-priced product as 0, so it sorts among the products without a discount.
- `WishlistPage.NormaliseItem`: does not add the `createdAt` and `updatedAt` defaults (`|| new Date()`, a clock read) or the `__v` and `quantityPurchase` defaults, because the result is the shared product record, which has none of these fields.
- Product detail: `checkAuthStatus`, the mount effect that runs it before `fetchProduct`, `handleBuyNow` and the wishlist and cart buttons are not modelled.
- `new Date(...)` of a review is reduced to a parameter that turns a date string into milliseconds. Invalid dates are not modelled.
- `Rate.Stars`: takes a whole-number rate, because every caller passes a rating or a rounded average. Fractional rates are not modelled.
- `ShopListing.ShopListingView.constructor`: requires a positive `productPerPage`. Every caller passes one, and a zero page size divides by zero in the source.
- Checkout:
  - `handleInputChange` and the select handlers are not modelled; they are plain field copies.
  - `CartPage.CouponResponse`: an accepted coupon always carries `discountAmount`. An ok answer without it would store `undefined` as the discount, on the cart page and on checkout alike; that case is not modelled.
  - Coming from the cart, the mount effect acts on a fresh page, so a dropped discount leaves the initial 0 (`AppliedDiscount`).
  - Not modelled: the `sameAsShipping` copy effect, the saved-address selection effect, the user, address and state fetches on mount, and the PhonePe status polling after redirect.
- Account page:
  - `handleSelectAddress`, `handleDeleteAddress`, `handleUpdateUser` and `handleLogout` are not modelled.
  - `MyAccount.AccountView.HandleCancelOrder`: the page reload after a successful cancel is a separate `LoadAccount` call, signalled by `reload`.
- The confirmation page's redirect target `/pages/order-confirmation` and the checkout's COD route are modelled as written.
- The "401" check of the error pages is textual, as in the source: any error body mentioning 401 also counts as unauthorised.

## Findings

| source | as written | input that shows it | evidently intended | confidence | as-written member | corrected member |
|---|---|---|---|---|---|---|
| src/components/Product/Detail/Default.tsx:285 | `percentSale` divides the price by itself, so the badge is 0 for every product with a sale price and a non-zero price | price 200, sale price 150: the badge shows 0 percent | divide the sale price by the price, as the product card does (25 percent here) | not executed | ProductDetail.PercentSaleAsWritten (ProductDetail.PercentSaleCounterexample) | ProductDetail.PercentSale |
| src/app/cart/page.tsx:215-216 | the coupon input's `onChange` only sets the code, so a discount applied earlier survives a cleared input, and `redirectToCheckout` sends it with `coupon=`, which the checkout page ignores | apply a coupon worth 10, clear the input, go to checkout with ship 30: the cart shows the subtotal plus 20, checkout charges the subtotal plus 30 | editing the code withdraws the discount, so the two pages always agree on the total | not executed | CheckoutPage.ClearedCouponLosesDiscount | CartPage.DiscountAfterInput (CheckoutPage.IntendedHandOffKeepsTotal) |

The page classes follow the code as written; each corrected definition stands beside them with its intended property proved.
