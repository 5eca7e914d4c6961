/**
 * The checkout page: reading the cart page's query, the totals and savings loop, the address
 * forms and their phone and pincode handlers, the coupon form, and `handleSubmit`'s validation
 * chain with the order it sends, and what the page does with the order endpoint's answer and
 * with the PhonePe checkout's callback. Server answers (pincode, coupon, order) and the
 * callback's outcome are parameters; the network calls themselves are not modelled.
 */
module CheckoutPage {
  import opened Wrappers
  import Lists
  import Text
  import Routes
  import opened CartContext
  import CartPage

  // ---------------------------------------------------------------------------
  // forms and addresses

  datatype FormData = FormData(
    email: string,
    country: string,
    firstName: string,
    lastName: string,
    address: string,
    apartment: string,
    city: string,
    state: string,
    zipCode: string,
    phone: string)

  /** Both forms start empty, with the country preset to India. */
  const EmptyForm := FormData("", "India", "", "", "", "", "", "", "", "")

  datatype AddressKind = Shipping | Billing

  /** The page's own address record (saved addresses and the ones it builds). */
  datatype CheckoutAddress = CheckoutAddress(
    name: string,
    lastname: string,
    companyName: Option<string>,
    country: string,
    streetAddress: string,
    apartment: Option<string>,
    city: string,
    state: string,
    zip: string,
    phone: string,
    email: string,
    kind: AddressKind,
    isDefault: Option<bool>,
    dbId: Option<string>)

  const CountryCode := "+91"

  /** `fillFormDataFromAddress`: copy a saved address into a form. */
  function FillFormDataFromAddress(a: CheckoutAddress): FormData
  {
    FormData(
      email := a.email,
      country := a.country,
      firstName := a.name,
      lastName := a.lastname,
      address := a.streetAddress,
      apartment := if a.apartment.Some? && a.apartment.value != "" then a.apartment.value else "",
      city := a.city,
      state := a.state,
      zipCode := a.zip,
      phone := Text.ReplaceFirst(a.phone, CountryCode, ""))
  }

  /** The address `handleSubmit` builds from a form when no saved address is selected. */
  function BuildAddress(f: FormData, email: string, kind: AddressKind, isDefault: bool): CheckoutAddress
  {
    CheckoutAddress(
      name := f.firstName,
      lastname := f.lastName,
      companyName := None,
      country := f.country,
      streetAddress := f.address,
      apartment := Some(f.apartment),
      city := f.city,
      state := f.state,
      zip := f.zipCode,
      phone := Text.EnsurePrefix(f.phone, CountryCode),
      email := email,
      kind := kind,
      isDefault := Some(isDefault),
      dbId := None)
  }

  /**
   * Saved address to form: first name, last name, street and pincode come from `name`,
   * `lastname`, `streetAddress` and `zip`; a missing apartment becomes "", and only the first
   * "+91" of the phone is removed.
   */
  lemma FillFormFields(a: CheckoutAddress)
    ensures var f := FillFormDataFromAddress(a);
      f.firstName == a.name && f.lastName == a.lastname && f.address == a.streetAddress
      && f.zipCode == a.zip && f.email == a.email && f.country == a.country
      && f.city == a.city && f.state == a.state
      && (a.apartment.None? ==> f.apartment == "")
      && (Text.StartsWith(a.phone, CountryCode) ==> f.phone == a.phone[|CountryCode|..])
      && (!Text.Contains(a.phone, CountryCode) ==> f.phone == a.phone)
  {
    if Text.StartsWith(a.phone, CountryCode) {
      Text.ReplaceLeadingPrefix(a.phone, CountryCode);
    }
  }

  /** A phone that is all digits never contains "+91". */
  lemma DigitsHaveNoCountryCode(p: string)
    requires Text.AllDigits(p)
    ensures !Text.StartsWith(p, CountryCode)
    ensures !Text.Contains(p, CountryCode)
  {
    var r := Text.IndexOf(p, CountryCode);
    assert r.Some? ==> p[r.value] == '+' by {
      if r.Some? {
        assert p[r.value..r.value + 3][0] == p[r.value];
      }
    }
  }

  /**
   * A form with a digits-only phone survives the trip through the address `handleSubmit`
   * builds and back through `fillFormDataFromAddress`.
   */
  lemma FormAddressRoundTrip(f: FormData, kind: AddressKind, isDefault: bool)
    requires Text.AllDigits(f.phone)
    ensures FillFormDataFromAddress(BuildAddress(f, f.email, kind, isDefault)) == f
  {
    DigitsHaveNoCountryCode(f.phone);
    var a := BuildAddress(f, f.email, kind, isDefault);
    assert a.phone == CountryCode + f.phone;
    assert Text.StartsWith(a.phone, CountryCode);
    Text.ReplaceLeadingPrefix(a.phone, CountryCode);
    assert a.phone[|CountryCode|..] == f.phone;
  }

  /**
   * A saved address whose phone is "+91" and digits gives back its phone, names, street, city,
   * state, pincode, country and e-mail when it is loaded into a form and rebuilt from it.
   */
  lemma AddressFormRoundTrip(a: CheckoutAddress, kind: AddressKind, isDefault: bool)
    requires Text.StartsWith(a.phone, CountryCode) && Text.AllDigits(a.phone[|CountryCode|..])
    ensures var b := BuildAddress(FillFormDataFromAddress(a), a.email, kind, isDefault);
      b.phone == a.phone && b.name == a.name && b.lastname == a.lastname
      && b.streetAddress == a.streetAddress && b.city == a.city && b.state == a.state
      && b.zip == a.zip && b.country == a.country && b.email == a.email
  {
    Text.ReplaceLeadingPrefix(a.phone, CountryCode);
    var rest := a.phone[|CountryCode|..];
    DigitsHaveNoCountryCode(rest);
    assert a.phone == CountryCode + rest by {
      assert a.phone == a.phone[..|CountryCode|] + rest;
    }
  }

  /** `value.replace(/[^0-9]/g, "").slice(0, 10)`. */
  function PhoneFilter(value: string): (r: string)
    ensures Text.AllDigits(r) && |r| <= 10
  {
    Text.Take(Text.DigitsOnly(value), 10)
  }

  /** Filtering an already filtered phone changes nothing, and a short digit string is kept. */
  lemma PhoneFilterIdempotent(value: string)
    ensures PhoneFilter(PhoneFilter(value)) == PhoneFilter(value)
    ensures Text.AllDigits(value) && |value| <= 10 ==> PhoneFilter(value) == value
  {
  }

  // ---------------------------------------------------------------------------
  // totals

  /** The savings on one line: only lines whose list price exceeds the sale price count. */
  function LineSavings(item: CartItem): int
  {
    if item.price > item.salePrice then (item.price - item.salePrice) * item.quantity else 0
  }

  function LineListTotal(item: CartItem): int
  {
    item.price * item.quantity
  }

  /**
   * The `forEach` over the cart: it accumulates the sale-price total and the savings
   * in one pass.
   */
  method CartTotals(items: seq<CartItem>) returns (total: int, savings: int)
    ensures total == CartPage.Subtotal(items)
    ensures savings == Lists.SumBy(items, LineSavings)
  {
    total := 0;
    savings := 0;
    var k := 0;
    while k < |items|
      invariant 0 <= k <= |items|
      invariant total == Lists.SumBy(items[..k], CartPage.LineTotal)
      invariant savings == Lists.SumBy(items[..k], LineSavings)
    {
      var item := items[k];
      total := total + item.salePrice * item.quantity;
      if item.price > item.salePrice {
        savings := savings + (item.price - item.salePrice) * item.quantity;
      }
      Lists.SumByPrefix(items, k, CartPage.LineTotal);
      Lists.SumByPrefix(items, k, LineSavings);
      k := k + 1;
    }
    assert items[..k] == items;
  }

  /** With non-negative quantities the savings are never negative. */
  lemma SavingsNonNegative(items: seq<CartItem>)
    requires forall i :: 0 <= i < |items| ==> items[i].quantity >= 0
    ensures Lists.SumBy(items, LineSavings) >= 0
  {
    forall i | 0 <= i < |items| ensures LineSavings(items[i]) >= 0 {
    }
    Lists.SumByNonNegative(items, LineSavings);
  }

  /** When no line is priced below its sale price, the savings are list total minus sale total. */
  lemma {:induction false} SavingsAreListMinusSale(items: seq<CartItem>)
    requires forall i :: 0 <= i < |items| ==> items[i].price >= items[i].salePrice
    ensures Lists.SumBy(items, LineSavings) == Lists.SumBy(items, LineListTotal) - CartPage.Subtotal(items)
    decreases |items|
  {
    if items != [] {
      var init := items[..|items| - 1];
      var last := items[|items| - 1];
      SavingsAreListMinusSale(init);
      assert LineSavings(last) == LineListTotal(last) - CartPage.LineTotal(last) by {
        if last.price == last.salePrice {
          assert LineListTotal(last) == CartPage.LineTotal(last);
        }
      }
    }
  }

  /** The product handed over by "Buy Now" on the detail page. */
  datatype CheckoutProduct = CheckoutProduct(
    name: string,
    price: int,
    salePrice: int,
    quantity: int,
    thumbnails: seq<string>,
    sku: string,
    dbId: Option<string>)

  /** The `product` query parameter: absent, not decodable JSON, or a product. */
  datatype ProductParam = NoProduct | Malformed | Parsed(product: CheckoutProduct)

  /** Single-product totals: savings are set only when the list price exceeds the sale price. */
  function SingleProductTotals(p: CheckoutProduct): (r: (int, int))
    ensures r.0 == p.salePrice * p.quantity
    ensures p.price <= p.salePrice ==> r.1 == 0
  {
    (p.salePrice * p.quantity, if p.price > p.salePrice then (p.price - p.salePrice) * p.quantity else 0)
  }

  /** A single product is totalled like a one-line cart with the same prices and quantity. */
  lemma SingleProductIsOneLineCart(p: CheckoutProduct, line: CartItem)
    requires line.price == p.price && line.salePrice == p.salePrice && line.quantity == p.quantity
    ensures SingleProductTotals(p) == (CartPage.Subtotal([line]), Lists.SumBy([line], LineSavings))
  {
    assert [line][..0] == [];
    assert Lists.SumBy([line], CartPage.LineTotal) == CartPage.LineTotal(line);
    assert Lists.SumBy([line], LineSavings) == LineSavings(line);
  }

  /** `totalCart + shippingCost - discountAmount`: no free-shipping clamp is applied here. */
  function FinalAmount(totalCart: int, shippingCost: int, discountAmount: int): int
  {
    totalCart + shippingCost - discountAmount
  }

  // ---------------------------------------------------------------------------
  // arriving from the cart page

  /** What the mount effect takes from the query. */
  datatype QuerySetup = QuerySetup(discount: int, ship: int, couponCode: string, couponApplied: bool)

  /**
   * `discount = Number(get("discount")) || 0`, likewise `ship`; `coupon = get("coupon") || ""`;
   * the coupon counts as applied only with a positive discount.
   */
  function ReadQuery(query: seq<(string, string)>): QuerySetup
  {
    var discount := Text.NumberOrZero(Routes.Get(query, "discount"));
    var ship := Text.NumberOrZero(Routes.Get(query, "ship"));
    var coupon := Routes.Get(query, "coupon").GetOr("");
    var applied := coupon != "" && discount > 0;
    QuerySetup(discount, ship, if applied then coupon else "", applied)
  }

  /**
   * The checkout page reads back exactly the discount and shipping the cart page sent, and
   * treats the coupon as applied exactly when the discount is positive and the code non-empty.
   */
  lemma CartQueryRoundTrip(discount: int, ship: int, code: string)
    ensures var r := ReadQuery(CartPage.CheckoutQuery(discount, ship, code));
      r.discount == discount && r.ship == ship
      && (r.couponApplied <==> discount > 0 && code != "")
      && (r.couponApplied ==> r.couponCode == code)
  {
    Text.NumberOfIntToString(discount);
    Text.NumberOfIntToString(ship);
  }

  /** The discount the mount effect leaves on a fresh page: the query's only when the coupon counts. */
  function AppliedDiscount(r: QuerySetup): int
  {
    if r.couponApplied then r.discount else 0
  }

  /**
   * Coming from the cart page with the same cart, the checkout total equals the total the cart
   * page showed exactly when the discount is 0, or positive and sent with a non-empty code: a
   * discount that arrives with an empty code, or a negative one, is dropped.
   */
  lemma CheckoutTotalMatchesCartTotal(items: seq<CartItem>, discount: int, ship: int, code: string)
    ensures var r := ReadQuery(CartPage.CheckoutQuery(discount, ship, code));
      FinalAmount(CartPage.Subtotal(items), r.ship, AppliedDiscount(r))
        == CartPage.DisplayedTotal(CartPage.Subtotal(items), discount, ship)
      <==> discount == 0 || (discount > 0 && code != "")
  {
    CartQueryRoundTrip(discount, ship, code);
  }

  /**
   * As written, the cart page keeps its discount when the coupon input is cleared afterwards:
   * a discount of 10 is then sent with `coupon=` and the checkout page charges 10 more than the
   * cart page showed.
   */
  lemma ClearedCouponLosesDiscount(items: seq<CartItem>)
    ensures var r := ReadQuery(CartPage.CheckoutQuery(10, 30, ""));
      var total := CartPage.Subtotal(items);
      FinalAmount(total, r.ship, AppliedDiscount(r)) == total + 30
      && CartPage.DisplayedTotal(total, 10, 30) == total + 20
  {
    CartQueryRoundTrip(10, 30, "");
  }

  /**
   * With the coupon input as evidently intended (an edit withdraws the discount unless the code
   * is unchanged), a cart whose discount belongs to a non-empty code hands over a query the
   * checkout page totals exactly as the cart page did, whatever is typed before leaving.
   */
  lemma IntendedHandOffKeepsTotal(items: seq<CartItem>, discount: int, ship: int, code: string, value: string)
    requires discount >= 0 && (discount > 0 ==> code != "")
    ensures var d := CartPage.DiscountAfterInput(discount, code, value);
      var r := ReadQuery(CartPage.CheckoutQuery(d, ship, value));
      FinalAmount(CartPage.Subtotal(items), r.ship, AppliedDiscount(r))
        == CartPage.DisplayedTotal(CartPage.Subtotal(items), d, ship)
  {
    CheckoutTotalMatchesCartTotal(items, CartPage.DiscountAfterInput(discount, code, value), ship, value);
  }

  // ---------------------------------------------------------------------------
  // pincode lookups

  const ServicesAvailable := "Services available"
  const DefaultShippingCost := 50

  /** The `details` object of a pincode answer; either field may be missing. */
  datatype PincodeLocation = PincodeLocation(city: Option<string>, state: Option<string>)

  /**
   * What the pincode endpoints answer: the response's `ok` and the parsed body, or a request
   * or parse that threw.
   */
  datatype PincodeReply =
    | Reply(ok: bool, success: bool, shippingCost: Option<int>, details: Option<PincodeLocation>, message: Option<string>)
    | ReplyFailed

  datatype PincodeAvailability = PincodeAvailability(isServiceable: bool, shippingCost: int, message: Option<string>)

  /** `checkPinCodeAvailability`: a missing or zero shipping cost becomes 50. */
  function CheckPinCodeAvailability(reply: PincodeReply): (r: PincodeAvailability)
    ensures r.isServiceable <==> reply.Reply? && reply.ok && reply.success
    ensures r.isServiceable ==> r.shippingCost != 0 && r.message.None?
    ensures !r.isServiceable ==> r.shippingCost == 0 && r.message.Some? && r.message.value != ""
  {
    match reply
    case ReplyFailed => PincodeAvailability(false, 0, Some("Error checking pincode availability"))
    case Reply(ok, success, cost, _, message) =>
      if ok && success then
        PincodeAvailability(true, if cost.Some? && cost.value != 0 then cost.value else DefaultShippingCost, None)
      else PincodeAvailability(false, 0, Some(StrOr(message, "Service not available")))
  }

  datatype PincodeDetails = PincodeDetails(success: bool, city: Option<string>, state: Option<string>, message: Option<string>)

  const PincodeDetailsError := "Error fetching pincode details"

  /**
   * `fetchPincodeDetails`. A successful answer without `details` makes `result.details.city`
   * throw, so it ends in the `catch` like a failed request.
   */
  function FetchPincodeDetails(reply: PincodeReply): (r: PincodeDetails)
    ensures r.success <==> reply.Reply? && reply.ok && reply.success && reply.details.Some?
    ensures r.success ==> r.city == reply.details.value.city && r.state == reply.details.value.state
    ensures !r.success ==> r.city.None? && r.state.None? && r.message.Some? && r.message.value != ""
    ensures reply.Reply? && reply.ok && reply.success && reply.details.None? ==> r.message == Some(PincodeDetailsError)
    ensures reply.Reply? && !(reply.ok && reply.success) ==> r.message == Some(StrOr(reply.message, "Pincode details not found"))
  {
    match reply
    case ReplyFailed => PincodeDetails(false, None, None, Some(PincodeDetailsError))
    case Reply(ok, success, _, details, message) =>
      if ok && success then
        match details
        case Some(location) => PincodeDetails(true, location.city, location.state, None)
        case None => PincodeDetails(false, None, None, Some(PincodeDetailsError))
      else PincodeDetails(false, None, None, Some(StrOr(message, "Pincode details not found")))
  }

  // ---------------------------------------------------------------------------
  // submitting

  /** `!couponCode.trim()`. */
  predicate BlankCode(code: string)
  {
    Text.Trim(code) == ""
  }

  /** The reasons `handleSubmit` stops before sending, in the order it checks them. */
  datatype SubmitFailure =
    | PincodeNotServiceable
    | InvalidShippingEmail
    | InvalidShippingPhone
    | InvalidBillingEmail
    | InvalidBillingPhone

  function FailureMessage(f: SubmitFailure): string
  {
    match f
    case PincodeNotServiceable => "Please enter a valid, serviceable shipping pincode."
    case InvalidShippingEmail => "Please provide a valid email address."
    case InvalidShippingPhone => "Please provide a valid 10-digit phone number for shipping."
    case InvalidBillingEmail => "Please provide a valid email for billing."
    case InvalidBillingPhone => "Please provide a valid 10-digit phone number for billing."
  }

  datatype OrderItem = OrderItem(name: string, price: int, quantity: int, productId: string, thumbnail: Option<string>)

  const OriginPincode := "201301"
  const PhonePeEndpoint := "/api/phonepe/initiate-phonepe"
  const CreateOrderEndpoint := "/api/orders/create-order"

  datatype OrderData = OrderData(
    products: seq<OrderItem>,
    shippingAddress: CheckoutAddress,
    billingAddress: CheckoutAddress,
    paymentMethod: string,
    orgPincode: string,
    desPincode: string,
    pieceCount: nat,
    customerName: string,
    customerEmail: string,
    totalAmount: int,
    shippingCost: int,
    couponCode: Option<string>,
    discountAmount: int,
    saveAddress: bool)

  datatype SubmitOutcome =
    | LoginRedirect(route: Routes.Route)
    | Stopped(reason: SubmitFailure)
    /** A selected saved address was not found, and reading its fields threw. */
    | Crashed
    | Send(endpoint: string, order: OrderData)

  /** Everything `handleSubmit` reads. */
  datatype SubmitInput = SubmitInput(
    hasToken: bool,
    pinCodeStatus: Option<string>,
    productDetails: Option<CheckoutProduct>,
    cart: seq<CartItem>,
    savedAddresses: seq<CheckoutAddress>,
    selectedShippingAddress: string,
    selectedBillingAddress: string,
    sameAsShipping: bool,
    shippingForm: FormData,
    billingForm: FormData,
    paymentMethod: string,
    totalCart: int,
    shippingCost: int,
    couponCode: string,
    discountAmount: int,
    saveAddress: bool)

  function First<T>(s: seq<T>): Option<T>
  {
    if s == [] then None else Some(s[0])
  }

  /** The line items sent: a single product's or each cart line's, priced at the sale price. */
  function OrderItems(productDetails: Option<CheckoutProduct>, cart: seq<CartItem>): (r: seq<OrderItem>)
    ensures productDetails.Some? ==> |r| == 1 && r[0].price == productDetails.value.salePrice
    ensures productDetails.None? ==>
      (|r| == |cart| && forall i :: 0 <= i < |cart| ==> r[i].price == cart[i].salePrice && r[i].quantity == cart[i].quantity)
  {
    match productDetails
    case Some(p) =>
      [OrderItem(p.name, p.salePrice, p.quantity, StrOr(p.dbId, "single_product"), First(p.thumbnails))]
    case None =>
      seq(|cart|, i requires 0 <= i < |cart| =>
        OrderItem(cart[i].name, cart[i].salePrice, cart[i].quantity, StrOr(cart[i].dbId, cart[i].sku), First(cart[i].thumbnails)))
  }

  /** `savedAddresses.find(addr => addr._id === id)`. */
  function FindAddress(saved: seq<CheckoutAddress>, id: string): (r: Option<CheckoutAddress>)
    ensures r.Some? ==> r.value in saved && r.value.dbId == Some(id)
    ensures r.Some? ==>
      exists i :: 0 <= i < |saved| && saved[i] == r.value && forall j :: 0 <= j < i ==> saved[j].dbId != Some(id)
    ensures r.None? ==> forall i :: 0 <= i < |saved| ==> saved[i].dbId != Some(id)
    decreases |saved|
  {
    if saved == [] then None
    else if saved[0].dbId == Some(id) then Some(saved[0])
    else
      var r := FindAddress(saved[1..], id);
      assert r.Some? ==>
        exists i :: 0 <= i < |saved| && saved[i] == r.value && forall j :: 0 <= j < i ==> saved[j].dbId != Some(id) by {
        if r.Some? {
          var i :| 0 <= i < |saved[1..]| && saved[1..][i] == r.value
            && forall j :: 0 <= j < i ==> saved[1..][j].dbId != Some(id);
          assert saved[i + 1] == r.value;
          forall j | 0 <= j < i + 1 ensures saved[j].dbId != Some(id) {
            if j > 0 {
              assert saved[j] == saved[1..][j - 1];
            }
          }
        }
      }
      r
  }

  predicate IsBillingAddress(a: CheckoutAddress)
  {
    a.kind == Billing
  }

  /** The shipping address: the selected saved one (possibly missing), or one built from the form. */
  function ShippingAddressOf(inp: SubmitInput): Option<CheckoutAddress>
  {
    if inp.selectedShippingAddress != "" then FindAddress(inp.savedAddresses, inp.selectedShippingAddress)
    else Some(BuildAddress(inp.shippingForm, inp.shippingForm.email, Shipping, |inp.savedAddresses| == 0))
  }

  /** The billing address: the shipping one, the selected saved one, or one built from the form. */
  function BillingAddressOf(inp: SubmitInput): Option<CheckoutAddress>
  {
    if inp.sameAsShipping then ShippingAddressOf(inp)
    else if inp.selectedBillingAddress != "" then FindAddress(inp.savedAddresses, inp.selectedBillingAddress)
    else
      Some(BuildAddress(inp.billingForm, StrOr(Some(inp.billingForm.email), inp.shippingForm.email), Billing,
        |Lists.Filter(inp.savedAddresses, IsBillingAddress)| == 0))
  }

  function Endpoint(paymentMethod: string): string
  {
    if paymentMethod == "PhonePe" then PhonePeEndpoint else CreateOrderEndpoint
  }

  /** The endpoint is PhonePe's exactly for the "PhonePe" method. */
  lemma EndpointChoice(paymentMethod: string)
    ensures Endpoint(paymentMethod) == PhonePeEndpoint <==> paymentMethod == "PhonePe"
    ensures Endpoint(paymentMethod) == CreateOrderEndpoint <==> paymentMethod != "PhonePe"
  {
    assert |PhonePeEndpoint| != |CreateOrderEndpoint|;
  }

  const CheckoutLoginRoute := Routes.Route("/login", [("redirect", "/pages/checkout")])

  /** `handleSubmit` up to the request it sends. */
  function Submit(inp: SubmitInput): SubmitOutcome
  {
    if !inp.hasToken then LoginRedirect(CheckoutLoginRoute)
    else if inp.pinCodeStatus != Some(ServicesAvailable) then Stopped(PincodeNotServiceable)
    else if !Text.IsEmail(inp.shippingForm.email) then Stopped(InvalidShippingEmail)
    else if |inp.shippingForm.phone| != 10 then Stopped(InvalidShippingPhone)
    else
      match BillingAddressOf(inp)
      case None => Crashed
      case Some(billing) =>
        if !Text.IsEmail(billing.email) then Stopped(InvalidBillingEmail)
        else if |inp.billingForm.phone| != 10 && !inp.sameAsShipping && inp.selectedBillingAddress == "" then
          Stopped(InvalidBillingPhone)
        else
          match ShippingAddressOf(inp)
          case None => Crashed
          case Some(shipping) =>
            var items := OrderItems(inp.productDetails, inp.cart);
            Send(Endpoint(inp.paymentMethod), OrderData(
              products := items,
              shippingAddress := shipping,
              billingAddress := billing,
              paymentMethod := inp.paymentMethod,
              orgPincode := OriginPincode,
              desPincode := shipping.zip,
              pieceCount := |items|,
              customerName := shipping.name + " " + shipping.lastname,
              customerEmail := shipping.email,
              totalAmount := inp.totalCart,
              shippingCost := inp.shippingCost,
              couponCode := if inp.discountAmount > 0 then Some(inp.couponCode) else None,
              discountAmount := inp.discountAmount,
              saveAddress := inp.saveAddress))
  }

  /** The billing phone is only checked for a typed billing address. */
  predicate BillingPhoneChecked(inp: SubmitInput)
  {
    !inp.sameAsShipping && inp.selectedBillingAddress == ""
  }

  /**
   * The checks run in a fixed order and the first failing one decides: no token, then the
   * pincode status, the shipping e-mail, the shipping phone, the billing e-mail and, for a
   * typed billing address only, the billing phone.
   */
  lemma SubmitCheckOrder(inp: SubmitInput)
    ensures Submit(inp).LoginRedirect? <==> !inp.hasToken
    ensures Submit(inp) == Stopped(PincodeNotServiceable) <==>
      inp.hasToken && inp.pinCodeStatus != Some(ServicesAvailable)
    ensures Submit(inp) == Stopped(InvalidShippingEmail) <==>
      inp.hasToken && inp.pinCodeStatus == Some(ServicesAvailable) && !Text.IsEmail(inp.shippingForm.email)
    ensures Submit(inp) == Stopped(InvalidShippingPhone) <==>
      inp.hasToken && inp.pinCodeStatus == Some(ServicesAvailable) && Text.IsEmail(inp.shippingForm.email)
      && |inp.shippingForm.phone| != 10
    ensures Submit(inp) == Stopped(InvalidBillingEmail) <==>
      inp.hasToken && inp.pinCodeStatus == Some(ServicesAvailable) && Text.IsEmail(inp.shippingForm.email)
      && |inp.shippingForm.phone| == 10
      && BillingAddressOf(inp).Some? && !Text.IsEmail(BillingAddressOf(inp).value.email)
    ensures Submit(inp) == Stopped(InvalidBillingPhone) <==>
      inp.hasToken && inp.pinCodeStatus == Some(ServicesAvailable) && Text.IsEmail(inp.shippingForm.email)
      && |inp.shippingForm.phone| == 10
      && BillingAddressOf(inp).Some? && Text.IsEmail(BillingAddressOf(inp).value.email)
      && |inp.billingForm.phone| != 10 && BillingPhoneChecked(inp)
  {
  }

  /**
   * When the order is sent: it goes to the endpoint of its payment method, to the shipping
   * address's pincode; a typed phone carries "+91"; the coupon code is sent only with a positive
   * discount; and each line is priced at its sale price.
   */
  lemma SubmitSendsOrder(inp: SubmitInput)
    requires Submit(inp).Send?
    ensures var o := Submit(inp).order;
      Submit(inp).endpoint == Endpoint(inp.paymentMethod)
      && inp.hasToken && inp.pinCodeStatus == Some(ServicesAvailable)
      && Text.IsEmail(inp.shippingForm.email) && |inp.shippingForm.phone| == 10
      && Text.IsEmail(o.billingAddress.email)
      && o.desPincode == o.shippingAddress.zip && o.orgPincode == OriginPincode
      && (inp.selectedShippingAddress == "" ==>
            (Text.StartsWith(o.shippingAddress.phone, CountryCode) && o.shippingAddress.kind == Shipping))
      && (inp.sameAsShipping ==> o.billingAddress == o.shippingAddress)
      && (o.couponCode.Some? <==> inp.discountAmount > 0)
      && o.pieceCount == |o.products|
      && (inp.productDetails.None? ==> |o.products| == |inp.cart|)
  {
  }

  /** The order endpoint's answer: an error status, an accepted order, or a request that threw. */
  datatype OrderReply =
    | ReplyNotOk(error: Option<string>)
    | ReplyOk(orderId: string, paymentUrl: Option<string>)
    | RequestThrew(message: string)

  /** What the page does with the answer. */
  datatype PaymentStep =
    | GoToConfirmation(route: Routes.Route)
    | OpenPhonePe(tokenUrl: string)
    | PaymentFailed(message: string)

  /** The `catch` block's message around a thrown error's text. */
  function CheckoutFailedMessage(reason: string): string
  {
    "Checkout failed: " + reason + ". Please try again."
  }

  const PhonePeNotReadyMessage := "PhonePe payment module is not ready. Please wait or refresh the page."

  /**
   * The rest of `handleSubmit`: an error status throws `error || "Failed to process order"`;
   * a COD order goes to the confirmation page; a PhonePe order with a payment URL opens the
   * PhonePe checkout when its script is ready; every other answer throws "Payment URL not
   * provided for PhonePe", whatever the method.
   */
  function OrderReplyStep(paymentMethod: string, reply: OrderReply, phonePeReady: bool): PaymentStep
  {
    match reply
    case ReplyNotOk(error) => PaymentFailed(CheckoutFailedMessage(StrOr(error, "Failed to process order")))
    case RequestThrew(message) => PaymentFailed(CheckoutFailedMessage(message))
    case ReplyOk(orderId, paymentUrl) =>
      if paymentMethod == "COD" then GoToConfirmation(Routes.Route("/pages/order-confirmation", [("orderId", orderId)]))
      else if paymentMethod == "PhonePe" && StrOr(paymentUrl, "") != "" then
        if phonePeReady then OpenPhonePe(paymentUrl.value) else PaymentFailed(PhonePeNotReadyMessage)
      else PaymentFailed(CheckoutFailedMessage("Payment URL not provided for PhonePe"))
  }

  /**
   * Only an accepted COD order reaches the confirmation page, carrying its id; only an
   * accepted PhonePe order with a payment URL and a loaded script opens PhonePe; every other
   * answer ends in an error message.
   */
  lemma OrderReplyOutcomes(paymentMethod: string, reply: OrderReply, phonePeReady: bool)
    ensures var r := OrderReplyStep(paymentMethod, reply, phonePeReady);
      (r.GoToConfirmation? <==> reply.ReplyOk? && paymentMethod == "COD")
      && (r.GoToConfirmation? ==>
            (r.route.path == "/pages/order-confirmation" && Routes.Get(r.route.query, "orderId") == Some(reply.orderId)))
      && (r.OpenPhonePe? <==>
            reply.ReplyOk? && paymentMethod == "PhonePe" && StrOr(reply.paymentUrl, "") != "" && phonePeReady)
      && (r.OpenPhonePe? ==> Some(r.tokenUrl) == reply.paymentUrl)
      && (reply.ReplyNotOk? ==> r == PaymentFailed(CheckoutFailedMessage(StrOr(reply.error, "Failed to process order"))))
  {
    var r := OrderReplyStep(paymentMethod, reply, phonePeReady);
    if r.GoToConfirmation? {
      assert r.route.query[0] == ("orderId", reply.orderId);
    }
  }

  // ---------------------------------------------------------------------------
  // the page


  class CheckoutView {
    var cart: seq<CartItem>
    var productDetails: Option<CheckoutProduct>
    var totalCart: int
    var totalSavings: int
    var savedAddresses: seq<CheckoutAddress>
    var selectedShippingAddress: string
    var selectedBillingAddress: string
    var sameAsShipping: bool
    var saveAddress: bool
    var shippingForm: FormData
    var billingForm: FormData
    var shippingPinCodeStatus: Option<string>
    var shippingCost: int
    var couponCode: string
    var discountAmount: int
    var couponError: Option<string>
    var isCouponApplied: bool
    var paymentMethod: string
    var isPaymentInitiated: bool
    var paymentError: Option<string>
    var paymentStatusMessage: Option<string>
    /** The payment URL handed to an opened PhonePe checkout. */
    var phonePeTokenUrl: Option<string>
    var route: Option<Routes.Route>
    /** The orders sent, with the endpoint each went to. */
    var sentOrders: seq<(string, OrderData)>
    /** The bodies posted to the coupon endpoint: the code and the order amount. */
    var couponRequests: seq<(string, int)>

    /** The initial state of the page, before its mount effect. */
    constructor (cart0: seq<CartItem>, saved: seq<CheckoutAddress>)
      ensures cart == cart0 && savedAddresses == saved && productDetails.None?
      ensures shippingForm == EmptyForm && billingForm == EmptyForm
      ensures totalCart == 0 && totalSavings == 0 && shippingCost == 0 && discountAmount == 0
      ensures !isCouponApplied && shippingPinCodeStatus.None? && paymentMethod == "PhonePe"
      ensures selectedShippingAddress == "" && selectedBillingAddress == "" && !sameAsShipping
      ensures !isPaymentInitiated && route.None? && sentOrders == [] && couponRequests == []
    {
      cart := cart0;
      productDetails := None;
      totalCart := 0;
      totalSavings := 0;
      savedAddresses := saved;
      selectedShippingAddress := "";
      selectedBillingAddress := "";
      sameAsShipping := false;
      saveAddress := false;
      shippingForm := EmptyForm;
      billingForm := EmptyForm;
      shippingPinCodeStatus := None;
      shippingCost := 0;
      couponCode := "";
      discountAmount := 0;
      couponError := None;
      isCouponApplied := false;
      paymentMethod := "PhonePe";
      isPaymentInitiated := false;
      paymentError := None;
      paymentStatusMessage := None;
      phonePeTokenUrl := None;
      route := None;
      sentOrders := [];
      couponRequests := [];
    }


    /** The coupon, discount and shipping the mount effect takes from the query. */
    method ApplySetup(q: QuerySetup)
      modifies this`shippingCost, this`couponCode, this`discountAmount, this`isCouponApplied
      ensures shippingCost == q.ship
      ensures q.couponApplied ==> couponCode == q.couponCode && discountAmount == q.discount && isCouponApplied
      ensures !q.couponApplied ==>
        couponCode == old(couponCode) && discountAmount == old(discountAmount) && isCouponApplied == old(isCouponApplied)
    {
      if q.couponApplied {
        couponCode := q.couponCode;
        discountAmount := q.discount;
        isCouponApplied := true;
      }
      shippingCost := q.ship;
    }

    /** The totals part of the mount effect: from the `product` parameter, or from the cart. */
    method ApplyTotals(product: ProductParam)
      modifies this`productDetails, this`totalCart, this`totalSavings
      ensures product.NoProduct? ==>
        totalCart == CartPage.Subtotal(cart) && totalSavings == Lists.SumBy(cart, LineSavings)
        && productDetails == old(productDetails)
      ensures product.Parsed? ==>
        (productDetails == Some(product.product)
         && totalCart == SingleProductTotals(product.product).0
         && (product.product.price > product.product.salePrice ==> totalSavings == SingleProductTotals(product.product).1)
         && (product.product.price <= product.product.salePrice ==> totalSavings == old(totalSavings)))
      ensures product.Malformed? ==>
        (totalCart == old(totalCart) && totalSavings == old(totalSavings) && productDetails == old(productDetails))
    {
      match product
      case Parsed(p) =>
        productDetails := Some(p);
        var totals := SingleProductTotals(p);
        totalCart := totals.0;
        if p.price > p.salePrice {
          totalSavings := totals.1;
        }
      case Malformed =>
      case NoProduct =>
        var total, savings := CartTotals(cart);
        totalCart := total;
        totalSavings := savings;
    }

    /** The query part of the mount effect: coupon, discount, shipping and the totals. */
    method ApplyQuery(query: seq<(string, string)>, product: ProductParam)
      modifies this`shippingCost, this`couponCode, this`discountAmount, this`isCouponApplied
      modifies this`productDetails, this`totalCart, this`totalSavings
      ensures var q := ReadQuery(query);
        shippingCost == q.ship
        && (q.couponApplied ==> couponCode == q.couponCode && discountAmount == q.discount && isCouponApplied)
        && (!q.couponApplied ==>
              (couponCode == old(couponCode) && discountAmount == old(discountAmount)
               && isCouponApplied == old(isCouponApplied)))
      ensures product.NoProduct? ==>
        totalCart == CartPage.Subtotal(cart) && totalSavings == Lists.SumBy(cart, LineSavings)
      ensures product.Parsed? ==>
        (productDetails == Some(product.product)
         && totalCart == SingleProductTotals(product.product).0
         && (product.product.price > product.product.salePrice ==> totalSavings == SingleProductTotals(product.product).1)
         && (product.product.price <= product.product.salePrice ==> totalSavings == old(totalSavings)))
      ensures product.Malformed? ==>
        (totalCart == old(totalCart) && totalSavings == old(totalSavings) && productDetails == old(productDetails))
    {
      ApplySetup(ReadQuery(query));
      ApplyTotals(product);
    }

    /** `handlePhoneChange`. */
    method HandlePhoneChange(value: string, kind: AddressKind)
      modifies this`shippingForm, this`billingForm, this`selectedShippingAddress, this`selectedBillingAddress
      ensures kind == Shipping ==>
        (shippingForm == old(shippingForm).(phone := PhoneFilter(value))
         && selectedShippingAddress == "" && billingForm == old(billingForm)
         && selectedBillingAddress == old(selectedBillingAddress))
      ensures kind == Billing ==>
        (billingForm == old(billingForm).(phone := PhoneFilter(value))
         && shippingForm == old(shippingForm) && selectedShippingAddress == old(selectedShippingAddress)
         && selectedBillingAddress == (if sameAsShipping then old(selectedBillingAddress) else ""))
      ensures Text.AllDigits(if kind == Shipping then shippingForm.phone else billingForm.phone)
    {
      var digitsOnly := PhoneFilter(value);
      if kind == Shipping {
        shippingForm := shippingForm.(phone := digitsOnly);
        selectedShippingAddress := "";
      } else {
        billingForm := billingForm.(phone := digitsOnly);
        if !sameAsShipping {
          selectedBillingAddress := "";
        }
      }
    }

    /**
     * `handlePinCodeChange`. For the shipping form, a 6-character value is looked up (details,
     * then availability); any other length clears the status and the city and state and sets
     * the cost to 0. For the billing form only the pincode and the selection change.
     */
    method HandlePinCodeChange(value: string, kind: AddressKind, details: PincodeReply, availability: PincodeReply)
      modifies this`shippingForm, this`billingForm, this`selectedShippingAddress, this`selectedBillingAddress
      modifies this`shippingCost, this`shippingPinCodeStatus
      ensures kind == Shipping ==>
        (selectedShippingAddress == "" && shippingForm.zipCode == value
         && billingForm == old(billingForm) && selectedBillingAddress == old(selectedBillingAddress))
      ensures kind == Shipping && |value| == 6 ==>
        var d := FetchPincodeDetails(details);
        var a := CheckPinCodeAvailability(availability);
        shippingForm == old(shippingForm).(zipCode := value,
          city := if d.success then StrOr(d.city, "") else "",
          state := if d.success then StrOr(d.state, "") else "")
        && shippingCost == (if a.isServiceable then a.shippingCost else 0)
        && shippingPinCodeStatus == Some(if a.isServiceable then ServicesAvailable else StrOr(a.message, "Service not available"))
      ensures kind == Shipping && |value| != 6 ==>
        shippingForm == old(shippingForm).(zipCode := value, city := "", state := "")
        && shippingPinCodeStatus.None? && shippingCost == 0
      ensures kind == Billing ==>
        (billingForm == old(billingForm).(zipCode := value)
         && selectedBillingAddress == (if sameAsShipping then old(selectedBillingAddress) else "")
         && shippingForm == old(shippingForm) && shippingCost == old(shippingCost)
         && shippingPinCodeStatus == old(shippingPinCodeStatus) && selectedShippingAddress == old(selectedShippingAddress))
    {
      if kind == Shipping {
        ShippingPinCodeChange(value, details, availability);
      } else {
        BillingPinCodeChange(value);
      }
    }

    /** The shipping form's pincode: a 6-character value is looked up, any other clears the result. */
    method ShippingPinCodeChange(value: string, details: PincodeReply, availability: PincodeReply)
      modifies this`shippingForm, this`selectedShippingAddress, this`shippingCost, this`shippingPinCodeStatus
      ensures |value| == 6 ==>
        var d := FetchPincodeDetails(details);
        var a := CheckPinCodeAvailability(availability);
        shippingForm == old(shippingForm).(zipCode := value,
          city := if d.success then StrOr(d.city, "") else "",
          state := if d.success then StrOr(d.state, "") else "")
        && shippingCost == (if a.isServiceable then a.shippingCost else 0)
        && shippingPinCodeStatus == Some(if a.isServiceable then ServicesAvailable else StrOr(a.message, "Service not available"))
      ensures |value| != 6 ==>
        shippingForm == old(shippingForm).(zipCode := value, city := "", state := "")
        && shippingPinCodeStatus.None? && shippingCost == 0
      ensures selectedShippingAddress == ""
    {
      selectedShippingAddress := "";
      if |value| == 6 {
        var d := FetchPincodeDetails(details);
        var a := CheckPinCodeAvailability(availability);
        shippingForm := shippingForm.(zipCode := value,
          city := if d.success then StrOr(d.city, "") else "",
          state := if d.success then StrOr(d.state, "") else "");
        shippingCost := if a.isServiceable then a.shippingCost else 0;
        shippingPinCodeStatus := Some(if a.isServiceable then ServicesAvailable else StrOr(a.message, "Service not available"));
      } else {
        shippingForm := shippingForm.(zipCode := value, city := "", state := "");
        shippingPinCodeStatus := None;
        shippingCost := 0;
      }
    }

    /** The billing form's pincode: no look-up, and a typed pincode deselects the saved billing address. */
    method BillingPinCodeChange(value: string)
      modifies this`billingForm, this`selectedBillingAddress
      ensures billingForm == old(billingForm).(zipCode := value)
      ensures selectedBillingAddress == (if sameAsShipping then old(selectedBillingAddress) else "")
    {
      billingForm := billingForm.(zipCode := value);
      if !sameAsShipping {
        selectedBillingAddress := "";
      }
    }

    /**
     * `handleApplyCoupon`: nothing happens once a coupon is applied; a blank code is an error;
     * otherwise the server's answer is applied, and an accepted coupon locks the form.
     */
    method HandleApplyCoupon(response: CartPage.CouponResponse) returns (requested: bool)
      modifies this`discountAmount, this`couponError, this`isCouponApplied, this`couponRequests
      ensures requested <==> !old(isCouponApplied) && !BlankCode(old(couponCode))
      ensures requested ==> couponRequests == old(couponRequests) + [(couponCode, totalCart)]
      ensures !requested ==> couponRequests == old(couponRequests)
      ensures old(isCouponApplied) ==>
        (discountAmount == old(discountAmount) && couponError == old(couponError) && isCouponApplied)
      ensures !old(isCouponApplied) && !requested ==>
        (couponError == Some(CartPage.BlankCouponMessage) && discountAmount == old(discountAmount) && !isCouponApplied)
      ensures requested ==>
        (CartPage.CouponOutcome(discountAmount, couponError) == CartPage.CouponResult(response)
         && (isCouponApplied <==> response.Accepted?))
    {
      requested := false;
      if !isCouponApplied {
        if BlankCode(couponCode) {
          couponError := Some(CartPage.BlankCouponMessage);
        } else {
          requested := true;
          couponRequests := couponRequests + [(couponCode, totalCart)];
          var outcome := CartPage.CouponResult(response);
          discountAmount := outcome.discount;
          couponError := outcome.error;
          isCouponApplied := response.Accepted?;
        }
      }
    }

    function Input(hasToken: bool): SubmitInput
      reads this
    {
      SubmitInput(hasToken, shippingPinCodeStatus, productDetails, cart, savedAddresses,
        selectedShippingAddress, selectedBillingAddress, sameAsShipping, shippingForm, billingForm,
        paymentMethod, totalCart, shippingCost, couponCode, discountAmount, saveAddress)
    }

    /**
     * `handleSubmit` up to sending the order. A stop sets the message and clears the busy flag;
     * a crash leaves the page busy; a sent order leaves it busy until the server answers.
     */
    method HandleSubmit(hasToken: bool) returns (outcome: SubmitOutcome)
      modifies this`route, this`isPaymentInitiated, this`paymentError, this`sentOrders
      ensures outcome == Submit(old(Input(hasToken)))
      ensures outcome.LoginRedirect? ==> route == Some(CheckoutLoginRoute) && !isPaymentInitiated && paymentError.None?
      ensures outcome.Stopped? ==> paymentError == Some(FailureMessage(outcome.reason)) && !isPaymentInitiated
      ensures outcome.Crashed? ==> isPaymentInitiated && paymentError.None?
      ensures outcome.Send? ==>
        (isPaymentInitiated && paymentError.None? && sentOrders == old(sentOrders) + [(outcome.endpoint, outcome.order)])
      ensures !outcome.Send? ==> sentOrders == old(sentOrders)
      ensures !outcome.LoginRedirect? ==> route == old(route)
    {
      outcome := Submit(Input(hasToken));
      ApplySubmitOutcome(hasToken, outcome);
    }

    /**
     * What the page does with the outcome of its checks: the busy flag is set and the
     * payment error cleared first, then a redirect or a failed check clears the flag again.
     */
    method ApplySubmitOutcome(hasToken: bool, outcome: SubmitOutcome)
      modifies this`route, this`isPaymentInitiated, this`paymentError, this`sentOrders
      ensures outcome.LoginRedirect? ==> route == Some(outcome.route) && !isPaymentInitiated && paymentError.None?
      ensures outcome.Stopped? ==> paymentError == Some(FailureMessage(outcome.reason)) && !isPaymentInitiated
      ensures outcome.Crashed? ==> isPaymentInitiated && paymentError.None?
      ensures outcome.Send? ==>
        (isPaymentInitiated && paymentError.None? && sentOrders == old(sentOrders) + [(outcome.endpoint, outcome.order)])
      ensures !outcome.Send? ==> sentOrders == old(sentOrders)
      ensures !outcome.LoginRedirect? ==> route == old(route)
    {
      match outcome
      case LoginRedirect(r) =>
        route := Some(r);
        paymentError := None;
        isPaymentInitiated := false;
      case Stopped(reason) =>
        paymentError := Some(FailureMessage(reason));
        isPaymentInitiated := false;
      case Crashed =>
        paymentError := None;
        isPaymentInitiated := true;
      case Send(endpoint, order) =>
        paymentError := None;
        isPaymentInitiated := true;
        sentOrders := sentOrders + [(endpoint, order)];
    }

    /** The answer to a sent order; only an opened PhonePe checkout keeps the page busy. */
    method HandleOrderReply(reply: OrderReply, phonePeReady: bool)
      modifies this`route, this`isPaymentInitiated, this`paymentError, this`phonePeTokenUrl
      ensures var step := OrderReplyStep(paymentMethod, reply, phonePeReady);
        (step.GoToConfirmation? ==>
          (route == Some(step.route) && !isPaymentInitiated && paymentError == old(paymentError)
           && phonePeTokenUrl == old(phonePeTokenUrl)))
        && (step.OpenPhonePe? ==>
          (phonePeTokenUrl == Some(step.tokenUrl) && isPaymentInitiated == old(isPaymentInitiated)
           && paymentError == old(paymentError) && route == old(route)))
        && (step.PaymentFailed? ==>
          (paymentError == Some(step.message) && !isPaymentInitiated
           && route == old(route) && phonePeTokenUrl == old(phonePeTokenUrl)))
    {
      var step := OrderReplyStep(paymentMethod, reply, phonePeReady);
      match step
      case GoToConfirmation(r) =>
        route := Some(r);
        isPaymentInitiated := false;
      case OpenPhonePe(url) =>
        phonePeTokenUrl := Some(url);
      case PaymentFailed(message) =>
        paymentError := Some(message);
        isPaymentInitiated := false;
    }

    /** The PhonePe checkout's callback: the page is no longer busy, whatever the answer. */
    method HandlePhonePeCallback(response: string)
      modifies this`isPaymentInitiated, this`paymentError, this`paymentStatusMessage
      ensures !isPaymentInitiated
      ensures paymentError == (if response == "USER_CANCEL" then Some("Payment was canceled by the user.") else old(paymentError))
      ensures paymentStatusMessage ==
        (if response == "CONCLUDED" then Some("Payment processing. Please wait...")
         else old(paymentStatusMessage))
    {
      isPaymentInitiated := false;
      if response == "USER_CANCEL" {
        paymentError := Some("Payment was canceled by the user.");
      } else if response == "CONCLUDED" {
        paymentStatusMessage := Some("Payment processing. Please wait...");
      }
    }

    function FinalAmountShown(): int
      reads this
    {
      FinalAmount(totalCart, shippingCost, discountAmount)
    }
  }
}
