/**
 * The cart page: the subtotal and shipping effect, the free-shipping banner, the quantity
 * controls, the coupon form, the shipping radios and the hand-off to checkout.
 * Amounts are integer rupees.
 */
module CartPage {
  import opened Wrappers
  import Lists
  import Text
  import Routes
  import opened CartContext

  /** `moneyForFreeship`: the subtotal from which shipping is free. */
  const FreeShippingThreshold := 150
  /** The "Local" shipping rate, also the initial and the default paid rate. */
  const LocalRate := 30
  /** The "Flat Rate" shipping rate. */
  const FlatRate := 40

  function LineTotal(item: CartItem): int
  {
    item.salePrice * item.quantity
  }

  /** `cartArray.reduce((sum, item) => sum + item.salePrice * item.quantity, 0)`. */
  function Subtotal(items: seq<CartItem>): int
  {
    Lists.SumBy(items, LineTotal)
  }

  /** The shipping the effect chooses: free from the threshold on or for an empty cart, else 30. */
  function Shipping(items: seq<CartItem>): (r: int)
    ensures r == 0 <==> Subtotal(items) >= FreeShippingThreshold || |items| == 0
    ensures r != 0 ==> r == LocalRate
  {
    if Subtotal(items) >= FreeShippingThreshold then 0
    else if |items| == 0 then 0
    else LocalRate
  }

  /** The banner's "Buy ₹… more": what is still missing to reach free shipping. */
  function FreeShipRemainder(total: int): (r: int)
    ensures r >= 0
    ensures r == 0 <==> total >= FreeShippingThreshold
    ensures r > 0 ==> total + r == FreeShippingThreshold
  {
    if FreeShippingThreshold - total > 0 then FreeShippingThreshold - total else 0
  }

  /** Once the banner asks for nothing more, the effect charges no shipping. */
  lemma NoRemainderMeansFreeShipping(items: seq<CartItem>)
    ensures FreeShipRemainder(Subtotal(items)) == 0 ==> Shipping(items) == 0
    ensures Shipping(items) != 0 ==> FreeShipRemainder(Subtotal(items)) > 0
  {
  }

  /** Adding one line adds exactly its amount to the subtotal. */
  lemma SubtotalOfAppend(items: seq<CartItem>, item: CartItem)
    ensures Subtotal(items + [item]) == Subtotal(items) + item.salePrice * item.quantity
  {
    Lists.SumByAppend(items, [item], LineTotal);
    assert [item][..0] == [];
  }

  /** With non-negative prices and quantities the subtotal is a non-negative sum. */
  lemma SubtotalNonNegative(items: seq<CartItem>)
    requires forall i :: 0 <= i < |items| ==> items[i].salePrice >= 0 && items[i].quantity >= 0
    ensures Subtotal(items) >= 0
  {
    forall i | 0 <= i < |items| ensures LineTotal(items[i]) >= 0 {
    }
    Lists.SumByNonNegative(items, LineTotal);
  }

  /** The total shown under "Order Summary". */
  function DisplayedTotal(total: int, discount: int, ship: int): int
  {
    total - discount + ship
  }

  /** `cartArray.find(item => item.id === id)`, as the index of the first such line. */
  function FindById(c: seq<CartItem>, id: string): (r: Option<nat>)
    ensures r.Some? ==> r.value < |c| && c[r.value].id == id
    ensures r.Some? ==> forall j :: 0 <= j < r.value ==> c[j].id != id
    ensures r.None? ==> forall j :: 0 <= j < |c| ==> c[j].id != id
    decreases |c|
  {
    if c == [] then None
    else if c[0].id == id then Some(0)
    else
      match FindById(c[1..], id)
      case None => None
      case Some(i) => Some(i + 1)
  }

  /** `handleQuantityChange`: update to the new quantity with the first matching line's size and color. */
  function QuantityChange(cart: CartState, id: string, q: int): CartState
  {
    match FindById(cart.cartArray, id)
    case None => cart
    case Some(i) => CartReducer(cart, UpdateCart(id, q, cart.cartArray[i].selectedSize, cart.cartArray[i].selectedColor))
  }

  /**
   * Without a line of that id nothing is dispatched; otherwise every line with the id gets the
   * quantity and the size and color of the first such line, and every other line is unchanged.
   */
  lemma QuantityChangeEffect(cart: CartState, id: string, q: int)
    ensures var c := cart.cartArray;
      var r := QuantityChange(cart, id, q).cartArray;
      ((forall j :: 0 <= j < |c| ==> c[j].id != id) ==> r == c)
      && |r| == |c|
      && (forall j :: 0 <= j < |c| && c[j].id != id ==> r[j] == c[j])
      && (forall j :: 0 <= j < |c| && c[j].id == id ==>
            var first := c[FindById(c, id).value];
            r[j] == c[j].(quantity := q, selectedSize := first.selectedSize, selectedColor := first.selectedColor))
  {
    match FindById(cart.cartArray, id)
    case None =>
    case Some(i) =>
      var first := cart.cartArray[i];
      UpdateSetsMatchingLines(cart, id, q, first.selectedSize, first.selectedColor);
  }

  /** Every line has a quantity of at least one. */
  ghost predicate PositiveQuantities(c: seq<CartItem>)
  {
    forall j :: 0 <= j < |c| ==> c[j].quantity >= 1
  }

  /** The minus control: it asks for `quantity - 1` only above 1. */
  function Decrement(cart: CartState, line: CartItem): CartState
  {
    if line.quantity > 1 then QuantityChange(cart, line.id, line.quantity - 1) else cart
  }

  /** The plus control. */
  function Increment(cart: CartState, line: CartItem): CartState
  {
    QuantityChange(cart, line.id, line.quantity + 1)
  }

  /** The quantity controls never bring a line below one. */
  lemma ControlsKeepQuantitiesPositive(cart: CartState, i: nat)
    requires i < |cart.cartArray| && PositiveQuantities(cart.cartArray)
    ensures PositiveQuantities(Decrement(cart, cart.cartArray[i]).cartArray)
    ensures PositiveQuantities(Increment(cart, cart.cartArray[i]).cartArray)
  {
    var line := cart.cartArray[i];
    QuantityChangeEffect(cart, line.id, line.quantity + 1);
    if line.quantity > 1 {
      QuantityChangeEffect(cart, line.id, line.quantity - 1);
    }
  }

  /** The remove control keeps quantities positive too. */
  lemma RemoveKeepsQuantitiesPositive(cart: CartState, id: string)
    requires PositiveQuantities(cart.cartArray)
    ensures PositiveQuantities(CartReducer(cart, RemoveFromCart(id)).cartArray)
  {
    var r := CartReducer(cart, RemoveFromCart(id)).cartArray;
    forall j | 0 <= j < |r| ensures r[j].quantity >= 1 {
      var k :| 0 <= k < |cart.cartArray| && cart.cartArray[k] == r[j];
    }
  }

  // ---------------------------------------------------------------------------
  // coupons

  /** What the coupon endpoint answers: a discount, a rejection with an optional message, or a failure. */
  datatype CouponResponse = Accepted(discountAmount: int) | Rejected(error: Option<string>) | RequestFailed

  const BlankCouponMessage := "Please enter a coupon code."
  const InvalidCouponMessage := "Invalid coupon code"
  const CouponFailureMessage := "Error applying coupon. Please try again."

  /** The discount and the error message after a coupon request. */
  datatype CouponOutcome = CouponOutcome(discount: int, error: Option<string>)

  /** `result.error || 'Invalid coupon code'`. */
  function RejectionMessage(error: Option<string>): string
  {
    if error.Some? && error.value != "" then error.value else InvalidCouponMessage
  }

  function CouponResult(response: CouponResponse): (r: CouponOutcome)
    ensures r.error.None? <==> response.Accepted?
    ensures !response.Accepted? ==> r.discount == 0 && r.error.value != ""
  {
    match response
    case Accepted(d) => CouponOutcome(d, None)
    case Rejected(e) => CouponOutcome(0, Some(RejectionMessage(e)))
    case RequestFailed => CouponOutcome(0, Some(CouponFailureMessage))
  }

  // ---------------------------------------------------------------------------
  // hand-off to checkout

  /** The query of `redirectToCheckout`: `coupon` is carried only when a discount is applied. */
  function CheckoutQuery(discount: int, ship: int, code: string): (q: seq<(string, string)>)
    ensures Routes.Get(q, "discount") == Some(Text.IntToString(discount))
    ensures Routes.Get(q, "ship") == Some(Text.IntToString(ship))
    ensures Routes.Get(q, "coupon").Some? <==> discount > 0
    ensures discount > 0 ==> Routes.Get(q, "coupon") == Some(code)
  {
    var d := ("discount", Text.IntToString(discount));
    var s := ("ship", Text.IntToString(ship));
    var q := if discount > 0 then [d, s, ("coupon", code)] else [d, s];
    assert q[1..][0] == s && q[1..][1..] == q[2..];
    assert discount > 0 ==> q[2..] == [("coupon", code)] && q[2..][1..] == [];
    assert discount <= 0 ==> q[2..] == [];
    assert |"discount"| != |"coupon"| && |"ship"| != |"coupon"| && |"discount"| != |"ship"|;
    assert discount > 0 ==> Routes.Get(q, "coupon") == Routes.Get(q[1..], "coupon") == Routes.Get(q[2..], "coupon") == Some(code);
    q
  }

  /**
   * The coupon input as evidently intended: typing a different code withdraws the discount the
   * previous code earned, so a positive discount always travels with the code that earned it.
   * `onChange` as written only sets the code (`CartView.HandleCouponInput`).
   */
  function DiscountAfterInput(discount: int, code: string, value: string): (r: int)
    ensures r == discount || r == 0
    ensures r > 0 ==> value == code
    ensures value == code ==> r == discount
  {
    if value == code then discount else 0
  }

  function CheckoutRoute(discount: int, ship: int, code: string): Routes.Route
  {
    Routes.Route("/checkout", CheckoutQuery(discount, ship, code))
  }

  /** The shipping radios. */
  datatype ShipChoice = FreeShipping | Local | Flat

  // ---------------------------------------------------------------------------
  // the page

  class CartView {
    var cart: CartState
    var totalCart: int
    var discountCart: int
    var shipCart: int
    var couponCode: string
    var couponError: Option<string>
    var route: Option<Routes.Route>
    /** The totals each coupon request sends to the server. */
    var couponRequests: seq<int>

    /**
     * The totals agree with the cart; shipping is one of the three rates, free from the
     * threshold on, and charged for a non-empty cart below it.
     */
    ghost predicate Valid()
      reads this
    {
      totalCart == Subtotal(cart.cartArray)
      && (shipCart == 0 || shipCart == LocalRate || shipCart == FlatRate)
      && (totalCart >= FreeShippingThreshold ==> shipCart == 0)
      && (totalCart < FreeShippingThreshold && |cart.cartArray| > 0 ==> shipCart != 0)
    }

    /** Mounting the page: the initial state, then the totals effect. */
    constructor (cart0: CartState)
      ensures Valid()
      ensures cart == cart0 && discountCart == 0 && couponCode == "" && couponError.None? && route.None?
      ensures shipCart == Shipping(cart0.cartArray)
      ensures couponRequests == []
    {
      cart := cart0;
      totalCart := 0;
      discountCart := 0;
      shipCart := LocalRate;
      couponCode := "";
      couponError := None;
      route := None;
      couponRequests := [];
      new;
      RecomputeTotals();
    }

    /** The effect on `cartArray`: recompute the subtotal and reset shipping. */
    method RecomputeTotals()
      modifies this
      ensures Valid()
      ensures totalCart == Subtotal(cart.cartArray) && shipCart == Shipping(cart.cartArray)
      ensures cart == old(cart) && discountCart == old(discountCart) && couponCode == old(couponCode)
      ensures couponError == old(couponError) && route == old(route) && couponRequests == old(couponRequests)
    {
      totalCart := Subtotal(cart.cartArray);
      if totalCart >= FreeShippingThreshold {
        shipCart := 0;
      } else if |cart.cartArray| == 0 {
        shipCart := 0;
      } else {
        shipCart := LocalRate;
      }
    }

    /** A click on a shipping radio; disabled radios do nothing. */
    method ChooseShipping(choice: ShipChoice)
      requires Valid()
      modifies this
      ensures Valid()
      ensures totalCart >= FreeShippingThreshold ==> shipCart == 0
      ensures totalCart < FreeShippingThreshold && choice == Local ==> shipCart == LocalRate
      ensures totalCart < FreeShippingThreshold && choice == Flat ==> shipCart == FlatRate
      ensures totalCart < FreeShippingThreshold && choice == FreeShipping ==> shipCart == old(shipCart)
      ensures cart == old(cart) && totalCart == old(totalCart) && discountCart == old(discountCart)
      ensures couponCode == old(couponCode) && couponError == old(couponError) && route == old(route)
      ensures couponRequests == old(couponRequests)
    {
      if totalCart >= FreeShippingThreshold {
        if choice == FreeShipping {
          shipCart := 0;
        }
      } else {
        if choice == Local {
          shipCart := LocalRate;
        } else if choice == Flat {
          shipCart := FlatRate;
        }
      }
    }

    /** `handleQuantityChange`, followed by the totals effect the new cart triggers. */
    method HandleQuantityChange(id: string, q: int)
      requires Valid()
      modifies this
      ensures Valid()
      ensures cart == QuantityChange(old(cart), id, q)
      ensures discountCart == old(discountCart) && couponCode == old(couponCode)
      ensures couponError == old(couponError) && route == old(route) && couponRequests == old(couponRequests)
    {
      var found := FindById(cart.cartArray, id);
      if found.Some? {
        var line := cart.cartArray[found.value];
        cart := CartReducer(cart, UpdateCart(id, q, line.selectedSize, line.selectedColor));
        RecomputeTotals();
      }
    }

    /** The remove control, followed by the totals effect. */
    method Remove(id: string)
      requires Valid()
      modifies this
      ensures Valid()
      ensures cart == CartReducer(old(cart), RemoveFromCart(id))
      ensures discountCart == old(discountCart) && couponCode == old(couponCode)
      ensures couponError == old(couponError) && route == old(route) && couponRequests == old(couponRequests)
    {
      cart := CartReducer(cart, RemoveFromCart(id));
      RecomputeTotals();
    }

    /**
     * `handleApplyCoupon` with the server's answer as a parameter: a blank code sets the
     * error and sends nothing; otherwise the current total is sent and the answer applied.
     */
    method HandleApplyCoupon(response: CouponResponse) returns (requested: bool)
      requires Valid()
      modifies this
      ensures Valid()
      ensures requested <==> Text.Trim(old(couponCode)) != ""
      ensures !requested ==> couponError == Some(BlankCouponMessage) && discountCart == old(discountCart)
      ensures !requested ==> couponRequests == old(couponRequests)
      ensures requested ==> couponRequests == old(couponRequests) + [old(totalCart)]
      ensures requested ==> CouponOutcome(discountCart, couponError) == CouponResult(response)
      ensures cart == old(cart) && totalCart == old(totalCart) && shipCart == old(shipCart)
      ensures couponCode == old(couponCode) && route == old(route)
    {
      if Text.Trim(couponCode) == "" {
        couponError := Some(BlankCouponMessage);
        return false;
      }
      couponRequests := couponRequests + [totalCart];
      requested := true;
      match response
      case Accepted(d) =>
        discountCart := d;
        couponError := None;
      case Rejected(e) =>
        discountCart := 0;
        couponError := Some(RejectionMessage(e));
      case RequestFailed =>
        discountCart := 0;
        couponError := Some(CouponFailureMessage);
    }

    /** The coupon input's `onChange`: only the code changes; the discount already applied stays. */
    method HandleCouponInput(value: string)
      modifies this
      ensures couponCode == value
      ensures cart == old(cart) && totalCart == old(totalCart) && shipCart == old(shipCart)
      ensures discountCart == old(discountCart) && couponError == old(couponError) && route == old(route)
      ensures couponRequests == old(couponRequests)
    {
      couponCode := value;
    }

    method RedirectToCheckout()
      modifies this
      ensures route == Some(CheckoutRoute(discountCart, shipCart, couponCode))
      ensures cart == old(cart) && totalCart == old(totalCart) && shipCart == old(shipCart)
      ensures discountCart == old(discountCart) && couponCode == old(couponCode) && couponError == old(couponError)
      ensures couponRequests == old(couponRequests)
    {
      route := Some(CheckoutRoute(discountCart, shipCart, couponCode));
    }

    /** The amount shown as the order total. */
    function Total(): int
      reads this
    {
      DisplayedTotal(totalCart, discountCart, shipCart)
    }
  }
}
