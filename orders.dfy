/** The order records the account, confirmation and failure pages receive from the API. */
module Orders {
  import opened Wrappers
  import Lists
  import Text

  datatype Address = Address(
    name: string,
    lastname: string,
    streetAddress: string,
    city: string,
    state: string,
    zip: string,
    country: string,
    phone: string,
    email: string)

  datatype OrderProduct = OrderProduct(
    productId: string,
    name: string,
    price: int,
    quantity: int,
    thumbnail: string)

  datatype Order = Order(
    orderId: string,
    products: seq<OrderProduct>,
    totalAmount: int,
    paymentMethod: string,
    shippingAddress: Address,
    billingAddress: Address,
    shippingCost: int,
    couponCode: Option<string>,
    discountAmount: int,
    transactionId: Option<string>,
    trackingNumber: Option<string>,
    status: string,
    paymentStatus: string)

  function LineAmount(p: OrderProduct): int
  {
    p.price * p.quantity
  }

  /** `order.products.reduce((sum, p) => sum + p.price * p.quantity, 0)`. */
  function Subtotal(o: Order): int
  {
    Lists.SumBy(o.products, LineAmount)
  }

  /** Adding a product line to an order adds exactly that line's amount to the subtotal. */
  lemma SubtotalAddLine(o: Order, p: OrderProduct)
    ensures Subtotal(o.(products := o.products + [p])) == Subtotal(o) + p.price * p.quantity
  {
    Lists.SumByAppend(o.products, [p], LineAmount);
    assert Lists.SumBy([p], LineAmount) == LineAmount(p) by {
      assert [p][..0] == [];
    }
  }

  /** With non-negative prices and quantities the subtotal is non-negative. */
  lemma SubtotalNonNegative(o: Order)
    requires forall i :: 0 <= i < |o.products| ==> o.products[i].price >= 0 && o.products[i].quantity >= 0
    ensures Subtotal(o) >= 0
  {
    forall i | 0 <= i < |o.products| ensures LineAmount(o.products[i]) >= 0 {
    }
    Lists.SumByNonNegative(o.products, LineAmount);
  }

  /** Whether the discount row is rendered: `order.couponCode` must be a non-empty string. */
  predicate ShowsDiscountRow(o: Order)
  {
    o.couponCode.Some? && o.couponCode.value != ""
  }

  /**
   * The discount row depends on the coupon code alone: an order without one shows no row
   * whatever its discount amount, and one with a code shows the row even for a zero amount.
   */
  lemma DiscountRowFollowsCoupon(o: Order, amount: int)
    ensures ShowsDiscountRow(o.(discountAmount := amount)) == ShowsDiscountRow(o)
    ensures o.couponCode.None? ==> !ShowsDiscountRow(o.(discountAmount := amount))
    ensures o.couponCode.Some? && o.couponCode.value != "" ==> ShowsDiscountRow(o.(discountAmount := 0))
  {
  }

  /** The message `fetchOrderDetails` throws for a response that is not ok. */
  function FetchErrorMessage(status: int, body: string): string
  {
    "Failed to fetch order details: " + Text.IntToString(status) + " - " + body
  }

  /**
   * The pages treat an error as "unauthorised" when its message includes "401". A 401
   * response is always recognised, and so is any failed response whose body mentions 401.
   */
  lemma UnauthorizedIsRecognised(status: int, body: string)
    ensures status == 401 ==> Text.Contains(FetchErrorMessage(status, body), "401")
    ensures Text.Contains(body, "401") ==> Text.Contains(FetchErrorMessage(status, body), "401")
  {
    if status == 401 {
      StatusIsRecognised(body);
    }
    if Text.Contains(body, "401") {
      BodyIsRecognised(status, body);
    }
  }

  lemma StatusIsRecognised(body: string)
    ensures Text.Contains(FetchErrorMessage(401, body), "401")
  {
    var prefix := "Failed to fetch order details: ";
    var m := FetchErrorMessage(401, body);
    Four01String();
    assert m == prefix + "401" + " - " + body;
    assert m[|prefix|..|prefix| + 3] == "401";
    Text.ContainsAt(m, "401", |prefix|);
  }

  lemma BodyIsRecognised(status: int, body: string)
    requires Text.Contains(body, "401")
    ensures Text.Contains(FetchErrorMessage(status, body), "401")
  {
    var m := FetchErrorMessage(status, body);
    assert m[|m| - |body|..] == body;
    Text.ContainsInSuffix(m, |m| - |body|, "401");
  }

  lemma Four01String()
    ensures Text.IntToString(401) == "401"
  {
    assert Text.NatToString(40) == Text.NatToString(4) + ['0'];
    assert Text.NatToString(401) == Text.NatToString(40) + ['1'];
  }
}
