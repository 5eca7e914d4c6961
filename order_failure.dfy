/**
 * The payment-failure page. It reads the access token straight from the stored `tokens`
 * entry, fetches the order only for a visitor with a token, and otherwise explains the
 * failure from the query parameters.
 */
module OrderFailure {
  import opened Wrappers
  import Text
  import Routes
  import Orders
  import AuthContext

  const NoOrderIdMessage := "No order ID provided"
  const LoginWithRedirect := Routes.Route("/login", [("redirect", "/payment-failure")])

  /**
   * `localStorage.getItem('tokens') ? JSON.parse(...).accessToken : null`: the token (which
   * may itself be missing), or `JSON.parse` throwing on text that is not JSON.
   */
  datatype TokenRead = TokenValue(token: Option<string>) | ParseThrows

  function ReadToken(stored: Option<AuthContext.StoredValue>): TokenRead
  {
    if !AuthContext.StoredIsTruthy(stored) then TokenValue(None)
    else match stored.value
      case NotJson(_) => ParseThrows
      case Json(accessToken) => TokenValue(accessToken)
  }

  /** `` `Payment failed: ${error || 'Unknown error'}${region ? ` (Region: ${region})` : ''}` ``. */
  function FailureMessage(errorParam: Option<string>, region: Option<string>): string
  {
    "Payment failed: " + StrOr(errorParam, "Unknown error")
    + (if StrOr(region, "") != "" then " (Region: " + region.value + ")" else "")
  }

  /**
   * The message always starts with "Payment failed: " and the error (or 'Unknown error'),
   * and carries a region suffix exactly when a region is given.
   */
  lemma FailureMessageParts(errorParam: Option<string>, region: Option<string>)
    ensures var head := "Payment failed: " + StrOr(errorParam, "Unknown error");
      var m := FailureMessage(errorParam, region);
      Text.StartsWith(m, head)
      && (StrOr(region, "") == "" <==> m == head)
      && (StrOr(region, "") != "" ==> m[|head|..] == " (Region: " + region.value + ")")
  {
    var head := "Payment failed: " + StrOr(errorParam, "Unknown error");
    var m := FailureMessage(errorParam, region);
    assert m[..|head|] == head;
    if StrOr(region, "") != "" {
      assert |m| > |head|;
    }
  }

  /** What the effect on the query parameters decides. */
  datatype Entry =
    | MissingOrderId
    | FetchOrder(orderId: string, token: string)
    | ExplainFromQuery(message: string)
    | EffectThrows

  function EntryStep(query: seq<(string, string)>, stored: Option<AuthContext.StoredValue>): Entry
  {
    var orderId := Routes.Get(query, "orderId");
    if StrOr(orderId, "") == "" then MissingOrderId
    else match ReadToken(stored)
      case ParseThrows => EffectThrows
      case TokenValue(token) =>
        if StrOr(token, "") != "" then FetchOrder(orderId.value, token.value)
        else ExplainFromQuery(FailureMessage(Routes.Get(query, "error"), Routes.Get(query, "region")))
  }

  /**
   * Without an order id nothing is fetched. With one, a visitor holding a token has the
   * order fetched; any other visitor sees the failure explained from the query.
   */
  lemma EntryOutcomes(query: seq<(string, string)>, stored: Option<AuthContext.StoredValue>)
    ensures var e := EntryStep(query, stored);
      var orderId := Routes.Get(query, "orderId");
      (e.MissingOrderId? <==> orderId.None? || orderId.value == "")
      && (orderId.Some? && orderId.value != "" && ReadToken(stored).TokenValue? ==>
            var t := ReadToken(stored).token;
            (e.FetchOrder? <==> t.Some? && t.value != "")
            && (e.ExplainFromQuery? <==> t.None? || t.value == "")
            && (e.ExplainFromQuery? ==>
                  e.message == FailureMessage(Routes.Get(query, "error"), Routes.Get(query, "region"))))
      && (e.FetchOrder? ==> orderId == Some(e.orderId))
    ensures var e := EntryStep(query, stored);
      !AuthContext.StoredIsTruthy(stored) ==> e.MissingOrderId? || e.ExplainFromQuery?
  {
  }

  /** The fetch: the order, a response that is not ok, or an exception with its message. */
  datatype FetchReply = Found(order: Orders.Order) | NotOk(status: int, body: string) | Threw(message: string)

  function ErrorText(reply: FetchReply): string
    requires !reply.Found?
  {
    match reply
    case NotOk(status, body) => Orders.FetchErrorMessage(status, body)
    case Threw(message) => message
  }

  /** Whether a fetch error, for a visitor holding `token`, drops the tokens and goes to login. */
  predicate DropsTokens(message: string, token: string)
  {
    token != "" && Text.Contains(message, "401")
  }

  /** A 401 with a token logs the visitor out; an error that does not mention 401 never does. */
  lemma UnauthorizedHandling(body: string, message: string, token: string)
    ensures token != "" ==> DropsTokens(ErrorText(NotOk(401, body)), token)
    ensures !Text.Contains(message, "401") ==> !DropsTokens(message, token)
  {
    Orders.UnauthorizedIsRecognised(401, body);
  }

  class OrderFailureView {
    var order: Option<Orders.Order>
    var loading: bool
    var error: Option<string>
    var route: Option<Routes.Route>
    var storage: Option<AuthContext.StoredValue>

    constructor (stored: Option<AuthContext.StoredValue>)
      ensures order.None? && loading && error.None? && route.None? && storage == stored
    {
      order := None;
      loading := true;
      error := None;
      route := None;
      storage := stored;
    }

    /**
     * The effect on the query parameters, with `fetchOrderDetails` when it runs; `request`
     * is the order path requested. When `JSON.parse` throws, the effect stops and nothing
     * changes, so the page keeps loading.
     */
    method OnQuery(query: seq<(string, string)>, reply: FetchReply) returns (request: Option<string>)
      modifies this
      ensures match EntryStep(query, old(storage))
        case MissingOrderId =>
          request.None? && error == Some(NoOrderIdMessage) && !loading
          && order == old(order) && route == old(route) && storage == old(storage)
        case EffectThrows =>
          request.None? && order == old(order) && loading == old(loading) && error == old(error)
          && route == old(route) && storage == old(storage)
        case ExplainFromQuery(message) =>
          request.None? && error == Some(message) && !loading
          && order == old(order) && route == old(route) && storage == old(storage)
        case FetchOrder(orderId, token) =>
          request == Some("/api/orders/" + orderId) && !loading
          && (reply.Found? ==>
                order == Some(reply.order) && error == old(error) && route == old(route) && storage == old(storage))
          && (!reply.Found? ==>
                order == old(order) && error == Some(ErrorText(reply))
                && (DropsTokens(ErrorText(reply), token) ==> storage.None? && route == Some(LoginWithRedirect))
                && (!DropsTokens(ErrorText(reply), token) ==> storage == old(storage) && route == old(route)))
    {
      request := None;
      match EntryStep(query, storage) {
        case MissingOrderId =>
          error := Some(NoOrderIdMessage);
          loading := false;
        case EffectThrows =>
        case ExplainFromQuery(message) =>
          error := Some(message);
          loading := false;
        case FetchOrder(orderId, token) =>
          loading := true;
          request := Some("/api/orders/" + orderId);
          if reply.Found? {
            order := Some(reply.order);
          } else {
            var message := ErrorText(reply);
            error := Some(message);
            if DropsTokens(message, token) {
              storage := None;
              route := Some(LoginWithRedirect);
            }
          }
          loading := false;
      }
    }

    /** The subtotal line, shown once the order is loaded. */
    function ShownSubtotal(): int
      reads this
      requires order.Some?
    {
      Orders.Subtotal(order.value)
    }

    /** The discount row appears only for an order with a coupon code. */
    predicate ShowsDiscount()
      reads this
      requires order.Some?
    {
      Orders.ShowsDiscountRow(order.value)
    }
  }
}
