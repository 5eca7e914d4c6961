/**
 * The order-confirmation page: which query parameters lead to a fetch, a redirect or an
 * error; the order request; what a failed fetch does to the stored tokens and the route;
 * and what the page shows once the order is there.
 */
module OrderConfirmation {
  import opened Wrappers
  import Text
  import Routes
  import Orders

  const NoOrderIdMessage := "No order ID provided"
  const HomeRoute := Routes.Path("/")
  const LoginRoute := Routes.Path("/login")
  const LoginWithRedirect := Routes.Route("/login", [("redirect", "/pages/order-confirmation")])

  /** What the effect on the query parameters decides. */
  datatype Entry =
    | WaitForAuth
    | MissingOrderId
    | FetchOrder(orderId: string, transactionId: Option<string>)
    | SendToLogin

  /** A status that lets a guest see the order (the payment gateway's return). */
  predicate GuestVisibleStatus(status: Option<string>)
  {
    status == Some("success") || status == Some("processing") || status == Some("shipped")
  }

  function EntryStep(authLoading: bool, query: seq<(string, string)>, hasToken: bool): Entry
  {
    if authLoading then WaitForAuth
    else
      var orderId := Routes.Get(query, "orderId");
      var transactionId := Routes.Get(query, "transactionId");
      var status := Routes.Get(query, "status");
      if StrOr(orderId, "") == "" then MissingOrderId
      else if GuestVisibleStatus(status) || hasToken then FetchOrder(orderId.value, transactionId)
      else SendToLogin
  }

  /**
   * Without an order id nothing is fetched (the page shows an error and goes home). With
   * one, the order is fetched exactly when the status is success, processing or shipped,
   * or a token is held; otherwise the visitor is sent to log in.
   */
  lemma EntryOutcomes(query: seq<(string, string)>, hasToken: bool)
    ensures var e := EntryStep(false, query, hasToken);
      var orderId := Routes.Get(query, "orderId");
      (e.MissingOrderId? <==> orderId.None? || orderId.value == "")
      && (e.FetchOrder? <==>
            orderId.Some? && orderId.value != "" && (GuestVisibleStatus(Routes.Get(query, "status")) || hasToken))
      && (e.FetchOrder? ==>
            e.orderId == orderId.value && e.transactionId == Routes.Get(query, "transactionId"))
      && (e.SendToLogin? <==>
            orderId.Some? && orderId.value != "" && !GuestVisibleStatus(Routes.Get(query, "status")) && !hasToken)
    ensures EntryStep(true, query, hasToken).WaitForAuth?
  {
  }

  /** `/api/orders/<orderId>`, with `?transactionId=` only when there is a transaction id. */
  function OrderRequest(orderId: string, transactionId: Option<string>): (r: Routes.Route)
    ensures r.path == "/api/orders/" + orderId
  {
    Routes.Route("/api/orders/" + orderId,
      if StrOr(transactionId, "") != "" then [("transactionId", transactionId.value)] else [])
  }

  /** The request carries the transaction id exactly when one is present and non-empty. */
  lemma OrderRequestCarriesTransaction(orderId: string, transactionId: Option<string>)
    ensures var q := OrderRequest(orderId, transactionId).query;
      (StrOr(transactionId, "") != "" ==> Routes.Get(q, "transactionId") == transactionId)
      && (StrOr(transactionId, "") == "" ==> q == [])
  {
  }

  /** The fetch: the order, a response that is not ok, or an exception with its message. */
  datatype FetchReply = Found(order: Orders.Order) | NotOk(status: int, body: string) | Threw(message: string)

  function ErrorText(reply: FetchReply): string
    requires !reply.Found?
  {
    match reply
    case NotOk(status, body) => Orders.FetchErrorMessage(status, body)
    case Threw(message) => message
  }

  /** What happens after the error is recorded. */
  datatype AfterError = DropTokensToLogin | ToLoginWithRedirect | StayOnError

  function AfterFetchError(message: string, hasToken: bool, transactionId: Option<string>): AfterError
  {
    if Text.Contains(message, "401") && hasToken then DropTokensToLogin
    else if !hasToken && StrOr(transactionId, "") == "" then ToLoginWithRedirect
    else StayOnError
  }

  /**
   * A 401 answer while a token is held removes the stored tokens and goes to login. A
   * visitor with neither a token nor a transaction id goes to login (with a redirect) on any
   * error. A visitor holding a token is never sent there with the redirect.
   */
  lemma FetchErrorRouting(body: string, message: string, hasToken: bool, transactionId: Option<string>)
    ensures hasToken ==> AfterFetchError(ErrorText(NotOk(401, body)), true, transactionId) == DropTokensToLogin
    ensures !hasToken && StrOr(transactionId, "") == "" ==> AfterFetchError(message, hasToken, transactionId) == ToLoginWithRedirect
    ensures !hasToken && StrOr(transactionId, "") != "" ==> AfterFetchError(message, hasToken, transactionId) == StayOnError
    ensures hasToken ==> AfterFetchError(message, hasToken, transactionId) != ToLoginWithRedirect
  {
    Orders.UnauthorizedIsRecognised(401, body);
  }

  // ---------------------------------------------------------------------------
  // what the page shows

  /** The heading for the `status` parameter. */
  function Heading(status: Option<string>): string
  {
    if status == Some("processing") then "Order Processing"
    else if status == Some("shipped") then "Order Shipped"
    else "Order Confirmed"
  }

  lemma HeadingCases(status: Option<string>)
    ensures Heading(status) == "Order Processing" <==> status == Some("processing")
    ensures Heading(status) == "Order Shipped" <==> status == Some("shipped")
    ensures Heading(status) == "Order Confirmed" <==> status != Some("processing") && status != Some("shipped")
  {
  }

  /** The "Transaction ID: ..." note in the thank-you line. */
  function TransactionNote(order: Orders.Order, transactionId: Option<string>): Option<string>
  {
    if StrOr(transactionId, "") != "" && order.paymentMethod != "COD" then transactionId else None
  }

  /** The Transaction ID cell: the query's id, else the order's, else 'Not available'. */
  function TransactionCell(order: Orders.Order, transactionId: Option<string>): Option<string>
  {
    if order.paymentMethod == "COD" then None
    else Some(StrOr(transactionId, StrOr(order.transactionId, "Not available")))
  }

  /**
   * Cash-on-delivery orders show no transaction id anywhere; other orders always show the
   * cell, preferring the id from the query, and mention it in the thank-you line only when
   * the query has one.
   */
  lemma TransactionShownOnlyForPrepaid(order: Orders.Order, transactionId: Option<string>)
    ensures order.paymentMethod == "COD" ==>
      TransactionNote(order, transactionId).None? && TransactionCell(order, transactionId).None?
    ensures order.paymentMethod != "COD" ==>
      TransactionCell(order, transactionId).Some?
      && TransactionCell(order, transactionId).value != ""
      && (TransactionNote(order, transactionId).Some? <==> StrOr(transactionId, "") != "")
      && (StrOr(transactionId, "") != "" ==> TransactionCell(order, transactionId) == transactionId)
  {
  }

  // ---------------------------------------------------------------------------
  // the page's state

  class OrderConfirmationView {
    var order: Option<Orders.Order>
    var loading: bool
    var error: Option<string>
    var route: Option<Routes.Route>
    var tokensStored: bool

    constructor (stored: bool)
      ensures order.None? && loading && error.None? && route.None? && tokensStored == stored
    {
      order := None;
      loading := true;
      error := None;
      route := None;
      tokensStored := stored;
    }

    /**
     * The effect on the query parameters, together with `fetchOrderDetails` when it runs.
     * `request` is the order request when one was made.
     */
    method OnQuery(authLoading: bool, query: seq<(string, string)>, hasToken: bool, reply: FetchReply)
      returns (request: Option<Routes.Route>)
      modifies this
      ensures match EntryStep(authLoading, query, hasToken)
        case WaitForAuth =>
          request.None? && order == old(order) && loading == old(loading) && error == old(error)
          && route == old(route) && tokensStored == old(tokensStored)
        case MissingOrderId =>
          request.None? && error == Some(NoOrderIdMessage) && !loading && route == Some(HomeRoute)
          && order == old(order) && tokensStored == old(tokensStored)
        case SendToLogin =>
          request.None? && route == Some(LoginWithRedirect)
          && order == old(order) && loading == old(loading) && error == old(error)
          && tokensStored == old(tokensStored)
        case FetchOrder(orderId, transactionId) =>
          request == Some(OrderRequest(orderId, transactionId)) && !loading
          && (reply.Found? ==>
                order == Some(reply.order) && error == old(error) && route == old(route)
                && tokensStored == old(tokensStored))
          && (!reply.Found? ==>
                order == old(order) && error == Some(ErrorText(reply))
                && match AfterFetchError(ErrorText(reply), hasToken, transactionId)
                   case DropTokensToLogin => !tokensStored && route == Some(LoginRoute)
                   case ToLoginWithRedirect => tokensStored == old(tokensStored) && route == Some(LoginWithRedirect)
                   case StayOnError => tokensStored == old(tokensStored) && route == old(route))
    {
      request := None;
      match EntryStep(authLoading, query, hasToken) {
        case WaitForAuth =>
        case MissingOrderId =>
          error := Some(NoOrderIdMessage);
          loading := false;
          route := Some(HomeRoute);
        case SendToLogin =>
          route := Some(LoginWithRedirect);
        case FetchOrder(orderId, transactionId) =>
          loading := true;
          request := Some(OrderRequest(orderId, transactionId));
          if reply.Found? {
            order := Some(reply.order);
          } else {
            var message := ErrorText(reply);
            error := Some(message);
            match AfterFetchError(message, hasToken, transactionId) {
              case DropTokensToLogin =>
                tokensStored := false;
                route := Some(LoginRoute);
              case ToLoginWithRedirect =>
                route := Some(LoginWithRedirect);
              case StayOnError =>
            }
          }
          loading := false;
      }
    }

    /** `rawSubtotal`, shown once the order is loaded. */
    function RawSubtotal(): int
      reads this
      requires order.Some?
    {
      Orders.Subtotal(order.value)
    }
  }
}
