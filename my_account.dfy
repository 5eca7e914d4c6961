/**
 * The customer account page: loading the user and the order history (customers only),
 * the address form (new-address defaults, field edits, the phone rule on save), order
 * cancellation, and the dashboard's display rules.
 *
 * Server replies are parameters; toasts are recorded as their texts, navigation as the
 * path pushed, and `logout()` as a count of calls into the auth provider.
 */
module MyAccount {
  import opened Wrappers
  import Lists
  import Text
  import Orders
  import CheckoutPage

  datatype AddressType = Shipping | Billing

  datatype AccountAddress = AccountAddress(
    dbId: string,
    name: string,
    lastname: string,
    companyName: string,
    country: string,
    streetAddress: string,
    city: string,
    state: string,
    zip: string,
    phone: string,
    email: string,
    kind: AddressType,
    isDefault: bool)

  datatype User = User(
    name: Option<string>,
    lastname: Option<string>,
    email: string,
    phone: Option<string>,
    role: string,
    addresses: Option<seq<AccountAddress>>)

  const AccessDeniedToast := "Access denied. This page is for customers only."
  const LoadFailedToast := "Failed to load account data"
  const AddressSavedToast := "Address saved successfully!"
  const PhoneRejectedMessage := "Phone number must be 10 digits"

  /** The toast for an address that was not saved, around the reason. */
  function SaveFailedToast(reason: string): string
  {
    "Failed to save address: " + reason
  }
  const CancelReasonMissingToast := "Please provide a reason for cancellation"
  const CancelledToast := "Order cancelled successfully!"

  /** The toast for a refused cancel request, around the server's error. */
  function CancelFailedToast(serverError: Option<string>): string
  {
    "Failed to cancel order: " + StrOr(serverError, "Unknown error")
  }
  const LoginPath := "/login"

  /** The address form before anything is selected. */
  const EmptyAddressForm := AccountAddress("", "", "", "", "", "", "", "", "", "", "", Shipping, false)

  // ---------------------------------------------------------------------------
  // loading the account

  /** The mount effect: wait for the auth provider, then go to login or load the account. */
  datatype MountAction = WaitForAuth | GoToLogin | LoadAccountData

  function MountStep(authLoading: bool, hasToken: bool): (r: MountAction)
    ensures r.WaitForAuth? <==> authLoading
    ensures r.GoToLogin? <==> !authLoading && !hasToken
    ensures r.LoadAccountData? <==> !authLoading && hasToken
  {
    if authLoading then WaitForAuth else if !hasToken then GoToLogin else LoadAccountData
  }

  /** `GET /api/auth/user`: the user, or an error with the HTTP status if there was a response. */
  datatype UserReply = UserOk(user: User) | UserFailed(status: Option<int>)

  /** `GET /api/orders/history`: a body that may or may not be an array, or an error. */
  datatype OrdersReply = OrdersArray(orders: seq<Orders.Order>) | OrdersNotArray | OrdersFailed(status: Option<int>)

  /** What `fetchUserDataAndOrders` ends with. */
  datatype LoadOutcome =
    | Denied
    | Loaded(user: User, orders: seq<Orders.Order>)
    | UserLoadFailed(unauthorized: bool)
    | OrdersLoadFailed(user: User, unauthorized: bool)

  predicate IsCustomer(u: User)
  {
    u.role == "user"
  }

  function LoadOutcomeOf(userReply: UserReply, ordersReply: OrdersReply): LoadOutcome
  {
    match userReply
    case UserFailed(status) => UserLoadFailed(status == Some(401))
    case UserOk(u) =>
      if !IsCustomer(u) then Denied
      else match ordersReply
        case OrdersArray(os) => Loaded(u, os)
        case OrdersNotArray => Loaded(u, [])
        case OrdersFailed(status) => OrdersLoadFailed(u, status == Some(401))
  }

  /**
   * Only customers get in: any other role is denied whatever the order history would have
   * been. A customer's orders are the array the server sent, or none when the body is not
   * an array.
   */
  lemma RoleCheck(u: User, ordersReply: OrdersReply)
    ensures LoadOutcomeOf(UserOk(u), ordersReply).Denied? <==> u.role != "user"
    ensures u.role == "user" && ordersReply.OrdersArray? ==>
      LoadOutcomeOf(UserOk(u), ordersReply) == Loaded(u, ordersReply.orders)
    ensures u.role == "user" && ordersReply.OrdersNotArray? ==>
      LoadOutcomeOf(UserOk(u), ordersReply) == Loaded(u, [])
  {
  }

  // ---------------------------------------------------------------------------
  // the address form

  /** `handleAddNewAddress`: India, a shipping address, not default, contact fields from the user. */
  function NewAddressForm(userData: Option<User>): AccountAddress
  {
    var u := userData;
    AccountAddress(
      dbId := "",
      name := if u.Some? then StrOr(u.value.name, "") else "",
      lastname := if u.Some? then StrOr(u.value.lastname, "") else "",
      companyName := "",
      country := "India",
      streetAddress := "",
      city := "",
      state := "",
      zip := "",
      phone := if u.Some? then StrOr(u.value.phone, "") else "",
      email := if u.Some? then u.value.email else "",
      kind := Shipping,
      isDefault := false)
  }

  /** The new-address defaults, with every contact field the user has (or "") copied over. */
  lemma NewAddressFormDefaults(userData: Option<User>)
    ensures var f := NewAddressForm(userData);
      f.country == "India" && f.kind == Shipping && !f.isDefault && f.dbId == ""
      && f.streetAddress == "" && f.city == "" && f.state == "" && f.zip == "" && f.companyName == ""
      && (userData.None? ==> f.name == "" && f.lastname == "" && f.phone == "" && f.email == "")
      && (userData.Some? ==>
            f.name == userData.value.name.GetOr("") && f.lastname == userData.value.lastname.GetOr("")
            && f.phone == userData.value.phone.GetOr("") && f.email == userData.value.email)
  {
  }

  /** The `name` attribute of the input that fired `handleAddressChange`. */
  datatype AddressField =
    | NameField | LastnameField | CompanyNameField | CountryField | StreetAddressField
    | CityField | StateField | ZipField | PhoneField | EmailField | TypeField | IsDefaultField

  /**
   * `handleAddressChange`: the phone keeps only its first ten digits, the checkbox
   * (`isDefault`) takes `checked`, every other field takes the raw value.
   */
  function ChangeAddressField(form: AccountAddress, field: AddressField, value: string, checked: bool): AccountAddress
  {
    match field
    case PhoneField => form.(phone := CheckoutPage.PhoneFilter(value))
    case IsDefaultField => form.(isDefault := checked)
    case TypeField => form.(kind := if value == "Billing" then Billing else Shipping)
    case NameField => form.(name := value)
    case LastnameField => form.(lastname := value)
    case CompanyNameField => form.(companyName := value)
    case CountryField => form.(country := value)
    case StreetAddressField => form.(streetAddress := value)
    case CityField => form.(city := value)
    case StateField => form.(state := value)
    case ZipField => form.(zip := value)
    case EmailField => form.(email := value)
  }

  /**
   * A phone edit leaves at most ten digits and touches nothing else, and repeating any
   * edit with the same input changes nothing more.
   */
  lemma AddressChangeRules(form: AccountAddress, field: AddressField, value: string, checked: bool)
    ensures var r := ChangeAddressField(form, PhoneField, value, checked);
      Text.AllDigits(r.phone) && |r.phone| <= 10 && r == form.(phone := r.phone)
    ensures var r := ChangeAddressField(form, field, value, checked);
      ChangeAddressField(r, field, value, checked) == r
    ensures ChangeAddressField(form, IsDefaultField, value, checked).isDefault == checked
  {
    CheckoutPage.PhoneFilterIdempotent(value);
  }

  // ---------------------------------------------------------------------------
  // saving an address

  /** `/^\+91\d{10}$/`. */
  predicate ValidIndianPhone(s: string)
  {
    |s| == 13 && s[..3] == CheckoutPage.CountryCode && Text.AllDigits(s[3..])
  }

  /** The check in `handleSaveAddress`: the address is posted, or the phone is rejected. */
  datatype SaveCheck = PhoneRejected | PostAddress(address: AccountAddress)

  function CheckSaveAddress(form: AccountAddress): SaveCheck
  {
    var phone := Text.EnsurePrefix(form.phone, CheckoutPage.CountryCode);
    if ValidIndianPhone(phone) then PostAddress(form.(phone := phone)) else PhoneRejected
  }

  /**
   * An address is posted exactly when its phone is ten digits, with or without "+91" in
   * front; what is posted is the form with the "+91" form of the phone.
   */
  lemma SaveAddressPhoneRule(form: AccountAddress)
    ensures CheckSaveAddress(form).PostAddress? <==>
      (|form.phone| == 10 && Text.AllDigits(form.phone)) || ValidIndianPhone(form.phone)
    ensures CheckSaveAddress(form).PostAddress? ==>
      var a := CheckSaveAddress(form).address;
      ValidIndianPhone(a.phone) && a.phone[3..] == form.phone[|form.phone| - 10..]
      && a == form.(phone := a.phone)
  {
    var p := form.phone;
    var cc := CheckoutPage.CountryCode;
    if Text.StartsWith(p, cc) {
      if |p| == 10 {
        assert !Text.IsDigit(p[0]) by {
          assert p[0] == p[..3][0];
        }
      }
    } else {
      var q := cc + p;
      assert q[3..] == p && q[..3] == cc;
      assert !ValidIndianPhone(p);
    }
  }

  /** A phone typed into the form can be saved exactly when at least ten digits were typed. */
  lemma TypedPhoneIsSaveable(form: AccountAddress, value: string)
    ensures CheckSaveAddress(ChangeAddressField(form, PhoneField, value, false)).PostAddress? <==>
      |Text.DigitsOnly(value)| >= 10
  {
    var f := ChangeAddressField(form, PhoneField, value, false);
    SaveAddressPhoneRule(f);
    assert !ValidIndianPhone(f.phone);
  }

  /** `POST /api/address`: the new address list, or an error. */
  datatype SaveReply = AddressesSaved(addresses: seq<AccountAddress>) | SaveFailed(status: Option<int>, serverError: Option<string>, message: string)

  // ---------------------------------------------------------------------------
  // cancelling an order

  /**
   * `handleCancelOrder`'s request: nothing for a blank reason, otherwise a POST to the
   * order's cancel endpoint carrying the reason as typed.
   */
  function CancelRequest(orderId: string, reason: string): Option<(string, string)>
  {
    if Text.Trim(reason) == "" then None
    else Some(("/api/shipping/" + orderId + "/cancel", reason))
  }

  /** No request is made for a blank or white-space reason; any other is sent untrimmed. */
  lemma CancelNeedsReason(orderId: string, reason: string)
    ensures CancelRequest(orderId, reason).None? <==> Text.IsBlank(reason)
    ensures CancelRequest(orderId, reason).Some? ==>
      CancelRequest(orderId, reason).value.1 == reason
      && Text.StartsWith(CancelRequest(orderId, reason).value.0, "/api/shipping/" + orderId)
  {
    if CancelRequest(orderId, reason).Some? {
      var path := "/api/shipping/" + orderId + "/cancel";
      assert path[..|"/api/shipping/" + orderId|] == "/api/shipping/" + orderId;
    }
  }

  datatype CancelReply = CancelOk(message: Option<string>) | CancelFailed(status: Option<int>, serverError: Option<string>)

  /** `['Pending', 'Processing'].includes(order.status)`: only these orders offer "Cancel Order". */
  predicate CanCancel(status: string)
  {
    status in ["Pending", "Processing"]
  }

  lemma CancelEligibility(status: string)
    ensures CanCancel(status) <==> status == "Pending" || status == "Processing"
  {
  }

  // ---------------------------------------------------------------------------
  // dashboard

  /** `orders.slice(0, 5)`. */
  function RecentOrders(orders: seq<Orders.Order>): seq<Orders.Order>
  {
    Lists.JsSlice(orders, 0, 5)
  }

  /** The dashboard shows the first five orders, or all of them when there are fewer. */
  lemma RecentOrdersCap(orders: seq<Orders.Order>)
    ensures var r := RecentOrders(orders);
      |r| <= 5 && r == orders[..|r|]
      && (|orders| <= 5 ==> r == orders)
      && (|orders| >= 5 ==> |r| == 5)
  {
  }

  /** `` `${name || ''} ${lastname || ''}`.trim() || 'User' ``. */
  function DisplayName(u: User): string
  {
    var full := Text.Trim(StrOr(u.name, "") + " " + StrOr(u.lastname, ""));
    if full == "" then "User" else full
  }

  /**
   * The display name is never blank and has no surrounding white space; it is 'User' exactly
   * when the user has no name and no last name beyond white space, or when the trimmed full
   * name is itself "User".
   */
  lemma DisplayNameRules(u: User)
    ensures var r := DisplayName(u);
      r != "" && !Text.IsSpace(r[0]) && !Text.IsSpace(r[|r| - 1])
      && (r == "User" <==>
            Text.IsBlank(StrOr(u.name, "") + " " + StrOr(u.lastname, ""))
            || Text.Trim(StrOr(u.name, "") + " " + StrOr(u.lastname, "")) == "User")
    ensures Text.IsBlank(StrOr(u.name, "")) && Text.IsBlank(StrOr(u.lastname, "")) ==> DisplayName(u) == "User"
  {
    var first := StrOr(u.name, "");
    var last := StrOr(u.lastname, "");
    var full := first + " " + last;
    if Text.IsBlank(first) && Text.IsBlank(last) {
      forall i | 0 <= i < |full| ensures Text.IsSpace(full[i]) {
        if i < |first| {
          assert full[i] == first[i];
        } else if i == |first| {
          assert full[i] == ' ';
        } else {
          assert full[i] == last[i - |first| - 1];
        }
      }
    }
  }

  // ---------------------------------------------------------------------------
  // the page's state

  class AccountView {
    var userData: Option<User>
    var orders: seq<Orders.Order>
    var loading: bool
    var addressForm: AccountAddress
    var isEditing: bool
    var selectedAddress: Option<AccountAddress>
    var cancelReason: string
    var showCancelPopup: Option<string>
    var route: Option<string>
    var logoutCalls: nat
    var requests: seq<string>
    var toasts: seq<string>

    constructor ()
      ensures userData.None? && orders == [] && loading && addressForm == EmptyAddressForm
      ensures !isEditing && selectedAddress.None? && cancelReason == "" && showCancelPopup.None?
      ensures route.None? && logoutCalls == 0 && requests == [] && toasts == []
    {
      userData := None;
      orders := [];
      loading := true;
      addressForm := EmptyAddressForm;
      isEditing := false;
      selectedAddress := None;
      cancelReason := "";
      showCancelPopup := None;
      route := None;
      logoutCalls := 0;
      requests := [];
      toasts := [];
    }

    /** A failed request answered 401: log out and go to the login page. */
    method LogoutToLogin()
      modifies this
      ensures logoutCalls == old(logoutCalls) + 1 && route == Some(LoginPath)
      ensures userData == old(userData) && orders == old(orders) && loading == old(loading)
      ensures addressForm == old(addressForm) && isEditing == old(isEditing)
      ensures selectedAddress == old(selectedAddress) && cancelReason == old(cancelReason)
      ensures showCancelPopup == old(showCancelPopup) && requests == old(requests) && toasts == old(toasts)
    {
      logoutCalls := logoutCalls + 1;
      route := Some(LoginPath);
    }

    /**
     * `fetchUserDataAndOrders`. A user who is not a customer is logged out and sent to login
     * before the order history is requested; a 401 on either request does the same after
     * the error toast. Loading is over at the end in every case.
     */
    method LoadAccount(userReply: UserReply, ordersReply: OrdersReply)
      modifies this
      ensures !loading
      ensures addressForm == old(addressForm) && isEditing == old(isEditing)
      ensures selectedAddress == old(selectedAddress) && cancelReason == old(cancelReason)
      ensures showCancelPopup == old(showCancelPopup)
      ensures match LoadOutcomeOf(userReply, ordersReply)
        case Denied =>
          requests == old(requests) + ["/api/auth/user"] && toasts == old(toasts) + [AccessDeniedToast]
          && logoutCalls == old(logoutCalls) + 1 && route == Some(LoginPath)
          && userData == old(userData) && orders == old(orders)
        case Loaded(u, os) =>
          requests == old(requests) + ["/api/auth/user", "/api/orders/history"]
          && userData == Some(u) && orders == os
          && toasts == old(toasts) && logoutCalls == old(logoutCalls) && route == old(route)
        case UserLoadFailed(unauthorized) =>
          requests == old(requests) + ["/api/auth/user"] && toasts == old(toasts) + [LoadFailedToast]
          && userData == old(userData) && orders == old(orders)
          && (unauthorized ==> logoutCalls == old(logoutCalls) + 1 && route == Some(LoginPath))
          && (!unauthorized ==> logoutCalls == old(logoutCalls) && route == old(route))
        case OrdersLoadFailed(u, unauthorized) =>
          requests == old(requests) + ["/api/auth/user", "/api/orders/history"]
          && toasts == old(toasts) + [LoadFailedToast]
          && userData == Some(u) && orders == old(orders)
          && (unauthorized ==> logoutCalls == old(logoutCalls) + 1 && route == Some(LoginPath))
          && (!unauthorized ==> logoutCalls == old(logoutCalls) && route == old(route))
    {
      ApplyLoadOutcome(LoadOutcomeOf(userReply, ordersReply));
    }

    /** The state changes for each outcome of the two requests. */
    method ApplyLoadOutcome(outcome: LoadOutcome)
      modifies this
      ensures !loading
      ensures addressForm == old(addressForm) && isEditing == old(isEditing)
      ensures selectedAddress == old(selectedAddress) && cancelReason == old(cancelReason)
      ensures showCancelPopup == old(showCancelPopup)
      ensures match outcome
        case Denied =>
          requests == old(requests) + ["/api/auth/user"] && toasts == old(toasts) + [AccessDeniedToast]
          && logoutCalls == old(logoutCalls) + 1 && route == Some(LoginPath)
          && userData == old(userData) && orders == old(orders)
        case Loaded(u, os) =>
          requests == old(requests) + ["/api/auth/user", "/api/orders/history"]
          && userData == Some(u) && orders == os
          && toasts == old(toasts) && logoutCalls == old(logoutCalls) && route == old(route)
        case UserLoadFailed(unauthorized) =>
          requests == old(requests) + ["/api/auth/user"] && toasts == old(toasts) + [LoadFailedToast]
          && userData == old(userData) && orders == old(orders)
          && (unauthorized ==> logoutCalls == old(logoutCalls) + 1 && route == Some(LoginPath))
          && (!unauthorized ==> logoutCalls == old(logoutCalls) && route == old(route))
        case OrdersLoadFailed(u, unauthorized) =>
          requests == old(requests) + ["/api/auth/user", "/api/orders/history"]
          && toasts == old(toasts) + [LoadFailedToast]
          && userData == Some(u) && orders == old(orders)
          && (unauthorized ==> logoutCalls == old(logoutCalls) + 1 && route == Some(LoginPath))
          && (!unauthorized ==> logoutCalls == old(logoutCalls) && route == old(route))
    {
      loading := true;
      requests := requests + ["/api/auth/user"];
      match outcome {
        case Denied =>
          toasts := toasts + [AccessDeniedToast];
          LogoutToLogin();
        case Loaded(u, os) =>
          userData := Some(u);
          requests := requests + ["/api/orders/history"];
          orders := os;
        case UserLoadFailed(unauthorized) =>
          LoadFailed(unauthorized);
        case OrdersLoadFailed(u, unauthorized) =>
          userData := Some(u);
          requests := requests + ["/api/orders/history"];
          LoadFailed(unauthorized);
      }
      loading := false;
    }

    /** A failed request of the account page: an error toast, and a logout for a 401. */
    method LoadFailed(unauthorized: bool)
      modifies this
      ensures toasts == old(toasts) + [LoadFailedToast]
      ensures unauthorized ==> logoutCalls == old(logoutCalls) + 1 && route == Some(LoginPath)
      ensures !unauthorized ==> logoutCalls == old(logoutCalls) && route == old(route)
      ensures userData == old(userData) && orders == old(orders) && loading == old(loading)
      ensures requests == old(requests) && addressForm == old(addressForm) && isEditing == old(isEditing)
      ensures selectedAddress == old(selectedAddress) && cancelReason == old(cancelReason)
      ensures showCancelPopup == old(showCancelPopup)
    {
      toasts := toasts + [LoadFailedToast];
      if unauthorized {
        LogoutToLogin();
      }
    }

    method HandleAddNewAddress()
      modifies this
      ensures addressForm == NewAddressForm(old(userData)) && selectedAddress.None? && isEditing
      ensures userData == old(userData) && orders == old(orders) && loading == old(loading)
      ensures cancelReason == old(cancelReason) && showCancelPopup == old(showCancelPopup)
      ensures route == old(route) && logoutCalls == old(logoutCalls)
      ensures requests == old(requests) && toasts == old(toasts)
    {
      selectedAddress := None;
      addressForm := NewAddressForm(userData);
      isEditing := true;
    }

    method HandleAddressChange(field: AddressField, value: string, checked: bool)
      modifies this
      ensures addressForm == ChangeAddressField(old(addressForm), field, value, checked)
      ensures userData == old(userData) && orders == old(orders) && loading == old(loading)
      ensures isEditing == old(isEditing) && selectedAddress == old(selectedAddress)
      ensures cancelReason == old(cancelReason) && showCancelPopup == old(showCancelPopup)
      ensures route == old(route) && logoutCalls == old(logoutCalls)
      ensures requests == old(requests) && toasts == old(toasts)
    {
      addressForm := ChangeAddressField(addressForm, field, value, checked);
    }

    /**
     * `handleSaveAddress`: a rejected phone only shows its error; a posted address replaces
     * the user's address list with the server's and closes the form.
     */
    method HandleSaveAddress(reply: SaveReply) returns (posted: Option<AccountAddress>)
      modifies this
      ensures CheckSaveAddress(old(addressForm)).PhoneRejected? ==>
        posted.None? && toasts == old(toasts) + [SaveFailedToast(PhoneRejectedMessage)]
        && userData == old(userData) && isEditing == old(isEditing) && selectedAddress == old(selectedAddress)
        && route == old(route) && logoutCalls == old(logoutCalls) && requests == old(requests)
      ensures CheckSaveAddress(old(addressForm)).PostAddress? ==>
        posted == Some(CheckSaveAddress(old(addressForm)).address)
        && requests == old(requests) + ["/api/address"]
        && (reply.AddressesSaved? ==>
              toasts == old(toasts) + [AddressSavedToast] && !isEditing && selectedAddress.None?
              && (old(userData).Some? ==> userData == Some(old(userData).value.(addresses := Some(reply.addresses))))
              && (old(userData).None? ==> userData.None?)
              && route == old(route) && logoutCalls == old(logoutCalls))
        && (reply.SaveFailed? ==>
              toasts == old(toasts) + [SaveFailedToast(StrOr(reply.serverError, reply.message))]
              && userData == old(userData) && isEditing == old(isEditing) && selectedAddress == old(selectedAddress)
              && (reply.status == Some(401) ==> route == Some(LoginPath) && logoutCalls == old(logoutCalls) + 1)
              && (reply.status != Some(401) ==> route == old(route) && logoutCalls == old(logoutCalls)))
      ensures addressForm == old(addressForm) && orders == old(orders) && loading == old(loading)
      ensures cancelReason == old(cancelReason) && showCancelPopup == old(showCancelPopup)
    {
      match CheckSaveAddress(addressForm) {
        case PhoneRejected =>
          posted := None;
          toasts := toasts + [SaveFailedToast(PhoneRejectedMessage)];
        case PostAddress(address) =>
          posted := Some(address);
          requests := requests + ["/api/address"];
          ApplySaveReply(reply);
      }
    }

    /** The answer to a posted address. */
    method ApplySaveReply(reply: SaveReply)
      modifies this
      ensures reply.AddressesSaved? ==>
        toasts == old(toasts) + [AddressSavedToast] && !isEditing && selectedAddress.None?
        && (old(userData).Some? ==> userData == Some(old(userData).value.(addresses := Some(reply.addresses))))
        && (old(userData).None? ==> userData.None?)
        && route == old(route) && logoutCalls == old(logoutCalls)
      ensures reply.SaveFailed? ==>
        toasts == old(toasts) + [SaveFailedToast(StrOr(reply.serverError, reply.message))]
        && userData == old(userData) && isEditing == old(isEditing) && selectedAddress == old(selectedAddress)
        && (reply.status == Some(401) ==> route == Some(LoginPath) && logoutCalls == old(logoutCalls) + 1)
        && (reply.status != Some(401) ==> route == old(route) && logoutCalls == old(logoutCalls))
      ensures requests == old(requests) && addressForm == old(addressForm) && orders == old(orders)
      ensures loading == old(loading) && cancelReason == old(cancelReason) && showCancelPopup == old(showCancelPopup)
    {
      match reply {
        case AddressesSaved(addresses) =>
          if userData.Some? {
            userData := Some(userData.value.(addresses := Some(addresses)));
          }
          isEditing := false;
          selectedAddress := None;
          toasts := toasts + [AddressSavedToast];
        case SaveFailed(status, serverError, message) =>
          toasts := toasts + [SaveFailedToast(StrOr(serverError, message))];
          if status == Some(401) {
            LogoutToLogin();
          }
      }
    }

    /**
     * The answer to a sent cancel request: on success the popup closes, the reason is
     * cleared and `reload` asks for the account to be fetched again (`LoadAccount`); a 401
     * failure logs out. Loading is over either way.
     */
    method ApplyCancelReply(reply: CancelReply) returns (reload: bool)
      modifies this
      ensures !loading
      ensures reply.CancelOk? ==>
        reload && cancelReason == "" && showCancelPopup.None?
        && toasts == old(toasts) + [StrOr(reply.message, CancelledToast)]
        && route == old(route) && logoutCalls == old(logoutCalls)
      ensures reply.CancelFailed? ==>
        !reload && cancelReason == old(cancelReason) && showCancelPopup == old(showCancelPopup)
        && toasts == old(toasts) + [CancelFailedToast(reply.serverError)]
        && (reply.status == Some(401) ==> route == Some(LoginPath) && logoutCalls == old(logoutCalls) + 1)
        && (reply.status != Some(401) ==> route == old(route) && logoutCalls == old(logoutCalls))
      ensures requests == old(requests) && userData == old(userData) && orders == old(orders)
      ensures addressForm == old(addressForm) && isEditing == old(isEditing)
      ensures selectedAddress == old(selectedAddress)
    {
      reload := false;
      match reply {
        case CancelOk(message) =>
          toasts := toasts + [StrOr(message, CancelledToast)];
          showCancelPopup := None;
          cancelReason := "";
          reload := true;
        case CancelFailed(status, serverError) =>
          toasts := toasts + [CancelFailedToast(serverError)];
          if status == Some(401) {
            LogoutToLogin();
          }
      }
      loading := false;
    }

    /**
     * `handleCancelOrder`: a blank reason only shows a toast. Otherwise the request is sent
     * and its answer applied as `ApplyCancelReply` says.
     */
    method HandleCancelOrder(orderId: string, reply: CancelReply) returns (request: Option<(string, string)>, reload: bool)
      modifies this
      ensures request == CancelRequest(orderId, old(cancelReason))
      ensures request.None? ==>
        !reload && toasts == old(toasts) + [CancelReasonMissingToast]
        && cancelReason == old(cancelReason) && showCancelPopup == old(showCancelPopup)
        && requests == old(requests) && route == old(route) && loading == old(loading)
        && logoutCalls == old(logoutCalls)
      ensures request.Some? ==>
        requests == old(requests) + [request.value.0] && !loading
        && (reply.CancelOk? ==>
              reload && cancelReason == "" && showCancelPopup.None?
              && toasts == old(toasts) + [StrOr(reply.message, CancelledToast)]
              && route == old(route) && logoutCalls == old(logoutCalls))
        && (reply.CancelFailed? ==>
              !reload && cancelReason == old(cancelReason) && showCancelPopup == old(showCancelPopup)
              && toasts == old(toasts) + [CancelFailedToast(reply.serverError)]
              && (reply.status == Some(401) ==> route == Some(LoginPath) && logoutCalls == old(logoutCalls) + 1)
              && (reply.status != Some(401) ==> route == old(route) && logoutCalls == old(logoutCalls)))
      ensures userData == old(userData) && orders == old(orders) && addressForm == old(addressForm)
      ensures isEditing == old(isEditing) && selectedAddress == old(selectedAddress)
    {
      request := CancelRequest(orderId, cancelReason);
      if request.None? {
        reload := false;
        toasts := toasts + [CancelReasonMissingToast];
        return;
      }
      loading := true;
      requests := requests + [request.value.0];
      reload := ApplyCancelReply(reply);
    }

    /** The orders listed on the dashboard. */
    function DashboardOrders(): (r: seq<Orders.Order>)
      reads this
      ensures |r| <= 5
    {
      RecentOrdersCap(orders);
      RecentOrders(orders)
    }
  }
}
