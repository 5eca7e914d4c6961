/**
 * The token lifecycle of `AuthProvider`: the `tokens` and `isLoading` state, the persisted
 * `localStorage` entry `tokens`, and the logout requests sent to the server.
 *
 * JWT decoding is an uninterpreted function `decode` from the access token to either a
 * failure or the claim `exp` (seconds, possibly absent); the clock is a parameter `now`
 * in milliseconds. Each transition is a pure function on `AuthState`; the class
 * `AuthProvider` performs the same steps on its fields.
 */
module AuthContext {
  import opened Wrappers

  datatype Tokens = Tokens(accessToken: string)

  /**
   * What `localStorage.getItem('tokens')` holds: either JSON text (an object whose
   * `accessToken` may be missing or null) or text that is not JSON at all.
   */
  datatype StoredValue = Json(accessToken: Option<string>) | NotJson(raw: string)

  /** The outcome of `jwtDecode`: it throws, or yields the (optional) `exp` claim. */
  datatype Decoded = DecodeFailed | Claims(exp: Option<int>)

  datatype AuthState = AuthState(
    tokens: Option<Tokens>,
    storage: Option<StoredValue>,
    isLoading: bool,
    logoutRequests: seq<string>)

  /** `tokens?.accessToken` is truthy. */
  predicate HoldsToken(t: Option<Tokens>)
  {
    t.Some? && t.value.accessToken != ""
  }

  /**
   * `decoded.exp * 1000 < Date.now()`. A missing `exp` gives `NaN`, and a comparison with
   * `NaN` is false, so such a token never counts as expired.
   */
  predicate Expired(d: Decoded, now: int)
    requires d.Claims?
  {
    d.exp.Some? && d.exp.value * 1000 < now
  }

  /** `if (stored)`: `null` and the empty string are skipped. */
  predicate StoredIsTruthy(v: Option<StoredValue>)
  {
    v.Some? && v.value != NotJson("")
  }

  /** The provider as first rendered, before the mount effect runs. */
  function Initial(storage: Option<StoredValue>): AuthState
  {
    AuthState(None, storage, true, [])
  }

  /** `login(accessToken)`: set the tokens and persist the same object. */
  function LoginStep(s: AuthState, accessToken: string): AuthState
  {
    s.(tokens := Some(Tokens(accessToken)), storage := Some(Json(Some(accessToken))))
  }

  /**
   * `logout()` as run by a closure that sees `seen` as the current tokens: a request is made
   * only when `seen` holds a token; whether it succeeds or throws, the `finally` block clears
   * the tokens and the stored entry, so the request's outcome is not a parameter.
   */
  function LogoutStep(s: AuthState, seen: Option<Tokens>): AuthState
  {
    var requests := if HoldsToken(seen) then s.logoutRequests + [seen.value.accessToken] else s.logoutRequests;
    s.(tokens := None, storage := None, logoutRequests := requests)
  }

  /** The outcome of the mount effect: it finishes, or `JSON.parse` throws outside the `try`. */
  datatype Rehydration = Finished(state: AuthState) | ParseThrew

  /**
   * The mount effect. It is a closure over the first render, where `tokens` is still null,
   * so the `logout()` it calls never contacts the server.
   */
  function RehydrateStep(s: AuthState, decode: string -> Decoded, now: int): Rehydration
  {
    if !StoredIsTruthy(s.storage) then Finished(s.(isLoading := false))
    else
      match s.storage.value
      case NotJson(_) => ParseThrew
      case Json(token) =>
        var next :=
          if token.None? then LogoutStep(s, None)
          else
            var d := decode(token.value);
            if d.DecodeFailed? || Expired(d, now) then LogoutStep(s, None)
            else s.(tokens := Some(Tokens(token.value)));
        Finished(next.(isLoading := false))
  }

  /**
   * The periodic-check effect: it does nothing unless a token is held and loading is over;
   * otherwise it logs out (with the current tokens) when decoding fails or the token expired.
   */
  function CheckTokenExpirationStep(s: AuthState, decode: string -> Decoded, now: int): AuthState
  {
    if !HoldsToken(s.tokens) || s.isLoading then s
    else
      var d := decode(s.tokens.value.accessToken);
      if d.DecodeFailed? || Expired(d, now) then LogoutStep(s, s.tokens) else s
  }

  // ---------------------------------------------------------------------------
  // properties of the transitions

  /** Login sets the tokens and persists exactly the same value. */
  lemma LoginPersistsSameValue(s: AuthState, t: string)
    ensures var r := LoginStep(s, t);
      r.tokens == Some(Tokens(t)) && r.storage == Some(Json(Some(r.tokens.value.accessToken)))
      && r.isLoading == s.isLoading && r.logoutRequests == s.logoutRequests
  {
  }

  /**
   * Logout always ends with no tokens and no stored entry, and sends a request exactly when the
   * closure holds a token.
   */
  lemma LogoutAlwaysClears(s: AuthState, seen: Option<Tokens>)
    ensures var r := LogoutStep(s, seen);
      r.tokens.None? && r.storage.None? && r.isLoading == s.isLoading
      && (HoldsToken(seen) ==> r.logoutRequests == s.logoutRequests + [seen.value.accessToken])
      && (!HoldsToken(seen) ==> r.logoutRequests == s.logoutRequests)
  {
  }

  /**
   * Rehydration from a stored access token: an expired token (`exp * 1000 < now`) or one
   * that cannot be decoded is cleared from state and storage, any other is restored; in
   * every case loading ends and no logout request is sent.
   */
  lemma RehydrateStoredToken(s: AuthState, t: string, decode: string -> Decoded, now: int)
    requires s.storage == Some(Json(Some(t)))
    ensures RehydrateStep(s, decode, now).Finished?
    ensures var r := RehydrateStep(s, decode, now).state;
      !r.isLoading && r.logoutRequests == s.logoutRequests
      && (decode(t).DecodeFailed? ==> r.tokens.None? && r.storage.None?)
      && (decode(t).Claims? && Expired(decode(t), now) ==> r.tokens.None? && r.storage.None?)
      && (decode(t).Claims? && !Expired(decode(t), now) ==> r.tokens == Some(Tokens(t)) && r.storage == s.storage)
  {
  }

  /** A token whose expiry is exactly `now` is still valid on rehydration. */
  lemma ExpiryAtNowIsValid(s: AuthState, t: string, decode: string -> Decoded, exp: int)
    requires s.storage == Some(Json(Some(t))) && decode(t) == Claims(Some(exp))
    ensures RehydrateStep(s, decode, exp * 1000) == Finished(s.(tokens := Some(Tokens(t)), isLoading := false))
  {
  }

  /**
   * Loading ends after rehydration whether or not anything was stored, unless the stored text
   * is not JSON: then `JSON.parse` throws outside the `try` and nothing else happens.
   */
  lemma RehydrateEndsLoading(s: AuthState, decode: string -> Decoded, now: int)
    ensures RehydrateStep(s, decode, now).ParseThrew? <==>
      s.storage.Some? && s.storage.value.NotJson? && s.storage.value.raw != ""
    ensures RehydrateStep(s, decode, now).Finished? ==> !RehydrateStep(s, decode, now).state.isLoading
    ensures !StoredIsTruthy(s.storage) ==> RehydrateStep(s, decode, now) == Finished(s.(isLoading := false))
  {
  }

  /** A stored object without an access token is treated like an undecodable one. */
  lemma RehydrateMissingToken(s: AuthState, decode: string -> Decoded, now: int)
    requires s.storage == Some(Json(None))
    ensures RehydrateStep(s, decode, now) == Finished(s.(tokens := None, storage := None, isLoading := false))
  {
  }

  /**
   * The periodic check changes nothing while loading or without a token; otherwise it logs
   * out, sending the held token to the server, exactly when the token is expired or undecodable.
   */
  lemma CheckTokenExpirationOutcomes(s: AuthState, decode: string -> Decoded, now: int)
    ensures var r := CheckTokenExpirationStep(s, decode, now);
      (!HoldsToken(s.tokens) || s.isLoading ==> r == s)
      && (HoldsToken(s.tokens) && !s.isLoading ==>
            var d := decode(s.tokens.value.accessToken);
            (d.DecodeFailed? || Expired(d, now) <==> r.tokens.None?)
            && (r.tokens.None? ==> r.storage.None? && r.logoutRequests == s.logoutRequests + [s.tokens.value.accessToken])
            && (r.tokens.Some? ==> r == s))
  {
  }

  /**
   * A session that logs in with a token that is not expired survives the periodic check,
   * once loading is over.
   */
  lemma FreshLoginSurvivesCheck(s: AuthState, t: string, decode: string -> Decoded, now: int)
    requires t != "" && !s.isLoading
    requires decode(t).Claims? && !Expired(decode(t), now)
    ensures CheckTokenExpirationStep(LoginStep(s, t), decode, now) == LoginStep(s, t)
  {
  }

  // ---------------------------------------------------------------------------
  // the provider's fields

  class AuthProvider {
    var tokens: Option<Tokens>
    var storage: Option<StoredValue>
    var isLoading: bool
    var logoutRequests: seq<string>

    function State(): AuthState
      reads this
    {
      AuthState(tokens, storage, isLoading, logoutRequests)
    }

    /** First render: no tokens, loading, and whatever the browser already stores. */
    constructor (stored: Option<StoredValue>)
      ensures State() == Initial(stored)
      ensures tokens.None? && isLoading
    {
      tokens := None;
      storage := stored;
      isLoading := true;
      logoutRequests := [];
    }

    method Login(accessToken: string)
      modifies this
      ensures State() == LoginStep(old(State()), accessToken)
      ensures tokens == Some(Tokens(accessToken)) && storage == Some(Json(Some(accessToken)))
    {
      var newTokens := Tokens(accessToken);
      tokens := Some(newTokens);
      storage := Some(Json(Some(newTokens.accessToken)));
    }

    /** `logout()` called through the context, which sees the current tokens. */
    method Logout()
      modifies this
      ensures State() == LogoutStep(old(State()), old(tokens))
      ensures tokens.None? && storage.None?
    {
      if HoldsToken(tokens) {
        // the request is sent; a failure is caught and only logged
        logoutRequests := logoutRequests + [tokens.value.accessToken];
      }
      tokens := None;
      storage := None;
    }

    /** The mount effect; `handled` is false when `JSON.parse` threw and the effect aborted. */
    method Rehydrate(decode: string -> Decoded, now: int) returns (handled: bool)
      modifies this
      ensures handled <==> RehydrateStep(old(State()), decode, now).Finished?
      ensures handled ==> State() == RehydrateStep(old(State()), decode, now).state
      ensures !handled ==> State() == old(State())
    {
      var stored := storage;
      if StoredIsTruthy(stored) {
        match stored.value
        case NotJson(_) =>
          return false;
        case Json(token) =>
          if token.None? {
            tokens := None;
            storage := None;
          } else {
            var d := decode(token.value);
            if d.DecodeFailed? || Expired(d, now) {
              tokens := None;
              storage := None;
            } else {
              tokens := Some(Tokens(token.value));
            }
          }
      }
      isLoading := false;
      return true;
    }

    method CheckTokenExpiration(decode: string -> Decoded, now: int)
      modifies this
      ensures State() == CheckTokenExpirationStep(old(State()), decode, now)
    {
      if !HoldsToken(tokens) || isLoading {
        return;
      }
      var d := decode(tokens.value.accessToken);
      if d.DecodeFailed? || Expired(d, now) {
        Logout();
      }
    }
  }
}
