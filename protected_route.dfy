/**
 * The session guard around the admin page: on mount it checks the stored
 * access token, silently refreshes it when needed, and then either renders
 * its children or redirects to the login page.
 *
 * `jwtDecode` and the clock are inputs: `exp` is the `exp` claim the decoder
 * yields for the stored access token (`None` when decoding throws) and `nowMs`
 * is `Date.now()`. The refresh request's outcome is the `reply` input.
 */
module Guard {
  import opened Wrappers
  import opened JsStrings
  import opened TokenStore
  import opened Api

  const LOGIN_PATH: string := "/login"

  /** `tokenExpiration < Date.now() / 1000`, with `exp` in seconds and `nowMs` in milliseconds. */
  predicate Expired(exp: int, nowMs: int) {
    exp * 1000 < nowMs
  }

  /** What one run of `auth` (or `refreshToken`) leaves behind. */
  datatype Resolution = Resolution(
    items: map<string, string>,   // storage afterwards
    authorized: bool,             // the value `isAuthorized` is set to
    call: Option<Call>)           // the refresh request sent, if any

  /** `refreshToken`: one refresh request when a refresh token is stored, none otherwise. */
  function RefreshResolution(items: map<string, string>, reply: Settled<string>): Resolution {
    var refresh := if REFRESH_TOKEN in items then Some(items[REFRESH_TOKEN]) else None;
    if !Truthy(refresh) then
      Resolution(items, false, None)
    else
      var afterReply := StorageAfter(items, reply);
      match reply
      case Fulfilled(access) =>
        Resolution(afterReply[ACCESS_TOKEN := access], true, Some(RefreshCall(refresh.value)))
      case Rejected(_) =>
        Resolution(afterReply - {ACCESS_TOKEN} - {REFRESH_TOKEN}, false, Some(RefreshCall(refresh.value)))
  }

  /** `auth`: decide from the stored tokens and the decoded expiry, refreshing when needed. */
  function AuthResolution(items: map<string, string>, exp: Option<int>, nowMs: int, reply: Settled<string>): Resolution {
    var access := if ACCESS_TOKEN in items then Some(items[ACCESS_TOKEN]) else None;
    var refresh := if REFRESH_TOKEN in items then Some(items[REFRESH_TOKEN]) else None;
    if !Truthy(access) then
      if Truthy(refresh) then RefreshResolution(items, reply) else Resolution(items, false, None)
    else if exp.None? || Expired(exp.value, nowMs) then
      RefreshResolution(items, reply)
    else
      Resolution(items, true, None)
  }

  /** Neither token stored: unauthorized at once, no request, storage untouched. */
  lemma NoTokensDenied(items: map<string, string>, exp: Option<int>, nowMs: int, reply: Settled<string>)
    requires ACCESS_TOKEN !in items || items[ACCESS_TOKEN] == ""
    requires REFRESH_TOKEN !in items || items[REFRESH_TOKEN] == ""
    ensures AuthResolution(items, exp, nowMs, reply) == Resolution(items, false, None)
  {
  }

  /** No access token but a refresh token: exactly one refresh request, carrying that token. */
  lemma MissingAccessRefreshesOnce(items: map<string, string>, exp: Option<int>, nowMs: int, reply: Settled<string>)
    requires ACCESS_TOKEN !in items || items[ACCESS_TOKEN] == ""
    requires REFRESH_TOKEN in items && items[REFRESH_TOKEN] != ""
    ensures AuthResolution(items, exp, nowMs, reply).call == Some(RefreshCall(items[REFRESH_TOKEN]))
    ensures AuthResolution(items, exp, nowMs, reply) == RefreshResolution(items, reply)
  {
  }

  /**
   * A decodable token whose expiry is not before now is trusted: authorized,
   * no request, storage untouched. `exp * 1000 == nowMs` still counts as valid.
   */
  lemma UnexpiredTokenTrusted(items: map<string, string>, exp: int, nowMs: int, reply: Settled<string>)
    requires ACCESS_TOKEN in items && items[ACCESS_TOKEN] != ""
    requires nowMs <= exp * 1000
    ensures AuthResolution(items, Some(exp), nowMs, reply) == Resolution(items, true, None)
  {
  }

  /** An expired token, or one that does not decode, goes through `refreshToken`. */
  lemma StaleTokenRefreshes(items: map<string, string>, exp: Option<int>, nowMs: int, reply: Settled<string>)
    requires ACCESS_TOKEN in items && items[ACCESS_TOKEN] != ""
    requires exp.None? || exp.value * 1000 < nowMs
    ensures AuthResolution(items, exp, nowMs, reply) == RefreshResolution(items, reply)
  {
  }

  /** A successful refresh stores the new access token, keeps every other key, and authorizes. */
  lemma RefreshSuccessStoresAccess(items: map<string, string>, access: string)
    requires REFRESH_TOKEN in items && items[REFRESH_TOKEN] != ""
    ensures RefreshResolution(items, Fulfilled(access))
         == Resolution(items[ACCESS_TOKEN := access], true, Some(RefreshCall(items[REFRESH_TOKEN])))
  {
  }

  /** A failed refresh, whatever the failure, clears both tokens and nothing else. */
  lemma RefreshFailureClearsBoth(items: map<string, string>, error: HttpError)
    requires REFRESH_TOKEN in items && items[REFRESH_TOKEN] != ""
    ensures RefreshResolution(items, Rejected(error))
         == Resolution(items - {ACCESS_TOKEN, REFRESH_TOKEN}, false, Some(RefreshCall(items[REFRESH_TOKEN])))
  {
    var after := StorageAfter(items, Settled<string>.Rejected(error));
    assert after - {ACCESS_TOKEN} - {REFRESH_TOKEN} == items - {ACCESS_TOKEN, REFRESH_TOKEN};
  }

  /** Without a stored refresh token `refreshToken` only resolves unauthorized. */
  lemma RefreshWithoutToken(items: map<string, string>, reply: Settled<string>)
    requires REFRESH_TOKEN !in items || items[REFRESH_TOKEN] == ""
    ensures RefreshResolution(items, reply) == Resolution(items, false, None)
  {
  }

  /**
   * Whatever happens, the guard writes only the access token, only ever
   * removes the refresh token, and leaves every other key alone; it ends
   * authorized only with an access token stored, and a failed refresh leaves
   * no token at all.
   */
  lemma AuthTokenDiscipline(items: map<string, string>, exp: Option<int>, nowMs: int, reply: Settled<string>)
    ensures var r := AuthResolution(items, exp, nowMs, reply);
      (forall k :: k != ACCESS_TOKEN && k != REFRESH_TOKEN ==>
         (k in r.items <==> k in items) && (k in r.items ==> r.items[k] == items[k])) &&
      (REFRESH_TOKEN in r.items ==> REFRESH_TOKEN in items && r.items[REFRESH_TOKEN] == items[REFRESH_TOKEN]) &&
      (r.authorized ==> ACCESS_TOKEN in r.items) &&
      (r.call.Some? && !r.authorized ==> ACCESS_TOKEN !in r.items && REFRESH_TOKEN !in r.items)
  {
  }

  /** What the guard renders. */
  datatype View = Verifying | Children | RedirectTo(path: string)

  /** `ProtectedRoute`: a tri-state `isAuthorized` (`None` is pending) over the token store. */
  class ProtectedRoute {
    const store: Storage
    var isAuthorized: Option<bool>

    /** Mounting starts pending. */
    constructor (store: Storage)
      ensures this.store == store && isAuthorized == None
    {
      this.store := store;
      isAuthorized := None;
    }

    /** Pending shows the loading view; once resolved, children or a redirect to the login page. */
    function Render(): (v: View)
      reads this
      ensures v == Verifying <==> isAuthorized == None
      ensures v == Children <==> isAuthorized == Some(true)
      ensures v == RedirectTo(LOGIN_PATH) <==> isAuthorized == Some(false)
    {
      match isAuthorized
      case None => Verifying
      case Some(ok) => if ok then Children else RedirectTo(LOGIN_PATH)
    }

    /** `refreshToken`; the refresh request goes through the shared client's interceptors. */
    method RefreshToken(reply: Settled<string>) returns (call: Option<Call>)
      modifies this, store
      ensures Resolution(store.items, isAuthorized == Some(true), call)
           == RefreshResolution(old(store.items), reply)
      ensures isAuthorized.Some?
    {
      var refreshValue := store.GetItem(REFRESH_TOKEN);
      if !(refreshValue.Some? && refreshValue.value != "") {
        isAuthorized := Some(false);
        return None;
      }
      call := Some(RefreshCall(refreshValue.value));
      var response := InterceptResponse(store, reply);
      match response
      case Fulfilled(access) =>
        store.SetItem(ACCESS_TOKEN, access);
        isAuthorized := Some(true);
      case Rejected(_) =>
        store.RemoveItem(ACCESS_TOKEN);
        store.RemoveItem(REFRESH_TOKEN);
        assert store.items == old(store.items) - {ACCESS_TOKEN} - {REFRESH_TOKEN}
          by { assert StorageAfter(old(store.items), reply) - {ACCESS_TOKEN} == old(store.items) - {ACCESS_TOKEN}; }
        isAuthorized := Some(false);
    }

    /** `auth`, run once on mount; it always leaves the pending state. */
    method Auth(exp: Option<int>, nowMs: int, reply: Settled<string>) returns (call: Option<Call>)
      modifies this, store
      ensures Resolution(store.items, isAuthorized == Some(true), call)
           == AuthResolution(old(store.items), exp, nowMs, reply)
      ensures isAuthorized.Some?
    {
      var token := store.GetItem(ACCESS_TOKEN);
      if !(token.Some? && token.value != "") {
        var refreshValue := store.GetItem(REFRESH_TOKEN);
        if refreshValue.Some? && refreshValue.value != "" {
          call := RefreshToken(reply);
        } else {
          isAuthorized := Some(false);
          call := None;
        }
        return;
      }
      match exp
      case None =>
        call := RefreshToken(reply);
      case Some(tokenExpiration) =>
        if tokenExpiration * 1000 < nowMs {
          call := RefreshToken(reply);
        } else {
          isAuthorized := Some(true);
          call := None;
        }
    }
  }
}
