/** The client's route table and the `Logout` route element. */
module App {
  import opened TokenStore

  /** The pages a route can render. */
  datatype Page = AdminPortalPage

  /** The element a path resolves to. `Guarded(p)` is `p` wrapped in the session guard. */
  datatype Element = Guarded(page: Page) | HomePage | LoginPage | LogoutPage | NotFoundPage

  const ADMIN_PATH: string := "/admin"
  const HOME_PATH: string := "/"
  const LOGIN_PATH: string := "/login"
  const LOGOUT_PATH: string := "/logout"

  /** The paths with a route of their own; `*` catches the rest. */
  const ROUTED: set<string> := {ADMIN_PATH, HOME_PATH, LOGIN_PATH, LOGOUT_PATH}

  /**
   * Route resolution: the admin portal only ever appears behind the guard,
   * on `/admin`; every path outside the four routes is the not-found page.
   */
  function Resolve(path: string): (e: Element)
    ensures e == Guarded(AdminPortalPage) <==> path == ADMIN_PATH
    ensures e == NotFoundPage <==> path !in ROUTED
    ensures e == HomePage <==> path == HOME_PATH
    ensures e == LoginPage <==> path == LOGIN_PATH
    ensures e == LogoutPage <==> path == LOGOUT_PATH
  {
    if path == ADMIN_PATH then Guarded(AdminPortalPage)
    else if path == HOME_PATH then HomePage
    else if path == LOGIN_PATH then LoginPage
    else if path == LOGOUT_PATH then LogoutPage
    else NotFoundPage
  }

  /** Storage after logging out: both tokens gone, every other key as it was. */
  function LoggedOut(items: map<string, string>): (m: map<string, string>)
    ensures ACCESS_TOKEN !in m && REFRESH_TOKEN !in m
    ensures forall k :: k != ACCESS_TOKEN && k != REFRESH_TOKEN ==>
      (k in m <==> k in items) && (k in m ==> m[k] == items[k])
  {
    items - {ACCESS_TOKEN, REFRESH_TOKEN}
  }

  /** Logging out twice is logging out once; with no token stored it changes nothing. */
  lemma LogoutIdempotent(items: map<string, string>)
    ensures LoggedOut(LoggedOut(items)) == LoggedOut(items)
    ensures ACCESS_TOKEN !in items && REFRESH_TOKEN !in items ==> LoggedOut(items) == items
  {
  }

  /** `Logout`: remove the access token, then the refresh token, then redirect home. */
  method Logout(store: Storage) returns (redirect: string)
    modifies store
    ensures store.items == LoggedOut(old(store.items))
    ensures redirect == HOME_PATH
  {
    store.RemoveItem(ACCESS_TOKEN);
    store.RemoveItem(REFRESH_TOKEN);
    redirect := HOME_PATH;
  }
}
