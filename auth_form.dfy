/**
 * The login/register form: it posts the credentials to its route and, after a
 * successful login, stores both tokens and navigates on.
 */
module AuthForm {
  import opened Wrappers
  import opened TokenStore
  import opened Api
  import App

  datatype FormMethod = LoginMethod | RegisterMethod

  /** The token pair a successful login returns (`res.data.access`, `res.data.refresh`). */
  datatype TokenPair = TokenPair(access: string, refresh: string)

  /** Heading and button label. */
  function Name(formMethod: FormMethod): (caption: string)
    ensures caption == "Login" <==> formMethod == LoginMethod
    ensures formMethod == RegisterMethod ==> caption == "Register"
  {
    if formMethod == LoginMethod then "Login" else "Register"
  }

  /** Where a successful submit navigates, as the form is written. */
  function NextPath(formMethod: FormMethod): string {
    match formMethod
    case LoginMethod => "/admin-portal"
    case RegisterMethod => App.LOGIN_PATH
  }

  /**
   * The path the form navigates to after a login is not one of the routes:
   * a successful login lands on the not-found page.
   */
  lemma LoginLandsOnNotFound()
    ensures App.Resolve(NextPath(LoginMethod)) == App.NotFoundPage
  {
  }

  /** Where a successful submit evidently should go: the guarded admin route after a login. */
  function IntendedNextPath(formMethod: FormMethod): string {
    match formMethod
    case LoginMethod => App.ADMIN_PATH
    case RegisterMethod => App.LOGIN_PATH
  }

  /** With the intended target a login reaches the guarded admin portal and a registration the login page. */
  lemma IntendedLoginReachesAdmin()
    ensures App.Resolve(IntendedNextPath(LoginMethod)) == App.Guarded(App.AdminPortalPage)
    ensures App.Resolve(IntendedNextPath(RegisterMethod)) == App.LoginPage
    ensures IntendedNextPath(RegisterMethod) == NextPath(RegisterMethod)
  {
  }

  /** Storage after a settled submit: a login writes both tokens; a failure passes through the 401 rule. */
  function StorageAfterSubmit(items: map<string, string>, formMethod: FormMethod, reply: Settled<TokenPair>): map<string, string> {
    match reply
    case Fulfilled(tokens) =>
      if formMethod == LoginMethod then items[ACCESS_TOKEN := tokens.access][REFRESH_TOKEN := tokens.refresh] else items
    case Rejected(_) => StorageAfter(items, reply)
  }

  /**
   * Only a successful login writes tokens, and it writes exactly the two it was
   * given; a registration never touches storage; a failure can only drop the
   * access token (on 401) and never writes one.
   */
  lemma SubmitStorageEffect(items: map<string, string>, formMethod: FormMethod, reply: Settled<TokenPair>)
    ensures var m := StorageAfterSubmit(items, formMethod, reply);
      (reply.Fulfilled? && formMethod == LoginMethod ==>
         ACCESS_TOKEN in m && m[ACCESS_TOKEN] == reply.value.access &&
         REFRESH_TOKEN in m && m[REFRESH_TOKEN] == reply.value.refresh) &&
      (formMethod == RegisterMethod && reply.Fulfilled? ==> m == items) &&
      (reply.Rejected? ==> forall k :: k in m ==> k in items && m[k] == items[k]) &&
      (forall k :: k != ACCESS_TOKEN && k != REFRESH_TOKEN ==>
         (k in m <==> k in items) && (k in m ==> m[k] == items[k]))
  {
  }

  /** `Form`: username, password and the `loading` flag, over the token store. */
  class Form {
    const store: Storage
    const route: string
    const formMethod: FormMethod
    var username: string
    var password: string
    var loading: bool

    constructor (store: Storage, route: string, formMethod: FormMethod)
      ensures this.store == store && this.route == route && this.formMethod == formMethod
      ensures username == "" && password == "" && !loading
    {
      this.store := store;
      this.route := route;
      this.formMethod := formMethod;
      username, password := "", "";
      loading := false;
    }

    /** The username input's `onChange`. */
    method SetUsername(value: string)
      modifies this
      ensures username == value && password == old(password) && loading == old(loading)
    {
      username := value;
    }

    /** The password input's `onChange`. */
    method SetPassword(value: string)
      modifies this
      ensures password == value && username == old(username) && loading == old(loading)
    {
      password := value;
    }

    /** First half of `handleSubmit`: raise `loading` and post the credentials to the route. */
    method Submit() returns (call: Call)
      modifies this
      ensures loading
      ensures call == Call(Post, route, Credentials(username, password))
      ensures username == old(username) && password == old(password)
    {
      loading := true;
      call := Call(Post, route, Credentials(username, password));
    }

    /**
     * Second half of `handleSubmit`, once the post has settled: store the tokens
     * after a login, navigate after any success, nothing after a failure, and
     * lower `loading` in every case. A login navigates to the path the form
     * names, which no route matches (`LoginLandsOnNotFound`).
     */
    method Settle(reply: Settled<TokenPair>) returns (navigateTo: Option<string>)
      modifies this, store
      ensures store.items == StorageAfterSubmit(old(store.items), formMethod, reply)
      ensures navigateTo == if reply.Fulfilled? then Some(NextPath(formMethod)) else None
      ensures !loading
      ensures username == old(username) && password == old(password)
    {
      var res := InterceptResponse(store, reply);
      match res {
        case Fulfilled(data) =>
          if formMethod == LoginMethod {
            store.SetItem(ACCESS_TOKEN, data.access);
            store.SetItem(REFRESH_TOKEN, data.refresh);
            navigateTo := Some(NextPath(LoginMethod));
          } else {
            navigateTo := Some(App.LOGIN_PATH);
          }
        case Rejected(_) =>
          navigateTo := None;
      }
      loading := false;
    }
  }
}
