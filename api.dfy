/**
 * The HTTP client of the portfolio front end: the shared client's request and
 * response interceptors, and the request each endpoint helper sends.
 * The network itself is not modelled: a call's outcome is given as a `Settled` value.
 */
module Api {
  import opened Wrappers
  import opened JsStrings
  import opened TokenStore

  /** An experience entry as the REST API exchanges it (timestamps left out). */
  datatype ExperienceData = ExperienceData(
    id: Option<string>,
    title: string,
    company: string,
    duration: string,
    description: seq<string>,
    technologies: seq<string>,
    image: string)

  /** A project entry as the REST API exchanges it (timestamps left out). */
  datatype ProjectData = ProjectData(
    id: Option<string>,
    title: string,
    description: string,
    image: string,
    technologies: seq<string>,
    category: seq<string>)

  /** A rejected request: `error.response?.status`, `None` when no response arrived. */
  datatype HttpError = HttpError(status: Option<int>)

  /** How a request's promise settles, as seen after the interceptors. */
  datatype Settled<+T> = Fulfilled(value: T) | Rejected(error: HttpError)

  const AUTHORIZATION: string := "Authorization"
  const BEARER: string := "Bearer "
  const UNAUTHORIZED: int := 401

  // ---------------------------------------------------------------------------
  // Request interceptor

  /** The headers a request leaves with, given the stored access token. */
  function WithBearer(headers: map<string, string>, token: Option<string>): (h: map<string, string>)
    ensures Truthy(token) ==> AUTHORIZATION in h && h[AUTHORIZATION] == BEARER + token.value
    ensures !Truthy(token) ==> h == headers
    ensures h.Keys == headers.Keys + (if Truthy(token) then {AUTHORIZATION} else {})
    ensures forall k :: k in headers && k != AUTHORIZATION ==> h[k] == headers[k]
  {
    if Truthy(token) then headers[AUTHORIZATION := BEARER + token.value] else headers
  }

  /** What a server reads back from an `Authorization: Bearer <token>` header. */
  function BearerToken(headers: map<string, string>): Option<string> {
    if AUTHORIZATION in headers && |BEARER| <= |headers[AUTHORIZATION]|
       && headers[AUTHORIZATION][..|BEARER|] == BEARER
    then Some(headers[AUTHORIZATION][|BEARER|..])
    else None
  }

  /**
   * The header carries exactly the stored token whenever one is usable, and
   * a request without a usable token carries whatever credential it had before.
   */
  lemma {:induction false} BearerRoundTrip(headers: map<string, string>, token: Option<string>)
    ensures Truthy(token) ==> BearerToken(WithBearer(headers, token)) == token
    ensures !Truthy(token) ==> BearerToken(WithBearer(headers, token)) == BearerToken(headers)
  {
    if Truthy(token) {
      var v := BEARER + token.value;
      assert v[..|BEARER|] == BEARER;
      assert v[|BEARER|..] == token.value;
    }
  }

  /** A request's config object, whose headers the interceptor mutates in place. */
  class RequestConfig {
    var url: string
    var headers: map<string, string>

    constructor (url: string, headers: map<string, string>)
      ensures this.url == url && this.headers == headers
    {
      this.url := url;
      this.headers := headers;
    }
  }

  /**
   * The request interceptor: attach `Bearer <token>` when the stored access
   * token is truthy, then hand the same config on. Storage is only read.
   */
  method InterceptRequest(store: Storage, config: RequestConfig) returns (sent: RequestConfig)
    modifies config
    ensures sent == config
    ensures config.url == old(config.url)
    ensures config.headers == WithBearer(old(config.headers), store.GetItem(ACCESS_TOKEN))
  {
    var token := store.GetItem(ACCESS_TOKEN);
    if token.Some? && token.value != "" {
      config.headers := config.headers[AUTHORIZATION := BEARER + token.value];
    }
    sent := config;
  }

  // ---------------------------------------------------------------------------
  // Response interceptor

  /** A rejection carrying a 401 response. */
  predicate IsUnauthorized<T>(reply: Settled<T>) {
    reply.Rejected? && reply.error.status == Some(UNAUTHORIZED)
  }

  /** Storage after the response interceptor has seen `reply`. */
  function StorageAfter<T>(items: map<string, string>, reply: Settled<T>): (m: map<string, string>)
    ensures IsUnauthorized(reply) ==> ACCESS_TOKEN !in m
    ensures !IsUnauthorized(reply) ==> m == items
    ensures forall k :: k != ACCESS_TOKEN ==> (k in m <==> k in items)
    ensures forall k :: k in m ==> k in items && m[k] == items[k]
  {
    if IsUnauthorized(reply) then items - {ACCESS_TOKEN} else items
  }

  /**
   * The response interceptor: successes pass through, every failure is
   * rejected again unchanged (no retry), and a 401 drops the access token.
   */
  method InterceptResponse<T>(store: Storage, reply: Settled<T>) returns (result: Settled<T>)
    modifies store
    ensures result == reply
    ensures store.items == StorageAfter(old(store.items), reply)
  {
    if reply.Rejected? && reply.error.status == Some(UNAUTHORIZED) {
      store.RemoveItem(ACCESS_TOKEN);
    }
    result := reply;
  }

  // ---------------------------------------------------------------------------
  // Endpoint helpers

  datatype Verb = Get | Post | Put | Delete

  datatype Body =
    | NoBody
    | Credentials(username: string, password: string)
    | RefreshBody(refresh: string)
    | ExperienceBody(experience: ExperienceData)
    | ProjectBody(project: ProjectData)

  /** One request: verb, path relative to the API base URL, JSON body. */
  datatype Call = Call(verb: Verb, path: string, body: Body)

  /** The two managed collections. */
  datatype Kind = Experiences | Projects

  function Collection(kind: Kind): string {
    match kind
    case Experiences => "experiences"
    case Projects => "projects"
  }

  function ListPath(kind: Kind): string {
    "/api/" + Collection(kind) + "/"
  }

  function ItemPath(kind: Kind, id: string): string {
    ListPath(kind) + id + "/"
  }

  function CreatePath(kind: Kind): string {
    ListPath(kind) + "create/"
  }

  function UpdatePath(kind: Kind, id: string): string {
    ListPath(kind) + "update/" + id + "/"
  }

  function DeletePath(kind: Kind, id: string): string {
    ListPath(kind) + "delete/" + id + "/"
  }

  // authAPI
  function LoginCall(username: string, password: string): Call {
    Call(Post, "/api/token/", Credentials(username, password))
  }

  function RefreshCall(refreshToken: string): Call {
    Call(Post, "/api/token/refresh/", RefreshBody(refreshToken))
  }

  function RegisterCall(username: string, password: string): Call {
    Call(Post, "/api/register/", Credentials(username, password))
  }

  // experienceAPI and projectAPI
  function GetAllCall(kind: Kind): Call {
    Call(Get, ListPath(kind), NoBody)
  }

  function GetByIdCall(kind: Kind, id: string): Call {
    Call(Get, ItemPath(kind, id), NoBody)
  }

  function DeleteCall(kind: Kind, id: string): Call {
    Call(Delete, DeletePath(kind, id), NoBody)
  }

  function ExperienceCreateCall(data: ExperienceData): Call {
    Call(Post, CreatePath(Experiences), ExperienceBody(data))
  }

  function ExperienceUpdateCall(id: string, data: ExperienceData): Call {
    Call(Put, UpdatePath(Experiences, id), ExperienceBody(data))
  }

  function ProjectCreateCall(data: ProjectData): Call {
    Call(Post, CreatePath(Projects), ProjectBody(data))
  }

  function ProjectUpdateCall(id: string, data: ProjectData): Call {
    Call(Put, UpdatePath(Projects, id), ProjectBody(data))
  }

  /** `p + a + s == p + b + s` only for `a == b`. */
  lemma CancelAround(p: string, a: string, b: string, s: string)
    requires p + a + s == p + b + s
    ensures a == b
  {
    assert |a| == |b|;
    assert a == (p + a + s)[|p|..|p| + |a|];
    assert b == (p + b + s)[|p|..|p| + |b|];
  }

  /** Paths of the two collections already differ in their sixth character. */
  lemma {:induction false} ListPathsDiffer(k1: Kind, k2: Kind, x: string, y: string)
    requires k1 != k2
    ensures ListPath(k1) + x != ListPath(k2) + y
  {
    var u, v := ListPath(k1) + x, ListPath(k2) + y;
    assert u[5] == Collection(k1)[0];
    assert v[5] == Collection(k2)[0];
  }

  /** Paths built as collection path + middle + id + "/" determine collection and id. */
  lemma {:induction false} EntryPathInjective(k1: Kind, k2: Kind, middle: string, a: string, b: string)
    requires ListPath(k1) + middle + a + "/" == ListPath(k2) + middle + b + "/"
    ensures k1 == k2 && a == b
  {
    if k1 != k2 {
      assert ListPath(k1) + middle + a + "/" == ListPath(k1) + (middle + a + "/");
      assert ListPath(k2) + middle + b + "/" == ListPath(k2) + (middle + b + "/");
      ListPathsDiffer(k1, k2, middle + a + "/", middle + b + "/");
    } else {
      assert ListPath(k1) + middle + a + "/" == (ListPath(k1) + middle) + a + "/";
      assert ListPath(k2) + middle + b + "/" == (ListPath(k1) + middle) + b + "/";
      CancelAround(ListPath(k1) + middle, a, b, "/");
    }
  }

  /** Distinct entries, or entries of distinct collections, have distinct item, update and delete paths. */
  lemma PathsIdentifyEntry(k1: Kind, a: string, k2: Kind, b: string)
    ensures ItemPath(k1, a) == ItemPath(k2, b) ==> k1 == k2 && a == b
    ensures UpdatePath(k1, a) == UpdatePath(k2, b) ==> k1 == k2 && a == b
    ensures DeletePath(k1, a) == DeletePath(k2, b) ==> k1 == k2 && a == b
  {
    if ItemPath(k1, a) == ItemPath(k2, b) {
      assert ItemPath(k1, a) == ListPath(k1) + "" + a + "/";
      assert ItemPath(k2, b) == ListPath(k2) + "" + b + "/";
      EntryPathInjective(k1, k2, "", a, b);
    }
    if UpdatePath(k1, a) == UpdatePath(k2, b) {
      EntryPathInjective(k1, k2, "update/", a, b);
    }
    if DeletePath(k1, a) == DeletePath(k2, b) {
      EntryPathInjective(k1, k2, "delete/", a, b);
    }
  }

  /** An update request never goes to a delete path, whatever the two ids. */
  lemma {:induction false} UpdateIsNotDelete(k1: Kind, a: string, k2: Kind, b: string)
    ensures UpdatePath(k1, a) != DeletePath(k2, b)
  {
    if k1 != k2 {
      assert UpdatePath(k1, a) == ListPath(k1) + ("update/" + a + "/");
      assert DeletePath(k2, b) == ListPath(k2) + ("delete/" + b + "/");
      ListPathsDiffer(k1, k2, "update/" + a + "/", "delete/" + b + "/");
    } else {
      var n := |ListPath(k1)|;
      assert UpdatePath(k1, a)[n] == 'u';
      assert DeletePath(k2, b)[n] == 'd';
    }
  }
}
