/**
 * The shared HTTP client (`apiClient`): the request configuration, the bearer-token request
 * interceptor, the 401 response interceptor and the error text every hook derives from a failure.
 * The network itself is an `Outcome` the caller supplies.
 */
module Transport {
  import opened Wrappers
  import opened Json
  import Storage

  /**
   * The HTTP method as the caller wrote it. The hooks compare it as a string, so `"get"` is a
   * different method from `"GET"` here even though the transport would accept both.
   */
  type Method = string

  const GET: Method := "GET"
  const POST: Method := "POST"

  /** A file handle as far as the client is concerned. */
  datatype File = File(name: string, size: nat)

  datatype FormValue = FileValue(file: File) | TextValue(text: string)

  /** A multipart body: its fields in the order they were appended. */
  type FormData = seq<(string, FormValue)>

  /** The `data` of a request: none, a JSON body, or a multipart form. */
  datatype Payload = NoData | JsonData(json: Json) | Multipart(form: FormData)

  /** What reaches the network for one request. */
  datatype RequestConfig = RequestConfig(
    verb: Method,
    url: string,
    data: Payload,
    headers: map<string, string>,
    params: map<string, Json>)

  /** Caller-supplied request options; each present key replaces the one before it in a spread. */
  datatype Overrides = Overrides(
    verb: Option<Method>,
    url: Option<string>,
    data: Option<Payload>,
    headers: Option<map<string, string>>,
    params: Option<map<string, Json>>)

  const NoOverrides: Overrides := Overrides(None, None, None, None, None)

  /** `{...c, ...o}`: a key present in `o` replaces the whole value of that key in `c`. */
  function Overlay(c: RequestConfig, o: Overrides): RequestConfig {
    RequestConfig(
      o.verb.GetOr(c.verb),
      o.url.GetOr(c.url),
      o.data.GetOr(c.data),
      o.headers.GetOr(c.headers),
      o.params.GetOr(c.params))
  }

  /** `{...a, ...b}` of two option objects. */
  function Then(a: Overrides, b: Overrides): Overrides {
    Overrides(
      if b.verb.Some? then b.verb else a.verb,
      if b.url.Some? then b.url else a.url,
      if b.data.Some? then b.data else a.data,
      if b.headers.Some? then b.headers else a.headers,
      if b.params.Some? then b.params else a.params)
  }

  /** Spreading two option objects one after the other is spreading their merge. */
  lemma OverlayThen(c: RequestConfig, a: Overrides, b: Overrides)
    ensures Overlay(Overlay(c, a), b) == Overlay(c, Then(a, b))
    ensures Overlay(c, NoOverrides) == c
  {
  }

  /** A rejected request: the HTTP status and body when a response arrived, and the error text. */
  datatype HttpError = HttpError(status: Option<int>, body: Option<Json>, message: string)

  /** What the network does with one request. */
  type Outcome = Result<Json, HttpError>

  /** The truthy `error` field of the response body, if there is one. */
  function ServerError(e: HttpError): Option<Json> {
    if e.body.Some? then
      var f := Field(e.body.value, "error");
      if f.Some? && Truthy(f.value) then f else None
    else None
  }

  /** `err.response?.data?.error || err.message`: the server's text is preferred to the transport's. */
  function ErrorMessage(e: HttpError): (r: Json)
    ensures (e.body.Some? && e.body.value.Obj? && "error" in e.body.value.fields
             && Truthy(e.body.value.fields["error"])) ==> r == e.body.value.fields["error"]
    ensures r == Str(e.message) || (Truthy(r) && e.body.Some? && Field(e.body.value, "error") == Some(r))
    ensures ServerError(e).None? ==> r == Str(e.message)
  {
    Or(if e.body.Some? then Field(e.body.value, "error") else None, Str(e.message))
  }

  const TokenKey: string := "authToken"
  const AuthorizationHeader: string := "Authorization"
  const LoginPath: string := "/login"

  /** `localStorage.getItem('authToken')` when the result is truthy. */
  function AuthToken(items: map<string, string>): Option<string> {
    if TokenKey in items && items[TokenKey] != "" then Some(items[TokenKey]) else None
  }

  /**
   * The request interceptor: a truthy stored token adds `Authorization: Bearer <token>`;
   * nothing else in the request ever changes.
   */
  function Authorize(c: RequestConfig, items: map<string, string>): (r: RequestConfig)
    ensures TokenKey in items && items[TokenKey] != "" ==>
              r.headers == c.headers[AuthorizationHeader := "Bearer " + items[TokenKey]]
    ensures !(TokenKey in items && items[TokenKey] != "") ==> r == c
    ensures r.(headers := c.headers) == c
  {
    match AuthToken(items)
    case Some(token) => c.(headers := c.headers[AuthorizationHeader := "Bearer " + token])
    case None => c
  }

  /** `error.response?.status === 401`. */
  predicate Unauthorized(outcome: Outcome) {
    outcome.Failure? && outcome.error.status == Some(401)
  }

  /** After the 401 interceptor removed the token, a request that had no credential still has none. */
  lemma NoCredentialAfterUnauthorized(c: RequestConfig, items: map<string, string>)
    requires AuthorizationHeader !in c.headers
    ensures AuthorizationHeader !in Authorize(c, items - {TokenKey}).headers
    ensures Authorize(c, items - {TokenKey}) == c
  {
  }

  /** The shared client; `sent` records every request that went out, `redirects` every navigation. */
  class ApiClient {
    const storage: Storage.LocalStorage
    var sent: seq<RequestConfig>
    var redirects: seq<string>

    constructor (storage: Storage.LocalStorage)
      ensures this.storage == storage
      ensures sent == [] && redirects == []
    {
      this.storage := storage;
      sent := [];
      redirects := [];
    }

    /** The request interceptor, then the request leaves. */
    method Dispatch(config: RequestConfig) returns (out: RequestConfig)
      modifies this
      ensures out == Authorize(config, storage.items)
      ensures sent == old(sent) + [out]
      ensures redirects == old(redirects)
    {
      out := Authorize(config, storage.items);
      sent := sent + [out];
    }

    /** The response interceptor: a 401 clears the token and navigates to the login page, then rejects. */
    method Receive(outcome: Outcome) returns (r: Outcome)
      modifies this, storage
      ensures Received(outcome)
      ensures r == outcome
    {
      if Unauthorized(outcome) {
        storage.RemoveItem(TokenKey);
        redirects := redirects + [LoginPath];
      }
      r := outcome;
    }

    /**
     * The session policy of the response interceptor: a 401 removes the token and navigates to the
     * login page once; any other outcome leaves storage and navigation alone.
     */
    twostate predicate SessionPolicy(outcome: Outcome)
      reads this, storage
    {
      if Unauthorized(outcome) then
        storage.items == old(storage.items) - {TokenKey}
        && redirects == old(redirects) + [LoginPath]
      else
        storage.items == old(storage.items) && redirects == old(redirects)
    }

    /** What the response interceptor leaves behind for `outcome`. */
    twostate predicate Received(outcome: Outcome)
      reads this, storage
    {
      sent == old(sent) && SessionPolicy(outcome)
    }

    /** One request through both interceptors. */
    method Send(config: RequestConfig, outcome: Outcome) returns (r: Outcome)
      modifies this, storage
      ensures Delivered(config, outcome)
      ensures r == outcome
    {
      var _ := Dispatch(config);
      r := Receive(outcome);
    }

    /** `config` went out with the credential the storage held when it was sent, and `outcome` came back. */
    twostate predicate Delivered(config: RequestConfig, outcome: Outcome)
      reads this, storage
    {
      sent == old(sent) + [Authorize(config, old(storage.items))] && SessionPolicy(outcome)
    }
  }
}
