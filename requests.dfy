/**
 * The request lifecycle hooks: `useApi` (a read with an auto-run gate), `useMutation` (a write
 * run on demand) and `useFileUpload` (a multipart write with progress). Each call sets `loading`,
 * clears `error`, sends through the shared client, applies the outcome and clears `loading`.
 */
module Requests {
  import opened Wrappers
  import opened Json
  import opened Transport

  /** A configured callback being invoked: `onSuccess(result)` or `onError(message)`. */
  datatype Notice = Succeeded(result: Json) | Failed(message: Json)

  /** Which of `onSuccess` / `onError` the caller configured. */
  datatype Callbacks = Callbacks(onSuccess: bool, onError: bool)

  /**
   * The callback invocations one settled call makes: at most one; exactly one when the callback
   * for that outcome is configured; and a success is never reported as a failure or the reverse.
   */
  function Notify(cb: Callbacks, outcome: Outcome): (r: seq<Notice>)
    ensures |r| <= 1
    ensures |r| == 1 <==> (if outcome.Success? then cb.onSuccess else cb.onError)
    ensures forall i :: 0 <= i < |r| ==> (r[i].Succeeded? <==> outcome.Success?)
  {
    match outcome
    case Success(v) => if cb.onSuccess then [Succeeded(v)] else []
    case Failure(e) => if cb.onError then [Failed(ErrorMessage(e))] else []
  }

  // ---------------------------------------------------------------- useApi

  /**
   * The options of `useApi`. `method` and `immediate` are `None` when not given; `body` is `Null`
   * when not given. `rest` is every other key (`...axiosOptions`); the destructuring has already
   * taken `method` out of it.
   */
  datatype QueryOptions = QueryOptions(
    verb: Option<Method>,
    body: Json,
    immediate: Option<bool>,
    callbacks: Callbacks,
    rest: Overrides)

  /** The argument of `execute`: omitted (the configured `body` is used) or a given value. */
  datatype BodyArg = DefaultBody | Body(value: Json)

  function QueryMethod(o: QueryOptions): Method {
    o.verb.GetOr(GET)
  }

  /** The auto-run gate of the mount effect: `immediate && method === 'GET'`. */
  predicate AutoRuns(o: QueryOptions) {
    o.immediate.GetOr(true) && QueryMethod(o) == GET
  }

  /** `{method, url, ...(customBody && {data: customBody}), ...axiosOptions}`. */
  function QueryConfig(url: string, o: QueryOptions, arg: BodyArg): (r: RequestConfig)
    ensures r.verb == QueryMethod(o)
    ensures o.rest == NoOverrides ==> r.url == url && r.headers == map[] && r.params == map[]
    ensures o.rest.data.None? ==>
              var b := if arg.DefaultBody? then o.body else arg.value;
              r.data == if Truthy(b) then JsonData(b) else NoData
  {
    var b := match arg case DefaultBody => o.body case Body(v) => v;
    Overlay(RequestConfig(QueryMethod(o), url, if Truthy(b) then JsonData(b) else NoData, map[], map[]),
            o.rest.(verb := None))
  }

  /** `useApi(url, options)`. */
  class ApiHook {
    const client: ApiClient
    const url: string
    const options: QueryOptions
    var data: Json
    var loading: bool
    var error: Json
    var notices: seq<Notice>

    /** The first render: `data`, `error` are `null` and nothing is loading. */
    constructor (client: ApiClient, url: string, options: QueryOptions)
      ensures this.client == client && this.url == url && this.options == options
      ensures data == Null && !loading && error == Null && notices == []
    {
      this.client := client;
      this.url := url;
      this.options := options;
      data := Null;
      loading := false;
      error := Null;
      notices := [];
    }

    /**
     * The state one `execute(arg)` leaves: the request went out through the client; on success
     * `data` is the result and `error` is cleared; on failure `error` is the normalized message
     * and `data` keeps its previous value; `loading` is off; the configured callback ran once.
     */
    twostate predicate Executed(arg: BodyArg, outcome: Outcome)
      reads this, client, client.storage
    {
      && client.Delivered(QueryConfig(url, options, arg), outcome)
      && !loading
      && (match outcome
          case Success(v) => data == v && error == Null
          case Failure(e) => data == old(data) && error == ErrorMessage(e))
      && notices == old(notices) + Notify(options.callbacks, outcome)
    }

    /** `execute(customBody)` (also `refetch`): resolves with the result or rethrows the failure. */
    method Execute(arg: BodyArg, outcome: Outcome) returns (r: Outcome)
      modifies this, client, client.storage
      ensures r == outcome
      ensures Executed(arg, outcome)
    {
      loading := true;
      error := Null;
      r := client.Send(QueryConfig(url, options, arg), outcome);
      match r {
        case Success(result) =>
          data := result;
          if options.callbacks.onSuccess {
            notices := notices + [Succeeded(result)];
          }
        case Failure(e) =>
          var message := ErrorMessage(e);
          error := message;
          if options.callbacks.onError {
            notices := notices + [Failed(message)];
          }
      }
      loading := false;
    }

    /** The mount effect: `execute()` runs exactly when the gate is open; otherwise nothing happens. */
    method Mount(outcome: Outcome) returns (ran: bool)
      modifies this, client, client.storage
      ensures ran == AutoRuns(options)
      ensures ran ==> Executed(DefaultBody, outcome)
      ensures !ran ==> unchanged(this, client, client.storage)
    {
      ran := AutoRuns(options);
      if ran {
        var _ := Execute(DefaultBody, outcome);
      }
    }
  }

  /**
   * Default `useApi` options auto-run a GET; any other method string, or `immediate: false`, does
   * not. The gate compares case-sensitively, so `method: 'get'` never auto-runs.
   */
  lemma AutoRunOnlyForImmediateGet(o: QueryOptions)
    ensures o.verb == None && o.immediate == None ==> AutoRuns(o)
    ensures o.verb.Some? && o.verb.value != GET ==> !AutoRuns(o)
    ensures o.verb == Some("get") ==> !AutoRuns(o)
    ensures o.immediate == Some(false) ==> !AutoRuns(o)
  {
  }

  // ---------------------------------------------------------------- useMutation

  /** The options of `useMutation`/`useFileUpload`: request keys that are spread, and the callbacks. */
  datatype MutationOptions = MutationOptions(overrides: Overrides, callbacks: Callbacks)

  /** `{method: 'POST', url, data, ...options, ...customOptions}`. */
  function MutationConfig(url: string, o: MutationOptions, data: Json, custom: Overrides): (r: RequestConfig)
    ensures o.overrides == NoOverrides && custom == NoOverrides ==>
              r == RequestConfig(POST, url, JsonData(data), map[], map[])
    ensures custom.url.Some? ==> r.url == custom.url.value
    ensures custom.url.None? && o.overrides.url.None? ==> r.url == url
  {
    Overlay(Overlay(RequestConfig(POST, url, JsonData(data), map[], map[]), o.overrides), custom)
  }

  /** POST is the default method; `options` overrides it, and `customOptions` overrides both. */
  lemma MutationPrecedence(url: string, o: MutationOptions, data: Json, custom: Overrides)
    ensures MutationConfig(url, o, data, custom).verb ==
              if custom.verb.Some? then custom.verb.value
              else if o.overrides.verb.Some? then o.overrides.verb.value
              else POST
    ensures MutationConfig(url, o, data, custom).data ==
              if custom.data.Some? then custom.data.value
              else if o.overrides.data.Some? then o.overrides.data.value
              else JsonData(data)
    ensures MutationConfig(url, o, data, custom) == Overlay(RequestConfig(POST, url, JsonData(data), map[], map[]), Then(o.overrides, custom))
  {
    OverlayThen(RequestConfig(POST, url, JsonData(data), map[], map[]), o.overrides, custom);
  }

  /** `useMutation(url, options)`: never runs by itself. */
  class MutationHook {
    const client: ApiClient
    const url: string
    const options: MutationOptions
    var loading: bool
    var error: Json
    var notices: seq<Notice>

    constructor (client: ApiClient, url: string, options: MutationOptions)
      ensures this.client == client && this.url == url && this.options == options
      ensures !loading && error == Null && notices == []
      ensures client.sent == old(client.sent)
    {
      this.client := client;
      this.url := url;
      this.options := options;
      loading := false;
      error := Null;
      notices := [];
    }

    /** `mutate(data, customOptions)`: resolves with the result or rethrows the failure. */
    method Mutate(data: Json, custom: Overrides, outcome: Outcome) returns (r: Outcome)
      modifies this, client, client.storage
      ensures r == outcome
      ensures client.Delivered(MutationConfig(url, options, data, custom), outcome)
      ensures !loading
      ensures error == if outcome.Failure? then ErrorMessage(outcome.error) else Null
      ensures notices == old(notices) + Notify(options.callbacks, outcome)
    {
      loading := true;
      error := Null;
      r := client.Send(MutationConfig(url, options, data, custom), outcome);
      match r {
        case Success(result) =>
          if options.callbacks.onSuccess {
            notices := notices + [Succeeded(result)];
          }
        case Failure(e) =>
          var message := ErrorMessage(e);
          error := message;
          if options.callbacks.onError {
            notices := notices + [Failed(message)];
          }
      }
      loading := false;
    }
  }

  // ---------------------------------------------------------------- useFileUpload

  /**
   * The multipart body `upload` builds: `file` first, then one text field per entry of
   * `additional`, in enumeration order.
   */
  method BuildFormData(file: File, additional: seq<(string, string)>) returns (form: FormData)
    ensures |form| == |additional| + 1
    ensures form[0] == ("file", FileValue(file))
    ensures forall i :: 0 <= i < |additional| ==>
              form[i + 1] == (additional[i].0, TextValue(additional[i].1))
  {
    form := [("file", FileValue(file))];
    var i := 0;
    while i < |additional|
      invariant 0 <= i <= |additional|
      invariant |form| == i + 1
      invariant form[0] == ("file", FileValue(file))
      invariant forall j :: 0 <= j < i ==> form[j + 1] == (additional[j].0, TextValue(additional[j].1))
    {
      form := form + [(additional[i].0, TextValue(additional[i].1))];
      i := i + 1;
    }
  }

  /** `Math.round(loaded * 100 / total)`, rounding halves up, on integers. */
  function Percent(loaded: int, total: int): (r: int)
    requires total > 0
    ensures 2 * r * total <= 200 * loaded + total < 2 * (r + 1) * total
  {
    var q := (200 * loaded + total) / (2 * total);
    assert 200 * loaded + total == q * (2 * total) + (200 * loaded + total) % (2 * total);
    q
  }

  /** Exactly one integer lies in the bounds `Percent` promises: it is `Math.round` of the quotient. */
  lemma PercentUnique(loaded: int, total: int, r: int)
    requires total > 0
    requires 2 * r * total <= 200 * loaded + total < 2 * (r + 1) * total
    ensures r == Percent(loaded, total)
  {
    var q := Percent(loaded, total);
    assert 2 * (r - q - 1) * total < 0;
    assert 2 * (q - r - 1) * total < 0;
  }

  /** A progress report never leaves 0..100 while the bytes sent are within the total. */
  lemma PercentInRange(loaded: int, total: int)
    requires total > 0 && 0 <= loaded <= total
    ensures 0 <= Percent(loaded, total) <= 100
    ensures loaded == 0 ==> Percent(loaded, total) == 0
    ensures loaded == total ==> Percent(loaded, total) == 100
  {
    var p := Percent(loaded, total);
    assert (2 * p) * total < 202 * total;
    FactorBelow(2 * p, 202, total);
    assert 1 * total < (2 * p + 2) * total;
    FactorBelow(1, 2 * p + 2, total);
    if loaded == 0 {
      PercentUnique(0, total, 0);
    }
    if loaded == total {
      PercentUnique(total, total, 100);
    }
  }

  lemma FactorBelow(a: int, b: int, t: int)
    requires t > 0 && a * t < b * t
    ensures a < b
  {
  }

  /** `{method: 'POST', url, data: formData, headers: {'Content-Type': 'multipart/form-data'}, ...options}`. */
  function UploadConfig(url: string, o: MutationOptions, form: FormData): (r: RequestConfig)
    ensures o.overrides == NoOverrides ==>
              r.verb == POST && r.url == url && r.data == Multipart(form)
              && r.headers == map["Content-Type" := "multipart/form-data"]
    ensures o.overrides.headers.Some? ==> r.headers == o.overrides.headers.value
    ensures o.overrides.data.None? ==> r.data == Multipart(form)
  {
    Overlay(RequestConfig(POST, url, Multipart(form), map["Content-Type" := "multipart/form-data"], map[]),
            o.overrides)
  }

  /** `useFileUpload(url, options)`; an upload is started, reports progress, then settles. */
  class FileUploadHook {
    const client: ApiClient
    const url: string
    const options: MutationOptions
    var progress: int
    var loading: bool
    var error: Json
    var notices: seq<Notice>

    constructor (client: ApiClient, url: string, options: MutationOptions)
      ensures this.client == client && this.url == url && this.options == options
      ensures progress == 0 && !loading && error == Null && notices == []
    {
      this.client := client;
      this.url := url;
      this.options := options;
      progress := 0;
      loading := false;
      error := Null;
      notices := [];
    }

    /** `upload(file, additionalData)` up to the transfer: state reset, form built, request sent. */
    method StartUpload(file: File, additional: seq<(string, string)>) returns (form: FormData)
      modifies this, client
      ensures loading && error == Null && progress == 0 && notices == old(notices)
      ensures |form| == |additional| + 1 && form[0] == ("file", FileValue(file))
      ensures forall i :: 0 <= i < |additional| ==>
                form[i + 1] == (additional[i].0, TextValue(additional[i].1))
      ensures client.sent == old(client.sent) + [Authorize(UploadConfig(url, options, form), client.storage.items)]
      ensures client.redirects == old(client.redirects)
    {
      loading := true;
      error := Null;
      progress := 0;
      form := BuildFormData(file, additional);
      var _ := client.Dispatch(UploadConfig(url, options, form));
    }

    /** The `onUploadProgress` handler for a transport event with a known total. */
    method OnUploadProgress(loaded: int, total: int)
      requires total > 0
      modifies this`progress
      ensures progress == Percent(loaded, total)
      ensures 0 <= loaded <= total ==> 0 <= progress <= 100
    {
      if 0 <= loaded <= total {
        PercentInRange(loaded, total);
      }
      progress := Percent(loaded, total);
    }

    /** The upload settling: the outcome is applied and `loading` and `progress` are reset. */
    method FinishUpload(outcome: Outcome) returns (r: Outcome)
      modifies this, client, client.storage
      ensures r == outcome
      ensures client.Received(outcome)
      ensures !loading && progress == 0
      ensures error == if outcome.Failure? then ErrorMessage(outcome.error) else old(error)
      ensures notices == old(notices) + Notify(options.callbacks, outcome)
    {
      r := client.Receive(outcome);
      match r {
        case Success(result) =>
          if options.callbacks.onSuccess {
            notices := notices + [Succeeded(result)];
          }
        case Failure(e) =>
          var message := ErrorMessage(e);
          error := message;
          if options.callbacks.onError {
            notices := notices + [Failed(message)];
          }
      }
      loading := false;
      progress := 0;
    }
  }
}
