/**
 * `usePagination`: one page of a collection endpoint at a time, with the page count derived from
 * the response and navigation guarded by it.
 */
module Pagination {
  import opened Wrappers
  import opened Json
  import opened Transport

  /** A JavaScript number as this hook can see one: an integer, or `NaN`. */
  datatype Number = Int(value: int) | NaN

  /** JavaScript `a < b` for an integer `a`: false whenever `b` is `NaN`. */
  predicate Less(a: int, b: Number) {
    b.Int? && a < b.value
  }

  /** JavaScript `a <= b` for an integer `a`: false whenever `b` is `NaN`. */
  predicate AtMost(a: int, b: Number) {
    b.Int? && a <= b.value
  }

  /**
   * `Number(x)` for the values a page count can hold here: `undefined` is `NaN`, `null` is 0,
   * booleans are 0 or 1. Strings, arrays and objects are taken as `NaN`.
   */
  function ToNumber(j: Option<Json>): Number {
    match j
    case None => NaN
    case Some(Null) => Int(0)
    case Some(Bool(b)) => Int(if b then 1 else 0)
    case Some(Num(n)) => Int(n)
    case Some(_) => NaN
  }

  /** `Math.ceil(total / pageSize)` on integers, for a positive page size. */
  function CeilDiv(total: int, pageSize: int): (r: int)
    requires pageSize > 0
    ensures (r - 1) * pageSize < total <= r * pageSize
  {
    var q := (total + pageSize - 1) / pageSize;
    assert total + pageSize - 1 == q * pageSize + (total + pageSize - 1) % pageSize;
    q
  }

  /** Exactly one integer lies in the bounds `CeilDiv` promises: it is the mathematical ceiling. */
  lemma CeilDivUnique(total: int, pageSize: int, r: int)
    requires pageSize > 0
    requires (r - 1) * pageSize < total <= r * pageSize
    ensures r == CeilDiv(total, pageSize)
  {
    var q := CeilDiv(total, pageSize);
    assert (r - 1 - q) * pageSize == (r - 1) * pageSize - q * pageSize;
    NegativeFactor(r - 1 - q, pageSize);
    assert (q - 1 - r) * pageSize == (q - 1) * pageSize - r * pageSize;
    NegativeFactor(q - 1 - r, pageSize);
  }

  lemma NegativeFactor(a: int, b: int)
    requires b > 0 && a * b < 0
    ensures a < 0
  {
  }

  /** The server reported a truthy page count. */
  predicate PagesGiven(result: Json) {
    var p := Field(result, "pages");
    p.Some? && Truthy(p.value)
  }

  /** `result.pages || Math.ceil(result.total / pageSize)`. */
  function TotalPages(result: Json, pageSize: int): (r: Number)
    requires pageSize > 0
    ensures PagesGiven(result) ==> r == ToNumber(Field(result, "pages"))
    ensures !PagesGiven(result) && Field(result, "total").None? ==> r == NaN
    ensures !PagesGiven(result) && Field(result, "total").Some? && Field(result, "total").value.Num? ==>
              var total := Field(result, "total").value.n;
              r.Int? && (r.value - 1) * pageSize < total <= r.value * pageSize
  {
    if PagesGiven(result) then ToNumber(Field(result, "pages"))
    else match ToNumber(Field(result, "total"))
      case Int(t) => Int(CeilDiv(t, pageSize))
      case NaN => NaN
  }

  /** With no page count from the server, 45 items at the default page size of 20 make 3 pages. */
  lemma FortyFiveItemsMakeThreePages()
    ensures TotalPages(Obj(map["total" := Num(45)]), 20) == Int(3)
    ensures TotalPages(Obj(map["total" := Num(40)]), 20) == Int(2)
    ensures TotalPages(Obj(map["total" := Num(0)]), 20) == Int(0)
  {
  }

  /** The response body has a truthy value under `k`. */
  predicate Given(result: Json, k: string) {
    var f := Field(result, k);
    f.Some? && Truthy(f.value)
  }

  /** `result.data || result.items || []`. */
  function PageItems(result: Json): (r: Json)
    ensures Given(result, "data") ==> Some(r) == Field(result, "data")
    ensures !Given(result, "data") && Given(result, "items") ==> Some(r) == Field(result, "items")
    ensures !Given(result, "data") && !Given(result, "items") ==> r == Arr([])
    ensures Truthy(r)
  {
    Or(Field(result, "data"), Or(Field(result, "items"), Arr([])))
  }

  /**
   * The query parameters as `fetchPage` writes them: the trailing `...axiosOptions` replaces the
   * whole `params` object whenever the caller gave `params`, so `page` and `per_page` are lost.
   */
  function PageParamsAsWritten(page: int, pageSize: int, extra: Option<map<string, Json>>): map<string, Json> {
    var built := map["page" := Num(page), "per_page" := Num(pageSize)] + extra.GetOr(map[]);
    if extra.Some? then extra.value else built
  }

  /**
   * With caller `params` that do not name the page, the request as written asks for no page at
   * all, and so differs from the query the hook builds.
   */
  lemma CallerParamsDropPage(page: int, pageSize: int, extra: map<string, Json>)
    requires "page" !in extra
    ensures "page" !in PageParamsAsWritten(page, pageSize, Some(extra))
    ensures "per_page" !in extra ==> "per_page" !in PageParamsAsWritten(page, pageSize, Some(extra))
    ensures PageParamsAsWritten(page, pageSize, Some(extra)) != PageParams(page, pageSize, Some(extra))
  {
    assert "page" in PageParams(page, pageSize, Some(extra));
  }

  /** For example `params: {q: 'x'}` on page 2 sends `{q: 'x'}` alone. */
  lemma QueryParamDropsPage()
    ensures PageParamsAsWritten(2, 20, Some(map["q" := Str("x")])) == map["q" := Str("x")]
    ensures PageParams(2, 20, Some(map["q" := Str("x")])) == map["page" := Num(2), "per_page" := Num(20), "q" := Str("x")]
  {
  }

  /**
   * `{page, per_page: pageSize, ...params}`, the object the hook builds: the caller's keys are
   * added, and `page` and `per_page` are sent unless the caller names them itself.
   */
  function PageParams(page: int, pageSize: int, extra: Option<map<string, Json>>): (r: map<string, Json>)
    ensures r.Keys == {"page", "per_page"} + extra.GetOr(map[]).Keys
    ensures forall k :: k in extra.GetOr(map[]) ==> r[k] == extra.GetOr(map[])[k]
    ensures "page" !in extra.GetOr(map[]) ==> r["page"] == Num(page)
    ensures "per_page" !in extra.GetOr(map[]) ==> r["per_page"] == Num(pageSize)
  {
    map["page" := Num(page), "per_page" := Num(pageSize)] + extra.GetOr(map[])
  }

  /** Without caller `params` the two readings agree. */
  lemma PageParamsAgreeWithoutExtra(page: int, pageSize: int)
    ensures PageParamsAsWritten(page, pageSize, None) == PageParams(page, pageSize, None)
    ensures PageParams(page, pageSize, None) == map["page" := Num(page), "per_page" := Num(pageSize)]
  {
  }

  /**
   * `apiClient.get(url, {params})` for one page: a GET without body or headers of its own whose
   * query always names the page and the page size, whatever the caller passes.
   */
  function PageRequest(url: string, page: int, pageSize: int, extra: Option<map<string, Json>>): (r: RequestConfig)
    ensures r.verb == GET && r.url == url && r.data == NoData && r.headers == map[]
    ensures "page" in r.params && "per_page" in r.params
    ensures forall k :: k in extra.GetOr(map[]) ==> k in r.params && r.params[k] == extra.GetOr(map[])[k]
    ensures extra.None? ==> r.params == map["page" := Num(page), "per_page" := Num(pageSize)]
  {
    RequestConfig(GET, url, NoData, map[], PageParams(page, pageSize, extra))
  }

  /**
   * The `TypeError` text of reading `.data` on a `null` response body. The wording is the V8
   * engine's; other engines word this error differently.
   */
  const NullBodyMessage: string := "Cannot read properties of null (reading 'data')"

  /** What `fetchPage` resolves or rejects with: a `null` body rejects with the `TypeError`. */
  function FetchResult(outcome: Outcome): Outcome {
    if outcome == Success(Null) then Failure(HttpError(None, None, NullBodyMessage)) else outcome
  }

  /** `usePagination(url, {pageSize, params})`. */
  class PaginationHook {
    const client: ApiClient
    const url: string
    const pageSize: int
    const params: Option<map<string, Json>>
    var data: Json
    var totalPages: Number
    var currentPage: int
    var loading: bool
    var error: Json

    /** The hook's invariant: every page it asks for is 1 or more. */
    ghost predicate Valid()
      reads this
    {
      pageSize > 0 && currentPage >= 1
    }

    /** The first render: no items, no pages, page 1. `pageSize` is 20 unless given. */
    constructor (client: ApiClient, url: string, pageSize: Option<int>, params: Option<map<string, Json>>)
      requires pageSize.GetOr(20) > 0
      ensures Valid()
      ensures this.client == client && this.url == url
      ensures this.pageSize == pageSize.GetOr(20) && this.params == params
      ensures data == Arr([]) && totalPages == Int(0) && currentPage == 1 && !loading && error == Null
    {
      this.client := client;
      this.url := url;
      this.pageSize := pageSize.GetOr(20);
      this.params := params;
      data := Arr([]);
      totalPages := Int(0);
      currentPage := 1;
      loading := false;
      error := Null;
    }

    /** `hasNext: currentPage < totalPages`, false whenever the page count is `NaN`. */
    predicate HasNext()
      reads this
    {
      Less(currentPage, totalPages)
    }

    /** `hasPrev: currentPage > 1`: false on page 1, whatever the page count. */
    predicate HasPrev()
      reads this
    {
      currentPage > 1
    }

    /**
     * The state one `fetchPage(page)` leaves: the page was requested; a usable response replaces
     * `data`, `totalPages` and `currentPage`; a failure (or a `null` body) records the message and
     * keeps them; `loading` is off.
     */
    twostate predicate Fetched(page: int, outcome: Outcome)
      reads this, client, client.storage
      requires pageSize > 0
    {
      && client.Delivered(PageRequest(url, page, pageSize, params), outcome)
      && !loading
      && match FetchResult(outcome)
         case Success(result) =>
           data == PageItems(result) && totalPages == TotalPages(result, pageSize)
           && currentPage == page && error == Null
         case Failure(e) =>
           data == old(data) && totalPages == old(totalPages) && currentPage == old(currentPage)
           && error == ErrorMessage(e)
    }

    /** `fetchPage(page)`; every caller passes a page of at least 1. */
    method FetchPage(page: int, outcome: Outcome) returns (r: Outcome)
      requires Valid() && page >= 1
      modifies this, client, client.storage
      ensures Valid()
      ensures r == FetchResult(outcome)
      ensures Fetched(page, outcome)
    {
      loading := true;
      error := Null;
      var response := client.Send(PageRequest(url, page, pageSize, params), outcome);
      r := FetchResult(response);
      match r {
        case Success(result) =>
          data := PageItems(result);
          totalPages := TotalPages(result, pageSize);
          currentPage := page;
        case Failure(e) =>
          error := ErrorMessage(e);
      }
      loading := false;
    }

    /** The mount effect: `fetchPage(1)`. */
    method Mount(outcome: Outcome)
      requires Valid()
      modifies this, client, client.storage
      ensures Valid()
      ensures Fetched(1, outcome)
    {
      var _ := FetchPage(1, outcome);
    }

    /** `nextPage()`: fetches the following page only when there is one. */
    method NextPage(outcome: Outcome) returns (issued: bool)
      requires Valid()
      modifies this, client, client.storage
      ensures Valid()
      ensures issued == old(HasNext())
      ensures issued ==> Fetched(old(currentPage) + 1, outcome)
      ensures !issued ==> unchanged(this, client, client.storage)
    {
      issued := HasNext();
      if issued {
        var _ := FetchPage(currentPage + 1, outcome);
      }
    }

    /** `prevPage()`: fetches the preceding page only when the current one is not the first. */
    method PrevPage(outcome: Outcome) returns (issued: bool)
      requires Valid()
      modifies this, client, client.storage
      ensures Valid()
      ensures issued == old(HasPrev())
      ensures issued ==> Fetched(old(currentPage) - 1, outcome)
      ensures !issued ==> unchanged(this, client, client.storage)
    {
      issued := HasPrev();
      if issued {
        var _ := FetchPage(currentPage - 1, outcome);
      }
    }

    /** `goToPage(page)`: fetches `page` only when it lies in 1..totalPages. */
    method GoToPage(page: int, outcome: Outcome) returns (issued: bool)
      requires Valid()
      modifies this, client, client.storage
      ensures Valid()
      ensures issued == (1 <= page && AtMost(page, old(totalPages)))
      ensures issued ==> Fetched(page, outcome)
      ensures !issued ==> unchanged(this, client, client.storage)
    {
      issued := page >= 1 && AtMost(page, totalPages);
      if issued {
        var _ := FetchPage(page, outcome);
      }
    }

    /** `refetch()`: fetches the current page again. */
    method Refetch(outcome: Outcome) returns (r: Outcome)
      requires Valid()
      modifies this, client, client.storage
      ensures Valid()
      ensures r == FetchResult(outcome)
      ensures Fetched(old(currentPage), outcome)
    {
      r := FetchPage(currentPage, outcome);
    }
  }

  /**
   * When the page count comes from `total`, a following page exists exactly when items remain
   * beyond page `page`: `page < ceil(total / pageSize)` iff `page * pageSize < total`.
   */
  lemma NextExistsIffItemsRemain(result: Json, pageSize: int, page: int, total: int)
    requires pageSize > 0
    requires !PagesGiven(result) && Field(result, "total") == Some(Num(total))
    ensures Less(page, TotalPages(result, pageSize)) <==> page * pageSize < total
  {
    var c := CeilDiv(total, pageSize);
    assert TotalPages(result, pageSize) == Int(c);
    if page < c {
      MulMonotone(page, c - 1, pageSize);
    } else {
      MulMonotone(c, page, pageSize);
    }
  }

  lemma MulMonotone(a: int, b: int, k: int)
    requires a <= b && k > 0
    ensures a * k <= b * k
  {
  }

  /**
   * After a fetch of `page` whose body reports only `total`, the hook's `hasNext` holds exactly
   * when items remain beyond that page; on the last page `nextPage` therefore sends nothing.
   */
  twostate lemma HasNextAfterFetch(h: PaginationHook, page: int, result: Json, total: int)
    requires h.pageSize > 0
    requires h.Fetched(page, Success(result))
    requires result != Null && !PagesGiven(result) && Field(result, "total") == Some(Num(total))
    ensures h.currentPage == page
    ensures h.HasNext() <==> page * h.pageSize < total
  {
    NextExistsIffItemsRemain(result, h.pageSize, page, total);
  }

  /**
   * A fetch answered with a `null` body fails like a transport error: the page state is kept and
   * `error` holds the `TypeError` text.
   */
  twostate lemma NullBodyKeepsPage(h: PaginationHook, page: int)
    requires h.pageSize > 0
    requires h.Fetched(page, Success(Null))
    ensures h.data == old(h.data) && h.totalPages == old(h.totalPages) && h.currentPage == old(h.currentPage)
    ensures h.error == Str(NullBodyMessage) && !h.loading
  {
  }
}
