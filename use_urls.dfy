/**
 * The job-list hook: three state cells (`urls`, `loading`, `pagination`), one fetch
 * that replaces the whole view or resets it, and six mutations that each call their
 * endpoint and then refetch once. Every remote outcome is a parameter; `sent` records
 * the calls the endpoint receives, in order.
 */
module UseURLs {
  import opened Wrappers
  import opened Models
  import opened Api

  /** The options the hook is rendered with; `None` is an absent field. */
  datatype Options = Options(
    search: Option<string>, status: Option<string>, page: Option<int>,
    pageSize: Option<int>, sortBy: Option<string>, sortOrder: Option<string>)

  const NoOptions := Options(None, None, None, None, None, None)

  /** `value || fallback` for a number: an absent value and 0 are falsy. */
  function NumberOr(o: Option<int>, fallback: int): int {
    if o.Some? && o.value != 0 then o.value else fallback
  }

  /** `value || fallback` for a string: an absent value and "" are falsy. */
  function TextOr(o: Option<string>, fallback: string): string {
    if o.Some? && o.value != "" then o.value else fallback
  }

  /** The query the hook sends for its options: each falsy option is replaced by its default. */
  function Params(o: Options): (p: ListParams)
    ensures p.page != 0 && p.pageSize != 0 && p.sortBy != "" && p.sortOrder != ""
    ensures o.page.Some? && o.page.value != 0 ==> p.page == o.page.value
    ensures o.page.None? || o.page.value == 0 ==> p.page == 1
    ensures o.pageSize.Some? && o.pageSize.value != 0 ==> p.pageSize == o.pageSize.value
    ensures o.pageSize.None? || o.pageSize.value == 0 ==> p.pageSize == 10
    ensures p.search == o.search.GetOr("") && p.status == o.status.GetOr("")
    ensures o.sortBy.Some? && o.sortBy.value != "" ==> p.sortBy == o.sortBy.value
    ensures o.sortBy.None? || o.sortBy.value == "" ==> p.sortBy == "created_at"
    ensures o.sortOrder.Some? && o.sortOrder.value != "" ==> p.sortOrder == o.sortOrder.value
    ensures o.sortOrder.None? || o.sortOrder.value == "" ==> p.sortOrder == "desc"
  {
    ListParams(
      NumberOr(o.page, 1), NumberOr(o.pageSize, 10), TextOr(o.search, ""), TextOr(o.status, ""),
      TextOr(o.sortBy, "created_at"), TextOr(o.sortOrder, "desc"))
  }

  /** The empty first page: the initial pagination and the one a failed fetch restores. */
  const EmptyPage := Page([], 1, 10, 0, 0)

  /** The pagination after a fetch completes: the response verbatim, or the empty page. */
  function ViewAfter(response: Result<Page, ApiError>): (p: Page)
    ensures response.Ok? ==> p == response.value
    ensures response.Err? ==> p == EmptyPage
  {
    match response
    case Ok(page) => page
    case Err(_) => EmptyPage
  }

  /** A failed fetch leaves exactly the state the hook started in. */
  lemma FailedFetchRestoresInitialView(e: ApiError)
    ensures ViewAfter(Err(e)) == EmptyPage
    ensures ViewAfter(Err(e)).data == [] && ViewAfter(Err(e)).totalPages == 0
  {
  }

  class UrlsHook {
    var urls: seq<URLItem>
    var loading: bool
    var pagination: Page
    var options: Options
    var sent: seq<ApiCall>

    /** After every completed fetch the list shown is the page's own data. */
    ghost predicate Synced()
      reads this
    {
      urls == pagination.data
    }

    constructor (options: Options)
      ensures urls == [] && !loading && pagination == EmptyPage
      ensures this.options == options && sent == []
      ensures Synced()
    {
      urls := [];
      loading := false;
      pagination := EmptyPage;
      this.options := options;
      sent := [];
    }

    /** The part of a fetch before the request's outcome is known. */
    method BeginFetch()
      modifies this
      ensures loading
      ensures sent == old(sent) + [GetURLs(Params(options))]
      ensures urls == old(urls) && pagination == old(pagination) && options == old(options)
    {
      loading := true;
      sent := sent + [GetURLs(Params(options))];
    }

    /** The part after: replace the whole view or reset it; the error is swallowed. */
    method CompleteFetch(response: Result<Page, ApiError>)
      modifies this
      ensures !loading && Synced()
      ensures pagination == ViewAfter(response)
      ensures sent == old(sent) && options == old(options)
    {
      match response {
        case Ok(page) =>
          urls := page.data;
          pagination := Page(page.data, page.page, page.pageSize, page.total, page.totalPages);
        case Err(_) =>
          urls := [];
          pagination := Page([], 1, 10, 0, 0);
      }
      loading := false;
    }

    /** `fetchURLs`: one request with the current options; never fails. */
    method FetchURLs(response: Result<Page, ApiError>)
      modifies this
      ensures !loading && Synced() && pagination == ViewAfter(response)
      ensures sent == old(sent) + [GetURLs(Params(options))] && options == old(options)
    {
      BeginFetch();
      CompleteFetch(response);
    }

    /** `refresh`, used by the refresh button and by polling. */
    method Refresh(response: Result<Page, ApiError>)
      modifies this
      ensures !loading && Synced() && pagination == ViewAfter(response)
      ensures sent == old(sent) + [GetURLs(Params(options))] && options == old(options)
    {
      FetchURLs(response);
    }

    /**
     * A re-render with options `o`: the fetch callback and the effect depending on it
     * change, and so a new fetch runs, exactly when some option changed.
     */
    method Rerender(o: Options, response: Result<Page, ApiError>)
      modifies this
      ensures options == o
      ensures o == old(options) ==>
        sent == old(sent) && urls == old(urls) && pagination == old(pagination) && loading == old(loading)
      ensures o != old(options) ==>
        sent == old(sent) + [GetURLs(Params(o))] && !loading && Synced() && pagination == ViewAfter(response)
    {
      if o != options {
        options := o;
        FetchURLs(response);
      }
    }

    /**
     * The shape every mutation shares: call the endpoint; on success refetch once and
     * resolve; on failure re-throw without refetching.
     */
    method Mutate(call: ApiCall, endpoint: Result<(), ApiError>, response: Result<Page, ApiError>)
      returns (r: Result<(), ApiError>)
      modifies this
      ensures r == endpoint
      ensures options == old(options)
      ensures endpoint.Ok? ==>
        sent == old(sent) + [call, GetURLs(Params(options))] &&
        !loading && Synced() && pagination == ViewAfter(response)
      ensures endpoint.Err? ==>
        sent == old(sent) + [call] &&
        urls == old(urls) && pagination == old(pagination) && loading == old(loading)
    {
      sent := sent + [call];
      if endpoint.Err? {
        return endpoint;
      }
      FetchURLs(response);
      r := endpoint;
    }

    method DeleteURL(id: int, endpoint: Result<(), ApiError>, response: Result<Page, ApiError>)
      returns (r: Result<(), ApiError>)
      modifies this
      ensures r == endpoint && options == old(options)
      ensures endpoint.Ok? ==>
        sent == old(sent) + [Api.DeleteURL(id), GetURLs(Params(options))] &&
        !loading && Synced() && pagination == ViewAfter(response)
      ensures endpoint.Err? ==>
        sent == old(sent) + [Api.DeleteURL(id)] &&
        urls == old(urls) && pagination == old(pagination) && loading == old(loading)
    {
      r := Mutate(Api.DeleteURL(id), endpoint, response);
    }

    method BulkDelete(ids: seq<int>, endpoint: Result<(), ApiError>, response: Result<Page, ApiError>)
      returns (r: Result<(), ApiError>)
      modifies this
      ensures r == endpoint && options == old(options)
      ensures endpoint.Ok? ==>
        sent == old(sent) + [BulkDeleteURLs(ids), GetURLs(Params(options))] &&
        !loading && Synced() && pagination == ViewAfter(response)
      ensures endpoint.Err? ==>
        sent == old(sent) + [BulkDeleteURLs(ids)] &&
        urls == old(urls) && pagination == old(pagination) && loading == old(loading)
    {
      r := Mutate(BulkDeleteURLs(ids), endpoint, response);
    }

    method BulkRerun(ids: seq<int>, endpoint: Result<(), ApiError>, response: Result<Page, ApiError>)
      returns (r: Result<(), ApiError>)
      modifies this
      ensures r == endpoint && options == old(options)
      ensures endpoint.Ok? ==>
        sent == old(sent) + [BulkRerunURLs(ids), GetURLs(Params(options))] &&
        !loading && Synced() && pagination == ViewAfter(response)
      ensures endpoint.Err? ==>
        sent == old(sent) + [BulkRerunURLs(ids)] &&
        urls == old(urls) && pagination == old(pagination) && loading == old(loading)
    {
      r := Mutate(BulkRerunURLs(ids), endpoint, response);
    }

    method StartCrawling(id: int, endpoint: Result<(), ApiError>, response: Result<Page, ApiError>)
      returns (r: Result<(), ApiError>)
      modifies this
      ensures r == endpoint && options == old(options)
      ensures endpoint.Ok? ==>
        sent == old(sent) + [Api.StartCrawling(id), GetURLs(Params(options))] &&
        !loading && Synced() && pagination == ViewAfter(response)
      ensures endpoint.Err? ==>
        sent == old(sent) + [Api.StartCrawling(id)] &&
        urls == old(urls) && pagination == old(pagination) && loading == old(loading)
    {
      r := Mutate(Api.StartCrawling(id), endpoint, response);
    }

    method StopCrawling(id: int, endpoint: Result<(), ApiError>, response: Result<Page, ApiError>)
      returns (r: Result<(), ApiError>)
      modifies this
      ensures r == endpoint && options == old(options)
      ensures endpoint.Ok? ==>
        sent == old(sent) + [Api.StopCrawling(id), GetURLs(Params(options))] &&
        !loading && Synced() && pagination == ViewAfter(response)
      ensures endpoint.Err? ==>
        sent == old(sent) + [Api.StopCrawling(id)] &&
        urls == old(urls) && pagination == old(pagination) && loading == old(loading)
    {
      r := Mutate(Api.StopCrawling(id), endpoint, response);
    }

    method AddURL(url: string, endpoint: Result<(), ApiError>, response: Result<Page, ApiError>)
      returns (r: Result<(), ApiError>)
      modifies this
      ensures r == endpoint && options == old(options)
      ensures endpoint.Ok? ==>
        sent == old(sent) + [CreateURL(url), GetURLs(Params(options))] &&
        !loading && Synced() && pagination == ViewAfter(response)
      ensures endpoint.Err? ==>
        sent == old(sent) + [CreateURL(url)] &&
        urls == old(urls) && pagination == old(pagination) && loading == old(loading)
    {
      r := Mutate(CreateURL(url), endpoint, response);
    }
  }
}
