/**
 * The HTTP client: the mapping from each client call to the request it sends, and
 * the two interceptors installed on every request (attach the stored bearer token)
 * and every response (on a 401, drop the stored session and go to the login page).
 */
module Api {
  import opened Wrappers
  import opened Strings

  /** The query parameters the list endpoint reads. */
  datatype ListParams = ListParams(
    page: int, pageSize: int, search: string, status: string, sortBy: string, sortOrder: string)

  /** Every call the client service exposes. */
  datatype ApiCall =
    | Login(username: string, password: string)
    | Register(username: string, email: string, password: string)
    | GetURLs(params: ListParams)
    | CreateURL(url: string)
    | GetURL(id: int)
    | StartCrawling(id: int)
    | StopCrawling(id: int)
    | DeleteURL(id: int)
    | GetResults(id: int)
    | RerunURL(id: int)
    | GetBrokenLinks(resultId: int)
    | BulkDeleteURLs(ids: seq<int>)
    | BulkRerunURLs(ids: seq<int>)
    | HealthCheck

  datatype HttpMethod = GET | POST | PUT | DELETE

  datatype Body =
    | NoBody
    | LoginBody(username: string, password: string)
    | RegisterBody(username: string, email: string, password: string)
    | UrlBody(url: string)
    | IdsBody(ids: seq<int>)

  /** A request relative to the base URL; `path` lists the segments between the slashes. */
  datatype HttpRequest = HttpRequest(verb: HttpMethod, path: seq<string>, query: Option<ListParams>, body: Body)

  const BaseURL := "http://localhost:8080/api"

  /** Per-item calls: the ones whose path carries a job id. */
  predicate IsItemCall(c: ApiCall) {
    c.GetURL? || c.StartCrawling? || c.StopCrawling? || c.DeleteURL? || c.GetResults? || c.RerunURL?
  }

  function ItemSuffix(c: ApiCall): seq<string>
    requires IsItemCall(c)
  {
    match c
    case StartCrawling(_) => ["start"]
    case StopCrawling(_) => ["stop"]
    case GetResults(_) => ["results"]
    case RerunURL(_) => ["rerun"]
    case _ => []
  }

  /** The request each call sends. */
  function Route(c: ApiCall): (r: HttpRequest)
    ensures IsItemCall(c) ==> r.path == ["urls", IntToString(c.id)] + ItemSuffix(c) && r.body == NoBody
    ensures c.BulkDeleteURLs? ==> r == HttpRequest(POST, ["bulk", "delete"], None, IdsBody(c.ids))
    ensures c.BulkRerunURLs? ==> r == HttpRequest(POST, ["bulk", "rerun"], None, IdsBody(c.ids))
    ensures (r.verb == DELETE) <==> c.DeleteURL?
  {
    match c
    case Login(u, p) => HttpRequest(POST, ["auth", "login"], None, LoginBody(u, p))
    case Register(u, e, p) => HttpRequest(POST, ["auth", "register"], None, RegisterBody(u, e, p))
    case GetURLs(q) => HttpRequest(GET, ["urls"], Some(q), NoBody)
    case CreateURL(u) => HttpRequest(POST, ["urls"], None, UrlBody(u))
    case GetURL(id) => HttpRequest(GET, ["urls", IntToString(id)], None, NoBody)
    case StartCrawling(id) => HttpRequest(PUT, ["urls", IntToString(id), "start"], None, NoBody)
    case StopCrawling(id) => HttpRequest(PUT, ["urls", IntToString(id), "stop"], None, NoBody)
    case DeleteURL(id) => HttpRequest(DELETE, ["urls", IntToString(id)], None, NoBody)
    case GetResults(id) => HttpRequest(GET, ["urls", IntToString(id), "results"], None, NoBody)
    case RerunURL(id) => HttpRequest(PUT, ["urls", IntToString(id), "rerun"], None, NoBody)
    case GetBrokenLinks(rid) => HttpRequest(GET, ["results", IntToString(rid), "broken-links"], None, NoBody)
    case BulkDeleteURLs(ids) => HttpRequest(POST, ["bulk", "delete"], None, IdsBody(ids))
    case BulkRerunURLs(ids) => HttpRequest(POST, ["bulk", "rerun"], None, IdsBody(ids))
    case HealthCheck => HttpRequest(GET, ["health"], None, NoBody)
  }

  /** The id segment of a per-item path is parsed by the server back to the client's id. */
  lemma ItemPathCarriesId(c: ApiCall)
    requires IsItemCall(c)
    ensures |Route(c).path| >= 2 && Atoi(Route(c).path[1]) == Some(c.id)
  {
    AtoiOfIntToString(c.id);
  }

  /** No two different calls send the same request. */
  lemma RouteInjective(a: ApiCall, b: ApiCall)
    requires Route(a) == Route(b)
    ensures a == b
  {
    AtoiIdentifies(a);
    AtoiIdentifies(b);
  }

  /** Where a call's path carries a number, that number is the call's own id. */
  lemma AtoiIdentifies(c: ApiCall)
    ensures IsItemCall(c) ==> Atoi(Route(c).path[1]) == Some(c.id)
    ensures c.GetBrokenLinks? ==> Atoi(Route(c).path[1]) == Some(c.resultId)
  {
    if IsItemCall(c) { AtoiOfIntToString(c.id); }
    if c.GetBrokenLinks? { AtoiOfIntToString(c.resultId); }
  }

  /** A failed call: the HTTP status of the error response, or none when no response arrived. */
  datatype ApiError = ApiError(status: Option<int>)

  /** The headers of one outgoing request; the request interceptor edits them in place. */
  class RequestConfig {
    var headers: map<string, string>

    constructor (headers: map<string, string>)
      ensures this.headers == headers
    {
      this.headers := headers;
    }
  }

  /** The headers after the interceptor ran, for a given stored token. */
  function WithBearer(headers: map<string, string>, token: Option<string>): (r: map<string, string>)
    ensures token.Some? && token.value != "" ==> r == headers["Authorization" := "Bearer " + token.value]
    ensures token.None? || token.value == "" ==> r == headers
  {
    match token
    case Some(t) => if t != "" then headers["Authorization" := "Bearer " + t] else headers
    case None => headers
  }

  /** The browser state the interceptors touch: `localStorage` and `window.location.href`. */
  class Browser {
    var storage: map<string, string>
    var location: string

    constructor (storage: map<string, string>, location: string)
      ensures this.storage == storage && this.location == location
    {
      this.storage := storage;
      this.location := location;
    }

    function StoredToken(): (t: Option<string>)
      reads this
      ensures t.Some? <==> "token" in storage
      ensures t.Some? ==> t.value == storage["token"]
    {
      if "token" in storage then Some(storage["token"]) else None
    }

    /** The request interceptor: a stored, non-empty token becomes a bearer header. */
    method InterceptRequest(config: RequestConfig)
      modifies config
      ensures config.headers == WithBearer(old(config.headers), StoredToken())
    {
      var token := StoredToken();
      if token.Some? && token.value != "" {
        config.headers := config.headers["Authorization" := "Bearer " + token.value];
      }
    }

    /**
     * The response interceptor. A success passes through; an error is rejected again
     * unchanged, after a 401 has removed the stored session and redirected to the
     * login page.
     */
    method InterceptResponse<T>(outcome: Result<T, ApiError>) returns (r: Result<T, ApiError>)
      modifies this
      ensures r == outcome
      ensures outcome.Err? && outcome.error.status == Some(401) ==>
        storage == old(storage) - {"token", "user"} && location == "/login"
      ensures !(outcome.Err? && outcome.error.status == Some(401)) ==>
        storage == old(storage) && location == old(location)
    {
      r := outcome;
      if outcome.Err? && outcome.error.status == Some(401) {
        storage := storage - {"token"};
        storage := storage - {"user"};
        location := "/login";
      }
    }
  }
}
