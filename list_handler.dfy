/**
 * `GET /urls`: one page of the caller's jobs. The handler reads six query parameters,
 * builds a list query and a count query with the same filter, runs the count, adds
 * `LIMIT`/`OFFSET`, maps the scanned rows to jobs and replies with the page and the
 * page count. The SQL text is written on one line; the store's answers to the two
 * queries are parameters.
 */
module ListHandler {
  import opened Wrappers
  import opened Strings
  import opened Models
  import opened Database
  import opened Responses
  import opened Api
  import UrlHandlers

  /** The decoded query string. */
  type QueryMap = map<string, string>

  /** gin's `DefaultQuery`: the value when the key is present (even if empty), else the fallback. */
  function DefaultQuery(q: QueryMap, key: string, fallback: string): (r: string)
    ensures key in q ==> r == q[key]
    ensures key !in q ==> r == fallback
  {
    if key in q then q[key] else fallback
  }

  /** `n, _ := strconv.Atoi(s)`: a value that does not parse reads as 0. */
  function AtoiOrZero(s: string): (n: int)
    ensures Atoi(s).Some? ==> n == Atoi(s).value
    ensures Atoi(s).None? ==> n == 0
  {
    match Atoi(s)
    case Some(v) => v
    case None => 0
  }

  datatype ListRequest = ListRequest(
    page: int, pageSize: int, search: string, status: string, sortBy: string, sortOrder: string)

  /** The parameters with their defaults: page 1, page size 10, sorted by creation time, descending. */
  function ParseListRequest(q: QueryMap): (r: ListRequest)
    ensures "page" !in q ==> r.page == 1
    ensures "page_size" !in q ==> r.pageSize == 10
    ensures "search" !in q ==> r.search == ""
    ensures "status" !in q ==> r.status == ""
    ensures "sort_by" !in q ==> r.sortBy == "created_at"
    ensures "sort_order" !in q ==> r.sortOrder == "desc"
    ensures "page" in q ==> r.page == AtoiOrZero(q["page"])
    ensures "page_size" in q ==> r.pageSize == AtoiOrZero(q["page_size"])
  {
    assert Atoi("1") == Some(1) by { AtoiOfIntToString(1); }
    assert Atoi("10") == Some(10) by { AtoiOfIntToString(10); assert IntToString(10) == "10"; }
    ListRequest(
      AtoiOrZero(DefaultQuery(q, "page", "1")),
      AtoiOrZero(DefaultQuery(q, "page_size", "10")),
      DefaultQuery(q, "search", ""),
      DefaultQuery(q, "status", ""),
      DefaultQuery(q, "sort_by", "created_at"),
      DefaultQuery(q, "sort_order", "desc"))
  }

  /** The query string the client's request carries: every parameter, numbers in decimal. */
  function QueryOf(p: ListParams): (q: QueryMap)
    ensures q.Keys == {"page", "page_size", "search", "status", "sort_by", "sort_order"}
  {
    map["page" := IntToString(p.page), "page_size" := IntToString(p.pageSize),
        "search" := p.search, "status" := p.status,
        "sort_by" := p.sortBy, "sort_order" := p.sortOrder]
  }

  /** What the client sends is what the handler reads, parameter for parameter. */
  lemma ParamsSurviveTheWire(p: ListParams)
    ensures ParseListRequest(QueryOf(p)) ==
      ListRequest(p.page, p.pageSize, p.search, p.status, p.sortBy, p.sortOrder)
  {
    AtoiOfIntToString(p.page);
    AtoiOfIntToString(p.pageSize);
  }

  // ---- the SQL text ----

  const SelectColumns := "SELECT u.id, u.url, u.status, u.created_at, u.updated_at, r.id, r.title, r.html_version, r.h1_count, r.h2_count, r.h3_count, r.h4_count, r.h5_count, r.h6_count, r.internal_links, r.external_links, r.inaccessible_links, r.has_login_form FROM urls u LEFT JOIN crawl_results r ON u.id = r.url_id"
  const CountColumns := "SELECT COUNT(*) FROM urls u LEFT JOIN crawl_results r ON u.id = r.url_id"
  const OwnerClause := " WHERE u.user_id = ?"
  const SearchClause := " AND (u.url LIKE ? OR r.title LIKE ?)"
  const StatusClause := " AND u.status = ?"
  const LimitClause := " LIMIT ? OFFSET ?"

  /** The `LIKE` pattern of a substring search. */
  function Like(search: string): (p: string)
    ensures |p| == |search| + 2 && p[0] == '%' && p[|p| - 1] == '%' && p[1..|p| - 1] == search
  {
    "%" + search + "%"
  }

  /** The filter clauses both queries share; an empty parameter adds no clause. */
  function FilterClause(search: string, status: string): string {
    (if search != "" then SearchClause else "") + (if status != "" then StatusClause else "")
  }

  /** The filter arguments both queries share, in placeholder order. */
  function FilterArgs(search: string, status: string): (args: seq<Arg>)
    ensures |args| == (if search != "" then 2 else 0) + (if status != "" then 1 else 0)
    ensures search != "" ==> args[0] == args[1] == TextArg(Like(search))
    ensures status != "" ==> args[|args| - 1] == TextArg(status)
  {
    (if search != "" then [TextArg(Like(search)), TextArg(Like(search))] else [])
      + (if status != "" then [TextArg(status)] else [])
  }

  /** The three result columns; every other `sort_by` is taken as a column of the job table. */
  const ResultSortColumns := {"title", "internal_links", "external_links"}

  /** The qualified sort column. */
  function SortColumn(sortBy: string): (r: string)
    ensures r == (if sortBy in ResultSortColumns then "r." else "u.") + sortBy
  {
    if sortBy == "title" then "r.title"
    else if sortBy == "internal_links" then "r.internal_links"
    else if sortBy == "external_links" then "r.external_links"
    else "u." + sortBy
  }

  /** `asc` sorts ascending; every other value, the default included, descending. */
  function SortDirection(sortOrder: string): (r: string)
    ensures r == " ASC" <==> sortOrder == "asc"
    ensures r == " ASC" || r == " DESC"
  {
    if sortOrder == "asc" then " ASC" else " DESC"
  }

  function OrderClause(sortBy: string, sortOrder: string): string {
    " ORDER BY " + SortColumn(sortBy) + SortDirection(sortOrder)
  }

  /** The list query before paging. */
  function ListSql(req: ListRequest): string {
    SelectColumns + OwnerClause + FilterClause(req.search, req.status) + OrderClause(req.sortBy, req.sortOrder)
  }

  function CountSql(req: ListRequest): string {
    CountColumns + OwnerClause + FilterClause(req.search, req.status)
  }

  function FilterArgsOf(userId: int, req: ListRequest): seq<Arg> {
    [IntArg(userId)] + FilterArgs(req.search, req.status)
  }

  /** The rows skipped before the page. */
  function Offset(req: ListRequest): int {
    (req.page - 1) * req.pageSize
  }

  /** The filter step, written out once for each query in the handler. */
  method AppendFilters(query0: string, args0: seq<Arg>, search: string, status: string)
    returns (query: string, args: seq<Arg>)
    ensures query == query0 + FilterClause(search, status)
    ensures args == args0 + FilterArgs(search, status)
  {
    query, args := query0, args0;
    if search != "" {
      query := query + SearchClause;
      var searchParam := Like(search);
      args := args + [TextArg(searchParam), TextArg(searchParam)];
    }
    if status != "" {
      query := query + StatusClause;
      args := args + [TextArg(status)];
    }
  }

  lemma Associative(a: string, b: string, c: string)
    ensures (a + b) + c == a + (b + c)
  {
  }

  /** The sort column step: a result column, or the job column named by `sort_by`. */
  method AppendSortColumn(query0: string, sortBy: string) returns (query: string)
    ensures query == query0 + (" ORDER BY " + SortColumn(sortBy))
  {
    var clause;
    if sortBy == "title" {
      clause := " ORDER BY " + "r.title";
    } else if sortBy == "internal_links" {
      clause := " ORDER BY " + "r.internal_links";
    } else if sortBy == "external_links" {
      clause := " ORDER BY " + "r.external_links";
    } else {
      clause := " ORDER BY u." + sortBy;
      Associative(" ORDER BY ", "u.", sortBy);
    }
    query := query0 + clause;
  }

  /** The sort step: the column, then the direction. */
  method AppendOrder(query0: string, sortBy: string, sortOrder: string) returns (query: string)
    ensures query == query0 + OrderClause(sortBy, sortOrder)
  {
    query := AppendSortColumn(query0, sortBy);
    if sortOrder == "asc" {
      query := query + " ASC";
    } else {
      query := query + " DESC";
    }
    Associative(query0, " ORDER BY " + SortColumn(sortBy), SortDirection(sortOrder));
  }

  /**
   * The two queries built clause by clause: the list query and the count query get the
   * same filter clauses and the same arguments.
   */
  method BuildListQuery(userId: int, req: ListRequest)
    returns (query: string, args: seq<Arg>, countQuery: string, countArgs: seq<Arg>)
    ensures query == ListSql(req) && countQuery == CountSql(req)
    ensures args == countArgs == FilterArgsOf(userId, req)
  {
    query, args := AppendFilters(SelectColumns + OwnerClause, [IntArg(userId)], req.search, req.status);
    query := AppendOrder(query, req.sortBy, req.sortOrder);
    countQuery, countArgs := AppendFilters(CountColumns + OwnerClause, [IntArg(userId)], req.search, req.status);
  }

  // ---- rows to jobs ----

  /** One row of the list query as scanned; NULL result columns read as zero values. */
  datatype ListRowScan = ListRowScan(id: int, url: string, status: Status, resultId: Option<int>, analysis: Analysis)

  /** The job a scanned row becomes: the caller's, with a result iff the joined result exists. */
  function RowItem(s: ListRowScan, userId: int): (item: URLItem)
    ensures item.id == s.id && item.userId == userId && item.url == s.url && item.status == s.status
    ensures item.result.Some? <==> s.resultId.Some?
    ensures item.result.Some? ==>
      item.result.value.id == s.resultId.value && item.result.value.urlId == s.id &&
      item.result.value.title == s.analysis.title && item.result.value.brokenLinks.None?
  {
    URLItem(s.id, userId, s.url, s.status,
      if s.resultId.Some? then Some(UrlHandlers.ResultOf(s.resultId.value, s.id, s.analysis, None)) else None)
  }

  /** The jobs of the rows that scanned, in row order. */
  function ItemsOf(rows: seq<Option<ListRowScan>>, userId: int): (r: seq<URLItem>)
    ensures |r| <= |rows|
    ensures forall i :: 0 <= i < |r| ==> r[i].userId == userId
  {
    if rows == [] then []
    else
      var rest := ItemsOf(rows[..|rows| - 1], userId);
      match rows[|rows| - 1]
      case None => rest
      case Some(s) => rest + [RowItem(s, userId)]
  }

  /** When every row scans, the page holds one job per row, in the same order. */
  lemma {:induction false} ItemsOfAllScanned(rows: seq<Option<ListRowScan>>, userId: int)
    requires forall i :: 0 <= i < |rows| ==> rows[i].Some?
    ensures |ItemsOf(rows, userId)| == |rows|
    ensures forall i :: 0 <= i < |rows| ==> ItemsOf(rows, userId)[i] == RowItem(rows[i].value, userId)
  {
    if rows != [] {
      var init := rows[..|rows| - 1];
      ItemsOfAllScanned(init, userId);
    }
  }

  /**
   * A Go slice built by appending, as JSON encodes it: a slice that nothing was
   * appended to is nil and encodes as `null`.
   */
  function NilSliceData(items: seq<URLItem>): (data: Option<seq<URLItem>>)
    ensures data.None? <==> items == []
    ensures data.Some? ==> data.value == items
  {
    if items == [] then None else Some(items)
  }

  /** A page with no rows carries `null` where the client expects a list. */
  lemma {:induction false} NoRowsEncodeAsNull(userId: int)
    ensures NilSliceData(ItemsOf([], userId)).None?
  {
    assert ItemsOf([], userId) == [];
  }

  /** The row loop. A slice nothing was appended to stays nil. */
  method MapRows(rows: seq<Option<ListRowScan>>, userId: int) returns (urls: Option<seq<URLItem>>)
    ensures urls == NilSliceData(ItemsOf(rows, userId))
  {
    urls := None;
    var i := 0;
    while i < |rows|
      invariant 0 <= i <= |rows|
      invariant urls.None? <==> ItemsOf(rows[..i], userId) == []
      invariant urls.Some? ==> urls.value == ItemsOf(rows[..i], userId)
    {
      assert rows[..i + 1][..i] == rows[..i];
      match rows[i] {
        case None =>
        case Some(s) =>
          urls := Some(urls.GetOr([]) + [RowItem(s, userId)]);
      }
      i := i + 1;
    }
    assert rows[..|rows|] == rows;
  }

  // ---- page count ----

  /** Go's `/` on integers: the quotient truncated toward zero. */
  function GoDiv(a: int, b: int): (q: int)
    requires b != 0
    ensures a >= 0 && b > 0 ==> q == a / b
    ensures (a >= 0) == (b > 0) ==> q >= 0
    ensures (a >= 0) != (b > 0) ==> q <= 0
  {
    if a >= 0 && b > 0 then a / b
    else if a >= 0 then -(a / -b)
    else if b > 0 then -((-a) / b)
    else (-a) / (-b)
  }

  /** The remainder left by `GoDiv` is smaller than the divisor and has the dividend's sign. */
  lemma GoDivTruncates(a: int, b: int)
    requires b != 0
    ensures var r := a - GoDiv(a, b) * b;
      (r == 0 || (r > 0) == (a > 0)) && (if r < 0 then -r else r) < (if b < 0 then -b else b)
  {
  }

  function TotalPages(total: int, pageSize: int): int
    requires pageSize != 0
  {
    GoDiv(total + pageSize - 1, pageSize)
  }

  /** For a positive page size the page count is the ceiling of total over page size. */
  lemma TotalPagesIsCeiling(total: int, pageSize: int)
    requires total >= 0 && pageSize > 0
    ensures (TotalPages(total, pageSize) - 1) * pageSize < total <= TotalPages(total, pageSize) * pageSize
    ensures total == 0 <==> TotalPages(total, pageSize) == 0
    ensures TotalPages(total, pageSize) == (total + pageSize - 1) / pageSize
  {
    var n := total + pageSize - 1;
    var t := n / pageSize;
    assert TotalPages(total, pageSize) == t;
    assert t * pageSize + n % pageSize == n;
    assert 0 <= n % pageSize < pageSize;
    assert (t - 1) * pageSize == t * pageSize - pageSize;
    if total == 0 {
      assert n < pageSize;
    } else {
      assert t * pageSize >= total;
      assert n >= pageSize;
      assert t > 0;
    }
  }

  // ---- the handler ----

  /**
   * The handler as written. The rows are the list query's answer (`None` when it fails);
   * `count` the count query's. A page size of 0 reaches the page-count division and
   * panics. A page without rows encodes its nil slice as `"data": null`.
   */
  method GetURLs(userId: int, q: QueryMap, count: Option<int>, rows: Option<seq<Option<ListRowScan>>>)
    returns (resp: Response, countQuery: (string, seq<Arg>), listQuery: Option<(string, seq<Arg>)>)
    ensures var req := ParseListRequest(q);
      countQuery == (CountSql(req), FilterArgsOf(userId, req)) &&
      (count.None? ==> resp == Error(StatusInternalServerError, "Failed to get count") && listQuery.None?) &&
      (count.Some? ==> listQuery == Some((ListSql(req) + LimitClause,
                         FilterArgsOf(userId, req) + [IntArg(req.pageSize), IntArg(Offset(req))]))) &&
      (count.Some? && rows.None? ==> resp == Error(StatusInternalServerError, "Failed to get URLs")) &&
      (count.Some? && rows.Some? && req.pageSize == 0 ==> resp == Panic) &&
      (count.Some? && rows.Some? && req.pageSize != 0 ==>
        resp == Reply(StatusOK, PageBody(NilSliceData(ItemsOf(rows.value, userId)),
                      count.value, req.page, req.pageSize, TotalPages(count.value, req.pageSize))))
  {
    var req := ParseListRequest(q);
    var query, args, cq, cargs := BuildListQuery(userId, req);
    countQuery := (cq, cargs);
    listQuery := None;
    if count.None? {
      return Error(StatusInternalServerError, "Failed to get count"), countQuery, None;
    }
    var total := count.value;
    var offset := Offset(req);
    query := query + LimitClause;
    args := args + [IntArg(req.pageSize), IntArg(offset)];
    listQuery := Some((query, args));
    if rows.None? {
      return Error(StatusInternalServerError, "Failed to get URLs"), countQuery, listQuery;
    }
    var urls := MapRows(rows.value, userId);
    if req.pageSize == 0 {
      return Panic, countQuery, listQuery;
    }
    var totalPages := TotalPages(total, req.pageSize);
    resp := Reply(StatusOK, PageBody(urls, total, req.page, req.pageSize, totalPages));
  }

  /**
   * The handler as evidently intended: the same queries and page, but the job list
   * starts empty, so a page without rows is the empty array the client's table indexes.
   */
  method GetURLsCorrected(userId: int, q: QueryMap, count: Option<int>, rows: Option<seq<Option<ListRowScan>>>)
    returns (resp: Response, countQuery: (string, seq<Arg>), listQuery: Option<(string, seq<Arg>)>)
    ensures var req := ParseListRequest(q);
      countQuery == (CountSql(req), FilterArgsOf(userId, req)) &&
      (count.None? ==> resp == Error(StatusInternalServerError, "Failed to get count") && listQuery.None?) &&
      (count.Some? ==> listQuery == Some((ListSql(req) + LimitClause,
                         FilterArgsOf(userId, req) + [IntArg(req.pageSize), IntArg(Offset(req))]))) &&
      (count.Some? && rows.None? ==> resp == Error(StatusInternalServerError, "Failed to get URLs")) &&
      (count.Some? && rows.Some? && req.pageSize == 0 ==> resp == Panic) &&
      (count.Some? && rows.Some? && req.pageSize != 0 ==>
        resp == Reply(StatusOK, PageBody(Some(ItemsOf(rows.value, userId)),
                      count.value, req.page, req.pageSize, TotalPages(count.value, req.pageSize))))
    ensures resp.Reply? && resp.body.PageBody? ==> resp.body.data.Some?
  {
    var req := ParseListRequest(q);
    var query, args, cq, cargs := BuildListQuery(userId, req);
    countQuery := (cq, cargs);
    listQuery := None;
    if count.None? {
      return Error(StatusInternalServerError, "Failed to get count"), countQuery, None;
    }
    var total := count.value;
    var offset := Offset(req);
    query := query + LimitClause;
    args := args + [IntArg(req.pageSize), IntArg(offset)];
    listQuery := Some((query, args));
    if rows.None? {
      return Error(StatusInternalServerError, "Failed to get URLs"), countQuery, listQuery;
    }
    var urls := MapRows(rows.value, userId);
    if req.pageSize == 0 {
      return Panic, countQuery, listQuery;
    }
    var totalPages := TotalPages(total, req.pageSize);
    resp := Reply(StatusOK, PageBody(Some(urls.GetOr([])), total, req.page, req.pageSize, totalPages));
  }
}
