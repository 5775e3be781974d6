/**
 * The records exchanged between the back end and the front end: a crawl job, its
 * analysis result, the broken links found by a crawl and one page of the job list.
 * The JSON shape is the same on both sides, so one set of datatypes serves both.
 * Timestamps are not part of this model.
 */
module Models {
  import opened Wrappers

  /** The job lifecycle: the `status` column's enumeration. */
  datatype Status = Queued | Running | Completed | Failed {
    function Name(): string {
      match this
      case Queued => "queued"
      case Running => "running"
      case Completed => "completed"
      case Failed => "failed"
    }
  }

  function ParseStatus(s: string): (r: Option<Status>)
    ensures r.Some? ==> r.value.Name() == s
  {
    if s == "queued" then Some(Queued)
    else if s == "running" then Some(Running)
    else if s == "completed" then Some(Completed)
    else if s == "failed" then Some(Failed)
    else None
  }

  /** Distinct statuses have distinct names, and each name reads back as its status. */
  lemma StatusNameRoundTrip(st: Status)
    ensures ParseStatus(st.Name()) == Some(st)
  {
  }

  datatype BrokenLink = BrokenLink(id: int, resultId: int, url: string, statusCode: int, errorMessage: string)

  datatype CrawlResult = CrawlResult(
    id: int,
    urlId: int,
    title: string,
    htmlVersion: string,
    h1: int, h2: int, h3: int, h4: int, h5: int, h6: int,
    internalLinks: int,
    externalLinks: int,
    inaccessibleLinks: int,
    hasLoginForm: bool,
    brokenLinks: Option<seq<BrokenLink>>)

  datatype URLItem = URLItem(id: int, userId: int, url: string, status: Status, result: Option<CrawlResult>)

  /** One page of the job list as the list endpoint returns it. */
  datatype Page = Page(data: seq<URLItem>, page: int, pageSize: int, total: int, totalPages: int)

  datatype Direction = Asc | Desc {
    function Name(): string {
      match this
      case Asc => "asc"
      case Desc => "desc"
    }
  }

  datatype TableSort = TableSort(column: string, direction: Direction)
}
