/**
 * The job details page: it loads one job, and, when the job has a result, the full
 * result with its broken links; a rerun asks the back end to crawl again and reloads
 * the same way. A failure of the detailed-result request is tolerated (the job's own
 * summary stays); a failure of the job request shows an error screen.
 */
module URLDetails {
  import opened Wrappers
  import opened Models
  import opened Api

  const LoadFailedMessage := "Failed to load URL details. Please try again."
  const RerunFailedMessage := "Failed to rerun crawl. Please try again."
  const NotFoundMessage := "URL not found"

  /** What the page renders. */
  datatype View = Loading | ErrorScreen(message: string) | Details(item: URLItem)

  /** `getStatusColor` over the status text; anything else is grey. */
  function StatusColor(status: string): (r: string)
    ensures status == Completed.Name() ==> r == "text-green-600 bg-green-100"
    ensures status == Running.Name() ==> r == "text-blue-600 bg-blue-100"
    ensures status == Failed.Name() ==> r == "text-red-600 bg-red-100"
    ensures status == Queued.Name() ==> r == "text-yellow-600 bg-yellow-100"
    ensures ParseStatus(status).None? ==> r == "text-gray-600 bg-gray-100"
  {
    match status
    case "completed" => "text-green-600 bg-green-100"
    case "running" => "text-blue-600 bg-blue-100"
    case "failed" => "text-red-600 bg-red-100"
    case "queued" => "text-yellow-600 bg-yellow-100"
    case _ => "text-gray-600 bg-gray-100"
  }

  /** Every status has its own colour, and none is the fallback grey. */
  lemma StatusColorsDistinct(a: Status, b: Status)
    ensures StatusColor(a.Name()) == StatusColor(b.Name()) ==> a == b
    ensures StatusColor(a.Name()) != "text-gray-600 bg-gray-100"
  {
  }

  /** The pie chart's slices, in label order: internal, external, broken. */
  function LinkSlices(r: CrawlResult): (d: seq<(string, int)>)
    ensures |d| == 3
    ensures d[0] == ("Internal Links", r.internalLinks)
    ensures d[1] == ("External Links", r.externalLinks)
    ensures d[2] == ("Broken Links", r.inaccessibleLinks)
  {
    [("Internal Links", r.internalLinks), ("External Links", r.externalLinks),
     ("Broken Links", r.inaccessibleLinks)]
  }

  /** The bar chart's bars, H1 to H6. */
  function HeadingBars(r: CrawlResult): (d: seq<(string, int)>)
    ensures |d| == 6
    ensures d[0] == ("H1", r.h1) && d[1] == ("H2", r.h2) && d[2] == ("H3", r.h3)
    ensures d[3] == ("H4", r.h4) && d[4] == ("H5", r.h5) && d[5] == ("H6", r.h6)
  {
    [("H1", r.h1), ("H2", r.h2), ("H3", r.h3), ("H4", r.h4), ("H5", r.h5), ("H6", r.h6)]
  }

  /** The summary cells, with their fallbacks for empty values. */
  function TitleText(r: CrawlResult): (t: string)
    ensures t != ""
    ensures r.title != "" ==> t == r.title
  {
    if r.title != "" then r.title else "No title found"
  }

  function VersionText(r: CrawlResult): (t: string)
    ensures t != ""
    ensures r.htmlVersion != "" ==> t == r.htmlVersion
  {
    if r.htmlVersion != "" then r.htmlVersion else "Unknown"
  }

  class DetailsPage {
    var url: Option<URLItem>
    var result: Option<CrawlResult>
    var brokenLinks: seq<BrokenLink>
    var loading: bool
    var error: Option<string>
    var rerunning: bool
    /** The requests this page sent, in order. */
    var sent: seq<ApiCall>

    constructor ()
      ensures url == None && result == None && brokenLinks == [] && loading
      ensures error == None && !rerunning && sent == []
    {
      url := None;
      result := None;
      brokenLinks := [];
      loading := true;
      error := None;
      rerunning := false;
      sent := [];
    }

    /** The screen: the spinner while loading, the error screen on an error or no job, else the details. */
    function CurrentView(): (v: View)
      reads this
      ensures loading ==> v == Loading
      ensures !loading && error.Some? ==> v == ErrorScreen(error.value)
      ensures !loading && error.None? && url.None? ==> v == ErrorScreen(NotFoundMessage)
      ensures v.Details? <==> !loading && error.None? && url.Some?
    {
      if loading then Loading
      else if error.Some? then ErrorScreen(error.value)
      else if url.None? then ErrorScreen(NotFoundMessage)
      else Details(url.value)
    }

    /** The link chart, drawn only when the page holds a result. */
    function LinkChartData(): (d: Option<seq<(string, int)>>)
      reads this
      ensures d.Some? <==> result.Some?
      ensures d.Some? ==> |d.value| == 3
      ensures d.Some? ==> d.value[0].1 == result.value.internalLinks && d.value[1].1 == result.value.externalLinks
      ensures d.Some? ==> d.value[2].1 == result.value.inaccessibleLinks
    {
      if result.Some? then Some(LinkSlices(result.value)) else None
    }

    /** The heading chart, drawn only when the page holds a result. */
    function HeadingChartData(): (d: Option<seq<(string, int)>>)
      reads this
      ensures d.Some? <==> result.Some?
      ensures d.Some? ==> |d.value| == 6 && d.value[0].1 == result.value.h1 && d.value[5].1 == result.value.h6
    {
      if result.Some? then Some(HeadingBars(result.value)) else None
    }

    /** The rerun buttons are disabled during a rerun and while the job is running. */
    function RerunDisabled(): (b: bool)
      reads this
      requires url.Some?
      ensures b <==> rerunning || url.value.status == Running
    {
      rerunning || url.value.status == Running
    }

    /**
     * Loading the detailed result of a job that has one: on success it replaces the
     * summary and supplies the broken links (none when the field is absent); on
     * failure the summary stays.
     */
    method LoadResults(id: int, getResults: Result<CrawlResult, ApiError>)
      modifies this
      ensures sent == old(sent) + [GetResults(id)]
      ensures getResults.Ok? ==>
        result == Some(getResults.value) && brokenLinks == getResults.value.brokenLinks.GetOr([])
      ensures getResults.Ok? ==>
        LinkChartData() == Some(LinkSlices(getResults.value)) &&
        HeadingChartData() == Some(HeadingBars(getResults.value))
      ensures getResults.Err? ==> result == old(result) && brokenLinks == old(brokenLinks)
      ensures getResults.Err? ==> LinkChartData() == old(LinkChartData()) && HeadingChartData() == old(HeadingChartData())
      ensures url == old(url) && loading == old(loading) && error == old(error)
      ensures rerunning == old(rerunning)
    {
      sent := sent + [GetResults(id)];
      if getResults.Ok? {
        result := Some(getResults.value);
        brokenLinks := getResults.value.brokenLinks.GetOr([]);
      }
    }

    /**
     * The effect on the route id: no id, nothing happens; otherwise load the job,
     * then its detailed result when it has one.
     */
    method FetchURLDetails(id: Option<int>, getUrl: Result<URLItem, ApiError>,
                           getResults: Result<CrawlResult, ApiError>)
      modifies this
      ensures id.None? ==>
        url == old(url) && result == old(result) && loading == old(loading) &&
        error == old(error) && sent == old(sent) && brokenLinks == old(brokenLinks)
      ensures id.Some? ==> !loading && rerunning == old(rerunning)
      ensures id.Some? && getUrl.Err? ==>
        error == Some(LoadFailedMessage) && sent == old(sent) + [GetURL(id.value)] &&
        url == old(url) && result == old(result) && CurrentView() == ErrorScreen(LoadFailedMessage)
      ensures id.Some? && getUrl.Ok? ==> error == None && url == Some(getUrl.value)
      ensures id.Some? && getUrl.Ok? && getUrl.value.result.None? ==>
        sent == old(sent) + [GetURL(id.value)] && result == old(result) && brokenLinks == old(brokenLinks) &&
        CurrentView() == Details(getUrl.value)
      ensures id.Some? && getUrl.Ok? && getUrl.value.result.Some? ==>
        sent == old(sent) + [GetURL(id.value), GetResults(id.value)] &&
        (getResults.Ok? ==>
          result == Some(getResults.value) && brokenLinks == getResults.value.brokenLinks.GetOr([])) &&
        (getResults.Err? ==> result == getUrl.value.result && brokenLinks == old(brokenLinks))
    ensures id.Some? && getUrl.Ok? && getUrl.value.result.Some? ==>
      var shown := if getResults.Ok? then getResults.value else getUrl.value.result.value;
      LinkChartData() == Some(LinkSlices(shown)) && HeadingChartData() == Some(HeadingBars(shown))
    {
      if id.None? {
        return;
      }
      loading := true;
      error := None;
      sent := sent + [GetURL(id.value)];
      match getUrl {
        case Err(_) =>
          error := Some(LoadFailedMessage);
        case Ok(item) =>
          url := Some(item);
          if item.result.Some? {
            result := item.result;
            LoadResults(id.value, getResults);
          }
      }
      loading := false;
    }

    /**
     * `handleRerun`: without a job, nothing; otherwise request a rerun and reload the
     * job, clearing the old result and broken links first. Either request failing
     * shows the rerun error, which replaces the page until the next load.
     */
    method HandleRerun(rerun: Result<(), ApiError>, getUrl: Result<URLItem, ApiError>,
                       getResults: Result<CrawlResult, ApiError>)
      modifies this
      ensures old(url).None? ==>
        url == old(url) && result == old(result) && error == old(error) &&
        sent == old(sent) && rerunning == old(rerunning) && brokenLinks == old(brokenLinks)
      ensures old(url).Some? ==> !rerunning && loading == old(loading)
      ensures old(url).Some? ==> url.Some? && (RerunDisabled() <==> url.value.status == Running)
      ensures old(url).Some? && rerun.Err? ==>
        sent == old(sent) + [RerunURL(old(url).value.id)] && error == Some(RerunFailedMessage) &&
        url == old(url) && result == old(result) && brokenLinks == old(brokenLinks) &&
        (!loading ==> CurrentView() == ErrorScreen(RerunFailedMessage))
      ensures old(url).Some? && rerun.Ok? && getUrl.Err? ==>
        sent == old(sent) + [RerunURL(old(url).value.id), GetURL(old(url).value.id)] &&
        error == Some(RerunFailedMessage) && url == old(url) && result == old(result) &&
        (!loading ==> CurrentView() == ErrorScreen(RerunFailedMessage))
      ensures old(url).Some? && rerun.Ok? && getUrl.Ok? ==>
        url == Some(getUrl.value) && error == old(error)
      ensures old(url).Some? && rerun.Ok? && getUrl.Ok? && getUrl.value.result.None? ==>
        sent == old(sent) + [RerunURL(old(url).value.id), GetURL(old(url).value.id)] &&
        result == None && brokenLinks == [] && LinkChartData().None? && HeadingChartData().None?
      ensures old(url).Some? && rerun.Ok? && getUrl.Ok? && getUrl.value.result.Some? ==>
        sent == old(sent) + [RerunURL(old(url).value.id), GetURL(old(url).value.id),
                             GetResults(old(url).value.id)] &&
        (getResults.Ok? ==>
          result == Some(getResults.value) && brokenLinks == getResults.value.brokenLinks.GetOr([])) &&
        (getResults.Err? ==> result == getUrl.value.result && brokenLinks == [])
    {
      if url.None? {
        return;
      }
      var id := url.value.id;
      rerunning := true;
      sent := sent + [RerunURL(id)];
      if rerun.Err? {
        error := Some(RerunFailedMessage);
      } else {
        sent := sent + [GetURL(id)];
        match getUrl {
          case Err(_) =>
            error := Some(RerunFailedMessage);
          case Ok(item) =>
            url := Some(item);
            result := item.result;
            brokenLinks := [];
            if item.result.Some? {
              LoadResults(id, getResults);
            }
        }
      }
      rerunning := false;
    }
  }
}
