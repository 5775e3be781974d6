/**
 * The dashboard page: search, status filter, page and sort state feeding the job-list
 * hook, the bulk actions on the selection, the add-URL modal flag, and polling that
 * runs exactly while some listed job is queued or running. Each handler is one user
 * event followed by the re-render it causes.
 */
module Dashboard {
  import opened Wrappers
  import opened Models
  import opened Api
  import opened UseURLs
  import opened UsePolling
  import URLTable

  const PageSize := 10
  const PollInterval := 5000

  /** A job that polling waits on. */
  predicate IsActive(u: URLItem) {
    u.status == Running || u.status == Queued
  }

  /** `hasActiveCrawls`: some listed job is running or queued. */
  function HasActiveCrawls(urls: seq<URLItem>): (b: bool)
    ensures b <==> exists i :: 0 <= i < |urls| && IsActive(urls[i])
  {
    if urls == [] then false
    else
      assert forall i :: 1 <= i < |urls| ==> urls[i] == urls[1..][i - 1];
      IsActive(urls[0]) || HasActiveCrawls(urls[1..])
  }

  /** A list of finished jobs stops polling; adding an active job to any list starts it. */
  lemma ActiveCrawlsOfAppend(s: seq<URLItem>, t: seq<URLItem>)
    ensures HasActiveCrawls(s + t) <==> HasActiveCrawls(s) || HasActiveCrawls(t)
  {
    var st := s + t;
    if HasActiveCrawls(st) {
      var i :| 0 <= i < |st| && IsActive(st[i]);
      if i < |s| { assert st[i] == s[i]; } else { assert st[i] == t[i - |s|]; }
    }
    if HasActiveCrawls(s) {
      var i :| 0 <= i < |s| && IsActive(s[i]);
      assert st[i] == s[i];
    }
    if HasActiveCrawls(t) {
      var i :| 0 <= i < |t| && IsActive(t[i]);
      assert st[|s| + i] == t[i];
    }
  }

  /** The status select shows "all" for the empty filter and maps "all" back to it. */
  function FilterValue(selectValue: string): (r: string)
    ensures selectValue == "all" ==> r == ""
    ensures selectValue != "all" ==> r == selectValue
  {
    if selectValue == "all" then "" else selectValue
  }

  function SelectValue(statusFilter: string): string {
    if statusFilter == "" then "all" else statusFilter
  }

  /** Choosing what the select shows selects the same filter again. */
  lemma FilterSelectRoundTrip(statusFilter: string)
    requires statusFilter != "all"
    ensures FilterValue(SelectValue(statusFilter)) == statusFilter
  {
  }

  class Dashboard {
    var showAddModal: bool
    var search: string
    var statusFilter: string
    var selected: seq<int>
    var currentPage: int
    var sort: TableSort
    const hook: UrlsHook
    const poller: Poller<Options>
    const table: URLTable.ActionTracker

    /** The options this page passes to the job-list hook. */
    function HookOptions(): (o: Options)
      reads this
      ensures o.search == Some(search) && o.status == Some(statusFilter)
      ensures o.page == Some(currentPage) && o.pageSize == Some(PageSize)
      ensures o.sortBy == Some(sort.column) && o.sortOrder == Some(sort.direction.Name())
    {
      Options(Some(search), Some(statusFilter), Some(currentPage), Some(PageSize),
              Some(sort.column), Some(sort.direction.Name()))
    }

    /**
     * The hook sees this page's options, the list shown is the last fetched page, and
     * polling is on exactly while that list has an active job, calling the current
     * `refresh` every five seconds.
     */
    ghost predicate Valid()
      reads this, hook, poller
    {
      hook.options == HookOptions() && hook.Synced() &&
      poller.Valid() && poller.mounted &&
      poller.deps == Some(Deps(HasActiveCrawls(hook.urls), PollInterval, hook.options))
    }

    /** Mount: initial state, the hook's first fetch, then the polling effect. */
    constructor (response: Result<Page, ApiError>)
      ensures Valid()
      ensures !showAddModal && search == "" && statusFilter == "" && selected == []
      ensures currentPage == 1 && sort == TableSort("created_at", Desc)
      ensures hook.sent == [GetURLs(Params(HookOptions()))]
      ensures hook.pagination == ViewAfter(response)
      ensures poller.Polling() <==> HasActiveCrawls(hook.urls)
      ensures fresh(hook) && fresh(poller) && fresh(table)
    {
      showAddModal := false;
      search := "";
      statusFilter := "";
      selected := [];
      currentPage := 1;
      sort := TableSort("created_at", Desc);
      hook := new UrlsHook(Options(Some(""), Some(""), Some(1), Some(PageSize),
                                   Some("created_at"), Some(Desc.Name())));
      poller := new Poller();
      table := new URLTable.ActionTracker();
      new;
      hook.FetchURLs(response);
      poller.Render(HasActiveCrawls(hook.urls), PollInterval, hook.options);
    }

    /** The re-render after a state change: the hook sees the new options, then polling re-syncs. */
    method Render(response: Result<Page, ApiError>)
      requires hook.Synced() && poller.Valid() && poller.mounted
      modifies hook, poller
      ensures Valid()
      ensures old(hook.options) == HookOptions() ==> hook.sent == old(hook.sent) && hook.urls == old(hook.urls)
      ensures old(hook.options) != HookOptions() ==>
        hook.sent == old(hook.sent) + [GetURLs(Params(HookOptions()))] &&
        hook.pagination == ViewAfter(response)
      ensures poller.Polling() <==> HasActiveCrawls(hook.urls)
    {
      hook.Rerender(HookOptions(), response);
      SyncPolling();
    }

    /** The polling effect after a change of the list or of `refresh`. */
    method SyncPolling()
      requires hook.options == HookOptions() && hook.Synced() && poller.Valid() && poller.mounted
      modifies poller
      ensures Valid()
      ensures poller.Polling() <==> HasActiveCrawls(hook.urls)
    {
      poller.Render(HasActiveCrawls(hook.urls), PollInterval, hook.options);
    }

    method HandleSearchChange(value: string, response: Result<Page, ApiError>)
      requires Valid()
      modifies this, hook, poller
      ensures Valid()
      ensures search == value && currentPage == 1
      ensures statusFilter == old(statusFilter) && sort == old(sort) && selected == old(selected)
      ensures showAddModal == old(showAddModal)
      ensures old(search) == value && old(currentPage) == 1 ==> hook.sent == old(hook.sent)
      ensures old(search) != value ==> hook.sent == old(hook.sent) + [GetURLs(Params(HookOptions()))]
    {
      search := value;
      currentPage := 1;
      Render(response);
    }

    method HandleStatusFilterChange(value: string, response: Result<Page, ApiError>)
      requires Valid()
      modifies this, hook, poller
      ensures Valid()
      ensures statusFilter == FilterValue(value) && currentPage == 1
      ensures search == old(search) && sort == old(sort) && selected == old(selected)
      ensures showAddModal == old(showAddModal)
      ensures old(statusFilter) != FilterValue(value) ==>
        hook.sent == old(hook.sent) + [GetURLs(Params(HookOptions()))]
    {
      statusFilter := FilterValue(value);
      currentPage := 1;
      Render(response);
    }

    method HandlePageChange(page: int, response: Result<Page, ApiError>)
      requires Valid()
      modifies this, hook, poller
      ensures Valid()
      ensures currentPage == page
      ensures search == old(search) && statusFilter == old(statusFilter) && sort == old(sort)
      ensures selected == old(selected) && showAddModal == old(showAddModal)
      ensures old(currentPage) == page ==> hook.sent == old(hook.sent)
      ensures old(currentPage) != page ==> hook.sent == old(hook.sent) + [GetURLs(Params(HookOptions()))]
    {
      currentPage := page;
      Render(response);
    }

    /** A click on a column header: the table computes the next sort, the page resets to 1. */
    method HandleSort(column: string, response: Result<Page, ApiError>)
      requires Valid()
      modifies this, hook, poller
      ensures Valid()
      ensures sort == URLTable.NextSort(old(sort), column) && currentPage == 1
      ensures search == old(search) && statusFilter == old(statusFilter)
      ensures selected == old(selected) && showAddModal == old(showAddModal)
      ensures old(sort) != sort ==> hook.sent == old(hook.sent) + [GetURLs(Params(HookOptions()))]
    {
      sort := URLTable.NextSort(sort, column);
      currentPage := 1;
      Render(response);
    }

    /** The selection as the table reports it (header or row checkbox). */
    method SetSelected(ids: seq<int>)
      modifies this
      ensures selected == ids
      ensures search == old(search) && statusFilter == old(statusFilter) && sort == old(sort)
      ensures currentPage == old(currentPage) && showAddModal == old(showAddModal)
    {
      selected := ids;
    }

    /**
     * Bulk delete: nothing without a selection or without the user's confirmation;
     * otherwise delete, and clear the selection only when the request succeeded.
     * A failure is logged and swallowed.
     */
    method HandleBulkDelete(confirmed: bool, endpoint: Result<(), ApiError>, response: Result<Page, ApiError>)
      requires Valid()
      modifies this, hook, poller
      ensures Valid()
      ensures old(selected) == [] || !confirmed ==> selected == old(selected) && hook.sent == old(hook.sent)
      ensures old(selected) != [] && confirmed && endpoint.Ok? ==>
        selected == [] &&
        hook.sent == old(hook.sent) + [BulkDeleteURLs(old(selected)), GetURLs(Params(HookOptions()))] &&
        hook.pagination == ViewAfter(response)
      ensures old(selected) != [] && confirmed && endpoint.Err? ==>
        selected == old(selected) && hook.sent == old(hook.sent) + [BulkDeleteURLs(old(selected))] &&
        hook.urls == old(hook.urls)
      ensures search == old(search) && statusFilter == old(statusFilter) && sort == old(sort)
      ensures currentPage == old(currentPage) && showAddModal == old(showAddModal)
    {
      if |selected| == 0 || !confirmed {
        return;
      }
      var r := hook.BulkDelete(selected, endpoint, response);
      if r.Ok? {
        selected := [];
      }
      SyncPolling();
    }

    /** Bulk rerun: as bulk delete, without the confirmation. */
    method HandleBulkRerun(endpoint: Result<(), ApiError>, response: Result<Page, ApiError>)
      requires Valid()
      modifies this, hook, poller
      ensures Valid()
      ensures old(selected) == [] ==> selected == [] && hook.sent == old(hook.sent)
      ensures old(selected) != [] && endpoint.Ok? ==>
        selected == [] &&
        hook.sent == old(hook.sent) + [BulkRerunURLs(old(selected)), GetURLs(Params(HookOptions()))] &&
        hook.pagination == ViewAfter(response)
      ensures old(selected) != [] && endpoint.Err? ==>
        selected == old(selected) && hook.sent == old(hook.sent) + [BulkRerunURLs(old(selected))] &&
        hook.urls == old(hook.urls)
      ensures search == old(search) && statusFilter == old(statusFilter) && sort == old(sort)
      ensures currentPage == old(currentPage) && showAddModal == old(showAddModal)
    {
      if |selected| == 0 {
        return;
      }
      var r := hook.BulkRerun(selected, endpoint, response);
      if r.Ok? {
        selected := [];
      }
      SyncPolling();
    }

    method OpenAddModal()
      modifies this
      ensures showAddModal
      ensures search == old(search) && statusFilter == old(statusFilter) && sort == old(sort)
      ensures currentPage == old(currentPage) && selected == old(selected)
    {
      showAddModal := true;
    }

    method CloseAddModal()
      modifies this
      ensures !showAddModal
      ensures search == old(search) && statusFilter == old(statusFilter) && sort == old(sort)
      ensures currentPage == old(currentPage) && selected == old(selected)
    {
      showAddModal := false;
    }

    /** The modal created a job: close it and refresh the list. */
    method HandleAddSuccess(response: Result<Page, ApiError>)
      requires Valid()
      modifies this, hook, poller
      ensures Valid() && !showAddModal
      ensures hook.sent == old(hook.sent) + [GetURLs(Params(HookOptions()))]
      ensures hook.pagination == ViewAfter(response)
      ensures poller.Polling() <==> HasActiveCrawls(hook.urls)
      ensures search == old(search) && statusFilter == old(statusFilter) && sort == old(sort)
      ensures currentPage == old(currentPage) && selected == old(selected)
    {
      showAddModal := false;
      hook.Refresh(response);
      SyncPolling();
    }

    /** The refresh button and every polling tick: one fetch with the current options. */
    method HandleRefresh(response: Result<Page, ApiError>)
      requires Valid()
      modifies hook, poller
      ensures Valid()
      ensures hook.sent == old(hook.sent) + [GetURLs(Params(HookOptions()))]
      ensures hook.pagination == ViewAfter(response)
      ensures poller.Polling() <==> HasActiveCrawls(hook.urls)
    {
      hook.Refresh(response);
      SyncPolling();
    }

    /**
     * A tick of timer `id`: a live timer refreshes with the current options — never
     * with options of an earlier render — and a cleared timer does nothing.
     */
    method Tick(id: nat, response: Result<Page, ApiError>)
      requires Valid()
      modifies hook, poller
      ensures Valid()
      ensures old(poller.Fire(id)).Some? ==>
        old(poller.Fire(id)).value == HookOptions() &&
        hook.sent == old(hook.sent) + [GetURLs(Params(HookOptions()))]
      ensures old(poller.Fire(id)).None? ==> hook.sent == old(hook.sent) && hook.urls == old(hook.urls)
    {
      var callback := poller.Fire(id);
      if callback.Some? {
        HandleRefresh(response);
      }
    }

    /**
     * A row's delete, start or stop button: the table marks the row, the hook calls
     * the endpoint and refetches on success, the row is unmarked either way, and the
     * endpoint's failure propagates.
     */
    method HandleRowAction(id: int, call: ApiCall, endpoint: Result<(), ApiError>, response: Result<Page, ApiError>)
      returns (r: Result<(), ApiError>)
      requires Valid()
      requires call == Api.DeleteURL(id) || call == Api.StartCrawling(id) || call == Api.StopCrawling(id)
      modifies hook, poller, table
      ensures Valid() && r == endpoint
      ensures table.actionLoading == old(table.actionLoading) - {id}
      ensures endpoint.Ok? ==> hook.sent == old(hook.sent) + [call, GetURLs(Params(HookOptions()))]
      ensures endpoint.Err? ==> hook.sent == old(hook.sent) + [call] && hook.urls == old(hook.urls)
    {
      var action := if call.DeleteURL? then "delete" else if call.StartCrawling? then "start" else "stop";
      table.BeginAction(id, action);
      r := hook.Mutate(call, endpoint, response);
      table.EndAction(id);
      SyncPolling();
    }

    /** Leaving the page stops polling for good. */
    method Unmount()
      requires Valid()
      modifies poller
      ensures !poller.Polling() && !poller.mounted
    {
      poller.Unmount();
    }
  }
}
