# Crawl-job manager, modelled in Dafny

The system is a web application for crawling pages. A signed-in user adds page URLs as
*jobs*. The Go/Gin back end keeps them in a store and moves each through the statuses
`queued`, `running`, `completed` and `failed`. Crawling a job downloads the page and
analyses its HTML: the HTML version, the title, heading counts, internal, external and
inaccessible links, and whether it has a login form. The analysis is then saved as the
job's result, together with its broken links. A React front end lists, filters, sorts,
pages, selects, starts, stops, re-runs and deletes jobs, and polls while crawls are
active.

The model has one module per source file of that core, plus four shared modules. Each
is written in the source's own form:

- **Values become datatypes and functions.** Jobs, results, responses, HTML nodes and
  query requests are datatypes. Pure computations are functions with contracts: status
  badges, colours, chart data, pagination arithmetic, SQL text building, the
  HTML-version and text extraction, and the bearer-token check.
- **Mutable state becomes classes.** React state cells, refs, `localStorage`, the Gin
  request context, the crawler's accumulator and the database are classes. Their
  methods update fields under `modifies` clauses. Each method states the whole new
  state in terms of the old one.
- **Loops stay loops.** The loops of the source are `while` loops with invariants and
  are proved against a specification function: the placeholder builders, the row
  loops, the attribute scans and the broken-link inserts.
- **The outside world becomes parameters.** Remote calls, SQL execution, the network,
  HTML parsing and token verification are oracles passed in as parameters. An endpoint
  outcome is a `Result`, a database fault is a `bool`, and the crawler's URL resolution
  and HEAD requests are an `Env`. A log of the calls a component makes records what the
  endpoint observes.

| module | file | source |
|---|---|---|
| `Wrappers`, `Seqs`, `Strings` | wrappers.dfy, seqs.dfy, strings.dfy | `Option`/`Result`; list filtering; trimming, prefixes, substring search, lower-casing and decimal conversion |
| `Models`, `Responses` | models.dfy, responses.dfy | frontend/src/types/index.ts, backend/models/models.go, the status enum of backend/database/database.go |
| `Database` | database.dfy | the tables of backend/database/database.go with their cascading deletes |
| `Api` | api.dfy | frontend/src/services/api.ts |
| `UseURLs` | use_urls.dfy | frontend/src/hooks/useURLs.ts |
| `Dashboard` | dashboard.dfy | frontend/src/pages/Dashboard.tsx |
| `URLTable` | url_table.dfy | frontend/src/components/URLTable.tsx |
| `UsePolling` | polling.dfy | frontend/src/hooks/usePolling.ts |
| `AddURLModal` | add_url_modal.dfy | frontend/src/components/AddURLModal.tsx |
| `URLDetails` | url_details.dfy | frontend/src/pages/URLDetails.tsx |
| `UseToast` | use_toast.dfy | frontend/src/hooks/useToast.ts |
| `UrlHandlers` | url_handlers.dfy | backend/handlers/urls.go |
| `ListHandler` | list_handler.dfy | `GetURLs` in backend/handlers/auth.go |
| `Crawler` | crawler.dfy | backend/crawler/crawler.go |
| `AuthMiddleware` | auth_middleware.dfy | backend/middleware/auth.go |

Where the front-end tests expect something the code does not do, the model follows
the code:
- `useURLs` starts with `loading` false and exposes no `error` field.
- The `isAuthenticated` and `logout` helpers the API tests call do not exist in the
  API service, so they are not modelled.

## Model

| member | source | states |
|---|---|---|
| Api.Route | frontend/src/services/api.ts:54-132 | per-item calls go to `/urls/{id}` plus their suffix with no body; bulk calls POST `{ids}` to `/bulk/delete` and `/bulk/rerun`; only `deleteURL` uses DELETE |
| Api.ItemPathCarriesId | frontend/src/services/api.ts:82-110 | the id segment of every per-item path parses back to the caller's id |
| Api.RouteInjective | frontend/src/services/api.ts:54-132 | two different calls never send the same request |
| Api.AtoiIdentifies | frontend/src/services/api.ts:82-115 | the number in a per-item or broken-links path is the call's own id |
| Api.RequestConfig.constructor | frontend/src/services/api.ts:28-29 | a request configuration starts with the headers it was given |
| Api.WithBearer | frontend/src/services/api.ts:30-34 | `Authorization` becomes `Bearer ` + token exactly when a non-empty token is stored; otherwise the headers are untouched |
| Api.Browser.constructor | frontend/src/services/api.ts:30-46 | the browser state starts with the given storage and location |
| Api.Browser.StoredToken | frontend/src/services/api.ts:30 | a token is present exactly when storage holds the `token` key, and it is that value |
| Api.Browser.InterceptRequest | frontend/src/services/api.ts:28-37 | the outgoing headers become `WithBearer` of the old headers and the stored token |
| Api.Browser.InterceptResponse | frontend/src/services/api.ts:40-50 | every outcome is passed on unchanged; a 401 removes `token` and `user` and goes to `/login`; any other outcome leaves storage and location alone |
| UseURLs.Params | frontend/src/hooks/useURLs.ts:28-35 | an absent or falsy option is sent as its default (page 1, page size 10, empty search and status, `created_at`, `desc`); a present truthy one is sent as given |
| UseURLs.ViewAfter | frontend/src/hooks/useURLs.ts:37-54 | a successful fetch copies page, page size, total and total pages verbatim and shows exactly the response's data; a failure gives the empty page-1 view |
| UseURLs.FailedFetchRestoresInitialView | frontend/src/hooks/useURLs.ts:17-54 | the view after a failed fetch is the initial view |
| UseURLs.UrlsHook.constructor | frontend/src/hooks/useURLs.ts:14-23 | the hook starts with no urls, not loading, the empty page-1 pagination and nothing sent |
| UseURLs.UrlsHook.BeginFetch | frontend/src/hooks/useURLs.ts:26-35 | loading becomes true and exactly one list request with the defaulted options is sent |
| UseURLs.UrlsHook.CompleteFetch | frontend/src/hooks/useURLs.ts:37-57 | loading ends false on both paths, `urls` equals `pagination.data`, the pagination is `ViewAfter` of the outcome, and nothing is thrown |
| UseURLs.UrlsHook.FetchURLs | frontend/src/hooks/useURLs.ts:25-58 | one request, then the view is `ViewAfter` of the outcome with `urls` equal to `pagination.data` and loading false |
| UseURLs.UrlsHook.Refresh | frontend/src/hooks/useURLs.ts:60-62 | a refresh is exactly one fetch with the current options |
| UseURLs.UrlsHook.Rerender | frontend/src/hooks/useURLs.ts:124-126 | a re-render fetches once exactly when some option changed, and otherwise changes nothing |
| UseURLs.UrlsHook.Mutate | frontend/src/hooks/useURLs.ts:64-122 | the endpoint is called once; on success exactly one refetch follows and the mutation resolves; on failure the error is re-thrown and the view is unchanged |
| UseURLs.UrlsHook.DeleteURL | frontend/src/hooks/useURLs.ts:64-72 | `deleteURL` calls its endpoint and then refetches once on success, rethrowing without a refetch on failure |
| UseURLs.UrlsHook.BulkDelete | frontend/src/hooks/useURLs.ts:74-82 | as `DeleteURL`, for the bulk delete call |
| UseURLs.UrlsHook.BulkRerun | frontend/src/hooks/useURLs.ts:84-92 | as `DeleteURL`, for the bulk rerun call |
| UseURLs.UrlsHook.StartCrawling | frontend/src/hooks/useURLs.ts:94-102 | as `DeleteURL`, for the start call |
| UseURLs.UrlsHook.StopCrawling | frontend/src/hooks/useURLs.ts:104-112 | as `DeleteURL`, for the stop call |
| UseURLs.UrlsHook.AddURL | frontend/src/hooks/useURLs.ts:114-122 | as `DeleteURL`, for the create call carrying the url |
| Dashboard.HasActiveCrawls | frontend/src/pages/Dashboard.tsx:43-47 | true exactly when some listed job is running or queued |
| Dashboard.IsActive | frontend/src/pages/Dashboard.tsx:45 | a job polling waits on is running or queued |
| Dashboard.ActiveCrawlsOfAppend | frontend/src/pages/Dashboard.tsx:43-47 | a concatenated list has an active job exactly when one of its parts does |
| Dashboard.FilterValue | frontend/src/pages/Dashboard.tsx:93-96 | the select value `all` is stored as the empty filter and every other value as given |
| Dashboard.SelectValue | frontend/src/pages/Dashboard.tsx:160 | the select shows `all` for the empty filter and the filter itself otherwise; FilterSelectRoundTrip relates it to FilterValue |
| Dashboard.FilterSelectRoundTrip | frontend/src/pages/Dashboard.tsx:93-96 | choosing the value the select shows stores the same filter again |
| Dashboard.Dashboard.HookOptions | frontend/src/pages/Dashboard.tsx:33-40 | the hook receives the search, filter, current page, page size 10 and the sort column and direction |
| Dashboard.Dashboard.constructor | frontend/src/pages/Dashboard.tsx:12-54 | the initial state (no modal, empty search and filter, no selection, page 1, `created_at` descending), one first fetch, and polling on exactly when the list has an active job |
| Dashboard.Dashboard.Render | frontend/src/pages/Dashboard.tsx:33-54 | after a state change the hook fetches once exactly when its options changed, and polling is on exactly when the list has an active job |
| Dashboard.Dashboard.SyncPolling | frontend/src/pages/Dashboard.tsx:50-54 | polling is enabled exactly when `hasActiveCrawls`, every 5000 ms, with the current `refresh` |
| Dashboard.Dashboard.HandleSearchChange | frontend/src/pages/Dashboard.tsx:88-91 | the search is set and the page reset to 1; filter, sort and selection are untouched |
| Dashboard.Dashboard.HandleStatusFilterChange | frontend/src/pages/Dashboard.tsx:93-96 | the filter becomes `FilterValue` of the choice and the page resets to 1; nothing else changes |
| Dashboard.Dashboard.HandlePageChange | frontend/src/pages/Dashboard.tsx:98-100 | only the current page changes |
| Dashboard.Dashboard.HandleSort | frontend/src/pages/Dashboard.tsx:102-105 | the sort becomes the table's next sort and the page resets to 1 |
| Dashboard.Dashboard.SetSelected | frontend/src/pages/Dashboard.tsx:216 | the selection becomes what the table reports, nothing else changes |
| Dashboard.Dashboard.HandleBulkDelete | frontend/src/pages/Dashboard.tsx:56-73 | no call without a selection or a confirmation; on success the selection is cleared after one delete and one refetch; on failure the selection is kept and nothing is refetched |
| Dashboard.Dashboard.HandleBulkRerun | frontend/src/pages/Dashboard.tsx:75-86 | as bulk delete, without the confirmation |
| Dashboard.Dashboard.OpenAddModal | frontend/src/pages/Dashboard.tsx:130 | the modal opens; the query state is untouched |
| Dashboard.Dashboard.CloseAddModal | frontend/src/pages/Dashboard.tsx:227 | the modal closes; the query state is untouched |
| Dashboard.Dashboard.HandleAddSuccess | frontend/src/pages/Dashboard.tsx:228-231 | the modal closes and exactly one refresh is sent |
| Dashboard.Dashboard.HandleRefresh | frontend/src/pages/Dashboard.tsx:176 | the refresh button sends one fetch with the current options |
| Dashboard.Dashboard.Tick | frontend/src/pages/Dashboard.tsx:50-54 | a live timer's tick refreshes with the current options; a cleared timer's tick does nothing |
| Dashboard.Dashboard.HandleRowAction | frontend/src/pages/Dashboard.tsx:217-219 | a row action clears its loading mark, returns the endpoint's outcome and refetches exactly when the endpoint succeeded |
| Dashboard.Dashboard.Unmount | frontend/src/pages/Dashboard.tsx:50-54 | after leaving the page no timer is running |
| URLTable.Ids | frontend/src/components/URLTable.tsx:48 | the ids of the visible rows, one per row, in row order |
| URLTable.SelectAll | frontend/src/components/URLTable.tsx:46-52 | checked yields exactly the visible ids in row order, whatever was selected before; unchecked yields [] |
| URLTable.SelectURL | frontend/src/components/URLTable.tsx:54-60 | ticking appends the id without a membership check; unticking removes every occurrence of the id and keeps the count of every other id |
| URLTable.UntickKeepsOrder | frontend/src/components/URLTable.tsx:57-58 | unticking commutes with concatenation, so the other ids keep their order |
| URLTable.UntickAbsent | frontend/src/components/URLTable.tsx:57-58 | unticking an id that is not selected leaves the selection unchanged |
| URLTable.TickThenUntick | frontend/src/components/URLTable.tsx:54-58 | ticking an unselected row and unticking it again restores the selection |
| URLTable.RowClickKeepsSelectionDistinct | frontend/src/components/URLTable.tsx:54-58 | since a row checkbox ticks only an absent id, row clicks never select an id twice |
| URLTable.NextSort | frontend/src/components/URLTable.tsx:62-68 | the same column flips the direction; another column sorts ascending |
| URLTable.SortToggleIsInvolution | frontend/src/components/URLTable.tsx:62-65 | two clicks on the active column give back the original sort |
| URLTable.HeaderStateExclusive | frontend/src/components/URLTable.tsx:108-109 | the header checkbox is never both checked and indeterminate |
| URLTable.IsAllSelected | frontend/src/components/URLTable.tsx:108 | the header checkbox is checked when rows are shown and the selection is as long as the rows; HeaderStateExclusive and SelectAllChecksHeader state its properties |
| URLTable.IsIndeterminate | frontend/src/components/URLTable.tsx:109 | the header checkbox is indeterminate when some but fewer ids than rows are selected |
| URLTable.SelectAllChecksHeader | frontend/src/components/URLTable.tsx:108-109 | after select-all the header is checked exactly when it was ticked with rows shown, and is never indeterminate |
| URLTable.StatusBadge | frontend/src/components/URLTable.tsx:83-91 | running, completed and failed get their own badge classes; queued and anything unknown get `badge-secondary` |
| URLTable.BadgeIdentifiesStatus | frontend/src/components/URLTable.tsx:83-91 | different statuses never share a badge |
| URLTable.PageButtons | frontend/src/components/URLTable.tsx:336-348 | the bar has one button per page, labelled 1 up to total_pages in order |
| URLTable.PageButtonsCoverAllPages | frontend/src/components/URLTable.tsx:336-348 | a number has a button exactly when it lies in 1..total_pages |
| URLTable.RangeWithinTotal | frontend/src/components/URLTable.tsx:318-322 | with total_pages the ceiling of total over page size and a page in range, 1 <= first shown <= last shown <= total |
| URLTable.ShowsPagination | frontend/src/components/URLTable.tsx:297 | the pagination bar is shown only for more than one page |
| URLTable.PreviousDisabled | frontend/src/components/URLTable.tsx:302 | Previous is disabled on page 1; ButtonsAtEnds states it at both ends |
| URLTable.NextDisabled | frontend/src/components/URLTable.tsx:309 | Next is disabled on the last page; ButtonsAtEnds states it at both ends |
| URLTable.RangeStart | frontend/src/components/URLTable.tsx:318 | the first job shown is the one after the earlier pages' jobs; RangeWithinTotal bounds it |
| URLTable.RangeEnd | frontend/src/components/URLTable.tsx:320 | the last job shown is the page's end, capped at the total; RangeWithinTotal bounds it |
| URLTable.ButtonsAtEnds | frontend/src/components/URLTable.tsx:297-313 | on page 1 Previous is disabled and Next is not; on the last page Next is disabled and Previous is not |
| URLTable.ActionTracker.constructor | frontend/src/components/URLTable.tsx:44 | no row starts with a pending action |
| URLTable.ActionTracker.Disabled | frontend/src/components/URLTable.tsx:250-277 | a row's button for an action is disabled exactly while that action is the one pending on the row; BeginAction makes it hold (and no other action of the row), HandleAction leaves every action of the row enabled, and neither touches another row's buttons |
| URLTable.ActionTracker.BeginAction | frontend/src/components/URLTable.tsx:71 | the row is marked with the action; the other rows are unchanged |
| URLTable.ActionTracker.EndAction | frontend/src/components/URLTable.tsx:75-79 | exactly the row's entry is dropped |
| URLTable.ActionTracker.HandleAction | frontend/src/components/URLTable.tsx:70-81 | the action's outcome propagates unchanged, exactly the row's key is removed whether it succeeded or threw, and the other keys and values are unchanged |
| UsePolling.Poller.Polling | frontend/src/hooks/usePolling.ts:10-15 | polling is on exactly when some interval timer is live |
| UsePolling.Poller.Fire | frontend/src/hooks/usePolling.ts:15 | only a live timer ticks, and it calls the callback of the latest enabled run |
| UsePolling.Poller.constructor | frontend/src/hooks/usePolling.ts:10 | the ref starts null with no timer and no effect run yet |
| UsePolling.Poller.SetInterval | frontend/src/hooks/usePolling.ts:15 | `setInterval` adds one timer under a fresh id with the given callback and period, and nothing else changes |
| UsePolling.Poller.ClearRefTimer | frontend/src/hooks/usePolling.ts:34-39 | the unmount cleanup clears the ref's timer, if any, and leaves the ref as it is |
| UsePolling.Poller.StopRefTimer | frontend/src/hooks/usePolling.ts:19-29 | the ref's timer, if any, is cleared and the ref becomes null |
| UsePolling.Poller.ClearInterval | frontend/src/hooks/usePolling.ts:20-27 | `clearInterval` removes exactly that timer |
| UsePolling.Poller.Render | frontend/src/hooks/usePolling.ts:12-31 | when the dependencies changed the previous cleanup runs first; enabled then registers one fresh timer with the given callback and period held by the ref, disabled leaves no timer and a null ref; polling is on exactly when enabled |
| UsePolling.Poller.Unmount | frontend/src/hooks/usePolling.ts:34-40 | after unmount no interval remains |
| UsePolling.AtMostOneTimer | frontend/src/hooks/usePolling.ts:12-31 | in every reachable state at most one interval is live |
| AddURLModal.AddUrlModal.constructor | frontend/src/components/AddURLModal.tsx:16-18 | the dialog starts with an empty field, not loading, no error |
| AddURLModal.AddUrlModal.SubmitDisabled | frontend/src/components/AddURLModal.tsx:102 | submit is disabled exactly while loading or while the field is blank |
| AddURLModal.AddUrlModal.HandleChange | frontend/src/components/AddURLModal.tsx:73-77 | typing replaces the field, except while loading, when the field is disabled |
| AddURLModal.AddUrlModal.StartRequest | frontend/src/components/AddURLModal.tsx:24-28 | loading starts, the error is cleared and the value is sent once; the field and the callback counts are untouched |
| AddURLModal.AddUrlModal.BeginSubmit | frontend/src/components/AddURLModal.tsx:20-28 | a blank field does nothing; otherwise loading starts, the error is cleared and the trimmed url is sent once |
| AddURLModal.AddUrlModal.FinishSubmit | frontend/src/components/AddURLModal.tsx:29-35 | success clears the field and calls `onSuccess` once; failure shows the fixed message, keeps the input and does not call `onSuccess`; loading ends on both paths |
| AddURLModal.AddUrlModal.HandleSubmit | frontend/src/components/AddURLModal.tsx:20-36 | the whole submission: a blank field changes nothing; otherwise exactly one create with the trimmed url, then the success or failure state, with loading false afterwards |
| AddURLModal.AddUrlModal.HandleClose | frontend/src/components/AddURLModal.tsx:38-44 | close while loading is a no-op; otherwise it resets url and error and calls `onClose` once |
| AddURLModal.SubmittedUrlIsUnpadded | frontend/src/components/AddURLModal.tsx:22-28 | an entry padded with blanks sends exactly the text between the blanks, and is not blank |
| UseToast.Dismissed | frontend/src/hooks/useToast.ts:17 | no remaining toast carries the id, every remaining toast came from the list, and every toast with another id remains |
| UseToast.DismissAbsent | frontend/src/hooks/useToast.ts:17 | removing an id no toast carries leaves the list unchanged |
| UseToast.ShowThenDismiss | frontend/src/hooks/useToast.ts:13-17 | adding a toast under a fresh id and removing that id restores the previous list |
| UseToast.DismissKeepsOrder | frontend/src/hooks/useToast.ts:17 | removal commutes with concatenation, so the remaining toasts keep their order |
| UseToast.ToastHook.constructor | frontend/src/hooks/useToast.ts:5 | the list starts empty |
| UseToast.ToastHook.AddToast | frontend/src/hooks/useToast.ts:7-14 | exactly one toast with the id and the caller's type, title and message is appended; earlier toasts are unchanged |
| UseToast.ToastHook.RemoveToast | frontend/src/hooks/useToast.ts:16-18 | the list becomes `Dismissed` of the old list and the id |
| UseToast.ToastHook.Success | frontend/src/hooks/useToast.ts:20-22 | appends one toast of type success |
| UseToast.ToastHook.Error | frontend/src/hooks/useToast.ts:24-26 | appends one toast of type error |
| UseToast.ToastHook.Warning | frontend/src/hooks/useToast.ts:28-30 | appends one toast of type warning |
| UseToast.ToastHook.Info | frontend/src/hooks/useToast.ts:32-34 | appends one toast of type info |
| URLDetails.StatusColor | frontend/src/pages/URLDetails.tsx:117-130 | each of the four statuses gets its own colour classes; any other text is grey |
| URLDetails.StatusColorsDistinct | frontend/src/pages/URLDetails.tsx:117-130 | different statuses never share a colour and none of them falls back to grey |
| URLDetails.LinkSlices | frontend/src/pages/URLDetails.tsx:149-157 | the pie slices are internal, external and inaccessible links, with the result's counts, in that order |
| URLDetails.HeadingBars | frontend/src/pages/URLDetails.tsx:172-183 | the bars are the h1..h6 counts of the result, labelled H1..H6 in order |
| URLDetails.TitleText | frontend/src/pages/URLDetails.tsx:286 | the title cell is the title, or "No title found" when it is empty; never empty |
| URLDetails.VersionText | frontend/src/pages/URLDetails.tsx:292 | the version cell is the HTML version, or "Unknown" when it is empty; never empty |
| URLDetails.DetailsPage.constructor | frontend/src/pages/URLDetails.tsx:44-49 | the page starts loading, with no job, no result, no broken links, no error and no rerun |
| URLDetails.DetailsPage.CurrentView | frontend/src/pages/URLDetails.tsx:193-222 | the spinner while loading; then the error screen on an error, or "URL not found" without a job; the details exactly when loaded with a job and no error |
| URLDetails.DetailsPage.LinkChartData | frontend/src/pages/URLDetails.tsx:148-168 | the link chart exists exactly when the page holds a result, and then carries that result's link counts; LoadResults makes it the slices of the detailed result it received |
| URLDetails.DetailsPage.HeadingChartData | frontend/src/pages/URLDetails.tsx:171-191 | the heading chart exists exactly when the page holds a result, and then carries its H1..H6 counts; FetchURLDetails and HandleRerun leave it matching the result shown |
| URLDetails.DetailsPage.RerunDisabled | frontend/src/pages/URLDetails.tsx:239 | the rerun control is disabled exactly while rerunning or while the job is running; once HandleRerun ends it is disabled exactly when the reloaded job is running |
| URLDetails.DetailsPage.LoadResults | frontend/src/pages/URLDetails.tsx:66-73 | a detailed result replaces the summary and supplies `broken_links`, or [] when absent; a failure keeps the basic result and sets no error |
| URLDetails.DetailsPage.FetchURLDetails | frontend/src/pages/URLDetails.tsx:51-84 | no route id does nothing; a failed job request shows the load error and loading ends false; detailed results are requested only when the job has a result |
| URLDetails.DetailsPage.HandleRerun | frontend/src/pages/URLDetails.tsx:86-115 | no job does nothing; a failed rerun or reload shows the rerun error; after a reload the result is the job's result or null and the broken links are [] before the optional detail fetch; `rerunning` is false after every path |
| Models.ParseStatus | backend/database/database.go:62 | a status name reads back only as the status it names |
| Models.StatusNameRoundTrip | backend/database/database.go:62 | each of the four enumeration values reads back as itself |
| Database.WithoutUrls | backend/database/database.go:57-68 | the jobs left are exactly those not removed, with their rows unchanged |
| Database.ResultsOfUrls | backend/database/database.go:89 | the `ON DELETE CASCADE` on `url_id`: the results kept are exactly those whose job is still present |
| Database.LinksOfResults | backend/database/database.go:101 | the `ON DELETE CASCADE` on `result_id`: the broken links kept are exactly those whose result is still present |
| Database.CascadeLeavesNoOrphans | backend/database/database.go:89-101 | after deleting jobs no result and no broken link refers to a deleted job |
| Database.Db.constructor | backend/database/database.go:57-102 | the store starts empty and consistent |
| Database.Db.ResultOf | backend/handlers/urls.go:251-253 | the joined result of a job, when there is one, belongs to that job; otherwise no result does |
| Database.Db.InsertUrl | backend/handlers/urls.go:26-35 | a new row under the next auto-increment id; results and links unchanged |
| Database.Db.SetStatus | backend/handlers/urls.go:148 | `UPDATE ... SET status` changes only that row's status, and a missing id changes nothing |
| Database.Db.DeleteUrls | backend/database/database.go:89-101 | removes the jobs and cascades to their results and those results' broken links |
| Database.Db.DeleteResultsOf | backend/crawler/crawler.go:272 | removes exactly the job's results and cascades to their broken links; the jobs are unchanged |
| Database.Db.InsertResult | backend/crawler/crawler.go:277-299 | inserts one result row under the next id, or fails on the foreign key when the job is gone |
| Database.Db.InsertLink | backend/crawler/crawler.go:308-319 | inserts one broken-link row exactly when its result exists |
| UrlHandlers.ItemOf | backend/handlers/urls.go:61-117 | the reply carries the job's id, the caller as owner, its url and status, and a result exactly when the job has one |
| UrlHandlers.ResultOf | backend/handlers/urls.go:99-114 | the reply's result carries the result id, the job id and every analysis column |
| UrlHandlers.CreateURL | backend/handlers/urls.go:14-49 | a bad body gives 400; a failed insert gives 500 and no row; otherwise one new job of the caller's, always `queued`, and a 201 carrying it |
| UrlHandlers.GetURL | backend/handlers/urls.go:51-118 | a non-numeric id gives 400 before any store access; a job the caller does not own gives 404 "URL not found"; otherwise 200 with the job and its result |
| UrlHandlers.SetOwnedStatus | backend/handlers/urls.go:120-202 | 400 on a bad id, 404 unless the caller owns the job, 500 on a store error; the status changes exactly on success, and nothing else in the store changes |
| UrlHandlers.StartCrawling | backend/handlers/urls.go:120-162 | on success the job, and only that job, becomes running and a crawl of its url is started; on any failure nothing changes and nothing starts |
| UrlHandlers.StopCrawling | backend/handlers/urls.go:164-202 | on success the job becomes queued and nothing else changes; on any failure nothing changes |
| UrlHandlers.DeleteURL | backend/handlers/urls.go:204-234 | 400 on a bad id, 500 on a store error, 404 when no owned row matched; otherwise the job goes, with its results and their broken links |
| UrlHandlers.ScannedLinks | backend/handlers/urls.go:289-298 | the collected links all carry the result's id, and there are no more of them than rows |
| UrlHandlers.CollectLinks | backend/handlers/urls.go:289-300 | the loop collects exactly `ScannedLinks`; with none it stays nil, so the field is absent |
| UrlHandlers.ScannedLinksAppend | backend/handlers/urls.go:290-298 | a row that fails to scan contributes nothing, and the others appear in row order |
| UrlHandlers.GetResults | backend/handlers/urls.go:236-303 | 400 on a bad id, 404 "Results not found" unless the caller owns the job and it has a result; otherwise the result with the rows that scanned as its broken links; over a truthful select every link in the reply is a stored link of that result, and when every stored link came back each one is in the reply |
| UrlHandlers.ScannedLinksAreStored | backend/handlers/urls.go:279-298 | the links collected from a truthful select are stored links of the result with the same columns, and a stored link whose row scanned is collected |
| UrlHandlers.PlaceholdersShape | backend/handlers/urls.go:327-334 | the IN-list is `?` and `,` alternating, starting and ending with `?`, of length 2n-1 |
| UrlHandlers.PlaceholderCount | backend/handlers/urls.go:327-334 | the IN-list holds exactly one `?` per id |
| UrlHandlers.IdArgs | backend/handlers/urls.go:324-334 | one argument per id, in order |
| UrlHandlers.BuildInList | backend/handlers/urls.go:324-334 | the query is the prefix, n comma-separated `?` and `)`; the arguments are the user id followed by the ids in order |
| UrlHandlers.OwnedAmong | backend/handlers/urls.go:324 | the jobs matched are exactly the listed ids the caller owns |
| UrlHandlers.BulkDeleteURLs | backend/handlers/urls.go:305-349 | an empty list gives 400 "No IDs provided" and changes nothing; otherwise exactly the caller's listed jobs are deleted, cascading, and the reply counts them |
| UrlHandlers.ScannedJobs | backend/handlers/urls.go:391-399 | the jobs kept are among the rows returned, and no more of them than rows |
| UrlHandlers.RerunAll | backend/handlers/urls.go:402-406 | the job set is unchanged, only statuses change, every scanned job whose update did not fail is running, and a job not rerun keeps its row |
| UrlHandlers.Launched | backend/handlers/urls.go:402-410 | no more crawls start than jobs were found, and every scanned job whose update did not fail is launched with its url |
| UrlHandlers.LaunchedIsFilter | backend/handlers/urls.go:402-410 | the launches are exactly the scanned jobs whose update succeeded, in scan order, one crawl each |
| UrlHandlers.BulkRerunURLs | backend/handlers/urls.go:351-416 | an empty list gives 400 and changes nothing; otherwise, over a truthful select, each found job whose update succeeds becomes running with the rest of its row kept and its crawl is launched, only the caller's listed jobs change, and the reply counts the jobs found rather than those updated |
| UrlHandlers.ScanJobs | backend/handlers/urls.go:391-399 | the scan loop returns exactly `ScannedJobs` of the rows |
| UrlHandlers.RerunJobs | backend/handlers/urls.go:402-410 | the update loop leaves the statuses at `RerunAll` and launches exactly `Launched` |
| UrlHandlers.ScannedAreSelected | backend/handlers/urls.go:370-399 | when the select answered truthfully, every job scanned is one of the caller's listed jobs |
| ListHandler.DefaultQuery | backend/handlers/auth.go:130-135 | a present query parameter is read as sent, an absent one takes the handler's default |
| ListHandler.AtoiOrZero | backend/handlers/auth.go:130-131 | a number that parses is its value; one that does not (its error ignored) reads as 0 |
| ListHandler.ParseListRequest | backend/handlers/auth.go:130-135 | without parameters the request is page 1 of 10, no search, no status filter, newest first by `created_at`; `page` and `page_size` are their parsed values |
| ListHandler.QueryOf | frontend/src/hooks/useURLs.ts:28-35 | the client's list request carries all six parameters |
| ListHandler.ParamsSurviveTheWire | frontend/src/hooks/useURLs.ts:28-35 | the handler reads back exactly the page, page size, search, status, sort column and order the client sent |
| ListHandler.Like | backend/handlers/auth.go:152 | the search pattern is the search text wrapped in one `%` on each side |
| ListHandler.FilterArgs | backend/handlers/auth.go:150-159 | a search adds its pattern twice (URL and title), a status filter adds the status last; nothing is added for empty values |
| ListHandler.SortColumn | backend/handlers/auth.go:162-170 | the three result columns sort on the joined result, any other name on the job itself |
| ListHandler.SortDirection | backend/handlers/auth.go:172-176 | the order is ascending exactly when `asc` was asked for, descending otherwise |
| ListHandler.AppendFilters | backend/handlers/auth.go:150-159 | the filters extend the query text and its arguments by the clause and arguments of the search and status given |
| ListHandler.AppendSortColumn | backend/handlers/auth.go:161-170 | the query gains one `ORDER BY` on the chosen column |
| ListHandler.AppendOrder | backend/handlers/auth.go:161-176 | the query gains the sort column followed by its direction |
| ListHandler.BuildListQuery | backend/handlers/auth.go:137-196 | the list and count queries share the owner, search and status filters and the same arguments; only the list query is sorted |
| ListHandler.FilterClause | backend/handlers/auth.go:150-159 | the search clause for a non-empty search, then the status clause for a non-empty status |
| ListHandler.ListSql | backend/handlers/auth.go:137-176 | the list query is the columns, the owner clause, the filters and the sort; BuildListQuery proves the loop builds it |
| ListHandler.CountSql | backend/handlers/auth.go:179-196 | the count query is the count, the owner clause and the same filters, unsorted |
| ListHandler.Offset | backend/handlers/auth.go:208 | the rows skipped are those of the pages before the requested one |
| ListHandler.RowItem | backend/handlers/auth.go:240-259 | a scanned row becomes the caller's job with the row's id, URL and status, and has a result exactly when the joined result id is not NULL |
| ListHandler.ItemsOf | backend/handlers/auth.go:222-262 | at most one job per row, every one owned by the caller |
| ListHandler.ItemsOfAllScanned | backend/handlers/auth.go:222-262 | when every row scans, the page holds one job per row, in row order |
| ListHandler.MapRows | backend/handlers/auth.go:222-262 | the loop's slice is the jobs of the rows that scanned, in row order, and stays nil when no row yielded a job |
| ListHandler.NilSliceData | backend/handlers/auth.go:222 | a slice nothing was appended to encodes as null, any other as its items |
| ListHandler.NoRowsEncodeAsNull | backend/handlers/auth.go:222 | a page with no rows encodes its job list as `null` rather than as an empty list |
| ListHandler.GoDiv | backend/handlers/auth.go:264 | Go's integer division: Euclidean on non-negative operands, its sign the product of the operands' signs |
| ListHandler.GoDivTruncates | backend/handlers/auth.go:264 | the remainder Go leaves is smaller than the divisor and never has the opposite sign of the dividend |
| ListHandler.TotalPagesIsCeiling | backend/handlers/auth.go:264 | for a positive page size the page count is the least number of pages that holds every job, and 0 exactly when there are no jobs |
| ListHandler.TotalPages | backend/handlers/auth.go:264 | Go's truncating `(total + page_size - 1) / page_size`; TotalPagesIsCeiling states what it means |
| ListHandler.GetURLs | backend/handlers/auth.go:126-273 | the count query runs first and its failure is a 500; the page query adds limit and offset and its failure is a 500; page size 0 panics; otherwise a 200 with the jobs (as a nil-able slice), total, page, size and page count |
| ListHandler.GetURLsCorrected | backend/handlers/auth.go:126-273 | the same handler with the job list started empty: every 200 page carries a list, empty when there are no rows |
| Crawler.CountSplit | backend/crawler/crawler.go:175-179 | when a node predicate is the disjoint union of two others, its count over a tree is their sum |
| Crawler.CountFromSplit | backend/crawler/crawler.go:113-115 | the same split over the children from a given index on |
| Crawler.FirstAttr | backend/crawler/crawler.go:153-159 | the value of the first attribute with the key, "" when none has it |
| Crawler.LastAttr | backend/crawler/crawler.go:242-249 | the value of the last attribute whose key is one of those asked for, "" when none has it |
| Crawler.FindHref | backend/crawler/crawler.go:153-159 | the loop finds the value of the first `href` attribute |
| Crawler.TextContent | backend/crawler/crawler.go:140-150 | the text of a node has no leading or trailing white space |
| Crawler.ExtractTextContent | backend/crawler/crawler.go:140-150 | the loop over the children builds the same text as the recursive definition |
| Crawler.TextOfChildlessElement | backend/crawler/crawler.go:140-150 | an element without children has empty text |
| Crawler.HtmlVersion | backend/crawler/crawler.go:118-138 | the version is `HTML5` or `XHTML`, and it is `XHTML` exactly when no doctype beside the element in the document mentions html and the element has an `xmlns` attribute or an attribute value mentioning xhtml |
| Crawler.ExtractHTMLVersion | backend/crawler/crawler.go:118-138 | the loops over siblings and attributes compute that version |
| Crawler.ScanInputAttrs | backend/crawler/crawler.go:242-249 | an input's type and name are the lower-cased values of their last occurrence |
| Crawler.CheckInputs | backend/crawler/crawler.go:239-268 | the password and username flags end up set exactly when they started set or the subtree holds a matching input |
| Crawler.InputType | backend/crawler/crawler.go:244-246 | the lower-cased value of an input's last `type` attribute |
| Crawler.InputName | backend/crawler/crawler.go:247-249 | the lower-cased value of an input's last `name` or `id` attribute |
| Crawler.IsLoginForm | backend/crawler/crawler.go:216-237 | the form check answers the login-form definition: a login-like attribute, or a password input together with a username input |
| Crawler.LoginForm | backend/crawler/crawler.go:216-237 | a form is a login form when an id, class or name mentions login, signin or auth, or it holds both a password and a username input |
| Crawler.IsAccessibleLink | backend/crawler/crawler.go:192-214 | `mailto:`, `tel:`, `javascript:` and fragment links count as accessible; any other link is accessible exactly when its HEAD request answers below 400 |
| Crawler.SkippedLinkNeedsNoRequest | backend/crawler/crawler.go:194-199 | a skipped link's verdict does not depend on the network |
| Crawler.LinkStep | backend/crawler/crawler.go:152-190 | checking one anchor touches only the link counters and the broken links |
| Crawler.VisitCountsHeadings | backend/crawler/crawler.go:98-100 | after the walk each heading level's count grew by the number of elements of that level in the tree |
| Crawler.Step | backend/crawler/crawler.go:88-109 | what the walk does at one element: html version, non-empty title, heading count, link check or login-form flag |
| Crawler.Visit | backend/crawler/crawler.go:87-116 | the walk: a node's own step, then its children's subtrees in order; the Visit* lemmas state what it computes |
| Crawler.VisitFrom | backend/crawler/crawler.go:113-115 | the walk over the children from an index on, in sibling order |
| Crawler.VisitFromCountsHeadings | backend/crawler/crawler.go:113-115 | the same for the children from a given index on |
| Crawler.LinksGrewTrans | backend/crawler/crawler.go:113-115 | link growth over two successive walks adds up |
| Crawler.VisitCountsLinks | backend/crawler/crawler.go:101-103 | the walk adds one internal or external link per counted anchor, one inaccessible link and one failed-check record per failed check, and keeps earlier records |
| Crawler.VisitFromCountsLinks | backend/crawler/crawler.go:113-115 | the same for the children from a given index on |
| Crawler.PageLinkTotals | backend/crawler/crawler.go:152-190 | on a page, internal plus external links is the number of counted anchors, and the inaccessible count equals the number of broken links recorded |
| Crawler.LastOrAppend | backend/crawler/crawler.go:93-97 | the last title over two stretches is the second's last, or the first's when the second has none |
| Crawler.VisitTitle | backend/crawler/crawler.go:93-97 | the page title is the last non-empty `<title>` in document order, the previous one when there is none |
| Crawler.VisitFromTitle | backend/crawler/crawler.go:113-115 | the same for the children from a given index on |
| Crawler.VisitLoginForm | backend/crawler/crawler.go:104-108 | the login-form flag is set exactly when it already was or some form in the tree is a login form |
| Crawler.VisitFromLoginForm | backend/crawler/crawler.go:113-115 | the same for the children from a given index on |
| Crawler.CrawlData.constructor | backend/crawler/crawler.go:59-62 | the analysis starts with no title, no counts and no broken links |
| Crawler.CrawlData.AnalyzeLink | backend/crawler/crawler.go:152-190 | checking an anchor updates the fields as the link step does |
| Crawler.CrawlData.AnalyzeHTML | backend/crawler/crawler.go:87-116 | the recursive walk updates the fields as the page walk does |
| Crawler.KeptLinks | backend/crawler/crawler.go:311-322 | the broken-link rows written are no more than the links and all belong to the new result |
| Crawler.KeptLinksAll | backend/crawler/crawler.go:311-322 | without insert failures every broken link is written, in order, with its URL, status code and message |
| Crawler.InsertBrokenLinks | backend/crawler/crawler.go:311-322 | the loop appends exactly the kept rows under fresh ids and leaves jobs, results and older links untouched |
| Crawler.StoreLinks | backend/crawler/crawler.go:311-322 | for a result with no links yet, the links that end up pointing at it are exactly the kept rows, under fresh consecutive ids |
| Crawler.StoreResult | backend/crawler/crawler.go:278-322 | the insert succeeds exactly when it does not fail and the job exists; then the new result holds the analysis and its links are exactly the kept rows |
| Crawler.SaveResults | backend/crawler/crawler.go:270-325 | a failed delete changes nothing; otherwise the job's old results are gone, other jobs' results are kept, and a save succeeds exactly when the insert does not fail and the job exists |
| Crawler.AnalysisOf | backend/crawler/crawler.go:286-300 | the saved columns are the analysis, with 0 for a heading level never met |
| Crawler.StatusAfter | backend/crawler/crawler.go:327-332 | a status update changes only that job's status, and a failed one changes nothing |
| Crawler.Analysable | backend/crawler/crawler.go:36-70 | the analysis runs only for a 200 response whose page parses and whose url parses |
| Crawler.CrawlURL | backend/crawler/crawler.go:27-85 | a failed download, a non-200 status, an unparsable page or an unparsable page URL marks the job failed and writes nothing; otherwise a saved analysis marks it completed and is the job's only result, and a failed save marks it failed |
| AuthMiddleware.BearerToken | backend/middleware/auth.go:35 | the token is what follows the `Bearer ` prefix |
| AuthMiddleware.Authenticate | backend/middleware/auth.go:17-70 | a request is admitted exactly when its header has the `Bearer ` scheme and the token is accepted with readable claims, which are then the caller's; a missing header, a wrong scheme, a rejected token and unreadable claims are refused with their own messages, in that order of checks |
| AuthMiddleware.HeaderChecksComeFirst | backend/middleware/auth.go:17-32 | a missing header or a wrong scheme is refused before any token is looked at |
| AuthMiddleware.DecisionDependsOnToken | backend/middleware/auth.go:35-68 | two headers with the same bearer token get the same decision |
| AuthMiddleware.ClientHeaderCarriesToken | frontend/src/services/api.ts:30-33 | the header the client builds from a stored token yields that token on the server |
| AuthMiddleware.ClientRequestAdmitted | frontend/src/services/api.ts:30-33 | a request with a stored token that the server accepts is admitted with that token's claims |
| AuthMiddleware.AnonymousRequestRefused | backend/middleware/auth.go:17-23 | a request sent without a stored token is refused as missing its header |
| AuthMiddleware.Context.constructor | backend/middleware/auth.go:17 | a request starts with its headers, empty keys, no reply, not aborted |
| AuthMiddleware.Context.Header | backend/middleware/auth.go:19 | an absent header reads as "" |
| AuthMiddleware.Context.Refuse | backend/middleware/auth.go:20-23 | a refusal replies 401 with the message and aborts, touching nothing else |
| AuthMiddleware.Context.Next | backend/middleware/auth.go:70 | the chain continues with the keys set so far |
| AuthMiddleware.Handle | backend/middleware/auth.go:17-70 | a refused request gets one 401 with the first failing check's message and never continues; an admitted one gets `user_id` and `username` set and then continues |
| Strings.Trim | frontend/src/components/AddURLModal.tsx:22 | trimming leaves no white space at either end and is empty exactly when the input is all white space |
| Strings.TrimPadded | backend/crawler/crawler.go:149 | trimming strips exactly the white space around a text |
| Strings.TrimIdempotent | frontend/src/components/AddURLModal.tsx:28 | trimming twice is trimming once |
| Strings.TrimPrefix | backend/middleware/auth.go:35 | removing a present prefix leaves what followed it; an absent prefix leaves the string unchanged |
| Strings.PrefixRoundTrip | backend/middleware/auth.go:35 | a prefix put in front of a text is recognised and removed again |
| Strings.ContainsIff | backend/crawler/crawler.go:225-227 | a string contains another exactly when it occurs at some position |
| Strings.ToLower | backend/crawler/crawler.go:224 | lower-casing keeps the length and lower-cases each character |
| Strings.Atoi | backend/handlers/urls.go:53 | a parsed number has an optional sign followed by digits, and has the sign of its text |
| Strings.AtoiOfIntToString | backend/handlers/urls.go:53 | parsing the decimal text of an id gives the id back |
| Strings.CountCharAppend | backend/handlers/urls.go:324-334 | the count of a character in a concatenation is the sum of the counts |
| Seqs.Filter | frontend/src/hooks/useToast.ts:17 | a filtered list holds exactly the elements that pass the test |
| Seqs.FilterAppend | frontend/src/components/URLTable.tsx:58 | filtering distributes over concatenation |
| Seqs.FilterCount | frontend/src/components/URLTable.tsx:58 | each element that passes keeps its number of occurrences; each that fails is gone |

## Left out

- Rendering is not modelled: JSX markup, CSS classes, Chart.js registration, icons, `formatDate` (locale-dependent) and `getStatusIcon`. Only the values the views compute are modelled.
- Login and registration (backend/handlers/auth.go:17-124) are not modelled: bcrypt hashing and JWT signing are library code.
- AuthMiddleware.Authenticate: JWT parsing, signature and expiry checking are an oracle (`verify`). The panic that `int(claims["user_id"].(float64))` raises on a claim of another type is not modelled. Readable claims always carry an id and a name.
- The network and HTML parsing are oracles: `http.Client` GET and HEAD, `html.Parse`, `url.Parse` and `ResolveReference`. The crawler receives the download outcome, whether the page URL parses, and an `Env` that resolves links and answers HEAD requests.
- Crawler.Env: `resolve` is not constrained to absolute URLs. In the source a link is resolved against the page URL that was just fetched, so its text always starts with a scheme, and the `#` skip of `isAccessibleLink` is never taken for a counted anchor. The model admits resolved links starting with `#`, and skips them as the source's check would.
- Crawler.IsAccessibleLink: the HEAD request's timeout and transport errors are folded into the oracle's `None` answer.
- SQL execution is an oracle: the store is `map<int, Row>` tables with the schema's cascading deletes.
  - `GetURLs` is modelled as the query text and arguments it builds, plus the count and rows handed back.
  - Errors of `LastInsertId` and `RowsAffected` are not modelled.
  - Timestamps (`created_at`, `updated_at`) are not modelled.
  - The schema has no uniqueness constraint on a job's result. "One result per job" (the last clause of `Database.Db.Valid`) holds only when crawls of one job do not overlap: each crawl's `saveResults` runs its DELETE and its INSERT as one step here. In the source, `StartCrawling` does not check that the job is idle and `StopCrawling` does not cancel a running crawl, so two crawls of one job can run at once. Both may DELETE before either INSERTs, which leaves the job with two results; the job list's LEFT JOIN then lists it twice and its COUNT counts it twice. The model does not capture that interleaving.
- ListHandler.GetURLs: does not state that at most `page_size` rows come back, because the `LIMIT` is enforced by the database, whose answer is an oracle here.
- ListHandler.GetURLs: Go's `int` is 64 bits, and `(page - 1) * page_size` (backend/handlers/auth.go:208) and `total + page_size - 1` (backend/handlers/auth.go:264) wrap around for very large `page` or `page_size`. ListHandler.Offset and ListHandler.TotalPages compute over unbounded integers, so for such inputs the model's offset and page count differ from the source's. For example, with `page_size` 9223372036854775807 and 5 jobs the source reports 0 pages and the model 1.
- ListHandler.SortColumn: makes no claim about SQL safety. The unknown-column case appends the caller's text unchanged, as the source does.
- Strings.Atoi: Go's out-of-range error for numbers that do not fit in 64 bits is not modelled. Integers are unbounded.
- Strings.Trim, Strings.ToLower: only ASCII white space and ASCII letters are handled, whereas Go and JavaScript use Unicode tables.
- Concurrency and timing are not modelled:
  - `go crawler.CrawlURL` goroutines become `Launch` records returned by the handlers.
  - `setInterval` becomes an entry in a map of live timers, added and removed. The timers are never fired over time.
  - Of React scheduling, only the order matters (an effect's cleanup before its next run), and only that order is modelled.
- The toast id generated from `Date.now` and `Math.random` is a parameter of `addToast`.
- The route id parsed with `parseInt` in the details page is an `Option<int>` parameter.
- Not modelled: frontend/src/App.tsx, frontend/src/contexts/AuthContext.ts, the routing and CORS of backend/main.go, and the connection and table-creation code of backend/database/database.go.
- The client calls `PUT /urls/{id}/rerun` and `/results/{id}/broken-links`, which the server never registers. They are modelled only as client calls that may fail, and nothing is assumed about a server side for them.
- Not modelled, because the source does not have them:
  - discarding of stale responses;
  - coalescing of overlapping poll refreshes;
  - pruning of the selection after a single-row delete.

## Findings

| source | as written | input that shows it | evidently intended | confidence | as-written member | corrected member |
|---|---|---|---|---|---|---|
| backend/handlers/auth.go:222 | the job list starts as a nil slice and stays nil when no row comes back, so a page with no rows is encoded as `"data": null` (shown by ListHandler.NoRowsEncodeAsNull); the table reads `urls.length` (frontend/src/components/URLTable.tsx:108), which throws on `null` | a user with no jobs (count 0, no rows, default query) | an empty page sends `"data": []` | not executed | ListHandler.GetURLs | ListHandler.GetURLsCorrected |
