/**
 * The job handlers: create, read, start, stop, delete, read results, and the two bulk
 * operations. Each reads the caller's id from the request context, parses the path
 * id, checks ownership, changes the store and writes one reply. A store call that
 * fails is a boolean parameter; the rows a query returns are a parameter where the
 * handler loops over them.
 */
module UrlHandlers {
  import opened Wrappers
  import opened Strings
  import opened Models
  import opened Database
  import opened Responses
  import opened Seqs

  const InvalidId := "Invalid URL ID"
  const UrlNotFound := "URL not found"
  const ResultsNotFound := "Results not found"
  const NoIds := "No IDs provided"

  /** A crawl the handler started in the background. */
  datatype Launch = Launch(urlId: int, url: string)

  /** A broken-link row as the driver scans it. */
  datatype LinkScan = LinkScan(id: int, url: string, statusCode: int, errorMessage: string)

  /** The job record a reply carries. */
  function ItemOf(db: Db, id: int, userId: int): (item: URLItem)
    reads db
    requires db.Valid() && id in db.urls
    ensures item.id == id && item.userId == userId && item.url == db.urls[id].url
    ensures item.status == db.urls[id].status
    ensures item.result.Some? <==> db.ResultOf(id).Some?
  {
    var row := db.urls[id];
    var result := match db.ResultOf(id)
      case None => None
      case Some(rid) => Some(ResultOf(rid, id, db.results[rid].analysis, None));
    URLItem(id, userId, row.url, row.status, result)
  }

  function ResultOf(rid: int, urlId: int, a: Analysis, links: Option<seq<BrokenLink>>): CrawlResult {
    CrawlResult(rid, urlId, a.title, a.htmlVersion, a.h1, a.h2, a.h3, a.h4, a.h5, a.h6,
                a.internalLinks, a.externalLinks, a.inaccessibleLinks, a.hasLoginForm, links)
  }

  /** `POST /urls`: a new job of the caller's, always queued. */
  method CreateURL(db: Db, userId: int, bind: Result<string, string>, insertFails: bool)
    returns (resp: Response)
    requires db.Valid()
    modifies db
    ensures db.Valid()
    ensures bind.Err? ==> resp == Error(StatusBadRequest, bind.error) && db.urls == old(db.urls)
    ensures bind.Ok? && insertFails ==>
      resp == Error(StatusInternalServerError, "Failed to create URL") && db.urls == old(db.urls)
    ensures bind.Ok? && !insertFails ==>
      var id := old(db.nextUrlId);
      id !in old(db.urls) && db.urls == old(db.urls)[id := UrlRow(userId, bind.value, Queued)] &&
      resp == Reply(StatusCreated, Success("URL created successfully",
                    Some(UrlData(URLItem(id, userId, bind.value, Queued, None)))))
    ensures db.results == old(db.results) && db.links == old(db.links)
  {
    if bind.Err? {
      return Error(StatusBadRequest, bind.error);
    }
    if insertFails {
      return Error(StatusInternalServerError, "Failed to create URL");
    }
    var id := db.InsertUrl(userId, bind.value, Queued);
    resp := Reply(StatusCreated, Success("URL created successfully",
                  Some(UrlData(URLItem(id, userId, bind.value, Queued, None)))));
  }

  /** `GET /urls/:id`: the caller's job with its result, if any. */
  method GetURL(db: Db, userId: int, idParam: string, queryFails: bool) returns (resp: Response)
    requires db.Valid()
    ensures Atoi(idParam).None? ==> resp == Error(StatusBadRequest, InvalidId)
    ensures Atoi(idParam).Some? && queryFails ==>
      resp == Error(StatusInternalServerError, "Failed to get URL")
    ensures Atoi(idParam).Some? && !queryFails && !db.Owns(userId, Atoi(idParam).value) ==>
      resp == Error(StatusNotFound, UrlNotFound)
    ensures Atoi(idParam).Some? && !queryFails && db.Owns(userId, Atoi(idParam).value) ==>
      resp == Reply(StatusOK, ItemBody(ItemOf(db, Atoi(idParam).value, userId)))
  {
    var parsed := Atoi(idParam);
    if parsed.None? {
      return Error(StatusBadRequest, InvalidId);
    }
    var id := parsed.value;
    if queryFails {
      return Error(StatusInternalServerError, "Failed to get URL");
    }
    if !db.Owns(userId, id) {
      return Error(StatusNotFound, UrlNotFound);
    }
    resp := Reply(StatusOK, ItemBody(ItemOf(db, id, userId)));
  }

  /**
   * The shared shape of start and stop: parse, check ownership, set the status and
   * reply `message`; nothing changes on any failure.
   */
  method SetOwnedStatus(db: Db, userId: int, idParam: string, selectFails: bool, updateFails: bool,
                        status: Status, message: string)
    returns (resp: Response, changed: Option<int>)
    requires db.Valid()
    modifies db
    ensures db.Valid()
    ensures Atoi(idParam).None? ==> resp == Error(StatusBadRequest, InvalidId)
    ensures Atoi(idParam).Some? && selectFails ==> resp == Error(StatusInternalServerError, "Failed to get URL")
    ensures Atoi(idParam).Some? && !selectFails && !old(db.Owns(userId, Atoi(idParam).value)) ==>
      resp == Error(StatusNotFound, UrlNotFound)
    ensures Atoi(idParam).Some? && !selectFails && old(db.Owns(userId, Atoi(idParam).value)) && updateFails ==>
      resp == Error(StatusInternalServerError, "Failed to update URL status")
    ensures changed.Some? <==>
      Atoi(idParam).Some? && !selectFails && old(db.Owns(userId, Atoi(idParam).value)) && !updateFails
    ensures changed.Some? ==>
      changed.value == Atoi(idParam).value &&
      db.urls == old(db.urls)[changed.value := old(db.urls)[changed.value].(status := status)] &&
      resp == Reply(StatusOK, Success(message, None))
    ensures changed.None? ==> db.urls == old(db.urls)
    ensures db.results == old(db.results) && db.links == old(db.links)
  {
    changed := None;
    var parsed := Atoi(idParam);
    if parsed.None? {
      return Error(StatusBadRequest, InvalidId), None;
    }
    var id := parsed.value;
    if selectFails {
      return Error(StatusInternalServerError, "Failed to get URL"), None;
    }
    if !db.Owns(userId, id) {
      return Error(StatusNotFound, UrlNotFound), None;
    }
    if updateFails {
      return Error(StatusInternalServerError, "Failed to update URL status"), None;
    }
    db.SetStatus(id, status);
    resp := Reply(StatusOK, Success(message, None));
    changed := Some(id);
  }

  /** `PUT /urls/:id/start`: the job becomes running and a crawl of its URL starts. */
  method StartCrawling(db: Db, userId: int, idParam: string, selectFails: bool, updateFails: bool)
    returns (resp: Response, launch: Option<Launch>)
    requires db.Valid()
    modifies db
    ensures db.Valid()
    ensures launch.Some? <==>
      Atoi(idParam).Some? && !selectFails && old(db.Owns(userId, Atoi(idParam).value)) && !updateFails
    ensures launch.Some? ==>
      var id := Atoi(idParam).value;
      launch.value == Launch(id, old(db.urls)[id].url) &&
      db.urls == old(db.urls)[id := old(db.urls)[id].(status := Running)] &&
      resp == Reply(StatusOK, Success("Crawling started", None))
    ensures launch.None? ==> db.urls == old(db.urls) && resp.Reply? && resp.status != StatusOK
    ensures db.results == old(db.results) && db.links == old(db.links)
  {
    var url := "";
    var parsed := Atoi(idParam);
    if parsed.Some? && parsed.value in db.urls {
      url := db.urls[parsed.value].url;
    }
    var changed;
    resp, changed := SetOwnedStatus(db, userId, idParam, selectFails, updateFails, Running, "Crawling started");
    launch := if changed.Some? then Some(Launch(changed.value, url)) else None;
  }

  /** `PUT /urls/:id/stop`: the job goes back to queued; a running crawl is not cancelled. */
  method StopCrawling(db: Db, userId: int, idParam: string, selectFails: bool, updateFails: bool)
    returns (resp: Response)
    requires db.Valid()
    modifies db
    ensures db.Valid()
    ensures Atoi(idParam).Some? && !selectFails && old(db.Owns(userId, Atoi(idParam).value)) && !updateFails ==>
      var id := Atoi(idParam).value;
      db.urls == old(db.urls)[id := old(db.urls)[id].(status := Queued)] &&
      resp == Reply(StatusOK, Success("Crawling stopped", None))
    ensures !(Atoi(idParam).Some? && !selectFails && old(db.Owns(userId, Atoi(idParam).value)) && !updateFails) ==>
      db.urls == old(db.urls) && resp.Reply? && resp.status != StatusOK
    ensures db.results == old(db.results) && db.links == old(db.links)
  {
    var changed;
    resp, changed := SetOwnedStatus(db, userId, idParam, selectFails, updateFails, Queued, "Crawling stopped");
  }

  /** `DELETE /urls/:id`: removes the caller's job with its results and broken links. */
  method DeleteURL(db: Db, userId: int, idParam: string, deleteFails: bool) returns (resp: Response)
    requires db.Valid()
    modifies db
    ensures db.Valid()
    ensures Atoi(idParam).None? ==> resp == Error(StatusBadRequest, InvalidId) && db.urls == old(db.urls)
    ensures Atoi(idParam).Some? && deleteFails ==>
      resp == Error(StatusInternalServerError, "Failed to delete URL") && db.urls == old(db.urls)
    ensures Atoi(idParam).Some? && !deleteFails && !old(db.Owns(userId, Atoi(idParam).value)) ==>
      resp == Error(StatusNotFound, UrlNotFound) && db.urls == old(db.urls) &&
      db.results == old(db.results) && db.links == old(db.links)
    ensures Atoi(idParam).Some? && !deleteFails && old(db.Owns(userId, Atoi(idParam).value)) ==>
      resp == Reply(StatusOK, Success("URL deleted successfully", None)) &&
      db.urls == WithoutUrls(old(db.urls), {Atoi(idParam).value}) &&
      db.results == ResultsOfUrls(old(db.results), db.urls) &&
      db.links == LinksOfResults(old(db.links), db.results)
    ensures Atoi(idParam).None? || deleteFails ==> db.results == old(db.results) && db.links == old(db.links)
  {
    var parsed := Atoi(idParam);
    if parsed.None? {
      return Error(StatusBadRequest, InvalidId);
    }
    var id := parsed.value;
    if deleteFails {
      return Error(StatusInternalServerError, "Failed to delete URL");
    }
    var rowsAffected := if db.Owns(userId, id) then 1 else 0;
    if rowsAffected == 0 {
      return Error(StatusNotFound, UrlNotFound);
    }
    db.DeleteUrls({id});
    resp := Reply(StatusOK, Success("URL deleted successfully", None));
  }

  /** The broken links the loop collects: rows that scanned, tagged with the result id. */
  function ScannedLinks(rows: seq<Option<LinkScan>>, resultId: int): (r: seq<BrokenLink>)
    ensures |r| <= |rows|
    ensures forall i :: 0 <= i < |r| ==> r[i].resultId == resultId
  {
    if rows == [] then []
    else
      var rest := ScannedLinks(rows[..|rows| - 1], resultId);
      match rows[|rows| - 1]
      case None => rest
      case Some(l) => rest + [BrokenLink(l.id, resultId, l.url, l.statusCode, l.errorMessage)]
  }

  /**
   * The row loop of `GetResults`. A slice nothing was appended to stays nil, and the
   * `omitempty` field is then absent from the reply.
   */
  method CollectLinks(rows: seq<Option<LinkScan>>, resultId: int) returns (links: Option<seq<BrokenLink>>)
    ensures links.None? <==> ScannedLinks(rows, resultId) == []
    ensures links.Some? ==> links.value == ScannedLinks(rows, resultId)
  {
    links := None;
    var i := 0;
    while i < |rows|
      invariant 0 <= i <= |rows|
      invariant links.None? <==> ScannedLinks(rows[..i], resultId) == []
      invariant links.Some? ==> links.value == ScannedLinks(rows[..i], resultId)
    {
      assert rows[..i + 1][..i] == rows[..i];
      match rows[i] {
        case None =>
        case Some(l) =>
          var link := BrokenLink(l.id, resultId, l.url, l.statusCode, l.errorMessage);
          links := Some(links.GetOr([]) + [link]);
      }
      i := i + 1;
    }
    assert rows[..|rows|] == rows;
  }

  /** A row that fails to scan contributes nothing; the others appear in order. */
  lemma {:induction false} ScannedLinksAppend(a: seq<Option<LinkScan>>, b: seq<Option<LinkScan>>, resultId: int)
    ensures ScannedLinks(a + b, resultId) == ScannedLinks(a, resultId) + ScannedLinks(b, resultId)
    decreases |b|
  {
    if b == [] {
      assert a + b == a;
    } else {
      var b' := b[..|b| - 1];
      assert (a + b)[..|a + b| - 1] == a + b';
      assert (a + b)[|a + b| - 1] == b[|b| - 1];
      ScannedLinksAppend(a, b', resultId);
    }
  }

  /** The stored broken link `l` stands for: a row of result `resultId` with the same columns. */
  predicate StoredAs(links: map<int, LinkRow>, resultId: int, l: BrokenLink) {
    l.id in links && links[l.id] == LinkRow(resultId, l.url, l.statusCode, l.errorMessage) && l.resultId == resultId
  }

  /** The broken-link select answered truthfully: every row that scans is a stored link of the result. */
  ghost predicate RowsAreLinksOf(links: map<int, LinkRow>, resultId: int, rows: seq<Option<LinkScan>>) {
    forall i :: 0 <= i < |rows| && rows[i].Some? ==>
      var l := rows[i].value;
      l.id in links && links[l.id] == LinkRow(resultId, l.url, l.statusCode, l.errorMessage)
  }

  /** Every stored link of the result came back as a row that scanned. */
  ghost predicate RowsCoverLinksOf(links: map<int, LinkRow>, resultId: int, rows: seq<Option<LinkScan>>) {
    forall k :: k in links && links[k].resultId == resultId ==>
      exists i :: 0 <= i < |rows| && rows[i].Some? && rows[i].value.id == k
  }

  /**
   * Over a truthful select, the collected links are stored links of the result; when
   * every stored link came back, each of them is collected.
   */
  lemma {:induction false} ScannedLinksAreStored(links: map<int, LinkRow>, resultId: int, rows: seq<Option<LinkScan>>)
    requires RowsAreLinksOf(links, resultId, rows)
    ensures forall l :: l in ScannedLinks(rows, resultId) ==> StoredAs(links, resultId, l)
    ensures RowsCoverLinksOf(links, resultId, rows) ==>
      forall k :: k in links && links[k].resultId == resultId ==>
        BrokenLink(k, resultId, links[k].url, links[k].statusCode, links[k].errorMessage) in ScannedLinks(rows, resultId)
    decreases |rows|
  {
    if rows != [] {
      var init := rows[..|rows| - 1];
      assert forall i :: 0 <= i < |init| ==> init[i] == rows[i];
      ScannedLinksAreStored(links, resultId, init);
      if RowsCoverLinksOf(links, resultId, rows) {
        forall k | k in links && links[k].resultId == resultId
          ensures BrokenLink(k, resultId, links[k].url, links[k].statusCode, links[k].errorMessage) in ScannedLinks(rows, resultId)
        {
          var i :| 0 <= i < |rows| && rows[i].Some? && rows[i].value.id == k;
          RowScanned(rows, resultId, i);
        }
      }
    }
  }

  /** A row that scans contributes its link. */
  lemma {:induction false} RowScanned(rows: seq<Option<LinkScan>>, resultId: int, i: int)
    requires 0 <= i < |rows| && rows[i].Some?
    ensures var l := rows[i].value;
      BrokenLink(l.id, resultId, l.url, l.statusCode, l.errorMessage) in ScannedLinks(rows, resultId)
    decreases |rows|
  {
    var init := rows[..|rows| - 1];
    if i < |init| {
      assert init[i] == rows[i];
      RowScanned(init, resultId, i);
    }
  }

  /** `GET /urls/:id/results`: the result of the caller's job with its broken links. */
  method GetResults(db: Db, userId: int, idParam: string, queryFails: bool, linksFail: bool,
                    rows: seq<Option<LinkScan>>) returns (resp: Response)
    requires db.Valid()
    ensures Atoi(idParam).None? ==> resp == Error(StatusBadRequest, InvalidId)
    ensures Atoi(idParam).Some? && queryFails ==> resp == Error(StatusInternalServerError, "Failed to get results")
    ensures Atoi(idParam).Some? && !queryFails &&
            !(db.Owns(userId, Atoi(idParam).value) && db.ResultOf(Atoi(idParam).value).Some?) ==>
      resp == Error(StatusNotFound, ResultsNotFound)
    ensures Atoi(idParam).Some? && !queryFails && db.Owns(userId, Atoi(idParam).value) &&
            db.ResultOf(Atoi(idParam).value).Some? ==>
      var id := Atoi(idParam).value;
      var rid := db.ResultOf(id).value;
      var scanned := ScannedLinks(rows, rid);
      (linksFail ==> resp == Error(StatusInternalServerError, "Failed to get broken links")) &&
      (!linksFail ==> resp == Reply(StatusOK, ResultBody(
        ResultOf(rid, id, db.results[rid].analysis, if scanned == [] then None else Some(scanned))))) &&
      (RowsAreLinksOf(db.links, rid, rows) ==> forall l :: l in scanned ==> StoredAs(db.links, rid, l)) &&
      (RowsAreLinksOf(db.links, rid, rows) && RowsCoverLinksOf(db.links, rid, rows) ==>
        forall k :: k in db.links && db.links[k].resultId == rid ==>
          BrokenLink(k, rid, db.links[k].url, db.links[k].statusCode, db.links[k].errorMessage) in scanned)
  {
    var parsed := Atoi(idParam);
    if parsed.None? {
      return Error(StatusBadRequest, InvalidId);
    }
    var id := parsed.value;
    if queryFails {
      return Error(StatusInternalServerError, "Failed to get results");
    }
    if !db.Owns(userId, id) || db.ResultOf(id).None? {
      return Error(StatusNotFound, ResultsNotFound);
    }
    var rid := db.ResultOf(id).value;
    if RowsAreLinksOf(db.links, rid, rows) {
      ScannedLinksAreStored(db.links, rid, rows);
    }
    if linksFail {
      return Error(StatusInternalServerError, "Failed to get broken links");
    }
    var links := CollectLinks(rows, rid);
    resp := Reply(StatusOK, ResultBody(ResultOf(rid, id, db.results[rid].analysis, links)));
  }

  // ---- the IN-list builder of the bulk handlers ----

  /** `n` placeholders separated by commas. */
  function Placeholders(n: nat): string {
    if n == 0 then "" else if n == 1 then "?" else Placeholders(n - 1) + ",?"
  }

  /** The placeholder list alternates `?` and `,`, starting and ending with `?`. */
  lemma {:induction false} PlaceholdersShape(n: nat)
    ensures n > 0 ==> |Placeholders(n)| == 2 * n - 1
    ensures n == 0 ==> Placeholders(n) == ""
    ensures forall k :: 0 <= k < |Placeholders(n)| ==>
      Placeholders(n)[k] == if k % 2 == 0 then '?' else ','
  {
    if n > 1 {
      PlaceholdersShape(n - 1);
      var p := Placeholders(n - 1);
      assert Placeholders(n) == p + ",?";
      forall k | 0 <= k < |Placeholders(n)|
        ensures Placeholders(n)[k] == if k % 2 == 0 then '?' else ','
      {
        if k < |p| {
          assert Placeholders(n)[k] == p[k];
        }
      }
    }
  }

  /** Placeholders(n) has exactly n `?`, one per id. */
  lemma {:induction false} PlaceholderCount(n: nat)
    ensures CountChar(Placeholders(n), '?') == n
  {
    if n > 1 {
      PlaceholderCount(n - 1);
      var p := Placeholders(n - 1);
      assert (p + ",?")[..|p + ",?"| - 1] == p + ",";
      assert (p + ",")[..|p + ","| - 1] == p;
    } else if n == 1 {
      assert "?"[..0] == "";
    }
  }

  function IdArgs(ids: seq<int>): (r: seq<Arg>)
    ensures |r| == |ids|
    ensures forall k :: 0 <= k < |ids| ==> r[k] == IntArg(ids[k])
  {
    if ids == [] then [] else IdArgs(ids[..|ids| - 1]) + [IntArg(ids[|ids| - 1])]
  }

  /** The loop that appends one placeholder and one argument per id. */
  method BuildInList(prefix: string, userId: int, ids: seq<int>) returns (query: string, args: seq<Arg>)
    ensures query == prefix + Placeholders(|ids|) + ")"
    ensures args == [IntArg(userId)] + IdArgs(ids)
  {
    query := prefix;
    args := [IntArg(userId)];
    var i := 0;
    while i < |ids|
      invariant 0 <= i <= |ids|
      invariant query == prefix + Placeholders(i)
      invariant args == [IntArg(userId)] + IdArgs(ids[..i])
    {
      if i > 0 {
        query := query + ",";
      }
      query := query + "?";
      args := args + [IntArg(ids[i])];
      assert ids[..i + 1][..i] == ids[..i];
      i := i + 1;
    }
    assert ids[..|ids|] == ids;
    query := query + ")";
  }

  const BulkDeletePrefix := "DELETE FROM urls WHERE user_id = ? AND id IN ("
  const BulkSelectPrefix := "SELECT id, url FROM urls WHERE user_id = ? AND id IN ("

  /** The caller's jobs among `ids`. */
  function OwnedAmong(db: Db, userId: int, ids: seq<int>): (r: set<int>)
    reads db
    ensures forall k :: k in r <==> k in ids && db.Owns(userId, k)
  {
    set k | k in ids && db.Owns(userId, k)
  }

  /**
   * `POST /bulk/delete`. An absent id list fails binding; an empty one is refused;
   * otherwise exactly the caller's listed jobs go, and the reply counts them.
   */
  method BulkDeleteURLs(db: Db, userId: int, bind: Result<seq<int>, string>, deleteFails: bool)
    returns (resp: Response, query: Option<(string, seq<Arg>)>)
    requires db.Valid()
    modifies db
    ensures db.Valid()
    ensures bind.Err? ==> resp == Error(StatusBadRequest, bind.error) && query.None?
    ensures bind.Ok? && bind.value == [] ==> resp == Error(StatusBadRequest, NoIds) && query.None?
    ensures bind.Ok? && bind.value != [] ==>
      query == Some((BulkDeletePrefix + Placeholders(|bind.value|) + ")",
                     [IntArg(userId)] + IdArgs(bind.value)))
    ensures bind.Ok? && bind.value != [] && deleteFails ==>
      resp == Error(StatusInternalServerError, "Failed to delete URLs")
    ensures !(bind.Ok? && bind.value != [] && !deleteFails) ==>
      db.urls == old(db.urls) && db.results == old(db.results) && db.links == old(db.links)
    ensures bind.Ok? && bind.value != [] && !deleteFails ==>
      var gone := old(OwnedAmong(db, userId, bind.value));
      db.urls == WithoutUrls(old(db.urls), gone) &&
      db.results == ResultsOfUrls(old(db.results), db.urls) &&
      db.links == LinksOfResults(old(db.links), db.results) &&
      resp == Reply(StatusOK, Success("URLs deleted successfully", Some(CountData("deleted_count", |gone|))))
  {
    query := None;
    if bind.Err? {
      return Error(StatusBadRequest, bind.error), None;
    }
    var ids := bind.value;
    if |ids| == 0 {
      return Error(StatusBadRequest, NoIds), None;
    }
    var q, args := BuildInList(BulkDeletePrefix, userId, ids);
    query := Some((q, args));
    if deleteFails {
      return Error(StatusInternalServerError, "Failed to delete URLs"), query;
    }
    var gone := OwnedAmong(db, userId, ids);
    db.DeleteUrls(gone);
    resp := Reply(StatusOK, Success("URLs deleted successfully", Some(CountData("deleted_count", |gone|))));
  }

  /** A job row as the bulk rerun's select scans it. */
  datatype JobScan = JobScan(id: int, url: string)

  function ScannedJobs(rows: seq<Option<JobScan>>): (r: seq<JobScan>)
    ensures |r| <= |rows|
    ensures forall i :: 0 <= i < |r| ==> Some(r[i]) in rows
  {
    if rows == [] then []
    else
      var rest := ScannedJobs(rows[..|rows| - 1]);
      assert forall x :: x in rows[..|rows| - 1] ==> x in rows;
      match rows[|rows| - 1]
      case None => rest
      case Some(j) => rest + [j]
  }

  /** The select answered truthfully: it returned the caller's listed jobs, each once. */
  ghost predicate AnswersSelect(urls: map<int, UrlRow>, userId: int, ids: seq<int>, rows: seq<Option<JobScan>>) {
    forall i :: 0 <= i < |rows| && rows[i].Some? ==>
      var j := rows[i].value;
      j.id in ids && j.id in urls && urls[j.id].userId == userId && urls[j.id].url == j.url
  }

  /** The statuses after setting each job in `jobs` whose update did not fail to running. */
  function RerunAll(urls: map<int, UrlRow>, jobs: seq<JobScan>, updateFails: set<int>): (r: map<int, UrlRow>)
    ensures r.Keys == urls.Keys
    ensures forall k :: k in urls ==> r[k] == urls[k].(status := r[k].status)
    ensures forall i :: 0 <= i < |jobs| && jobs[i].id !in updateFails && jobs[i].id in urls ==>
      r[jobs[i].id] == urls[jobs[i].id].(status := Running)
    ensures forall k :: k in urls && (forall i :: 0 <= i < |jobs| && jobs[i].id == k ==> k in updateFails) ==>
      r[k] == urls[k]
  {
    if jobs == [] then urls
    else
      var init := jobs[..|jobs| - 1];
      var prev := RerunAll(urls, init, updateFails);
      var j := jobs[|jobs| - 1];
      assert forall i :: 0 <= i < |init| ==> init[i] == jobs[i];
      if j.id in updateFails || j.id !in prev then prev else prev[j.id := prev[j.id].(status := Running)]
  }

  /** The crawls started: the scanned jobs whose update did not fail, in scan order. */
  function Launched(jobs: seq<JobScan>, updateFails: set<int>): (r: seq<Launch>)
    ensures |r| <= |jobs|
    ensures forall i :: 0 <= i < |jobs| && jobs[i].id !in updateFails ==> LaunchOf(jobs[i]) in r
  {
    if jobs == [] then []
    else
      var j := jobs[|jobs| - 1];
      Launched(jobs[..|jobs| - 1], updateFails) + (if j.id in updateFails then [] else [LaunchOf(j)])
  }

  /** The crawl a job's rerun starts. */
  function LaunchOf(j: JobScan): Launch {
    Launch(j.id, j.url)
  }

  /** The launches of `jobs`, one per job, in order. */
  function LaunchesOf(jobs: seq<JobScan>): (r: seq<Launch>)
    ensures |r| == |jobs|
    ensures forall i :: 0 <= i < |jobs| ==> r[i] == LaunchOf(jobs[i])
  {
    seq(|jobs|, i requires 0 <= i < |jobs| => LaunchOf(jobs[i]))
  }

  /** The filter a rerun applies: the jobs whose update did not fail. */
  function Updated(updateFails: set<int>): JobScan -> bool {
    (j: JobScan) => j.id !in updateFails
  }

  /**
   * The launches, in order, are those of the jobs whose update succeeded: the loop's
   * accumulation agrees with filtering the scanned jobs and launching each one.
   */
  lemma {:induction false} LaunchedIsFilter(jobs: seq<JobScan>, updateFails: set<int>)
    ensures Launched(jobs, updateFails) == LaunchesOf(Filter(jobs, Updated(updateFails)))
    decreases |jobs|
  {
    if jobs != [] {
      var init := jobs[..|jobs| - 1];
      var j := jobs[|jobs| - 1];
      var keep := Updated(updateFails);
      LaunchedIsFilter(init, updateFails);
      assert jobs == init + [j];
      FilterAppend(init, [j], keep);
      var b := Filter([j], keep);
      assert b == (if keep(j) then [j] else []) + Filter([], keep);
      LaunchesOfAppend(Filter(init, keep), b);
    }
  }

  lemma LaunchesOfAppend(a: seq<JobScan>, b: seq<JobScan>)
    ensures LaunchesOf(a + b) == LaunchesOf(a) + LaunchesOf(b)
  {
    assert forall i :: 0 <= i < |a + b| ==> LaunchesOf(a + b)[i] == (LaunchesOf(a) + LaunchesOf(b))[i];
  }

  /**
   * `POST /bulk/rerun`: select the caller's listed jobs, set each to running and start
   * its crawl; an update that fails skips that job. The reply counts the jobs found,
   * including those whose update failed.
   */
  method BulkRerunURLs(db: Db, userId: int, bind: Result<seq<int>, string>, selectFails: bool,
                       rows: seq<Option<JobScan>>, updateFails: set<int>)
    returns (resp: Response, launches: seq<Launch>)
    requires db.Valid()
    modifies db
    ensures db.Valid()
    ensures bind.Err? ==> resp == Error(StatusBadRequest, bind.error)
    ensures bind.Ok? && bind.value == [] ==> resp == Error(StatusBadRequest, NoIds)
    ensures bind.Ok? && bind.value != [] && selectFails ==> resp == Error(StatusInternalServerError, "Failed to get URLs")
    ensures !(bind.Ok? && bind.value != [] && !selectFails) ==> db.urls == old(db.urls) && launches == []
    ensures bind.Ok? && bind.value != [] && !selectFails ==>
      db.urls == RerunAll(old(db.urls), ScannedJobs(rows), updateFails) &&
      launches == Launched(ScannedJobs(rows), updateFails) &&
      resp == Reply(StatusOK, Success("URLs rerun started", Some(CountData("rerun_count", |ScannedJobs(rows)|))))
    ensures bind.Ok? && bind.value != [] && !selectFails && AnswersSelect(old(db.urls), userId, bind.value, rows) ==>
      forall k :: k in db.urls && db.urls[k] != old(db.urls)[k] ==> k in bind.value && old(db.Owns(userId, k))
    ensures bind.Ok? && bind.value != [] && !selectFails && AnswersSelect(old(db.urls), userId, bind.value, rows) ==>
      forall i :: 0 <= i < |ScannedJobs(rows)| && ScannedJobs(rows)[i].id !in updateFails ==>
        var j := ScannedJobs(rows)[i];
        db.urls[j.id] == old(db.urls)[j.id].(status := Running) && LaunchOf(j) in launches
    ensures db.results == old(db.results) && db.links == old(db.links)
  {
    launches := [];
    if bind.Err? {
      return Error(StatusBadRequest, bind.error), [];
    }
    var ids := bind.value;
    if |ids| == 0 {
      return Error(StatusBadRequest, NoIds), [];
    }
    var q, args := BuildInList(BulkSelectPrefix, userId, ids);
    if selectFails {
      return Error(StatusInternalServerError, "Failed to get URLs"), [];
    }
    var jobs := ScanJobs(rows);
    ghost var before := db.urls;
    launches := RerunJobs(db, jobs, updateFails);
    resp := Reply(StatusOK, Success("URLs rerun started", Some(CountData("rerun_count", |jobs|))));
    if AnswersSelect(before, userId, ids, rows) {
      ScannedAreSelected(before, userId, ids, rows);
    }
  }

  /** The scan loop: rows that fail to scan are skipped. */
  method ScanJobs(rows: seq<Option<JobScan>>) returns (jobs: seq<JobScan>)
    ensures jobs == ScannedJobs(rows)
  {
    jobs := [];
    var i := 0;
    while i < |rows|
      invariant 0 <= i <= |rows|
      invariant jobs == ScannedJobs(rows[..i])
    {
      assert rows[..i + 1][..i] == rows[..i];
      if rows[i].Some? {
        jobs := jobs + [rows[i].value];
      }
      i := i + 1;
    }
    assert rows[..|rows|] == rows;
  }

  /** The update loop: each job whose update succeeds becomes running and is launched. */
  method RerunJobs(db: Db, jobs: seq<JobScan>, updateFails: set<int>) returns (launches: seq<Launch>)
    requires db.Valid()
    modifies db
    ensures db.Valid()
    ensures db.urls == RerunAll(old(db.urls), jobs, updateFails)
    ensures launches == Launched(jobs, updateFails)
    ensures db.results == old(db.results) && db.links == old(db.links)
  {
    launches := [];
    var n := 0;
    while n < |jobs|
      invariant 0 <= n <= |jobs|
      invariant db.Valid()
      invariant db.urls == RerunAll(old(db.urls), jobs[..n], updateFails)
      invariant launches == Launched(jobs[..n], updateFails)
      invariant db.results == old(db.results) && db.links == old(db.links)
    {
      assert jobs[..n + 1][..n] == jobs[..n];
      var j := jobs[n];
      if j.id !in updateFails {
        db.SetStatus(j.id, Running);
        launches := launches + [LaunchOf(j)];
      }
      n := n + 1;
    }
    assert jobs[..|jobs|] == jobs;
  }

  lemma ScannedAreSelected(urls: map<int, UrlRow>, userId: int, ids: seq<int>, rows: seq<Option<JobScan>>)
    requires AnswersSelect(urls, userId, ids, rows)
    ensures forall i :: 0 <= i < |ScannedJobs(rows)| ==>
      ScannedJobs(rows)[i].id in ids && ScannedJobs(rows)[i].id in urls &&
      urls[ScannedJobs(rows)[i].id].userId == userId
  {
    var s := ScannedJobs(rows);
    forall i | 0 <= i < |s| ensures s[i].id in ids && s[i].id in urls && urls[s[i].id].userId == userId {
      assert Some(s[i]) in rows;
      var k :| 0 <= k < |rows| && rows[k] == Some(s[i]);
    }
  }
}
