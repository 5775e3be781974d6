/**
 * The relational store as maps from primary key to row: jobs, crawl results and
 * broken links. A result references its job and a broken link its result; deleting
 * rows cascades along both references.
 */
module Database {
  import opened Wrappers
  import opened Models

  /** A bound SQL argument. */
  datatype Arg = IntArg(i: int) | TextArg(s: string)

  datatype UrlRow = UrlRow(userId: int, url: string, status: Status)

  /** The analysis columns of a crawl result. */
  datatype Analysis = Analysis(
    title: string, htmlVersion: string,
    h1: int, h2: int, h3: int, h4: int, h5: int, h6: int,
    internalLinks: int, externalLinks: int, inaccessibleLinks: int, hasLoginForm: bool)

  datatype ResultRow = ResultRow(urlId: int, analysis: Analysis)

  datatype LinkRow = LinkRow(resultId: int, url: string, statusCode: int, errorMessage: string)

  /** The jobs left after removing `gone`. */
  function WithoutUrls(urls: map<int, UrlRow>, gone: set<int>): (r: map<int, UrlRow>)
    ensures forall k :: k in r <==> k in urls && k !in gone
    ensures forall k :: k in r ==> r[k] == urls[k]
  {
    map k | k in urls && k !in gone :: urls[k]
  }

  /** The results whose job is still present. */
  function ResultsOfUrls(results: map<int, ResultRow>, urls: map<int, UrlRow>): (r: map<int, ResultRow>)
    ensures forall k :: k in r <==> k in results && results[k].urlId in urls
    ensures forall k :: k in r ==> r[k] == results[k]
  {
    map k | k in results && results[k].urlId in urls :: results[k]
  }

  /** The broken links whose result is still present. */
  function LinksOfResults(links: map<int, LinkRow>, results: map<int, ResultRow>): (r: map<int, LinkRow>)
    ensures forall k :: k in r <==> k in links && links[k].resultId in results
    ensures forall k :: k in r ==> r[k] == links[k]
  {
    map k | k in links && links[k].resultId in results :: links[k]
  }

  class Db {
    var urls: map<int, UrlRow>
    var results: map<int, ResultRow>
    var links: map<int, LinkRow>
    var nextUrlId: int
    var nextResultId: int
    var nextLinkId: int

    /**
     * Every reference points at a present row, keys stay below the next
     * auto-increment value, and a job has at most one result.
     */
    ghost predicate Valid()
      reads this
    {
      nextUrlId > 0 && nextResultId > 0 && nextLinkId > 0 &&
      (forall k :: k in results ==> results[k].urlId in urls) &&
      (forall k :: k in links ==> links[k].resultId in results) &&
      (forall k :: k in urls ==> 0 < k < nextUrlId) &&
      (forall k :: k in results ==> 0 < k < nextResultId) &&
      (forall k :: k in links ==> 0 < k < nextLinkId) &&
      (forall a, b :: a in results && b in results && results[a].urlId == results[b].urlId ==> a == b)
    }

    constructor ()
      ensures Valid()
      ensures urls == map[] && results == map[] && links == map[]
    {
      urls := map[];
      results := map[];
      links := map[];
      nextUrlId := 1;
      nextResultId := 1;
      nextLinkId := 1;
    }

    /** `WHERE id = ? AND user_id = ?` matches. */
    predicate Owns(userId: int, id: int)
      reads this
    {
      id in urls && urls[id].userId == userId
    }

    /** The result of a job, if it has one. */
    function ResultOf(urlId: int): (r: Option<int>)
      reads this
      requires Valid()
      ensures r.Some? ==> r.value in results && results[r.value].urlId == urlId
      ensures r.None? ==> forall k :: k in results ==> results[k].urlId != urlId
    {
      if exists k :: k in results && results[k].urlId == urlId then
        var k :| k in results && results[k].urlId == urlId;
        Some(k)
      else None
    }

    /** `INSERT INTO urls`: a fresh auto-increment id. */
    method InsertUrl(userId: int, url: string, status: Status) returns (id: int)
      requires Valid()
      modifies this
      ensures Valid()
      ensures id == old(nextUrlId) && id !in old(urls)
      ensures urls == old(urls)[id := UrlRow(userId, url, status)]
      ensures results == old(results) && links == old(links)
    {
      id := nextUrlId;
      nextUrlId := nextUrlId + 1;
      urls := urls[id := UrlRow(userId, url, status)];
    }

    /** `UPDATE urls SET status = ? WHERE id = ?`: nothing happens for a missing id. */
    method SetStatus(id: int, status: Status)
      requires Valid()
      modifies this
      ensures Valid()
      ensures id in old(urls) ==> urls == old(urls)[id := old(urls)[id].(status := status)]
      ensures id !in old(urls) ==> urls == old(urls)
      ensures results == old(results) && links == old(links)
      ensures nextUrlId == old(nextUrlId) && nextResultId == old(nextResultId)
    {
      if id in urls {
        urls := urls[id := urls[id].(status := status)];
      }
    }

    /** Deletes the jobs in `gone`, cascading to their results and those results' links. */
    method DeleteUrls(gone: set<int>)
      requires Valid()
      modifies this
      ensures Valid()
      ensures urls == WithoutUrls(old(urls), gone)
      ensures results == ResultsOfUrls(old(results), urls)
      ensures links == LinksOfResults(old(links), results)
      ensures nextUrlId == old(nextUrlId) && nextResultId == old(nextResultId)
    {
      urls := WithoutUrls(urls, gone);
      results := ResultsOfUrls(results, urls);
      links := LinksOfResults(links, results);
    }

    /** `DELETE FROM crawl_results WHERE url_id = ?`, cascading to the broken links. */
    method DeleteResultsOf(urlId: int)
      requires Valid()
      modifies this
      ensures Valid()
      ensures urls == old(urls)
      ensures forall k :: k in results <==> k in old(results) && old(results)[k].urlId != urlId
      ensures forall k :: k in results ==> results[k] == old(results)[k]
      ensures links == LinksOfResults(old(links), results)
      ensures nextUrlId == old(nextUrlId) && nextResultId == old(nextResultId) && nextLinkId == old(nextLinkId)
    {
      results := map k | k in results && results[k].urlId != urlId :: results[k];
      links := LinksOfResults(links, results);
    }

    /** `INSERT INTO crawl_results`; fails on the foreign key when the job is gone. */
    method InsertResult(urlId: int, analysis: Analysis) returns (id: Option<int>)
      requires Valid()
      requires forall k :: k in results ==> results[k].urlId != urlId
      modifies this
      ensures Valid()
      ensures urlId !in urls ==> id.None? && results == old(results)
      ensures urlId in urls ==>
        id == Some(old(nextResultId)) && old(nextResultId) !in old(results) &&
        results == old(results)[old(nextResultId) := ResultRow(urlId, analysis)]
      ensures urls == old(urls) && links == old(links)
      ensures nextLinkId == old(nextLinkId)
      ensures urlId in urls ==> nextResultId == old(nextResultId) + 1
    {
      if urlId !in urls {
        return None;
      }
      id := Some(nextResultId);
      results := results[nextResultId := ResultRow(urlId, analysis)];
      nextResultId := nextResultId + 1;
    }

    /** `INSERT INTO broken_links`; fails on the foreign key when the result is gone. */
    method InsertLink(resultId: int, url: string, statusCode: int, errorMessage: string) returns (ok: bool)
      requires Valid()
      modifies this
      ensures Valid()
      ensures ok <==> resultId in results
      ensures ok ==> links == old(links)[old(nextLinkId) := LinkRow(resultId, url, statusCode, errorMessage)]
      ensures !ok ==> links == old(links)
      ensures urls == old(urls) && results == old(results)
      ensures nextResultId == old(nextResultId)
      ensures nextLinkId == if ok then old(nextLinkId) + 1 else old(nextLinkId)
    {
      if resultId !in results {
        return false;
      }
      links := links[nextLinkId := LinkRow(resultId, url, statusCode, errorMessage)];
      nextLinkId := nextLinkId + 1;
      ok := true;
    }
  }

  /** Deleting a job leaves no result and no broken link that refers to it. */
  lemma CascadeLeavesNoOrphans(urls: map<int, UrlRow>, results: map<int, ResultRow>,
                               links: map<int, LinkRow>, gone: set<int>)
    ensures var u := WithoutUrls(urls, gone);
            var r := ResultsOfUrls(results, u);
            var l := LinksOfResults(links, r);
            (forall k :: k in r ==> r[k].urlId !in gone) &&
            (forall k :: k in l ==> l[k].resultId in r && r[l[k].resultId].urlId !in gone)
  {
  }
}
