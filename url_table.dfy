/**
 * The job table: bulk selection ("select all visible" and per-row toggles), the
 * sort-header toggle, the per-row action spinner map, the header checkbox state,
 * the status badge and the pagination bar.
 */
module URLTable {
  import opened Wrappers
  import opened Models
  import opened Seqs

  /** The ids of the visible rows, in row order. */
  function Ids(urls: seq<URLItem>): (r: seq<int>)
    ensures |r| == |urls|
    ensures forall i :: 0 <= i < |urls| ==> r[i] == urls[i].id
  {
    if urls == [] then [] else [urls[0].id] + Ids(urls[1..])
  }

  /** The header checkbox: every visible id when checked, nothing when unchecked. */
  function SelectAll(urls: seq<URLItem>, checked: bool): (r: seq<int>)
    ensures checked ==> |r| == |urls| && forall i :: 0 <= i < |urls| ==> r[i] == urls[i].id
    ensures !checked ==> r == []
  {
    if checked then Ids(urls) else []
  }

  /** The selection without any occurrence of `id`. */
  function Without(selected: seq<int>, id: int): seq<int> {
    Filter(selected, x => x != id)
  }

  /** A row checkbox: append when checked, drop every occurrence when unchecked. */
  function SelectURL(selected: seq<int>, id: int, checked: bool): (r: seq<int>)
    ensures checked ==> r == selected + [id]
    ensures !checked ==> id !in r
    ensures !checked ==> forall x :: x != id ==> multiset(r)[x] == multiset(selected)[x]
  {
    if checked then selected + [id]
    else
      var r := Without(selected, id);
      assert forall x :: x != id ==> multiset(r)[x] == multiset(selected)[x] by {
        forall x | x != id ensures multiset(r)[x] == multiset(selected)[x] {
          FilterCount(selected, y => y != id, x);
        }
      }
      r
  }

  /** Unticking keeps the rest in order: it commutes with concatenation. */
  lemma UntickKeepsOrder(s: seq<int>, t: seq<int>, id: int)
    ensures SelectURL(s + t, id, false) == SelectURL(s, id, false) + SelectURL(t, id, false)
  {
    FilterAppend(s, t, x => x != id);
  }

  /** Unticking an id that is not selected changes nothing. */
  lemma UntickAbsent(s: seq<int>, id: int)
    requires id !in s
    ensures SelectURL(s, id, false) == s
  {
    FilterKeepsAll(s, x => x != id);
  }

  /** Ticking a row that was unticked and unticking it again restores the selection. */
  lemma TickThenUntick(s: seq<int>, id: int)
    requires id !in s
    ensures SelectURL(SelectURL(s, id, true), id, false) == s
  {
    UntickKeepsOrder(s, [id], id);
    UntickAbsent(s, id);
    assert SelectURL([id], id, false) == [];
  }

  predicate NoDuplicates(s: seq<int>) {
    forall i, j :: 0 <= i < j < |s| ==> s[i] != s[j]
  }

  /**
   * A row checkbox shows whether its id is selected, so a click ticks it only when
   * absent; clicks therefore never put an id into the selection twice.
   */
  lemma RowClickKeepsSelectionDistinct(s: seq<int>, id: int, checked: bool)
    requires NoDuplicates(s)
    requires checked == (id !in s)
    ensures NoDuplicates(SelectURL(s, id, checked))
  {
    var r := SelectURL(s, id, checked);
    forall x ensures multiset(r)[x] <= 1 {
      DistinctCount(s, x);
      if checked {
        assert multiset(r) == multiset(s) + multiset{id};
      } else {
        FilterCount(s, y => y != id, x);
      }
    }
    CountsAtMostOne(r);
  }

  lemma {:induction false} DistinctCount(s: seq<int>, x: int)
    requires NoDuplicates(s)
    ensures multiset(s)[x] <= 1
    decreases |s|
  {
    if s != [] {
      assert s == [s[0]] + s[1..];
      assert NoDuplicates(s[1..]) by {
        forall i, j | 0 <= i < j < |s[1..]| ensures s[1..][i] != s[1..][j] {
          assert s[1..][i] == s[i + 1] && s[1..][j] == s[j + 1];
        }
      }
      DistinctCount(s[1..], x);
      if s[0] == x {
        assert x !in s[1..] by {
          forall k | 0 <= k < |s[1..]| ensures s[1..][k] != x { assert s[1..][k] == s[k + 1]; }
        }
      }
    }
  }

  lemma TwoOccurrences(s: seq<int>, i: int, j: int)
    requires 0 <= i < j < |s|
    ensures s[i] == s[j] ==> multiset(s)[s[i]] >= 2
  {
    assert s == s[..j] + [s[j]] + s[j + 1..];
    assert s[..j][i] == s[i];
    assert s[i] in multiset(s[..j]);
  }

  /** A sequence in which no value occurs twice has no repeated positions. */
  lemma CountsAtMostOne(s: seq<int>)
    requires forall x :: multiset(s)[x] <= 1
    ensures NoDuplicates(s)
  {
    forall i, j | 0 <= i < j < |s| ensures s[i] != s[j] {
      TwoOccurrences(s, i, j);
    }
  }

  /** The sort header: the same column flips the direction, another column sorts ascending. */
  function NextSort(sort: TableSort, column: string): (r: TableSort)
    ensures r.column == column
    ensures sort.column == column ==> r.direction != sort.direction
    ensures sort.column != column ==> r.direction == Asc
  {
    if sort.column == column then
      TableSort(column, if sort.direction == Asc then Desc else Asc)
    else
      TableSort(column, Asc)
  }

  /** Two clicks on the active column give back the original sort. */
  lemma SortToggleIsInvolution(sort: TableSort)
    ensures NextSort(NextSort(sort, sort.column), sort.column) == sort
  {
  }

  function IsAllSelected(urls: seq<URLItem>, selected: seq<int>): bool {
    |urls| > 0 && |selected| == |urls|
  }

  function IsIndeterminate(urls: seq<URLItem>, selected: seq<int>): bool {
    |selected| > 0 && |selected| < |urls|
  }

  /** The header checkbox is never both checked and indeterminate. */
  lemma HeaderStateExclusive(urls: seq<URLItem>, selected: seq<int>)
    ensures !(IsAllSelected(urls, selected) && IsIndeterminate(urls, selected))
  {
  }

  /** After "select all" the header is checked (given a row) and never indeterminate. */
  lemma SelectAllChecksHeader(urls: seq<URLItem>, checked: bool)
    ensures IsAllSelected(urls, SelectAll(urls, checked)) <==> checked && |urls| > 0
    ensures !IsIndeterminate(urls, SelectAll(urls, checked))
  {
  }

  /** The badge class for a status; anything unrecognised looks like "queued". */
  function StatusBadge(status: string): (r: string)
    ensures status == Running.Name() ==> r == "badge-warning"
    ensures status == Completed.Name() ==> r == "badge-success"
    ensures status == Failed.Name() ==> r == "badge-error"
    ensures status != Running.Name() && status != Completed.Name() && status != Failed.Name() ==> r == "badge-secondary"
  {
    if status == "queued" then "badge-secondary"
    else if status == "running" then "badge-warning"
    else if status == "completed" then "badge-success"
    else if status == "failed" then "badge-error"
    else "badge-secondary"
  }

  /** Each status has its own badge (only "queued" shares its badge with unknown values). */
  lemma BadgeIdentifiesStatus(a: Status, b: Status)
    ensures StatusBadge(a.Name()) == StatusBadge(b.Name()) ==> a == b
  {
  }

  // ---- pagination bar ----

  function ShowsPagination(p: Page): bool {
    p.totalPages > 1
  }

  function PreviousDisabled(p: Page): bool {
    p.page == 1
  }

  function NextDisabled(p: Page): bool {
    p.page == p.totalPages
  }

  /** The numbered buttons, built only inside the bar (so for more than one page). */
  function PageButtons(p: Page): (r: seq<int>)
    requires ShowsPagination(p)
    ensures |r| == p.totalPages
    ensures forall i :: 0 <= i < |r| ==> r[i] == i + 1
  {
    seq(p.totalPages, i requires 0 <= i < p.totalPages => i + 1)
  }

  /** The page buttons are exactly the pages 1..total_pages. */
  lemma PageButtonsCoverAllPages(p: Page, n: int)
    requires ShowsPagination(p)
    ensures n in PageButtons(p) <==> 1 <= n <= p.totalPages
  {
    if 1 <= n <= p.totalPages {
      assert PageButtons(p)[n - 1] == n;
    }
  }

  /** "Showing a to b of n". */
  function RangeStart(p: Page): int {
    (p.page - 1) * p.pageSize + 1
  }

  function RangeEnd(p: Page): int {
    if p.page * p.pageSize < p.total then p.page * p.pageSize else p.total
  }

  lemma MulMonotone(a: int, b: int, c: int)
    requires a <= b && c >= 0
    ensures a * c <= b * c
  {
  }

  /**
   * With the server's page count (the ceiling of total over page size) and a page in
   * range, the displayed range is non-empty and within the total.
   */
  lemma RangeWithinTotal(p: Page)
    requires p.pageSize > 0 && p.total >= 0
    requires p.totalPages == (p.total + p.pageSize - 1) / p.pageSize
    requires 1 <= p.page <= p.totalPages
    ensures 1 <= RangeStart(p) <= RangeEnd(p) <= p.total
  {
    var ps, t, tp := p.pageSize, p.total, p.totalPages;
    assert tp * ps <= t + ps - 1;
    MulMonotone(p.page, tp, ps);
    assert (p.page - 1) * ps == p.page * ps - ps;
    assert (p.page - 1) * ps <= t - 1;
  }

  /** On the only page, or a later one, Next is disabled; Previous exactly on page 1. */
  lemma ButtonsAtEnds(p: Page)
    requires ShowsPagination(p)
    ensures p.page == 1 ==> PreviousDisabled(p) && !NextDisabled(p)
    ensures p.page == p.totalPages ==> NextDisabled(p) && !PreviousDisabled(p)
  {
  }

  /** The per-row action spinners: which action, if any, each row is waiting on. */
  class ActionTracker {
    var actionLoading: map<int, string>

    constructor ()
      ensures actionLoading == map[]
    {
      actionLoading := map[];
    }

    /** A row's button for `action` is disabled while that action is pending on it. */
    function Disabled(id: int, action: string): (b: bool)
      reads this
      ensures b <==> id in actionLoading && actionLoading[id] == action
    {
      id in actionLoading && actionLoading[id] == action
    }

    method BeginAction(id: int, action: string)
      modifies this
      ensures actionLoading == old(actionLoading)[id := action]
      ensures Disabled(id, action)
      ensures forall a :: a != action ==> !Disabled(id, a)
      ensures forall k, a :: k != id ==> (Disabled(k, a) <==> old(Disabled(k, a)))
    {
      actionLoading := actionLoading[id := action];
    }

    /** The `finally` step: drop exactly this row's entry. */
    method EndAction(id: int)
      modifies this
      ensures actionLoading == old(actionLoading) - {id}
    {
      actionLoading := actionLoading - {id};
    }

    /**
     * `handleAction`: mark the row, run the action (its outcome is `outcome`), and
     * unmark the row whether the action resolved or threw; a throw propagates.
     */
    method HandleAction(id: int, action: string, outcome: Result<(), string>) returns (r: Result<(), string>)
      modifies this
      ensures r == outcome
      ensures actionLoading == old(actionLoading) - {id}
      ensures forall k :: k != id ==> (k in actionLoading <==> k in old(actionLoading))
      ensures forall k :: k in actionLoading ==> actionLoading[k] == old(actionLoading)[k]
      ensures forall a :: !Disabled(id, a)
      ensures forall k, a :: k != id ==> (Disabled(k, a) <==> old(Disabled(k, a)))
    {
      BeginAction(id, action);
      r := outcome;
      EndAction(id);
    }
  }
}
