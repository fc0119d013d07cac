// Client-side pagination of the admin dashboard: ten rows per page, the page
// slice, the page count, the "Showing a to b of n" labels and the window of at
// most five page buttons.
module Pagination {
  import Seqs

  /** Rows shown per page (`itemsPerPage`). */
  const ItemsPerPage: nat := 10
  /** Number of page buttons the window tries to show (`showPages`). */
  const ShowPages: int := 5

  /** JavaScript's `Array.prototype.slice(start, end)`, negative indices counting from the end. */
  function Slice<T>(s: seq<T>, start: int, end: int): (r: seq<T>)
    ensures 0 <= start <= end <= |s| ==> r == s[start..end]
  {
    var n := |s|;
    var lo := if start < 0 then (if n + start < 0 then 0 else n + start) else (if start > n then n else start);
    var hi := if end < 0 then (if n + end < 0 then 0 else n + end) else (if end > n then n else end);
    if lo < hi then s[lo..hi] else []
  }

  /** The rows of page `page` (1-based) of `rows`. */
  function Page<T>(rows: seq<T>, page: int): seq<T>
  {
    var startIndex := (page - 1) * ItemsPerPage;
    Slice(rows, startIndex, startIndex + ItemsPerPage)
  }

  /** `Math.ceil(n / itemsPerPage)`. */
  function TotalPages(n: nat): (r: nat)
    ensures (r - 1) * ItemsPerPage < n <= r * ItemsPerPage || (n == 0 && r == 0)
  {
    (n + ItemsPerPage - 1) / ItemsPerPage
  }

  /** The pages from `from` to `TotalPages(|rows|)`, concatenated. */
  function PagesFrom<T>(rows: seq<T>, from: nat): seq<T>
    requires from >= 1
    decreases TotalPages(|rows|) + 1 - from
  {
    if from > TotalPages(|rows|) then [] else Page(rows, from) + PagesFrom(rows, from + 1)
  }

  /** `startItem`: the 1-based number of the first row on the page. */
  function StartItem(page: int): int
  {
    (page - 1) * ItemsPerPage + 1
  }

  /** `endItem`: the 1-based number of the last row on the page. */
  function EndItem(page: int, totalItems: int): int
  {
    var a := page * ItemsPerPage;
    if a < totalItems then a else totalItems
  }

  /** The pagination bar is rendered only when there is more than one page. */
  predicate Renders(totalPages: int)
  {
    !(totalPages <= 1)
  }

  predicate PreviousDisabled(currentPage: int)
  {
    currentPage == 1
  }

  predicate NextDisabled(currentPage: int, totalPages: int)
  {
    currentPage == totalPages
  }

  /** First and last page number of the button window (`start`, `end` after the adjustment). */
  function Window(currentPage: int, totalPages: int): (int, int)
  {
    var start0 := if 1 > currentPage - ShowPages / 2 then 1 else currentPage - ShowPages / 2;
    var end := if totalPages < start0 + ShowPages - 1 then totalPages else start0 + ShowPages - 1;
    var start := if end - start0 + 1 < ShowPages then (if 1 > end - ShowPages + 1 then 1 else end - ShowPages + 1) else start0;
    (start, end)
  }

  /** `getPageNumbers()`: the page numbers of the window, one button each. */
  method GetPageNumbers(currentPage: int, totalPages: int) returns (pages: seq<int>)
    ensures var (lo, hi) := Window(currentPage, totalPages);
      |pages| == (if hi < lo then 0 else hi - lo + 1) && forall k :: 0 <= k < |pages| ==> pages[k] == lo + k
  {
    var start := if 1 > currentPage - ShowPages / 2 then 1 else currentPage - ShowPages / 2;
    var end := if totalPages < start + ShowPages - 1 then totalPages else start + ShowPages - 1;
    if end - start + 1 < ShowPages {
      start := if 1 > end - ShowPages + 1 then 1 else end - ShowPages + 1;
    }
    pages := [];
    var i := start;
    while i <= end
      invariant start <= i <= if end < start then start else end + 1
      invariant |pages| == i - start
      invariant forall k :: 0 <= k < |pages| ==> pages[k] == start + k
      decreases end - i
    {
      pages := pages + [i];
      i := i + 1;
    }
  }

  // ---- properties -------------------------------------------------------

  /** Page `p` holds rows `(p-1)*10 .. min(p*10, n)`: exactly the rows numbered
    * `StartItem(p)` to `EndItem(p, n)` in the "Showing" label. */
  lemma PageMatchesLabels<T>(rows: seq<T>, p: int)
    requires 1 <= p <= TotalPages(|rows|)
    ensures StartItem(p) <= EndItem(p, |rows|)
    ensures Page(rows, p) == rows[StartItem(p) - 1..EndItem(p, |rows|)]
    ensures |Page(rows, p)| == EndItem(p, |rows|) - StartItem(p) + 1
  {
  }

  /** Every page but the last is full; a page past the end is empty. */
  lemma PageSizes<T>(rows: seq<T>, p: int)
    ensures 1 <= p < TotalPages(|rows|) ==> |Page(rows, p)| == ItemsPerPage
    ensures p > TotalPages(|rows|) ==> Page(rows, p) == []
    ensures p == 0 ==> Page(rows, p) == []
  {
  }

  /** Reading the pages in order from page `from` gives back every row from `(from-1)*10` on:
    * no row is skipped or shown twice. */
  lemma {:induction false} PagesFromCover<T>(rows: seq<T>, from: nat)
    requires 1 <= from
    ensures (from - 1) * ItemsPerPage <= |rows| ==> PagesFrom(rows, from) == rows[(from - 1) * ItemsPerPage..]
    decreases TotalPages(|rows|) + 1 - from
  {
    if from <= TotalPages(|rows|) {
      PagesFromCover(rows, from + 1);
      var a := (from - 1) * ItemsPerPage;
      if from * ItemsPerPage <= |rows| {
        assert rows[a..] == rows[a..from * ItemsPerPage] + rows[from * ItemsPerPage..];
      } else {
        assert from + 1 > TotalPages(|rows|);
      }
    }
  }

  /** All pages together are the whole list. */
  lemma PagesCoverAllRows<T>(rows: seq<T>)
    ensures PagesFrom(rows, 1) == rows
  {
    PagesFromCover(rows, 1);
  }

  /** For a current page in range the window is inside `1..totalPages`, contains the
    * current page and has `min(5, totalPages)` buttons. */
  lemma WindowBounds(currentPage: int, totalPages: int)
    requires 1 <= currentPage <= totalPages
    ensures var (lo, hi) := Window(currentPage, totalPages);
      1 <= lo <= currentPage <= hi <= totalPages
      && hi - lo + 1 == (if totalPages < ShowPages then totalPages else ShowPages)
  {
  }

  /** On the first and on the last page the facing arrow is disabled; the bar is not drawn for a single page. */
  lemma ArrowsAtEnds(totalPages: int)
    ensures PreviousDisabled(1) && NextDisabled(totalPages, totalPages)
    ensures totalPages >= 2 ==> !NextDisabled(1, totalPages) && !PreviousDisabled(totalPages)
    ensures Renders(totalPages) <==> totalPages >= 2
  {
  }
}
