/**
 * The pagination bar under every table: the "showing X to Y of N" range, the
 * window of at most five page-number buttons, and when the first/previous and
 * next/last buttons are disabled.
 */
module TablePagination {
  import opened Js
  import UseTable

  /** The largest number of page buttons shown at once. */
  const MaxVisible: int := 5

  /** `startItem`: the 1-based position of the first row on the page. */
  function StartItem(currentPage: int, pageSize: int): int {
    (currentPage - 1) * pageSize + 1
  }

  /** `endItem`: the 1-based position of the last row on the page, capped at the total. */
  function EndItem(currentPage: int, pageSize: int, totalItems: int): (r: int)
    ensures r <= totalItems && r <= currentPage * pageSize
    ensures r == totalItems || r == currentPage * pageSize
  {
    Min(currentPage * pageSize, totalItems)
  }

  /** The consecutive numbers `lo, lo + 1, ..., hi` (empty when `hi < lo`). */
  function Range(lo: int, hi: int): (r: seq<int>)
    ensures |r| == if hi >= lo then hi - lo + 1 else 0
    ensures forall i :: 0 <= i < |r| ==> r[i] == lo + i
    decreases hi - lo
  {
    if hi < lo then [] else Range(lo, hi - 1) + [hi]
  }

  /** The page numbers `getPageNumbers` lists, case by case. */
  function PageWindow(currentPage: int, totalPages: int): seq<int> {
    if totalPages <= MaxVisible then Range(1, totalPages)
    else if currentPage <= 3 then Range(1, 5)
    else if currentPage >= totalPages - 2 then Range(totalPages - 4, totalPages)
    else Range(currentPage - 2, currentPage + 2)
  }

  /** `for (let i = lo; i <= hi; i++) pages.push(i)` */
  method PushRange(pages: seq<int>, lo: int, hi: int) returns (r: seq<int>)
    ensures r == pages + Range(lo, hi)
  {
    r := pages;
    var i := lo;
    while i <= hi
      invariant lo <= i && (if hi >= lo then i <= hi + 1 else i == lo)
      invariant r == pages + Range(lo, i - 1)
      decreases hi - i
    {
      r := r + [i];
      i := i + 1;
    }
  }

  /** `getPageNumbers()` */
  method GetPageNumbers(currentPage: int, totalPages: int) returns (pages: seq<int>)
    ensures pages == PageWindow(currentPage, totalPages)
  {
    pages := [];
    if totalPages <= MaxVisible {
      pages := PushRange(pages, 1, totalPages);
    } else {
      if currentPage <= 3 {
        pages := PushRange(pages, 1, 5);
      } else if currentPage >= totalPages - 2 {
        pages := PushRange(pages, totalPages - 4, totalPages);
      } else {
        pages := PushRange(pages, currentPage - 2, currentPage + 2);
      }
    }
  }

  /** With at most five pages, the list is exactly `1..totalPages`. */
  lemma FewPagesAllListed(currentPage: int, totalPages: int)
    requires totalPages <= MaxVisible
    ensures var w := PageWindow(currentPage, totalPages);
            |w| == Max(totalPages, 0) && forall i :: 0 <= i < |w| ==> w[i] == i + 1
  {
  }

  /** With more than five pages, the list is five consecutive numbers. */
  lemma ManyPagesFiveConsecutive(currentPage: int, totalPages: int)
    requires totalPages > MaxVisible
    ensures var w := PageWindow(currentPage, totalPages);
            |w| == 5 && forall i :: 0 <= i < 4 ==> w[i + 1] == w[i] + 1
  {
  }

  /** With more than five pages and a page in range, every number is a page and the current one is shown. */
  lemma WindowBounds(currentPage: int, totalPages: int)
    requires totalPages > MaxVisible && 1 <= currentPage <= totalPages
    ensures var w := PageWindow(currentPage, totalPages);
            (forall i :: 0 <= i < |w| ==> 1 <= w[i] <= totalPages) && currentPage in w
  {
    var w := PageWindow(currentPage, totalPages);
    if currentPage <= 3 {
      assert w[currentPage - 1] == currentPage;
    } else if currentPage >= totalPages - 2 {
      assert w[currentPage - (totalPages - 4)] == currentPage;
    } else {
      assert w[2] == currentPage;
    }
  }

  /** The list is strictly increasing, so no page appears twice. */
  lemma WindowIncreasing(currentPage: int, totalPages: int)
    ensures var w := PageWindow(currentPage, totalPages);
            forall i, j :: 0 <= i < j < |w| ==> w[i] < w[j]
  {
  }

  /** The first and previous buttons are disabled on page 1. */
  predicate BackDisabled(currentPage: int) {
    currentPage == 1
  }

  /** The next and last buttons are disabled on the last page. */
  predicate ForwardDisabled(currentPage: int, totalPages: int) {
    currentPage == totalPages
  }

  /**
   * On a page in range, an enabled previous or next button leads to a page in
   * range, and first/last lead to the two ends.
   */
  lemma ButtonsStayInRange(currentPage: int, totalPages: int)
    requires 1 <= currentPage <= totalPages
    ensures !BackDisabled(currentPage) ==> 1 <= currentPage - 1 < currentPage
    ensures !ForwardDisabled(currentPage, totalPages) ==> currentPage < currentPage + 1 <= totalPages
    ensures BackDisabled(currentPage) <==> currentPage - 1 < 1
    ensures ForwardDisabled(currentPage, totalPages) <==> currentPage + 1 > totalPages
  {
  }

  /**
   * On a non-empty page the range shown has as many entries as the page of
   * `sortedData` holds: `endItem - startItem + 1` rows, starting at row `startItem`.
   */
  lemma RangeMatchesPage(sorted: seq<UseTable.Row>, currentPage: int, pageSize: int)
    requires currentPage >= 1 && pageSize >= 1
    requires (currentPage - 1) * pageSize < |sorted|
    ensures var page := UseTable.PaginatedData(sorted, currentPage, pageSize);
            |page| == EndItem(currentPage, pageSize, |sorted|) - StartItem(currentPage, pageSize) + 1 &&
            page[0] == sorted[StartItem(currentPage, pageSize) - 1]
  {
    UseTable.PageIsSlice(sorted, currentPage, pageSize);
    UseTable.PageBounds(currentPage, pageSize);
  }
}
