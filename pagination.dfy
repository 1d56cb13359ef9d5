/**
 * The page-number window of `src/components/ui/Pagination.tsx`: which page
 * buttons are visible, when the first/last shortcuts and ellipses appear,
 * and when Previous/Next are disabled. Page numbers are integers.
 */
module Pagination {
  import opened Wrappers

  function Max(a: int, b: int): int { if a >= b then a else b }
  function Min(a: int, b: int): int { if a <= b then a else b }

  /** `Array.from({length: end - start + 1}, (_, i) => start + i)`; a negative length gives `[]`. */
  function Range(start: int, end: int): (r: seq<int>)
    ensures |r| == Max(0, end - start + 1)
    ensures forall i :: 0 <= i < |r| ==> r[i] == start + i
  {
    seq(Max(0, end - start + 1), i => start + i)
  }

  /** The first and last visible page before the `Array.from`. */
  function Window(currentPage: int, totalPages: int, maxVisiblePages: int): (int, int) {
    if totalPages <= maxVisiblePages then (1, totalPages)
    else
      var half := maxVisiblePages / 2;
      var start := Max(1, currentPage - half);
      var end := Min(totalPages, start + maxVisiblePages - 1);
      var start' := if end - start + 1 < maxVisiblePages then Max(1, end - maxVisiblePages + 1) else start;
      (start', end)
  }

  /** Lines 22-36: `getVisiblePages`. */
  function VisiblePages(currentPage: int, totalPages: int, maxVisiblePages: int): (pages: seq<int>)
    ensures forall i :: 0 <= i < |pages| ==> 1 <= pages[i] <= totalPages
    ensures forall i :: 0 <= i < |pages| ==> pages[i] == pages[0] + i
    ensures totalPages <= maxVisiblePages ==> pages == Range(1, totalPages)
    ensures totalPages > maxVisiblePages >= 1 ==> |pages| == maxVisiblePages
  {
    var (start, end) := Window(currentPage, totalPages, maxVisiblePages);
    Range(start, end)
  }

  /** The default of five buttons around page 7 of 20. */
  lemma DefaultWindowExample()
    ensures VisiblePages(7, 20, 5) == [5, 6, 7, 8, 9]
    ensures VisiblePages(1, 20, 5) == [1, 2, 3, 4, 5]
    ensures VisiblePages(20, 20, 5) == [16, 17, 18, 19, 20]
  {
  }

  /** A current page within range is always among the visible buttons. */
  lemma CurrentPageVisible(currentPage: int, totalPages: int, maxVisiblePages: int)
    requires 1 <= currentPage <= totalPages && maxVisiblePages >= 1
    ensures currentPage in VisiblePages(currentPage, totalPages, maxVisiblePages)
  {
    var pages := VisiblePages(currentPage, totalPages, maxVisiblePages);
    var (start, end) := Window(currentPage, totalPages, maxVisiblePages);
    assert start <= currentPage <= end;
    assert pages[currentPage - start] == currentPage;
  }

  // ------------------------------------------------------------------ shortcuts

  /** `visiblePages[0]`, `undefined` for no pages. */
  function FirstVisible(pages: seq<int>): Option<int> { if pages == [] then None else Some(pages[0]) }

  /** `visiblePages[visiblePages.length - 1]`, `undefined` for no pages. */
  function LastVisible(pages: seq<int>): Option<int> { if pages == [] then None else Some(pages[|pages| - 1]) }

  /** Line 68: a comparison with `undefined` is false. */
  predicate ShowFirstPage(pages: seq<int>) { FirstVisible(pages).Some? && FirstVisible(pages).value > 1 }
  /** Line 39. */
  predicate ShowFirstEllipsis(pages: seq<int>) { FirstVisible(pages).Some? && FirstVisible(pages).value > 2 }
  /** Line 104. */
  predicate ShowLastPage(pages: seq<int>, totalPages: int) { LastVisible(pages).Some? && LastVisible(pages).value < totalPages }
  /** Line 40. */
  predicate ShowLastEllipsis(pages: seq<int>, totalPages: int) {
    LastVisible(pages).Some? && LastVisible(pages).value < totalPages - 1
  }

  /**
   * For a non-empty window: the page-1 shortcut appears exactly when page 1
   * is not already visible, and its ellipsis exactly when page 2 is hidden
   * as well; symmetrically at the last page.
   */
  lemma ShortcutsMeaning(currentPage: int, totalPages: int, maxVisiblePages: int)
    requires VisiblePages(currentPage, totalPages, maxVisiblePages) != []
    ensures var pages := VisiblePages(currentPage, totalPages, maxVisiblePages);
      (ShowFirstPage(pages) <==> 1 !in pages) &&
      (ShowFirstEllipsis(pages) <==> ShowFirstPage(pages) && 2 !in pages) &&
      (ShowLastPage(pages, totalPages) <==> totalPages !in pages) &&
      (ShowLastEllipsis(pages, totalPages) <==> ShowLastPage(pages, totalPages) && totalPages - 1 !in pages)
  {
    var pages := VisiblePages(currentPage, totalPages, maxVisiblePages);
    var last := pages[|pages| - 1];
    if 1 in pages {
      var i :| 0 <= i < |pages| && pages[i] == 1;
      assert pages[0] == 1;
    }
    if pages[0] == 1 { assert 1 in pages; }
    if totalPages in pages {
      var i :| 0 <= i < |pages| && pages[i] == totalPages;
      assert last == pages[0] + |pages| - 1;
    }
    if last == totalPages { assert totalPages in pages; }
    assert last == pages[0] + |pages| - 1;
    if 2 in pages {
      var i :| 0 <= i < |pages| && pages[i] == 2;
    }
    if pages[0] == 2 { assert pages[0] in pages; }
    if totalPages - 1 in pages {
      var i :| 0 <= i < |pages| && pages[i] == totalPages - 1;
    }
    if last == totalPages - 1 { assert pages[|pages| - 1] in pages; }
  }

  /** With no pages at all (no rows) neither shortcut nor ellipsis shows. */
  lemma NoPagesNoShortcuts(totalPages: int)
    ensures !ShowFirstPage([]) && !ShowFirstEllipsis([]) && !ShowLastPage([], totalPages) && !ShowLastEllipsis([], totalPages)
  {
  }

  // ------------------------------------------------------------------ previous / next

  /** Line 54. */
  predicate PreviousDisabled(currentPage: int) { currentPage == 1 }
  /** Line 128. */
  predicate NextDisabled(currentPage: int, totalPages: int) { currentPage == totalPages }

  /**
   * From a page in range, an enabled Previous or Next button leads to a page
   * that is again in range.
   */
  lemma EnabledButtonsStayInRange(currentPage: int, totalPages: int)
    requires 1 <= currentPage <= totalPages
    ensures !PreviousDisabled(currentPage) ==> 1 <= currentPage - 1 <= totalPages
    ensures !NextDisabled(currentPage, totalPages) ==> 1 <= currentPage + 1 <= totalPages
  {
  }

  /** With zero pages, Next stays enabled on page 1 and leads to page 2. */
  lemma NextEnabledWithoutPages()
    ensures !NextDisabled(1, 0) && PreviousDisabled(1)
  {
  }
}
