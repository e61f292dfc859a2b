/**
 * The pagination bar: the previous/next guards and the row of page buttons,
 * a window of at most five consecutive pages kept inside `[1, totalPages]`,
 * flanked by the first and the last page and by ellipsis markers where pages
 * are hidden.
 */
module Pagination {
  import opened Js

  const PagesToShow := 5

  /** One entry of `pageNumbers`: a page button or the string '...'. */
  datatype PageItem = Page(number: int) | Ellipsis

  /** The window that was chosen, and the entries rendered from it. */
  datatype PageBar = PageBar(startPage: int, endPage: int, items: seq<PageItem>)

  /** `handlePrevious`: the page it asks for, if any. */
  function PreviousPage(currentPage: int): (r: Option<int>)
    ensures r.Some? <==> currentPage > 1
    ensures r.Some? ==> r.value == currentPage - 1
  {
    if currentPage > 1 then Some(currentPage - 1) else None
  }

  /** `handleNext`: the page it asks for, if any. */
  function NextPage(currentPage: int, totalPages: int): (r: Option<int>)
    ensures r.Some? <==> currentPage < totalPages
    ensures r.Some? ==> r.value == currentPage + 1
  {
    if currentPage < totalPages then Some(currentPage + 1) else None
  }

  /** Moving from a page in range stays in range, and next and previous undo each other. */
  lemma NavigationStaysInRange(currentPage: int, totalPages: int)
    requires 1 <= currentPage <= totalPages
    ensures PreviousPage(currentPage).Some? ==> 1 <= PreviousPage(currentPage).value <= totalPages
    ensures NextPage(currentPage, totalPages).Some? ==> 1 <= NextPage(currentPage, totalPages).value <= totalPages
    ensures NextPage(currentPage, totalPages).Some? ==>
              PreviousPage(NextPage(currentPage, totalPages).value) == Some(currentPage)
    ensures PreviousPage(currentPage).Some? ==>
              NextPage(PreviousPage(currentPage).value, totalPages) == Some(currentPage)
  {
  }

  /**
   * The window of numbered buttons: inside `[1, totalPages]`, exactly
   * `min(5, totalPages)` pages wide, ending at `min(totalPages, max(5, currentPage + 2))`,
   * and holding the current page whenever that page is in range.
   */
  ghost predicate WindowOk(b: PageBar, currentPage: int, totalPages: int)
  {
    && 1 <= b.startPage <= b.endPage <= totalPages
    && b.endPage - b.startPage + 1 == Min(PagesToShow, totalPages)
    && b.endPage == Min(totalPages, Max(PagesToShow, currentPage + 2))
    && (1 <= currentPage <= totalPages ==> b.startPage <= currentPage <= b.endPage)
  }

  /**
   * The entries: the first is page 1 and the last is `totalPages`; the pages
   * shown are 1, `totalPages` and the window; adjacent buttons are adjacent
   * pages; every ellipsis sits between two buttons at least two pages apart
   * (so it hides at least one page); a leading ellipsis appears exactly when
   * the window starts after page 2, a trailing one exactly when it ends
   * before page `totalPages - 1`.
   */
  ghost predicate ItemsOk(b: PageBar, totalPages: int)
  {
    && EndsOk(b.items, totalPages)
    && ShowsOk(b.items, b.startPage, b.endPage, totalPages)
    && NeighboursOk(b.items)
    && EllipsesOk(b.items)
    && MarkersOk(b.items, b.startPage, b.endPage, totalPages)
  }

  ghost predicate EndsOk(items: seq<PageItem>, totalPages: int)
  {
    |items| >= 2 && items[0] == Page(1) && items[|items| - 1] == Page(totalPages)
  }

  ghost predicate ShowsOk(items: seq<PageItem>, startPage: int, endPage: int, totalPages: int)
  {
    forall p :: Page(p) in items <==> p == 1 || p == totalPages || startPage <= p <= endPage
  }

  ghost predicate NeighboursOk(items: seq<PageItem>)
  {
    forall k :: 0 <= k < |items| - 1 && items[k].Page? && items[k + 1].Page? ==>
      items[k + 1].number == items[k].number + 1
  }

  ghost predicate EllipsesOk(items: seq<PageItem>)
  {
    forall k :: 0 <= k < |items| && items[k] == Ellipsis ==>
      0 < k < |items| - 1 && items[k - 1].Page? && items[k + 1].Page? &&
      items[k + 1].number >= items[k - 1].number + 2
  }

  ghost predicate MarkersOk(items: seq<PageItem>, startPage: int, endPage: int, totalPages: int)
  {
    && |items| >= 2
    && (items[1] == Ellipsis <==> startPage > 2)
    && (items[|items| - 2] == Ellipsis <==> endPage < totalPages - 1)
  }

  /** `Page(a), ..., Page(b - 1)`. */
  function PageRange(a: int, b: int): (r: seq<PageItem>)
    requires a <= b
    ensures |r| == b - a
    ensures forall k :: 0 <= k < b - a ==> r[k] == Page(a + k)
  {
    seq(b - a, k => Page(a + k))
  }

  /** The entries before the window. */
  function Lead(startPage: int): seq<PageItem>
  {
    if startPage > 2 then [Page(1), Ellipsis] else if startPage > 1 then [Page(1)] else []
  }

  /** The entries after the window. */
  function Trail(endPage: int, totalPages: int): seq<PageItem>
  {
    if endPage < totalPages - 1 then [Ellipsis, Page(totalPages)]
    else if endPage < totalPages then [Page(totalPages)] else []
  }

  /** `Component(currentPage, totalPages)`: `None` is the `null` rendered for a single page. */
  method PageButtons(currentPage: int, totalPages: int) returns (bar: Option<PageBar>)
    ensures bar.None? <==> totalPages <= 1
    ensures bar.Some? ==> WindowOk(bar.value, currentPage, totalPages) && ItemsOk(bar.value, totalPages)
  {
    if totalPages <= 1 {
      return None;
    }
    var startPage := Max(1, currentPage - PagesToShow / 2);
    var endPage := Min(totalPages, startPage + PagesToShow - 1);
    if endPage - startPage + 1 < PagesToShow {
      startPage := Max(1, endPage - PagesToShow + 1);
    }
    WindowChosen(currentPage, totalPages, startPage, endPage);

    var items := PageEntries(startPage, endPage, totalPages);
    LayoutOk(startPage, endPage, totalPages);
    bar := Some(PageBar(startPage, endPage, items));
  }

  /** The pushes into `pageNumbers`: page 1 and a marker, the window, a marker and the last page. */
  method PageEntries(startPage: int, endPage: int, totalPages: int) returns (items: seq<PageItem>)
    requires startPage <= endPage
    ensures items == Layout(startPage, endPage, totalPages)
  {
    items := [];
    if startPage > 1 {
      items := items + [Page(1)];
      if startPage > 2 {
        items := items + [Ellipsis];
      }
    }
    assert items == Lead(startPage);
    var i := startPage;
    while i <= endPage
      invariant startPage <= i <= endPage + 1
      invariant items == Lead(startPage) + PageRange(startPage, i)
    {
      PageRangeGrows(startPage, i);
      items := items + [Page(i)];
      i := i + 1;
    }
    var lead, mid := Lead(startPage), PageRange(startPage, endPage + 1);
    if endPage < totalPages {
      if endPage < totalPages - 1 {
        items := items + [Ellipsis];
      }
      items := items + [Page(totalPages)];
    }
    assert items == lead + mid + Trail(endPage, totalPages);
  }

  lemma PageRangeGrows(a: int, b: int)
    requires a <= b
    ensures PageRange(a, b + 1) == PageRange(a, b) + [Page(b)]
  {
  }

  /** The window the two assignments to `startPage` and the one to `endPage` produce. */
  lemma WindowChosen(currentPage: int, totalPages: int, startPage: int, endPage: int)
    requires totalPages >= 2
    requires var s0 := Max(1, currentPage - PagesToShow / 2);
             endPage == Min(totalPages, s0 + PagesToShow - 1) &&
             startPage == (if endPage - s0 + 1 < PagesToShow then Max(1, endPage - PagesToShow + 1) else s0)
    ensures WindowOk(PageBar(startPage, endPage, []), currentPage, totalPages)
  {
  }

  function Layout(s: int, e: int, t: int): seq<PageItem>
    requires s <= e + 1
  {
    Lead(s) + PageRange(s, e + 1) + Trail(e, t)
  }

  lemma LayoutOk(s: int, e: int, t: int)
    requires 1 <= s < e <= t
    ensures ItemsOk(PageBar(s, e, Layout(s, e, t)), t)
  {
    LayoutIndexes(s, e, t);
    LayoutShows(s, e, t);
  }

  lemma LayoutIndexes(s: int, e: int, t: int)
    requires 1 <= s < e <= t
    ensures var items := Layout(s, e, t);
            EndsOk(items, t) && NeighboursOk(items) && EllipsesOk(items) && MarkersOk(items, s, e, t)
  {
    var lead, mid, trail := Lead(s), PageRange(s, e + 1), Trail(e, t);
    var items := lead + mid + trail;
    var h, m := |lead|, |mid|;
    assert forall k :: 0 <= k < h ==> items[k] == lead[k];
    assert forall k :: h <= k < h + m ==> items[k] == Page(s + k - h);
    assert forall k :: h + m <= k < |items| ==> items[k] == trail[k - h - m];
  }

  lemma LayoutShows(s: int, e: int, t: int)
    requires 1 <= s < e <= t
    ensures ShowsOk(Layout(s, e, t), s, e, t)
  {
    var lead, mid, trail := Lead(s), PageRange(s, e + 1), Trail(e, t);
    var items := lead + mid + trail;
    forall p
      ensures Page(p) in items <==> p == 1 || p == t || s <= p <= e
    {
      if s <= p <= e {
        assert mid[p - s] == Page(p);
      }
    }
  }

  /** The page numbers shown are strictly increasing from left to right. */
  lemma {:induction false} ItemsIncreasing(b: PageBar, totalPages: int, k: int, l: int)
    requires ItemsOk(b, totalPages)
    requires 0 <= k < l < |b.items| && b.items[k].Page? && b.items[l].Page?
    ensures b.items[k].number < b.items[l].number
    decreases l - k
  {
    var items := b.items;
    if items[k + 1].Page? {
      if k + 1 < l {
        ItemsIncreasing(b, totalPages, k + 1, l);
      }
    } else {
      assert items[k + 2].Page?;
      if k + 2 < l {
        ItemsIncreasing(b, totalPages, k + 2, l);
      }
    }
  }
}
