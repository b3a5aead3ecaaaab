/** The pager: fixed-size pages of the stored list (`displayPage`, `renderPagination`) and
    the sliding window of page links (`updateVisiblePages`, `nextPage`, `prevPage`). */
module Paging {

  const ItemsPerPage := 5
  const VisiblePageLimit := 7

  /** `Math.ceil(n / itemsPerPage)`: the least number of pages that holds `n` items. */
  function TotalPages(n: nat): (r: nat)
    ensures ItemsPerPage * (r - 1) < n <= ItemsPerPage * r
  {
    (n + ItemsPerPage - 1) / ItemsPerPage
  }

  /** Index of the first item of page `p` (pages count from 1). */
  function PageStart(p: int): int
  {
    (p - 1) * ItemsPerPage
  }

  /** `tasks.slice(start, start + itemsPerPage)`: `slice` clamps both ends to the length. */
  function PageSlice<T>(s: seq<T>, p: int): seq<T>
    requires p >= 1
  {
    var b := if PageStart(p) <= |s| then PageStart(p) else |s|;
    var e := if PageStart(p) + ItemsPerPage <= |s| then PageStart(p) + ItemsPerPage else |s|;
    s[b..e]
  }

  /** A page holds at most `ItemsPerPage` items, taken in order from `PageStart(p)`;
      it is empty exactly when `p` is past the last page. */
  lemma PageSliceSpec<T>(s: seq<T>, p: int)
    requires p >= 1
    ensures |PageSlice(s, p)| <= ItemsPerPage
    ensures forall k :: 0 <= k < |PageSlice(s, p)| ==> PageSlice(s, p)[k] == s[PageStart(p) + k]
    ensures PageSlice(s, p) != [] <==> p <= TotalPages(|s|)
  {
  }

  /** The last page holds `n mod 5` items, or 5 when `n` is a positive multiple of 5. */
  lemma LastPageSize<T>(s: seq<T>)
    requires s != []
    ensures |PageSlice(s, TotalPages(|s|))| == if |s| % ItemsPerPage == 0 then ItemsPerPage else |s| % ItemsPerPage
  {
  }

  /** Pages 1 to `k`, one after another. */
  function Pages<T>(s: seq<T>, k: nat): seq<T>
  {
    if k == 0 then [] else Pages(s, k - 1) + PageSlice(s, k)
  }

  /** The first `k` pages are the first `5 k` items (or all of them). */
  lemma {:induction false} PagesArePrefix<T>(s: seq<T>, k: nat)
    ensures Pages(s, k) == s[..if ItemsPerPage * k <= |s| then ItemsPerPage * k else |s|]
  {
    if k > 0 {
      PagesArePrefix(s, k - 1);
    }
  }

  /** Rendering every page from 1 to the page count shows the whole list, once, in order. */
  lemma PagesCoverAll<T>(s: seq<T>)
    ensures Pages(s, TotalPages(|s|)) == s
  {
    PagesArePrefix(s, TotalPages(|s|));
  }

  /** `updateVisiblePages`: link index `i` (page `i + 1`) is displayed iff it lies in the window. */
  predicate Visible(i: int, start: int, end: int)
  {
    start <= i <= end
  }

  /** The indices of the displayed links among `total` links. */
  function ShownLinks(total: nat, start: int, end: int): set<int>
  {
    set i | 0 <= i < total && Visible(i, start, end)
  }

  /** The displayed links form the run from `start` to `min(end, total - 1)`. */
  lemma {:induction false} ShownLinksCount(total: nat, start: int, end: int)
    requires 0 <= start <= end + 1
    ensures |ShownLinks(total, start, end)| ==
      if total <= start then 0 else (if end + 1 <= total then end + 1 else total) - start
  {
    if total > 0 {
      ShownLinksCount(total - 1, start, end);
      if Visible(total - 1, start, end) {
        assert ShownLinks(total, start, end) == ShownLinks(total - 1, start, end) + {total - 1};
      } else {
        assert ShownLinks(total, start, end) == ShownLinks(total - 1, start, end);
      }
    } else {
      assert ShownLinks(total, start, end) == {};
    }
  }

  /** The current page number and the window of visible link indices. */
  datatype Pager = Pager(page: int, start: int, end: int)

  /** The pager at load: page 1, links 0 to 6 visible. */
  const InitialPager := Pager(1, 0, VisiblePageLimit - 1)

  /** The window is seven links wide, starts at a real link, and the page is a real page. */
  predicate WindowOk(pg: Pager)
  {
    pg.page >= 1 && pg.start >= 0 && pg.end - pg.start == VisiblePageLimit - 1
  }

  /** The link of the current page is among the displayed ones. */
  predicate CurrentShown(pg: Pager)
  {
    Visible(pg.page - 1, pg.start, pg.end)
  }

  /** A well-formed window never shows more than `VisiblePageLimit` links. */
  lemma ShownAtMostLimit(pg: Pager, total: nat)
    requires WindowOk(pg)
    ensures |ShownLinks(total, pg.start, pg.end)| <= VisiblePageLimit
  {
    ShownLinksCount(total, pg.start, pg.end);
  }

  /** `nextPage`, with `total` the page count it computes. */
  function Next(pg: Pager, total: int): Pager
  {
    if pg.page < total then
      var p := pg.page + 1;
      if p > pg.end + 1 then Pager(p, pg.start + 1, pg.end + 1) else pg.(page := p)
    else pg
  }

  /** `prevPage`. */
  function Prev(pg: Pager): Pager
  {
    if pg.page > 1 then
      var p := pg.page - 1;
      if p < pg.start + 1 then Pager(p, pg.start - 1, pg.end - 1) else pg.(page := p)
    else pg
  }

  /** `displayPage(p)`: sets the page and leaves the window where it is. */
  function Show(pg: Pager, p: int): Pager
  {
    pg.(page := p)
  }

  /** `nextPage` advances by exactly one page when there is a later page and otherwise
      changes nothing; the window slides forward by at most one, keeps its width, and
      keeps the current page's link visible. */
  lemma NextSpec(pg: Pager, total: int)
    requires WindowOk(pg)
    ensures pg.page < total ==> Next(pg, total).page == pg.page + 1
    ensures pg.page >= total ==> Next(pg, total) == pg
    ensures Next(pg, total).start - pg.start in {0, 1}
    ensures WindowOk(Next(pg, total))
    ensures CurrentShown(pg) ==> CurrentShown(Next(pg, total))
    ensures CurrentShown(pg) && Next(pg, total).start != pg.start ==> pg.page - 1 == pg.end
  {
  }

  /** `prevPage` goes back by exactly one page unless on page 1, where it changes nothing;
      the window slides back by at most one, never before link 0, keeps its width, and
      keeps the current page's link visible. */
  lemma PrevSpec(pg: Pager)
    requires WindowOk(pg)
    ensures pg.page > 1 ==> Prev(pg).page == pg.page - 1
    ensures pg.page <= 1 ==> Prev(pg) == pg
    ensures pg.start - Prev(pg).start in {0, 1}
    ensures WindowOk(Prev(pg))
    ensures CurrentShown(pg) ==> CurrentShown(Prev(pg))
    ensures CurrentShown(pg) && Prev(pg).start != pg.start ==> pg.page - 1 == pg.start
  {
  }

  /** Following a displayed link `i` of a list of `|s|` items (`displayPage(i + 1)`) lands
      on a real page: its link stays displayed and its slice holds between one and
      `ItemsPerPage` items. */
  lemma FollowLink<T>(pg: Pager, s: seq<T>, i: int)
    requires WindowOk(pg) && Visible(i, pg.start, pg.end) && 0 <= i < TotalPages(|s|)
    ensures WindowOk(Show(pg, i + 1)) && CurrentShown(Show(pg, i + 1))
    ensures 0 < |PageSlice(s, Show(pg, i + 1).page)| <= ItemsPerPage
  {
    PageSliceSpec(s, i + 1);
  }

  /** `displayPage()` with no argument (after create, delete and search) goes back to
      page 1 without moving the window: with nine pages, seven `nextPage` calls slide the
      window to links 1 to 7, and the reset then leaves page 1's link hidden. */
  lemma ResetCanHideCurrent()
    ensures var pg := Next(Next(Next(Next(Next(Next(Next(InitialPager, 9), 9), 9), 9), 9), 9), 9);
      pg == Pager(8, 1, 7) && !CurrentShown(Show(pg, 1))
  {
  }
}
