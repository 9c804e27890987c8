/**
 * The page bar under the sales table. From the current page and the page
 * count it chooses which page buttons to draw: every page when there are at
 * most seven, otherwise the first page, a window around the current page, the
 * last page, and "..." wherever pages are skipped. The bar is not drawn at all
 * for a single page, and the previous/next buttons are disabled on the first
 * and last page.
 */
module Pagination {
  import opened JsMath

  /** One button of the bar: a page number or the "..." marker. */
  datatype Entry = Page(n: int) | Ellipsis

  /** `for (let i = lo; i <= hi; i++) pages.push(i)`. */
  function PageRun(lo: int, hi: int): (r: seq<Entry>)
    ensures |r| == if lo <= hi then hi - lo + 1 else 0
    ensures forall i :: 0 <= i < |r| ==> r[i] == Page(lo + i)
  {
    if lo <= hi then seq(hi - lo + 1, i requires 0 <= i < hi - lo + 1 => Page(lo + i)) else []
  }

  function Max(a: int, b: int): int
  {
    if a >= b then a else b
  }

  function Min(a: int, b: int): int
  {
    if a <= b then a else b
  }

  /** `getPageNumbers`: the buttons for page `cp` of `tp`. */
  function PageNumbers(cp: int, tp: int): seq<Entry>
  {
    if tp <= 7 then PageRun(1, tp)
    else
      var start := if cp >= tp - 2 then tp - 3 else Max(2, cp - 1);
      var end := if cp <= 3 then 4 else Min(tp - 1, cp + 1);
      [Page(1)]
      + (if start > 2 then [Ellipsis] else [])
      + PageRun(start, end)
      + (if end < tp - 1 then [Ellipsis] else [])
      + [Page(tp)]
  }

  /** What the component draws. */
  datatype View =
    | Hidden
    | Controls(entries: seq<Entry>, prevDisabled: bool, nextDisabled: bool)

  /** `Math.ceil(totalItems / itemsPerPage)`. */
  function PageCount(totalItems: int, itemsPerPage: int): int
    requires itemsPerPage != 0
  {
    CeilDiv(totalItems, itemsPerPage)
  }

  /** The component: nothing for at most one page, otherwise the bar. */
  function Render(currentPage: int, totalItems: int, itemsPerPage: int): (v: View)
    requires itemsPerPage != 0
    ensures itemsPerPage > 0 ==> (v.Hidden? <==> totalItems <= itemsPerPage)
    ensures v.Controls? ==> (v.prevDisabled <==> currentPage == 1)
    ensures v.Controls? ==> (v.nextDisabled <==> currentPage == PageCount(totalItems, itemsPerPage))
    ensures v.Controls? ==> forall k :: Page(k) in v.entries <==> Shown(currentPage, PageCount(totalItems, itemsPerPage), k)
    ensures v.Controls? ==> GapsMarked(v.entries)
    ensures v.Controls? ==> && 1 <= |v.entries| <= 7 && v.entries[0] == Page(1)
                            && v.entries[|v.entries| - 1] == Page(PageCount(totalItems, itemsPerPage))
  {
    var tp := PageCount(totalItems, itemsPerPage);
    SinglePage(totalItems, itemsPerPage);
    if tp <= 1 then Hidden
    else
      ShowsExactly(currentPage, tp);
      Ordered(currentPage, tp);
      Bounds(currentPage, tp);
      Controls(PageNumbers(currentPage, tp), currentPage == 1, currentPage == tp)
  }

  /** For a positive page size there is at most one page exactly when the items fit on one. */
  lemma SinglePage(total: int, n: int)
    requires n != 0
    ensures n > 0 ==> (CeilDiv(total, n) <= 1 <==> total <= n)
  {
    if n > 0 {
      var q := CeilDiv(total, n);
      if q <= 1 {
        assert q * n <= 1 * n by { assert n - q * n == (1 - q) * n; }
      } else {
        assert (q - 1) * n >= n by { assert (q - 1) * n - n == (q - 2) * n; }
      }
    }
  }

  // ---------------------------------------------------------------------------
  // What the bar shows

  /**
   * The page numbers the bar should show: all of 1..tp when there are at most
   * seven pages; otherwise the first, the last, the current page with its
   * neighbours, pages 1-4 near the start and the last four near the end.
   */
  predicate Shown(cp: int, tp: int, k: int)
  {
    && 1 <= k <= tp
    && (|| tp <= 7
        || k == 1 || k == tp
        || cp - 1 <= k <= cp + 1
        || (cp <= 3 && k <= 4)
        || (cp >= tp - 2 && k >= tp - 3))
  }

  /**
   * Neighbouring buttons: two page numbers side by side are consecutive, and a
   * "..." stands between two page numbers that skip at least one page. The bar
   * starts and ends with a page number.
   */
  predicate GapsMarked(e: seq<Entry>)
  {
    && (|e| > 0 ==> e[0].Page? && e[|e| - 1].Page?)
    && forall i :: 0 <= i < |e| - 1 ==>
         && (e[i].Page? && e[i + 1].Page? ==> e[i + 1].n == e[i].n + 1)
         && (e[i].Ellipsis? ==> 0 < i && e[i - 1].Page? && e[i + 1].Page? && e[i + 1].n >= e[i - 1].n + 2)
  }

  /**
   * The three shapes of a long bar: near the start `1 2 3 4 ... tp`, in the
   * middle `1 ... cp-1 cp cp+1 ... tp`, near the end `1 ... tp-3 tp-2 tp-1 tp`.
   */
  lemma WindowCases(cp: int, tp: int)
    requires tp > 7
    ensures cp <= 3 ==>
              PageNumbers(cp, tp) == [Page(1), Page(2), Page(3), Page(4), Ellipsis, Page(tp)]
    ensures 3 < cp < tp - 2 ==>
              PageNumbers(cp, tp) == [Page(1), Ellipsis, Page(cp - 1), Page(cp), Page(cp + 1), Ellipsis, Page(tp)]
    ensures cp >= tp - 2 ==>
              PageNumbers(cp, tp) == [Page(1), Ellipsis, Page(tp - 3), Page(tp - 2), Page(tp - 1), Page(tp)]
  {
    if cp <= 3 {
      assert PageRun(2, 4) == [Page(2), Page(3), Page(4)];
    } else if cp < tp - 2 {
      assert PageRun(cp - 1, cp + 1) == [Page(cp - 1), Page(cp), Page(cp + 1)];
    } else {
      assert PageRun(tp - 3, tp - 1) == [Page(tp - 3), Page(tp - 2), Page(tp - 1)];
    }
  }

  /** With at most seven pages every page has its button, in order. */
  lemma FewPages(cp: int, tp: int)
    requires tp <= 7
    ensures PageNumbers(cp, tp) == PageRun(1, tp)
  {
  }

  /** The bar shows exactly the pages `Shown` names. */
  lemma ShowsExactly(cp: int, tp: int)
    ensures forall k :: Page(k) in PageNumbers(cp, tp) <==> Shown(cp, tp, k)
  {
    var e := PageNumbers(cp, tp);
    if tp <= 7 {
      forall k | Shown(cp, tp, k)
        ensures Page(k) in e
      {
        assert e[k - 1] == Page(k);
      }
    } else {
      WindowCases(cp, tp);
    }
  }

  /** Page numbers increase one by one, with "..." exactly where pages are skipped. */
  lemma Ordered(cp: int, tp: int)
    ensures GapsMarked(PageNumbers(cp, tp))
  {
    if tp > 7 {
      WindowCases(cp, tp);
    }
  }

  /**
   * A bar of at least one page starts at page 1 and ends at the last page,
   * never has more than seven buttons, and always shows the current page when
   * it is in range.
   */
  lemma Bounds(cp: int, tp: int)
    requires tp >= 1
    ensures var e := PageNumbers(cp, tp);
            && 1 <= |e| <= 7
            && e[0] == Page(1) && e[|e| - 1] == Page(tp)
            && (1 <= cp <= tp ==> Page(cp) in e)
  {
    ShowsExactly(cp, tp);
    if tp > 7 {
      WindowCases(cp, tp);
    }
  }
}
