/** What pagination controls render, and the Previous/Next buttons, shared by
    the product grid, the admin product search and the saved-products list. */
module Paging {

  /** A rendered control: a page-number button or a `...` gap. */
  datatype PageItem = Page(n: int) | Dots

  function Max(a: int, b: int): int { if a >= b then a else b }
  function Min(a: int, b: int): int { if a <= b then a else b }

  /** Buttons for pages `lo..hi` in ascending order (none when `lo > hi`). */
  function PageRun(lo: int, hi: int): (r: seq<PageItem>)
    ensures |r| == if lo <= hi then hi - lo + 1 else 0
    ensures forall k :: 0 <= k < |r| ==> r[k] == Page(lo + k)
  {
    seq(if lo <= hi then hi - lo + 1 else 0, k => Page(lo + k))
  }

  /** A run grows one page at a time at its upper end. */
  lemma PageRunStep(lo: int, hi: int)
    requires lo <= hi + 1
    ensures PageRun(lo, hi) + [Page(hi + 1)] == PageRun(lo, hi + 1)
  {
    var r := PageRun(lo, hi) + [Page(hi + 1)];
    assert forall k :: 0 <= k < |r| ==> r[k] == Page(lo + k);
  }

  /** Page-number buttons appear in strictly increasing order. */
  predicate Increasing(items: seq<PageItem>) {
    forall i, j :: 0 <= i < j < |items| && items[i].Page? && items[j].Page? ==> items[i].n < items[j].n
  }

  /** Two runs of controls, each increasing, with every number of the first
      below every number of the second, make one increasing run. */
  lemma IncreasingConcat(a: seq<PageItem>, b: seq<PageItem>)
    requires Increasing(a) && Increasing(b)
    requires forall i, j :: 0 <= i < |a| && 0 <= j < |b| && a[i].Page? && b[j].Page? ==> a[i].n < b[j].n
    ensures Increasing(a + b)
  {
    forall i, j | 0 <= i < j < |a + b| && (a + b)[i].Page? && (a + b)[j].Page?
      ensures (a + b)[i].n < (a + b)[j].n
    {
      if j < |a| {
      } else if i >= |a| {
        assert (a + b)[i] == b[i - |a|] && (a + b)[j] == b[j - |a|];
      } else {
        assert (a + b)[i] == a[i] && (a + b)[j] == b[j - |a|];
      }
    }
  }

  /** `setCurrentPage(prev => Math.max(prev - 1, 1))` */
  function PrevPage(current: int): (r: int)
    ensures r >= 1
    ensures current > 1 ==> r == current - 1
    ensures current <= 1 ==> r == 1
  {
    Max(current - 1, 1)
  }

  /** `setCurrentPage(prev => Math.min(prev + 1, totalPages))` */
  function NextPage(current: int, totalPages: int): (r: int)
    ensures r <= totalPages
    ensures current < totalPages ==> r == current + 1
    ensures current >= totalPages ==> r == totalPages
  {
    Min(current + 1, totalPages)
  }

  /** From a page in `[1, totalPages]`, Previous and Next stay in that range. */
  lemma ClampsStayInRange(current: int, totalPages: int)
    requires 1 <= current <= totalPages
    ensures 1 <= PrevPage(current) <= totalPages
    ensures 1 <= NextPage(current, totalPages) <= totalPages
  {
  }

  /** Next then Previous returns to the start page unless it was the last one,
      and Previous then Next unless it was the first one. */
  lemma ClampsUndo(current: int, totalPages: int)
    requires 1 <= current <= totalPages
    ensures current < totalPages ==> PrevPage(NextPage(current, totalPages)) == current
    ensures current > 1 ==> NextPage(PrevPage(current), totalPages) == current
  {
  }
}
