/** The storefront's product grid: 100 products per page, the page-number
    controls, multi-select and the bulk save of selected products. */
module ProductGrid {
  import opened Wrappers
  import opened Paging
  import opened Selection
  import opened Plans

  const ProductsPerPage: int := 100

  // ---------------------------------------------------------------------
  // Page split
  // ---------------------------------------------------------------------

  /** Where `Array.prototype.slice` starts or stops for index `i`: negative
      indices count from the end; everything is clamped to `[0, len]`. */
  function SliceIndex(i: int, len: nat): (r: nat)
    ensures r <= len
    ensures 0 <= i <= len ==> r == i
  {
    if i < 0 then Max(len + i, 0) else Min(i, len)
  }

  /** `s.slice(start, end)` */
  function JsSlice<T>(s: seq<T>, start: int, end: int): (r: seq<T>)
    ensures |r| <= |s|
    ensures forall k :: 0 <= k < |r| ==> SliceIndex(start, |s|) + k < |s| && r[k] == s[SliceIndex(start, |s|) + k]
    ensures 0 <= start <= end ==> |r| == Min(end, |s|) - Min(start, |s|)
  {
    var a := SliceIndex(start, |s|);
    var b := SliceIndex(end, |s|);
    if a < b then s[a..b] else []
  }

  /** `getPaginatedProducts`: the products of page `currentPage`. A page
      holds the next 100 products, or fewer at the end, in catalogue order,
      starting at product `(currentPage - 1) * 100`. */
  function PageOfProducts<T>(products: seq<T>, currentPage: int): (r: seq<T>)
    ensures currentPage >= 1 ==>
      |r| == Min(ProductsPerPage, Max(0, |products| - (currentPage - 1) * ProductsPerPage))
    ensures currentPage >= 1 ==> forall k :: 0 <= k < |r| ==>
      (currentPage - 1) * ProductsPerPage + k < |products| && r[k] == products[(currentPage - 1) * ProductsPerPage + k]
  {
    var startIndex := (currentPage - 1) * ProductsPerPage;
    JsSlice(products, startIndex, startIndex + ProductsPerPage)
  }

  /** `Math.ceil(products.length / 100)` */
  function TotalPages(n: nat): (r: nat)
    ensures n <= r * ProductsPerPage
    ensures r == 0 || (r - 1) * ProductsPerPage < n
  {
    (n + ProductsPerPage - 1) / ProductsPerPage
  }

  /** Every product is shown on exactly one of the pages `1..totalPages`: on
      page `k / 100 + 1`, at position `k % 100`. */
  lemma EveryProductHasAPage<T>(products: seq<T>, k: nat)
    requires k < |products|
    ensures var p := k / ProductsPerPage + 1;
      && 1 <= p <= TotalPages(|products|)
      && k % ProductsPerPage < |PageOfProducts(products, p)|
      && PageOfProducts(products, p)[k % ProductsPerPage] == products[k]
  {
    var p := k / ProductsPerPage + 1;
    var t := TotalPages(|products|);
    assert (p - 1) * ProductsPerPage + k % ProductsPerPage == k;
  }

  // ---------------------------------------------------------------------
  // Page-number controls
  // ---------------------------------------------------------------------

  /** `!totalPages || totalPages <= 1` renders nothing. */
  predicate ShowsPagination(totalPages: int) {
    !(totalPages == 0 || totalPages <= 1)
  }

  /** With `totalPages` computed from the catalogue, the controls appear
      exactly when there are more than 100 products. */
  lemma PaginationShownIff(n: nat)
    ensures ShowsPagination(TotalPages(n)) <==> n > ProductsPerPage
  {
  }

  /** The controls `getPaginationRange` lists: 1, a gap when the window
      starts past 3, the pages within 2 of the current one (without the
      first and last), then either a gap and the last page, or the last
      page alone when there is more than one. */
  function PaginationRange(p: int, totalPages: int): (r: seq<PageItem>)
    ensures |r| >= 1 && r[0] == Page(1)
  {
    var lead := if p - 2 > 2 then [Page(1), Dots] else [Page(1)];
    var tail := if p + 2 < totalPages - 1 then [Dots, Page(totalPages)]
                else if totalPages > 1 then [Page(totalPages)] else [];
    lead + PageRun(Max(2, p - 2), Min(totalPages - 1, p + 2)) + tail
  }

  /** `getPaginationRange`, with its `for` loop over the middle pages. */
  method GetPaginationRange(currentPage: int, totalPages: int) returns (rangeWithDots: seq<PageItem>)
    ensures rangeWithDots == PaginationRange(currentPage, totalPages)
  {
    var lo := Max(2, currentPage - 2);
    var hi := Min(totalPages - 1, currentPage + 2);
    var range: seq<PageItem> := [];
    var i := lo;
    while i <= hi
      invariant lo <= i <= Max(lo, hi + 1)
      invariant range == PageRun(lo, i - 1)
      decreases hi - i
    {
      PageRunStep(lo, i - 1);
      range := range + [Page(i)];
      i := i + 1;
    }
    if currentPage - 2 > 2 {
      rangeWithDots := [Page(1), Dots];
    } else {
      rangeWithDots := [Page(1)];
    }
    rangeWithDots := rangeWithDots + range;
    if currentPage + 2 < totalPages - 1 {
      rangeWithDots := rangeWithDots + [Dots, Page(totalPages)];
    } else if totalPages > 1 {
      rangeWithDots := rangeWithDots + [Page(totalPages)];
    }
  }

  /** Which page buttons the controls hold: 1, the last page when there is
      more than one, and the pages within 2 of the current one. */
  lemma PaginationPages(p: int, totalPages: int, n: int)
    requires p >= 1
    ensures Page(n) in PaginationRange(p, totalPages) <==>
      n == 1 || (n == totalPages && totalPages > 1) || Max(2, p - 2) <= n <= Min(totalPages - 1, p + 2)
  {
    var lead := if p - 2 > 2 then [Page(1), Dots] else [Page(1)];
    var mid := PageRun(Max(2, p - 2), Min(totalPages - 1, p + 2));
    var tail := if p + 2 < totalPages - 1 then [Dots, Page(totalPages)]
                else if totalPages > 1 then [Page(totalPages)] else [];
    assert PaginationRange(p, totalPages) == lead + mid + tail;
    if Max(2, p - 2) <= n <= Min(totalPages - 1, p + 2) {
      assert mid[n - Max(2, p - 2)] == Page(n);
    }
    if Page(n) in mid {
      var k :| 0 <= k < |mid| && mid[k] == Page(n);
    }
  }

  /** The current page, when it exists, always has a button. */
  lemma PaginationShowsCurrent(p: int, totalPages: int)
    requires 1 <= p <= totalPages
    ensures Page(p) in PaginationRange(p, totalPages)
  {
    PaginationPages(p, totalPages, p);
  }

  /** Page buttons appear in strictly increasing order. */
  lemma PaginationIncreasing(p: int, totalPages: int)
    requires p >= 1
    ensures Increasing(PaginationRange(p, totalPages))
  {
    var lead := if p - 2 > 2 then [Page(1), Dots] else [Page(1)];
    var mid := PageRun(Max(2, p - 2), Min(totalPages - 1, p + 2));
    var tail := if p + 2 < totalPages - 1 then [Dots, Page(totalPages)]
                else if totalPages > 1 then [Page(totalPages)] else [];
    IncreasingConcat(lead, mid);
    var front := lead + mid;
    forall i, j | 0 <= i < |front| && 0 <= j < |tail| && front[i].Page? && tail[j].Page?
      ensures front[i].n < tail[j].n
    {
      if i >= |lead| {
        assert front[i] == mid[i - |lead|];
      } else {
        assert front[i] == lead[i];
      }
    }
    IncreasingConcat(front, tail);
  }

  /** A gap follows page 1 exactly when `p - 2 > 2`; for a page in range, the
      controls end with a gap and the last page exactly when `p + 2 < totalPages - 1`. */
  lemma PaginationGaps(p: int, totalPages: int)
    requires 1 <= p <= totalPages
    ensures var r := PaginationRange(p, totalPages);
      && (|r| >= 2 && r[1] == Dots <==> p - 2 > 2)
      && (|r| >= 2 && r[|r| - 2] == Dots && r[|r| - 1] == Page(totalPages) <==> p + 2 < totalPages - 1)
  {
    var r := PaginationRange(p, totalPages);
    var lo, hi := Max(2, p - 2), Min(totalPages - 1, p + 2);
    var mid := PageRun(lo, hi);
    if p - 2 <= 2 && |r| >= 2 {
      assert r[1] == if |mid| > 0 then mid[0] else r[1];
    }
    if p + 2 >= totalPages - 1 && totalPages > 1 && p - 2 > 2 {
      assert |mid| > 0 && r[|r| - 2] == mid[|mid| - 1];
    }
  }

  // ---------------------------------------------------------------------
  // The grid
  // ---------------------------------------------------------------------

  /** The dialog text after a bulk save. */
  datatype SaveNotice = AlreadySaved | SavedCount(count: nat) | SaveFailed

  /** What the grid sends out. */
  datatype GridEvent = Navigate(path: string) | BulkSave(productIds: set<ProductId>, email: string)

  class Grid {
    var currentPage: int
    var selectedProducts: set<ProductId>
    /** The keys of `savedProducts` whose value is `true`. */
    var savedProducts: set<ProductId>
    var notice: Option<SaveNotice>
    var log: seq<GridEvent>

    constructor()
      ensures currentPage == 1 && selectedProducts == {} && savedProducts == {} && notice == None && log == []
    {
      currentPage := 1;
      selectedProducts := {};
      savedProducts := {};
      notice := None;
      log := [];
    }

    /** `toggleProductSelection` */
    method ToggleProductSelection(id: ProductId)
      modifies this`selectedProducts
      ensures selectedProducts == Toggled(old(selectedProducts), id)
    {
      selectedProducts := Toggled(selectedProducts, id);
    }

    /** The Previous button. */
    method Previous()
      modifies this`currentPage
      ensures currentPage == PrevPage(old(currentPage))
    {
      currentPage := PrevPage(currentPage);
    }

    /** The Next button. */
    method Next(totalPages: int)
      modifies this`currentPage
      ensures currentPage == NextPage(old(currentPage), totalPages)
    {
      currentPage := NextPage(currentPage, totalPages);
    }

    /** Nothing is left to save exactly when every selected product is already saved. */
    static lemma NothingNewIff(selected: set<ProductId>, saved: set<ProductId>)
      ensures selected - saved == {} <==> selected <= saved
    {
      if selected - saved == {} {
        forall id | id in selected ensures id in saved {
          assert id !in selected - saved;
        }
      }
    }

    /** The `forEach` that copies the saved flags and sets one per product to save. */
    static method MarkAllSaved(saved: set<ProductId>, toSave: set<ProductId>) returns (newSaved: set<ProductId>)
      ensures newSaved == saved + toSave
    {
      newSaved := saved;
      var remaining := toSave;
      while remaining != {}
        invariant remaining <= toSave
        invariant newSaved == saved + (toSave - remaining)
        decreases |remaining|
      {
        var id :| id in remaining;
        newSaved := newSaved + {id};
        remaining := remaining - {id};
      }
    }

    /** `handleSaveMultiple`: save the selected products that are not saved
        yet; `posted` says whether the bulk request succeeded. */
    method HandleSaveMultiple(user: Option<User>, posted: bool)
      modifies this`selectedProducts, this`savedProducts, this`notice, this`log
      ensures user.None? ==>
        log == old(log) + [Navigate("/")] && selectedProducts == old(selectedProducts)
        && savedProducts == old(savedProducts) && notice == old(notice)
      ensures user.Some? && old(selectedProducts) == {} ==>
        log == old(log) && selectedProducts == {} && savedProducts == old(savedProducts) && notice == old(notice)
      ensures user.Some? && old(selectedProducts) != {} && old(selectedProducts) <= old(savedProducts) ==>
        log == old(log) && notice == Some(AlreadySaved) && selectedProducts == {} && savedProducts == old(savedProducts)
      ensures user.Some? && !(old(selectedProducts) <= old(savedProducts)) ==>
        log == old(log) + [BulkSave(old(selectedProducts) - old(savedProducts), user.value.email)]
      ensures user.Some? && !(old(selectedProducts) <= old(savedProducts)) && posted ==>
        && savedProducts == old(savedProducts) + old(selectedProducts) && selectedProducts == {}
        && notice == Some(SavedCount(|old(selectedProducts) - old(savedProducts)|))
      ensures user.Some? && !(old(selectedProducts) <= old(savedProducts)) && !posted ==>
        savedProducts == old(savedProducts) && selectedProducts == old(selectedProducts) && notice == Some(SaveFailed)
    {
      if user.None? {
        log := log + [Navigate("/")];
        return;
      }
      if selectedProducts == {} {
        return;
      }
      var toSave := selectedProducts - savedProducts;
      NothingNewIff(selectedProducts, savedProducts);
      if toSave == {} {
        notice := Some(AlreadySaved);
        selectedProducts := {};
        return;
      }
      log := log + [BulkSave(toSave, user.value.email)];
      if !posted {
        notice := Some(SaveFailed);
        return;
      }
      var newSaved := MarkAllSaved(savedProducts, toSave);
      assert newSaved == savedProducts + selectedProducts;
      savedProducts := newSaved;
      notice := Some(SavedCount(|toSave|));
      selectedProducts := {};
    }
  }
}
