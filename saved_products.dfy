/** The admin list of saved products: category and search filters, a
    per-page rule for which page numbers to show, multi-select and bulk delete. */
module SavedProducts {
  import opened Paging
  import opened Selection

  /** What the pagination renders for one page number. */
  datatype Slot = Button | Ellipsis | Hidden

  /** The rule applied to each of the pages `1..totalPages`: the first, the
      last and the pages within one of the current page get a button; the
      pages two away from it get `...`; all others render nothing. */
  function PageSlot(pageNum: int, current: int, totalPages: int): (r: Slot)
    ensures r == Button <==> pageNum == 1 || pageNum == totalPages || current - 1 <= pageNum <= current + 1
    ensures r == Ellipsis <==>
      && (pageNum == current - 2 || pageNum == current + 2)
      && !(pageNum == 1 || pageNum == totalPages || current - 1 <= pageNum <= current + 1)
  {
    if pageNum == 1 || pageNum == totalPages || (pageNum >= current - 1 && pageNum <= current + 1) then Button
    else if pageNum == current - 2 || pageNum == current + 2 then Ellipsis
    else Hidden
  }

  /** The controls of pages `1..n`; those rendered between Previous and Next
      are the controls of pages `1..totalPages`. */
  function PageControlsUpTo(n: int, current: int, totalPages: int): (r: seq<PageItem>)
    ensures forall k :: 0 <= k < |r| && r[k].Page? ==> 1 <= r[k].n <= n
    decreases if n < 0 then 0 else n
  {
    if n <= 0 then [] else PageControlsUpTo(n - 1, current, totalPages) + SlotItem(n, current, totalPages)
  }

  function SlotItem(pageNum: int, current: int, totalPages: int): (r: seq<PageItem>)
    ensures |r| <= 1
    ensures r == [Page(pageNum)] <==> PageSlot(pageNum, current, totalPages) == Button
    ensures r == [Dots] <==> PageSlot(pageNum, current, totalPages) == Ellipsis
  {
    match PageSlot(pageNum, current, totalPages)
    case Button => [Page(pageNum)]
    case Ellipsis => [Dots]
    case Hidden => []
  }

  /** The controls list the page buttons in increasing order. */
  lemma {:induction false} PageControlsIncreasing(n: int, current: int, totalPages: int)
    ensures Increasing(PageControlsUpTo(n, current, totalPages))
    decreases if n < 0 then 0 else n
  {
    if n > 0 {
      PageControlsIncreasing(n - 1, current, totalPages);
      IncreasingConcat(PageControlsUpTo(n - 1, current, totalPages), SlotItem(n, current, totalPages));
    }
  }

  /** For a page in range, page 1, the last page and the current page all
      have buttons, and every `...` stands for a page strictly between the
      first and the last. */
  lemma SlotsOfInterest(current: int, totalPages: int, pageNum: int)
    requires 1 <= current <= totalPages
    ensures PageSlot(1, current, totalPages) == Button
    ensures PageSlot(totalPages, current, totalPages) == Button
    ensures PageSlot(current, current, totalPages) == Button
    ensures 1 <= pageNum <= totalPages && PageSlot(pageNum, current, totalPages) == Ellipsis ==> 1 < pageNum < totalPages
  {
  }

  /** Pagination is shown only with more than one page. */
  predicate ShowsPagination(totalPages: int) {
    totalPages > 1
  }

  /** The page controls rendered between Previous and Next, or nothing when
      pagination is hidden. */
  function RenderedControls(current: int, totalPages: int): (r: seq<PageItem>)
    ensures forall k :: 0 <= k < |r| && r[k].Page? ==> 1 <= r[k].n <= totalPages
  {
    if ShowsPagination(totalPages) then PageControlsUpTo(totalPages, current, totalPages) else []
  }

  /** Every page up to `n` whose slot is a button appears among the controls. */
  lemma {:induction false} ButtonListed(n: int, current: int, totalPages: int, pageNum: int)
    requires 1 <= pageNum <= n && PageSlot(pageNum, current, totalPages) == Button
    ensures Page(pageNum) in PageControlsUpTo(n, current, totalPages)
    decreases n
  {
    if pageNum < n {
      ButtonListed(n - 1, current, totalPages, pageNum);
    } else {
      assert SlotItem(n, current, totalPages) == [Page(n)];
    }
  }

  /** Controls are rendered exactly when there is more than one page, and
      then the first and the last page always have a button. */
  lemma ControlsShownIff(current: int, totalPages: int)
    ensures RenderedControls(current, totalPages) != [] <==> totalPages > 1
    ensures totalPages > 1 ==>
      Page(1) in RenderedControls(current, totalPages) && Page(totalPages) in RenderedControls(current, totalPages)
  {
    if totalPages > 1 {
      ButtonListed(totalPages, current, totalPages, 1);
      ButtonListed(totalPages, current, totalPages, totalPages);
    }
  }

  /** What the list sends out. */
  datatype ListEvent = BulkDelete(productIds: set<ProductId>) | Refetch | Alert(text: string)

  /** How the bulk-delete request ended: a 2xx status, or a thrown request.
      The HTTP client rejects every 4xx and 5xx reply, so those arrive as
      `Threw`. */
  datatype DeleteReply = Status(code: int) | Threw

  class SavedList {
    var selectedCategory: string
    var selectedSubCategory: string
    var searchTerm: string
    var currentPage: int
    var selectedProducts: set<ProductId>
    var log: seq<ListEvent>

    constructor()
      ensures selectedCategory == "All" && selectedSubCategory == "All" && searchTerm == ""
      ensures currentPage == 1 && selectedProducts == {} && log == []
    {
      selectedCategory := "All";
      selectedSubCategory := "All";
      searchTerm := "";
      currentPage := 1;
      selectedProducts := {};
      log := [];
    }

    /** `handleCategorySelect`: a new category starts at its `'All'`
        subcategory and page 1. */
    method HandleCategorySelect(category: string)
      modifies this`selectedCategory, this`selectedSubCategory, this`currentPage
      ensures selectedCategory == category && selectedSubCategory == "All" && currentPage == 1
    {
      selectedCategory := category;
      selectedSubCategory := "All";
      currentPage := 1;
    }

    /** `handleSubCategorySelect` */
    method HandleSubCategorySelect(subcategory: string)
      modifies this`selectedSubCategory, this`currentPage
      ensures selectedSubCategory == subcategory && currentPage == 1
    {
      selectedSubCategory := subcategory;
      currentPage := 1;
    }

    /** Typing in the search box goes back to page 1. */
    method SearchChanged(text: string)
      modifies this`searchTerm, this`currentPage
      ensures searchTerm == text && currentPage == 1
    {
      searchTerm := text;
      currentPage := 1;
    }

    /** `toggleProductSelection` */
    method ToggleProductSelection(id: ProductId)
      modifies this`selectedProducts
      ensures selectedProducts == Toggled(old(selectedProducts), id)
    {
      selectedProducts := Toggled(selectedProducts, id);
    }

    /** The Previous button. */
    method Previous()
      modifies this`currentPage
      ensures currentPage == PrevPage(old(currentPage))
    {
      currentPage := PrevPage(currentPage);
    }

    /** The Next button. */
    method Next(totalPages: int)
      modifies this`currentPage
      ensures currentPage == NextPage(old(currentPage), totalPages)
    {
      currentPage := NextPage(currentPage, totalPages);
    }

    /** `handleBulkDelete`: after confirmation, ask to delete the selected
        products; only a 200 reply clears the selection and reloads. */
    method HandleBulkDelete(confirmed: bool, reply: DeleteReply)
      modifies this`selectedProducts, this`log
      ensures !confirmed ==> selectedProducts == old(selectedProducts) && log == old(log)
      ensures confirmed && reply == Status(200) ==>
        selectedProducts == {} && log == old(log) + [BulkDelete(old(selectedProducts)), Refetch]
      ensures confirmed && reply != Status(200) ==>
        selectedProducts == old(selectedProducts)
        && log == old(log) + [BulkDelete(old(selectedProducts))] + (if reply.Threw? then [Alert("Failed to delete products")] else [])
    {
      if !confirmed {
        return;
      }
      log := log + [BulkDelete(selectedProducts)];
      match reply {
        case Status(code) =>
          if code == 200 {
            selectedProducts := {};
            log := log + [Refetch];
          }
        case Threw =>
          log := log + [Alert("Failed to delete products")];
      }
    }
  }
}
