/** The admin product search: subcategory filter, a five-page window of page
    buttons, multi-select with select-all, and saving the selected products
    under a category. */
module ProductManagement {
  import opened Wrappers
  import opened Paging
  import opened Selection
  import opened Categories

  // ---------------------------------------------------------------------
  // Subcategory filter and select-all
  // ---------------------------------------------------------------------

  /** `toggleSubCategory`: clicking the selected subcategory clears the
      filter; clicking another selects it alone. */
  function SubCategoryToggled(prev: set<string>, name: string): (r: set<string>)
    ensures |r| <= 1
    ensures name in r <==> name !in prev
    ensures forall other :: other in r ==> other == name
  {
    if name in prev then {} else {name}
  }

  /** Clicking the same subcategory twice returns to where it started from no
      filter or from that subcategory alone; from another subcategory it ends
      with no filter, since the first click replaces it. */
  lemma SubCategoryToggleTwice(name: string, other: string)
    requires other != name
    ensures SubCategoryToggled(SubCategoryToggled({}, name), name) == {}
    ensures SubCategoryToggled(SubCategoryToggled({name}, name), name) == {name}
    ensures SubCategoryToggled(SubCategoryToggled({other}, name), name) == {}
  {
  }

  /** The select-all button: `prev.size === allProductIds.size ? new Set() : allProductIds`. */
  function SelectAllToggled(prev: set<ProductId>, allIds: set<ProductId>): (r: set<ProductId>)
    ensures r == {} || r == allIds
    ensures |prev| != |allIds| ==> r == allIds
  {
    if |prev| == |allIds| then {} else allIds
  }

  lemma SubsetOfSameSize(a: set<ProductId>, b: set<ProductId>)
    requires a <= b && |a| == |b|
    ensures a == b
  {
    assert |b - a| == |b| - |a|;
  }

  /** While the selection holds only listed products, select-all is a toggle:
      it clears a complete selection and completes any other. */
  lemma SelectAllIsToggle(prev: set<ProductId>, allIds: set<ProductId>)
    requires prev <= allIds
    ensures SelectAllToggled(prev, allIds) == (if prev == allIds then {} else allIds)
  {
    if |prev| == |allIds| {
      SubsetOfSameSize(prev, allIds);
    }
  }

  // ---------------------------------------------------------------------
  // The page-number window
  // ---------------------------------------------------------------------

  /** `startPage`/`endPage` of `renderPageNumbers`: five pages centred on the
      current one where possible, shifted left near the end. */
  function WindowStart(p: int, totalPages: int): int {
    var start := Max(1, p - 2);
    var end := Min(totalPages, start + 4);
    if end - start < 4 then Max(1, end - 4) else start
  }

  function WindowEnd(p: int, totalPages: int): int {
    Min(totalPages, Max(1, p - 2) + 4)
  }

  /** The window lies in `[1, totalPages]`, holds at most five pages (exactly
      `min(totalPages, 5)` for a page in range) and contains the current page. */
  lemma WindowBounds(p: int, totalPages: int)
    ensures 1 <= WindowStart(p, totalPages) && WindowEnd(p, totalPages) <= totalPages
    ensures WindowEnd(p, totalPages) - WindowStart(p, totalPages) <= 4
    ensures 1 <= p <= totalPages ==>
      && WindowStart(p, totalPages) <= p <= WindowEnd(p, totalPages)
      && WindowEnd(p, totalPages) - WindowStart(p, totalPages) + 1 == Min(totalPages, 5)
  {
  }

  /** Page 1, and a gap after it when the window starts past page 2. */
  function Leading(start: int): seq<PageItem> {
    if start > 1 then [Page(1)] + (if start > 2 then [Dots] else []) else []
  }

  /** A gap when the window ends before the last page but one, and the last page. */
  function Trailing(end: int, totalPages: int): seq<PageItem> {
    if end < totalPages then (if end < totalPages - 1 then [Dots] else []) + [Page(totalPages)] else []
  }

  /** The controls `renderPageNumbers` pushes: page 1 and a gap before the
      window when it starts past 1 and 2, the window, then a gap and the
      last page after it when it ends before them. */
  function PageNumbers(p: int, totalPages: int): (r: seq<PageItem>)
  {
    var start := WindowStart(p, totalPages);
    var end := WindowEnd(p, totalPages);
    var first := Leading(start);
    var last := Trailing(end, totalPages);
    first + PageRun(start, end) + last
  }

  /** The first statements of `renderPageNumbers`: the window's bounds. */
  method ComputeWindow(currentPage: int, totalPages: int) returns (startPage: int, endPage: int)
    ensures startPage == WindowStart(currentPage, totalPages)
    ensures endPage == WindowEnd(currentPage, totalPages)
  {
    startPage := Max(1, currentPage - 2);
    endPage := Min(totalPages, startPage + 4);
    if endPage - startPage < 4 {
      startPage := Max(1, endPage - 4);
    }
  }

  /** `renderPageNumbers`, with its `for` loop over the window. */
  method RenderPageNumbers(currentPage: int, totalPages: int) returns (pages: seq<PageItem>)
    ensures pages == PageNumbers(currentPage, totalPages)
  {
    var startPage, endPage := ComputeWindow(currentPage, totalPages);
    pages := [];
    if startPage > 1 {
      pages := pages + [Page(1)];
      if startPage > 2 {
        pages := pages + [Dots];
      }
    }
    ghost var first := pages;
    assert first == Leading(startPage);
    var i := startPage;
    while i <= endPage
      invariant startPage <= i && (i == startPage || i <= endPage + 1)
      invariant pages == first + PageRun(startPage, i - 1)
      decreases endPage - i
    {
      PageRunStep(startPage, i - 1);
      assert first + PageRun(startPage, i - 1) + [Page(i)] == first + PageRun(startPage, i);
      pages := pages + [Page(i)];
      i := i + 1;
    }
    ghost var mid := pages;
    assert mid == first + PageRun(startPage, endPage);
    if endPage < totalPages {
      if endPage < totalPages - 1 {
        pages := pages + [Dots];
      }
      pages := pages + [Page(totalPages)];
    }
    assert pages == mid + Trailing(endPage, totalPages);
  }

  /** The controls split into the part before the window, the window and
      the part after it. */
  lemma PageNumbersParts(p: int, totalPages: int)
    returns (first: seq<PageItem>, mid: seq<PageItem>, last: seq<PageItem>)
    ensures PageNumbers(p, totalPages) == first + mid + last
    ensures mid == PageRun(WindowStart(p, totalPages), WindowEnd(p, totalPages))
    ensures forall k :: 0 <= k < |first| && first[k].Page? ==> first[k].n == 1
    ensures forall k :: 0 <= k < |last| && last[k].Page? ==> last[k].n == totalPages
    ensures first != [] ==> WindowStart(p, totalPages) > 1
    ensures last != [] ==> WindowEnd(p, totalPages) < totalPages
    ensures Increasing(first) && Increasing(last)
  {
    var start := WindowStart(p, totalPages);
    var end := WindowEnd(p, totalPages);
    first := Leading(start);
    mid := PageRun(start, end);
    last := Trailing(end, totalPages);
  }

  /** Page buttons appear in increasing order. */
  lemma PageNumbersIncreasing(p: int, totalPages: int)
    ensures Increasing(PageNumbers(p, totalPages))
  {
    WindowBounds(p, totalPages);
    var first, mid, last := PageNumbersParts(p, totalPages);
    IncreasingConcat(first, mid);
    var front := first + mid;
    forall i, j | 0 <= i < |front| && 0 <= j < |last| && front[i].Page? && last[j].Page?
      ensures front[i].n < last[j].n
    {
      if i >= |first| {
        assert front[i] == mid[i - |first|];
      } else {
        assert front[i] == first[i];
      }
    }
    IncreasingConcat(front, last);
  }

  /** Every button names a page in `[1, totalPages]`, and the current page,
      when it exists, has one. */
  lemma PageNumbersInRange(p: int, totalPages: int)
    ensures forall k :: 0 <= k < |PageNumbers(p, totalPages)| && PageNumbers(p, totalPages)[k].Page? ==>
      1 <= PageNumbers(p, totalPages)[k].n <= totalPages
    ensures 1 <= p <= totalPages ==> Page(p) in PageNumbers(p, totalPages)
  {
    PageNumbersWithinTotal(p, totalPages);
    if 1 <= p <= totalPages {
      PageNumbersShowCurrent(p, totalPages);
    }
  }

  lemma PageNumbersWithinTotal(p: int, totalPages: int)
    ensures forall k :: 0 <= k < |PageNumbers(p, totalPages)| && PageNumbers(p, totalPages)[k].Page? ==>
      1 <= PageNumbers(p, totalPages)[k].n <= totalPages
  {
    WindowBounds(p, totalPages);
    var first, mid, last := PageNumbersParts(p, totalPages);
    var front := first + mid;
    forall k | 0 <= k < |front| && front[k].Page?
      ensures 1 <= front[k].n <= totalPages
    {
      if k < |first| {
        assert front[k] == first[k];
      } else {
        assert front[k] == mid[k - |first|];
      }
    }
    forall k | 0 <= k < |front + last| && (front + last)[k].Page?
      ensures 1 <= (front + last)[k].n <= totalPages
    {
      if k < |front| {
        assert (front + last)[k] == front[k];
      } else {
        assert (front + last)[k] == last[k - |front|];
      }
    }
  }

  lemma PageNumbersShowCurrent(p: int, totalPages: int)
    requires 1 <= p <= totalPages
    ensures Page(p) in PageNumbers(p, totalPages)
  {
    WindowBounds(p, totalPages);
    var first, mid, last := PageNumbersParts(p, totalPages);
    var start := WindowStart(p, totalPages);
    assert mid[p - start] == Page(p);
    assert (first + mid + last)[|first| + p - start] == Page(p);
  }

  /** A leading gap appears exactly when the window starts past page 2, and a
      trailing gap exactly when it ends before the last page but one. */
  lemma PageNumbersGaps(p: int, totalPages: int)
    requires 1 <= p <= totalPages
    ensures var r := PageNumbers(p, totalPages);
      && ((|r| >= 2 && r[0] == Page(1) && r[1] == Dots) <==> WindowStart(p, totalPages) > 2)
      && ((|r| >= 2 && r[|r| - 2] == Dots && r[|r| - 1] == Page(totalPages)) <==> WindowEnd(p, totalPages) < totalPages - 1)
  {
    WindowBounds(p, totalPages);
    var start := WindowStart(p, totalPages);
    var end := WindowEnd(p, totalPages);
    var first := Leading(start);
    var mid := PageRun(start, end);
    var last := Trailing(end, totalPages);
    var r := first + mid + last;
    assert r == PageNumbers(p, totalPages);
    assert |mid| >= 1 && mid[0] == Page(start) && mid[|mid| - 1] == Page(end);
    if start <= 2 && |r| >= 2 {
      if start == 2 {
        assert r[1] == mid[0];
      } else {
        assert r[1] == (mid + last)[1];
      }
    }
    if end >= totalPages - 1 && |r| >= 2 {
      if end == totalPages - 1 {
        assert r[|r| - 2] == mid[|mid| - 1];
      } else {
        assert r[|r| - 2] == (first + mid)[|first + mid| - 2];
      }
    }
  }

  /** Pagination is shown when there is at least one page. */
  predicate ShowsPagination(totalPages: int) {
    totalPages > 0
  }

  /** Whenever the controls are shown, the first and the last page have a
      button, wherever the current page lies. */
  lemma ShownControlsReachEnds(p: int, totalPages: int)
    requires ShowsPagination(totalPages) && 1 <= p <= totalPages
    ensures Page(1) in PageNumbers(p, totalPages) && Page(totalPages) in PageNumbers(p, totalPages)
  {
    WindowBounds(p, totalPages);
    FirstPageShown(p, totalPages);
    LastPageShown(p, totalPages);
  }

  lemma FirstPageShown(p: int, totalPages: int)
    requires 1 <= WindowStart(p, totalPages) <= WindowEnd(p, totalPages)
    ensures Page(1) in PageNumbers(p, totalPages)
  {
    var start := WindowStart(p, totalPages);
    var first := Leading(start);
    var rest := PageRun(start, WindowEnd(p, totalPages)) + Trailing(WindowEnd(p, totalPages), totalPages);
    assert PageNumbers(p, totalPages) == first + rest;
    if start > 1 {
      assert first[0] == Page(1);
    } else {
      assert rest[0] == Page(1);
    }
  }

  lemma LastPageShown(p: int, totalPages: int)
    requires WindowStart(p, totalPages) <= WindowEnd(p, totalPages) <= totalPages
    ensures Page(totalPages) in PageNumbers(p, totalPages)
  {
    var end := WindowEnd(p, totalPages);
    var front := Leading(WindowStart(p, totalPages)) + PageRun(WindowStart(p, totalPages), end);
    var last := Trailing(end, totalPages);
    assert PageNumbers(p, totalPages) == front + last;
    if end < totalPages {
      assert last[|last| - 1] == Page(totalPages);
    } else {
      assert front[|front| - 1] == Page(totalPages);
    }
  }


  // ---------------------------------------------------------------------
  // Saving selected products under a category
  // ---------------------------------------------------------------------

  /** A listed product: an image-search hit (truthy `num_iid`, raw marketplace
      field names) or a stored product (`productId`, `imageUrl`, ...). */
  datatype Product =
    | SearchHit(numIid: string, title: string, price: string, picUrl: string, sellerNick: string,
                shopIdRaw: string, detailUrlRaw: string, images: seq<string>, colors: seq<string>, sizes: seq<string>)
    | Stored(productId: string, title: string, price: string, imageUrl: string, seller: string,
             shopId: string, detailUrl: string, images: seq<string>, colors: seq<string>, sizes: seq<string>)

  /** `product.num_iid || product.productId` */
  function Key(p: Product): ProductId {
    if p.SearchHit? then p.numIid else p.productId
  }

  /** A product as posted to `/api/admin/save-products`: in stored shape,
      tagged with a category and subcategory. */
  datatype SaveRecord = SaveRecord(product: Product, category: string, subcategory: string)

  /** The `map` step: search hits are renamed into the stored shape. */
  function Renamed(p: Product, category: string, subcategory: string): (r: SaveRecord)
    ensures r.product.Stored? && r.product.productId == Key(p)
    ensures r.category == category && r.subcategory == subcategory
    ensures p.Stored? ==> r.product == p
    ensures p.SearchHit? ==>
      r.product.imageUrl == p.picUrl && r.product.seller == p.sellerNick
      && r.product.shopId == p.shopIdRaw && r.product.detailUrl == p.detailUrlRaw
      && r.product.title == p.title && r.product.price == p.price && r.product.images == p.images
      && r.product.colors == p.colors && r.product.sizes == p.sizes
  {
    match p
    case SearchHit(id, title, price, pic, seller, shop, detail, images, colors, sizes) =>
      SaveRecord(Stored(id, title, price, pic, seller, shop, detail, images, colors, sizes), category, subcategory)
    case Stored(_, _, _, _, _, _, _, _, _, _) =>
      SaveRecord(p, category, subcategory)
  }

  /** `products.filter(selected).map(rename)` in `handleFinalSave`. */
  function SaveRecords(products: seq<Product>, selected: set<ProductId>, category: string, subcategory: string)
    : (r: seq<SaveRecord>)
    ensures |r| <= |products|
  {
    if products == [] then []
    else
      var head := if Key(products[0]) in selected then [Renamed(products[0], category, subcategory)] else [];
      head + SaveRecords(products[1..], selected, category, subcategory)
  }

  /** Exactly the selected products are posted, each renamed and tagged with
      the chosen category and subcategory. */
  lemma {:induction false} SaveRecordsExact(products: seq<Product>, selected: set<ProductId>, category: string, subcategory: string)
    ensures forall rec :: rec in SaveRecords(products, selected, category, subcategory) ==>
      rec.product.Stored? && rec.product.productId in selected && rec.category == category && rec.subcategory == subcategory
      && exists p :: p in products && rec == Renamed(p, category, subcategory)
    ensures forall p :: p in products && Key(p) in selected ==>
      Renamed(p, category, subcategory) in SaveRecords(products, selected, category, subcategory)
  {
    if products != [] {
      SaveRecordsExact(products[1..], selected, category, subcategory);
      var r := SaveRecords(products, selected, category, subcategory);
      forall rec | rec in r
        ensures exists p :: p in products && rec == Renamed(p, category, subcategory)
      {
        if rec !in SaveRecords(products[1..], selected, category, subcategory) {
          assert rec == Renamed(products[0], category, subcategory);
        } else {
          var p :| p in products[1..] && rec == Renamed(p, category, subcategory);
          assert p in products;
        }
      }
      forall p | p in products && Key(p) in selected
        ensures Renamed(p, category, subcategory) in r
      {
        if p != products[0] {
          assert p in products[1..];
        }
      }
    }
  }

  /** The posted records keep the listing's order. */
  lemma {:induction false} SaveRecordsConcat(a: seq<Product>, b: seq<Product>, selected: set<ProductId>, category: string, subcategory: string)
    ensures SaveRecords(a + b, selected, category, subcategory)
      == SaveRecords(a, selected, category, subcategory) + SaveRecords(b, selected, category, subcategory)
  {
    if a == [] {
      assert a + b == b;
    } else {
      var head := if Key(a[0]) in selected then [Renamed(a[0], category, subcategory)] else [];
      calc {
        SaveRecords(a + b, selected, category, subcategory);
        { assert (a + b)[0] == a[0] && (a + b)[1..] == a[1..] + b; }
        head + SaveRecords(a[1..] + b, selected, category, subcategory);
        { SaveRecordsConcat(a[1..], b, selected, category, subcategory); }
        head + (SaveRecords(a[1..], selected, category, subcategory) + SaveRecords(b, selected, category, subcategory));
        SaveRecords(a, selected, category, subcategory) + SaveRecords(b, selected, category, subcategory);
      }
    }
  }

  // ---------------------------------------------------------------------
  // The page
  // ---------------------------------------------------------------------

  /** What the page shows or sends: `alert` texts and the save request. */
  datatype AdminEvent = Alert(text: string) | SaveProducts(records: seq<SaveRecord>)

  /** How the save request ended: a 2xx status, or a thrown error with its
      message. The HTTP client rejects every 4xx and 5xx reply, so those
      arrive as `Failed`. */
  datatype SaveReply = Status(code: int) | Failed(reason: string)

  /** What the save handlers may change: the selection, the category dialog
      and its two choices, the image-search flag, and what was sent or shown. */
  datatype SaveState = SaveState(
    selected: set<ProductId>, dialogOpen: bool, category: string, subcategory: string,
    searchByImage: bool, log: seq<AdminEvent>)

  /** `handleFinalSave` after posting `records`: a 200 reply clears the
      selection, closes the dialog, forgets its choices and the image-search
      flag, and confirms; a thrown error alerts its message; any other status
      leaves everything but the request as it was. */
  function AfterFinalSave(st: SaveState, records: seq<SaveRecord>, reply: SaveReply): (r: SaveState)
    ensures |r.log| > |st.log| && r.log[..|st.log| + 1] == st.log + [SaveProducts(records)]
    ensures r.selected == {} <==> reply == Status(200) || st.selected == {}
    ensures reply == Status(200) ==>
      r == SaveState({}, false, "", "", false, st.log + [SaveProducts(records), Alert("Products saved successfully!")])
    ensures reply != Status(200) ==> r.(log := st.log) == st
    ensures reply.Failed? ==> r.log == st.log + [SaveProducts(records), Alert("Failed to save products: " + reply.reason)]
    ensures reply.Status? && reply.code != 200 ==> r.log == st.log + [SaveProducts(records)]
  {
    var sent := st.log + [SaveProducts(records)];
    match reply
    case Status(code) =>
      if code == 200 then SaveState({}, false, "", "", false, sent + [Alert("Products saved successfully!")])
      else st.(log := sent)
    case Failed(reason) => st.(log := sent + [Alert("Failed to save products: " + reason)])
  }

  class ProductSearch {
    var currentPage: int
    var selectedProducts: set<ProductId>
    var selectedSubCategories: set<string>
    var isSearchResults: bool
    var searchByImage: bool
    var showCategoryDialog: bool
    var categoryForSave: string
    var subCategoryForSave: string
    var log: seq<AdminEvent>

    /** At most one subcategory filters the listing. */
    ghost predicate Valid()
      reads this
    {
      |selectedSubCategories| <= 1
    }

    /** A set of at most one element holding `x` is `{x}`. */
    static lemma OnlyElement(s: set<string>, x: string)
      requires |s| <= 1 && x in s
      ensures s == {x}
    {
      assert |s - {x}| == |s| - 1;
    }

    /** The part of the page the save handlers change. */
    ghost function State(): SaveState
      reads this
    {
      SaveState(selectedProducts, showCategoryDialog, categoryForSave, subCategoryForSave, searchByImage, log)
    }

    constructor()
      ensures Valid()
      ensures currentPage == 1 && selectedProducts == {} && selectedSubCategories == {}
      ensures !isSearchResults && !searchByImage && !showCategoryDialog
      ensures categoryForSave == "" && subCategoryForSave == "" && log == []
    {
      currentPage := 1;
      selectedProducts := {};
      selectedSubCategories := {};
      isSearchResults := false;
      searchByImage := false;
      showCategoryDialog := false;
      categoryForSave := "";
      subCategoryForSave := "";
      log := [];
    }

    /** `toggleSubCategory` */
    method ToggleSubCategory(name: string)
      requires Valid()
      modifies this`selectedSubCategories, this`currentPage
      ensures Valid()
      ensures selectedSubCategories == SubCategoryToggled(old(selectedSubCategories), name) && currentPage == 1
    {
      selectedSubCategories := SubCategoryToggled(selectedSubCategories, name);
      currentPage := 1;
    }

    /** `toggleProductSelection` */
    method ToggleProductSelection(id: ProductId)
      modifies this`selectedProducts
      ensures selectedProducts == Toggled(old(selectedProducts), id)
    {
      selectedProducts := Toggled(selectedProducts, id);
    }

    /** The Select All / Deselect All button over the listed products. */
    method SelectAll(products: seq<Product>)
      modifies this`selectedProducts
      ensures selectedProducts == SelectAllToggled(old(selectedProducts), set p | p in products :: Key(p))
    {
      selectedProducts := SelectAllToggled(selectedProducts, set p | p in products :: Key(p));
    }

    /** The previous-page arrow. */
    method Previous()
      modifies this`currentPage
      ensures currentPage == PrevPage(old(currentPage))
    {
      currentPage := PrevPage(currentPage);
    }

    /** The next-page arrow. */
    method Next(totalPages: int)
      modifies this`currentPage
      ensures currentPage == NextPage(old(currentPage), totalPages)
    {
      currentPage := NextPage(currentPage, totalPages);
    }

    /** `handleFinalSave`: post the selected products under the category;
        on 200 reset the selection and the dialog and confirm. */
    method HandleFinalSave(products: seq<Product>, category: string, subcategory: string, reply: SaveReply)
      requires Valid()
      modifies this`selectedProducts, this`showCategoryDialog, this`categoryForSave,
               this`subCategoryForSave, this`searchByImage, this`log
      ensures Valid()
      ensures State() == AfterFinalSave(old(State()), SaveRecords(products, old(selectedProducts), category, subcategory), reply)
    {
      log := log + [SaveProducts(SaveRecords(products, selectedProducts, category, subcategory))];
      match reply {
        case Status(code) =>
          if code == 200 {
            selectedProducts := {};
            showCategoryDialog := false;
            categoryForSave := "";
            subCategoryForSave := "";
            searchByImage := false;
            log := log + [Alert("Products saved successfully!")];
          }
        case Failed(reason) =>
          log := log + [Alert("Failed to save products: " + reason)];
      }
    }

    /** `handleSaveClick`: nothing without a selection; search results go
        through the category dialog; a subcategory filter saves under the
        first category listing it, or alerts when there is none. */
    method HandleSaveClick(products: seq<Product>, categories: seq<Category>, reply: SaveReply)
      requires Valid()
      modifies this`selectedProducts, this`showCategoryDialog, this`categoryForSave,
               this`subCategoryForSave, this`searchByImage, this`log
      ensures Valid()
      ensures old(selectedProducts) == {} ==> State() == old(State())
      ensures old(selectedProducts) != {} && (isSearchResults || old(searchByImage)) ==>
        State() == old(State()).(dialogOpen := true)
      ensures old(selectedProducts) != {} && !(isSearchResults || old(searchByImage)) && selectedSubCategories == {} ==>
        State() == old(State()).(log := old(log) + [Alert("Please select a category before saving products")])
      ensures forall sub ::
        (old(selectedProducts) != {} && !(isSearchResults || old(searchByImage)) && selectedSubCategories == {sub}) ==>
        match FirstContaining(categories, sub)
        case None => State() == old(State()).(log := old(log) + [Alert("Please select a valid category")])
        case Some(k) =>
          if categories[k].name == "" then State() == old(State()).(log := old(log) + [Alert("Please select a valid category")])
          else State() == AfterFinalSave(old(State()), SaveRecords(products, old(selectedProducts), categories[k].name, sub), reply)
    {
      if selectedProducts == {} {
        return;
      }
      if isSearchResults || searchByImage {
        showCategoryDialog := true;
      } else if selectedSubCategories != {} {
        var sub :| sub in selectedSubCategories;
        OnlyElement(selectedSubCategories, sub);
        var found := FirstContaining(categories, sub);
        if found.None? || categories[found.value].name == "" {
          log := log + [Alert("Please select a valid category")];
          return;
        }
        HandleFinalSave(products, categories[found.value].name, sub, reply);
      } else {
        log := log + [Alert("Please select a category before saving products")];
      }
    }

    /** The dialog's Save button: both a category and a subcategory must be chosen. */
    method DialogSave(products: seq<Product>, reply: SaveReply)
      requires Valid()
      modifies this`selectedProducts, this`showCategoryDialog, this`categoryForSave,
               this`subCategoryForSave, this`searchByImage, this`log
      ensures Valid()
      ensures old(categoryForSave) == "" || old(subCategoryForSave) == "" ==>
        State() == old(State()).(log := old(log) + [Alert("Please select both category and subcategory")])
      ensures old(categoryForSave) != "" && old(subCategoryForSave) != "" ==>
        State() == AfterFinalSave(old(State()),
          SaveRecords(products, old(selectedProducts), old(categoryForSave), old(subCategoryForSave)), reply)
    {
      if categoryForSave == "" || subCategoryForSave == "" {
        log := log + [Alert("Please select both category and subcategory")];
        return;
      }
      HandleFinalSave(products, categoryForSave, subCategoryForSave, reply);
    }
  }
}
