/** The home page: the modals it opens, the product links it follows, and the
    category, search and price choices it hands to the product grid. */
module HomePage {
  import opened Wrappers
  import opened Text
  import opened Plans

  /** The route of a product's page: `/product/${productId}`. */
  function ProductPath(productId: string): (r: string)
    ensures StartsWith(r, "/product/") && r[|"/product/"|..] == productId
  {
    "/product/" + productId
  }

  /** Different products lead to different pages. */
  lemma ProductPathInjective(a: string, b: string)
    requires ProductPath(a) == ProductPath(b)
    ensures a == b
  {
    assert a == ProductPath(a)[|"/product/"|..];
  }

  /** A navigation: the route and the id of the product carried in its state. */
  datatype Navigation = Navigation(path: string, productId: string)

  class Home {
    var loginOpen: bool
    var subscriptionOpen: bool
    var imageSearchOpen: bool
    var selectedCategory: string
    var selectedSubCategory: string
    var searchTerm: string
    /** The term the product grid filters by. */
    var debouncedSearchTerm: string
    var priceRange: (Option<real>, Option<real>)
    var navigations: seq<Navigation>

    constructor()
      ensures !loginOpen && !subscriptionOpen && !imageSearchOpen
      ensures selectedCategory == "All" && selectedSubCategory == "All"
      ensures searchTerm == "" && debouncedSearchTerm == ""
      ensures priceRange == (None, None) && navigations == []
    {
      loginOpen := false;
      subscriptionOpen := false;
      imageSearchOpen := false;
      selectedCategory := "All";
      selectedSubCategory := "All";
      searchTerm := "";
      debouncedSearchTerm := "";
      priceRange := (None, None);
      navigations := [];
    }

    /** `handleProductClick`: a visitor is asked to log in; a user is taken to
        the product's page. */
    method HandleProductClick(user: Option<User>, productId: string)
      modifies this`loginOpen, this`navigations
      ensures user.None? ==> loginOpen && navigations == old(navigations)
      ensures user.Some? ==>
        loginOpen == old(loginOpen) && navigations == old(navigations) + [Navigation(ProductPath(productId), productId)]
    {
      if user.None? {
        loginOpen := true;
      } else {
        navigations := navigations + [Navigation(ProductPath(productId), productId)];
      }
    }

    /** `handleImageSearchClick`: the same gate as the modal's own button,
        opening the login, subscription or image-search modal. */
    method HandleImageSearchClick(user: Option<User>)
      modifies this`loginOpen, this`subscriptionOpen, this`imageSearchOpen
      ensures var gate := ImageSearchGateOf(user);
        && loginOpen == (old(loginOpen) || gate == NeedsLogin)
        && subscriptionOpen == (old(subscriptionOpen) || gate == NeedsUpgrade)
        && imageSearchOpen == (old(imageSearchOpen) || gate == MayPick)
    {
      match ImageSearchGateOf(user) {
        case NeedsLogin => loginOpen := true;
        case NeedsUpgrade => subscriptionOpen := true;
        case MayPick => imageSearchOpen := true;
      }
    }

    /** `handleCategorySelect`: a new category shows all its subcategories. */
    method HandleCategorySelect(category: string)
      modifies this`selectedCategory, this`selectedSubCategory
      ensures selectedCategory == category && selectedSubCategory == "All"
    {
      selectedCategory := category;
      selectedSubCategory := "All";
    }

    /** The navigation bar's `onSubCategorySelect`. */
    method HandleSubCategorySelect(subcategory: string)
      modifies this`selectedSubCategory
      ensures selectedSubCategory == subcategory
    {
      selectedSubCategory := subcategory;
    }

    /** `handleSearchChange`: typing changes the term; the grid follows once
        the typing pauses, which is not part of this model. */
    method HandleSearchChange(text: string)
      modifies this`searchTerm
      ensures searchTerm == text
    {
      searchTerm := text;
    }

    /** `handleSearch`: Enter (like the search button) hands the term to the
        grid at once. */
    method HandleSearch(key: string)
      modifies this`debouncedSearchTerm
      ensures debouncedSearchTerm == (if key == "Enter" then searchTerm else old(debouncedSearchTerm))
    {
      if key == "Enter" {
        debouncedSearchTerm := searchTerm;
      }
    }

    /** `handlePriceChange`: the range the price filter sends. */
    method HandlePriceChange(min: Option<real>, max: Option<real>)
      modifies this`priceRange
      ensures priceRange == (min, max)
    {
      priceRange := (min, max);
    }
  }

  /** A subscriber on a paid plan always gets the image-search modal. */
  lemma PaidUsersMaySearch(user: Option<User>)
    requires user.Some? && IsPaidPlan(user.value.subscription)
    ensures ImageSearchGateOf(user) == MayPick
  {
  }
}
