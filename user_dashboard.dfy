/** The subscriber's dashboard: who may see it, the data it loads, and the
    removal of a saved product. */
module UserDashboard {
  import opened Wrappers
  import opened Plans

  /** A saved product as listed on the dashboard. */
  datatype SavedProduct = SavedProduct(productId: string, title: string, imageUrl: string)

  /** What the page's effect does for the signed-in user. */
  datatype Access = RedirectTo(path: string) | Fetch(email: string)

  /** The effect: visitors go to the login page, users without a paid plan
      to the home page, subscribers get their data loaded. */
  function DashboardAccess(user: Option<User>): (r: Access)
    ensures r.Fetch? <==> user.Some? && IsPaidPlan(user.value.subscription)
    ensures r.Fetch? ==> r.email == user.value.email
    ensures user.None? ==> r == RedirectTo("/login")
    ensures user.Some? && !IsPaidPlan(user.value.subscription) ==> r == RedirectTo("/")
  {
    if user.None? then RedirectTo("/login")
    else if !IsPaidPlan(user.value.subscription) then RedirectTo("/")
    else Fetch(user.value.email)
  }

  /** Whoever the dashboard loads data for is never stopped by the image-search gate. */
  lemma DashboardUsersMaySearch(user: Option<User>)
    requires DashboardAccess(user).Fetch?
    ensures ImageSearchGateOf(user) == MayPick
  {
  }

  /** `products.filter(p => p.productId !== productId)` */
  function Without(products: seq<SavedProduct>, productId: string): (r: seq<SavedProduct>)
    ensures |r| <= |products|
    ensures forall p :: p in r <==> p in products && p.productId != productId
  {
    if products == [] then []
    else if products[0].productId == productId then Without(products[1..], productId)
    else [products[0]] + Without(products[1..], productId)
  }

  /** Filtering a concatenation filters each part and keeps them in order:
      together with the one-element case below this pins the result down. */
  lemma {:induction false} WithoutConcat(a: seq<SavedProduct>, b: seq<SavedProduct>, productId: string)
    ensures Without(a + b, productId) == Without(a, productId) + Without(b, productId)
  {
    if a == [] {
      assert a + b == b;
    } else {
      assert (a + b)[1..] == a[1..] + b;
      assert (a + b)[0] == a[0];
      WithoutConcat(a[1..], b, productId);
    }
  }

  /** A single product is dropped exactly when it has the removed id. */
  lemma WithoutOne(p: SavedProduct, productId: string)
    ensures Without([p], productId) == if p.productId == productId then [] else [p]
  {
    assert [p][1..] == [];
  }

  /** Removing twice is removing once. */
  lemma {:induction false} WithoutIdempotent(products: seq<SavedProduct>, productId: string)
    ensures Without(Without(products, productId), productId) == Without(products, productId)
  {
    if products != [] {
      WithoutIdempotent(products[1..], productId);
      if products[0].productId != productId {
        var rest := Without(products[1..], productId);
        assert ([products[0]] + rest)[1..] == rest;
      }
    }
  }

  /** Nothing is removed when no product has the id. */
  lemma {:induction false} WithoutAbsent(products: seq<SavedProduct>, productId: string)
    requires forall i :: 0 <= i < |products| ==> products[i].productId != productId
    ensures Without(products, productId) == products
  {
    if products != [] {
      WithoutAbsent(products[1..], productId);
      assert [products[0]] + products[1..] == products;
    }
  }

  /** What the page asks of the server. */
  datatype DashboardRequest =
    | GetApiKey(email: string)
    | GetSavedProducts(email: string)
    | DeleteSavedProduct(productId: string, email: string)

  /** The replies to the two requests `fetchDashboardData` sends together. */
  datatype FetchReply = Loaded(apiKey: string, products: seq<SavedProduct>) | FetchFailed

  class Dashboard {
    var apiKey: string
    var savedProducts: seq<SavedProduct>
    var loading: bool
    var navigations: seq<string>
    var requests: seq<DashboardRequest>

    constructor()
      ensures apiKey == "" && savedProducts == [] && loading
      ensures navigations == [] && requests == []
    {
      apiKey := "";
      savedProducts := [];
      loading := true;
      navigations := [];
      requests := [];
    }

    /** `fetchDashboardData`: nothing without a user; otherwise ask for the
        key and the saved products, keep what arrives, and stop loading. */
    method FetchDashboardData(user: Option<User>, reply: FetchReply)
      modifies this`apiKey, this`savedProducts, this`loading, this`requests
      ensures user.None? ==>
        apiKey == old(apiKey) && savedProducts == old(savedProducts)
        && loading == old(loading) && requests == old(requests)
      ensures user.Some? ==>
        && !loading
        && requests == old(requests) + [GetApiKey(user.value.email), GetSavedProducts(user.value.email)]
        && (reply.Loaded? ==> apiKey == reply.apiKey && savedProducts == reply.products)
        && (reply.FetchFailed? ==> apiKey == old(apiKey) && savedProducts == old(savedProducts))
    {
      if user.None? {
        return;
      }
      loading := true;
      requests := requests + [GetApiKey(user.value.email), GetSavedProducts(user.value.email)];
      if reply.Loaded? {
        apiKey := reply.apiKey;
        savedProducts := reply.products;
      }
      loading := false;
    }

    /** The page's effect: redirect, or load the subscriber's data. */
    method Effect(user: Option<User>, reply: FetchReply)
      modifies this`apiKey, this`savedProducts, this`loading, this`requests, this`navigations
      ensures DashboardAccess(user).RedirectTo? ==>
        && navigations == old(navigations) + [DashboardAccess(user).path]
        && requests == old(requests) && savedProducts == old(savedProducts) && apiKey == old(apiKey)
        && loading == old(loading)
      ensures DashboardAccess(user).Fetch? ==>
        && navigations == old(navigations) && !loading
        && requests == old(requests) + [GetApiKey(user.value.email), GetSavedProducts(user.value.email)]
        && (reply.Loaded? ==> apiKey == reply.apiKey && savedProducts == reply.products)
        && (reply.FetchFailed? ==> apiKey == old(apiKey) && savedProducts == old(savedProducts))
    {
      if user.None? {
        navigations := navigations + ["/login"];
        return;
      }
      if !IsPaidPlan(user.value.subscription) {
        navigations := navigations + ["/"];
        return;
      }
      FetchDashboardData(user, reply);
    }

    /** `removeSavedProduct`: ask the server to delete; only when it agrees
        are the products with that id dropped from the list. Without a user,
        reading `user.email` throws before the request and the error is
        swallowed. */
    method RemoveSavedProduct(user: Option<User>, productId: string, deleted: bool)
      modifies this`savedProducts, this`requests
      ensures user.None? ==> savedProducts == old(savedProducts) && requests == old(requests)
      ensures user.Some? ==>
        && requests == old(requests) + [DeleteSavedProduct(productId, user.value.email)]
        && savedProducts == (if deleted then Without(old(savedProducts), productId) else old(savedProducts))
    {
      if user.None? {
        return;
      }
      requests := requests + [DeleteSavedProduct(productId, user.value.email)];
      if deleted {
        savedProducts := Without(savedProducts, productId);
      }
    }
  }
}
