/** The client's routing: a route string such as `"resources"`,
    `"services#sound"` or `"shop/need/gut"` sets the current view and the
    shop sub-route, and the pair is then resolved to the page to show. */
module ViewRouter {
  import opened Text

  /** The shop sub-route: `kind` is "", "landing", "listing", "product" or "cart". */
  datatype ShopRoute = ShopRoute(kind: string, params: map<string, string>)

  const NoShopRoute: ShopRoute := ShopRoute("", map[])

  datatype ViewState = ViewState(currentView: string, shopRoute: ShopRoute)

  const InitialViewState: ViewState := ViewState("home", NoShopRoute)

  /** The shop sub-route for the pieces after "shop/"; unrecognised pieces keep `current`. */
  function ShopRouteFor(pathParts: seq<string>, params: map<string, string>, current: ShopRoute)
    : ShopRoute
  {
    if |pathParts| == 0 then ShopRoute("landing", map[])
    else if pathParts[0] == "all" then ShopRoute("listing", map["category" := "all"] + params)
    else if pathParts[0] == "need" && |pathParts| > 1 && pathParts[1] != "" then
      ShopRoute("listing", map["need" := pathParts[1]] + params)
    else if pathParts[0] == "product" && |pathParts| > 1 && pathParts[1] != "" then
      ShopRoute("product", map["handle" := pathParts[1]])
    else if pathParts[0] == "cart" then ShopRoute("cart", map[])
    else current
  }

  /** The view and shop route after `handleViewChange(view, params)`. */
  function Navigate(s: ViewState, view: string, params: map<string, string>): (r: ViewState)
    ensures "services#" <= view ==> r == ViewState("services", NoShopRoute)
    ensures !("services#" <= view) && !("shop/" <= view) ==> r == ViewState(view, NoShopRoute)
    ensures !("services#" <= view) && "shop/" <= view ==> r.currentView == "shop"
  {
    if "services#" <= view then ViewState("services", NoShopRoute)
    else if "shop/" <= view then
      ViewState("shop", ShopRouteFor(Split(view, '/')[1..], params, s.shopRoute))
    else ViewState(view, NoShopRoute)
  }

  /** The pieces after "shop/" are the pieces of the rest of the route. */
  lemma ShopPathParts(rest: string)
    ensures Split("shop/" + rest, '/')[1..] == Split(rest, '/')
  {
    assert "shop/" + rest == "shop" + ['/'] + rest;
    SplitAfterHead("shop", '/', rest);
  }

  /** A route "shop/<rest>" routes the shop by the pieces of `rest`. */
  lemma NavigateShop(s: ViewState, rest: string, params: map<string, string>)
    ensures Navigate(s, "shop/" + rest, params)
         == ViewState("shop", ShopRouteFor(Split(rest, '/'), params, s.shopRoute))
  {
    assert "shop/" <= "shop/" + rest;
    assert !("services#" <= "shop/" + rest) by {
      assert ("shop/" + rest)[1] != "services#"[1];
    }
    ShopPathParts(rest);
  }

  /** A route starting with "shop/" always has a piece after "shop", so the
      landing branch of the shop routing is never taken. */
  lemma ShopPathNeverEmpty(view: string)
    requires "shop/" <= view
    ensures |Split(view, '/')[1..]| >= 1
  {
    assert view == "shop/" + view[5..];
    ShopPathParts(view[5..]);
  }

  /** Navigation never produces the "landing" route: the shop landing page is
      reached only through the default of the shop switch. */
  lemma NavigateNeverLanding(s: ViewState, view: string, params: map<string, string>)
    requires s.shopRoute.kind != "landing"
    ensures Navigate(s, view, params).shopRoute.kind != "landing"
  {
    if !("services#" <= view) && "shop/" <= view {
      ShopPathNeverEmpty(view);
    }
  }

  /** "shop/all": the full listing, with the given params overriding the category. */
  lemma NavigateShopAll(s: ViewState, params: map<string, string>)
    ensures Navigate(s, "shop/all", params)
         == ViewState("shop", ShopRoute("listing", map["category" := "all"] + params))
    ensures var f := Navigate(s, "shop/all", params).shopRoute.params;
      "category" in f && f["category"] == (if "category" in params then params["category"] else "all")
  {
    assert "shop/all" == "shop/" + "all";
    ShopPathParts("all");
    SplitWithoutSeparator("all", '/');
  }

  /** "shop/need/<n>": the listing filtered by need `n`. */
  lemma NavigateShopNeed(s: ViewState, need: string, params: map<string, string>)
    requires need != "" && '/' !in need
    ensures Navigate(s, "shop/need/" + need, params)
         == ViewState("shop", ShopRoute("listing", map["need" := need] + params))
  {
    assert "shop/need/" + need == "shop/" + ("need" + ['/'] + need);
    ShopPathParts("need" + ['/'] + need);
    SplitAfterHead("need", '/', need);
    SplitWithoutSeparator(need, '/');
  }

  /** "shop/product/<h>": the product page for handle `h`; the params are dropped. */
  lemma NavigateShopProduct(s: ViewState, handle: string, params: map<string, string>)
    requires handle != "" && '/' !in handle
    ensures Navigate(s, "shop/product/" + handle, params)
         == ViewState("shop", ShopRoute("product", map["handle" := handle]))
  {
    assert "shop/product/" + handle == "shop/" + ("product" + ['/'] + handle);
    ShopPathParts("product" + ['/'] + handle);
    SplitAfterHead("product", '/', handle);
    SplitWithoutSeparator(handle, '/');
  }

  /** "shop/cart": the cart page. */
  lemma NavigateShopCart(s: ViewState, params: map<string, string>)
    ensures Navigate(s, "shop/cart", params) == ViewState("shop", ShopRoute("cart", map[]))
  {
    assert Split("cart", '/') == ["cart"] by {
      SplitWithoutSeparator("cart", '/');
    }
    assert ShopRouteFor(["cart"], params, s.shopRoute) == ShopRoute("cart", map[]) by {
      assert "cart"[0] != "all"[0] && "cart"[0] != "need"[0] && "cart"[0] != "product"[0];
    }
    assert "shop/cart" == "shop/" + "cart";
    NavigateShop(s, "cart", params);
  }

  /** Any other first segment after "shop/" (the empty one of "shop/" included,
      and "ingredient" as the landing page emits it) switches to the shop view
      and leaves the shop route as it was. */
  lemma NavigateShopUnknown(s: ViewState, segment: string, tail: string, params: map<string, string>)
    requires '/' !in segment && segment !in {"all", "need", "product", "cart"}
    requires tail == "" || tail[0] == '/'
    ensures Navigate(s, "shop/" + segment + tail, params) == ViewState("shop", s.shopRoute)
  {
    FirstPiece(segment, tail);
    assert "shop/" + segment + tail == "shop/" + (segment + tail);
    ShopPathParts(segment + tail);
  }

  /** "shop/need" and "shop/product" without an argument also keep the shop route. */
  lemma NavigateShopMissingArgument(s: ViewState, segment: string, params: map<string, string>)
    requires segment == "need" || segment == "product"
    ensures Navigate(s, "shop/" + segment, params) == ViewState("shop", s.shopRoute)
    ensures Navigate(s, "shop/" + segment + "/", params) == ViewState("shop", s.shopRoute)
  {
    assert segment != "all" && segment != "cart" by {
      assert segment[0] != "all"[0] && segment[0] != "cart"[0];
    }
    assert Split(segment, '/') == [segment] by {
      SplitWithoutSeparator(segment, '/');
    }
    assert Split(segment + ['/'] + "", '/') == [segment, ""] by {
      SplitAfterHead(segment, '/', "");
    }
    assert ShopRouteFor([segment], params, s.shopRoute) == s.shopRoute;
    assert ShopRouteFor([segment, ""], params, s.shopRoute) == s.shopRoute;
    NavigateShop(s, segment, params);
    assert "shop/" + segment + "/" == "shop/" + (segment + ['/'] + "");
    NavigateShop(s, segment + ['/'] + "", params);
  }

  lemma FirstPiece(segment: string, tail: string)
    requires '/' !in segment
    requires tail == "" || tail[0] == '/'
    ensures Split(segment + tail, '/')[0] == segment
  {
    if tail == "" {
      assert segment + tail == segment;
      SplitWithoutSeparator(segment, '/');
    } else {
      assert segment + tail == segment + ['/'] + tail[1..];
      SplitAfterHead(segment, '/', tail[1..]);
    }
  }

  /** Repeating a navigation changes nothing more. */
  lemma NavigateIdempotent(s: ViewState, view: string, params: map<string, string>)
    ensures Navigate(Navigate(s, view, params), view, params) == Navigate(s, view, params)
  {
  }

  // ----- resolution -----------------------------------------------------

  datatype ShopPage = ShopLandingPage | ListingPage(filters: map<string, string>)
                    | ProductPage(handle: string) | CartPage

  datatype Page =
    | Shop(shop: ShopPage) | CheckoutPage | ShopAccountPage | UserDashboardPage
    | HealerDashboardPage | HealerRegistrationPage | ResourcesPage | CommunityPage
    | ServicesPage | ContactPage | FaqsPage | HomePage

  const KnownViews: set<string> := {"shop", "checkout", "shop-account", "user-dashboard",
    "healer-dashboard", "healer-registration", "resources", "community", "services",
    "contact", "faqs"}

  const KnownShopRoutes: set<string> := {"landing", "listing", "product", "cart"}

  /** `renderShopView`: the shop page for a route. */
  function ResolveShop(route: ShopRoute): (p: ShopPage)
    ensures route.kind !in KnownShopRoutes ==> p == ShopLandingPage
    ensures p == ShopLandingPage <==> route.kind !in KnownShopRoutes - {"landing"}
    ensures p.ProductPage? ==> p.handle == (if "handle" in route.params then route.params["handle"] else "")
  {
    match route.kind
    case "listing" => ListingPage(route.params)
    case "product" => ProductPage(if "handle" in route.params then route.params["handle"] else "")
    case "cart" => CartPage
    case _ => ShopLandingPage
  }

  /** `renderCurrentView`: the page for the current view. */
  function Resolve(s: ViewState): (p: Page)
    ensures s.currentView !in KnownViews ==> p == HomePage
    ensures p.Shop? <==> s.currentView == "shop"
  {
    match s.currentView
    case "shop" => Shop(ResolveShop(s.shopRoute))
    case "checkout" => CheckoutPage
    case "shop-account" => ShopAccountPage
    case "user-dashboard" => UserDashboardPage
    case "healer-dashboard" => HealerDashboardPage
    case "healer-registration" => HealerRegistrationPage
    case "resources" => ResourcesPage
    case "community" => CommunityPage
    case "services" => ServicesPage
    case "contact" => ContactPage
    case "faqs" => FaqsPage
    case _ => HomePage
  }

  /** Every "services#…" route shows the services page. */
  lemma ServicesHashShowsServices(s: ViewState, category: string, params: map<string, string>)
    ensures Resolve(Navigate(s, "services#" + category, params)) == ServicesPage
  {
    assert "services#" <= "services#" + category;
  }

  /** "shop/product/<h>" shows the product page of `h`. */
  lemma ProductRouteShowsProduct(s: ViewState, handle: string, params: map<string, string>)
    requires handle != "" && '/' !in handle
    ensures Resolve(Navigate(s, "shop/product/" + handle, params)) == Shop(ProductPage(handle))
  {
    NavigateShopProduct(s, handle, params);
  }

  /** "shop/need/<n>" shows the listing with the need among its filters. */
  lemma NeedRouteShowsListing(s: ViewState, need: string, params: map<string, string>)
    requires need != "" && '/' !in need && "need" !in params
    ensures var p := Resolve(Navigate(s, "shop/need/" + need, params));
      p.Shop? && p.shop.ListingPage? && "need" in p.shop.filters && p.shop.filters["need"] == need
  {
    NavigateShopNeed(s, need, params);
  }

  /** From the initial state, an unknown shop segment shows the shop landing page. */
  lemma UnknownSegmentShowsLanding(segment: string, tail: string, params: map<string, string>)
    requires '/' !in segment && segment !in {"all", "need", "product", "cart"}
    requires tail == "" || tail[0] == '/'
    ensures Resolve(Navigate(InitialViewState, "shop/" + segment + tail, params)) == Shop(ShopLandingPage)
  {
    NavigateShopUnknown(InitialViewState, segment, tail, params);
  }
}
