/** The shop's listing page: the route filters, the side-panel filters and the
    search narrow the products step by step, then the chosen order sorts the
    result in place. */
module ProductListing {
  import opened Wrappers
  import opened Text
  import opened Lists

  datatype ListedProduct = ListedProduct(
    id: string, name: string, price: int, category: string, need: string, description: string)

  /** A route filter; an absent key reads as the falsy "". */
  function Param(filters: map<string, string>, key: string): string {
    if key in filters then filters[key] else ""
  }

  /** The price inputs: `parseInt(text) || 0` for the minimum and `|| 5000` for the maximum. */
  const DefaultMaxPrice := 5000

  function MinPriceInput(text: string): (lo: int)
    ensures ParseInt(text).None? ==> lo == 0
    ensures ParseInt(text).Some? ==> lo == ParseInt(text).value
  {
    ParseIntOr(text, 0)
  }

  function MaxPriceInput(text: string): (hi: int)
    ensures ParseInt(text).None? ==> hi == DefaultMaxPrice
  {
    ParseIntOr(text, DefaultMaxPrice)
  }

  /** A typed maximum of 0 is read as no limit: the bound becomes 5000. */
  lemma MaxPriceZero()
    ensures MaxPriceInput("0") == DefaultMaxPrice
    ensures forall n :: n != 0 ==> MaxPriceInput(IntToDecimal(n)) == n
  {
    ParseIntOfDecimal(0);
    assert IntToDecimal(0) == "0";
    forall n | n != 0 ensures MaxPriceInput(IntToDecimal(n)) == n {
      ParseIntOrOfDecimal(n, DefaultMaxPrice);
    }
  }

  // ----- filtering ---------------------------------------------------------

  function HasNeed(need: string): ListedProduct -> bool {
    (p: ListedProduct) => p.need == need
  }

  function HasCategory(category: string): ListedProduct -> bool {
    (p: ListedProduct) => p.category == category
  }

  function InSelected(selected: seq<string>): ListedProduct -> bool {
    (p: ListedProduct) => p.category in selected
  }

  function MentionsQuery(query: string): ListedProduct -> bool {
    (p: ListedProduct) => ContainsIgnoringCase(p.name, query) || ContainsIgnoringCase(p.description, query)
  }

  function PricedWithin(lo: int, hi: int): ListedProduct -> bool {
    (p: ListedProduct) => lo <= p.price <= hi
  }

  /** What the filter effect demands of each product it keeps. */
  predicate Matches(p: ListedProduct, filters: map<string, string>, selected: seq<string>,
                    query: string, lo: int, hi: int)
  {
    var need := Param(filters, "need");
    var category := Param(filters, "category");
    && (need != "" ==> p.need == need)
    && (category != "" && category != "all" ==> p.category == category)
    && (|selected| > 0 ==> p.category in selected)
    && (query != "" ==> ContainsIgnoringCase(p.name, query) || ContainsIgnoringCase(p.description, query))
    && lo <= p.price <= hi
  }

  /** One filter step: applied when its condition holds, skipped otherwise. */
  function Step(xs: seq<ListedProduct>, applies: bool, keep: ListedProduct -> bool): (r: seq<ListedProduct>)
    ensures IsSubsequence(r, xs)
  {
    if applies then FilterIsSubsequence(xs, keep); Filter(xs, keep)
    else SubsequenceOfSelf(xs); xs
  }

  /** The products the filter effect keeps, in their original order. */
  function Filtered(products: seq<ListedProduct>, filters: map<string, string>, selected: seq<string>,
                    query: string, lo: int, hi: int): seq<ListedProduct>
  {
    var need := Param(filters, "need");
    var category := Param(filters, "category");
    var byNeed := Step(products, need != "", HasNeed(need));
    var byCategory := Step(byNeed, category != "" && category != "all", HasCategory(category));
    var bySelected := Step(byCategory, |selected| > 0, InSelected(selected));
    var bySearch := Step(bySelected, query != "", MentionsQuery(query));
    Step(bySearch, true, PricedWithin(lo, hi))
  }

  /** A product survives a step exactly when it was there and the step lets it through. */
  lemma StepMember(xs: seq<ListedProduct>, applies: bool, keep: ListedProduct -> bool, p: ListedProduct)
    ensures p in Step(xs, applies, keep) <==> p in xs && (applies ==> keep(p))
  {
    var r := Step(xs, applies, keep);
    if applies {
      assert r == Filter(xs, keep);
    }
    if p in r {
      var i :| 0 <= i < |r| && r[i] == p;
    }
    if p in xs {
      var i :| 0 <= i < |xs| && xs[i] == p;
    }
  }

  /** The kept products are exactly the matching ones. */
  lemma FilteredMatches(products: seq<ListedProduct>, filters: map<string, string>, selected: seq<string>,
                        query: string, lo: int, hi: int)
    ensures var r := Filtered(products, filters, selected, query, lo, hi);
      forall p :: p in r <==> p in products && Matches(p, filters, selected, query, lo, hi)
  {
    forall p ensures p in Filtered(products, filters, selected, query, lo, hi)
                 <==> p in products && Matches(p, filters, selected, query, lo, hi) {
      FilteredMember(products, filters, selected, query, lo, hi, p);
    }
  }

  lemma FilteredMember(products: seq<ListedProduct>, filters: map<string, string>, selected: seq<string>,
                       query: string, lo: int, hi: int, p: ListedProduct)
    ensures p in Filtered(products, filters, selected, query, lo, hi)
        <==> p in products && Matches(p, filters, selected, query, lo, hi)
  {
    var need := Param(filters, "need");
    var category := Param(filters, "category");
    var byNeed := Step(products, need != "", HasNeed(need));
    var byCategory := Step(byNeed, category != "" && category != "all", HasCategory(category));
    var bySelected := Step(byCategory, |selected| > 0, InSelected(selected));
    var bySearch := Step(bySelected, query != "", MentionsQuery(query));
    var r := Step(bySearch, true, PricedWithin(lo, hi));
    assert p in byNeed <==> p in products && (need != "" ==> p.need == need) by {
      StepMember(products, need != "", HasNeed(need), p);
    }
    assert p in byCategory <==> p in byNeed && (category != "" && category != "all" ==> p.category == category) by {
      StepMember(byNeed, category != "" && category != "all", HasCategory(category), p);
    }
    assert p in bySelected <==> p in byCategory && (|selected| > 0 ==> p.category in selected) by {
      StepMember(byCategory, |selected| > 0, InSelected(selected), p);
    }
    assert p in bySearch <==> p in bySelected && (query != "" ==> MentionsQuery(query)(p)) by {
      StepMember(bySelected, query != "", MentionsQuery(query), p);
    }
    assert p in r <==> p in bySearch && lo <= p.price <= hi by {
      StepMember(bySearch, true, PricedWithin(lo, hi), p);
    }
  }

  /** The kept products keep their catalogue order. */
  lemma FilteredInOrder(products: seq<ListedProduct>, filters: map<string, string>, selected: seq<string>,
                        query: string, lo: int, hi: int)
    ensures IsSubsequence(Filtered(products, filters, selected, query, lo, hi), products)
  {
    var need := Param(filters, "need");
    var category := Param(filters, "category");
    var byNeed := Step(products, need != "", HasNeed(need));
    var byCategory := Step(byNeed, category != "" && category != "all", HasCategory(category));
    var bySelected := Step(byCategory, |selected| > 0, InSelected(selected));
    var bySearch := Step(bySelected, query != "", MentionsQuery(query));
    var r := Step(bySearch, true, PricedWithin(lo, hi));
    SubsequenceTrans(byCategory, byNeed, products);
    SubsequenceTrans(bySelected, byCategory, products);
    SubsequenceTrans(bySearch, bySelected, products);
    SubsequenceTrans(r, bySearch, products);
  }

  // ----- sorting -------------------------------------------------------------

  /** `a` may come before `b`: by price, rising or falling. */
  predicate InOrder(a: ListedProduct, b: ListedProduct, descending: bool) {
    if descending then a.price >= b.price else a.price <= b.price
  }

  predicate SortedByPrice(s: seq<ListedProduct>, descending: bool) {
    forall i, j :: 0 <= i < j < |s| ==> InOrder(s[i], s[j], descending)
  }

  /** The first `n` products are in order. */
  predicate SortedPrefix(s: seq<ListedProduct>, n: int, descending: bool) {
    forall k, l :: 0 <= k < l < n && l < |s| ==> InOrder(s[k], s[l], descending)
  }

  /** `filtered.sort((a, b) => a.price - b.price)` and its reverse, as an
      insertion sort in place. */
  method SortByPrice(a: array<ListedProduct>, descending: bool)
    modifies a
    ensures SortedByPrice(a[..], descending)
    ensures multiset(a[..]) == multiset(old(a[..]))
  {
    var i := 0;
    while i < a.Length
      invariant 0 <= i <= a.Length
      invariant SortedPrefix(a[..], i, descending)
      invariant multiset(a[..]) == multiset(old(a[..]))
    {
      InsertInto(a, i, descending);
      i := i + 1;
    }
  }

  /** Moves `a[i]` down into the sorted prefix before it. */
  method InsertInto(a: array<ListedProduct>, i: int, descending: bool)
    requires 0 <= i < a.Length && SortedPrefix(a[..], i, descending)
    modifies a
    ensures SortedPrefix(a[..], i + 1, descending)
    ensures multiset(a[..]) == multiset(old(a[..]))
  {
    var j := i;
    while j > 0 && !InOrder(a[j - 1], a[j], descending)
      invariant 0 <= j <= i
      invariant forall k, l :: 0 <= k < l <= i && k != j && l != j ==> InOrder(a[k], a[l], descending)
      invariant forall l :: j < l <= i ==> InOrder(a[j], a[l], descending)
      invariant multiset(a[..]) == multiset(old(a[..]))
    {
      a[j - 1], a[j] := a[j], a[j - 1];
      j := j - 1;
    }
  }

  /** The products sorted by price in a fresh array, as `sort` does to the
      filtered list. */
  method SortedCopy(xs: seq<ListedProduct>, descending: bool) returns (r: seq<ListedProduct>)
    ensures multiset(r) == multiset(xs)
    ensures SortedByPrice(r, descending)
  {
    var a := new ListedProduct[|xs|](i requires 0 <= i < |xs| => xs[i]);
    assert a[..] == xs;
    SortByPrice(a, descending);
    r := a[..];
  }

  /** The filter effect: the listed products for the route filters, the
      selected categories, the search text, the price range and the order. */
  method ApplyFilters(products: seq<ListedProduct>, filters: map<string, string>,
                      selected: seq<string>, query: string, lo: int, hi: int, sortBy: string)
    returns (r: seq<ListedProduct>)
    ensures multiset(r) == multiset(Filtered(products, filters, selected, query, lo, hi))
    ensures sortBy == "price-low" ==> SortedByPrice(r, false)
    ensures sortBy == "price-high" ==> SortedByPrice(r, true)
    ensures sortBy != "price-low" && sortBy != "price-high" ==>
      r == Filtered(products, filters, selected, query, lo, hi)
  {
    var need := Param(filters, "need");
    var category := Param(filters, "category");
    var filtered := products;
    if need != "" {
      filtered := Filter(filtered, HasNeed(need));
    }
    ghost var byNeed := filtered;
    assert byNeed == Step(products, need != "", HasNeed(need));
    if category != "" && category != "all" {
      filtered := Filter(filtered, HasCategory(category));
    }
    ghost var byCategory := filtered;
    assert byCategory == Step(byNeed, category != "" && category != "all", HasCategory(category));
    if |selected| > 0 {
      filtered := Filter(filtered, InSelected(selected));
    }
    ghost var bySelected := filtered;
    assert bySelected == Step(byCategory, |selected| > 0, InSelected(selected));
    if query != "" {
      filtered := Filter(filtered, MentionsQuery(query));
    }
    assert filtered == Step(bySelected, query != "", MentionsQuery(query));
    filtered := Filter(filtered, PricedWithin(lo, hi));
    assert filtered == Filtered(products, filters, selected, query, lo, hi);
    if sortBy == "price-low" || sortBy == "price-high" {
      r := SortedCopy(filtered, sortBy == "price-high");
    } else {
      r := filtered;
    }
  }

  /** `toggleCategory`: the side-panel selection, without duplicates. */
  lemma ToggleCategory(selected: seq<string>, categoryId: string)
    requires NoDup(selected)
    ensures var r := Toggle(selected, categoryId);
      && NoDup(r)
      && (categoryId in r <==> categoryId !in selected)
      && (forall c :: c != categoryId ==> (c in r <==> c in selected))
  {
    ToggleNoDup(selected, categoryId);
    var r := Toggle(selected, categoryId);
    forall c | c != categoryId ensures c in r <==> c in selected {
      if c in selected {
        var i :| 0 <= i < |selected| && selected[i] == c;
      }
      if c in r {
        var i :| 0 <= i < |r| && r[i] == c;
      }
    }
  }

  // ----- headings ------------------------------------------------------------

  function NeedLabel(id: string): Option<string> {
    match id
    case "gut" => Some("GUT HEALTH")
    case "skin" => Some("SKIN GLOW")
    case "energy" => Some("ENERGY")
    case "immunity" => Some("IMMUNITY")
    case _ => None
  }

  function CategoryLabel(id: string): Option<string> {
    match id
    case "Powders" => Some("HERBAL POWDERS")
    case "Oils" => Some("ESSENTIAL OILS")
    case "Teas" => Some("WELLNESS TEAS")
    case "Supplements" => Some("SUPPLEMENTS")
    case "Crystals" => Some("HEALING CRYSTALS")
    case _ => None
  }

  /** `getPageTitle`: the need's label before the category's, with fallbacks. */
  function PageTitle(filters: map<string, string>): (t: string)
    ensures var need := Param(filters, "need");
      need != "" ==> t == NeedLabel(need).GetOr("WELLNESS PRODUCTS")
    ensures var need := Param(filters, "need"); var category := Param(filters, "category");
      need == "" && category != "" && category != "all" ==> t == CategoryLabel(category).GetOr("ALL PRODUCTS")
    ensures Param(filters, "need") == "" && Param(filters, "category") in {"", "all"} ==> t == "ALL PRODUCTS"
  {
    var need := Param(filters, "need");
    var category := Param(filters, "category");
    if need != "" then
      match NeedLabel(need)
      case Some(l) => l
      case None => "WELLNESS PRODUCTS"
    else if category != "" && category != "all" then
      match CategoryLabel(category)
      case Some(l) => l
      case None => "ALL PRODUCTS"
    else "ALL PRODUCTS"
  }

  /** `getBreadcrumb`: the trail above the title. */
  function Breadcrumb(filters: map<string, string>): string {
    var need := Param(filters, "need");
    var category := Param(filters, "category");
    if need != "" then
      match NeedLabel(need)
      case Some(l) => "SHOP BY NEED / " + l
      case None => "SHOP"
    else if category != "" && category != "all" then
      match CategoryLabel(category)
      case Some(l) => "CATEGORIES / " + l
      case None => "SHOP"
    else "ALL PRODUCTS"
  }

  /** A known need or category ends the breadcrumb with the page title; an
      unknown one gives the bare "SHOP" trail. */
  lemma BreadcrumbEndsWithTitle(filters: map<string, string>)
    ensures var need := Param(filters, "need"); var category := Param(filters, "category");
      && (need != "" && NeedLabel(need).Some? ==>
            Breadcrumb(filters) == "SHOP BY NEED / " + PageTitle(filters))
      && (need == "" && category != "" && category != "all" && CategoryLabel(category).Some? ==>
            Breadcrumb(filters) == "CATEGORIES / " + PageTitle(filters))
      && (need != "" && NeedLabel(need).None? ==> Breadcrumb(filters) == "SHOP")
      && (need == "" && category != "" && category != "all" && CategoryLabel(category).None? ==>
            Breadcrumb(filters) == "SHOP")
  {
  }
}
