/** The navigation bar: the recently viewed pages, the searchable dropdown
    menus with their keyboard focus, and the rule that one dropdown at a
    time is open. */
module Navigation {
  import opened Wrappers
  import opened Text
  import opened Lists

  // ----- recently viewed --------------------------------------------------

  /** A tracked page; `caption` is the label the menu shows. */
  datatype PageInfo = PageInfo(id: string, caption: string, category: string)

  const TrackedViews: set<string> := {"home", "services", "shop", "resources", "community", "contact", "faqs"}

  /** `getPageInfo(view)`: the seven tracked pages, `None` for any other view. */
  function GetPageInfo(view: string): (info: Option<PageInfo>)
    ensures info.Some? <==> view in TrackedViews
    ensures info.Some? ==> info.value.id == view
  {
    match view
    case "home" => Some(PageInfo("home", "HOME", "general"))
    case "services" => Some(PageInfo("services", "ALL HEALERS", "healers"))
    case "shop" => Some(PageInfo("shop", "SHOP HOME", "shop"))
    case "resources" => Some(PageInfo("resources", "ALL RESOURCES", "resources"))
    case "community" => Some(PageInfo("community", "COMMUNITY HOME", "community"))
    case "contact" => Some(PageInfo("contact", "CONTACT US", "support"))
    case "faqs" => Some(PageInfo("faqs", "FAQ", "support"))
    case _ => None
  }

  const RecentLimit: nat := 5

  function OtherPage(id: string): PageInfo -> bool {
    (p: PageInfo) => p.id != id
  }

  predicate DistinctIds(pages: seq<PageInfo>) {
    forall i, j :: 0 <= i < j < |pages| ==> pages[i].id != pages[j].id
  }

  /** The recently viewed list after visiting `view`: the page moves to the
      front, its older entry is dropped, and at most five are kept. */
  function TrackPageView(recent: seq<PageInfo>, view: string): (r: seq<PageInfo>)
    ensures view !in TrackedViews ==> r == recent
    ensures view in TrackedViews ==> |r| >= 1 && r[0] == GetPageInfo(view).value && |r| <= RecentLimit
    ensures view in TrackedViews ==> r[1..] <= Filter(recent, OtherPage(view))
  {
    match GetPageInfo(view)
    case None => recent
    case Some(info) => Take([info] + Filter(recent, OtherPage(info.id)), RecentLimit)
  }

  /** Visiting a page never introduces a duplicate entry. */
  lemma TrackKeepsDistinct(recent: seq<PageInfo>, view: string)
    requires DistinctIds(recent)
    ensures DistinctIds(TrackPageView(recent, view))
  {
    if view in TrackedViews {
      var info := GetPageInfo(view).value;
      var rest := Filter(recent, OtherPage(view));
      FilterDistinct(recent, OtherPage(view));
      var full := [info] + rest;
      forall i, j | 0 <= i < j < |full| ensures full[i].id != full[j].id {
        if i == 0 {
          assert full[j] == rest[j - 1];
          assert OtherPage(view)(rest[j - 1]);
        } else {
          assert full[i] == rest[i - 1] && full[j] == rest[j - 1];
        }
      }
    }
  }

  lemma {:induction false} FilterDistinct(pages: seq<PageInfo>, keep: PageInfo -> bool)
    requires DistinctIds(pages)
    ensures DistinctIds(Filter(pages, keep))
  {
    if pages != [] {
      FilterDistinct(pages[1..], keep);
      var r := Filter(pages[1..], keep);
      if keep(pages[0]) {
        var s := [pages[0]] + r;
        forall i, j | 0 <= i < j < |s| ensures s[i].id != s[j].id {
          if i == 0 {
            assert s[j] == r[j - 1] && r[j - 1] in pages[1..];
            var k :| 0 <= k < |pages[1..]| && pages[1..][k] == r[j - 1];
            assert pages[k + 1] == s[j];
          } else {
            assert s[i] == r[i - 1] && s[j] == r[j - 1];
          }
        }
      }
    }
  }

  function InCategory(category: string): PageInfo -> bool {
    (p: PageInfo) => p.category == category
  }

  datatype Dropdown = ShopMenu | ServicesMenu | ResourcesMenu | CommunityMenu | ContactMenu

  /** The page category each dropdown shows recent pages of. */
  function CategoryOf(t: Dropdown): string {
    match t
    case ShopMenu => "shop"
    case ServicesMenu => "healers"
    case ResourcesMenu => "resources"
    case CommunityMenu => "community"
    case ContactMenu => "support"
  }

  /** `getRecentlyViewedForCategory(t)`: up to three recent pages of the dropdown's category. */
  function RecentForCategory(recent: seq<PageInfo>, t: Dropdown): (r: seq<PageInfo>)
    ensures |r| <= 3
    ensures forall i :: 0 <= i < |r| ==> r[i].category == CategoryOf(t) && r[i] in recent
    ensures IsSubsequence(r, recent)
  {
    var all := Filter(recent, InCategory(CategoryOf(t)));
    FilterIsSubsequence(recent, InCategory(CategoryOf(t)));
    PrefixIsSubsequence(Take(all, 3), all);
    SubsequenceTrans(Take(all, 3), all, recent);
    Take(all, 3)
  }

  // ----- menu search ------------------------------------------------------

  /** A submenu entry: the route it opens and its label. */
  datatype MenuItem = MenuItem(id: string, caption: string)

  function LabelMatches(query: string): MenuItem -> bool {
    (item: MenuItem) => ContainsIgnoringCase(item.caption, query)
  }

  /** `filterMenuItems(items, query)`: a blank query keeps every item; any
      other (untrimmed) query keeps, in order, the items whose label contains
      it, ignoring case. */
  function FilterMenuItems(items: seq<MenuItem>, query: string): (r: seq<MenuItem>)
    ensures IsBlank(query) ==> r == items
    ensures !IsBlank(query) ==> forall i :: 0 <= i < |r| ==> ContainsIgnoringCase(r[i].caption, query)
    ensures !IsBlank(query) ==>
      forall i :: 0 <= i < |items| && ContainsIgnoringCase(items[i].caption, query) ==> items[i] in r
    ensures IsSubsequence(r, items)
  {
    if IsBlank(query) then
      SubsequenceOfSelf(items);
      items
    else
      FilterIsSubsequence(items, LabelMatches(query));
      Filter(items, LabelMatches(query))
  }

  function Submenu(t: Dropdown): seq<MenuItem> {
    match t
    case ServicesMenu => [
      MenuItem("services", "ALL HEALERS"), MenuItem("services#spiritual", "SPIRITUAL COACHES"),
      MenuItem("services#ayurveda", "AYURVEDIC HEALERS"), MenuItem("services#sound", "SOUND HEALING"),
      MenuItem("services#breathwork", "BREATHWORK COACHES"), MenuItem("services#crystal", "CRYSTAL HEALING"),
      MenuItem("services#manifestation", "MANIFESTATION"), MenuItem("services#symptoms", "FIND BY SYMPTOMS")]
    case ShopMenu => [
      MenuItem("shop", "SHOP HOME"), MenuItem("shop/all", "ALL PRODUCTS"),
      MenuItem("shop/need/gut", "GUT HEALTH"), MenuItem("shop/need/skin", "SKIN GLOW"),
      MenuItem("shop/need/energy", "ENERGY"), MenuItem("shop/need/immunity", "IMMUNITY")]
    case ResourcesMenu => [
      MenuItem("resources", "ALL RESOURCES"), MenuItem("resources#articles", "ARTICLES"),
      MenuItem("resources#podcasts", "PODCASTS"), MenuItem("resources#videos", "VIDEOS"),
      MenuItem("resources#guides", "HEALING GUIDES"), MenuItem("resources#meditation", "MEDITATION"),
      MenuItem("resources#nutrition", "NUTRITION")]
    case CommunityMenu => [
      MenuItem("community", "COMMUNITY HOME"), MenuItem("community#discussions", "DISCUSSIONS"),
      MenuItem("community#events", "EVENTS"), MenuItem("community#stories", "SUCCESS STORIES"),
      MenuItem("community#influencers", "WELLNESS INFLUENCERS"), MenuItem("community#groups", "SUPPORT GROUPS")]
    case ContactMenu => [
      MenuItem("contact", "CONTACT US"), MenuItem("faqs", "FAQ"),
      MenuItem("support#help", "HELP CENTER"), MenuItem("support#billing", "BILLING SUPPORT"),
      MenuItem("support#technical", "TECHNICAL HELP"), MenuItem("support#feedback", "FEEDBACK")]
  }

  // ----- keyboard focus ---------------------------------------------------

  /** ArrowDown in an open dropdown of `n` items: the next item, wrapping to the first. */
  function NextIndex(f: int, n: int): (r: int)
    ensures n > 0 && -1 <= f < n ==> 0 <= r < n
    ensures n > 0 ==> (f == n - 1 ==> r == 0)
  {
    if f < n - 1 then f + 1 else 0
  }

  /** ArrowUp in an open dropdown of `n` items: the previous item, wrapping to the last. */
  function PrevIndex(f: int, n: int): (r: int)
    ensures n > 0 && -1 <= f < n ==> 0 <= r < n
    ensures f <= 0 ==> r == n - 1
  {
    if f > 0 then f - 1 else n - 1
  }

  /** ArrowUp undoes ArrowDown and ArrowDown undoes ArrowUp on a focused item. */
  lemma FocusStepsInverse(f: int, n: int)
    requires 0 <= f < n
    ensures PrevIndex(NextIndex(f, n), n) == f
    ensures NextIndex(PrevIndex(f, n), n) == f
  {
  }

  // ----- dropdown state ---------------------------------------------------

  datatype Key = ArrowDown | ArrowUp | Enter | Space | Escape | Tab | OtherKey

  /** What a key does to one dropdown: nothing, open it with an item focused,
      move the focus, close it, or pick the focused item (which also closes it). */
  datatype KeyEffect = Unchanged | OpenFocused(at: int) | MoveFocus(at: int) | Close | Pick(at: int)

  /** The decision `handleKeyDown` makes for a dropdown that `wasOpen`, with
      item `f` focused among `n` shown items. */
  function KeyEffectOf(key: Key, wasOpen: bool, f: int, n: int): (e: KeyEffect)
    ensures e.Pick? ==> (key == Enter || key == Space) && wasOpen && 0 <= e.at < n && e.at == f
    ensures e.OpenFocused? ==> !wasOpen
    ensures e.MoveFocus? ==> wasOpen
    ensures e.Close? <==> key == Escape || (key == Tab && wasOpen)
    ensures key == OtherKey ==> e == Unchanged
    ensures !wasOpen && key in {ArrowDown, Enter, Space} ==> e == OpenFocused(0)
    ensures !wasOpen && key == ArrowUp ==> e == OpenFocused(n - 1)
    ensures wasOpen && n > 0 && -1 <= f < n && key in {ArrowDown, ArrowUp} ==> e.MoveFocus? && 0 <= e.at < n
  {
    match key
    case ArrowDown => if wasOpen then MoveFocus(NextIndex(f, n)) else OpenFocused(0)
    case ArrowUp => if wasOpen then MoveFocus(PrevIndex(f, n)) else OpenFocused(n - 1)
    case Escape => Close
    case Tab => if wasOpen then Close else Unchanged
    case OtherKey => Unchanged
    case _ =>
      if !wasOpen then OpenFocused(0)
      else if 0 <= f < n then Pick(f)
      else Unchanged
  }

  /** Enter and Space act alike. */
  lemma EnterLikeSpace(wasOpen: bool, f: int, n: int)
    ensures KeyEffectOf(Enter, wasOpen, f, n) == KeyEffectOf(Space, wasOpen, f, n)
  {
  }

  /** The dropdowns in the order the state objects list them. */
  const DropdownOrder: seq<Dropdown> := [ShopMenu, ServicesMenu, ResourcesMenu, CommunityMenu, ContactMenu]

  lemma AllDropdownsListed(d: Dropdown)
    ensures d in DropdownOrder
  {
    match d
    case ShopMenu => assert DropdownOrder[0] == d;
    case ServicesMenu => assert DropdownOrder[1] == d;
    case ResourcesMenu => assert DropdownOrder[2] == d;
    case CommunityMenu => assert DropdownOrder[3] == d;
    case ContactMenu => assert DropdownOrder[4] == d;
  }

  /** The same value for every dropdown. */
  function Uniform<V>(v: V): (m: map<Dropdown, V>)
    ensures forall d: Dropdown :: d in m && m[d] == v
  {
    var m := map[ShopMenu := v, ServicesMenu := v, ResourcesMenu := v, CommunityMenu := v, ContactMenu := v];
    EveryDropdownMapped(m, v);
    m
  }

  lemma EveryDropdownMapped<V>(m: map<Dropdown, V>, v: V)
    requires m == map[ShopMenu := v, ServicesMenu := v, ResourcesMenu := v, CommunityMenu := v, ContactMenu := v]
    ensures forall d: Dropdown :: d in m && m[d] == v
  {
    forall d: Dropdown ensures d in m && m[d] == v {
      match d
      case ShopMenu =>
      case ServicesMenu =>
      case ResourcesMenu =>
      case CommunityMenu =>
      case ContactMenu =>
    }
  }

  class NavigationMenu {
    var open: map<Dropdown, bool>
    var focus: map<Dropdown, int>
    var query: map<Dropdown, string>
    var recentlyViewed: seq<PageInfo>

    /** Every dropdown has an open flag, a focus index and a search query. */
    predicate Valid()
      reads this
    {
      forall d: Dropdown :: d in open && d in focus && d in query
    }

    /** At most one dropdown is open. */
    predicate AtMostOneOpen()
      reads this
      requires Valid()
    {
      forall a: Dropdown, b: Dropdown :: open[a] && open[b] ==> a == b
    }

    constructor ()
      ensures Valid() && AtMostOneOpen()
      ensures forall d: Dropdown :: !open[d] && focus[d] == -1 && query[d] == ""
      ensures recentlyViewed == []
    {
      open := Uniform(false);
      focus := Uniform(-1);
      query := Uniform("");
      recentlyViewed := [];
    }

    /** The recently viewed effect on a change of the current view. */
    method TrackView(view: string)
      modifies this`recentlyViewed
      ensures recentlyViewed == TrackPageView(old(recentlyViewed), view)
      ensures open == old(open) && focus == old(focus) && query == old(query)
    {
      recentlyViewed := TrackPageView(recentlyViewed, view);
    }

    /** `setDropdownOpen(t, isOpen)`: closing also drops the focus and the query. */
    method SetDropdownOpen(t: Dropdown, isOpen: bool)
      requires Valid()
      modifies this`open, this`focus, this`query
      ensures Valid()
      ensures open == old(open)[t := isOpen]
      ensures isOpen ==> focus == old(focus) && query == old(query)
      ensures !isOpen ==> focus == old(focus)[t := -1] && query == old(query)[t := ""]
      ensures recentlyViewed == old(recentlyViewed)
    {
      open := open[t := isOpen];
      if !isOpen {
        focus := focus[t := -1];
        query := query[t := ""];
      }
    }

    /** `handleDropdownToggle(t)`: `t` flips, every other dropdown closes,
        every focus index drops, and a now-closed `t` loses its query. */
    method HandleDropdownToggle(t: Dropdown)
      requires Valid()
      modifies this`open, this`focus, this`query
      ensures Valid() && AtMostOneOpen()
      ensures forall d: Dropdown :: open[d] == (d == t && !old(open[t]))
      ensures forall d: Dropdown :: focus[d] == -1
      ensures query == if open[t] then old(query) else old(query)[t := ""]
      ensures recentlyViewed == old(recentlyViewed)
    {
      var wasOpen := open[t];
      var newStates: map<Dropdown, bool> := map[];
      var i := 0;
      while i < |DropdownOrder|
        invariant 0 <= i <= |DropdownOrder|
        invariant forall j :: 0 <= j < i ==> DropdownOrder[j] in newStates
        invariant forall d :: d in newStates ==> newStates[d] == (d == t && !wasOpen)
      {
        var key := DropdownOrder[i];
        newStates := newStates[key := if key == t then !open[key] else false];
        i := i + 1;
      }
      var newIndices: map<Dropdown, int> := map[];
      i := 0;
      while i < |DropdownOrder|
        invariant 0 <= i <= |DropdownOrder|
        invariant forall j :: 0 <= j < i ==> DropdownOrder[j] in newIndices
        invariant forall d :: d in newIndices ==> newIndices[d] == -1
      {
        newIndices := newIndices[DropdownOrder[i] := -1];
        i := i + 1;
      }
      forall d: Dropdown ensures d in newStates && d in newIndices {
        AllDropdownsListed(d);
      }
      open := newStates;
      focus := newIndices;
      if !newStates[t] {
        query := query[t := ""];
      }
    }

    /** `handleKeyDown(key, t)` on the dropdown `t`; returns the view to
        navigate to when Enter or Space picks a focused item. */
    method HandleKeyDown(key: Key, t: Dropdown) returns (navigateTo: Option<string>)
      requires Valid()
      modifies this`open, this`focus, this`query
      ensures Valid()
      ensures var items := FilterMenuItems(Submenu(t), old(query[t]));
        match KeyEffectOf(key, old(open[t]), old(focus[t]), |items|)
        case Unchanged =>
          navigateTo.None? && open == old(open) && focus == old(focus) && query == old(query)
        case OpenFocused(at) =>
          navigateTo.None? && open == old(open)[t := true] && focus == old(focus)[t := at] && query == old(query)
        case MoveFocus(at) =>
          navigateTo.None? && open == old(open) && focus == old(focus)[t := at] && query == old(query)
        case Close =>
          && navigateTo.None? && open == old(open)[t := false]
          && focus == old(focus)[t := -1] && query == old(query)[t := ""]
        case Pick(at) =>
          && 0 <= at < |items| && navigateTo == Some(items[at].id)
          && open == old(open)[t := false] && focus == old(focus)[t := -1] && query == old(query)[t := ""]
    {
      var items := FilterMenuItems(Submenu(t), query[t]);
      navigateTo := None;
      match KeyEffectOf(key, open[t], focus[t], |items|) {
        case Unchanged =>
        case OpenFocused(at) =>
          SetDropdownOpen(t, true);
          focus := focus[t := at];
        case MoveFocus(at) =>
          focus := focus[t := at];
        case Close =>
          SetDropdownOpen(t, false);
        case Pick(at) =>
          navigateTo := Some(items[at].id);
          SetDropdownOpen(t, false);
      }
    }

    /** `handleDropdownItemClick(id, t)`: navigate to the item and close `t`. */
    method HandleDropdownItemClick(itemId: string, t: Dropdown) returns (navigateTo: Option<string>)
      requires Valid()
      modifies this`open, this`focus, this`query
      ensures Valid()
      ensures navigateTo == Some(itemId)
      ensures open == old(open)[t := false] && focus == old(focus)[t := -1] && query == old(query)[t := ""]
      ensures recentlyViewed == old(recentlyViewed)
    {
      navigateTo := Some(itemId);
      SetDropdownOpen(t, false);
    }

    /** The document-level Escape: every dropdown closes and every query
        clears; the focus indices are left as they were. */
    method GlobalEscape()
      requires Valid()
      modifies this`open, this`focus, this`query
      ensures Valid() && AtMostOneOpen()
      ensures forall d: Dropdown :: !open[d] && query[d] == ""
      ensures focus == old(focus) && recentlyViewed == old(recentlyViewed)
    {
      var newStates: map<Dropdown, bool> := map[];
      var i := 0;
      while i < |DropdownOrder|
        invariant 0 <= i <= |DropdownOrder|
        invariant forall j :: 0 <= j < i ==> DropdownOrder[j] in newStates
        invariant forall d :: d in newStates ==> !newStates[d]
      {
        newStates := newStates[DropdownOrder[i] := false];
        i := i + 1;
      }
      forall d: Dropdown ensures d in newStates {
        AllDropdownsListed(d);
      }
      open := newStates;
      query := Uniform("");
    }
  }
}
