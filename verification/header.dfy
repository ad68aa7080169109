/**
  The site header (src/components/Header.tsx): the navigation table, which
  item is highlighted, and the menu and navigation effects of its buttons.
 */
module Header {
  import opened Wrappers
  import ActiveSection
  import KeyboardShortcuts

  datatype NavItem = NavItem(name: string, href: string, route: string, id: string)

  const NavItems: seq<NavItem> := [
    NavItem("Home", "#home", "/", "home"),
    NavItem("About", "#about", "/about", "about"),
    NavItem("Experience", "#experience", "/experience", "experience"),
    NavItem("Projects", "#projects", "/projects", "projects"),
    NavItem("Education", "#education", "/education", "education"),
    NavItem("Contact", "#contact", "/contact", "contact")
  ]

  /**
    The highlight rule every rendering of an item uses: on the home page the
    item whose id is the active section; elsewhere the item whose own route,
    other than `/`, is the current path.
   */
  function Highlighted(path: string, activeSection: string, item: NavItem): (lit: bool)
    ensures lit && path == "/" ==> activeSection == item.id
    ensures lit && path != "/" ==> item.route == path
    ensures path == "/" ==> (lit <==> activeSection == item.id)
    ensures path != "/" ==> (lit <==> item.route == path)
  {
    (path == "/" && activeSection == item.id) || (path == item.route && item.route != "/")
  }

  /** How one item renders: desktop text colour, desktop underline, and the mobile entry (absent while the menu is closed). */
  datatype ItemView = ItemView(desktopHighlighted: bool, underline: bool, mobileHighlighted: Option<bool>)

  /** The views of all items for a path, active section and menu state. */
  function Render(path: string, activeSection: string, menuOpen: bool): (views: seq<ItemView>)
    ensures |views| == |NavItems|
    ensures forall i :: 0 <= i < |views| ==>
              views[i].desktopHighlighted == Highlighted(path, activeSection, NavItems[i])
              && views[i].underline == views[i].desktopHighlighted
              && (views[i].mobileHighlighted.Some? <==> menuOpen)
              && (menuOpen ==> views[i].mobileHighlighted.value == views[i].desktopHighlighted)
  {
    seq(|NavItems|, i requires 0 <= i < |NavItems| =>
      var item := NavItems[i];
      var lit := Highlighted(path, activeSection, item);
      ItemView(lit, lit, if menuOpen then Some(lit) else None))
  }

  /** In any rendering, at most one item's desktop view is highlighted. */
  lemma RenderHighlightsAtMostOne(path: string, activeSection: string, menuOpen: bool)
    ensures var views := Render(path, activeSection, menuOpen);
            forall i, j ::
              (0 <= i < |views| && 0 <= j < |views| && views[i].desktopHighlighted && views[j].desktopHighlighted) ==> i == j
  {
    var views := Render(path, activeSection, menuOpen);
    forall i, j | 0 <= i < |views| && 0 <= j < |views| && views[i].desktopHighlighted && views[j].desktopHighlighted
      ensures i == j
    {
      AtMostOneHighlighted(path, activeSection, i, j);
    }
  }

  /**
    The scroll tracker's initial active section is empty; until its first
    `handleScroll` (which runs once at mount) the home page highlights nothing.
   */
  lemma InitialSectionHighlightsNothing()
    ensures forall i :: 0 <= i < |NavItems| ==> !Highlighted("/", ActiveSection.NoSection, NavItems[i])
  {
  }

  /** No two items share an id or a route. */
  lemma TableDistinct()
    ensures forall i, j :: 0 <= i < j < |NavItems| ==>
              NavItems[i].id != NavItems[j].id && NavItems[i].route != NavItems[j].route
  {
  }

  /** At most one item is highlighted, whatever the path and active section. */
  lemma AtMostOneHighlighted(path: string, activeSection: string, i: int, j: int)
    requires 0 <= i < |NavItems| && 0 <= j < |NavItems|
    requires Highlighted(path, activeSection, NavItems[i]) && Highlighted(path, activeSection, NavItems[j])
    ensures i == j
  {
    TableDistinct();
    if path == "/" {
      assert NavItems[i].id == activeSection == NavItems[j].id;
    } else {
      assert NavItems[i].route == path == NavItems[j].route;
    }
  }

  /** Home is highlighted only through the active section, never through its route. */
  lemma HomeOnlyBySection(path: string, activeSection: string)
    ensures Highlighted(path, activeSection, NavItems[0]) <==> path == "/" && activeSection == "home"
  {
  }

  /** A path that is neither `/` nor any item's route highlights nothing. */
  lemma UnknownPathHighlightsNothing(path: string, activeSection: string)
    requires path != "/"
    requires forall i :: 0 <= i < |NavItems| ==> NavItems[i].route != path
    ensures forall i :: 0 <= i < |NavItems| ==> !Highlighted(path, activeSection, NavItems[i])
  {
  }

  /** The sections the scroll tracker examines are exactly the items' ids, in the same order. */
  lemma SectionsAreItemIds()
    ensures |ActiveSection.Sections| == |NavItems|
    ensures forall i :: 0 <= i < |NavItems| ==> ActiveSection.Sections[i] == NavItems[i].id
  {
  }

  /** On the home page, any section the scroll tracker can report highlights exactly its own item. */
  lemma TrackedSectionHighlightsOne(k: int)
    requires 0 <= k < |ActiveSection.Sections|
    ensures Highlighted("/", ActiveSection.Sections[k], NavItems[k])
    ensures forall i :: 0 <= i < |NavItems| && Highlighted("/", ActiveSection.Sections[k], NavItems[i]) ==> i == k
  {
    SectionsAreItemIds();
    forall i | 0 <= i < |NavItems| && Highlighted("/", ActiveSection.Sections[k], NavItems[i])
      ensures i == k
    {
      AtMostOneHighlighted("/", ActiveSection.Sections[k], i, k);
    }
  }

  /** The keyboard shortcuts lead to exactly the items' routes, in table order. */
  lemma ShortcutRoutesAreItemRoutes()
    ensures |KeyboardShortcuts.NavigationKeys| == |NavItems|
    ensures forall i :: 0 <= i < |NavItems| ==> KeyboardShortcuts.NavigationKeys[i].1 == NavItems[i].route
  {
  }

  /** The router location and the mobile menu flag. */
  datatype HeaderState = HeaderState(path: string, menuOpen: bool)

  /** A request to scroll an element into view, deferred by a timer when a navigation happened first. */
  datatype ScrollRequest = ScrollRequest(selector: string, deferred: bool)

  datatype HeaderStep = HeaderStep(state: HeaderState, navigatedTo: Option<string>, scroll: Option<ScrollRequest>)

  /**
    `scrollToSection`: off the home page it first navigates to `/` and defers
    the scroll; on it, it scrolls at once. Either way the menu closes.
   */
  function ScrollToSection(st: HeaderState, href: string): (r: HeaderStep)
    ensures r.state == HeaderState("/", false)
    ensures r.navigatedTo.Some? <==> st.path != "/"
    ensures r.navigatedTo.Some? ==> r.navigatedTo.value == "/"
    ensures r.scroll == Some(ScrollRequest(href, st.path != "/"))
  {
    if st.path != "/" then
      HeaderStep(HeaderState("/", false), Some("/"), Some(ScrollRequest(href, true)))
    else
      HeaderStep(st.(menuOpen := false), None, Some(ScrollRequest(href, false)))
  }

  /** The logo button: go home and close the menu. */
  function LogoClick(st: HeaderState): (r: HeaderStep)
    ensures r == HeaderStep(HeaderState("/", false), Some("/"), None)
  {
    HeaderStep(HeaderState("/", false), Some("/"), None)
  }

  /** The menu button flips the menu open or closed and touches nothing else. */
  function ToggleMenu(st: HeaderState): (r: HeaderState)
    ensures r.path == st.path && r.menuOpen != st.menuOpen
  {
    st.(menuOpen := !st.menuOpen)
  }

  /**
    The logo and any navigation item leave the header in the same state:
    on `/` with the menu closed, so the rendering has no mobile entries.
   */
  lemma LogoAndSectionAgree(st: HeaderState, href: string, activeSection: string)
    ensures LogoClick(st).state == ScrollToSection(st, href).state
    ensures var after := ScrollToSection(st, href).state;
            var views := Render(after.path, activeSection, after.menuOpen);
            forall i :: 0 <= i < |views| ==> views[i].mobileHighlighted.None?
  {
  }

  /** Pressing the menu button twice restores the header. */
  lemma ToggleTwice(st: HeaderState)
    ensures ToggleMenu(ToggleMenu(st)) == st
  {
  }
}
