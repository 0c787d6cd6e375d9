/**
 * The navigation bar: a click on a nav item either changes the route or
 * scrolls to a section of the home page. A section requested from another
 * route is handed across the route change through session storage and
 * scrolled to, once, when the location changes.
 *
 * The browser is abstracted: the route is a string, session storage a map,
 * the document the set of element ids it holds at the moment of a scroll,
 * and every smooth scroll is recorded in a ghost log.
 */
module Navigation {

  /** The home route. */
  const Home := "/"

  /** Session-storage key of the section to scroll to after a route change. */
  const ScrollTargetKey := "scrollTarget"

  /** Session-storage key of the marker that the site was already visited. */
  const VisitedKey := "visited"

  /** The navbar is shown while the page has scrolled at most this far, and gets its glass effect beyond it. */
  const HideThreshold := 50

  /**
   * A nav item (`text` is its label). An absent `isPage` is `false` and an absent `path` is the
   * empty string, which JavaScript treats as false as well.
   */
  datatype NavItem = NavItem(text: string, id: string, isPage: bool, path: string)

  /** The items of the desktop bar and the mobile menu, in display order. */
  const NavItems: seq<NavItem> := [
    NavItem("Industries", "industries", false, ""),
    NavItem("Solutions", "solutions", false, ""),
    NavItem("Services", "services", false, ""),
    NavItem("Products", "projects", false, ""),
    NavItem("Portfolio", "portfolio", true, "/portfolio"),
    NavItem("Contact", "contact", false, "")
  ]

  /** The item the logo navigates with. */
  const LogoItem := NavItem("Home", "home", false, "")

  /**
   * `item.isPage && item.path`: only an item with both is a route change; an
   * item marked as a page but without a path takes the section branch.
   */
  predicate IsPageNavigation(item: NavItem)
    ensures !item.isPage ==> !IsPageNavigation(item)
    ensures item.path == "" ==> !IsPageNavigation(item)
    ensures IsPageNavigation(item) ==> |item.path| > 0
  {
    item.isPage && item.path != ""
  }

  /** The scrolls `scrollToSection(id)` performs: none when no element has that id, else one to it. */
  function ScrollsTo(id: string, dom: set<string>): (r: seq<string>)
    ensures |r| <= 1
    ensures r == [] <==> id !in dom
    ensures forall k :: 0 <= k < |r| ==> r[k] == id
  {
    if id in dom then [id] else []
  }

  /** The state of one mounted navbar, with the browser state it reads and writes. */
  class Navbar {
    var location: string
    var storage: map<string, string>
    var isMobileMenuOpen: bool
    var scrollY: int
    var showNavbar: bool
    /** Every section scrolled into view, oldest first. */
    ghost var scrolled: seq<string>

    ghost predicate Valid()
      reads this
    {
      showNavbar == (scrollY <= HideThreshold)
    }

    /**
     * `sessionStorage.getItem("scrollTarget")` is truthy: a missing key reads
     * as null and a stored empty string as false, so neither is pending.
     */
    predicate HasPendingTarget()
      reads this
      ensures ScrollTargetKey !in storage ==> !HasPendingTarget()
      ensures ScrollTargetKey in storage && storage[ScrollTargetKey] == "" ==> !HasPendingTarget()
      ensures HasPendingTarget() ==> ScrollTargetKey in storage && |storage[ScrollTargetKey]| > 0
    {
      ScrollTargetKey in storage && storage[ScrollTargetKey] != ""
    }

    /**
     * The bar gets its glass background once the page has scrolled past the
     * threshold, which is exactly when the bar is hidden.
     */
    predicate GlassEffect()
      reads this
      ensures Valid() ==> (GlassEffect() <==> !showNavbar)
    {
      scrollY > HideThreshold
    }

    /** Mounting, at a location and with the current session storage; the location effect runs once. */
    constructor (location: string, storage: map<string, string>, dom: set<string>)
      ensures Valid() && showNavbar && scrollY == 0 && !isMobileMenuOpen
      ensures this.location == location && !HasPendingTarget()
      ensures ScrollTargetKey in storage && storage[ScrollTargetKey] != "" ==>
                this.storage == storage - {ScrollTargetKey} && scrolled == ScrollsTo(storage[ScrollTargetKey], dom)
      ensures !(ScrollTargetKey in storage && storage[ScrollTargetKey] != "") ==>
                this.storage == storage && scrolled == []
    {
      this.location := location;
      this.storage := storage;
      isMobileMenuOpen := false;
      scrollY := 0;
      showNavbar := true;
      scrolled := [];
      new;
      OnLocationChange(dom);
    }

    /** `scrollToSection`: smooth-scrolls to the element with that id, if there is one. */
    method ScrollToSection(id: string, dom: set<string>)
      modifies this`scrolled
      ensures scrolled == old(scrolled) + ScrollsTo(id, dom)
    {
      if id in dom {
        scrolled := scrolled + [id];
      }
    }

    /**
     * The effect run on every location change: a pending scroll target is
     * read, removed and then scrolled to (the 50 ms delay is not modelled).
     * The target is consumed, so a second run without a new write does nothing.
     */
    method OnLocationChange(dom: set<string>)
      requires Valid()
      modifies this
      ensures Valid() && !HasPendingTarget()
      ensures location == old(location) && isMobileMenuOpen == old(isMobileMenuOpen)
      ensures scrollY == old(scrollY) && showNavbar == old(showNavbar)
      ensures old(HasPendingTarget()) ==>
                storage == old(storage) - {ScrollTargetKey}
                && scrolled == old(scrolled) + ScrollsTo(old(storage)[ScrollTargetKey], dom)
      ensures !old(HasPendingTarget()) ==> unchanged(this)
    {
      if HasPendingTarget() {
        var target := storage[ScrollTargetKey];
        storage := storage - {ScrollTargetKey};
        ScrollToSection(target, dom);
      }
    }

    /**
     * `handleNavigation`: a page item changes the route; a section item
     * scrolls directly on the home route and otherwise leaves the target in
     * session storage and goes home. The mobile menu is closed either way.
     */
    method HandleNavigation(item: NavItem, dom: set<string>)
      requires Valid()
      modifies this
      ensures Valid() && !isMobileMenuOpen
      ensures scrollY == old(scrollY) && showNavbar == old(showNavbar)
      ensures IsPageNavigation(item) ==>
                location == item.path && storage == old(storage) && scrolled == old(scrolled)
      ensures !IsPageNavigation(item) && old(location) != Home ==>
                && location == Home
                && storage == old(storage)[ScrollTargetKey := item.id][VisitedKey := "true"]
                && scrolled == old(scrolled)
      ensures !IsPageNavigation(item) && old(location) == Home ==>
                && location == Home && storage == old(storage)
                && scrolled == old(scrolled) + ScrollsTo(item.id, dom)
    {
      if IsPageNavigation(item) {
        location := item.path;
        isMobileMenuOpen := false;
      } else {
        if location != Home {
          storage := storage[ScrollTargetKey := item.id];
          storage := storage[VisitedKey := "true"];
          location := Home;
        } else {
          ScrollToSection(item.id, dom);
        }
        isMobileMenuOpen := false;
      }
    }

    /**
     * A click on a nav item: the handler, followed by the location effect
     * when the location changed. `dom` holds the element ids of the page
     * shown after the click.
     */
    method Navigate(item: NavItem, dom: set<string>)
      requires Valid()
      modifies this
      ensures Valid() && !isMobileMenuOpen
      ensures location != old(location) ==> !HasPendingTarget()
      ensures !old(HasPendingTarget()) ==> !HasPendingTarget()
      ensures IsPageNavigation(item) ==> location == item.path
      ensures IsPageNavigation(item) && !old(HasPendingTarget()) ==>
                storage == old(storage) && scrolled == old(scrolled)
      ensures !IsPageNavigation(item) ==> location == Home
      ensures !IsPageNavigation(item) && old(location) != Home && item.id != "" ==>
                && storage == old(storage)[VisitedKey := "true"] - {ScrollTargetKey}
                && scrolled == old(scrolled) + ScrollsTo(item.id, dom)
      ensures !IsPageNavigation(item) && old(location) == Home ==>
                storage == old(storage) && scrolled == old(scrolled) + ScrollsTo(item.id, dom)
    {
      var before := location;
      HandleNavigation(item, dom);
      if location != before {
        OnLocationChange(dom);
      }
    }

    /** The scroll listener: records the offset and shows the bar only near the top. */
    method OnScroll(y: int)
      requires Valid()
      modifies this
      ensures Valid() && scrollY == y
      ensures showNavbar <==> y <= HideThreshold
      ensures showNavbar <==> !GlassEffect()
      ensures location == old(location) && storage == old(storage)
      ensures isMobileMenuOpen == old(isMobileMenuOpen) && scrolled == old(scrolled)
    {
      scrollY := y;
      showNavbar := y <= HideThreshold;
    }

    /** The menu button flips the mobile menu. */
    method ToggleMobileMenu()
      requires Valid()
      modifies this
      ensures Valid() && isMobileMenuOpen == !old(isMobileMenuOpen)
      ensures location == old(location) && storage == old(storage) && scrolled == old(scrolled)
      ensures scrollY == old(scrollY) && showNavbar == old(showNavbar)
    {
      isMobileMenuOpen := !isMobileMenuOpen;
    }
  }

  /**
   * Contact requested from the portfolio page is scrolled to once on the
   * home page; Portfolio from home writes nothing; the logo from the
 * portfolio page goes home; two menu toggles cancel.
   */
  method NavigationScenario(dom: set<string>)
    requires "contact" in dom
  {
    var bar := new Navbar("/portfolio", map[], dom);
    bar.ToggleMobileMenu();
    bar.ToggleMobileMenu();
    assert !bar.isMobileMenuOpen;
    bar.ToggleMobileMenu();
    bar.Navigate(NavItems[5], dom);
    assert bar.location == Home && !bar.isMobileMenuOpen;
    assert bar.scrolled == ["contact"];
    assert bar.storage == map[VisitedKey := "true"];
    bar.OnLocationChange(dom);
    assert bar.scrolled == ["contact"];
    bar.Navigate(NavItems[4], dom);
    assert bar.location == "/portfolio" && bar.storage == map[VisitedKey := "true"];
    bar.Navigate(LogoItem, dom);
    assert bar.location == Home && bar.scrolled == ["contact"] + ScrollsTo("home", dom);
  }
}
