/** The navigation bar (static/js/navigation.js): the mobile menu, its
    keyboard, resize and click handlers, the active link and the scrolled
    style of the bar. The page's elements are modelled by whether they exist
    and by the state the script gives them. */
module Navigation {
  import opened Common

  /** Above this window width the mobile menu is closed. */
  const MobileBreakpoint: int := 768
  /** Beyond this vertical scroll the bar takes its scrolled style. */
  const ScrollThreshold: real := 50.0

  const ScrolledBackground: string := "rgba(255, 255, 255, 0.95)"
  const ScrolledShadow: string := "0 4px 20px rgba(0, 0, 0, 0.15)"
  const RestingBackground: string := "var(--nav-bg)"
  const RestingShadow: string := "0 4px 6px -1px var(--nav-shadow)"

  /** The menu as the script leaves it: whether it is open, the `active`
      class of the hamburger and of the menu, and whether body scrolling is
      locked (`overflow: hidden`). */
  datatype Menu = Menu(open: bool, hamburgerActive: bool, menuActive: bool, bodyLocked: bool)

  /** Button, menu and body agree with the open flag. */
  predicate Coherent(m: Menu)
  {
    m.hamburgerActive == m.open && m.menuActive == m.open && m.bodyLocked == m.open
  }

  /** `toggleMobileMenu`: nothing without both elements; otherwise the flag is
      negated and the classes and body lock follow it. */
  function AfterToggle(m: Menu, elementsPresent: bool): (r: Menu)
    ensures !elementsPresent ==> r == m
    ensures elementsPresent ==> r.open == !m.open && Coherent(r)
  {
    if !elementsPresent then m
    else var open := !m.open; Menu(open, open, open, open)
  }

  /** `closeMobileMenu`: nothing without both elements; otherwise closed,
      classes removed and the body unlocked. */
  function AfterClose(m: Menu, elementsPresent: bool): (r: Menu)
    ensures !elementsPresent ==> r == m
    ensures elementsPresent ==> !r.open && !r.bodyLocked && Coherent(r)
  {
    if !elementsPresent then m else Menu(false, false, false, false)
  }

  /** Closing twice is closing once. */
  lemma CloseIdempotent(m: Menu, elementsPresent: bool)
    ensures AfterClose(AfterClose(m, elementsPresent), elementsPresent) == AfterClose(m, elementsPresent)
  {
  }

  /** Toggling twice from a coherent menu restores it. */
  lemma ToggleTwice(m: Menu, elementsPresent: bool)
    requires Coherent(m)
    ensures AfterToggle(AfterToggle(m, elementsPresent), elementsPresent) == m
  {
  }

  /** Closing a closed, coherent menu changes nothing, so the Escape and
      resize handlers, which close only an open menu, reach the same state
      as closing unconditionally. */
  lemma CloseClosedIsNoOp(m: Menu, elementsPresent: bool)
    requires Coherent(m) && !m.open
    ensures AfterClose(m, elementsPresent) == m
  {
  }

  /** `setActiveLink`'s rule: a link is active when its `href` is the path,
      or the path ends in `/` and the `href` is `index.html`, or the path is
      `/` and the `href` is `index.html`. A link without `href` never is. */
  predicate IsActiveLink(href: Option<string>, path: string)
  {
    href == Some(path)
    || (EndsWith(path, "/") && href == Some("index.html"))
    || (path == "/" && href == Some("index.html"))
  }

  /** The third case is contained in the second: a link is active exactly
      when its `href` is the path, or the path ends in `/` and the `href` is
      `index.html`. */
  lemma ActiveLinkRule(href: Option<string>, path: string)
    ensures IsActiveLink(href, path)
            <==> href == Some(path) || (EndsWith(path, "/") && href == Some("index.html"))
  {
    if path == "/" {
      assert path[|path| - 1..] == "/";
    }
  }

  /** What a click lands on, for the three click listeners. */
  datatype ClickTarget = OnHamburger | OnNavLink | InsideMenu | Outside

  class NavigationManager {
    var menu: Menu
    /** Whether both `#nav-hamburger` and `#nav-menu` exist. */
    const elementsPresent: bool
    /** Whether `.navbar` exists. */
    const hasNavbar: bool
    var navbarBackground: string
    var navbarShadow: string

    ghost predicate Valid()
      reads this
    {
      Coherent(menu)
    }

    /** A closed menu, the links marked for `path` and the bar styled for
      `scrollY` (`init`). */
    constructor (elementsPresent: bool, hasNavbar: bool, scrollY: real, path: string,
                 hrefs: seq<Option<string>>, active: array<bool>)
      requires active.Length == |hrefs|
      modifies active
      ensures Valid()
      ensures !menu.open && this.elementsPresent == elementsPresent && this.hasNavbar == hasNavbar
      ensures hasNavbar ==> (navbarBackground == ScrolledBackground <==> scrollY > ScrollThreshold)
      ensures hasNavbar ==> (navbarShadow == ScrolledShadow <==> scrollY > ScrollThreshold)
      ensures forall i :: 0 <= i < active.Length ==> active[i] == IsActiveLink(hrefs[i], path)
    {
      menu := Menu(false, false, false, false);
      this.elementsPresent := elementsPresent;
      this.hasNavbar := hasNavbar;
      navbarBackground := RestingBackground;
      navbarShadow := RestingShadow;
      new;
      SetActiveLink(path, hrefs, active);
      HandleScroll(scrollY);
    }

    method ToggleMobileMenu()
      requires Valid()
      modifies this`menu
      ensures Valid()
      ensures menu == AfterToggle(old(menu), elementsPresent)
    {
      if !elementsPresent {
        return;
      }
      var open := !menu.open;
      menu := Menu(open, open, open, open);
    }

    method CloseMobileMenu()
      requires Valid()
      modifies this`menu
      ensures Valid()
      ensures menu == AfterClose(old(menu), elementsPresent)
    {
      if !elementsPresent {
        return;
      }
      menu := Menu(false, false, false, false);
    }

    /** The `keydown` listener: Escape closes an open menu. */
    method OnKeyDown(key: string)
      requires Valid()
      modifies this`menu
      ensures Valid()
      ensures key == "Escape" && old(menu.open) ==> menu == AfterClose(old(menu), elementsPresent)
      ensures !(key == "Escape" && old(menu.open)) ==> menu == old(menu)
    {
      if key == "Escape" && menu.open {
        CloseMobileMenu();
      }
    }

    /** The `resize` listener: a width above 768 closes an open menu. */
    method OnResize(innerWidth: int)
      requires Valid()
      modifies this`menu
      ensures Valid()
      ensures innerWidth > MobileBreakpoint && old(menu.open) ==> menu == AfterClose(old(menu), elementsPresent)
      ensures !(innerWidth > MobileBreakpoint && old(menu.open)) ==> menu == old(menu)
    {
      if innerWidth > MobileBreakpoint && menu.open {
        CloseMobileMenu();
      }
    }

    /** The click listeners, bound only when both elements exist: the
        hamburger toggles, a link in the menu closes it, a click elsewhere in
        the menu does nothing and a click outside closes it. */
    method OnClick(target: ClickTarget)
      requires Valid()
      modifies this`menu
      ensures Valid()
      ensures !elementsPresent ==> menu == old(menu)
      ensures target == OnHamburger ==> menu == AfterToggle(old(menu), elementsPresent)
      ensures target == InsideMenu ==> menu == old(menu)
      ensures target in {OnNavLink, Outside} ==> menu == AfterClose(old(menu), elementsPresent)
    {
      if !elementsPresent {
        return;
      }
      match target
      case OnHamburger => ToggleMobileMenu();
      case OnNavLink => CloseMobileMenu();
      case InsideMenu =>
      case Outside => CloseMobileMenu();
    }

    /** `setActiveLink`: every link's `active` class is cleared and set again
        exactly when the rule picks it. */
    method SetActiveLink(path: string, hrefs: seq<Option<string>>, active: array<bool>)
      requires active.Length == |hrefs|
      modifies active
      ensures forall i :: 0 <= i < active.Length ==> active[i] == IsActiveLink(hrefs[i], path)
    {
      var i := 0;
      while i < active.Length
        invariant 0 <= i <= active.Length
        invariant forall j :: 0 <= j < i ==> active[j] == IsActiveLink(hrefs[j], path)
      {
        active[i] := false;
        var href := hrefs[i];
        if href == Some(path) || (EndsWith(path, "/") && href == Some("index.html"))
           || (path == "/" && href == Some("index.html")) {
          active[i] := true;
        }
        i := i + 1;
      }
    }

    /** `handleScroll`: with a bar, the scrolled style exactly when `scrollY`
        is above 50. */
    method HandleScroll(scrollY: real)
      modifies this`navbarBackground, this`navbarShadow
      ensures !hasNavbar ==> navbarBackground == old(navbarBackground) && navbarShadow == old(navbarShadow)
      ensures hasNavbar && scrollY > ScrollThreshold ==>
                navbarBackground == ScrolledBackground && navbarShadow == ScrolledShadow
      ensures hasNavbar && scrollY <= ScrollThreshold ==>
                navbarBackground == RestingBackground && navbarShadow == RestingShadow
    {
      if !hasNavbar {
        return;
      }
      var scrolled := scrollY > ScrollThreshold;
      if scrolled {
        navbarBackground := ScrolledBackground;
        navbarShadow := ScrolledShadow;
      } else {
        navbarBackground := RestingBackground;
        navbarShadow := RestingShadow;
      }
    }
  }
}
