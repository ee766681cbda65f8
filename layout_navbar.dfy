/**
 * app/components/layout/Navbar.tsx: the same hide-on-scroll rule as the
 * plain bar, three highlighted links, and a mobile menu that its button
 * toggles and that closes whenever the route changes.
 */
module LayoutNavbar {
  import opened Navbar

  /** `navLinks`' paths, in order. */
  const LinkPaths := ["/jobs", "/match-jd", "/analyze-cv"]

  /** At most one of the three links is highlighted, on an exact match. */
  lemma AtMostOneLinkActive(pathname: string, i: nat, j: nat)
    requires i < j < |LinkPaths|
    ensures !(IsActive(pathname, LinkPaths[i]) && IsActive(pathname, LinkPaths[j]))
  {
    assert LinkPaths[0][1] == 'j' && LinkPaths[1][1] == 'm' && LinkPaths[2][1] == 'a';
  }

  class LayoutNavbarState {
    var isHidden: bool
    var lastScrollY: int
    var isMobileMenuOpen: bool
    var pathname: string

    constructor (pathname: string)
      ensures ScrollState(isHidden, lastScrollY) == InitialScroll
      ensures !isMobileMenuOpen && this.pathname == pathname
    {
      isHidden := false;
      lastScrollY := 0;
      isMobileMenuOpen := false;
      this.pathname := pathname;
    }

    /** `handleScroll`: the rule of the plain bar; the menu and the route are untouched. */
    method HandleScroll(currentScrollY: int)
      modifies this
      ensures ScrollState(isHidden, lastScrollY) == Scrolled(ScrollState(old(isHidden), old(lastScrollY)), currentScrollY)
      ensures isMobileMenuOpen == old(isMobileMenuOpen) && pathname == old(pathname)
    {
      isHidden := currentScrollY > lastScrollY && currentScrollY > HideThreshold;
      lastScrollY := currentScrollY;
    }

    /** The menu button: the menu flips. */
    method ToggleMobileMenu()
      modifies this
      ensures isMobileMenuOpen == !old(isMobileMenuOpen)
      ensures ScrollState(isHidden, lastScrollY) == ScrollState(old(isHidden), old(lastScrollY)) && pathname == old(pathname)
    {
      isMobileMenuOpen := !isMobileMenuOpen;
    }

    /**
     * A new location: the effect on `location.pathname` closes the menu.
     * It runs only when the pathname differs; an open menu stays open on a
     * navigation to the same path.
     */
    method Navigate(newPathname: string)
      modifies this
      ensures pathname == newPathname
      ensures newPathname != old(pathname) ==> !isMobileMenuOpen
      ensures newPathname == old(pathname) ==> isMobileMenuOpen == old(isMobileMenuOpen)
      ensures ScrollState(isHidden, lastScrollY) == ScrollState(old(isHidden), old(lastScrollY))
    {
      if newPathname != pathname {
        isMobileMenuOpen := false;
      }
      pathname := newPathname;
    }

    /** `isActive(path)`. */
    predicate LinkActive(path: string)
      reads this
    {
      IsActive(pathname, path)
    }
  }
}
