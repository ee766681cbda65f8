/**
 * app/components/Navbar.tsx: the bar hides while the page scrolls down past
 * a threshold and comes back on any upward scroll or near the top; links
 * are highlighted on an exact path match. Scroll positions are whole
 * pixels here.
 */
module Navbar {
  import opened Wrappers
  import opened Text

  /** Below this many pixels the bar never hides. */
  const HideThreshold := 100

  /** The test in `handleScroll`: scrolling down, and past the threshold. */
  predicate HidesAt(lastScrollY: int, currentScrollY: int) {
    currentScrollY > lastScrollY && currentScrollY > HideThreshold
  }

  /** Near the top, and on any scroll that is not downwards, the bar shows. */
  lemma ShownNearTopOrScrollingUp(lastScrollY: int, currentScrollY: int)
    ensures currentScrollY <= HideThreshold ==> !HidesAt(lastScrollY, currentScrollY)
    ensures currentScrollY <= lastScrollY ==> !HidesAt(lastScrollY, currentScrollY)
    ensures currentScrollY > lastScrollY && currentScrollY > HideThreshold ==> HidesAt(lastScrollY, currentScrollY)
  {
  }

  /** The bar's state: whether it is hidden, and the `lastScrollY` ref. */
  datatype ScrollState = ScrollState(isHidden: bool, lastScrollY: int)

  const InitialScroll := ScrollState(false, 0)

  /** One scroll event. */
  function Scrolled(s: ScrollState, y: int): ScrollState {
    ScrollState(HidesAt(s.lastScrollY, y), y)
  }

  /** A run of scroll events, in order. */
  function ScrolledThrough(s: ScrollState, ys: seq<int>): ScrollState
    decreases |ys|
  {
    if ys == [] then s else ScrolledThrough(Scrolled(s, ys[0]), ys[1..])
  }

  /**
   * However long the run, the state depends only on its last two
   * positions: the ref holds the last one, and the bar is hidden iff the
   * last event scrolled down past the threshold.
   */
  lemma {:induction false} ScrollStateFromLastTwo(s: ScrollState, ys: seq<int>)
    requires ys != []
    ensures ScrolledThrough(s, ys).lastScrollY == ys[|ys| - 1]
    ensures ScrolledThrough(s, ys).isHidden ==
      HidesAt(if |ys| == 1 then s.lastScrollY else ys[|ys| - 2], ys[|ys| - 1])
    decreases |ys|
  {
    if |ys| > 1 {
      ScrollStateFromLastTwo(Scrolled(s, ys[0]), ys[1..]);
      assert ys[1..][|ys| - 2] == ys[|ys| - 1];
      if |ys| > 2 {
        assert ys[1..][|ys| - 3] == ys[|ys| - 2];
      }
    }
  }

  /** `isActive(path)`: exact equality with the current pathname. */
  predicate IsActive(pathname: string, path: string) {
    pathname == path
  }

  /** The two highlighted links of this bar. */
  const NavPaths := ["/match-jd", "/analyze-cv"]

  /** Distinct paths: at most one link is highlighted, and none on a sub-path. */
  lemma AtMostOneActive(pathname: string)
    ensures !(IsActive(pathname, NavPaths[0]) && IsActive(pathname, NavPaths[1]))
    ensures !IsActive(NavPaths[0] + "/", NavPaths[0])
  {
    assert NavPaths[0][1] != NavPaths[1][1];
  }

  /** `handleLogout`: to the sign-in page once signing out succeeded, nowhere otherwise. */
  function LogoutNavigation(signedOut: bool): (r: Option<string>)
    ensures r.Some? <==> signedOut
    ensures r.Some? ==> r.value == "/auth"
  {
    if signedOut then Some("/auth") else None
  }

  /** `auth.user?.username || 'User'`. */
  function DisplayName(username: Option<string>): (r: string)
    ensures Truthy(username) ==> r == username.value
    ensures !Truthy(username) ==> r == "User"
  {
    OrElse(username, "User")
  }

  class NavbarState {
    var isHidden: bool
    var lastScrollY: int

    constructor ()
      ensures ScrollState(isHidden, lastScrollY) == InitialScroll
    {
      isHidden := false;
      lastScrollY := 0;
    }

    /** `handleScroll` for the position `currentScrollY`. */
    method HandleScroll(currentScrollY: int)
      modifies this
      ensures ScrollState(isHidden, lastScrollY) == Scrolled(ScrollState(old(isHidden), old(lastScrollY)), currentScrollY)
      ensures isHidden <==> currentScrollY > old(lastScrollY) && currentScrollY > HideThreshold
      ensures lastScrollY == currentScrollY
    {
      if currentScrollY > lastScrollY && currentScrollY > HideThreshold {
        isHidden := true;
      } else {
        isHidden := false;
      }
      lastScrollY := currentScrollY;
    }
  }
}
