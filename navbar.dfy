/** The navigation bar: its links, the scroll-dependent background, the mobile
    menu and the highlighting of the current page's link. */
module Navbar {

  datatype NavLink = NavLink(name: string, id: string)

  const NAV_LINKS: seq<NavLink> := [
    NavLink("Home", "home"),
    NavLink("About", "about"),
    NavLink("Services", "services"),
    NavLink("Testimonials", "testimonials"),
    NavLink("Contact", "contact")
  ]

  /** The link ids are pairwise distinct. */
  lemma NavLinkIdsDistinct()
    ensures forall i, j :: 0 <= i < j < |NAV_LINKS| ==> NAV_LINKS[i].id != NAV_LINKS[j].id
  {
  }

  /** `window.scrollY > 50`: strictly past the threshold. */
  predicate IsScrolledAt(scrollY: real) {
    scrollY > 50.0
  }

  /** `currentPage === link.id`. */
  predicate IsHighlighted(currentPage: string, link: NavLink) {
    currentPage == link.id
  }

  /** The indices of the highlighted links, in display order. */
  function HighlightedFrom(currentPage: string, from: nat): (r: seq<nat>)
    requires from <= |NAV_LINKS|
    ensures forall i :: i in r <==> from <= i < |NAV_LINKS| && IsHighlighted(currentPage, NAV_LINKS[i])
    decreases |NAV_LINKS| - from
  {
    if from == |NAV_LINKS| then []
    else if IsHighlighted(currentPage, NAV_LINKS[from]) then [from] + HighlightedFrom(currentPage, from + 1)
    else HighlightedFrom(currentPage, from + 1)
  }

  /** At most one link is highlighted: exactly the one whose id is the current
      page, and none when the current page is not one of the five ids. */
  lemma {:induction false} HighlightedLinks(currentPage: string)
    ensures |HighlightedFrom(currentPage, 0)| <= 1
    ensures (exists i :: 0 <= i < |NAV_LINKS| && NAV_LINKS[i].id == currentPage)
              <==> |HighlightedFrom(currentPage, 0)| == 1
  {
    var r := HighlightedFrom(currentPage, 0);
    NavLinkIdsDistinct();
    if |r| >= 2 {
      assert r[0] in r && r[1] in r;
      assert r[0] == r[1] by {
        assert NAV_LINKS[r[0]].id == NAV_LINKS[r[1]].id;
      }
      HighlightedStrictlyIncreasing(currentPage, 0);
    }
    if exists i :: 0 <= i < |NAV_LINKS| && NAV_LINKS[i].id == currentPage {
      var i :| 0 <= i < |NAV_LINKS| && NAV_LINKS[i].id == currentPage;
      assert i in r;
    }
  }

  /** The indices come out in increasing order, hence without repeats. */
  lemma {:induction false} HighlightedStrictlyIncreasing(currentPage: string, from: nat)
    requires from <= |NAV_LINKS|
    ensures forall a, b :: 0 <= a < b < |HighlightedFrom(currentPage, from)| ==>
              HighlightedFrom(currentPage, from)[a] < HighlightedFrom(currentPage, from)[b]
    decreases |NAV_LINKS| - from
  {
    if from < |NAV_LINKS| {
      HighlightedStrictlyIncreasing(currentPage, from + 1);
    }
  }

  /** The bar's own state. Page changes are requested from the parent through
      `onPageChange`; here the requested page id is returned. */
  class NavbarState {
    var isScrolled: bool
    var isMobileMenuOpen: bool

    constructor ()
      ensures !isScrolled && !isMobileMenuOpen
    {
      isScrolled, isMobileMenuOpen := false, false;
    }

    /** The scroll listener. */
    method HandleScroll(scrollY: real)
      modifies this`isScrolled
      ensures isScrolled <==> IsScrolledAt(scrollY)
    {
      isScrolled := scrollY > 50.0;
    }

    /** `handleNavClick`: requests the page and closes the mobile menu whatever
        its state. */
    method HandleNavClick(pageId: string) returns (requested: string)
      modifies this`isMobileMenuOpen
      ensures requested == pageId
      ensures !isMobileMenuOpen
    {
      requested := pageId;
      isMobileMenuOpen := false;
    }

    /** The menu button flips the menu. */
    method ToggleMobileMenu()
      modifies this`isMobileMenuOpen
      ensures isMobileMenuOpen == !old(isMobileMenuOpen)
    {
      isMobileMenuOpen := !isMobileMenuOpen;
    }

    /** The logo leads home. */
    method ClickLogo() returns (requested: string)
      modifies this`isMobileMenuOpen
      ensures requested == "home" && !isMobileMenuOpen
    {
      requested := HandleNavClick("home");
    }

    /** Both "Get Started" buttons (desktop and mobile menu) lead to the contact
        page. */
    method ClickGetStarted() returns (requested: string)
      modifies this`isMobileMenuOpen
      ensures requested == "contact" && !isMobileMenuOpen
    {
      requested := HandleNavClick("contact");
    }
  }
}
