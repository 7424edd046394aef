/** The application shell: the page router, the current page and the loading
    screen that hides everything else until it completes. */
module App {
  import Navbar

  /** The sections `renderPage` can return. */
  datatype Section = HomePage | AboutPage | ServicesPage | TestimonialsPage | ContactPage

  /** The arms of `renderPage`'s switch. */
  datatype Arm = HomeCase | AboutCase | ServicesCase | TestimonialsCase | ContactCase | DefaultCase

  /** Which arm of the switch a page id selects (strict string equality). */
  function SwitchArm(page: string): (arm: Arm)
    ensures arm == DefaultCase <==>
              page != "home" && page != "about" && page != "services" &&
              page != "testimonials" && page != "contact"
  {
    if page == "home" then HomeCase
    else if page == "about" then AboutCase
    else if page == "services" then ServicesCase
    else if page == "testimonials" then TestimonialsCase
    else if page == "contact" then ContactCase
    else DefaultCase
  }

  /** `renderPage`: total over all strings, unknown ids fall back to home. */
  function RenderPage(page: string): (section: Section)
    ensures page == "home" ==> section == HomePage
    ensures page == "about" ==> section == AboutPage
    ensures page == "services" ==> section == ServicesPage
    ensures page == "testimonials" ==> section == TestimonialsPage
    ensures page == "contact" ==> section == ContactPage
    ensures SwitchArm(page) == DefaultCase ==> section == HomePage
  {
    match SwitchArm(page)
    case HomeCase => HomePage
    case AboutCase => AboutPage
    case ServicesCase => ServicesPage
    case TestimonialsCase => TestimonialsPage
    case ContactCase => ContactPage
    case DefaultCase => HomePage
  }

  /** Every link of the navigation bar reaches its own arm of the switch, never
      the default, and distinct links reach distinct sections. */
  lemma NavLinksAreRouted()
    ensures forall l :: l in Navbar.NAV_LINKS ==> SwitchArm(l.id) != DefaultCase
    ensures forall i, j :: 0 <= i < j < |Navbar.NAV_LINKS| ==>
              RenderPage(Navbar.NAV_LINKS[i].id) != RenderPage(Navbar.NAV_LINKS[j].id)
  {
  }

  /** What the shell renders. */
  datatype View = LoadingScreen | NavbarView | Content(section: Section) | FooterView

  /** The top-level component's state. */
  class AppState {
    var currentPage: string
    var isLoading: bool

    constructor ()
      ensures currentPage == "home" && isLoading
      ensures Rendered() == [LoadingScreen]
    {
      currentPage, isLoading := "home", true;
    }

    /** While loading only the loading screen shows; afterwards the navigation
        bar, the current page's section and the footer, in that order. */
    function Rendered(): (views: seq<View>)
      reads this
      ensures isLoading ==> views == [LoadingScreen]
      ensures !isLoading ==> views == [NavbarView, Content(RenderPage(currentPage)), FooterView]
    {
      if isLoading then [LoadingScreen]
      else [NavbarView, Content(RenderPage(currentPage)), FooterView]
    }

    /** `handlePageChange`: stores the id as given, known or not. */
    method HandlePageChange(page: string)
      modifies this`currentPage
      ensures currentPage == page
    {
      currentPage := page;
    }

    /** The loading screen's completion callback. No method sets `isLoading`
        back to true. */
    method LoadingComplete()
      modifies this`isLoading
      ensures !isLoading
    {
      isLoading := false;
    }

    /** A click on a navigation link: the bar closes its menu and requests the
        page, and the shell switches to it. */
    method NavigateFromNavbar(bar: Navbar.NavbarState, link: Navbar.NavLink)
      requires !isLoading && link in Navbar.NAV_LINKS
      modifies this`currentPage, bar`isMobileMenuOpen
      ensures currentPage == link.id && !bar.isMobileMenuOpen
      ensures Rendered()[1] == Content(RenderPage(link.id)) && SwitchArm(link.id) != DefaultCase
    {
      var requested := bar.HandleNavClick(link.id);
      HandlePageChange(requested);
      NavLinksAreRouted();
    }
  }
}
