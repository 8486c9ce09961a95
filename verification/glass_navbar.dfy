/**
  The fixed navigation bar: it hides while the visitor scrolls down past the
  first 100 pixels and reappears on any upward or shallow scroll, it turns
  "scrolled" past 20 pixels, and its links navigate by writing the URL
  fragment, which the application shell then routes.
 */
module GlassNavbar {
  import opened Wrappers
  import HashRouter

  /** Past this offset the bar switches to its compact, more opaque look. */
  const ScrolledThreshold: int := 20

  /** Scrolling down is only allowed to hide the bar past this offset. */
  const HideThreshold: int := 100

  datatype Navbar = Navbar(scrolled: bool, mobileOpen: bool, lastScrollY: int, showNavbar: bool)

  /** The four `useState` initial values. */
  function Initial(): (nb: Navbar)
    ensures nb.showNavbar && !nb.mobileOpen && !nb.scrolled && nb.lastScrollY == 0
  {
    Navbar(false, false, 0, true)
  }

  /**
    The scroll listener for a new vertical offset `y`: the bar hides exactly
    when the page moved down and is past the hide threshold; the offset is
    remembered for the next event; the mobile menu is not touched.
   */
  function HandleScroll(nb: Navbar, y: int): (r: Navbar)
    ensures r.scrolled <==> y > ScrolledThreshold
    ensures !r.showNavbar <==> y > nb.lastScrollY && y > HideThreshold
    ensures r.lastScrollY == y
    ensures r.mobileOpen == nb.mobileOpen
  {
    var hidden := y > nb.lastScrollY && y > HideThreshold;
    nb.(scrolled := y > ScrolledThreshold, showNavbar := !hidden, lastScrollY := y)
  }

  /** Near the top of the page, or when not moving down, the bar is always visible. */
  lemma ShownWhenNearTopOrUp(nb: Navbar, y: int)
    requires y <= HideThreshold || y <= nb.lastScrollY
    ensures HandleScroll(nb, y).showNavbar
  {
  }

  /** A repeated event at the same offset always shows the bar again. */
  lemma SameOffsetShows(nb: Navbar, y: int)
    ensures HandleScroll(HandleScroll(nb, y), y).showNavbar
    ensures HandleScroll(HandleScroll(nb, y), y).scrolled == HandleScroll(nb, y).scrolled
  {
  }

  /** The menu button flips the mobile menu and nothing else. */
  function ToggleMenu(nb: Navbar): (r: Navbar)
    ensures r.mobileOpen == !nb.mobileOpen
    ensures r.(mobileOpen := nb.mobileOpen) == nb
  {
    nb.(mobileOpen := !nb.mobileOpen)
  }

  /** Pressing the menu button twice leaves the bar as it was. */
  lemma ToggleTwice(nb: Navbar)
    ensures ToggleMenu(ToggleMenu(nb)) == nb
  {
  }

  /** The backdrop and every mobile entry close the menu and change nothing else. */
  function CloseMenu(nb: Navbar): (r: Navbar)
    ensures !r.mobileOpen
    ensures r.(mobileOpen := nb.mobileOpen) == nb
  {
    nb.(mobileOpen := false)
  }

  datatype NavLink = NavLink(name: string, href: string)

  /** The five section links, in the order they are drawn. */
  const NavLinks: seq<NavLink> := [
    NavLink("Features", "#features"),
    NavLink("Programs", "#programs"),
    NavLink("Mentors", "#mentors"),
    NavLink("Pricing", "#pricing"),
    NavLink("About", "#about")
  ]

  /** The fragments written by the logo and by both "Get Started" buttons. */
  const HomeHref: string := "#home"
  const JoinHref: string := "#join"

  /** A click may write a new URL fragment, which raises a `hashchange` in the shell. */
  datatype Outcome = Outcome(navbar: Navbar, hashWritten: Option<string>)

  /** The inputs of the bar; the mobile entries are only on screen while the menu is open. */
  datatype Event =
    | Scrolled(y: int)
    | MenuButton
    | Backdrop
    | MobileLink(index: nat)
    | MobileGetStarted
    | DesktopLink(index: nat)
    | Logo
    | DesktopGetStarted

  /** Whether an event's target is on screen, so that it can be clicked. */
  predicate Available(nb: Navbar, e: Event)
  {
    match e
    case Backdrop => nb.mobileOpen
    case MobileGetStarted => nb.mobileOpen
    case MobileLink(i) => nb.mobileOpen && i < |NavLinks|
    case DesktopLink(i) => i < |NavLinks|
    case _ => true
  }

  /**
    One input. Mobile entries write their fragment and close the menu; the
    desktop links, the logo and the desktop "Get Started" only write their
    fragment; an entry that is not on screen does nothing.
   */
  function Apply(nb: Navbar, e: Event): (o: Outcome)
    ensures !Available(nb, e) ==> o == Outcome(nb, None)
    ensures e.MobileLink? && Available(nb, e) ==>
      o == Outcome(CloseMenu(nb), Some(NavLinks[e.index].href))
    ensures e.DesktopLink? && Available(nb, e) ==>
      o == Outcome(nb, Some(NavLinks[e.index].href))
    ensures e.MobileGetStarted? && Available(nb, e) ==> o == Outcome(CloseMenu(nb), Some(JoinHref))
    ensures e.DesktopGetStarted? ==> o == Outcome(nb, Some(JoinHref))
    ensures e.Logo? ==> o == Outcome(nb, Some(HomeHref))
    ensures e.Backdrop? && Available(nb, e) ==> o == Outcome(CloseMenu(nb), None)
    ensures e.MenuButton? ==> o == Outcome(ToggleMenu(nb), None)
    ensures e.Scrolled? ==> o == Outcome(HandleScroll(nb, e.y), None)
  {
    if !Available(nb, e) then Outcome(nb, None)
    else
      match e
      case Scrolled(y) => Outcome(HandleScroll(nb, y), None)
      case MenuButton => Outcome(ToggleMenu(nb), None)
      case Backdrop => Outcome(CloseMenu(nb), None)
      case MobileLink(i) => Outcome(CloseMenu(nb), Some(NavLinks[i].href))
      case MobileGetStarted => Outcome(CloseMenu(nb), Some(JoinHref))
      case DesktopLink(i) => Outcome(nb, Some(NavLinks[i].href))
      case Logo => Outcome(nb, Some(HomeHref))
      case DesktopGetStarted => Outcome(nb, Some(JoinHref))
  }

  /** The bar and the fragments written, in order, after a sequence of inputs. */
  datatype Trace = Trace(navbar: Navbar, written: seq<string>)

  function Run(nb: Navbar, events: seq<Event>): Trace
    decreases |events|
  {
    if |events| == 0 then Trace(nb, [])
    else
      var o := Apply(nb, events[0]);
      var rest := Run(o.navbar, events[1..]);
      var w := if o.hashWritten.Some? then [o.hashWritten.value] else [];
      Trace(rest.navbar, w + rest.written)
  }

  /** A hidden bar is always a scrolled bar whose last offset is past the hide threshold. */
  ghost predicate Good(nb: Navbar)
  {
    !nb.showNavbar ==> nb.scrolled && nb.lastScrollY > HideThreshold
  }

  lemma ApplyKeepsGood(nb: Navbar, e: Event)
    requires Good(nb)
    ensures Good(Apply(nb, e).navbar)
  {
  }

  /** The last scroll event, if any, decides the remembered offset. */
  function LastOffset(start: int, events: seq<Event>): int
    decreases |events|
  {
    if |events| == 0 then start
    else if events[|events| - 1].Scrolled? then events[|events| - 1].y
    else LastOffset(start, events[..|events| - 1])
  }

  /**
    Along any run from a good bar the invariant holds, every written
    fragment is one of the bar's targets, and the remembered offset is that
    of the most recent scroll event.
   */
  lemma {:induction false} RunKeepsGood(nb: Navbar, events: seq<Event>)
    requires Good(nb)
    ensures Good(Run(nb, events).navbar)
    ensures forall k :: 0 <= k < |Run(nb, events).written| ==> IsTarget(Run(nb, events).written[k])
    ensures Run(nb, events).navbar.lastScrollY == LastOffset(nb.lastScrollY, events)
    decreases |events|
  {
    if |events| > 0 {
      var o := Apply(nb, events[0]);
      ApplyKeepsGood(nb, events[0]);
      RunKeepsGood(o.navbar, events[1..]);
      LastOffsetCons(nb, events);
    }
  }

  lemma {:induction false} LastOffsetCons(nb: Navbar, events: seq<Event>)
    requires |events| > 0
    ensures LastOffset(Apply(nb, events[0]).navbar.lastScrollY, events[1..]) == LastOffset(nb.lastScrollY, events)
    decreases |events|
  {
    var start := Apply(nb, events[0]).navbar.lastScrollY;
    if |events| > 1 {
      var last := |events| - 1;
      assert events[1..][..|events[1..]| - 1] == events[..last][1..];
      if !events[last].Scrolled? {
        LastOffsetCons(nb, events[..last]);
        assert events[..last][0] == events[0];
      }
    }
  }

  /** The fragments the bar can write. */
  predicate IsTarget(href: string)
  {
    href == HomeHref || href == JoinHref || exists i :: 0 <= i < |NavLinks| && NavLinks[i].href == href
  }

  /** The page each section link is meant to open. */
  const LinkPages: seq<HashRouter.Page> := [
    HashRouter.FeaturesPage, HashRouter.ProgramsPage, HashRouter.MentorsPage,
    HashRouter.PricingPage, HashRouter.AboutPage
  ]

  lemma RoutesTo(href: string, p: HashRouter.Page)
    requires href == "#" + HashRouter.KeyOf(p)
    ensures HashRouter.RenderPage(HashRouter.RouteKey(href)) == p
  {
  }

  /** Section link `i` is routed to its page. */
  lemma LinkReachesItsPage(i: nat)
    requires i < |NavLinks|
    ensures i < |LinkPages|
    ensures HashRouter.RenderPage(HashRouter.RouteKey(NavLinks[i].href)) == LinkPages[i]
  {
  }

  /** The logo leads home; both "Get Started" buttons lead to the onboarding flow, which draws no footer. */
  lemma ButtonsReachTheirPages()
    ensures HashRouter.RenderPage(HashRouter.RouteKey(HomeHref)) == HashRouter.HomePage
    ensures HashRouter.RenderPage(HashRouter.RouteKey(JoinHref)) == HashRouter.OnboardingFlowPage
    ensures !HashRouter.ShowsFooter(HashRouter.RouteKey(JoinHref))
  {
  }

  /** Every section link is routed by the shell to the section it names. */
  lemma LinksReachTheirPages()
    ensures |LinkPages| == |NavLinks|
    ensures forall i :: 0 <= i < |NavLinks| ==>
      HashRouter.RenderPage(HashRouter.RouteKey(NavLinks[i].href)) == LinkPages[i]
  {
  }
}
