/**
  The application shell: the current page is a string taken from the URL
  fragment, a switch maps it to a page component (falling back to the home
  page), and the footer is drawn on every page except the onboarding flow.
 */
module HashRouter {

  /** The page components the shell can render. */
  datatype Page =
    | HomePage | FeaturesPage | ProgramsPage | MentorsPage | PricingPage | AboutPage
    | CareersPage | BlogPage | ContactPage | HelpCenterPage | TermsPage | PrivacyPage
    | FaqPage | OnboardingFlowPage

  /** `window.location.hash.slice(1) || 'home'`: drop the first character; nothing left means home. */
  function RouteKey(hash: string): (key: string)
    ensures key != ""
    ensures |hash| >= 2 ==> key == hash[1..]
    ensures |hash| <= 1 ==> key == "home"
  {
    var rest := if |hash| == 0 then "" else hash[1..];
    if rest == "" then "home" else rest
  }

  /** The switch label that selects each page. */
  function KeyOf(p: Page): string
  {
    match p
    case HomePage => "home"
    case FeaturesPage => "features"
    case ProgramsPage => "programs"
    case MentorsPage => "mentors"
    case PricingPage => "pricing"
    case AboutPage => "about"
    case CareersPage => "careers"
    case BlogPage => "blog"
    case ContactPage => "contact"
    case HelpCenterPage => "help"
    case TermsPage => "terms"
    case PrivacyPage => "privacy"
    case FaqPage => "faq"
    case OnboardingFlowPage => "join"
  }

  /** `renderPage`: exact, case-sensitive matching; anything else is the home page. */
  function RenderPage(key: string): (p: Page)
    ensures (exists q :: KeyOf(q) == key) ==> KeyOf(p) == key
    ensures (forall q :: KeyOf(q) != key) ==> p == HomePage
  {
    if key == "home" then HomePage
    else if key == "features" then FeaturesPage
    else if key == "programs" then ProgramsPage
    else if key == "mentors" then MentorsPage
    else if key == "pricing" then PricingPage
    else if key == "about" then AboutPage
    else if key == "careers" then CareersPage
    else if key == "blog" then BlogPage
    else if key == "contact" then ContactPage
    else if key == "help" then HelpCenterPage
    else if key == "terms" then TermsPage
    else if key == "privacy" then PrivacyPage
    else if key == "faq" then FaqPage
    else if key == "join" then OnboardingFlowPage
    else HomePage
  }

  /** Every page has its own label: the fourteen labels are distinct and each dispatches to its page. */
  lemma DispatchRoundTrip(p: Page)
    ensures RenderPage(KeyOf(p)) == p
  {
  }

  /** The footer is drawn unless the stored key is exactly "join". */
  predicate ShowsFooter(currentPage: string)
  {
    currentPage != "join"
  }

  /** The footer is hidden exactly when the onboarding flow is on screen, unknown keys included. */
  lemma FooterIffNotOnboarding(key: string)
    ensures ShowsFooter(key) <==> RenderPage(key) != OnboardingFlowPage
  {
  }

  /** Matching is case-sensitive: "Join" renders home and keeps the footer. */
  lemma CaseSensitive()
    ensures RenderPage("Join") == HomePage && ShowsFooter("Join")
  {
  }

  /** Writing "#" + key into the fragment reads back as that key. */
  lemma HashRoundTrip(key: string)
    requires key != ""
    ensures RouteKey("#" + key) == key
  {
  }

  /** The shell's state: the raw route key, unrecognised keys included. */
  datatype App = App(currentPage: string)

  /** `useState('home')`, before the mount effect runs. */
  function Initial(): (a: App)
    ensures a.currentPage == "home" && RenderPage(a.currentPage) == HomePage
  {
    App("home")
  }

  /** `handleHashChange`: stores the key read from the fragment. */
  function HandleHashChange(a: App, hash: string): (r: App)
    ensures r.currentPage == RouteKey(hash)
    ensures |hash| >= 2 && (forall q :: KeyOf(q) != hash[1..]) ==>
              r.currentPage == hash[1..] && RenderPage(r.currentPage) == HomePage
  {
    App(RouteKey(hash))
  }

  /** The mount effect: the handler runs once on the current fragment. */
  function Mount(hash: string): (a: App)
    ensures a.currentPage == RouteKey(hash)
    ensures |hash| <= 1 ==> a == Initial()
  {
    HandleHashChange(Initial(), hash)
  }

  /** The shell after the `hashchange` events, in the order they fire. */
  function Run(a: App, changes: seq<string>): App
    decreases |changes|
  {
    if |changes| == 0 then a else Run(HandleHashChange(a, changes[0]), changes[1..])
  }

  /** Only the latest fragment matters: history does not influence the page shown. */
  lemma {:induction false} RunShowsLatest(a: App, changes: seq<string>)
    ensures Run(a, changes).currentPage
            == if |changes| == 0 then a.currentPage else RouteKey(changes[|changes| - 1])
    decreases |changes|
  {
    if |changes| > 1 {
      RunShowsLatest(HandleHashChange(a, changes[0]), changes[1..]);
    }
  }

  /** A whole session: mounted on `initial`, then the changes; the page follows the latest fragment. */
  lemma SessionShowsLatest(initial: string, changes: seq<string>)
    ensures Run(Mount(initial), changes).currentPage
            == RouteKey(if |changes| == 0 then initial else changes[|changes| - 1])
  {
    RunShowsLatest(Mount(initial), changes);
  }
}
