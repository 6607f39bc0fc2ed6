/**
 * The application shell: a hand-written history stack instead of a router, the
 * `navigate`/`goBack` updaters applied to the one `navState` cell, and the render
 * guard that decides which screen shows for the current state.
 */
module App {
  import opened Common

  /**
   * The logical pages. Callers hand `navigate` plain strings cast to `Page`; a string
   * that names none of the eighteen pages reaches the state as it is: `Unrouted(name)`.
   */
  datatype Page =
    | Home | Auth | Disciplines | Discipline | Category | Technique | Dashboard | News | Account
    | PrivacyPolicy | TermsOfService | CookiePolicy | Disclaimer | Legal | AboutUs | Vision
    | Contact | Affiliates
    | Unrouted(name: string)

  /** The string a page is called by. */
  function Name(p: Page): string {
    match p
    case Home => "Home"
    case Auth => "Auth"
    case Disciplines => "Disciplines"
    case Discipline => "Discipline"
    case Category => "Category"
    case Technique => "Technique"
    case Dashboard => "Dashboard"
    case News => "News"
    case Account => "Account"
    case PrivacyPolicy => "PrivacyPolicy"
    case TermsOfService => "TermsOfService"
    case CookiePolicy => "CookiePolicy"
    case Disclaimer => "Disclaimer"
    case Legal => "Legal"
    case AboutUs => "AboutUs"
    case Vision => "Vision"
    case Contact => "Contact"
    case Affiliates => "Affiliates"
    case Unrouted(n) => n
  }

  /** `page as Page`: the page a string names, compared exactly. */
  function PageNamed(s: string): (p: Page)
    ensures Name(p) == s
    ensures p.Unrouted? ==> forall q: Page :: !q.Unrouted? ==> Name(q) != s
  {
    if s == "Home" then Home
    else if s == "Auth" then Auth
    else if s == "Disciplines" then Disciplines
    else if s == "Discipline" then Discipline
    else if s == "Category" then Category
    else if s == "Technique" then Technique
    else if s == "Dashboard" then Dashboard
    else if s == "News" then News
    else if s == "Account" then Account
    else if s == "PrivacyPolicy" then PrivacyPolicy
    else if s == "TermsOfService" then TermsOfService
    else if s == "CookiePolicy" then CookiePolicy
    else if s == "Disclaimer" then Disclaimer
    else if s == "Legal" then Legal
    else if s == "AboutUs" then AboutUs
    else if s == "Vision" then Vision
    else if s == "Contact" then Contact
    else if s == "Affiliates" then Affiliates
    else Unrouted(s)
  }

  /** Naming a known page and reading the name back gives the same page. */
  lemma PageNamedName(p: Page)
    requires !p.Unrouted?
    ensures PageNamed(Name(p)) == p
  {
  }

  /** The navigation state: the page, the entity ids it was reached with, and every prior state. */
  datatype NavState = NavState(
    page: Page,
    disciplineId: Option<string>,
    categoryId: Option<string>,
    techniqueId: Option<string>,
    history: seq<NavState>)

  /** The state the shell starts in. */
  const Initial: NavState := NavState(Home, None, None, None, [])

  /**
   * `navigate(page, id)`: push a copy of the whole prior state and carry the ids forward
   * according to the kind of the target page.
   */
  function Navigate(s: NavState, page: Page, id: Option<string>): (r: NavState)
    ensures r.page == page
    ensures |r.history| == |s.history| + 1
    ensures r.history[|s.history|] == s && r.history[..|s.history|] == s.history
    ensures page == Discipline ==>
      r.disciplineId == id && r.categoryId.None? && r.techniqueId.None?
    ensures page == Category ==>
      r.categoryId == id && r.disciplineId == s.disciplineId && r.techniqueId.None?
    ensures page == Technique ==>
      r.techniqueId == id && r.categoryId == s.categoryId && r.disciplineId == s.disciplineId
    ensures page !in {Discipline, Category, Technique} ==>
      r.disciplineId.None? && r.categoryId.None? && r.techniqueId.None?
  {
    var pushed := NavState(page, None, None, None, s.history + [s]);
    match page
    case Discipline => pushed.(disciplineId := id)
    case Category => pushed.(categoryId := id, disciplineId := s.disciplineId)
    case Technique => pushed.(techniqueId := id, categoryId := s.categoryId, disciplineId := s.disciplineId)
    case _ => pushed
  }

  /** `goBack()`: restore the top entry with the stack below it, or reset to Home on an empty stack. */
  function GoBack(s: NavState): (r: NavState)
    ensures s.history == [] ==> r == Initial
    ensures s.history != [] ==>
      |r.history| == |s.history| - 1 && r.history == s.history[..|s.history| - 1]
    ensures s.history != [] ==>
      var top := s.history[|s.history| - 1];
      r.page == top.page && r.disciplineId == top.disciplineId &&
      r.categoryId == top.categoryId && r.techniqueId == top.techniqueId
  {
    if |s.history| == 0 then Initial
    else s.history[|s.history| - 1].(history := s.history[..|s.history| - 1])
  }

  /** Going back right after navigating restores the state exactly, ids and history included. */
  lemma GoBackAfterNavigate(s: NavState, page: Page, id: Option<string>)
    ensures GoBack(Navigate(s, page, id)) == s
  {
    var n := Navigate(s, page, id);
    assert n.history[..|n.history| - 1] == s.history;
    assert n.history[|n.history| - 1] == s;
  }

  /** Every history entry carries exactly the entries below it as its own history. */
  ghost predicate WellFormed(s: NavState) {
    forall i :: 0 <= i < |s.history| ==> s.history[i].history == s.history[..i]
  }

  lemma InitialWellFormed()
    ensures WellFormed(Initial)
  {
  }

  /** `navigate` keeps the history well formed. */
  lemma NavigateKeepsWellFormed(s: NavState, page: Page, id: Option<string>)
    requires WellFormed(s)
    ensures WellFormed(Navigate(s, page, id))
  {
    var r := Navigate(s, page, id);
    forall i | 0 <= i < |r.history|
      ensures r.history[i].history == r.history[..i]
    {
      if i < |s.history| {
        assert r.history[i] == s.history[i];
        assert r.history[..i] == s.history[..i];
      } else {
        assert r.history[..i] == s.history;
      }
    }
  }

  /** `goBack` keeps the history well formed. */
  lemma GoBackKeepsWellFormed(s: NavState)
    requires WellFormed(s)
    ensures WellFormed(GoBack(s))
  {
    if s.history != [] {
      var r := GoBack(s);
      forall i | 0 <= i < |r.history|
        ensures r.history[i].history == r.history[..i]
      {
        assert r.history[i] == s.history[i];
        assert r.history[..i] == s.history[..i];
      }
    }
  }

  /** On a well-formed state with a non-empty stack, `goBack` yields the top entry itself. */
  lemma GoBackRestoresTop(s: NavState)
    requires WellFormed(s) && s.history != []
    ensures GoBack(s) == s.history[|s.history| - 1]
  {
  }

  /** A user action on the shell. */
  datatype Action = Go(page: Page, id: Option<string>) | Back

  /** The state after a sequence of actions. */
  function Run(s: NavState, actions: seq<Action>): NavState
    decreases |actions|
  {
    if actions == [] then s
    else
      var next := match actions[0]
        case Go(p, id) => Navigate(s, p, id)
        case Back => GoBack(s);
      Run(next, actions[1..])
  }

  /** Every state the shell can reach from its start is well formed. */
  lemma {:induction false} RunKeepsWellFormed(s: NavState, actions: seq<Action>)
    requires WellFormed(s)
    ensures WellFormed(Run(s, actions))
    decreases |actions|
  {
    if actions != [] {
      match actions[0]
      case Go(p, id) =>
        NavigateKeepsWellFormed(s, p, id);
        RunKeepsWellFormed(Navigate(s, p, id), actions[1..]);
      case Back =>
        GoBackKeepsWellFormed(s);
        RunKeepsWellFormed(GoBack(s), actions[1..]);
    }
  }

  /** What the shell shows: the loading view, the sign-in view, or the main layout with at most one page body. */
  datatype Screen = LoadingView | AuthView | MainView(body: Option<Page>)

  /** The page body rendered inside the main layout, following the chain of conditional renders. */
  function Body(s: NavState, signedIn: bool): Option<Page> {
    match s.page
    case Discipline => if Truthy(s.disciplineId) then Some(Discipline) else None
    case Category => if Truthy(s.categoryId) then Some(Category) else None
    case Technique => if Truthy(s.techniqueId) then Some(Technique) else None
    case Dashboard => if signedIn then Some(Dashboard) else None
    case Account => if signedIn then Some(Account) else None
    case Auth => None
    case Unrouted(_) => None
    case _ => Some(s.page)
  }

  /** The render decision of the shell. */
  function Render(loading: bool, signedIn: bool, s: NavState): (v: Screen)
    ensures loading ==> v == LoadingView
    ensures !loading && !signedIn && s.page != Home ==> v == AuthView
    ensures v.MainView? ==> !loading && (signedIn || s.page == Home)
    ensures v.MainView? && v.body.Some? ==> v.body.value == s.page && s.page != Auth && !s.page.Unrouted?
    ensures v == MainView(Some(Discipline)) ==> Truthy(s.disciplineId)
    ensures v == MainView(Some(Category)) ==> Truthy(s.categoryId)
    ensures v == MainView(Some(Technique)) ==> Truthy(s.techniqueId)
    ensures v == MainView(Some(Dashboard)) || v == MainView(Some(Account)) ==> signedIn
  {
    if loading then LoadingView
    else if !signedIn && s.page != Home then AuthView
    else MainView(Body(s, signedIn))
  }

  /** A signed-out visitor sees only the Home page or the sign-in view, whatever the state. */
  lemma SignedOutSeesHomeOrAuth(s: NavState)
    ensures Render(false, false, s) == AuthView || Render(false, false, s) == MainView(Some(Home))
  {
  }

  /** A signed-in user who navigates to a technique with a non-empty id sees the technique page. */
  lemma NavigateToTechniqueShowsIt(s: NavState, id: string)
    requires id != ""
    ensures Render(false, true, Navigate(s, Technique, Some(id))) == MainView(Some(Technique))
    ensures Navigate(s, Technique, Some(id)).techniqueId == Some(id)
  {
  }

  /** The one mutable `navState` cell of the shell; `navigate` and `goBack` replace its value. */
  class Shell {
    var navState: NavState

    ghost predicate Valid()
      reads this
    {
      WellFormed(navState)
    }

    constructor ()
      ensures Valid() && navState == Initial
    {
      navState := Initial;
    }

    /** `navigate(page, id)`; the scroll to the top of the window is not modelled. */
    method OnNavigate(page: Page, id: Option<string>)
      requires Valid()
      modifies this
      ensures Valid()
      ensures navState == Navigate(old(navState), page, id)
    {
      NavigateKeepsWellFormed(navState, page, id);
      navState := Navigate(navState, page, id);
    }

    /** `goBack()`; the scroll to the top of the window is not modelled. */
    method OnBack()
      requires Valid()
      modifies this
      ensures Valid()
      ensures navState == GoBack(old(navState))
      ensures old(navState.history) != [] ==> navState == old(navState.history[|navState.history| - 1])
    {
      GoBackKeepsWellFormed(navState);
      if navState.history != [] {
        GoBackRestoresTop(navState);
      }
      navState := GoBack(navState);
    }
  }
}
