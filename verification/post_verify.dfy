/**
 * The page shown after e-mail verification: it routes a member who has already accepted the
 * current waiver on to profile creation, and otherwise shows the waiver until it is accepted.
 * The acceptance table is a parameter: the sequence of its rows.
 */
module PostVerifyPage {
  import opened Common
  import opened Rows
  import AuthPage

  /** The waiver version this page asks for and records. */
  const WaiverVersion: string := "1.0_Jan_2026"

  /** A router navigation: the path and whether it replaces the current history entry. */
  datatype Nav = Nav(path: string, replace: bool)

  /** The rows the status query selects: this user's acceptances of this page's waiver version. */
  function Matching(store: seq<Acceptance>, userId: string): (m: seq<Acceptance>)
    ensures forall a :: a in m <==> a in store && a.userId == userId && a.waiverVersion == WaiverVersion
    ensures m == [] <==> forall a :: a in store ==> !(a.userId == userId && a.waiverVersion == WaiverVersion)
    ensures |m| <= |store|
  {
    if store == [] then []
    else
      var rest := Matching(store[1..], userId);
      if store[0].userId == userId && store[0].waiverVersion == WaiverVersion then [store[0]] + rest else rest
  }

  /** What `checkWaiverStatus` decides. */
  datatype Decision =
    | RedirectToAuth          // no user: leave for the sign-in page, without a query
    | RedirectToCreateProfile // exactly one matching acceptance
    | ShowWaiver              // no matching acceptance
    | StayLoading             // the query failed, or `maybeSingle` met several rows

  /** `checkWaiverStatus` as a decision on the user, the table and whether the query fails. */
  function Decide(userId: Option<string>, store: seq<Acceptance>, queryFails: bool): (d: Decision)
    ensures d == RedirectToAuth <==> userId.None?
    ensures d == RedirectToCreateProfile <==> userId.Some? && !queryFails && |Matching(store, userId.value)| == 1
    ensures d == ShowWaiver <==> userId.Some? && !queryFails && Matching(store, userId.value) == []
    ensures d == StayLoading <==> userId.Some? && (queryFails || |Matching(store, userId.value)| >= 2)
  {
    if userId.None? then RedirectToAuth
    else if queryFails then StayLoading
    else
      var m := Matching(store, userId.value);
      if MaybeSingle(m).Some? then RedirectToCreateProfile
      else if |m| == 0 then ShowWaiver
      else StayLoading
  }

  /** The navigation a decision makes. */
  function NavOf(d: Decision): (n: Option<Nav>)
    ensures n.Some? <==> d == RedirectToAuth || d == RedirectToCreateProfile
    ensures n.Some? ==> n.value.replace
  {
    match d
    case RedirectToAuth => Some(Nav("/auth", true))
    case RedirectToCreateProfile => Some(Nav("/create-profile", true))
    case _ => None
  }

  /** Acceptances recorded at sign-up carry another version, so on their own they never skip the waiver. */
  lemma SignUpAcceptanceDoesNotSkip(store: seq<Acceptance>, userId: string)
    requires forall a :: a in store ==> a.waiverVersion == AuthPage.WaiverVersion
    ensures Decide(Some(userId), store, false) == ShowWaiver
  {
    assert AuthPage.WaiverVersion[5] != WaiverVersion[5];
    assert forall a :: a in store ==> a.waiverVersion != WaiverVersion;
  }

  /** After the member's first acceptance is inserted, the next check routes on to profile creation. */
  lemma AcceptanceThenCheck(store: seq<Acceptance>, userId: string)
    requires Matching(store, userId) == []
    ensures Decide(Some(userId), store + [Acceptance(userId, WaiverVersion)], false) == RedirectToCreateProfile
  {
    MatchingAppend(store, userId, Acceptance(userId, WaiverVersion));
  }

  /** Matching distributes over appending one row. */
  lemma {:induction false} MatchingAppend(store: seq<Acceptance>, userId: string, a: Acceptance)
    ensures Matching(store + [a], userId) ==
      Matching(store, userId) + (if a.userId == userId && a.waiverVersion == WaiverVersion then [a] else [])
    decreases |store|
  {
    if store == [] {
      assert store + [a] == [a];
    } else {
      assert (store + [a])[1..] == store[1..] + [a];
      MatchingAppend(store[1..], userId, a);
    }
  }

  /** Whether the accept button is disabled. */
  function AcceptDisabled(accepted: bool, accepting: bool): (d: bool)
    ensures !d <==> accepted && !accepting
  {
    !accepted || accepting
  }

  /** What the member sees: the loading screen, or the waiver. */
  datatype Screen = LoadingScreen | WaiverScreen

  function ScreenOf(loading: bool, showWaiver: bool): (s: Screen)
    ensures s == WaiverScreen <==> !loading && showWaiver
  {
    if loading || !showWaiver then LoadingScreen else WaiverScreen
  }

  /** The state cells of the page. */
  class PostVerifyView {
    var loading: bool
    var showWaiver: bool
    var accepting: bool
    var accepted: bool

    constructor ()
      ensures loading && !showWaiver && !accepting && !accepted
    {
      loading := true;
      showWaiver := false;
      accepting := false;
      accepted := false;
    }

    /** `checkWaiverStatus`: route or reveal the waiver; the loading flag drops once a query ran. */
    method CheckWaiverStatus(userId: Option<string>, store: seq<Acceptance>, queryFails: bool)
      returns (nav: Option<Nav>)
      modifies this
      ensures nav == NavOf(Decide(userId, store, queryFails))
      ensures userId.None? ==> loading == old(loading) && showWaiver == old(showWaiver)
      ensures userId.Some? ==> !loading
      ensures showWaiver == (old(showWaiver) || Decide(userId, store, queryFails) == ShowWaiver)
      ensures accepting == old(accepting) && accepted == old(accepted)
    {
      var d := Decide(userId, store, queryFails);
      nav := NavOf(d);
      if userId.None? {
        return;
      }
      if d == ShowWaiver {
        showWaiver := true;
      }
      loading := false;
    }

    /** The waiver checkbox: ticking or unticking it sets `accepted` and nothing else. */
    method SetAccepted(checked: bool)
      modifies this
      ensures accepted == checked
      ensures loading == old(loading) && showWaiver == old(showWaiver) && accepting == old(accepting)
    {
      accepted := checked;
    }

    /**
     * `handleAcceptWaiver`: without a user or a ticked box nothing happens; otherwise insert
     * the acceptance and, when the insert succeeds, go on to profile creation.
     */
    method HandleAcceptWaiver(userId: Option<string>, insertOk: bool)
      returns (inserted: Option<Acceptance>, nav: Option<Nav>)
      modifies this
      ensures userId.None? || !old(accepted) ==> inserted.None? && nav.None? && accepting == old(accepting)
      ensures userId.Some? && old(accepted) ==>
        inserted == Some(Acceptance(userId.value, WaiverVersion)) && !accepting &&
        nav == (if insertOk then Some(Nav("/create-profile", false)) else None)
      ensures loading == old(loading) && showWaiver == old(showWaiver) && accepted == old(accepted)
    {
      inserted := None;
      nav := None;
      if userId.None? || !accepted {
        return;
      }
      accepting := true;
      inserted := Some(Acceptance(userId.value, WaiverVersion));
      if insertOk {
        nav := Some(Nav("/create-profile", false));
      }
      accepting := false;
    }
  }
}
