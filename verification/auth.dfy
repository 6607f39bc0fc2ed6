/**
 * The sign-in / sign-up form: the ordered agreement checks of sign-up, the submit-disabled
 * predicate, the routing after the backend replies, and the mode toggle.
 */
module AuthPage {
  import opened Common
  import opened Rows
  import App

  /** The waiver version that sign-up records. */
  const WaiverVersion: string := "1.0_Feb_2026"

  const AgeMessage: string := "You must confirm that you are 16 years or older"
  const TermsMessage: string := "You must accept the Terms of Service"
  const WaiverMessage: string := "You must accept the Training Waiver"
  const LiabilityMessage: string := "You must accept the Liability Disclaimer"

  /** The four boxes a new member must tick. */
  datatype Agreements = Agreements(age: bool, terms: bool, waiver: bool, liability: bool)

  const NoAgreements: Agreements := Agreements(false, false, false, false)

  predicate AllAccepted(a: Agreements) {
    a.age && a.terms && a.waiver && a.liability
  }

  /** The sign-up checks in order: the message of the first unticked box, if any. */
  function FirstUnmet(a: Agreements): (r: Option<string>)
    ensures r.None? <==> AllAccepted(a)
    ensures r == Some(AgeMessage) <==> !a.age
    ensures r == Some(TermsMessage) <==> a.age && !a.terms
    ensures r == Some(WaiverMessage) <==> a.age && a.terms && !a.waiver
    ensures r == Some(LiabilityMessage) <==> a.age && a.terms && a.waiver && !a.liability
  {
    if !a.age then Some(AgeMessage)
    else if !a.terms then Some(TermsMessage)
    else if !a.waiver then Some(WaiverMessage)
    else if !a.liability then Some(LiabilityMessage)
    else None
  }

  /** Whether the submit button is disabled. */
  function SubmitDisabled(loading: bool, isSignUp: bool, a: Agreements): (d: bool)
    ensures d <==> loading || (isSignUp && !AllAccepted(a))
  {
    loading || (isSignUp && (!a.age || !a.terms || !a.waiver || !a.liability))
  }

  /** A submit the button allows always passes the agreement checks. */
  lemma EnabledSubmitPassesChecks(loading: bool, isSignUp: bool, a: Agreements)
    requires !SubmitDisabled(loading, isSignUp, a)
    ensures isSignUp ==> FirstUnmet(a).None?
  {
  }

  /** What the backend answers to the credentials: an error message, or success with the user if any. */
  datatype Reply = Failed(message: string) | Succeeded(userId: Option<string>)

  /** The effect of one submit: the error shown, whether the credentials were sent, the acceptance recorded and the page opened. */
  datatype Outcome = Outcome(error: string, sent: bool, acceptance: Option<Acceptance>, target: Option<App.Page>)

  /** `handleSubmit` as a decision on the mode, the boxes and the reply. */
  function SubmitOutcome(isSignUp: bool, a: Agreements, reply: Reply): (o: Outcome)
    ensures isSignUp && !AllAccepted(a) ==>
      o == Outcome(FirstUnmet(a).value, false, None, None)
    ensures !isSignUp || AllAccepted(a) ==> o.sent
    ensures o.sent && reply.Failed? ==> o.error == reply.message && o.acceptance.None? && o.target.None?
    ensures o.acceptance.Some? <==> isSignUp && AllAccepted(a) && reply.Succeeded? && reply.userId.Some?
    ensures o.acceptance.Some? ==> o.acceptance.value == Acceptance(reply.userId.value, WaiverVersion)
    ensures o.target == Some(App.Account) <==> o.acceptance.Some?
    ensures o.target == Some(App.Dashboard) <==> !isSignUp && reply.Succeeded?
    ensures o.target.Some? ==> o.error == ""
    ensures o.target.None? || o.target == Some(App.Account) || o.target == Some(App.Dashboard)
    ensures o.sent && reply.Succeeded? ==> o.error == ""
  {
    if isSignUp && FirstUnmet(a).Some? then Outcome(FirstUnmet(a).value, false, None, None)
    else match reply
      case Failed(m) => Outcome(m, true, None, None)
      case Succeeded(u) =>
        if !isSignUp then Outcome("", true, None, Some(App.Dashboard))
        else if u.Some? then Outcome("", true, Some(Acceptance(u.value, WaiverVersion)), Some(App.Account))
        else Outcome("", true, None, None)
  }

  /** Signing in does not look at the boxes. */
  lemma SignInIgnoresAgreements(a: Agreements, b: Agreements, reply: Reply)
    ensures SubmitOutcome(false, a, reply) == SubmitOutcome(false, b, reply)
  {
  }

  /** A sign-up that reaches the backend records its acceptance whenever a user comes back. */
  lemma SignUpRecordsAcceptance(a: Agreements, userId: string)
    requires AllAccepted(a)
    ensures SubmitOutcome(true, a, Succeeded(Some(userId))).acceptance == Some(Acceptance(userId, WaiverVersion))
    ensures SubmitOutcome(true, a, Succeeded(Some(userId))).target == Some(App.Account)
  {
  }

  /** The state cells of the form that its handlers update; e-mail and password are passed through. */
  class AuthForm {
    var isSignUp: bool
    var loading: bool
    var error: string
    var agreements: Agreements

    constructor ()
      ensures !isSignUp && !loading && error == "" && agreements == NoAgreements
    {
      isSignUp := false;
      loading := false;
      error := "";
      agreements := NoAgreements;
    }

    /** `toggleMode`: flip the mode, clear the error and untick every box. */
    method ToggleMode()
      modifies this
      ensures isSignUp == !old(isSignUp)
      ensures error == "" && agreements == NoAgreements
      ensures loading == old(loading)
    {
      isSignUp := !isSignUp;
      error := "";
      agreements := NoAgreements;
    }

    /** `handleSubmit`: validate, call the backend, and report what to record and where to go. */
    method HandleSubmit(reply: Reply) returns (o: Outcome)
      modifies this
      ensures o == SubmitOutcome(old(isSignUp), old(agreements), reply)
      ensures error == o.error
      ensures o.sent ==> !loading
      ensures !o.sent ==> loading == old(loading)
      ensures isSignUp == old(isSignUp) && agreements == old(agreements)
    {
      error := "";
      if isSignUp {
        var unmet := FirstUnmet(agreements);
        if unmet.Some? {
          error := unmet.value;
          o := Outcome(error, false, None, None);
          return;
        }
      }
      loading := true;
      var acceptance: Option<Acceptance> := None;
      var target: Option<App.Page> := None;
      match reply {
        case Failed(m) =>
          error := m;
        case Succeeded(u) =>
          if !isSignUp {
            target := Some(App.Dashboard);
          } else if u.Some? {
            acceptance := Some(Acceptance(u.value, WaiverVersion));
            target := Some(App.Account);
          }
      }
      o := Outcome(error, true, acceptance, target);
      loading := false;
    }
  }
}
