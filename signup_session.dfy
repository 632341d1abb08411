/**
  * Sequences of user actions on the sign-up screen.
  *
  * A user edits inputs and presses buttons; each press of a handler's button
  * comes with the outcome of its backend call. What the screen renders
  * decides which actions are available: the certification-number input and
  * its check button exist only after a certification email has been sent.
  */
module SignUpSession {
  import opened Wrappers
  import opened SignUpFlow
  import opened SignUpView

  /** One user action. */
  datatype Event =
    | Edit(field: Field, value: string)
    | PressSendEmail(outcome: Outcome)
    | PressCheckCertification(outcome: Outcome)
    | PressSignUp(outcome: Outcome)

  /** Whether the screen, in state f, shows the control that e uses. */
  predicate Enabled(f: Form, e: Event) {
    match e
    case Edit(field, _) => field == CertificationNumber ==> ShowsCertificationInput(f)
    case PressCheckCertification(_) => ShowsCertificationInput(f)
    case PressSendEmail(_) => true
    case PressSignUp(_) => true
  }

  /**
    * The state after one action. A flag is never cleared, and a flag is set
    * only by the success of the handler that owns it.
    */
  function Next(f: Form, e: Event): (g: Form)
    ensures f.isCertificationSent ==> g.isCertificationSent
    ensures f.isEmailVerified ==> g.isEmailVerified
    ensures g.isCertificationSent && !f.isCertificationSent ==> e == PressSendEmail(Succeeded)
    ensures g.isEmailVerified && !f.isEmailVerified ==> e == PressCheckCertification(Succeeded)
  {
    match e
    case Edit(field, value) => SetField(f, field, value)
    case PressSendEmail(outcome) => SendEmailCertification(f, outcome).next
    case PressCheckCertification(outcome) => CheckCertification(f, outcome).next
    case PressSignUp(outcome) => SignUp(f, outcome).next
  }

  /** The state after a sequence of actions, the last one applied last. */
  function Run(f: Form, es: seq<Event>): Form
    decreases |es|
  {
    if es == [] then f else Next(Run(f, es[..|es| - 1]), es[|es| - 1])
  }

  /** Every action was available when it was taken. */
  predicate AllEnabled(f: Form, es: seq<Event>) {
    forall k :: 0 <= k < |es| ==> Enabled(Run(f, es[..k]), es[k])
  }

  /** Both flags are monotone over any sequence of actions: nothing sets either back to false. */
  lemma {:induction false} FlagsMonotone(f: Form, es: seq<Event>)
    ensures f.isCertificationSent ==> Run(f, es).isCertificationSent
    ensures f.isEmailVerified ==> Run(f, es).isEmailVerified
    decreases |es|
  {
    if es != [] {
      FlagsMonotone(f, es[..|es| - 1]);
    }
  }

  /** isCertificationSent becomes true only through a successful certification-email request. */
  lemma {:induction false} SentOnlyBySuccessfulSend(f: Form, es: seq<Event>)
    ensures Run(f, es).isCertificationSent ==>
              f.isCertificationSent
              || exists i :: 0 <= i < |es| && es[i] == PressSendEmail(Succeeded)
    decreases |es|
  {
    if es != [] {
      var p := es[..|es| - 1];
      SentOnlyBySuccessfulSend(f, p);
      if Run(f, p).isCertificationSent && !f.isCertificationSent {
        var i :| 0 <= i < |p| && p[i] == PressSendEmail(Succeeded);
        assert es[i] == PressSendEmail(Succeeded);
      }
    }
  }

  /** Dropping the last action keeps every remaining action available. */
  lemma AllEnabledPrefix(f: Form, es: seq<Event>)
    requires es != [] && AllEnabled(f, es)
    ensures AllEnabled(f, es[..|es| - 1])
  {
    var p := es[..|es| - 1];
    forall k | 0 <= k < |p|
      ensures Enabled(Run(f, p[..k]), p[k])
    {
      assert p[..k] == es[..k];
    }
  }

  /**
    * From a fresh screen, the email is verified only after a successful
    * certification-email request followed, later, by a successful
    * certification check.
    */
  lemma {:induction false} VerifiedOnlyAfterSendThenCheck(es: seq<Event>)
    requires AllEnabled(InitialForm, es)
    ensures Run(InitialForm, es).isEmailVerified ==>
              exists i, j :: 0 <= i < j < |es|
                             && es[i] == PressSendEmail(Succeeded)
                             && es[j] == PressCheckCertification(Succeeded)
    decreases |es|
  {
    if es != [] && Run(InitialForm, es).isEmailVerified {
      var n := |es| - 1;
      var p := es[..n];
      AllEnabledPrefix(InitialForm, es);
      VerifiedOnlyAfterSendThenCheck(p);
      if Run(InitialForm, p).isEmailVerified {
        var i, j :| 0 <= i < j < |p|
                    && p[i] == PressSendEmail(Succeeded)
                    && p[j] == PressCheckCertification(Succeeded);
        assert es[i] == p[i] && es[j] == p[j];
      } else {
        assert es[n] == PressCheckCertification(Succeeded);
        assert p == es[..n];
        assert Enabled(Run(InitialForm, p), es[n]);
        SentOnlyBySuccessfulSend(InitialForm, p);
        var i :| 0 <= i < |p| && p[i] == PressSendEmail(Succeeded);
        assert es[i] == p[i];
      }
    }
  }

  /**
    * On a fresh screen, a sign-up request goes out only after a successful
    * email request and a later successful certification check, and only with
    * the two passwords equal.
    */
  lemma SignUpRequestNeedsCertification(es: seq<Event>, outcome: Outcome)
    requires AllEnabled(InitialForm, es)
    requires SignUp(Run(InitialForm, es), outcome).request.Some?
    ensures Run(InitialForm, es).password == Run(InitialForm, es).confirmPassword
    ensures exists i, j :: 0 <= i < j < |es|
                           && es[i] == PressSendEmail(Succeeded)
                           && es[j] == PressCheckCertification(Succeeded)
  {
    VerifiedOnlyAfterSendThenCheck(es);
  }

  /** Once a certification email has been sent, the email button keeps offering to resend. */
  lemma ResendLabelStays(f: Form, es: seq<Event>)
    requires EmailButtonLabel(f) == Resend
    ensures EmailButtonLabel(Run(f, es)) == Resend
  {
    FlagsMonotone(f, es);
  }

}
