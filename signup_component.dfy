/**
  * The sign-up screen as a stateful component: the six text fields and the
  * two flags are fields updated in place, and each handler is a method.
  * Every method is proved to do what the matching function of SignUpFlow
  * says, so the properties proved there hold of the component.
  */
module SignUpComponent {
  import opened Wrappers
  import opened SignUpFlow

  class SignUpScreen {
    var id: string
    var email: string
    var phoneNumber: string
    var certificationNumber: string
    var password: string
    var confirmPassword: string
    var isEmailVerified: bool
    var isCertificationSent: bool

    /** The component state as a value. */
    function State(): Form
      reads this
    {
      Form(id, email, phoneNumber, certificationNumber, password, confirmPassword,
           isEmailVerified, isCertificationSent)
    }

    /** A freshly mounted screen: empty inputs, nothing sent, nothing verified. */
    constructor ()
      ensures State() == InitialForm
    {
      id, email, phoneNumber, certificationNumber := "", "", "", "";
      password, confirmPassword := "", "";
      isEmailVerified, isCertificationSent := false, false;
    }

    /** Typing into an input: that field takes the new text and nothing else changes. */
    method Edit(field: Field, value: string)
      modifies this
      ensures State() == SetField(old(State()), field, value)
      ensures isEmailVerified == old(isEmailVerified)
      ensures isCertificationSent == old(isCertificationSent)
    {
      match field
      case Id => id := value;
      case Email => email := value;
      case PhoneNumber => phoneNumber := value;
      case CertificationNumber => certificationNumber := value;
      case Password => password := value;
      case ConfirmPassword => confirmPassword := value;
    }

    /**
      * `sendEmailCertification`: posts the id and email; on success marks
      * the email as sent, on failure classifies the error.
      */
    method SendEmailCertification(outcome: Outcome) returns (request: Request, alert: Alert)
      modifies this
      ensures request == EmailCertificationRequest(old(id), old(email))
      ensures isCertificationSent == (old(isCertificationSent) || outcome.Succeeded?)
      ensures State() == old(State()).(isCertificationSent := isCertificationSent)
      ensures outcome.Failed? ==> alert == EmailCertificationErrorAlert(outcome.error)
      ensures Reaction(State(), Some(request), alert, None)
              == SignUpFlow.SendEmailCertification(old(State()), outcome)
    {
      request := EmailCertificationRequest(id, email);
      if outcome.Succeeded? {
        alert := CertificationEmailSent;
        isCertificationSent := true;
      } else {
        alert := EmailCertificationErrorAlert(outcome.error);
      }
    }

    /**
      * `checkCertification`: posts the id, email and certification number;
      * on success marks the email as verified.
      */
    method CheckCertification(outcome: Outcome) returns (request: Request, alert: Alert)
      modifies this
      ensures request == CheckCertificationRequest(old(id), old(email), old(certificationNumber))
      ensures isEmailVerified == (old(isEmailVerified) || outcome.Succeeded?)
      ensures State() == old(State()).(isEmailVerified := isEmailVerified)
      ensures Reaction(State(), Some(request), alert, None)
              == SignUpFlow.CheckCertification(old(State()), outcome)
    {
      request := CheckCertificationRequest(id, email, certificationNumber);
      if outcome.Succeeded? {
        alert := CertificationConfirmed;
        isEmailVerified := true;
      } else {
        alert := CertificationCheckFailed;
      }
    }

    /**
      * `signUp`: returns early, without a request, when the email is not
      * verified or the passwords differ; otherwise posts the form and, on
      * success, navigates to the login screen. The state is left unchanged.
      */
    method SignUp(outcome: Outcome) returns (request: Option<Request>, alert: Alert,
                                             navigateTo: Option<Screen>)
      ensures request.Some? <==> isEmailVerified && password == confirmPassword
      ensures request.Some? ==>
                request.value == SignUpRequest(id, password, email, phoneNumber, certificationNumber)
      ensures navigateTo == Some(Login) <==> request.Some? && outcome.Succeeded?
      ensures Reaction(State(), request, alert, navigateTo) == SignUpFlow.SignUp(State(), outcome)
    {
      navigateTo := None;
      if !isEmailVerified {
        request, alert := None, VerifyEmailFirst;
        return;
      }
      if password != confirmPassword {
        request, alert := None, PasswordMismatch;
        return;
      }
      request := Some(SignUpRequest(id, password, email, phoneNumber, certificationNumber));
      if outcome.Succeeded? {
        alert := SignUpSucceeded;
        navigateTo := Some(Login);
      } else {
        alert := SignUpFailed;
      }
    }
  }

}
