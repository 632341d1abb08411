/**
  * The sign-up screen's state and its three button handlers, as values.
  *
  * The screen holds six text fields and two flags. Each handler makes at
  * most one call to the backend; how that call ends is given to the handler as an
  * Outcome, so a handler is a function from the current form and the outcome
  * to a Reaction: the next form, the request it issued (if any), the alert it
  * showed and the screen it navigated to (if any).
  */
module SignUpFlow {
  import opened Wrappers
  import opened PasswordRule

  /** The component state of the sign-up screen. */
  datatype Form = Form(
    id: string,
    email: string,
    phoneNumber: string,
    certificationNumber: string,
    password: string,
    confirmPassword: string,
    isEmailVerified: bool,
    isCertificationSent: bool)

  /** Every text field starts empty and both flags start false. */
  const InitialForm := Form("", "", "", "", "", "", false, false)

  /** The six text fields of the form, each edited through its own input. */
  datatype Field = Id | Email | PhoneNumber | CertificationNumber | Password | ConfirmPassword

  /** The body the server sent with an error response (`error.response.data`). */
  datatype ServerResponse = ServerResponse(message: string)

  /** A rejected backend call: its message, and the server's response when there was one. */
  datatype HttpError = HttpError(message: string, response: Option<ServerResponse>)

  /** How a backend call ends. */
  datatype Outcome = Succeeded | Failed(error: HttpError)

  /** The requests the screen posts, with exactly the fields it sends. */
  datatype Request =
    | EmailCertificationRequest(id: string, email: string)
    | CheckCertificationRequest(id: string, email: string, certificationNumber: string)
    | SignUpRequest(id: string, password: string, email: string, phoneNumber: string,
                    certificationNumber: string)

  /** The alerts the screen shows, one per distinct message. */
  datatype Alert =
    | CertificationEmailSent
    | NetworkErrorAlert
    | ServerErrorAlert(serverMessage: string)
    | UnknownErrorAlert
    | CertificationConfirmed
    | CertificationCheckFailed
    | VerifyEmailFirst
    | PasswordMismatch
    | SignUpSucceeded
    | SignUpFailed

  /** The screens the sign-up screen navigates to. */
  datatype Screen = Login

  /** What one press of a handler's button does. */
  datatype Reaction = Reaction(next: Form, request: Option<Request>, alert: Alert,
                               navigateTo: Option<Screen>)

  /** The message the HTTP client gives an error when no connection could be made. */
  const NetworkErrorMessage := "Network Error"

  // ---------------------------------------------------------------------------
  // Editing a text field
  // ---------------------------------------------------------------------------

  /** Typing into one input replaces that field and leaves everything else as it was. */
  function SetField(f: Form, field: Field, value: string): (r: Form)
    ensures FieldValue(r, field) == value
    ensures forall g: Field :: g != field ==> FieldValue(r, g) == FieldValue(f, g)
    ensures r.isEmailVerified == f.isEmailVerified
    ensures r.isCertificationSent == f.isCertificationSent
  {
    match field
    case Id => f.(id := value)
    case Email => f.(email := value)
    case PhoneNumber => f.(phoneNumber := value)
    case CertificationNumber => f.(certificationNumber := value)
    case Password => f.(password := value)
    case ConfirmPassword => f.(confirmPassword := value)
  }

  function FieldValue(f: Form, field: Field): string {
    match field
    case Id => f.id
    case Email => f.email
    case PhoneNumber => f.phoneNumber
    case CertificationNumber => f.certificationNumber
    case Password => f.password
    case ConfirmPassword => f.confirmPassword
  }

  // ---------------------------------------------------------------------------
  // sendEmailCertification
  // ---------------------------------------------------------------------------

  /**
    * The alert for a failed email-certification call. The three kinds are
    * exclusive and tried in priority order: a network error first (even when
    * a response is present), then a server response, then anything else.
    */
  function EmailCertificationErrorAlert(error: HttpError): (a: Alert)
    ensures a.NetworkErrorAlert? <==> error.message == NetworkErrorMessage
    ensures a.ServerErrorAlert? <==> error.message != NetworkErrorMessage && error.response.Some?
    ensures a.ServerErrorAlert? ==> a.serverMessage == error.response.value.message
    ensures a.UnknownErrorAlert? <==> error.message != NetworkErrorMessage && error.response.None?
  {
    if error.message == NetworkErrorMessage then NetworkErrorAlert
    else if error.response.Some? then ServerErrorAlert(error.response.value.message)
    else UnknownErrorAlert
  }

  /**
    * Requests a certification email for the current id and email. The
    * request is always issued; only success sets isCertificationSent.
    */
  function SendEmailCertification(f: Form, outcome: Outcome): (r: Reaction)
    ensures r.request == Some(EmailCertificationRequest(f.id, f.email))
    ensures r.next == if outcome.Succeeded? then f.(isCertificationSent := true) else f
    ensures r.alert == CertificationEmailSent <==> outcome.Succeeded?
    ensures outcome.Failed? ==> r.alert == EmailCertificationErrorAlert(outcome.error)
    ensures r.navigateTo.None?
  {
    var request := Some(EmailCertificationRequest(f.id, f.email));
    match outcome
    case Succeeded => Reaction(f.(isCertificationSent := true), request, CertificationEmailSent, None)
    case Failed(error) => Reaction(f, request, EmailCertificationErrorAlert(error), None)
  }

  // ---------------------------------------------------------------------------
  // checkCertification
  // ---------------------------------------------------------------------------

  /**
    * Submits the certification number. The request is always issued; only
    * success sets isEmailVerified, and every failure shows the same alert.
    */
  function CheckCertification(f: Form, outcome: Outcome): (r: Reaction)
    ensures r.request == Some(CheckCertificationRequest(f.id, f.email, f.certificationNumber))
    ensures r.next == if outcome.Succeeded? then f.(isEmailVerified := true) else f
    ensures r.alert == (if outcome.Succeeded? then CertificationConfirmed else CertificationCheckFailed)
    ensures r.navigateTo.None?
  {
    var request := Some(CheckCertificationRequest(f.id, f.email, f.certificationNumber));
    if outcome.Succeeded? then Reaction(f.(isEmailVerified := true), request, CertificationConfirmed, None)
    else Reaction(f, request, CertificationCheckFailed, None)
  }

  // ---------------------------------------------------------------------------
  // signUp
  // ---------------------------------------------------------------------------

  /**
    * Submits the form. Two guards come first, in this order: the email must
    * be verified, then the two passwords must be equal. Only when both pass is
    * the request issued, and `outcome` is how it ends; otherwise `outcome` is
    * never looked at. The password rule is not one of the guards.
    */
  function SignUp(f: Form, outcome: Outcome): (r: Reaction)
    ensures r.next == f
    ensures r.request.Some? <==> f.isEmailVerified && IsPasswordMatch(f.password, f.confirmPassword)
    ensures r.request.Some? ==>
              r.request.value == SignUpRequest(f.id, f.password, f.email, f.phoneNumber,
                                               f.certificationNumber)
    ensures !f.isEmailVerified ==> r.alert == VerifyEmailFirst
    ensures f.isEmailVerified && f.password != f.confirmPassword ==> r.alert == PasswordMismatch
    ensures r.request.Some? ==>
              r.alert == (if outcome.Succeeded? then SignUpSucceeded else SignUpFailed)
    ensures r.navigateTo == Some(Login) <==> r.request.Some? && outcome.Succeeded?
  {
    if !f.isEmailVerified then Reaction(f, None, VerifyEmailFirst, None)
    else if f.password != f.confirmPassword then Reaction(f, None, PasswordMismatch, None)
    else
      var request := Some(SignUpRequest(f.id, f.password, f.email, f.phoneNumber,
                                        f.certificationNumber));
      match outcome
      case Succeeded => Reaction(f, request, SignUpSucceeded, Some(Login))
      case Failed(_) => Reaction(f, request, SignUpFailed, None)
  }

  // ---------------------------------------------------------------------------
  // Properties of signUp that relate it to the rest of the screen
  // ---------------------------------------------------------------------------

  /**
    * The password rule does not gate sign-up: once the email is verified,
    * any password typed twice is submitted, including one the rule rejects.
    */
  lemma InvalidPasswordStillSubmitted(f: Form, outcome: Outcome)
    requires f.isEmailVerified && f.password == f.confirmPassword
    requires !IsPasswordValid(f.password)
    ensures SignUp(f, outcome).request == Some(SignUpRequest(f.id, f.password, f.email,
                                                             f.phoneNumber, f.certificationNumber))
  {
  }

  /** In particular, an empty password typed twice is submitted although the rule rejects it. */
  lemma EmptyPasswordStillSubmitted(f: Form, outcome: Outcome)
    requires f.isEmailVerified && f.password == f.confirmPassword == ""
    ensures !IsPasswordValid(f.password)
    ensures SignUp(f, outcome).request == Some(SignUpRequest(f.id, "", f.email, f.phoneNumber,
                                                             f.certificationNumber))
  {
    EmptyPasswordInvalid();
    InvalidPasswordStillSubmitted(f, outcome);
  }

  /**
    * Verification is not tied to the email it verified: editing the email
    * afterwards keeps isEmailVerified, and signUp then posts the new email.
    */
  lemma EditedEmailIsPosted(f: Form, email: string, outcome: Outcome)
    requires f.isEmailVerified && f.password == f.confirmPassword
    ensures SetField(f, Email, email).isEmailVerified
    ensures SignUp(SetField(f, Email, email), outcome).request.Some?
    ensures SignUp(SetField(f, Email, email), outcome).request.value.email == email
  {
  }

}
