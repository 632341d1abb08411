/**
  * The conditions the sign-up screen renders from its state: the label of
  * the email button, whether the certification input shows, whether the
  * password hint shows, and the password-match line under the confirmation
  * input.
  */
module SignUpView {
  import opened Wrappers
  import opened PasswordRule
  import opened SignUpFlow

  /** The two captions of the email button. */
  datatype EmailButtonCaption = RequestVerification | Resend

  /** The email button offers to resend once a certification email has gone out. */
  function EmailButtonLabel(f: Form): (c: EmailButtonCaption)
    ensures c == Resend <==> f.isCertificationSent
  {
    if f.isCertificationSent then Resend else RequestVerification
  }

  /** The certification-number input and its check button exist only after an email has been sent. */
  predicate ShowsCertificationInput(f: Form) {
    f.isCertificationSent
  }

  /** The rule hint shows exactly while the password breaks the rule the expression encodes, the empty password included. */
  function ShowsPasswordHint(password: string): (shown: bool)
    ensures shown <==> !MeetsPasswordPolicy(password)
    ensures password == "" ==> shown
  {
    PasswordValidIff(password);
    !IsPasswordValid(password)
  }

  /** The two messages of the password-match line. */
  datatype MatchMessage = PasswordsMatch | PasswordsDiffer

  /**
    * The password-match line: hidden while the confirmation is empty,
    * otherwise saying whether the two passwords are equal.
    */
  function MatchIndicator(password: string, confirmPassword: string): (m: Option<MatchMessage>)
    ensures m.None? <==> |confirmPassword| == 0
    ensures m.Some? ==> (m.value == PasswordsMatch <==> IsPasswordMatch(password, confirmPassword))
  {
    if |confirmPassword| > 0 then
      Some(if password == confirmPassword then PasswordsMatch else PasswordsDiffer)
    else None
  }

  /**
    * Once the email is verified, signUp reports a mismatch exactly when the
    * match line says the passwords differ, or when that line is hidden
    * (empty confirmation) while a password has been typed.
    */
  lemma MismatchAlertAgreesWithIndicator(f: Form, outcome: Outcome)
    requires f.isEmailVerified
    ensures SignUp(f, outcome).alert == PasswordMismatch
        <==> MatchIndicator(f.password, f.confirmPassword) == Some(PasswordsDiffer)
             || (MatchIndicator(f.password, f.confirmPassword).None? && f.password != "")
  {
  }

  /**
    * The hint text asks for 8 to 13 characters with upper-case letters,
    * lower-case letters and digits, but not for letters and digits only: a
    * password with a symbol meets everything the text asks and still shows it.
    */
  lemma HintShownThoughHintTextMet()
    ensures 8 <= |"Hiking2024!"| <= 13
    ensures Contains("Hiking2024!", LowerLetter) && Contains("Hiking2024!", UpperLetter)
            && Contains("Hiking2024!", Digit)
    ensures ShowsPasswordHint("Hiking2024!")
  {
    assert IsLower("Hiking2024!"[1]) && IsUpper("Hiking2024!"[0]) && IsDigit("Hiking2024!"[6]);
    SymbolRejected("Hiking2024!", 10);
  }

}
