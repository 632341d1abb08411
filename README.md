# Sign-up screen of the hiking planner app, modelled in Dafny

The hiking planner's sign-up screen (`mainView/signup.js`) collects an id,
an email, a certification number, a password typed twice and a phone
number. Two flags gate the flow. `isCertificationSent` turns true when the
backend accepts a request to email a certification number.
`isEmailVerified` turns true when the backend accepts that number. The
sign-up button submits the form only when the email is verified and the two
passwords are equal. A regular expression decides whether a hint about the
password rule is shown, but it does not gate the submission.

The project has six modules:

- `Wrappers`: an `Option` type.
- `PasswordRule`: the password test
  `^(?=.*[a-z])(?=.*[A-Z])(?=.*\d)[a-zA-Z\d]{8,13}$`, read the way an
  ECMAScript regular-expression engine reads it (`IsPasswordValid`). Each
  lookahead is a `.*` that cannot cross a line terminator, and the bounded
  repetition is greedy with backtracking. The same rule is also written out
  plainly (`MeetsPasswordPolicy`). `PasswordValidIff` proves the two agree.
  The module also holds the password-match predicate. The hint text the
  screen shows under the password (lines 156-160) asks for 8 to 13
  characters with upper-case letters, lower-case letters and digits; it
  leaves out the expression's letters-and-digits-only restriction.
- `SignUpFlow`: the screen state as a value (`Form`). It also holds the
  three handlers as functions from the state and the backend call's
  `Outcome` to a `Reaction`: the next state, the request posted (if any), the
  alert shown, and the screen navigated to (if any).
- `SignUpView`: the conditions the screen renders from its state.
- `SignUpSession`: sequences of user actions. An action is available only
  when its control is rendered: the certification input and its check button
  appear only after an email has been sent. Lemmas here cover
  monotonicity and reachability across whole sessions.
- `SignUpComponent`: the component itself, as a class whose fields are the
  screen's state. Each handler is a method that updates those fields in
  place, and each method is proved equal to its `SignUpFlow` function.

Strings are Dafny strings, sequences of Unicode scalar values, where
JavaScript compares and matches UTF-16 code units. For the equality and the
password test this makes no difference. A character outside the Basic
Multilingual Plane fails `[a-zA-Z\d]` either way, and `.` passes over both
halves of a surrogate pair.

Backend calls are not modelled. Each handler takes how its call ended as a
parameter: `Succeeded`, or `Failed` with the error's message and the
server's response if one came back. Alerts are an enumeration with one
constructor per distinct message, and navigation is a returned `Screen`.

## Model

| member | source | states |
|---|---|---|
| `PasswordRule.LookaheadAtIff` | mainView/signup.js:91-92 | A lookahead `(?=.*[k])` succeeds exactly when a character of class k occurs and no line terminator comes before it |
| `PasswordRule.RepeatThenEndIff` | mainView/signup.js:91-92 | `[a-zA-Z\d]{8,13}$` matches the rest of the input exactly when that rest, with the repetitions already taken, is 8 to 13 characters that are all letters or digits |
| `PasswordRule.PasswordValidIff` | mainView/signup.js:91-92 | `isPasswordValid` holds exactly when the password has 8 to 13 characters, all ASCII letters or digits, with at least one lower-case letter, one upper-case letter and one digit |
| `PasswordRule.EmptyPasswordInvalid` | mainView/signup.js:91-92 | The empty password fails the test |
| `PasswordRule.LineTerminatorNeverValid` | mainView/signup.js:91-92 | A password with a line terminator anywhere in it fails the test |
| `PasswordRule.AcceptedExample` | mainView/signup.js:91-92 | `Hiking2024` passes the test |
| `PasswordRule.NoUpperRejected` | mainView/signup.js:91-92 | Every password without an upper-case letter fails |
| `PasswordRule.NoLowerRejected` | mainView/signup.js:91-92 | Every password without a lower-case letter fails |
| `PasswordRule.NoDigitRejected` | mainView/signup.js:91-92 | Every password without a digit fails |
| `PasswordRule.SymbolRejected` | mainView/signup.js:91-92 | Every password with a character other than an ASCII letter or digit fails |
| `PasswordRule.TooShortRejected` | mainView/signup.js:91-92 | Every password of fewer than 8 characters fails |
| `PasswordRule.TooLongRejected` | mainView/signup.js:91-92 | Every password of more than 13 characters fails |
| `PasswordRule.IsPasswordMatch` | mainView/signup.js:90 | Two passwords match exactly when they have the same length and agree at every position |
| `SignUpFlow.SetField` | mainView/signup.js:9-14 | Editing one input sets that field to the new text; the other five fields and both flags keep their values |
| `SignUpFlow.EmailCertificationErrorAlert` | mainView/signup.js:33-42 | A failed email request gives exactly one of three alerts, by priority. The message `Network Error` gives the network alert even when a response is present. Otherwise a response gives the server-error alert with the response's message. Otherwise the alert is the unknown-error one |
| `SignUpFlow.SendEmailCertification` | mainView/signup.js:21-44 | Always posts exactly the id and email. Success sets `isCertificationSent` and changes nothing else. Failure changes nothing and shows the classified error alert. No navigation happens |
| `SignUpFlow.CheckCertification` | mainView/signup.js:47-60 | Always posts exactly the id, email and certification number. Success sets `isEmailVerified` and changes nothing else. Every failure changes nothing and shows one failure alert |
| `SignUpFlow.SignUp` | mainView/signup.js:63-88 | Never changes state. A request is posted if and only if the email is verified and the passwords are equal; it carries exactly id, password, email, phone number and certification number. Unverified email gives the verify-first alert whatever the passwords; verified email with different passwords gives the mismatch alert. The screen moves to `Login` if and only if the request was posted and succeeded; a failed request gives the failure alert |
| `SignUpFlow.InvalidPasswordStillSubmitted` | mainView/signup.js:63-92 | With a verified email, any password typed twice is posted, also one the password rule rejects |
| `SignUpFlow.EmptyPasswordStillSubmitted` | mainView/signup.js:63-92 | With a verified email, an empty password typed twice is posted, although the password rule rejects it |
| `SignUpFlow.EditedEmailIsPosted` | mainView/signup.js:63-81 | Editing the email after verification keeps `isEmailVerified`, and a sign-up with equal passwords then posts the edited email: verification is not tied to the address it verified |
| `SignUpView.EmailButtonLabel` | mainView/signup.js:123 | The email button offers to resend exactly when a certification email has been sent |
| `SignUpView.ShowsPasswordHint` | mainView/signup.js:156-160 | The rule hint shows exactly when the password breaks the rule the expression encodes; the empty password shows it |
| `SignUpView.HintShownThoughHintTextMet` | mainView/signup.js:156-160 | `Hiking2024!` has 8 to 13 characters with lower-case, upper-case and digits, as the hint text asks, yet the hint shows |
| `SignUpView.MatchIndicator` | mainView/signup.js:171-182 | The match line is hidden exactly when the confirmation is empty; when shown, it says "match" exactly when the passwords are equal |
| `SignUpView.MismatchAlertAgreesWithIndicator` | mainView/signup.js:171-182 | With a verified email, signUp gives the mismatch alert exactly when the match line says the passwords differ, or when the line is hidden while a password has been typed |
| `SignUpSession.Next` | mainView/signup.js:21-88 | One user action never clears a flag. `isCertificationSent` is set only by a successful email request, and `isEmailVerified` only by a successful certification check |
| `SignUpSession.FlagsMonotone` | mainView/signup.js:15-60 | Over any sequence of actions, a flag that is true stays true |
| `SignUpSession.SentOnlyBySuccessfulSend` | mainView/signup.js:21-44 | After any sequence of actions, `isCertificationSent` is true only if it was true at the start or one of the actions was a successful email request |
| `SignUpSession.VerifiedOnlyAfterSendThenCheck` | mainView/signup.js:126-143 | From a fresh screen, using only rendered controls, the email is verified only after a successful email request followed later by a successful certification check |
| `SignUpSession.SignUpRequestNeedsCertification` | mainView/signup.js:63-81 | From a fresh screen, a sign-up request goes out only with equal passwords, after a successful email request and a later successful certification check. It does not say the posted email is the one that was certified (see `EditedEmailIsPosted`) |
| `SignUpSession.ResendLabelStays` | mainView/signup.js:123 | Once the email button offers to resend, it does so after any further actions |
| `SignUpComponent.SignUpScreen.constructor` | mainView/signup.js:9-16 | A new screen has every input empty and both flags false |
| `SignUpComponent.SignUpScreen.Edit` | mainView/signup.js:9-14 | An input's change handler replaces that one field; both flags are unchanged |
| `SignUpComponent.SignUpScreen.SendEmailCertification` | mainView/signup.js:21-44 | Posts the id and email. `isCertificationSent` becomes its old value or success, and nothing else changes. The method equals `SignUpFlow.SendEmailCertification` |
| `SignUpComponent.SignUpScreen.CheckCertification` | mainView/signup.js:47-60 | Posts the id, email and certification number. `isEmailVerified` becomes its old value or success, and nothing else changes. The method equals `SignUpFlow.CheckCertification` |
| `SignUpComponent.SignUpScreen.SignUp` | mainView/signup.js:63-88 | Returns early without a request unless the email is verified and the passwords are equal. Otherwise it posts the five fields and moves to `Login` on success. The method equals `SignUpFlow.SignUp` |

## Left out

- Rendering, layout and styles (`mainView/signup.js:94-251`) are not modelled. The only parts kept are the four render conditions at lines 123, 126, 156 and 171.
- Alert texts and `console.error` logging are left out. Each alert is a constructor of `Alert`.
- The HTTP client is left out: no endpoints, no headers, no responses beyond what a handler inspects. A handler's request is the payload it posts.
- A server error response without a `data` body is not modelled. In the source, reading `data.message` there throws inside the catch block.
- Interleaving is not modelled: each handler runs as one atomic step. In the source, a handler awaits its call, and a second press can start before the first finishes. Both flags are only ever set to true, so the order of completions cannot clear one.
- Keyboard focus handling (`mainView/signup.js:18`, `104`) is left out, because it changes no state the handlers read. The phone input's submit key calls the same `signUp` handler as the button (line 193); `PressSignUp` stands for both.
- `mainView/login.js`, `mainView/mountaindo/routeMore.js` and `App.js` are not part of this model. They hold network and storage calls, floating-point map arithmetic and the route table.
- `checkCertification` has no guard of its own. Its button is rendered only once an email has been sent (line 126), so that gating is modelled in `SignUpSession.Enabled` rather than as a precondition of the handler.
