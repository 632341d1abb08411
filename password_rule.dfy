/**
  * The password rule of the sign-up screen.
  *
  * The screen tests the password against the regular expression
  *   ^(?=.*[a-z])(?=.*[A-Z])(?=.*\d)[a-zA-Z\d]{8,13}$
  * with no flags. This module gives that test twice: once as the regular
  * expression engine reads it (three lookaheads, each a `.*` that may not
  * cross a line terminator, then a bounded repetition anchored at the end),
  * and once as the rule the expression encodes (8 to 13 characters,
  * letters and digits only, at least one lower-case letter, one upper-case
  * letter and one digit). PasswordValidIff proves the two agree. The hint
  * text the screen shows asks only for the length and the three kinds of
  * character; the letters-and-digits-only restriction is the expression's.
  */
module PasswordRule {

  // ---------------------------------------------------------------------------
  // Character classes
  // ---------------------------------------------------------------------------

  predicate IsLower(c: char) { 'a' <= c <= 'z' }

  predicate IsUpper(c: char) { 'A' <= c <= 'Z' }

  /** `\d` without the `u` flag: the ASCII digits only. */
  predicate IsDigit(c: char) { '0' <= c <= '9' }

  predicate IsLetterOrDigit(c: char) { IsLower(c) || IsUpper(c) || IsDigit(c) }

  /** The characters that `.` does not match (ECMAScript line terminators). */
  predicate IsLineTerminator(c: char) {
    c == '\n' || c == '\r' || c == '\U{2028}' || c == '\U{2029}'
  }

  /** The bracketed classes that occur in the expression. */
  datatype CharClass = LowerLetter | UpperLetter | Digit | LetterOrDigit

  predicate InClass(c: char, k: CharClass) {
    match k
    case LowerLetter => IsLower(c)
    case UpperLetter => IsUpper(c)
    case Digit => IsDigit(c)
    case LetterOrDigit => IsLetterOrDigit(c)
  }

  // ---------------------------------------------------------------------------
  // The regular expression as the engine matches it
  // ---------------------------------------------------------------------------

  /**
    * `(?=.*[k])` tried at position i: `.*` consumes characters other than
    * line terminators, giving back one at a time, until a character of
    * class k follows.
    */
  predicate LookaheadAt(s: string, i: nat, k: CharClass)
    decreases |s| - i
  {
    i < |s| && (InClass(s[i], k) || (!IsLineTerminator(s[i]) && LookaheadAt(s, i + 1, k)))
  }

  /**
    * `[a-zA-Z\d]{8,13}$` with n repetitions already taken and the input
    * position at i: take one more letter or digit while fewer than 13 are
    * taken, and otherwise (or when that fails) succeed only with at least 8
    * taken at the end of the input.
    */
  predicate RepeatThenEnd(s: string, i: nat, n: nat)
    requires i <= |s|
    decreases |s| - i
  {
    (n < 13 && i < |s| && InClass(s[i], LetterOrDigit) && RepeatThenEnd(s, i + 1, n + 1))
    || (8 <= n && i == |s|)
  }

  /**
    * `isPasswordValid`: the whole expression, anchored at the start of the
    * password (there is no `m` flag, so `^` and `$` are the ends of the input).
    */
  predicate IsPasswordValid(password: string) {
    LookaheadAt(password, 0, LowerLetter)
    && LookaheadAt(password, 0, UpperLetter)
    && LookaheadAt(password, 0, Digit)
    && RepeatThenEnd(password, 0, 0)
  }

  // ---------------------------------------------------------------------------
  // The rule the expression is meant to state
  // ---------------------------------------------------------------------------

  predicate Contains(s: string, k: CharClass) {
    exists i :: 0 <= i < |s| && InClass(s[i], k)
  }

  predicate MeetsPasswordPolicy(password: string) {
    8 <= |password| <= 13
    && (forall i :: 0 <= i < |password| ==> IsLetterOrDigit(password[i]))
    && Contains(password, LowerLetter)
    && Contains(password, UpperLetter)
    && Contains(password, Digit)
  }

  /** No line terminator occurs in s[i..j]. */
  predicate NoLineTerminator(s: string, i: nat, j: nat)
    requires i <= j <= |s|
  {
    forall m :: i <= m < j ==> !IsLineTerminator(s[m])
  }

  // ---------------------------------------------------------------------------
  // The two readings agree
  // ---------------------------------------------------------------------------

  /** A lookahead succeeds exactly when a character of the class occurs before any line terminator. */
  lemma {:induction false} LookaheadAtIff(s: string, i: nat, k: CharClass)
    requires i <= |s|
    ensures LookaheadAt(s, i, k)
        <==> exists j :: i <= j < |s| && InClass(s[j], k) && NoLineTerminator(s, i, j)
    decreases |s| - i
  {
    if i < |s| {
      LookaheadAtIff(s, i + 1, k);
      if LookaheadAt(s, i, k) {
        if InClass(s[i], k) {
          assert NoLineTerminator(s, i, i);
        } else {
          var j :| i + 1 <= j < |s| && InClass(s[j], k) && NoLineTerminator(s, i + 1, j);
          assert NoLineTerminator(s, i, j);
        }
      } else {
        forall j | i <= j < |s| && InClass(s[j], k)
          ensures !NoLineTerminator(s, i, j)
        {
          if j > i {
            assert NoLineTerminator(s, i, j) ==> NoLineTerminator(s, i + 1, j);
          }
        }
      }
    }
  }

  /** The bounded repetition succeeds exactly when the rest of the input is 8 to 13 letters and digits in all. */
  lemma {:induction false} RepeatThenEndIff(s: string, i: nat, n: nat)
    requires i <= |s| && n <= 13
    ensures RepeatThenEnd(s, i, n)
        <==> 8 <= n + (|s| - i) <= 13
             && forall m :: i <= m < |s| ==> IsLetterOrDigit(s[m])
    decreases |s| - i
  {
    if i < |s| && n < 13 {
      RepeatThenEndIff(s, i + 1, n + 1);
    }
  }

  /** `isPasswordValid` holds exactly when the password meets the rule the expression encodes. */
  lemma PasswordValidIff(password: string)
    ensures IsPasswordValid(password) <==> MeetsPasswordPolicy(password)
  {
    RepeatThenEndIff(password, 0, 0);
    var alnum := forall m :: 0 <= m < |password| ==> IsLetterOrDigit(password[m]);
    assert alnum ==> NoLineTerminator(password, 0, |password|);
    forall k: CharClass | k != LetterOrDigit
      ensures alnum ==> (LookaheadAt(password, 0, k) <==> Contains(password, k))
    {
      LookaheadAtIff(password, 0, k);
      if alnum && Contains(password, k) {
        var j :| 0 <= j < |password| && InClass(password[j], k);
        assert NoLineTerminator(password, 0, j);
      }
    }
  }

  /** The empty password never passes the test. */
  lemma EmptyPasswordInvalid()
    ensures !IsPasswordValid("")
  {
  }

  /** A password that contains a line terminator never passes, although `.` alone would stop there. */
  lemma LineTerminatorNeverValid(password: string, i: nat)
    requires i < |password| && IsLineTerminator(password[i])
    ensures !IsPasswordValid(password)
  {
    PasswordValidIff(password);
  }

  /** A password of the accepted shape passes the test. */
  lemma AcceptedExample()
    ensures IsPasswordValid("Hiking2024")
  {
    PasswordValidIff("Hiking2024");
    assert IsLower("Hiking2024"[1]) && IsUpper("Hiking2024"[0]) && IsDigit("Hiking2024"[6]);
  }

  /** Every password without an upper-case letter fails the test. */
  lemma NoUpperRejected(password: string)
    requires forall i :: 0 <= i < |password| ==> !IsUpper(password[i])
    ensures !IsPasswordValid(password)
  {
    PasswordValidIff(password);
  }

  /** Every password without a lower-case letter fails the test. */
  lemma NoLowerRejected(password: string)
    requires forall i :: 0 <= i < |password| ==> !IsLower(password[i])
    ensures !IsPasswordValid(password)
  {
    PasswordValidIff(password);
  }

  /** Every password without a digit fails the test. */
  lemma NoDigitRejected(password: string)
    requires forall i :: 0 <= i < |password| ==> !IsDigit(password[i])
    ensures !IsPasswordValid(password)
  {
    PasswordValidIff(password);
  }

  /** Every password with a character other than an ASCII letter or digit fails the test. */
  lemma SymbolRejected(password: string, i: nat)
    requires i < |password| && !IsLetterOrDigit(password[i])
    ensures !IsPasswordValid(password)
  {
    PasswordValidIff(password);
  }

  /** Every password of fewer than 8 characters fails the test. */
  lemma TooShortRejected(password: string)
    requires |password| < 8
    ensures !IsPasswordValid(password)
  {
    PasswordValidIff(password);
  }

  /** Every password of more than 13 characters fails the test. */
  lemma TooLongRejected(password: string)
    requires 13 < |password|
    ensures !IsPasswordValid(password)
  {
    PasswordValidIff(password);
  }

  /** `isPasswordMatch`: JavaScript strict equality of two strings, character by character. */
  predicate IsPasswordMatch(password: string, confirmPassword: string)
    ensures IsPasswordMatch(password, confirmPassword)
        <==> |password| == |confirmPassword|
             && forall i :: 0 <= i < |password| ==> password[i] == confirmPassword[i]
  {
    password == confirmPassword
  }

}
