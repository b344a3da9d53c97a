/** The login form: two fields, their validators and error lines, and the
    submit handler that dispatches `login` only when both fields pass. */
module LoginScreen {
  import opened Js
  import opened Types

  const EmailRequired := "Email is required"
  const EmailInvalid := "Please enter a valid email"
  const PasswordRequired := "Password is required"
  const PasswordTooShort := "Password must be at least 6 characters"
  const MinPasswordLength := 6

  // ---------------------------------------------------------------------
  // The e-mail pattern /^[^\s@]+@[^\s@]+\.[^\s@]+$/

  /** A character of the class `[^\s@]`. */
  predicate PlainChar(c: char) {
    !IsWhitespace(c) && c != '@'
  }

  /** A match of `[^\s@]+`. */
  predicate PlainRun(s: string) {
    |s| > 0 && forall i | 0 <= i < |s| :: PlainChar(s[i])
  }

  /** The pattern matches the whole text: a run, '@', a run, '.', a run. */
  ghost predicate MatchesEmailPattern(s: string) {
    exists at, dot | 0 <= at < dot < |s| ::
      && s[at] == '@' && s[dot] == '.'
      && PlainRun(s[..at]) && PlainRun(s[at + 1..dot]) && PlainRun(s[dot + 1..])
  }

  /** The index of the first `c` in `s`, or `|s|` when there is none. */
  function IndexOf(s: string, c: char): (i: nat)
    ensures i <= |s|
    ensures i < |s| ==> s[i] == c
    ensures forall k | 0 <= k < i :: s[k] != c
  {
    if s == [] then 0
    else if s[0] == c then 0
    else
      var i := 1 + IndexOf(s[1..], c);
      assert forall k | 1 <= k < i :: s[k] == s[1..][k - 1];
      i
  }

  /** What the pattern accepts, checked directly: no whitespace, exactly one
      '@' with text before it, and after it a '.' that is neither the first
      nor the last character. */
  predicate IsEmailShaped(s: string) {
    var at := IndexOf(s, '@');
    && 0 < at < |s|
    && '@' !in s[at + 1..]
    && (forall i | 0 <= i < |s| :: !IsWhitespace(s[i]))
    && var domain := s[at + 1..];
       |domain| >= 3 && '.' in domain[1..|domain| - 1]
  }

  lemma ShapedTextMatches(s: string)
    requires IsEmailShaped(s)
    ensures MatchesEmailPattern(s)
  {
    var at := IndexOf(s, '@');
    var domain := s[at + 1..];
    var inner := domain[1..|domain| - 1];
    var m :| 0 <= m < |inner| && inner[m] == '.';
    var dot := at + 2 + m;
    assert s[dot] == '.';
    assert PlainRun(s[..at]);
    var host, tld := s[at + 1..dot], s[dot + 1..];
    forall i | 0 <= i < |host| ensures PlainChar(host[i]) {
      assert host[i] == domain[i];
      assert domain[i] in domain;
    }
    forall i | 0 <= i < |tld| ensures PlainChar(tld[i]) {
      assert tld[i] == domain[m + 2 + i];
      assert domain[m + 2 + i] in domain;
    }
    assert PlainRun(host) && PlainRun(tld);
  }

  /** Every character of a run matched inside `s` is plain. */
  lemma RunChars(s: string, lo: nat, hi: nat)
    requires lo <= hi <= |s| && PlainRun(s[lo..hi])
    ensures forall i | lo <= i < hi :: PlainChar(s[i])
  {
    forall i | lo <= i < hi ensures PlainChar(s[i]) {
      assert s[i] == s[lo..hi][i - lo];
    }
  }

  /** In a text split as the pattern splits it, no character is whitespace
      and the only '@' is the separator. */
  lemma SplitChars(s: string, at: nat, dot: nat)
    requires at < dot < |s| && s[at] == '@' && s[dot] == '.'
    requires PlainRun(s[..at]) && PlainRun(s[at + 1..dot]) && PlainRun(s[dot + 1..])
    ensures forall i | 0 <= i < |s| :: !IsWhitespace(s[i])
    ensures forall i | 0 <= i < |s| && i != at :: s[i] != '@'
  {
    RunChars(s, 0, at);
    RunChars(s, at + 1, dot);
    RunChars(s, dot + 1, |s|);
    assert !IsWhitespace('@') && !IsWhitespace('.');
    forall i | 0 <= i < |s| && i != at && i != dot ensures PlainChar(s[i]) {
    }
  }

  /** A text with a single '@' after its first character, a later '.' with
      text on both sides, and no whitespace has the checked shape. */
  lemma SplitIsShaped(s: string, at: nat, dot: nat)
    requires 0 < at && at + 1 < dot && dot + 1 < |s|
    requires s[at] == '@' && s[dot] == '.'
    requires forall i | 0 <= i < |s| :: !IsWhitespace(s[i])
    requires forall i | 0 <= i < |s| && i != at :: s[i] != '@'
    ensures IsEmailShaped(s)
  {
    assert IndexOf(s, '@') == at;
    var domain := s[at + 1..];
    assert forall k | 0 <= k < |domain| :: domain[k] == s[at + 1 + k];
    assert '@' !in domain;
    assert domain[1..|domain| - 1][dot - at - 2] == '.';
    assert '.' in domain[1..|domain| - 1];
  }

  lemma MatchingTextIsShaped(s: string)
    requires MatchesEmailPattern(s)
    ensures IsEmailShaped(s)
  {
    var at, dot :| 0 <= at < dot < |s| && s[at] == '@' && s[dot] == '.'
                   && PlainRun(s[..at]) && PlainRun(s[at + 1..dot]) && PlainRun(s[dot + 1..]);
    SplitChars(s, at, dot);
    SplitIsShaped(s, at, dot);
  }

  /** The direct check accepts exactly what the pattern accepts. */
  lemma EmailShapeIsPattern(s: string)
    ensures IsEmailShaped(s) <==> MatchesEmailPattern(s)
  {
    if IsEmailShaped(s) {
      ShapedTextMatches(s);
    }
    if MatchesEmailPattern(s) {
      MatchingTextIsShaped(s);
    }
  }

  // ---------------------------------------------------------------------
  // Validators

  /** A validator's answer and the error line it sets (`""` hides it). */
  datatype Verdict = Verdict(valid: bool, error: string)

  /** `validateEmail`'s answer for `text`. */
  function CheckEmail(text: string): (v: Verdict)
    ensures v.valid <==> MatchesEmailPattern(text)
    ensures v.valid <==> v.error == ""
    ensures text == "" ==> v.error == EmailRequired
    ensures text != "" && !v.valid ==> v.error == EmailInvalid
  {
    EmailShapeIsPattern(text);
    if text == "" then Verdict(false, EmailRequired)
    else if !IsEmailShaped(text) then Verdict(false, EmailInvalid)
    else Verdict(true, "")
  }

  /** `validatePassword`'s answer for `text`; the length counts UTF-16 code
      units in the source and sequence elements here. */
  function CheckPassword(text: string): (v: Verdict)
    ensures v.valid <==> |text| >= 6
    ensures v.valid <==> v.error == ""
    ensures text == "" ==> v.error == PasswordRequired
    ensures 0 < |text| < 6 ==> v.error == PasswordTooShort
  {
    if text == "" then Verdict(false, PasswordRequired)
    else if |text| < MinPasswordLength then Verdict(false, PasswordTooShort)
    else Verdict(true, "")
  }

  // ---------------------------------------------------------------------
  // The form

  /** The form's `useState` fields. */
  class LoginForm {
    var email: string
    var password: string
    var emailError: string
    var passwordError: string

    /** An error line, when shown, is the validator's verdict on the field's
        current text. */
    ghost predicate Valid()
      reads this
    {
      && (emailError == "" || emailError == CheckEmail(email).error)
      && (passwordError == "" || passwordError == CheckPassword(password).error)
    }

    constructor ()
      ensures email == "" && password == "" && emailError == "" && passwordError == ""
      ensures Valid()
    {
      email, password, emailError, passwordError := "", "", "", "";
    }

    /** `validateEmail`: sets the error line and answers. */
    method ValidateEmail(text: string) returns (valid: bool)
      modifies this`emailError
      ensures valid == CheckEmail(text).valid
      ensures emailError == CheckEmail(text).error
    {
      var v := CheckEmail(text);
      emailError, valid := v.error, v.valid;
    }

    /** `validatePassword`: sets the error line and answers. */
    method ValidatePassword(text: string) returns (valid: bool)
      modifies this`passwordError
      ensures valid == CheckPassword(text).valid
      ensures passwordError == CheckPassword(text).error
    {
      var v := CheckPassword(text);
      passwordError, valid := v.error, v.valid;
    }

    /** `handleLogin`: runs both validators, so both error lines are
        refreshed, and returns the `login` request it dispatches, if any. */
    method HandleLogin() returns (request: Option<LoginRequest>)
      modifies this`emailError, this`passwordError
      ensures emailError == CheckEmail(email).error && passwordError == CheckPassword(password).error
      ensures request.Some? <==> MatchesEmailPattern(email) && |password| >= MinPasswordLength
      ensures request.Some? ==> request.value == LoginRequest(email, password)
      ensures Valid()
    {
      var isEmailValid := ValidateEmail(email);
      var isPasswordValid := ValidatePassword(password);
      if isEmailValid && isPasswordValid {
        request := Some(LoginRequest(email, password));
      } else {
        request := None;
      }
    }

    /** The e-mail field's `onChangeText`: re-validates only while an error
        is shown. */
    method ChangeEmail(text: string)
      modifies this`email, this`emailError
      ensures email == text
      ensures old(emailError) != "" ==> emailError == CheckEmail(text).error
      ensures old(emailError) == "" ==> emailError == ""
      ensures old(Valid()) ==> Valid()
    {
      var shown := emailError;
      email := text;
      if shown != "" {
        var _ := ValidateEmail(text);
      }
    }

    /** The e-mail field's `onBlur`: always validates. */
    method BlurEmail()
      modifies this`emailError
      ensures emailError == CheckEmail(email).error
      ensures old(Valid()) ==> Valid()
    {
      var _ := ValidateEmail(email);
    }

    /** The password field's `onChangeText`: re-validates only while an error
        is shown. */
    method ChangePassword(text: string)
      modifies this`password, this`passwordError
      ensures password == text
      ensures old(passwordError) != "" ==> passwordError == CheckPassword(text).error
      ensures old(passwordError) == "" ==> passwordError == ""
      ensures old(Valid()) ==> Valid()
    {
      var shown := passwordError;
      password := text;
      if shown != "" {
        var _ := ValidatePassword(text);
      }
    }

    /** The password field's `onBlur`: always validates. */
    method BlurPassword()
      modifies this`passwordError
      ensures passwordError == CheckPassword(password).error
      ensures old(Valid()) ==> Valid()
    {
      var _ := ValidatePassword(password);
    }
  }
}
