/**
 * The login form's client-side check (client/src/components/Auth/Login.js):
 * validateForm builds an error record from the email and password fields,
 * and handleSubmit sends the login request only when that record is empty.
 */
module LoginForm {
  import opened Wrappers
  import opened Text

  const EmailRequiredMsg := "El correo electrónico es obligatorio."
  const EmailDomainMsg := "El correo debe pertenecer al dominio @puce.edu.ec."
  const PasswordRequiredMsg := "La contraseña es obligatoria."

  /** The literal tail of the pattern, in lower case. */
  const DomainSuffix := "@puce.edu.ec"

  /** The character class [A-Z0-9._%+-] under the i flag. */
  predicate IsLocalChar(c: char) {
    || 'A' <= c <= 'Z' || 'a' <= c <= 'z' || '0' <= c <= '9'
    || c == '.' || c == '_' || c == '%' || c == '+' || c == '-'
  }

  predicate AllLocalChars(s: string) {
    forall i :: 0 <= i < |s| ==> IsLocalChar(s[i])
  }

  /** The literal `@puce\.edu\.ec`, matched ignoring ASCII case. */
  predicate IsDomainSuffix(s: string) {
    Lower(s) == DomainSuffix
  }

  /**
   * /^[A-Z0-9._%+-]+@puce\.edu\.ec$/i: a non-empty run of class characters
   * (none of which is '@') followed by the domain, which ends the string.
   */
  predicate MatchesPuceEmail(s: string) {
    |s| > |DomainSuffix|
    && AllLocalChars(s[..|s| - |DomainSuffix|])
    && IsDomainSuffix(s[|s| - |DomainSuffix|..])
  }

  /**
   * The same pattern read the way a regular-expression engine runs it: one
   * class character, then either the literal tail or one more class
   * character and the same again.
   */
  predicate PlusThenSuffix(s: string)
    decreases |s|
  {
    |s| >= 1 && IsLocalChar(s[0]) && (IsDomainSuffix(s[1..]) || PlusThenSuffix(s[1..]))
  }

  /** Only a string of the domain's length can be the domain. */
  lemma DomainSuffixLength(t: string)
    ensures IsDomainSuffix(t) ==> |t| == |DomainSuffix|
  {
    assert |Lower(t)| == |t|;
  }

  /** What the engine accepts matches the pattern. */
  lemma {:induction false} StepwiseMatchIsMatch(s: string)
    requires PlusThenSuffix(s)
    ensures MatchesPuceEmail(s)
    decreases |s|
  {
    var n := |DomainSuffix|;
    var t := s[1..];
    DomainSuffixLength(t);
    if IsDomainSuffix(t) {
      assert s[|s| - n..] == t;
      var head := s[..|s| - n];
      forall i | 0 <= i < |head| ensures IsLocalChar(head[i]) {
        assert i == 0;
      }
    } else {
      StepwiseMatchIsMatch(t);
      assert s[|s| - n..] == t[|t| - n..];
      var head, rest := s[..|s| - n], t[..|t| - n];
      forall i | 0 <= i < |head| ensures IsLocalChar(head[i]) {
        if i > 0 {
          assert head[i] == rest[i - 1];
        }
      }
    }
  }

  /** What matches the pattern the engine accepts. */
  lemma {:induction false} MatchIsStepwiseMatch(s: string)
    requires MatchesPuceEmail(s)
    ensures PlusThenSuffix(s)
    decreases |s|
  {
    var n := |DomainSuffix|;
    var t := s[1..];
    assert s[0] == s[..|s| - n][0];
    if |s| == n + 1 {
      assert t == s[|s| - n..];
    } else {
      assert t[|t| - n..] == s[|s| - n..];
      var head, rest := s[..|s| - n], t[..|t| - n];
      forall i | 0 <= i < |rest| ensures IsLocalChar(rest[i]) {
        assert rest[i] == head[i + 1];
      }
      MatchIsStepwiseMatch(t);
    }
  }

  /** The two readings of the pattern accept the same strings. */
  lemma PatternReadingsAgree(s: string)
    ensures PlusThenSuffix(s) <==> MatchesPuceEmail(s)
  {
    if PlusThenSuffix(s) {
      StepwiseMatchIsMatch(s);
    }
    if MatchesPuceEmail(s) {
      MatchIsStepwiseMatch(s);
    }
  }

  /** The error record: a message per field that failed, absent otherwise. */
  datatype FormErrors = FormErrors(email: Option<string>, password: Option<string>)

  /** Object.keys(errors).length. */
  function ErrorCount(e: FormErrors): nat {
    (if e.email.Some? then 1 else 0) + (if e.password.Some? then 1 else 0)
  }

  /** validateForm. */
  function ValidateForm(email: string, password: string): (e: FormErrors)
    // an empty email gets the "required" message only; the domain is not checked
    ensures email == "" ==> e.email == Some(EmailRequiredMsg)
    // a non-empty email passes exactly when it matches the pattern
    ensures email != "" ==> (e.email.None? <==> MatchesPuceEmail(email))
    ensures email != "" && !MatchesPuceEmail(email) ==> e.email == Some(EmailDomainMsg)
    // the password check depends on the password alone
    ensures e.password.Some? <==> password == ""
    ensures e.password.Some? ==> e.password.value == PasswordRequiredMsg
  {
    var emailError :=
      if email == "" then Some(EmailRequiredMsg)
      else if !MatchesPuceEmail(email) then Some(EmailDomainMsg)
      else None;
    var passwordError := if password == "" then Some(PasswordRequiredMsg) else None;
    FormErrors(emailError, passwordError)
  }

  /** The error record is empty exactly when the email matches the pattern and a password was given. */
  lemma FormAcceptedIff(email: string, password: string)
    ensures ErrorCount(ValidateForm(email, password)) == 0 <==> MatchesPuceEmail(email) && password != ""
  {
  }

  /** What handleSubmit does after validating: show the errors, or send the credentials to /login. */
  datatype SubmitOutcome = ShowErrors(errors: FormErrors) | SendLogin(email: string, password: string)

  function HandleSubmit(email: string, password: string): (o: SubmitOutcome)
    ensures o.SendLogin? <==> MatchesPuceEmail(email) && password != ""
    ensures o.SendLogin? ==> o == SendLogin(email, password)
    ensures o.ShowErrors? ==> ErrorCount(o.errors) > 0 && o.errors == ValidateForm(email, password)
  {
    var errors := ValidateForm(email, password);
    if ErrorCount(errors) > 0 then ShowErrors(errors) else SendLogin(email, password)
  }
}
