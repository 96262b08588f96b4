/**
 * The sign-in page (src/pages/AuthPage.tsx): the form validator, a chain
 * of rules whose first failure is reported, and the effect that reads the
 * `error`, `error_description` and `type` query parameters. Lengths count
 * characters of the string.
 */
module AuthPage {
  import opened Wrappers
  import opened Strings

  datatype AuthMode = SignIn | SignUp | Reset | Guest

  datatype FormData = FormData(email: string, password: string, confirmPassword: string, fullName: string)

  datatype MessageKind = Error | Success | Info

  datatype Message = Message(kind: MessageKind, text: string)

  /** The outcome of `validateForm`: the flag it returns and the error it writes, if any. */
  datatype Validation = Validation(ok: bool, error: Option<string>)

  /** `validateForm`, in the source's order of checks. */
  function ValidateForm(mode: AuthMode, form: FormData): (v: Validation)
    ensures v.ok <==> v.error.None?
  {
    if mode == SignUp && Trim(form.fullName) == "" then Validation(false, Some("Full name is required"))
    else if mode == SignUp && form.password != form.confirmPassword then Validation(false, Some("Passwords do not match"))
    else if mode != Reset && form.email == "" then Validation(false, Some("Email is required"))
    else if (mode == SignIn || mode == SignUp) && |form.password| < 6 then Validation(false, Some("Password must be at least 6 characters"))
    else Validation(true, None)
  }

  /** One validation rule: whether it fails, and the message it reports. */
  datatype Rule = Rule(fails: bool, text: string)

  /** The rules as a list, in the order they are checked. */
  function Rules(mode: AuthMode, form: FormData): seq<Rule> {
    [ Rule(mode == SignUp && IsBlank(form.fullName), "Full name is required"),
      Rule(mode == SignUp && form.password != form.confirmPassword, "Passwords do not match"),
      Rule(mode != Reset && form.email == "", "Email is required"),
      Rule((mode == SignIn || mode == SignUp) && |form.password| < 6, "Password must be at least 6 characters") ]
  }

  /** The message of the first failing rule. */
  function FirstFailure(rules: seq<Rule>): (r: Option<string>)
    ensures r.None? <==> forall i :: 0 <= i < |rules| ==> !rules[i].fails
    decreases |rules|
  {
    if rules == [] then None
    else if rules[0].fails then Some(rules[0].text)
    else FirstFailure(rules[1..])
  }

  lemma FirstFailureOfFour(a: Rule, b: Rule, c: Rule, d: Rule)
    ensures FirstFailure([a, b, c, d]) ==
      if a.fails then Some(a.text) else if b.fails then Some(b.text)
      else if c.fails then Some(c.text) else if d.fails then Some(d.text) else None
  {
    assert [d][1..] == [];
    assert FirstFailure([d]) == if d.fails then Some(d.text) else None;
    assert [c, d][1..] == [d];
    assert FirstFailure([c, d]) == if c.fails then Some(c.text) else FirstFailure([d]);
    assert [b, c, d][1..] == [c, d];
    assert FirstFailure([b, c, d]) == if b.fails then Some(b.text) else FirstFailure([c, d]);
    assert [a, b, c, d][1..] == [b, c, d];
  }

  /**
   * The validator accepts exactly when no rule fails, and otherwise
   * reports the first failing rule's message; a blank name is one made
   * only of whitespace.
   */
  lemma ValidateFormIsFirstFailure(mode: AuthMode, form: FormData)
    ensures ValidateForm(mode, form).error == FirstFailure(Rules(mode, form))
    ensures ValidateForm(mode, form).ok <==> forall i :: 0 <= i < 4 ==> !Rules(mode, form)[i].fails
  {
    TrimEmptyIffBlank(form.fullName);
    var rules := Rules(mode, form);
    FirstFailureOfFour(rules[0], rules[1], rules[2], rules[3]);
    assert rules == [rules[0], rules[1], rules[2], rules[3]];
  }

  /** The rule table by mode: reset always passes; guest checks only the email. */
  lemma ValidateFormByMode(form: FormData)
    ensures ValidateForm(Reset, form).ok
    ensures ValidateForm(Guest, form).ok <==> form.email != ""
    ensures IsBlank(form.fullName) ==> ValidateForm(SignUp, form).error == Some("Full name is required")
    ensures !IsBlank(form.fullName) && form.password != form.confirmPassword ==>
      ValidateForm(SignUp, form).error == Some("Passwords do not match")
    ensures form.email != "" && |form.password| < 6 ==>
      ValidateForm(SignIn, form).error == Some("Password must be at least 6 characters")
    ensures ValidateForm(SignIn, form).ok <==> form.email != "" && |form.password| >= 6
  {
    TrimEmptyIffBlank(form.fullName);
  }

  /** `searchParams.get(...)` of the three parameters; absent is None. */
  datatype QueryParams = QueryParams(error: Option<string>, errorDescription: Option<string>, queryType: Option<string>)

  datatype PageState = PageState(mode: AuthMode, message: Option<Message>)

  const RecoveryText: string := "Please enter your new password below."

  /** The first effect: a non-empty error is shown; otherwise a recovery link switches to reset. */
  function QueryParamEffect(p: QueryParams, s: PageState): PageState {
    if TruthyString(p.error) then
      s.(message := Some(Message(Error, if TruthyString(p.errorDescription) then p.errorDescription.value else p.error.value)))
    else if p.queryType == Some("recovery") then
      PageState(Reset, Some(Message(Info, RecoveryText)))
    else s
  }

  /**
   * An error wins over a recovery link and leaves the mode alone, its
   * description preferred to the bare code; a recovery link alone switches
   * to reset with the instructions; anything else changes nothing.
   */
  lemma QueryParamEffectSpec(p: QueryParams, s: PageState)
    ensures TruthyString(p.error) ==>
      && QueryParamEffect(p, s).mode == s.mode
      && QueryParamEffect(p, s).message.Some? && QueryParamEffect(p, s).message.value.kind == Error
      && QueryParamEffect(p, s).message.value.text == (if TruthyString(p.errorDescription) then p.errorDescription.value else p.error.value)
    ensures !TruthyString(p.error) && p.queryType == Some("recovery") ==>
      QueryParamEffect(p, s) == PageState(Reset, Some(Message(Info, RecoveryText)))
    ensures !TruthyString(p.error) && p.queryType != Some("recovery") ==> QueryParamEffect(p, s) == s
    ensures QueryParamEffect(p, QueryParamEffect(p, s)) == QueryParamEffect(p, s)
  {
  }
}
