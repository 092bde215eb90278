// The registration page of pages/register.tsx: the redirect of a signed-in visitor to the
// `redirect` query parameter, the field rules, the password confirmation and the submit.

module Register {
  import opened Models
  import opened Store
  import opened Errors
  import opened Forms

  /** The four form values. */
  datatype RegisterForm = RegisterForm(name: string, email: string, password: string, confirmPassword: string)

  /** The body posted to the register endpoint: the confirmation is not sent. */
  datatype RegisterRequest = RegisterRequest(name: string, email: string, password: string)

  /** `(redirect as string) || '/'`: the `redirect` parameter when present and not empty, else home. */
  function RedirectTarget(routerQuery: map<string, string>): (target: string)
    ensures "redirect" in routerQuery && routerQuery["redirect"] != "" ==> target == routerQuery["redirect"]
    ensures !("redirect" in routerQuery && routerQuery["redirect"] != "") ==> target == "/"
    ensures target != ""
  {
    if "redirect" in routerQuery && routerQuery["redirect"] != "" then routerQuery["redirect"] else "/"
  }

  /** The name has two UTF-16 code units, the address matches, and both passwords have six. */
  predicate RegisterFormValid(f: RegisterForm) {
    FieldError(NAME_RULES, f.name).None? && FieldError(EMAIL_RULES, f.email).None? &&
    FieldError(PASSWORD_RULES, f.password).None? && FieldError(PASSWORD_RULES, f.confirmPassword).None?
  }

  lemma RegisterFormValidMeans(f: RegisterForm)
    ensures RegisterFormValid(f) <==>
              Utf16Length(f.name) >= 2 && IsEmail(f.email) && Utf16Length(f.password) >= 6 && Utf16Length(f.confirmPassword) >= 6
  {
    LengthRuleMeanings(f.name);
    EmailRuleMeaning(f.email);
    LengthRuleMeanings(f.password);
    LengthRuleMeanings(f.confirmPassword);
  }

  /** The helper texts under the four fields, top to bottom. */
  function HelperTexts(f: RegisterForm): (texts: seq<string>)
    ensures |texts| == 4
    ensures (forall i :: 0 <= i < 4 ==> texts[i] == "") <==> RegisterFormValid(f)
  {
    var texts :=
      [LengthHelperText("Name", "1", FieldError(NAME_RULES, f.name)),
       EmailHelperText(FieldError(EMAIL_RULES, f.email)),
       LengthHelperText("Password", "5", FieldError(PASSWORD_RULES, f.password)),
       LengthHelperText("Confirm Password", "5", FieldError(PASSWORD_RULES, f.confirmPassword))];
    assert texts[0] == "" <==> FieldError(NAME_RULES, f.name).None?;
    assert texts[1] == "" <==> FieldError(EMAIL_RULES, f.email).None?;
    assert texts[2] == "" <==> FieldError(PASSWORD_RULES, f.password).None?;
    assert texts[3] == "" <==> FieldError(PASSWORD_RULES, f.confirmPassword).None?;
    texts
  }

  /** The arrival effect: a signed-in visitor is sent to the redirect target. */
  method OnArrive(s: Session)
    modifies s
    ensures old(s.state.userInfo).Some? ==> s.pushed == old(s.pushed) + [Href(RedirectTarget(old(s.query)))]
    ensures old(s.state.userInfo).None? ==> s.pushed == old(s.pushed)
    ensures s.state == old(s.state) && s.cookies == old(s.cookies)
    ensures s.notices == old(s.notices) && s.query == old(s.query)
  {
    if s.state.userInfo.Some? {
      s.Push(Href(RedirectTarget(s.query)));
    }
  }

  /** The form's submit with the endpoint's answer: nothing happens while a rule fails; a
      confirmation that differs from the password is refused before any request; a returned
      user is signed in, stored in its cookie and sent to the redirect target; an error is shown. */
  method SubmitHandler(s: Session, f: RegisterForm, reply: Reply<User>) returns (sent: Option<RegisterRequest>)
    modifies s
    ensures !RegisterFormValid(f) ==>
              sent == None && s.state == old(s.state) && s.cookies == old(s.cookies) &&
              s.pushed == old(s.pushed) && s.notices == old(s.notices)
    ensures RegisterFormValid(f) && f.password != f.confirmPassword ==>
              sent == None && s.state == old(s.state) && s.cookies == old(s.cookies) &&
              s.pushed == old(s.pushed) && s.notices == old(s.notices) + [Notice("Passwords don't match", Error)]
    ensures RegisterFormValid(f) && f.password == f.confirmPassword ==>
              sent == Some(RegisterRequest(f.name, f.email, f.password))
    ensures RegisterFormValid(f) && f.password == f.confirmPassword && reply.Ok? ==>
              s.state == Reduce(old(s.state), UserLogin(reply.data)) &&
              s.cookies == old(s.cookies)[USER_INFO_COOKIE := UserJson(reply.data)] &&
              s.pushed == old(s.pushed) + [Href(RedirectTarget(old(s.query)))] &&
              s.notices == old(s.notices)
    ensures RegisterFormValid(f) && f.password == f.confirmPassword && reply.Failed? ==>
              s.state == old(s.state) && s.cookies == old(s.cookies) && s.pushed == old(s.pushed) &&
              s.notices == old(s.notices) + [Notice(GetError(reply.error), Error)]
    ensures s.query == old(s.query)
    ensures Persisted(old(s.state), old(s.cookies)) ==> Persisted(s.state, s.cookies)
  {
    if !RegisterFormValid(f) {
      return None;
    }
    if f.password != f.confirmPassword {
      s.Notify("Passwords don't match", Error);
      return None;
    }
    sent := Some(RegisterRequest(f.name, f.email, f.password));
    match reply
    case Ok(user) =>
      ghost var before, jar := s.state, s.cookies;
      s.Dispatch(UserLogin(user));
      s.SetCookie(USER_INFO_COOKIE, UserJson(user));
      if Persisted(before, jar) {
        LoginPersists(before, jar, user);
      }
      s.Push(Href(RedirectTarget(s.query)));
    case Failed(err) =>
      s.Notify(GetError(err), Error);
  }
}
