// The login page of pages/login.tsx: the redirect of a signed-in visitor, the field rules,
// and the submit with the login endpoint's answer.

module Login {
  import opened Models
  import opened Store
  import opened Errors
  import opened Forms

  /** The body posted to the login endpoint. */
  datatype LoginRequest = LoginRequest(email: string, password: string)

  /** The form passes when the address matches the pattern and the password has six UTF-16 code units. */
  predicate LoginFormValid(email: string, password: string) {
    FieldError(EMAIL_RULES, email).None? && FieldError(PASSWORD_RULES, password).None?
  }

  lemma LoginFormValidMeans(email: string, password: string)
    ensures LoginFormValid(email, password) <==> IsEmail(email) && Utf16Length(password) >= 6
  {
    EmailRuleMeaning(email);
    LengthRuleMeanings(password);
  }

  /** The helper texts under the two fields. */
  function HelperTexts(email: string, password: string): (texts: (string, string))
    ensures texts.0 == "" && texts.1 == "" <==> LoginFormValid(email, password)
  {
    (EmailHelperText(FieldError(EMAIL_RULES, email)),
     LengthHelperText("Password", "5", FieldError(PASSWORD_RULES, password)))
  }

  /** The arrival effect: a signed-in visitor is sent home. */
  method OnArrive(s: Session)
    modifies s
    ensures old(s.state.userInfo).Some? ==> s.pushed == old(s.pushed) + [Href("/")]
    ensures old(s.state.userInfo).None? ==> s.pushed == old(s.pushed)
    ensures s.state == old(s.state) && s.cookies == old(s.cookies)
    ensures s.notices == old(s.notices) && s.query == old(s.query)
  {
    if s.state.userInfo.Some? {
      s.Push(Href("/"));
    }
  }

  /** The form's submit with the endpoint's answer: nothing is sent while a rule fails; a
      returned user is signed in, stored in its cookie and sent home; an error is shown. */
  method SubmitHandler(s: Session, email: string, password: string, reply: Reply<User>)
    returns (sent: Option<LoginRequest>)
    modifies s
    ensures !LoginFormValid(email, password) ==>
              sent == None && s.state == old(s.state) && s.cookies == old(s.cookies) &&
              s.pushed == old(s.pushed) && s.notices == old(s.notices)
    ensures LoginFormValid(email, password) ==> sent == Some(LoginRequest(email, password))
    ensures LoginFormValid(email, password) && reply.Ok? ==>
              s.state == Reduce(old(s.state), UserLogin(reply.data)) &&
              s.cookies == old(s.cookies)[USER_INFO_COOKIE := UserJson(reply.data)] &&
              s.pushed == old(s.pushed) + [Href("/")] &&
              s.notices == old(s.notices)
    ensures LoginFormValid(email, password) && reply.Failed? ==>
              s.state == old(s.state) && s.cookies == old(s.cookies) && s.pushed == old(s.pushed) &&
              s.notices == old(s.notices) + [Notice(GetError(reply.error), Error)]
    ensures s.query == old(s.query)
    ensures Persisted(old(s.state), old(s.cookies)) ==> Persisted(s.state, s.cookies)
  {
    if !LoginFormValid(email, password) {
      return None;
    }
    sent := Some(LoginRequest(email, password));
    match reply
    case Ok(user) =>
      ghost var before, jar := s.state, s.cookies;
      s.Dispatch(UserLogin(user));
      s.SetCookie(USER_INFO_COOKIE, UserJson(user));
      if Persisted(before, jar) {
        LoginPersists(before, jar, user);
      }
      s.Push(Href("/"));
    case Failed(err) =>
      s.Notify(GetError(err), Error);
  }
}
