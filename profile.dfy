// The profile page of pages/profile.tsx: the sign-in guard with the prefill of name and
// e-mail, the field rules (the passwords may stay empty), and the submit that updates the user.

module Profile {
  import opened Models
  import opened Store
  import opened Errors
  import opened Forms

  /** The four form values. */
  datatype ProfileForm = ProfileForm(name: string, email: string, password: string, confirmPassword: string)

  /** The request sent to the profile endpoint: the fields and the `Authorization` header. */
  datatype ProfileRequest = ProfileRequest(name: string, email: string, password: string, authorization: string)

  /** The name has two UTF-16 code units and the address matches; each password is empty or has six. */
  predicate ProfileFormValid(f: ProfileForm) {
    FieldError(NAME_RULES, f.name).None? && FieldError(EMAIL_RULES, f.email).None? &&
    FieldError(PROFILE_PASSWORD_RULES, f.password).None? &&
    FieldError(PROFILE_PASSWORD_RULES, f.confirmPassword).None?
  }

  lemma ProfileFormValidMeans(f: ProfileForm)
    ensures ProfileFormValid(f) <==>
              Utf16Length(f.name) >= 2 && IsEmail(f.email) &&
              (f.password == "" || Utf16Length(f.password) > 5) && (f.confirmPassword == "" || Utf16Length(f.confirmPassword) > 5)
  {
    LengthRuleMeanings(f.name);
    EmailRuleMeaning(f.email);
    LengthRuleMeanings(f.password);
    LengthRuleMeanings(f.confirmPassword);
  }

  /** The helper texts under the four fields, top to bottom. */
  function HelperTexts(f: ProfileForm): (texts: seq<string>)
    ensures |texts| == 4
    ensures (forall i :: 0 <= i < 4 ==> texts[i] == "") <==> ProfileFormValid(f)
  {
    var texts :=
      [LengthHelperText("Name", "1", FieldError(NAME_RULES, f.name)),
       EmailHelperText(FieldError(EMAIL_RULES, f.email)),
       ProfilePasswordHelperText("Password", FieldError(PROFILE_PASSWORD_RULES, f.password)),
       ProfilePasswordHelperText("Confirm Password", FieldError(PROFILE_PASSWORD_RULES, f.confirmPassword))];
    assert texts[0] == "" <==> FieldError(NAME_RULES, f.name).None?;
    assert texts[1] == "" <==> FieldError(EMAIL_RULES, f.email).None?;
    assert texts[2] == "" <==> FieldError(PROFILE_PASSWORD_RULES, f.password).None?;
    assert texts[3] == "" <==> FieldError(PROFILE_PASSWORD_RULES, f.confirmPassword).None?;
    texts
  }

  class ProfileScreen {
    var form: ProfileForm

    constructor ()
      ensures form == ProfileForm("", "", "", "")
    {
      form := ProfileForm("", "", "", "");
    }

    /** The arrival effect: without a user the page goes to the login; either way the name
        and e-mail fields are set from the user (empty without one). */
    method OnArrive(s: Session)
      modifies this, s
      ensures old(s.state.userInfo).None? ==>
                s.pushed == old(s.pushed) + [Href("/login")] && form == old(form).(name := "", email := "")
      ensures old(s.state.userInfo).Some? ==>
                s.pushed == old(s.pushed) &&
                form == old(form).(name := old(s.state.userInfo).value.name, email := old(s.state.userInfo).value.email)
      ensures s.state == old(s.state) && s.cookies == old(s.cookies)
      ensures s.notices == old(s.notices) && s.query == old(s.query)
    {
      if s.state.userInfo.None? {
        s.Push(Href("/login"));
      }
      form := form.(name := if s.state.userInfo.Some? then s.state.userInfo.value.name else "");
      form := form.(email := if s.state.userInfo.Some? then s.state.userInfo.value.email else "");
    }

    /** The user editing the fields. */
    method Edit(values: ProfileForm)
      modifies this
      ensures form == values
    {
      form := values;
    }

    /** The form's submit with the endpoint's answer: nothing happens while a rule fails;
        otherwise the open notices are closed first; differing passwords are refused before
        any request; a returned user replaces the signed-in one and its cookie; the outcome
        is the only notice left. */
    method SubmitHandler(s: Session, reply: Reply<User>) returns (sent: Option<ProfileRequest>)
      modifies s
      ensures !ProfileFormValid(form) ==>
                sent == None && s.state == old(s.state) && s.cookies == old(s.cookies) &&
                s.pushed == old(s.pushed) && s.notices == old(s.notices)
      ensures ProfileFormValid(form) && form.password != form.confirmPassword ==>
                sent == None && s.state == old(s.state) && s.cookies == old(s.cookies) &&
                s.pushed == old(s.pushed) && s.notices == [Notice("Passwords don't match", Error)]
      ensures ProfileFormValid(form) && form.password == form.confirmPassword ==>
                sent == Some(ProfileRequest(form.name, form.email, form.password, Authorization(old(s.state.userInfo))))
      ensures ProfileFormValid(form) && form.password == form.confirmPassword && reply.Ok? ==>
                s.state == Reduce(old(s.state), UserLogin(reply.data)) &&
                s.cookies == old(s.cookies)[USER_INFO_COOKIE := UserJson(reply.data)] &&
                s.pushed == old(s.pushed) &&
                s.notices == [Notice("Profile updated successfully", Success)]
      ensures ProfileFormValid(form) && form.password == form.confirmPassword && reply.Failed? ==>
                s.state == old(s.state) && s.cookies == old(s.cookies) && s.pushed == old(s.pushed) &&
                s.notices == [Notice(GetError(reply.error), Error)]
      ensures s.query == old(s.query)
      ensures Persisted(old(s.state), old(s.cookies)) ==> Persisted(s.state, s.cookies)
    {
      if !ProfileFormValid(form) {
        return None;
      }
      s.CloseNotices();
      if form.password != form.confirmPassword {
        s.Notify("Passwords don't match", Error);
        return None;
      }
      sent := Some(ProfileRequest(form.name, form.email, form.password, Authorization(s.state.userInfo)));
      match reply
      case Ok(user) =>
        ghost var before, jar := s.state, s.cookies;
        s.Dispatch(UserLogin(user));
        s.SetCookie(USER_INFO_COOKIE, UserJson(user));
        if Persisted(before, jar) {
          LoginPersists(before, jar, user);
        }
        s.Notify("Profile updated successfully", Success);
      case Failed(err) =>
        s.Notify(GetError(err), Error);
    }
  }
}
