// The field rules the checkout and account forms give react-hook-form, checked the way that
// library checks one field (required first, then the minimum length, the pattern and the
// custom validator), the e-mail pattern the login, register and profile forms share, and the
// helper texts the pages show under a field in error.

module Forms {
  import opened Models

  // ---------------------------------------------------------------- the e-mail pattern

  predicate LocalChar(c: char) {
    'a' <= c <= 'z' || '0' <= c <= '9' || c == '.' || c == '_' || c == '%' || c == '+' || c == '-'
  }

  predicate DomainChar(c: char) {
    'a' <= c <= 'z' || '0' <= c <= '9' || c == '.' || c == '-'
  }

  predicate Lower(c: char) {
    'a' <= c <= 'z'
  }

  /** `s` matches the pattern with its `@` at `at` and the dot before the top-level part at `dot`. */
  predicate EmailSplitAt(s: string, at: int, dot: int) {
    0 < at && at + 1 < dot < |s| && s[at] == '@' && s[dot] == '.' &&
    (forall k :: 0 <= k < at ==> LocalChar(s[k])) &&
    (forall k :: at < k < dot ==> DomainChar(s[k])) &&
    2 <= |s| - dot - 1 <= 4 &&
    (forall k :: dot < k < |s| ==> Lower(s[k]))
  }

  /** `/^[a-z0-9._%+-]+@[a-z0-9.-]+\.[a-z]{2,4}$/`: a non-empty local part, `@`, a non-empty
      domain part, a dot and a top-level part of two to four lower-case letters. The pattern
      has no `i` flag, so upper-case letters never match. */
  predicate IsEmail(s: string) {
    exists at, dot | 0 < at < dot < |s| :: EmailSplitAt(s, at, dot)
  }

  /** The local part, the domain part and the top-level part hold no `@`. */
  lemma OnlyAtIsAt(s: string, at: int, dot: int, k: int)
    requires EmailSplitAt(s, at, dot) && 0 <= k < |s| && k != at
    ensures s[k] != '@'
  {
    if k < at {
      assert LocalChar(s[k]);
    } else if k < dot {
      assert DomainChar(s[k]);
    } else if dot < k {
      assert Lower(s[k]);
    }
  }

  /** An address that matches has exactly one `@`. */
  lemma EmailHasOneAt(s: string)
    requires IsEmail(s)
    ensures exists at :: 0 <= at < |s| && s[at] == '@'
    ensures forall k1, k2 :: 0 <= k1 < |s| && 0 <= k2 < |s| && s[k1] == '@' && s[k2] == '@' ==> k1 == k2
  {
    var at, dot :| EmailSplitAt(s, at, dot);
    forall k | 0 <= k < |s| && k != at ensures s[k] != '@' {
      OnlyAtIsAt(s, at, dot, k);
    }
  }

  lemma EmailExamples()
    ensures IsEmail("ann@example.com")
    ensures !IsEmail("Ann@example.com")
    ensures !IsEmail("ann@example")
  {
    var s := "ann@example.com";
    assert s[3] == '@' && s[11] == '.';
    assert forall k :: 0 <= k < 3 ==> LocalChar(s[k]);
    assert forall k :: 3 < k < 11 ==> DomainChar(s[k]);
    assert forall k :: 11 < k < |s| ==> Lower(s[k]);
    assert EmailSplitAt(s, 3, 11);
    var u := "Ann@example.com";
    assert !LocalChar(u[0]);
    var n := "ann@example";
    assert forall k :: 0 <= k < |n| ==> n[k] != '.';
  }

  // ---------------------------------------------------------------- lengths

  /** The UTF-16 code units a character takes: two for one outside the Basic Multilingual
      Plane (a surrogate pair), one otherwise. */
  function CodeUnits(c: char): (n: nat)
    ensures n == 1 || n == 2
  {
    if c as int > 0xFFFF then 2 else 1
  }

  /** JavaScript's `.length`, which react-hook-form's `minLength` and the profile page's
      validator both read: the number of UTF-16 code units. */
  function Utf16Length(s: string): (n: nat)
    ensures |s| <= n <= 2 * |s|
    ensures n == 0 <==> s == ""
  {
    if s == "" then 0 else CodeUnits(s[0]) + Utf16Length(s[1..])
  }

  /** The length of a concatenation is the sum of the lengths. */
  lemma {:induction false} Utf16LengthAppend(a: string, b: string)
    ensures Utf16Length(a + b) == Utf16Length(a) + Utf16Length(b)
  {
    if a == "" {
      assert a + b == b;
    } else {
      assert (a + b)[0] == a[0] && (a + b)[1..] == a[1..] + b;
      Utf16LengthAppend(a[1..], b);
    }
  }

  /** A text whose characters all lie in the Basic Multilingual Plane is as long in code
      units as in characters. */
  lemma {:induction false} Utf16LengthBmp(s: string)
    requires forall i :: 0 <= i < |s| ==> s[i] as int <= 0xFFFF
    ensures Utf16Length(s) == |s|
  {
    if s != "" {
      Utf16LengthBmp(s[1..]);
    }
  }

  /** One emoji is two code units long, so it meets a minimum length of two. */
  lemma Utf16LengthExamples()
    ensures Utf16Length("\U{1F600}") == 2
    ensures Utf16Length("ab") == 2
  {
  }

  // ---------------------------------------------------------------- one field

  /** The `type` of a field error. */
  datatype ErrorKind = RequiredError | MinLengthError | PatternError | ValidateError

  /** A field's rules: `required`, a `minLength` (0 for none), the e-mail `pattern`, and the
      profile page's password `validate` function. */
  datatype FieldRules = FieldRules(required: bool, minLength: nat, emailPattern: bool, passwordValidate: bool)

  /** The profile page's password validator: empty, or more than five code units. */
  predicate OptionalPassword(value: string) {
    value == "" || Utf16Length(value) > 5
  }

  /** The field passes every rule it has; the length and pattern rules skip an empty value. */
  predicate Satisfies(rules: FieldRules, value: string) {
    (rules.required ==> value != "") &&
    (value != "" ==> Utf16Length(value) >= rules.minLength) &&
    (rules.emailPattern && value != "" ==> IsEmail(value)) &&
    (rules.passwordValidate ==> OptionalPassword(value))
  }

  /** The error react-hook-form records for one field: the first rule that fails, in the
      order required, minimum length, pattern, validate. */
  function FieldError(rules: FieldRules, value: string): (e: Option<ErrorKind>)
    ensures e.None? <==> Satisfies(rules, value)
    ensures e == Some(RequiredError) <==> rules.required && value == ""
    ensures e == Some(MinLengthError) ==> value != "" && Utf16Length(value) < rules.minLength
    ensures e == Some(PatternError) ==> rules.emailPattern && value != "" && !IsEmail(value)
    ensures e == Some(ValidateError) ==> rules.passwordValidate && !OptionalPassword(value)
  {
    if rules.required && value == "" then Some(RequiredError)
    else if value != "" && Utf16Length(value) < rules.minLength then Some(MinLengthError)
    else if rules.emailPattern && value != "" && !IsEmail(value) then Some(PatternError)
    else if rules.passwordValidate && !OptionalPassword(value) then Some(ValidateError)
    else None
  }

  /** `required: true, minLength: 2`: names and the shipping fields. */
  const NAME_RULES := FieldRules(true, 2, false, false)
  /** `required: true` and the e-mail pattern. */
  const EMAIL_RULES := FieldRules(true, 0, true, false)
  /** `required: true, minLength: 6`: the login and register passwords. */
  const PASSWORD_RULES := FieldRules(true, 6, false, false)
  /** The profile page's passwords: only the `validate` function. */
  const PROFILE_PASSWORD_RULES := FieldRules(false, 0, false, true)

  /** A matching address is not empty. */
  lemma EmailNotEmpty(v: string)
    requires IsEmail(v)
    ensures v != ""
  {
    var at, dot :| EmailSplitAt(v, at, dot);
  }

  /** What the length rules accept, and which error an empty or short name gets. */
  lemma LengthRuleMeanings(v: string)
    ensures FieldError(NAME_RULES, v).None? <==> Utf16Length(v) >= 2
    ensures FieldError(PASSWORD_RULES, v).None? <==> Utf16Length(v) >= 6
    ensures FieldError(PROFILE_PASSWORD_RULES, v).None? <==> v == "" || Utf16Length(v) > 5
    ensures v == "" ==> FieldError(NAME_RULES, v) == Some(RequiredError)
    ensures Utf16Length(v) == 1 ==> FieldError(NAME_RULES, v) == Some(MinLengthError)
  {
  }

  /** The e-mail rule accepts exactly the matching addresses; a non-empty address that does
      not match is a pattern error, not a missing value. */
  lemma EmailRuleMeaning(v: string)
    ensures FieldError(EMAIL_RULES, v).None? <==> IsEmail(v)
    ensures v != "" && !IsEmail(v) ==> FieldError(EMAIL_RULES, v) == Some(PatternError)
  {
    if IsEmail(v) {
      EmailNotEmpty(v);
    }
  }

  // ---------------------------------------------------------------- helper texts

  /** The helper text of a required field with a minimum length: the length message (with
      the largest length that is too short) for a `minLength` error, the required message
      for any other error, nothing without an error. */
  function LengthHelperText(field: string, tooShort: string, e: Option<ErrorKind>): (t: string)
    ensures t == "" <==> e.None?
  {
    if e.None? then ""
    else if e.value == MinLengthError then field + " length is more than " + tooShort
    else field + " is required"
  }

  /** The e-mail field's helper text. */
  function EmailHelperText(e: Option<ErrorKind>): (t: string)
    ensures t == "" <==> e.None?
  {
    if e.None? then ""
    else if e.value == PatternError then "Email is not valid"
    else "Email is required"
  }

  /** The profile page's password helper text: one message for any error. */
  function ProfilePasswordHelperText(field: string, e: Option<ErrorKind>): (t: string)
    ensures t == "" <==> e.None?
  {
    if e.None? then "" else field + " length is more than 5"
  }

  /** A too-short value and a missing value get different helper texts, and so do a
      malformed and a missing e-mail address. */
  lemma HelperTextsDistinguish(field: string, tooShort: string)
    ensures LengthHelperText(field, tooShort, Some(MinLengthError)) != LengthHelperText(field, tooShort, Some(RequiredError))
    ensures EmailHelperText(Some(PatternError)) != EmailHelperText(Some(RequiredError))
  {
    assert |LengthHelperText(field, tooShort, Some(MinLengthError))| > |LengthHelperText(field, tooShort, Some(RequiredError))|;
    assert EmailHelperText(Some(PatternError))[9] != EmailHelperText(Some(RequiredError))[9];
  }
}
