/**
 * What the authentication pages share: the field rules of their forms, the outcome of an identity
 * call, and the trace of effects a submit handler leaves (identity calls, toasts, navigation).
 */
module AuthRules {
  import opened Wrappers
  import Strings

  /** `[A-Z0-9._%+-]` under the `i` flag. */
  predicate LocalChar(c: char) {
    Strings.IsLetter(c) || Strings.IsDigit(c) || c == '.' || c == '_' || c == '%' || c == '+' || c == '-'
  }

  /** `[A-Z0-9.-]` under the `i` flag. */
  predicate DomainChar(c: char) {
    Strings.IsLetter(c) || Strings.IsDigit(c) || c == '.' || c == '-'
  }

  predicate LocalPart(s: string) {
    forall i :: 0 <= i < |s| ==> LocalChar(s[i])
  }

  predicate DomainPart(s: string) {
    forall i :: 0 <= i < |s| ==> DomainChar(s[i])
  }

  predicate Letters(s: string) {
    forall i :: 0 <= i < |s| ==> Strings.IsLetter(s[i])
  }

  predicate Digits(s: string) {
    forall i :: 0 <= i < |s| ==> Strings.IsDigit(s[i])
  }

  /** One way of reading `s` as `local@domain.tld` that the email pattern accepts. */
  predicate EmailParts(s: string, local: string, domain: string, tld: string) {
    s == local + "@" + domain + "." + tld &&
    |local| > 0 && LocalPart(local) &&
    |domain| > 0 && DomainPart(domain) &&
    |tld| >= 2 && Letters(tld)
  }

  /** What `/^[A-Z0-9._%+-]+@[A-Z0-9.-]+\.[A-Z]{2,}$/i` means: some reading of `s` fits. */
  ghost predicate MatchesEmailPattern(s: string) {
    exists local, domain, tld :: EmailParts(s, local, domain, tld)
  }

  /**
   * The email rule decided directly: the local part runs to the first '@'; the domain runs from
   * there to the last '.', which must not be the first character after the '@'.
   */
  predicate IsValidEmail(s: string) {
    var at := Strings.IndexOf(s, '@');
    at > 0 &&
    var rest := s[at + 1..];
    var dot := Strings.LastIndexOf(rest, '.');
    dot > 0 && LocalPart(s[..at]) && DomainPart(rest[..dot]) &&
    |rest| - dot - 1 >= 2 && Letters(rest[dot + 1..])
  }

  /** The direct decision accepts exactly the strings the pattern matches. */
  lemma EmailDecision(s: string)
    ensures IsValidEmail(s) <==> MatchesEmailPattern(s)
  {
    if IsValidEmail(s) {
      var at := Strings.IndexOf(s, '@');
      var rest := s[at + 1..];
      var dot := Strings.LastIndexOf(rest, '.');
      ValidEmailHasParts(s, s[..at], rest, dot);
    }
    if MatchesEmailPattern(s) {
      var local, domain, tld :| EmailParts(s, local, domain, tld);
      PartsAreFound(s, local, domain, tld);
    }
  }

  lemma ValidEmailHasParts(s: string, local: string, rest: string, dot: int)
    requires 0 < |local| < |s| && local == s[..|local|] && s[|local|] == '@' && rest == s[|local| + 1..]
    requires 0 < dot < |rest| && rest[dot] == '.'
    requires LocalPart(local) && DomainPart(rest[..dot])
    requires |rest| - dot - 1 >= 2 && Letters(rest[dot + 1..])
    ensures EmailParts(s, local, rest[..dot], rest[dot + 1..])
  {
    assert rest == rest[..dot] + "." + rest[dot + 1..];
    assert s == local + "@" + rest;
  }

  lemma PartsAreFound(s: string, local: string, domain: string, tld: string)
    requires EmailParts(s, local, domain, tld)
    ensures IsValidEmail(s)
  {
    var rest := domain + "." + tld;
    assert '@' !in local by {
      assert forall i :: 0 <= i < |local| ==> LocalChar(local[i]);
    }
    assert '.' !in tld by {
      assert forall i :: 0 <= i < |tld| ==> Strings.IsLetter(tld[i]);
    }
    assert s == local + ['@'] + rest;
    Strings.IndexOfSeparator(local, rest, '@');
    var at := Strings.IndexOf(s, '@');
    assert s[..at] == local && s[at + 1..] == rest;
    Strings.LastIndexOfSeparator(domain, tld, '.');
    var dot := Strings.LastIndexOf(rest, '.');
    assert rest[..dot] == domain && rest[dot + 1..] == tld;
  }

  /** The password rule: fewer than 8 characters is refused. */
  function PasswordError(value: string): (e: Option<string>)
    ensures e.Some? <==> |value| < 8
  {
    if |value| < 8 then Some("Password must be at least 8 characters") else None
  }

  /** `/^\d{6}$/`: exactly six ASCII digits. */
  predicate IsCode(s: string) {
    |s| == 6 && Digits(s)
  }

  /** A code rule `/^\d{6}$/` with its page's message: it fails exactly when the code is not six digits. */
  function CodeError(code: string, message: string): (e: Option<string>)
    ensures e.None? <==> IsCode(code)
    ensures e.Some? ==> e.value == message
  {
    if IsCode(code) then None else Some(message)
  }

  /** The confirmation rule: the confirmation must equal the new password exactly. */
  function ConfirmError(value: string, newPassword: string): (e: Option<string>)
    ensures e.None? <==> value == newPassword
  {
    if value != newPassword then Some("Passwords do not match") else None
  }

  /**
   * A value thrown by an identity call: an `Error` with its name and message; any other object,
   * with its `message` property when that is a string; or `null`/`undefined`.
   */
  datatype Thrown = ErrorObject(name: string, message: string) | OtherValue(property: Option<string>) | Nullish

  /** What `error.message` reads without an `instanceof Error` test; on `null` or `undefined` it throws (None). */
  function MessageOf(e: Thrown): (m: Option<string>)
    ensures e.Nullish? ==> m.None?
    ensures e.ErrorObject? ==> m == Some(e.message)
  {
    match e
    case ErrorObject(_, message) => Some(message)
    case OtherValue(property) => property
    case Nullish => None
  }

  /** How an identity call ends: it returns a value or throws. */
  datatype Outcome<+T> = Returned(value: T) | Threw(error: Thrown)

  /** The effects of a submit handler that the model keeps, in the order they happen. */
  datatype Effect =
    | SignInCall(username: string, password: string)
    | SignUpCall(username: string, password: string, bucketId: string)
    | ResendCodeCall(username: string)
    | ConfirmSignUpCall(username: string, code: string)
    | ConfirmResetCall(username: string, code: string, newPassword: string)
    | RemoveStoredEmail
    | ToastSuccess(message: string)
    | ToastError(message: string)
    | Navigate(path: string)

  /** A call out to the identity service. */
  predicate IsIdentityCall(e: Effect) {
    e.SignInCall? || e.SignUpCall? || e.ResendCodeCall? || e.ConfirmSignUpCall? || e.ConfirmResetCall?
  }
}
