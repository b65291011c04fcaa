/** The signup page of `app/signup/page.tsx`: the five password criteria recomputed whenever the
    password changes, the "at least four of five" strength rule, and `handleSubmit`, which gates
    on that rule and then sequences the register call, `fetchUserData` and navigation. */
module Signup {
  import opened Common
  import opened Web
  import opened Profile
  import opened Gateway
  import opened Session
  import opened Translation

  const RegisterPath := "/auth-service/api/v1/auth/register"
  const MinLength := 8
  const UnexpectedErrorKey := "common.unexpectedError"

  /** The character classes of the four regular expressions `/[A-Z]/`, `/[a-z]/`, `/[0-9]/`
      and `/[^A-Za-z0-9]/`. */
  datatype CharClass = Upper | Lower | Digit | NotAlphanumeric

  predicate InClass(c: char, k: CharClass) {
    match k
    case Upper => 'A' <= c <= 'Z'
    case Lower => 'a' <= c <= 'z'
    case Digit => '0' <= c <= '9'
    case NotAlphanumeric => !('A' <= c <= 'Z' || 'a' <= c <= 'z' || '0' <= c <= '9')
  }

  /** `/[...]/.test(password)`: some character of the password is in the class. */
  function Test(k: CharClass, password: string): (found: bool)
    ensures found <==> exists i :: 0 <= i < |password| && InClass(password[i], k)
  {
    if password == [] then false
    else if InClass(password[0], k) then true
    else
      var rest := Test(k, password[1..]);
      assert rest ==> exists i :: 0 <= i < |password| && InClass(password[i], k) by {
        if rest {
          var j :| 0 <= j < |password[1..]| && InClass(password[1..][j], k);
          assert InClass(password[j + 1], k);
        }
      }
      assert (exists i :: 0 <= i < |password| && InClass(password[i], k)) ==> rest by {
        if exists i :: 0 <= i < |password| && InClass(password[i], k) {
          var i :| 0 <= i < |password| && InClass(password[i], k);
          assert i > 0 && InClass(password[1..][i - 1], k);
        }
      }
      rest
  }

  /** `password.length`: JavaScript counts UTF-16 code units, one for a character below U+10000
      and two, a surrogate pair, for any character above. */
  function Utf16Length(s: string): (n: nat)
    ensures |s| <= n <= 2 * |s|
    ensures (forall i :: 0 <= i < |s| ==> s[i] as int < 0x1_0000) ==> n == |s|
  {
    if s == [] then 0
    else
      assert forall i :: 0 <= i < |s[1..]| ==> s[1..][i] == s[i + 1];
      (if s[0] as int < 0x1_0000 then 1 else 2) + Utf16Length(s[1..])
  }

  /** The length is additive over concatenation. */
  lemma {:induction false} Utf16LengthConcat(a: string, b: string)
    ensures Utf16Length(a + b) == Utf16Length(a) + Utf16Length(b)
  {
    if a != [] {
      assert (a + b)[0] == a[0] && (a + b)[1..] == a[1..] + b;
      Utf16LengthConcat(a[1..], b);
    } else {
      assert a + b == b;
    }
  }

  /** The `passwordValid` state: one flag per criterion. */
  datatype Criteria = Criteria(length: bool, uppercase: bool, lowercase: bool, number: bool, special: bool)

  /** The password-criteria effect. */
  function Evaluate(password: string): (c: Criteria)
    ensures c.length <==> Utf16Length(password) >= MinLength
    ensures c.uppercase <==> exists i :: 0 <= i < |password| && 'A' <= password[i] <= 'Z'
    ensures c.lowercase <==> exists i :: 0 <= i < |password| && 'a' <= password[i] <= 'z'
    ensures c.number <==> exists i :: 0 <= i < |password| && '0' <= password[i] <= '9'
    ensures c.special <==> exists i :: 0 <= i < |password| && InClass(password[i], NotAlphanumeric)
  {
    Criteria(
      Utf16Length(password) >= MinLength,
      Test(Upper, password),
      Test(Lower, password),
      Test(Digit, password),
      Test(NotAlphanumeric, password))
  }

  /** `Object.values(passwordValid).filter(Boolean).length`. */
  function CountMet(c: Criteria): (n: nat)
    ensures n == 5 <==> c.length && c.uppercase && c.lowercase && c.number && c.special
    ensures n == 0 <==> !(c.length || c.uppercase || c.lowercase || c.number || c.special)
  {
    (if c.length then 1 else 0) + (if c.uppercase then 1 else 0) + (if c.lowercase then 1 else 0)
      + (if c.number then 1 else 0) + (if c.special then 1 else 0)
  }

  /** `isPasswordStrong`. */
  predicate IsStrong(c: Criteria) {
    CountMet(c) >= 4
  }

  /** Strong means at most one criterion is missed. */
  lemma StrongIffAtMostOneMissed(c: Criteria)
    ensures IsStrong(c) <==>
      (c.length && c.uppercase && c.lowercase && c.number) || (c.length && c.uppercase && c.lowercase && c.special)
      || (c.length && c.uppercase && c.number && c.special) || (c.length && c.lowercase && c.number && c.special)
      || (c.uppercase && c.lowercase && c.number && c.special)
  {
  }

  /** A password shorter than eight code units is strong only when it mixes all four character
      classes. */
  lemma ShortStrongPasswordUsesEveryClass(password: string)
    requires Utf16Length(password) < MinLength && IsStrong(Evaluate(password))
    ensures var c := Evaluate(password); c.uppercase && c.lowercase && c.number && c.special
  {
  }

  /** Spaces and letters outside ASCII count as special characters. */
  lemma SpaceAndNonAsciiAreSpecial(password: string, i: nat)
    requires i < |password| && (password[i] == ' ' || password[i] as int >= 128)
    ensures Evaluate(password).special
  {
  }

  /** Six characters, two of them outside the Basic Multilingual Plane, are eight code units:
      the length criterion holds and, with upper, lower and special, the password is strong. */
  lemma AstralCharactersCountTwice()
    ensures var p := "Aaaa\U{1F600}\U{1F600}";
      |p| == 6 && Evaluate(p).length && IsStrong(Evaluate(p))
  {
    var p := "Aaaa\U{1F600}\U{1F600}";
    assert Utf16Length(p[4..]) == 4;
    Utf16LengthConcat(p[..4], p[4..]);
    assert p[..4] + p[4..] == p;
    assert InClass(p[0], Upper) && InClass(p[1], Lower) && InClass(p[4], NotAlphanumeric);
  }

  /** A password of only lower-case letters, however long, is weak. */
  lemma LowercaseOnlyIsWeak(password: string)
    requires forall i :: 0 <= i < |password| ==> 'a' <= password[i] <= 'z'
    ensures !IsStrong(Evaluate(password))
  {
  }

  /** `error.response?.data?.message || t('common.unexpectedError')`. */
  function ErrorMessage(e: ApiError, fallback: string): (m: string)
    ensures e.message.Some? && e.message.value != "" ==> m == e.message.value
    ensures !(e.message.Some? && e.message.value != "") ==> m == fallback
  {
    match e.message
    case Some(text) => if text != "" then text else fallback
    case None => fallback
  }

  datatype SubmitOutcome = WeakPassword | Registered | Failed(message: string)

  /** `handleSubmit` as a function of the form's `isLoading`, its criteria and the session: a weak
      password returns at once; otherwise register, then `fetchUserData`, then navigate to the
      dashboard, with `isLoading` false at the end whatever happened. */
  function SubmitSpec(isLoading: bool, criteria: Criteria, s: SessionState, json: Json,
                      register: Reply, me: Reply, fallback: string): (bool, SessionState, SubmitOutcome) {
    if !IsStrong(criteria) then (isLoading, s, WeakPassword)
    else
      var (w, r) := SendSpec(s.web, Post, RegisterPath, register);
      match r
      case Err(e) => (false, s.(web := w), Failed(ErrorMessage(e, fallback)))
      case Ok(_) =>
        var (t, outcome) := AfterRegisterSpec(s.(web := w), json, me, fallback);
        (false, t, outcome)
  }

  /** The part of `handleSubmit` after a successful registration: `fetchUserData`, then the
      dashboard navigation when it did not throw. */
  function AfterRegisterSpec(s: SessionState, json: Json, me: Reply, fallback: string): (SessionState, SubmitOutcome) {
    var (t, f) := FetchSpec(s, json, me);
    match f
    case Err(e) => (t, Failed(ErrorMessage(e, fallback)))
    case Ok(_) => (t.(web := t.web.(navigations := t.web.navigations + [RouterPush(DashboardPath)])), Registered)
  }

  /** A weak password sends nothing and leaves `isLoading` and the session alone. */
  lemma WeakPasswordSendsNothing(isLoading: bool, criteria: Criteria, s: SessionState, json: Json,
                                 register: Reply, me: Reply, fallback: string)
    requires !IsStrong(criteria)
    ensures SubmitSpec(isLoading, criteria, s, json, register, me, fallback) == (isLoading, s, WeakPassword)
  {
  }

  /** Past the strength check: the register request goes out first, `isLoading` ends false, and
      the dashboard navigation happens exactly after a successful `fetchUserData`, as the last
      navigation. A failed register or fetch reports that error's server message or the
      fallback text. */
  lemma SubmitSequence(isLoading: bool, criteria: Criteria, s: SessionState, json: Json,
                       register: Reply, me: Reply, fallback: string)
    requires IsStrong(criteria)
    ensures var (loading, t, outcome) := SubmitSpec(isLoading, criteria, s, json, register, me, fallback);
      && !loading
      && |t.web.sent| >= |s.web.sent| + 1 && t.web.sent[|s.web.sent|].url == RegisterPath
      && (register.Failure? ==>
            && |t.web.sent| == |s.web.sent| + 1
            && outcome == Failed(ErrorMessage(ApiError(register.status, register.message, false), fallback))
            && RouterPush(DashboardPath) !in t.web.navigations[|s.web.navigations|..])
      && (outcome == Registered ==>
            && register.Success?
            && var fetched := FetchSpec(s.(web := SendSpec(s.web, Post, RegisterPath, register).0), json, me);
               fetched.1.Ok? && t.web.navigations == fetched.0.web.navigations + [RouterPush(DashboardPath)]
               && t.user == fetched.0.user)
      && (register.Success? ==>
            var fetched := FetchSpec(s.(web := SendSpec(s.web, Post, RegisterPath, register).0), json, me);
            && (fetched.1.Ok? ==>
                  && outcome == Registered
                  && t == fetched.0.(web := fetched.0.web.(navigations := fetched.0.web.navigations + [RouterPush(DashboardPath)])))
            && (fetched.1.Err? ==>
                  && outcome == Failed(ErrorMessage(fetched.1.error, fallback))
                  && t == fetched.0))
  {
  }

  class SignupForm {
    var password: string
    var criteria: Criteria
    var isLoading: bool
    const auth: AuthProvider
    const language: LanguageProvider
    /** The key of the generic error text, fixed to `common.unexpectedError` when the page is
        built. */
    const fallbackKey: string

    /** The `passwordValid` state always matches the password it was computed from. */
    ghost predicate Valid()
      reads this
    {
      criteria == Evaluate(password)
    }

    constructor (auth: AuthProvider, language: LanguageProvider)
      ensures Valid() && password == "" && !isLoading
      ensures this.auth == auth && this.language == language && fallbackKey == UnexpectedErrorKey
    {
      fallbackKey := UnexpectedErrorKey;
      this.auth := auth;
      this.language := language;
      password := "";
      criteria := Criteria(false, false, false, false, false);
      isLoading := false;
    }

    /** Typing a new password; the criteria effect runs right after. */
    method SetPassword(p: string)
      modifies this`password, this`criteria
      ensures Valid() && password == p
    {
      password := p;
      criteria := Evaluate(password);
    }

    method HandleSubmit(register: Reply, me: Reply) returns (outcome: SubmitOutcome)
      requires Valid()
      modifies this`isLoading, auth, auth.browser
      ensures Valid()
      ensures (isLoading, auth.State(), outcome)
           == SubmitSpec(old(isLoading), criteria, old(auth.State()), auth.json, register, me,
                         language.T(fallbackKey))
    {
      var fallback := language.T(fallbackKey);
      if CountMet(criteria) < 4 {
        return WeakPassword;
      }
      isLoading := true;
      var response := Send(auth.browser, Post, RegisterPath, register);
      match response {
        case Err(e) =>
          outcome := Failed(ErrorMessage(e, fallback));
        case Ok(_) =>
          outcome := CompleteRegistration(me, fallback);
      }
      isLoading := false;
    }

    /** The steps after a successful register call. */
    method CompleteRegistration(me: Reply, fallback: string) returns (outcome: SubmitOutcome)
      modifies auth, auth.browser
      ensures (auth.State(), outcome) == AfterRegisterSpec(old(auth.State()), auth.json, me, fallback)
    {
      var f := auth.FetchUserData(me);
      if f.Err? {
        outcome := Failed(ErrorMessage(f.error, fallback));
      } else {
        auth.browser.Navigate(RouterPush(DashboardPath));
        outcome := Registered;
      }
    }
  }
}
