/** The dashboard page of `app/dashboard/page.tsx`: its own `getToken`, the `updateUserInfo`
    effect that decides between the login page, the `user` cookie and `fetchUserData`, the
    welcome message, and the effect that sends an unauthenticated visitor to the login page. */
module Dashboard {
  import opened Common
  import opened Web
  import opened Profile
  import opened UriCodec
  import opened Gateway
  import opened Session

  const Greeting := "Hoş geldin, "
  const GenericGreeting := "Hoş geldiniz!"

  /** The page's `getToken`: the `accessToken` cookie when non-empty, else localStorage. */
  function GetToken(w: WebState): (token: Option<string>)
    ensures Truthy(Lookup(w.cookies, AccessTokenKey)) ==> token == Lookup(w.cookies, AccessTokenKey)
    ensures !Truthy(Lookup(w.cookies, AccessTokenKey)) ==> token == Lookup(w.local, AccessTokenKey)
  {
    var cookieToken := Lookup(w.cookies, AccessTokenKey);
    if Truthy(cookieToken) then cookieToken else Lookup(w.local, AccessTokenKey)
  }

  /** The page reads the same token as the session controller and the gateway. */
  lemma GetTokenAgreesWithSession(w: WebState)
    ensures GetToken(w) == AccessToken(w.cookies, w.local)
  {
  }

  /** The inner `try` of `updateUserInfo` succeeds: the `user` cookie is truthy, decodes, and
      parses as JSON of any kind, not necessarily a profile. */
  predicate CookieParses(cookies: Store, json: Json) {
    && Truthy(Lookup(cookies, UserCookieKey))
    && FormDecode(cookies[UserCookieKey]).Some?
    && json.parse(FormDecode(cookies[UserCookieKey]).value).Some?
  }

  /** Every cookie the session reads a profile from also satisfies the page's check; a cookie
      holding a falsy JSON value satisfies the page's check while the session reads no user. */
  lemma CookieCheckIsWeakerThanSession(cookies: Store, json: Json)
    ensures UserFromCookie(cookies, json).Some? ==> CookieParses(cookies, json)
    ensures CookieParses(cookies, json) && json.parse(FormDecode(cookies[UserCookieKey]).value) == Some(Falsy)
      ==> UserFromCookie(cookies, json).None?
  {
  }

  /** How `updateUserInfo` ended; `toast` says whether the error toast was shown. */
  datatype UpdateOutcome = RedirectedToLogin | CookieAnswered | Fetched | FetchFailed(toast: bool)

  /** `updateUserInfo`: no token sends the router to the login page; a parsable `user` cookie ends
      the effect; otherwise `fetchUserData`, whose error is caught and shows a toast only when
      the `user` the effect captured was null. */
  function UpdateSpec(s: SessionState, json: Json, me: Reply): (SessionState, UpdateOutcome) {
    if !Truthy(GetToken(s.web)) then
      (s.(web := s.web.(navigations := s.web.navigations + [RouterPush(LoginPath)])), RedirectedToLogin)
    else if CookieParses(s.web.cookies, json) then
      (s, CookieAnswered)
    else
      var (t, r) := FetchSpec(s, json, me);
      if r.Ok? then (t, Fetched) else (t, FetchFailed(s.user.None?))
  }

  /** No token: the login redirect, and no request at all. A parsable cookie: nothing changes.
      Otherwise exactly one request, the bearer-authorized `/me`, and the session as
      `fetchUserData` leaves it; the toast appears exactly when no user was loaded before. */
  lemma UpdateDecision(s: SessionState, json: Json, me: Reply)
    ensures var (t, outcome) := UpdateSpec(s, json, me);
      && (!Truthy(GetToken(s.web)) ==>
            && outcome == RedirectedToLogin && t.user == s.user && t.web.sent == s.web.sent
            && t.web.navigations == s.web.navigations + [RouterPush(LoginPath)])
      && (Truthy(GetToken(s.web)) && CookieParses(s.web.cookies, json) ==>
            outcome == CookieAnswered && t == s)
      && (Truthy(GetToken(s.web)) && !CookieParses(s.web.cookies, json) ==>
            && t == FetchSpec(s, json, me).0
            && t.web.sent == s.web.sent + [MeRequest(s.web)]
            && (outcome.FetchFailed? <==> FetchSpec(s, json, me).1.Err?)
            && (outcome == Fetched <==> FetchSpec(s, json, me).1.Ok?))
      && (outcome.FetchFailed? ==> (outcome.toast <==> s.user.None?))
  {
  }

  /** The welcome message: with a non-empty name, the greeting, the name with every `+` read as a
      space, and `!`; otherwise the generic greeting. */
  function WelcomeMessage(user: Option<User>): (m: string)
    ensures user.Some? && user.value.name != "" ==>
      && |m| == |Greeting| + |user.value.name| + 1
      && m[..|Greeting|] == Greeting && m[|m| - 1] == '!'
      && forall i :: 0 <= i < |user.value.name| ==>
           m[|Greeting| + i] == (if user.value.name[i] == '+' then ' ' else user.value.name[i])
    ensures !(user.Some? && user.value.name != "") ==> m == GenericGreeting
  {
    if user.Some? && user.value.name != "" then Greeting + ReplacePlus(user.value.name) + "!"
    else GenericGreeting
  }

  /** No welcome message contains a `+`. */
  lemma WelcomeHasNoPlus(user: Option<User>)
    ensures '+' !in WelcomeMessage(user)
  {
  }

  /** Two names that differ only in writing a space as `+` are greeted alike. */
  lemma WelcomeIgnoresPlusSpelling(u: User, v: User)
    requires u.name != "" && v.name != "" && ReplacePlus(u.name) == ReplacePlus(v.name)
    ensures WelcomeMessage(Some(u)) == WelcomeMessage(Some(v))
  {
  }

  /** The redirect effect's condition: not loading, not authenticated, and no token. */
  predicate ShouldRedirect(s: SessionState) {
    !s.loading && !IsAuthenticated(s.user) && !Truthy(GetToken(s.web))
  }

  function RedirectSpec(s: SessionState): SessionState {
    if ShouldRedirect(s) then s.(web := s.web.(navigations := s.web.navigations + [RouterPush(LoginPath)])) else s
  }

  /** The redirect fires exactly when all three conditions hold, and then adds one router push to
      the login page and nothing else. */
  lemma RedirectIffAllThree(s: SessionState)
    ensures RedirectSpec(s) != s <==> !s.loading && s.user.None? && !Truthy(GetToken(s.web))
    ensures RedirectSpec(s) != s ==>
      RedirectSpec(s) == s.(web := s.web.(navigations := s.web.navigations + [RouterPush(LoginPath)]))
  {
    if ShouldRedirect(s) {
      assert |RedirectSpec(s).web.navigations| > |s.web.navigations|;
    }
  }

  /** After a logout has settled, the dashboard sends the visitor to the login page: logout
      removes the token from both tiers and the user from state. */
  lemma LogoutLeadsToRedirect(s: SessionState)
    requires !s.loading
    ensures ShouldRedirect(LogoutSpec(s))
  {
  }

  /** A visitor with no cached profile and no token ends hydration on the login redirect. */
  lemma NoSessionRedirects(s: SessionState, json: Json, me: Reply)
    requires s.user.None?
    requires UserFromCookie(s.web.cookies, json).None?
    requires StoredBody(s.web.local, json).None?
    requires !Truthy(AccessToken(s.web.cookies, s.web.local))
    ensures ShouldRedirect(HydrateSpec(s, json, me))
  {
  }

  class DashboardPage {
    var welcomeMessage: string
    const auth: AuthProvider

    constructor (auth: AuthProvider)
      ensures welcomeMessage == "" && this.auth == auth
    {
      welcomeMessage := "";
      this.auth := auth;
    }

    method UpdateUserInfo(me: Reply) returns (outcome: UpdateOutcome)
      modifies auth, auth.browser
      ensures (auth.State(), outcome) == UpdateSpec(old(auth.State()), auth.json, me)
    {
      var token := GetToken(auth.browser.State());
      if !Truthy(token) {
        auth.browser.Navigate(RouterPush(LoginPath));
        return RedirectedToLogin;
      }
      var fromCookie := Lookup(auth.browser.cookies, UserCookieKey);
      if Truthy(fromCookie) {
        var decoded := FormDecode(fromCookie.value);
        if decoded.Some? && auth.json.parse(decoded.value).Some? {
          return CookieAnswered;
        }
      }
      var capturedUser := auth.user;
      var r := auth.FetchUserData(me);
      outcome := if r.Ok? then Fetched else FetchFailed(capturedUser.None?);
    }

    /** The welcome effect. */
    method RefreshWelcome()
      modifies this`welcomeMessage
      ensures welcomeMessage == WelcomeMessage(auth.user)
    {
      var user := auth.user;
      if user.Some? && user.value.name != "" {
        var decodedName := ReplacePlus(user.value.name);
        welcomeMessage := Greeting + decodedName + "!";
      } else {
        welcomeMessage := GenericGreeting;
      }
    }

    /** The redirect-on-unauthenticated effect. */
    method RedirectEffect()
      modifies auth.browser
      ensures auth.State() == RedirectSpec(old(auth.State()))
    {
      if !auth.loading && !(auth.user.Some?) {
        var token := GetToken(auth.browser.State());
        if !Truthy(token) {
          auth.browser.Navigate(RouterPush(LoginPath));
        }
      }
    }
  }
}
