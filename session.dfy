/** The session controller of `context/AuthContext.tsx`: the in-memory `user` and `loading`
    state, startup hydration, `fetchUserData`, `logout`, `hasRole`, `setTokens`, and `login` /
    `signup` as sequences of gateway calls. Each state-changing method is proved equal to a
    specification function on `SessionState`; the lemmas below state what those functions
    promise. */
module Session {
  import opened Common
  import opened Web
  import opened Profile
  import opened UriCodec
  import opened Gateway

  const MePath := "/auth-service/api/v1/auth/me"
  const LoginApiPath := "/auth-service/api/v1/auth/login"
  const SignupApiPath := "/auth-service/api/v1/auth/signup"

  /** The provider's React state together with the browser it reads and writes. */
  datatype SessionState = SessionState(user: Option<User>, loading: bool, web: WebState)

  /** `getUserFromCookie`: the `user` cookie, `+` turned to space, percent-decoded and parsed. Any
      failure along the way gives null rather than an exception. */
  function UserFromCookie(cookies: Store, json: Json): (r: Option<User>)
    ensures !Truthy(Lookup(cookies, UserCookieKey)) ==> r == None
    ensures Truthy(Lookup(cookies, UserCookieKey)) && FormDecode(cookies[UserCookieKey]).None? ==> r == None
    ensures r.Some? <==>
      && Truthy(Lookup(cookies, UserCookieKey))
      && FormDecode(cookies[UserCookieKey]).Some?
      && json.parse(FormDecode(cookies[UserCookieKey]).value).Some?
      && json.parse(FormDecode(cookies[UserCookieKey]).value).value.Profile?
    ensures r.Some? ==> json.parse(FormDecode(cookies[UserCookieKey]).value) == Some(Profile(r.value))
  {
    var raw := Lookup(cookies, UserCookieKey);
    if !Truthy(raw) then None
    else
      match FormDecode(raw.value)
      case None => None
      case Some(text) =>
        match json.parse(text)
        case Some(Profile(u)) => Some(u)
        case _ => None
  }

  lemma FormEncodeNonEmpty(s: string)
    requires s != ""
    ensures FormEncode(s) != ""
  {
  }

  /** When the text `Cookies.get('user')` returns is the form-encoding of a profile's JSON,
      `getUserFromCookie` reads back the same profile, whatever reserved characters (`+`, `%`,
      spaces) its fields contain. The cookie map holds the text as `Cookies.get` returns it, so
      this says nothing about how the cookie library itself decodes the raw cookie header. */
  lemma UserCookieRoundTrip(cookies: Store, json: Json, u: User)
    requires RoundTrips(json)
    requires UserCookieKey in cookies && cookies[UserCookieKey] == FormEncode(json.stringify(u))
    ensures UserFromCookie(cookies, json) == Some(u)
  {
    FormEncodeNonEmpty(json.stringify(u));
    FormDecodeEncode(json.stringify(u));
  }

  /** `hasRole(role)`: `user?.roles?.includes(role) || false`. */
  function HasRole(user: Option<User>, role: string): (b: bool)
    ensures b <==> user.Some? && user.value.roles.Some? && role in user.value.roles.value
  {
    match user
    case Some(User(_, _, _, _, Some(roles))) => role in roles
    case _ => false
  }

  /** `isAuthenticated = !!user`. */
  predicate IsAuthenticated(user: Option<User>) {
    user.Some?
  }

  /** Nobody signed out holds a role, and a profile without a role list holds none. */
  lemma HasRoleNeedsAuthentication(user: Option<User>, role: string)
    ensures HasRole(user, role) ==> IsAuthenticated(user)
    ensures user.Some? && user.value.roles.None? ==> !HasRole(user, role)
  {
  }

  /** `logout`: both token cookies go, the three localStorage keys go, the user is cleared and
      the router is sent to the login page. The `user` cookie is not touched. */
  function LogoutSpec(s: SessionState): SessionState {
    s.(user := None, web := s.web.(
      cookies := s.web.cookies - {AccessTokenKey, RefreshTokenKey},
      local := s.web.local - {AccessTokenKey, RefreshTokenKey, UserDataKey},
      navigations := s.web.navigations + [RouterPush(LoginPath)]))
  }

  lemma LogoutEffect(s: SessionState)
    ensures var t := LogoutSpec(s);
      && t.user == None && !IsAuthenticated(t.user)
      && AccessToken(t.web.cookies, t.web.local) == None
      && RefreshToken(t.web.cookies, t.web.local) == None
      && UserDataKey !in t.web.local
      && Lookup(t.web.cookies, UserCookieKey) == Lookup(s.web.cookies, UserCookieKey)
      && Lookup(t.web.local, LocaleKey) == Lookup(s.web.local, LocaleKey)
      && t.web.navigations == s.web.navigations + [RouterPush(LoginPath)]
      && t.web.sent == s.web.sent && t.loading == s.loading
  {
  }

  /** Logging out twice leaves the same stores and state as logging out once; only a second
      navigation to the login page is added. */
  lemma LogoutIdempotent(s: SessionState)
    ensures var once := LogoutSpec(s); var twice := LogoutSpec(once);
      && twice.user == once.user && twice.loading == once.loading
      && twice.web.cookies == once.web.cookies && twice.web.local == once.web.local
      && twice.web.sent == once.web.sent
      && twice.web.navigations == once.web.navigations + [RouterPush(LoginPath)]
  {
  }

  /** `fetchUserData`: a parsable `user` cookie answers without any request; otherwise `/me` is
      called through the gateway. A profile is stored in state and, as JSON, under `userData`; a
      falsy body changes nothing; an error logs out only on 401 and is rethrown unchanged.
      Every path ends with `loading` false. */
  function FetchSpec(s: SessionState, json: Json, me: Reply): (SessionState, Result<Option<User>, ApiError>) {
    match UserFromCookie(s.web.cookies, json)
    case Some(u) => (s.(user := Some(u), loading := false), Ok(Some(u)))
    case None =>
      var (w, r) := SendSpec(s.web, HttpMethod.Get, MePath, me);
      match r
      case Ok(Profile(u)) =>
        (SessionState(Some(u), false, w.(local := w.local[UserDataKey := json.stringify(u)])), Ok(Some(u)))
      case Ok(Falsy) => (s.(loading := false, web := w), Ok(None))
      case Err(e) =>
        var after := if e.status == Some(UnauthorizedStatus) then LogoutSpec(s.(web := w)) else s.(web := w);
        (after.(loading := false), Err(e))
  }

  /** The request `/me` leaves with: a GET carrying the bearer header of the stored token. */
  function MeRequest(w: WebState): Request {
    Request(HttpMethod.Get, MePath, WithBearer(BaseHeaders, AccessToken(w.cookies, w.local)))
  }

  lemma FetchFromCookieSkipsNetwork(s: SessionState, json: Json, me: Reply, u: User)
    requires UserFromCookie(s.web.cookies, json) == Some(u)
    ensures FetchSpec(s, json, me) == (s.(user := Some(u), loading := false), Ok(Some(u)))
    ensures FetchSpec(s, json, me).0.web == s.web
  {
  }

  /** A profile from `/me` becomes the user and is cached under `userData`, after exactly one
      request. */
  lemma FetchProfileCaches(s: SessionState, json: Json, u: User)
    requires UserFromCookie(s.web.cookies, json) == None
    ensures var (t, r) := FetchSpec(s, json, Success(Profile(u)));
      && r == Ok(Some(u)) && t.user == Some(u) && !t.loading
      && Lookup(t.web.local, UserDataKey) == Some(json.stringify(u))
      && t.web.sent == s.web.sent + [MeRequest(s.web)]
      && t.web.cookies == s.web.cookies && t.web.navigations == s.web.navigations
  {
  }

  /** On an error the same error is rethrown and `loading` ends false. A 401 clears the user and
      both tokens and sends the browser to the login page twice over (the gateway's location
      change, then logout's router push); any other error leaves the user and the stores as they
      were. */
  lemma FetchErrorHandling(s: SessionState, json: Json, status: Option<int>, message: Option<string>)
    requires UserFromCookie(s.web.cookies, json) == None
    ensures var (t, r) := FetchSpec(s, json, Failure(status, message));
      && r == Err(ApiError(status, message, false)) && !t.loading
      && t.web.sent == s.web.sent + [MeRequest(s.web)]
      && (status == Some(UnauthorizedStatus) ==>
            && t.user == None
            && AccessToken(t.web.cookies, t.web.local) == None
            && RefreshToken(t.web.cookies, t.web.local) == None
            && UserDataKey !in t.web.local
            && t.web.navigations == s.web.navigations + [LocationAssign(LoginPath), RouterPush(LoginPath)])
      && (status != Some(UnauthorizedStatus) ==>
            && t.user == s.user
            && t.web.cookies == s.web.cookies && t.web.local == s.web.local
            && t.web.navigations == s.web.navigations)
  {
  }

  /** Every path through `fetchUserData` leaves `loading` false. */
  lemma FetchEndsIdle(s: SessionState, json: Json, me: Reply)
    ensures !FetchSpec(s, json, me).0.loading
  {
  }

  /** The `initAuth` effect: the `user` cookie first; then the `userData` item of localStorage (a
      parse failure falls through, while a parsed falsy value ends hydration with no user); then
      `/me`, only when a truthy access token is stored; otherwise nothing but `loading` false. */
  /** The cached profile in localStorage, if it parses. */
  function StoredBody(local: Store, json: Json): Option<Body> {
    var stored := Lookup(local, UserDataKey);
    if Truthy(stored) then json.parse(stored.value) else None
  }

  function HydrateSpec(s: SessionState, json: Json, me: Reply): SessionState {
    match UserFromCookie(s.web.cookies, json)
    case Some(u) => s.(user := Some(u), loading := false)
    case None =>
      match StoredBody(s.web.local, json)
      case Some(b) => s.(user := AsUser(b), loading := false)
      case None =>
        if Truthy(AccessToken(s.web.cookies, s.web.local)) then
          FetchSpec(s.(loading := true), json, me).0
        else
          s.(loading := false)
  }

  /** Hydration touches the network at most once, and exactly when neither cache answers and a
      truthy access token is stored; that one request is the bearer-authorized `/me`. Whatever
      the path, `loading` ends false. */
  lemma HydrateOrder(s: SessionState, json: Json, me: Reply)
    ensures var t := HydrateSpec(s, json, me);
      && !t.loading
      && (UserFromCookie(s.web.cookies, json).Some? ==>
            t == s.(user := UserFromCookie(s.web.cookies, json), loading := false))
      && (UserFromCookie(s.web.cookies, json).None? && StoredBody(s.web.local, json).Some? ==>
            t == s.(user := AsUser(StoredBody(s.web.local, json).value), loading := false))
      && (if UserFromCookie(s.web.cookies, json).None? && StoredBody(s.web.local, json).None?
             && Truthy(AccessToken(s.web.cookies, s.web.local))
          then t.web.sent == s.web.sent + [MeRequest(s.web)]
          else t.web.sent == s.web.sent)
  {
  }

  /** With no cached profile and no token, hydration makes no request and leaves the user as it
      was (null for a freshly mounted provider). */
  lemma HydrateWithoutSession(s: SessionState, json: Json, me: Reply)
    requires UserFromCookie(s.web.cookies, json).None?
    requires StoredBody(s.web.local, json).None?
    requires !Truthy(AccessToken(s.web.cookies, s.web.local))
    ensures HydrateSpec(s, json, me) == s.(loading := false)
  {
  }

  /** Only an access token in the cookie tier, nothing cached: hydration makes exactly one
      request, `/me` with `Bearer <token>`, and a returned profile becomes the user. */
  lemma HydrateTokenOnlyScenario(s: SessionState, json: Json, token: string, u: User)
    requires s.web.cookies == map[AccessTokenKey := token] && token != ""
    requires s.web.local == map[]
    ensures var t := HydrateSpec(s, json, Success(Profile(u)));
      && t.user == Some(u) && !t.loading
      && t.web.sent == s.web.sent + [Request(HttpMethod.Get, MePath, BaseHeaders[AuthorizationHeader := "Bearer " + token])]
  {
  }

  /** What `fetchUserData` caches is what the next startup finds: with no `user` cookie,
      hydration after a successful fetch restores the same profile from localStorage without any
      request. */
  lemma FetchedProfileRehydrates(s: SessionState, json: Json, u: User, me: Reply)
    requires RoundTrips(json)
    requires UserFromCookie(s.web.cookies, json) == None
    ensures var fetched := FetchSpec(s, json, Success(Profile(u))).0;
      var t := HydrateSpec(fetched, json, me);
      t.user == Some(u) && t.web.sent == fetched.web.sent
  {
  }

  /** Because logout leaves the `user` cookie in place, a profile readable from that cookie is
      restored by the next hydration even though both tokens are gone. */
  lemma LogoutThenHydrateRestoresCookieUser(s: SessionState, json: Json, me: Reply, u: User)
    requires UserFromCookie(s.web.cookies, json) == Some(u)
    ensures HydrateSpec(LogoutSpec(s), json, me).user == Some(u)
    ensures AccessToken(LogoutSpec(s).web.cookies, LogoutSpec(s).web.local) == None
  {
  }

  /** `login` and `signup`: POST the credentials; on success call `fetchUserData` and return the
      POST's body; any error, from either step, is rethrown unchanged. */
  function SignInSpec(s: SessionState, json: Json, path: string, reply: Reply, me: Reply): (SessionState, Result<Body, ApiError>) {
    var (w, r) := SendSpec(s.web, Post, path, reply);
    match r
    case Err(e) => (s.(web := w), Err(e))
    case Ok(body) =>
      var (t, f) := FetchSpec(s.(web := w), json, me);
      match f
      case Err(e) => (t, Err(e))
      case Ok(_) => (t, Ok(body))
  }

  /** A rejected POST is rethrown without any profile fetch; an accepted one is followed by the
      profile fetch, whose request (when the cookie does not answer) comes right after the POST.
      After an accepted POST the session is what `fetchUserData` leaves, a fetch error is
      rethrown unchanged, and a successful fetch returns the POST's body. */
  lemma SignInSequence(s: SessionState, json: Json, path: string, reply: Reply, me: Reply)
    ensures var (t, r) := SignInSpec(s, json, path, reply, me);
      && |t.web.sent| >= |s.web.sent| + 1
      && t.web.sent[|s.web.sent|].url == path
      && (reply.Failure? ==>
            && r == Err(ApiError(reply.status, reply.message, false))
            && |t.web.sent| == |s.web.sent| + 1 && t.user == s.user)
      && (reply.Success? && UserFromCookie(s.web.cookies, json).None? ==>
            |t.web.sent| == |s.web.sent| + 2 && t.web.sent[|s.web.sent| + 1].url == MePath)
      && (reply.Success? ==>
            var fetched := FetchSpec(s.(web := SendSpec(s.web, Post, path, reply).0), json, me);
            && t == fetched.0
            && (r.Ok? <==> fetched.1.Ok?)
            && (fetched.1.Err? ==> r == Err(fetched.1.error))
            && (fetched.1.Ok? ==> r == Ok(reply.body)))
  {
  }

  class AuthProvider {
    var user: Option<User>
    var loading: bool
    const browser: Browser
    const json: Json

    /** The provider as mounted: no user, `loading` true. */
    constructor (browser: Browser, json: Json)
      ensures this.browser == browser && this.json == json
      ensures user == None && loading
    {
      this.browser := browser;
      this.json := json;
      user := None;
      loading := true;
    }

    function State(): SessionState
      reads this, browser
    {
      SessionState(user, loading, browser.State())
    }

    method Logout()
      modifies this, browser
      ensures State() == LogoutSpec(old(State()))
    {
      browser.RemoveCookie(AccessTokenKey);
      browser.RemoveCookie(RefreshTokenKey);
      browser.RemoveItem(AccessTokenKey);
      browser.RemoveItem(RefreshTokenKey);
      browser.RemoveItem(UserDataKey);
      user := None;
      browser.Navigate(RouterPush(LoginPath));
      assert old(browser.cookies) - {AccessTokenKey} - {RefreshTokenKey}
          == old(browser.cookies) - {AccessTokenKey, RefreshTokenKey};
      assert old(browser.local) - {AccessTokenKey} - {RefreshTokenKey} - {UserDataKey}
          == old(browser.local) - {AccessTokenKey, RefreshTokenKey, UserDataKey};
    }

    method FetchUserData(me: Reply) returns (r: Result<Option<User>, ApiError>)
      modifies this, browser
      ensures (State(), r) == FetchSpec(old(State()), json, me)
    {
      loading := true;
      var fromCookie := UserFromCookie(browser.cookies, json);
      if fromCookie.Some? {
        user := fromCookie;
        loading := false;
        return Ok(fromCookie);
      }
      var response := Send(browser, HttpMethod.Get, MePath, me);
      match response {
        case Ok(body) =>
          match body {
            case Profile(u) =>
              user := Some(u);
              browser.SetItem(UserDataKey, json.stringify(u));
              loading := false;
              r := Ok(Some(u));
            case Falsy =>
              loading := false;
              r := Ok(None);
          }
        case Err(e) =>
          if e.status == Some(UnauthorizedStatus) {
            Logout();
          }
          loading := false;
          r := Err(e);
      }
    }

    /** `setTokens`: true exactly when `fetchUserData` does not throw. */
    method SetTokens(me: Reply) returns (ok: bool)
      modifies this, browser
      ensures State() == FetchSpec(old(State()), json, me).0
      ensures ok <==> FetchSpec(old(State()), json, me).1.Ok?
    {
      var r := FetchUserData(me);
      ok := r.Ok?;
    }

    /** The `initAuth` startup effect. */
    method InitAuth(me: Reply)
      modifies this, browser
      ensures State() == HydrateSpec(old(State()), json, me)
    {
      loading := true;
      var fromCookie := UserFromCookie(browser.cookies, json);
      if fromCookie.Some? {
        user := fromCookie;
        loading := false;
        return;
      }
      var stored := Lookup(browser.local, UserDataKey);
      if Truthy(stored) {
        var parsed := json.parse(stored.value);
        if parsed.Some? {
          user := AsUser(parsed.value);
          loading := false;
          return;
        }
      }
      var token := AccessToken(browser.cookies, browser.local);
      if Truthy(token) {
        var _ := FetchUserData(me);
      } else {
        loading := false;
      }
    }

    method Login(reply: Reply, me: Reply) returns (r: Result<Body, ApiError>)
      modifies this, browser
      ensures (State(), r) == SignInSpec(old(State()), json, LoginApiPath, reply, me)
    {
      r := SignIn(LoginApiPath, reply, me);
    }

    method Signup(reply: Reply, me: Reply) returns (r: Result<Body, ApiError>)
      modifies this, browser
      ensures (State(), r) == SignInSpec(old(State()), json, SignupApiPath, reply, me)
    {
      r := SignIn(SignupApiPath, reply, me);
    }

    method SignIn(path: string, reply: Reply, me: Reply) returns (r: Result<Body, ApiError>)
      modifies this, browser
      ensures (State(), r) == SignInSpec(old(State()), json, path, reply, me)
    {
      var response := Send(browser, Post, path, reply);
      match response {
        case Err(e) =>
          r := Err(e);
        case Ok(body) =>
          var f := FetchUserData(me);
          r := if f.Err? then Err(f.error) else Ok(body);
      }
    }
  }
}
