/** The browser environment the session layer runs in: the cookie jar (Tier A), localStorage
    (Tier B), the navigations it asks for, the requests it dispatches and the document language.
    Both stores are plain string maps; a cookie's value is the text `Cookies.get` returns, and
    cookie attributes such as `path` are not modelled. */
module Web {
  import opened Common

  type Store = map<string, string>

  const AccessTokenKey := "accessToken"
  const RefreshTokenKey := "refreshToken"
  /** The profile's key in the cookie jar. */
  const UserCookieKey := "user"
  /** The profile's key in localStorage. */
  const UserDataKey := "userData"
  const LocaleKey := "locale"
  const LoginPath := "/login"
  const DashboardPath := "/dashboard"

  /** `router.push(path)`, `window.location.href = path` and `window.location.reload()`. */
  datatype Navigation = RouterPush(path: string) | LocationAssign(path: string) | Reload

  datatype HttpMethod = Get | Post

  /** A request as it leaves the client: method, path and headers. */
  datatype Request = Request(verb: HttpMethod, url: string, headers: map<string, string>)

  datatype WebState = WebState(
    cookies: Store,
    local: Store,
    navigations: seq<Navigation>,
    sent: seq<Request>,
    documentLang: string)

  /** `Cookies.get(key)` and `localStorage.getItem(key)`: the value, or undefined/null. */
  function Lookup(store: Store, key: string): (r: Option<string>)
    ensures r.Some? <==> key in store
    ensures r.Some? ==> r.value == store[key]
  {
    if key in store then Some(store[key]) else None
  }

  /** A JavaScript string-or-null is truthy when it is a non-empty string. */
  predicate Truthy(v: Option<string>) {
    v.Some? && v.value != ""
  }

  /** The shared lookup behind `getToken` and `getRefreshToken`: a non-empty cookie wins, otherwise
      whatever localStorage holds (possibly the empty string), otherwise null. */
  function TierLookup(cookies: Store, local: Store, key: string): (r: Option<string>)
    ensures Truthy(Lookup(cookies, key)) ==> r == Lookup(cookies, key)
    ensures !Truthy(Lookup(cookies, key)) ==> r == Lookup(local, key)
    ensures r == None <==> !Truthy(Lookup(cookies, key)) && key !in local
  {
    var fromCookie := Lookup(cookies, key);
    if Truthy(fromCookie) then fromCookie else Lookup(local, key)
  }

  /** `getToken`. */
  function AccessToken(cookies: Store, local: Store): (token: Option<string>)
    ensures Truthy(Lookup(cookies, AccessTokenKey)) ==> token == Some(cookies[AccessTokenKey])
    ensures !Truthy(Lookup(cookies, AccessTokenKey)) ==> token == Lookup(local, AccessTokenKey)
  {
    TierLookup(cookies, local, AccessTokenKey)
  }

  /** `getRefreshToken`. */
  function RefreshToken(cookies: Store, local: Store): (token: Option<string>)
    ensures Truthy(Lookup(cookies, RefreshTokenKey)) ==> token == Some(cookies[RefreshTokenKey])
    ensures !Truthy(Lookup(cookies, RefreshTokenKey)) ==> token == Lookup(local, RefreshTokenKey)
  {
    TierLookup(cookies, local, RefreshTokenKey)
  }

  /** When the two tiers disagree on a non-empty value, the cookie tier is the one read. */
  lemma CookieTierWins(cookies: Store, local: Store, key: string)
    requires key in cookies && key in local && cookies[key] != "" && cookies[key] != local[key]
    ensures TierLookup(cookies, local, key) == Some(cookies[key])
    ensures TierLookup(cookies, local, key) != Some(local[key])
  {
  }

  /** An empty cookie counts as absent: localStorage decides. */
  lemma EmptyCookieFallsBack(cookies: Store, local: Store, key: string)
    requires key in cookies && cookies[key] == ""
    ensures TierLookup(cookies, local, key) == Lookup(local, key)
  {
  }

  class Browser {
    var cookies: Store
    var local: Store
    var navigations: seq<Navigation>
    var sent: seq<Request>
    var documentLang: string

    constructor (cookies: Store, local: Store)
      ensures State() == WebState(cookies, local, [], [], "")
    {
      this.cookies := cookies;
      this.local := local;
      navigations := [];
      sent := [];
      documentLang := "";
    }

    function State(): WebState
      reads this
    {
      WebState(cookies, local, navigations, sent, documentLang)
    }

    /** `Cookies.remove(key)`. */
    method RemoveCookie(key: string)
      modifies this
      ensures State() == old(State()).(cookies := old(cookies) - {key})
    {
      cookies := cookies - {key};
    }

    /** `localStorage.removeItem(key)`. */
    method RemoveItem(key: string)
      modifies this
      ensures State() == old(State()).(local := old(local) - {key})
    {
      local := local - {key};
    }

    /** `localStorage.setItem(key, value)`. */
    method SetItem(key: string, value: string)
      modifies this
      ensures State() == old(State()).(local := old(local)[key := value])
    {
      local := local[key := value];
    }

    method Navigate(n: Navigation)
      modifies this
      ensures State() == old(State()).(navigations := old(navigations) + [n])
    {
      navigations := navigations + [n];
    }

    /** Hands a request to the network. */
    method Dispatch(r: Request)
      modifies this
      ensures State() == old(State()).(sent := old(sent) + [r])
    {
      sent := sent + [r];
    }

    /** `document.documentElement.lang = lang`. */
    method SetDocumentLang(lang: string)
      modifies this
      ensures State() == old(State()).(documentLang := lang)
    {
      documentLang := lang;
    }
  }
}
