/** The HTTP gateway of `utils/api.ts`: an axios instance whose request interceptor attaches the
    bearer token and whose response interceptor runs the unauthorized-recovery protocol. The
    network itself is an oracle: each call receives the server's `Reply` as a parameter. */
module Gateway {
  import opened Common
  import opened Web
  import opened Profile

  const AuthorizationHeader := "Authorization"
  /** The instance's default headers. */
  const BaseHeaders: map<string, string> := map["Content-Type" := "application/json"]
  const UnauthorizedStatus := 401

  /** What the server answers: a body, or an error with an optional status (absent when no
      response arrived) and an optional `data.message`. */
  datatype Reply = Success(body: Body) | Failure(status: Option<int>, message: Option<string>)

  /** The axios error the gateway rejects with; `retry` is the `_retry` flag of its request. */
  datatype ApiError = ApiError(status: Option<int>, message: Option<string>, retry: bool)

  /** The headers after the request interceptor: an `Authorization: Bearer <token>` header
      (RFC 6750, section 2.1) when the token is truthy, and nothing else changed. */
  function WithBearer(headers: map<string, string>, token: Option<string>): (h: map<string, string>)
    ensures Truthy(token) ==> AuthorizationHeader in h && h[AuthorizationHeader] == "Bearer " + token.value
    ensures !Truthy(token) ==> h == headers
    ensures forall k :: k != AuthorizationHeader ==> (k in h <==> k in headers)
    ensures forall k :: k in h && k != AuthorizationHeader ==> h[k] == headers[k]
  {
    if Truthy(token) then headers[AuthorizationHeader := "Bearer " + token.value] else headers
  }

  /** The axios request config the interceptors see and mutate. */
  class RequestConfig {
    var verb: HttpMethod
    var url: string
    var headers: map<string, string>
    var retry: bool

    constructor (verb: HttpMethod, url: string)
      ensures this.verb == verb && this.url == url && headers == BaseHeaders && !retry
    {
      this.verb := verb;
      this.url := url;
      headers := BaseHeaders;
      retry := false;
    }
  }

  /** The request interceptor: reads the token (cookie first) and sets the header in place. */
  method OnRequest(config: RequestConfig, browser: Browser) returns (out: RequestConfig)
    modifies config
    ensures out == config
    ensures config.headers == WithBearer(old(config.headers), AccessToken(browser.cookies, browser.local))
    ensures config.verb == old(config.verb) && config.url == old(config.url) && config.retry == old(config.retry)
  {
    var token := AccessToken(browser.cookies, browser.local);
    if Truthy(token) {
      config.headers := config.headers[AuthorizationHeader := "Bearer " + token.value];
    }
    out := config;
  }

  /** The recovery protocol fires on a 401 whose request has not been retried. */
  predicate TriggersRecovery(e: ApiError) {
    e.status == Some(UnauthorizedStatus) && !e.retry
  }

  /** The response interceptor's effect on the browser: on recovery, drop the cached profile
      from localStorage and send the window to the login page. */
  function RecoverySpec(w: WebState, e: ApiError): WebState {
    if TriggersRecovery(e) then
      w.(local := w.local - {UserDataKey}, navigations := w.navigations + [LocationAssign(LoginPath)])
    else w
  }

  /** Recovery changes the browser exactly when it fires; it removes `userData` and adds one
      navigation to the login page, and it leaves both token tiers and the cookie jar alone. */
  lemma RecoveryEffect(w: WebState, e: ApiError)
    ensures RecoverySpec(w, e) == w <==> !TriggersRecovery(e)
    ensures RecoverySpec(w, e).cookies == w.cookies
    ensures RecoverySpec(w, e).sent == w.sent
    ensures forall k :: k != UserDataKey ==> Lookup(RecoverySpec(w, e).local, k) == Lookup(w.local, k)
    ensures TriggersRecovery(e) ==> UserDataKey !in RecoverySpec(w, e).local
    ensures TriggersRecovery(e) ==> RecoverySpec(w, e).navigations == w.navigations + [LocationAssign(LoginPath)]
  {
  }

  /** A request already marked as retried never runs the protocol a second time. */
  lemma RetriedRequestDoesNotRecover(w: WebState, e: ApiError)
    requires e.retry
    ensures RecoverySpec(w, e) == w
  {
  }

  /** The response interceptor's error handler: runs the protocol, then rejects with the same
      error. */
  method OnResponseError(browser: Browser, e: ApiError) returns (rejected: ApiError)
    modifies browser
    ensures rejected == e
    ensures browser.State() == RecoverySpec(old(browser.State()), e)
  {
    if e.status == Some(UnauthorizedStatus) && !e.retry {
      browser.RemoveItem(UserDataKey);
      browser.Navigate(LocationAssign(LoginPath));
    }
    rejected := e;
  }

  /** One call through the gateway: the request leaves with the bearer header when a token is
      present, a success passes through unchanged, and an error runs the response interceptor and
      comes back as the same error. */
  function SendSpec(w: WebState, verb: HttpMethod, url: string, reply: Reply): (WebState, Result<Body, ApiError>) {
    var headers := WithBearer(BaseHeaders, AccessToken(w.cookies, w.local));
    var w' := w.(sent := w.sent + [Request(verb, url, headers)]);
    match reply
    case Success(body) => (w', Ok(body))
    case Failure(status, message) =>
      var e := ApiError(status, message, false);
      (RecoverySpec(w', e), Err(e))
  }

  method Send(browser: Browser, verb: HttpMethod, url: string, reply: Reply) returns (r: Result<Body, ApiError>)
    modifies browser
    ensures (browser.State(), r) == SendSpec(old(browser.State()), verb, url, reply)
  {
    var config := new RequestConfig(verb, url);
    config := OnRequest(config, browser);
    browser.Dispatch(Request(config.verb, config.url, config.headers));
    match reply {
      case Success(body) =>
        r := Ok(body);
      case Failure(status, message) =>
        var e := OnResponseError(browser, ApiError(status, message, config.retry));
        r := Err(e);
    }
  }

  /** Every call dispatches exactly one request, carrying `Bearer <token>` exactly when a truthy
      token is stored; a success returns its body untouched and leaves the stores alone; an error
      is rejected with the reply's own status and message. */
  lemma SendContract(w: WebState, verb: HttpMethod, url: string, reply: Reply)
    ensures var (w', r) := SendSpec(w, verb, url, reply);
      && |w'.sent| == |w.sent| + 1 && w'.sent[..|w.sent|] == w.sent
      && w'.sent[|w.sent|].url == url
      && (AuthorizationHeader in w'.sent[|w.sent|].headers <==> Truthy(AccessToken(w.cookies, w.local)))
      && w'.cookies == w.cookies
      && (reply.Success? ==> r == Ok(reply.body) && w'.local == w.local && w'.navigations == w.navigations)
      && (reply.Failure? ==> r.Err? && r.error.status == reply.status && r.error.message == reply.message)
  {
  }

  /** Only a 401 touches the stores; any other failure leaves them as they were. */
  lemma NonUnauthorizedFailureHasNoEffect(w: WebState, verb: HttpMethod, url: string, reply: Reply)
    requires reply.Failure? && reply.status != Some(UnauthorizedStatus)
    ensures SendSpec(w, verb, url, reply).0.local == w.local
    ensures SendSpec(w, verb, url, reply).0.navigations == w.navigations
  {
  }
}
