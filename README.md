# Client session layer — a verified Dafny model

This project models the client-side session logic of a Next.js front end for an authentication
service. The browser holds two string-keyed stores:

- a cookie jar with `accessToken`, `refreshToken` and `user`;
- localStorage with `accessToken`, `refreshToken`, `userData` and `locale`.

The model covers these pieces:

- **Session controller** (`AuthContext`): the in-memory `user` and `loading` state, token lookup
  (the cookie wins over localStorage), `user`-cookie decoding, ordered startup hydration,
  `fetchUserData`, `logout`, `hasRole`, `setTokens`, and `login` / `signup`.
- **HTTP gateway** (`api.ts`): an axios instance whose request interceptor adds
  `Authorization: Bearer <token>` (RFC 6750, section 2.1). Its response interceptor runs the
  unauthorized-recovery protocol on a 401 and then rejects the error unchanged.
- **Signup page**: the five password criteria, the "at least four of five" strength rule, and
  `handleSubmit`. That handler gates on strength, then sequences the register call,
  `fetchUserData` and the dashboard navigation.
- **Dashboard page**: its own `getToken` and the `updateUserInfo` decision (login page, `user`
  cookie, or fetch). It also covers the welcome message with `+` read as a space, and the redirect
  of an unauthenticated visitor.
- **Language context and language switcher**: two copies of the dotted-key catalogue lookup `t`,
  the initial locale resolution, and `changeLanguage`.

## How the model is built

**Modules.** There is one module per source file:

| module | source file |
|---|---|
| `Session` | `context/AuthContext.tsx` |
| `Gateway` | `utils/api.ts` |
| `Signup` | `app/signup/page.tsx` |
| `Dashboard` | `app/dashboard/page.tsx` |
| `Translation` | `context/LanguageContext.tsx` |
| `Switcher` | `components/LanguageSwitcher.tsx` |

Four shared modules sit under them:

- `Common`: `Option`, `Result`, the `+` rewrite, and `String.prototype.split` as `Split`.
- `UriCodec`: `decodeURIComponent` over ASCII, plus a form encoder that is its partner.
- `Web`: the browser as a `Browser` class with a `WebState` snapshot.
- `Profile`: the user record and the JSON boundary.

**State-changing code.** Every operation that changes state step by step is a `method` on a
class. The classes are `Web.Browser`, `Gateway.RequestConfig`, `Session.AuthProvider`,
`Signup.SignupForm`, `Dashboard.DashboardPage`, `Translation.LanguageProvider`,
`Switcher.TranslationModule` and `Switcher.LanguageSwitcher`. Each method is proved equal to a
pure specification function of the old state, such as `FetchSpec`, `HydrateSpec`, `SubmitSpec`,
`UpdateSpec` or `ResolveLocale`. The source's promises are then proved as lemmas about those
functions.

**Network.** The network is an oracle. Each call receives the server's `Reply` as a parameter,
and every dispatched request is appended to a log. Navigations (`router.push`,
`window.location.href = …`, `window.location.reload()`) are appended to another log.

## Model

| member | source | states |
|---|---|---|
| Web.Lookup | context/AuthContext.tsx:39 | `Cookies.get` / `localStorage.getItem` yields the stored value exactly when the key is present. |
| Web.TierLookup | context/AuthContext.tsx:37-66 | A non-empty cookie wins. Otherwise the localStorage value is used, even an empty one. The result is null exactly when the cookie is absent or empty and localStorage lacks the key. |
| Web.AccessToken | context/AuthContext.tsx:37-50 | `getToken`: the non-empty `accessToken` cookie, otherwise the localStorage item. |
| Web.RefreshToken | context/AuthContext.tsx:53-66 | `getRefreshToken`: the non-empty `refreshToken` cookie, otherwise the localStorage item. |
| Web.CookieTierWins | context/AuthContext.tsx:37-50 | When both tiers hold different values and the cookie is non-empty, the cookie value is returned, never the localStorage one. |
| Web.EmptyCookieFallsBack | context/AuthContext.tsx:40 | An empty-string cookie counts as absent: localStorage decides. |
| Common.ReplacePlus | context/AuthContext.tsx:74 | `replace(/\+/g, ' ')`: same length, and every `+` becomes a space while every other character is kept. |
| Common.ReplacePlusConcat | context/AuthContext.tsx:74 | The global `+` rewrite distributes over concatenation. |
| Common.Split | components/LanguageSwitcher.tsx:24 | `split(sep)` yields at least one part, and no part contains the separator. |
| Common.JoinSplit | components/LanguageSwitcher.tsx:24 | Joining the parts of a split with the separator restores the input, so no character is lost. |
| Common.SplitSeparatorFreePrefix | context/LanguageContext.tsx:37 | A separator-free prefix fuses with the first part of the split of the rest. |
| Common.SplitJoin | context/LanguageContext.tsx:60 | Splitting a join of separator-free parts gives those parts back. |
| UriCodec.HexValue | context/AuthContext.tsx:74 | A hexadecimal digit's value is below 16. |
| UriCodec.PercentDecode | context/AuthContext.tsx:74 | Text without `%` decodes to itself, and a decoded result is never longer than its input. |
| UriCodec.FormDecode | app/dashboard/page.tsx:56 | Decoding succeeds exactly when every `%` after the `+` rewrite starts a valid escape; text without `%` only has its `+` turned to spaces. |
| UriCodec.HexDigit | context/AuthContext.tsx:74 | The digit chosen for a value below 16 is a hexadecimal digit whose value is that value. |
| UriCodec.PercentDecodeSucceedsIff | context/AuthContext.tsx:74 | `decodeURIComponent` succeeds exactly when every `%` starts a well-formed ASCII escape. |
| UriCodec.PercentDecodeConcat | context/AuthContext.tsx:74 | Decoding a decodable prefix followed by a suffix is the prefix's decoding followed by the suffix's. |
| UriCodec.EncodeCharDecodes | context/AuthContext.tsx:74 | One encoded character decodes back to itself in front of any suffix. |
| UriCodec.FormDecodeEncode | context/AuthContext.tsx:74 | Round trip: the `+` rewrite then percent-decoding restores any form-encoded string. |
| UriCodec.FormDecodeConcat | context/AuthContext.tsx:74 | The cookie decoding of a decodable prefix followed by a suffix splits the same way. |
| UriCodec.PlusIsSpace | context/AuthContext.tsx:73-74 | A raw `+` between two decodable pieces decodes to a space. |
| UriCodec.EscapedPlusIsPlus | context/AuthContext.tsx:73-74 | `%2B` between two decodable pieces decodes to a literal `+`. |
| Profile.AsUser | context/AuthContext.tsx:166 | `setUser(value)` signs someone in exactly when the value is a profile, and then it is that profile. |
| Session.UserFromCookie | context/AuthContext.tsx:69-81 | No truthy cookie, or a malformed escape, gives null. The result is a user exactly when the cookie is truthy, decodes and parses to a profile, and it is the parsed profile. |
| Session.FormEncodeNonEmpty | context/AuthContext.tsx:72 | The encoding of a non-empty string is non-empty, so it passes the truthiness test. |
| Session.UserCookieRoundTrip | context/AuthContext.tsx:69-81 | When the text `Cookies.get('user')` returns is a profile's JSON, form-encoded, `getUserFromCookie` reads back the same profile. |
| Session.HasRole | context/AuthContext.tsx:223-225 | True exactly when a user is signed in, has a role list, and the role is in it. |
| Session.IsAuthenticated | context/AuthContext.tsx:228 | `!!user`: signed in exactly when a user is held; `HasRoleNeedsAuthentication` relates it to `hasRole`. |
| Session.HasRoleNeedsAuthentication | context/AuthContext.tsx:223-228 | Holding a role implies `isAuthenticated`. A profile without a role list holds no role. |
| Session.LogoutEffect | context/AuthContext.tsx:205-220 | After logout both tokens read null in both tiers, `userData` is gone and the user is null. The `user` cookie and `locale` are kept, one router push to `/login` is added, and nothing is sent. |
| Session.LogoutIdempotent | context/AuthContext.tsx:205-220 | Logging out twice gives the same stores and state as once; only the navigation log grows. |
| Session.FetchFromCookieSkipsNetwork | context/AuthContext.tsx:95-101 | A parsable `user` cookie answers `fetchUserData` with no request, and the browser is unchanged. |
| Session.FetchProfileCaches | context/AuthContext.tsx:104-117 | A `/me` profile becomes the user and is cached under `userData` as its JSON, after exactly one bearer-authorized `/me` request. |
| Session.FetchErrorHandling | context/AuthContext.tsx:122-130 | A fetch error is rethrown unchanged and `loading` ends false. On 401 the session is logged out, after the gateway's own redirect. Any other error leaves the user and the stores alone. |
| Session.FetchEndsIdle | context/AuthContext.tsx:99-128 | Every path through `fetchUserData` ends with `loading` false. |
| Session.HydrateOrder | context/AuthContext.tsx:146-191 | Hydration consults the cookie first, then a parsable `userData`, then `/me`. Exactly one request is made, and only when neither cache answers and a token exists. `loading` always ends false. |
| Session.HydrateWithoutSession | context/AuthContext.tsx:175-183 | With no cache and no token, hydration sends nothing and leaves the user as it was. |
| Session.HydrateTokenOnlyScenario | context/AuthContext.tsx:176-179 | With only a cookie token, hydration sends one `/me` request carrying `Bearer <token>`, and the returned profile becomes the user. |
| Session.FetchedProfileRehydrates | context/AuthContext.tsx:113 | What `fetchUserData` caches is restored by the next hydration, without a request. |
| Session.LogoutThenHydrateRestoresCookieUser | context/AuthContext.tsx:205-220 | Logout leaves the `user` cookie, so the next hydration restores that profile although both tokens are gone. |
| Session.SignInSequence | context/AuthContext.tsx:235-256 | `login`/`signup` POST first. A rejected POST is rethrown with no profile fetch. An accepted one is followed by `/me` when the cookie does not answer, and the session is then what `fetchUserData` leaves. A fetch error is rethrown unchanged; a successful fetch returns the POST's body. |
| Session.AuthProvider.constructor | context/AuthContext.tsx:84-85 | The provider mounts with no user and `loading` true. |
| Session.AuthProvider.Logout | context/AuthContext.tsx:205-220 | The provider's new state is `LogoutSpec` of the old one. |
| Session.AuthProvider.FetchUserData | context/AuthContext.tsx:89-131 | The new state and the result are `FetchSpec` of the old state and the `/me` reply. |
| Session.AuthProvider.SetTokens | context/AuthContext.tsx:134-143 | Returns true exactly when `fetchUserData` does not throw, and leaves the state `fetchUserData` leaves. |
| Session.AuthProvider.InitAuth | context/AuthContext.tsx:146-191 | The new state is `HydrateSpec` of the old one. |
| Session.AuthProvider.Login | context/AuthContext.tsx:235-245 | State and result are `SignInSpec` with the login path. |
| Session.AuthProvider.Signup | context/AuthContext.tsx:246-256 | State and result are `SignInSpec` with the signup path. |
| Session.AuthProvider.SignIn | context/AuthContext.tsx:235-256 | The shared POST-then-fetch sequence equals `SignInSpec`. |
| Gateway.WithBearer | utils/api.ts:33-41 | `Authorization` is `Bearer <token>` exactly when the token is truthy; otherwise the headers are unchanged. No other header is added, removed or changed. |
| Gateway.OnRequest | utils/api.ts:33-41 | The interceptor returns the same config with only its headers updated, as `WithBearer` with the stored token. |
| Gateway.TriggersRecovery | utils/api.ts:56 | Recovery fires on a 401 whose request has not been retried; `RecoveryEffect` states what it then changes. |
| Gateway.RecoveryEffect | utils/api.ts:56-67 | The response handler changes the browser exactly when the status is 401 and `_retry` is unset. It then removes `userData` and assigns `/login`. It never touches cookies, tokens or the request log. |
| Gateway.RetriedRequestDoesNotRecover | utils/api.ts:56 | A request already marked `_retry` causes no side effect. |
| Gateway.OnResponseError | utils/api.ts:50-71 | The same error is rejected, and the browser changes as the recovery protocol says. |
| Gateway.Send | utils/api.ts:24-72 | One call through the instance equals `SendSpec`. |
| Gateway.SendContract | utils/api.ts:33-72 | Every call dispatches exactly one request to its URL. The bearer header is present exactly when a truthy token is stored. A success returns its body untouched with stores and navigations unchanged. An error is rejected with the reply's own status and message. |
| Gateway.NonUnauthorizedFailureHasNoEffect | utils/api.ts:56 | A non-401 failure leaves localStorage and the navigations as they were. |
| Signup.Test | app/signup/page.tsx:60-63 | `/[…]/.test(p)` is true exactly when some character of `p` is in the class. |
| Signup.Evaluate | app/signup/page.tsx:57-65 | Length ≥ 8 in UTF-16 code units, and an ASCII upper-case letter, lower-case letter, digit, or character outside `[A-Za-z0-9]`: each flag holds exactly when its condition does. |
| Signup.Utf16Length | app/signup/page.tsx:59 | `password.length` counts between one and two code units per character, exactly one each when every character is below U+10000. |
| Signup.Utf16LengthConcat | app/signup/page.tsx:59 | The code-unit length of a concatenation is the sum of the lengths. |
| Signup.AstralCharactersCountTwice | app/signup/page.tsx:59-68 | A six-character password with two characters above U+FFFF meets the length criterion and is strong. |
| Signup.CountMet | app/signup/page.tsx:68 | The count is five exactly when every criterion holds and zero exactly when none does. |
| Signup.IsStrong | app/signup/page.tsx:68 | At least four of the five flags hold; `StrongIffAtMostOneMissed` states it case by case. |
| Signup.StrongIffAtMostOneMissed | app/signup/page.tsx:68 | Strong exactly when at least four of the five criteria hold. |
| Signup.ShortStrongPasswordUsesEveryClass | app/signup/page.tsx:59-68 | A strong password under eight code units contains all four character classes. |
| Signup.SpaceAndNonAsciiAreSpecial | app/signup/page.tsx:63 | A space or a non-ASCII character satisfies the special criterion. |
| Signup.LowercaseOnlyIsWeak | app/signup/page.tsx:59-68 | A password of lower-case letters only is weak, whatever its length. |
| Signup.ErrorMessage | app/signup/page.tsx:117 | The server's non-empty `message` when present, else the translated fallback. |
| Signup.WeakPasswordSendsNothing | app/signup/page.tsx:74-83 | A weak password returns at once: nothing is sent and `isLoading` and the session are unchanged. |
| Signup.SubmitSequence | app/signup/page.tsx:85-127 | Past the strength check, the register POST goes out first and `isLoading` ends false. A failed register sends nothing else, reports the server message or the fallback, and never reaches the dashboard. After a successful register, a successful `fetchUserData` ends in `Registered` with the dashboard push as the last navigation, and a failed one reports its own error's message or the fallback, with no push. |
| Signup.SignupForm.constructor | app/signup/page.tsx:41-54 | The form starts with an empty password whose criteria all fail, matching `Evaluate` of it, and `isLoading` false. |
| Signup.SignupForm.SetPassword | app/signup/page.tsx:57-65 | After typing, the criteria are those of the new password (`Valid`). |
| Signup.SignupForm.HandleSubmit | app/signup/page.tsx:70-128 | `isLoading`, the session and the outcome are `SubmitSpec` of the old state, with the fallback text translated in the current locale. |
| Signup.SignupForm.CompleteRegistration | app/signup/page.tsx:108-112 | After a successful register: `fetchUserData`, then the dashboard push only if it did not throw. |
| Dashboard.GetToken | app/dashboard/page.tsx:28-37 | The `accessToken` cookie when non-empty, else the localStorage value. |
| Dashboard.GetTokenAgreesWithSession | app/dashboard/page.tsx:28-37 | The page's `getToken` reads the same token as the session's and the gateway's. |
| Dashboard.CookieParses | app/dashboard/page.tsx:52-63 | The inner `try` succeeds: the `user` cookie is non-empty, decodes and parses as any JSON value; `CookieCheckIsWeakerThanSession` compares it with the session's reading. |
| Dashboard.CookieCheckIsWeakerThanSession | app/dashboard/page.tsx:52-59 | Every cookie the session reads a profile from passes the page's check. A cookie holding falsy JSON passes the page's check although the session reads no user. |
| Dashboard.UpdateDecision | app/dashboard/page.tsx:40-83 | No token: login redirect and no request. A parsable cookie: nothing changes. Otherwise exactly one `/me` request, and the effect fails exactly when `fetchUserData` throws. The error toast shows exactly when no user was loaded before the fetch. |
| Dashboard.WelcomeMessage | app/dashboard/page.tsx:86-96 | With a non-empty name: greeting, then the name with each `+` read as a space, then `!`. Otherwise the generic greeting. |
| Dashboard.WelcomeHasNoPlus | app/dashboard/page.tsx:90 | No welcome message contains a `+`. |
| Dashboard.WelcomeIgnoresPlusSpelling | app/dashboard/page.tsx:90-91 | Names that differ only in spelling a space as `+` get the same greeting. |
| Dashboard.ShouldRedirect | app/dashboard/page.tsx:100-102 | Not loading, not authenticated, and no token; `RedirectIffAllThree` proves the effect fires exactly then. |
| Dashboard.RedirectIffAllThree | app/dashboard/page.tsx:99-107 | The redirect fires exactly when not loading, not authenticated and no token. It then adds one router push to `/login` and nothing else. |
| Dashboard.LogoutLeadsToRedirect | app/dashboard/page.tsx:99-107 | Once a logout has settled, the redirect condition holds. |
| Dashboard.NoSessionRedirects | app/dashboard/page.tsx:99-107 | A visitor with no cache and no token ends hydration on the redirect condition. |
| Dashboard.DashboardPage.UpdateUserInfo | app/dashboard/page.tsx:40-83 | The session and outcome are `UpdateSpec` of the old session and the `/me` reply. |
| Dashboard.DashboardPage.RefreshWelcome | app/dashboard/page.tsx:86-96 | The message becomes `WelcomeMessage` of the current user. |
| Dashboard.DashboardPage.RedirectEffect | app/dashboard/page.tsx:99-107 | The session becomes `RedirectSpec` of the old one. |
| Translation.ParseLocale | context/LanguageContext.tsx:33 | A string is accepted as a locale exactly when it is that locale's name. |
| Translation.Step | context/LanguageContext.tsx:64-65 | A step succeeds only into a truthy member of an object. |
| Translation.Walk | context/LanguageContext.tsx:63-70 | The node the loop reaches after every segment, or none when a segment is missing or falsy; `WalkEndsTruthy` proves the reached node truthy. |
| Translation.WalkEndsTruthy | context/LanguageContext.tsx:63-70 | A walk that succeeds over at least one segment ends on a truthy value. |
| Translation.Translate | context/LanguageContext.tsx:59-73 | `t` is total: its result is the key itself or the catalogue string the whole path reaches. |
| Translation.TranslateOutcomes | context/LanguageContext.tsx:63-72 | A missing or falsy segment gives the key. A path ending on a non-string gives the key. A path ending on a string gives that string, which is never empty. |
| Translation.TranslateTwoLevels | context/LanguageContext.tsx:59-72 | `t('a.b')` returns the non-empty string under `b` of the object under `a`. |
| Translation.PrimarySubtagOfTag | context/LanguageContext.tsx:37 | The primary subtag of `xx-YY` is `xx`, and of a tag without `-` the tag itself. |
| Translation.PrimarySubtag | context/LanguageContext.tsx:37 | `split('-')[0]` is a prefix of the tag and contains no `-`. |
| Translation.ResolveLocale | context/LanguageContext.tsx:29-48 | A saved `tr`/`en` wins and nothing is written. Otherwise the browser's primary subtag `tr` gives Turkish and anything else English, and the choice is persisted. |
| Translation.ResolutionIsStable | context/LanguageContext.tsx:29-48 | Resolving again against the store the first resolution left picks the same locale and writes nothing. |
| Translation.ChangedLocaleIsAdopted | context/LanguageContext.tsx:50-56 | A locale set by `changeLanguage` is the one the next resolution adopts. |
| Translation.LanguageProvider.constructor | context/LanguageContext.tsx:17-27 | The locale starts as Turkish before resolution. |
| Translation.LanguageProvider.T | context/LanguageContext.tsx:59-73 | The result is the key or the string the whole path reaches in the current locale's catalogue. |
| Translation.LanguageProvider.ResolveInitialLocale | context/LanguageContext.tsx:29-48 | The locale and localStorage become what `ResolveLocale` says. |
| Translation.LanguageProvider.ChangeLanguage | context/LanguageContext.tsx:50-57 | The locale is set, and it is persisted under `locale` and as the document language. |
| Switcher.RootOf | components/LanguageSwitcher.tsx:25 | A valid locale name selects its catalogue. Any other name reads a falsy value (own catalogue keys only). |
| Switcher.UnknownLocaleGivesKey | components/LanguageSwitcher.tsx:25-33 | With an unknown locale name every key translates to itself. |
| Switcher.SwitcherAgreesWithContext | components/LanguageSwitcher.tsx:22-41 | The switcher's `t` and the context's `t` give the same result for the same locale. |
| Switcher.TranslationModule.constructor | components/LanguageSwitcher.tsx:19 | The global `currentLocale` starts as `en`, a valid locale. |
| Switcher.TranslationModule.T | components/LanguageSwitcher.tsx:22-41 | With the global at `tr` or `en`, the loop returns exactly what the context's `t` returns over that locale's catalogue: the key, or the string the path reaches. |
| Switcher.LanguageSwitcher.constructor | components/LanguageSwitcher.tsx:44-45 | The component starts with locale `en` and is not yet mounted. |
| Switcher.LanguageSwitcher.Mount | components/LanguageSwitcher.tsx:48-68 | The same resolution rule as the context, adopted into both the state and the global, which stays `tr` or `en`. The document language is set, and the choice is persisted only when nothing valid was saved. |
| Switcher.LanguageSwitcher.ChangeLanguage | components/LanguageSwitcher.tsx:70-85 | State and global become the new locale. It is persisted and set as the document language, and a reload is recorded. |
| Switcher.LanguageSwitcher.MenuLabel | components/LanguageSwitcher.tsx:87-102 | Nothing before mount. Afterwards `Türkçe` exactly when the locale is `tr`, else `English`. |

## Left out

- Session.UserCookieRoundTrip: the cookie jar holds each value as `Cookies.get` returns it. js-cookie's own read decoding of the raw cookie header is not modelled, so the round trip is about that returned text; if the library has already percent-decoded the value, `getUserFromCookie` decodes it a second time, and that second pass is all this model covers.
- JSON parsing and stringification are abstract. `Profile.Json` holds them as function values, and only the round-trip property `Profile.RoundTrips` is assumed where a lemma needs it. JSON values other than profiles and falsy values (numbers, `true`, arrays) are not distinguished.
- UriCodec.PercentDecode: decodes ASCII escapes only. An escape of a byte `%80` or above counts as malformed, so multi-byte UTF-8 sequences that `decodeURIComponent` accepts are rejected. The encoder partner `FormEncode` passes non-ASCII characters through raw.
- `getGoogleAuthUrl` and `handleGoogleSignup`: they fetch and follow an OAuth URL string. No session state changes.
- `getTokenInfo` on the dashboard: it relies on base64 `atob` and JWT payload decoding, which are library calls.
- `handleRefreshUserData` on the dashboard: it is `fetchUserData` followed by a toast, and toasts are not modelled.
- Toasts, `console` logging, all rendering, the loading spinner and the `isClient` first-render gate are not modelled. The only exception is the switcher's menu label.
- Async interleavings are not modelled: React effect re-runs, overlapping `fetchUserData` calls and late replies. Each async function is one sequential method.
- Translations in `handleSubmit` are read in the locale current when the method starts. A concurrent language change is not modelled.
- Gateway.OnRequest: the request interceptor's error handler is not modelled. No earlier interceptor exists that could reject, so that handler is never reached.
- The `_retry` flag is never set anywhere in the code. Requests therefore leave with it unset, and only the guard itself is modelled.
- Request bodies (credentials, registration form fields), `baseURL`, `withCredentials` and cookie attributes such as `path` are not modelled. A request is recorded as method, URL and headers.
- Translation.Step: only objects have members, and only their own keys. JavaScript indexing into strings and arrays (`"abc"["0"]`) is not modelled, nor are members inherited from `Object.prototype`: `t('constructor.name')` returns `"Object"` in JavaScript, while `Translate` returns the key.
- Switcher.RootOf: `translationsData[name]` is modelled over the two locale keys only. An inherited member such as `translationsData['constructor']` is truthy in JavaScript; the global never holds such a name.
- Switcher.TranslationModule.T: the `try`/`catch` around the walk is not modelled, because nothing in the modelled walk can throw.
- The `typeof window` checks are taken as always true: the model is the browser side only.
- The undefined `hasMinLength`, `hasUpperCase` and related names referenced in the signup page's markup are a rendering defect and are not modelled.
- `app/layout.tsx` and `app/providers.tsx` are not part of this model. They compose providers and theme colours and hold no logic.
- The catalogue contents (`locales/tr.json`, `locales/en.json`) are not part of this model. The catalogues are parameters.
