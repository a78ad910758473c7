# nuxt-sanctum-auth: auth plugin model

This project is a Dafny model of the runtime plugin of `nuxt-sanctum-auth`. The plugin connects a Nuxt front end to Laravel Sanctum authentication. The model covers three things:

- **the shared auth record** `{user, loggedIn, token}` and the operations that change it: `getToken`, `setToken`, `clearToken`, `login`, `logout` and `getUser`;
- **the four route guards** `auth`, `guest`, `verified` and `unverified`, each as a decision over the record that `getUser` leaves behind;
- **the fetch client's request interceptor** (`onRequest`) and its CSRF bootstrap (`initCsrf`). Together they decide which headers a request carries and whether a CSRF cookie is fetched first.

Every operation is a pure function. The cookie store is a `map<string, string>`; a cookie that is null or unset is an absent key. The execution side (browser or server rendering) is a parameter. So is the outcome of each network request, written `Result<...>`: a resolved value, or a rejection with an opaque error. `GetUser`, `InitCsrf` and `OnRequest` also report the requests they would issue, so "no request" and "exactly one GET" can be stated for them. `Login` and `Logout` do not: their POST is represented only by its outcome.

Modules:
- `Wrappers`: `Option` and `Result`.
- `Types`: the shapes from `src/types.ts`, JavaScript truthiness of optional strings, and cookie reads.
- `Interceptor`: `onRequest` and `initCsrf`.
- `SanctumAuth`: the auth record and its operations.
- `Guards`: the route guards.
- `Lifecycle`: arbitrary sequences of calls and the invariants that hold across them.

Two behaviours of the code that are easy to misread:
- In token mode with no token, the `Authorization` header is `"Bearer null"` (JavaScript string concatenation with `null`), not an empty value (src/runtime/plugin.ts:100).
- Two `getUser` calls without refresh make at most one request only when the first call returned a user. If the first call fails, the second one asks again (src/runtime/plugin.ts:215-228; `GetUserTwiceHitsCache` states the exact condition).

## Model

| member | source | states |
|---|---|---|
| SanctumAuth.InitialSession | src/runtime/plugin.ts:12-18 | the record starts logged out, with no user and no token |
| SanctumAuth.GetToken | src/runtime/plugin.ts:140-142 | the record's token becomes the token cookie when it is truthy and null otherwise; the user, the login flag and the cookies stay the same |
| SanctumAuth.SetToken | src/runtime/plugin.ts:144-146 | the token cookie then holds the given value; the record and all other cookies stay the same |
| SanctumAuth.ClearToken | src/runtime/plugin.ts:148-150 | the token cookie is removed; every other cookie and the record stay the same |
| SanctumAuth.SetThenGetToken | src/runtime/plugin.ts:140-146 | writing a token and then reading it back gives that token, or null if it was empty |
| SanctumAuth.ClearThenGetToken | src/runtime/plugin.ts:140-150 | after the cookie is cleared, reading the token gives null |
| SanctumAuth.Login | src/runtime/plugin.ts:159-170 | the response comes back unchanged, errors included; the record is untouched; the token cookie is written exactly when token mode is on and the body carries a truthy token; other cookies are unchanged |
| SanctumAuth.Logout | src/runtime/plugin.ts:199-212 | the result is logged out, with no user, no token and no token cookie, for every request outcome; other cookies keep their values |
| SanctumAuth.GetUser | src/runtime/plugin.ts:214-232 | a cached logged-in user is returned with no request and no change; otherwise exactly one GET goes to the user endpoint; a user response sets loggedIn and user and is returned; a rejection or falsy body returns undefined and leaves the state unchanged |
| SanctumAuth.GetUserTwiceHitsCache | src/runtime/plugin.ts:214-228 | once getUser has returned a user, the next call without refresh makes no request and returns the same user |
| SanctumAuth.OperationsPreserveConsistent | src/runtime/plugin.ts:140-232 | getUser, login, logout and the token helpers each keep "logged in exactly when a user is held" |
| Interceptor.MutatingMethodsIgnoreCase | src/runtime/plugin.ts:87-94 | the CSRF bootstrap is triggered exactly by post, delete, put or patch in any letter case; a request with no method never triggers it |
| Interceptor.Lower | src/runtime/plugin.ts:90 | lower-casing keeps the length and maps each character to its ASCII lower-case form |
| Interceptor.IsMutatingMethod | src/runtime/plugin.ts:89-91 | only a present method of three to six characters can trigger the CSRF bootstrap; the exact set is stated by MutatingMethodsIgnoreCase |
| Interceptor.AuthorizationValue | src/runtime/plugin.ts:100 | the Authorization value is empty exactly when token mode is off; in token mode it is "Bearer " followed by the token, or "Bearer null" when no token is held |
| Types.ReadCookie | src/runtime/plugin.ts:128 | reading a cookie gives its value when it is set and null when it is not |
| SanctumAuth.StoresToken | src/runtime/plugin.ts:165 | login can store a token only in token mode and only after a request that resolved |
| SanctumAuth.ServedFromCache | src/runtime/plugin.ts:215 | getUser answers from the record only without refresh and only when a user is held |
| Interceptor.CallerLowercaseAuthorizationSurvives | src/runtime/plugin.ts:96-101 | a caller header spelled `authorization` is kept beside the interceptor's own `Authorization` entry, in either mode |
| Interceptor.InitCsrf | src/runtime/plugin.ts:126-138 | a truthy CSRF cookie is returned with no request; otherwise exactly one GET goes to the CSRF endpoint, a rejection propagates, and a success stores and returns the cookie value that GET set, or leaves the cookies as they were and returns the re-read cookie when it set none; no other cookie changes |
| Interceptor.InitCsrfReusesCookie | src/runtime/plugin.ts:126-138 | after a bootstrap that leaves a truthy cookie, the next bootstrap makes no request and returns the same value |
| Interceptor.BuildHeaders | src/runtime/plugin.ts:96-113 | the headers are Accept, the caller's headers, the CSRF header if the token is truthy, Authorization, and the inbound cookie on the server; caller values survive unless a later write overrides them; Accept defaults to application/json; Authorization is always the interceptor's own value |
| Interceptor.OnRequest | src/runtime/plugin.ts:72-117 | a request is made exactly for a client request with a mutating method and no truthy CSRF cookie, and it is the one GET to the CSRF endpoint; such a request fails exactly when that GET rejects; no cookie other than the CSRF one changes, and no cookie at all changes unless the CSRF GET was made and resolved with a cookie; a cookie that GET set is stored as given; base URL is the configured one; the CSRF header carries the cookie value as it stands after the bootstrap, which is the existing cookie or the one the GET set |
| Interceptor.CookieModeSendsNoBearer | src/runtime/plugin.ts:100 | with token mode off, the interceptor's own Authorization entry is empty in every prepared request |
| Interceptor.TokenModeSendsBearer | src/runtime/plugin.ts:100 | with token mode on and a token held, the interceptor's own Authorization entry is "Bearer " followed by the token, replacing a caller value under that exact name |
| Interceptor.CsrfReplyWithoutCookieKeepsJar | src/runtime/plugin.ts:126-137 | when the CSRF GET resolves without setting a cookie, no cookie changes and the CSRF header, if sent, carries the cookie that already existed |
| Interceptor.ClientPostBootstrapsCsrf | src/runtime/plugin.ts:86-99 | a client POST with no CSRF cookie makes exactly one GET to the CSRF endpoint and sends the newly set cookie in the CSRF header |
| Guards.AuthDecision | src/runtime/plugin.ts:28-30 | redirects to the login page exactly when not logged in, and continues otherwise |
| Guards.GuestDecision | src/runtime/plugin.ts:39-41 | redirects home exactly when logged in, and continues otherwise |
| Guards.VerifiedDecision | src/runtime/plugin.ts:50-56 | not logged in goes to login; logged in with a null user throws; otherwise the user goes to the verify page exactly when email_verified_at is falsy |
| Guards.UnverifiedDecision | src/runtime/plugin.ts:65-67 | throws exactly when the user is null; otherwise redirects home exactly when email_verified_at is truthy |
| Guards.UnverifiedFixedDecision | src/runtime/plugin.ts:59-68 | never throws; anyone not logged in goes to the login page |
| Guards.UnverifiedFixAgreesWhereDefined | src/runtime/plugin.ts:59-68 | on a consistent record, the corrected guard decides exactly as the original wherever the original does not throw |
| Guards.ConsistentGuardsCrashOnlyForGuestsOnUnverified | src/runtime/plugin.ts:44-68 | on a consistent record, a guard throws exactly when it is unverified and nobody is logged in |
| Guards.RunGuard | src/runtime/plugin.ts:22-68 | a guard run reads the token cookie only in token mode and then its record is exactly what getUser without refresh leaves: a fetched user (when not cached) logs in, a rejection or falsy body leaves loggedIn and user as they were; its decision is taken on the resulting record; it keeps consistency, keeps the cookies, and never logs anyone out |
| Guards.AuthGuardRedirectsGuest | src/runtime/plugin.ts:22-31 | a visitor who is not logged in and whose user request fails or returns nothing is redirected to login |
| Guards.VerifiedGuardRedirectsUnverifiedUser | src/runtime/plugin.ts:44-57 | a logged-in user with null email_verified_at goes to the verify page, whatever the network says |
| Guards.UnverifiedGuardThrowsForGuest | src/runtime/plugin.ts:59-68 | from the initial state, a visitor whose user request fails makes unverified throw |
| Lifecycle.Step | src/runtime/plugin.ts:22-232 | every public call keeps the record consistent; in cookie mode every call keeps the record without a token |
| Lifecycle.RunPreservesConsistent | src/runtime/plugin.ts:12-232 | after any sequence of calls, the record is logged in exactly when it holds a user |
| Lifecycle.RunKeepsCookieModeTokenless | src/runtime/plugin.ts:22-232 | in cookie mode, no sequence of calls ever puts a token in the record |
| Lifecycle.InitialInvariants | src/runtime/plugin.ts:12-18 | from the freshly installed plugin, loggedIn implies a user after any sequence of calls; in cookie mode the token stays null |
| Lifecycle.RunAppend | src/runtime/plugin.ts:22-232 | running two call sequences one after the other is the same as running their concatenation |
| Lifecycle.LogoutAlwaysClears | src/runtime/plugin.ts:199-212 | after any call history, logout leaves the initial record and no token cookie, whether its request succeeded or failed |
| Lifecycle.CookieLoginThenGetUser | src/runtime/plugin.ts:159-228 | in cookie mode, after a login with no token, getUser returns the fetched profile and the record is logged in |
| Lifecycle.TokenLoginThenGuard | src/runtime/plugin.ts:22-170 | in token mode, a login returning token "abc" sets the token cookie to "abc", and the next guard copies it into the record |

## Left out

- HTTP itself, `$fetch.create` and the `credentials` option. Each request's outcome is an input, and a rejection is an opaque error message.
- The five pass-through operations `register`, `forgotPassword`, `resetPassword`, `verifyEmail` and `resendEmailVerification`. They add no logic beyond the interceptor.
- `login`, `logout`, `getUser`: the model does not chain these operations through `OnRequest`. Their response parameter already stands for the whole fetch, CSRF bootstrap failure included. As a result, the CSRF cookie that a bootstrap sets during these calls is not carried into the session's cookie jar.
- Nuxt runtime hooks: `useState`, `useRuntimeConfig`, `useCookie`, `useRequestHeaders`, `useEvent`, `parseCookies`, `process.client` and `process.server`. They become an explicit cookie map, an explicit `Side` value and an explicit config value. On the server, the cookie map stands for the inbound request's parsed cookies.
- `useCookie` value decoding (JSON parsing of cookie text). Cookie values are plain strings.
- Console logging, including the status-500 logging in `onResponseError`. It has no effect on state.
- Races between concurrent guards and `getUser` calls. Calls are modelled one at a time.
- `login`'s `JSON.stringify` of the request body. It is body serialisation only.
- Caller headers given as `Headers` instances or arrays. Caller headers are a plain string map, and header names are compared exactly, as JavaScript object keys are.
- How the router treats a guard that returns an empty redirect path. The model only records which path is returned.
- Interceptor.CookieModeSendsNoBearer: covers only the header named exactly `Authorization`. A caller header spelled with another case, such as `authorization`, is kept beside it (CallerLowercaseAuthorizationSurvives), and fetch treats header names case-insensitively, so such a caller value can still be sent as a bearer in cookie mode. The model keeps header names as JavaScript object keys and does not model fetch's merging of them.
- Interceptor.MutatingMethodsIgnoreCase: lower-casing folds ASCII letters only. No non-ASCII character lower-cases into the letters of post, delete, put or patch, so the decision is unaffected.
- `src/module.ts` (module registration and defaults) and `playground/nuxt.config.ts`. Neither has behaviour to verify. The module publishes its options under `nuxtSanctum`, while the plugin reads `nuxtSanctumAuth`; the model takes the configuration as a parameter, so this mismatch is outside it.

## Findings

| source | as written | input that shows it | evidently intended | confidence | as-written member | corrected member |
|---|---|---|---|---|---|---|
| src/runtime/plugin.ts:59-68 | `unverified` reads `auth.value.user.email_verified_at` without first checking that anyone is logged in | a visitor who is not logged in (user request fails, record still initial) navigates to a page guarded by `unverified`; `user` is null, so the read throws a TypeError | check the login state first, as `verified` does, and send such visitors to the login page | medium (not executed) | Guards.UnverifiedGuardThrowsForGuest | Guards.UnverifiedFixedDecision |

`Guards.UnverifiedDecision` models the guard as written. `Guards.RunGuard` uses that version, because it models the plugin's behaviour. `Guards.UnverifiedFixedDecision` is proved never to throw. `Guards.UnverifiedFixAgreesWhereDefined` proves that it decides exactly as the original on every consistent record where the original does not throw.
