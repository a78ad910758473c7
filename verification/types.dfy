/** The shapes declared in src/types.ts, the auth record's initial value,
    and the two pieces of JavaScript semantics the plugin leans on:
    truthiness of optional strings and reading a cookie by name. */
module Types {
  import opened Wrappers

  /** Backend paths, one per operation (src/types.ts:3-13). */
  datatype Endpoints = Endpoints(
    csrf: string,
    register: string,
    forgotPassword: string,
    resetPassword: string,
    verifyEmail: string,
    verificationNotification: string,
    login: string,
    logout: string,
    user: string)

  /** Where the route guards send the browser (src/types.ts:15-19). */
  datatype Redirects = Redirects(home: string, login: string, verify: string)

  /** Header and cookie names for the CSRF token and the bearer token (src/types.ts:35-39). */
  datatype CsrfSpec = CsrfSpec(headerKey: string, cookieKey: string, tokenCookieKey: string)

  /** The module's runtime configuration (src/types.ts:21-27). `token` selects bearer-token mode. */
  datatype ModuleOptions = ModuleOptions(
    csrf: CsrfSpec,
    token: bool,
    baseUrl: string,
    endpoints: Endpoints,
    redirects: Redirects)

  /** The profile the user endpoint returns. The plugin treats it as opaque
      except for `email_verified_at`, which is a timestamp or null. */
  datatype User = User(id: string, emailVerifiedAt: Option<string>)

  /** The shared auth record (src/types.ts:29-33). */
  datatype Auth = Auth(user: Option<User>, loggedIn: bool, token: Option<string>)

  /** The value `useState('auth', ...)` starts with: nobody logged in, no token. */
  const InitialAuth: Auth := Auth(None, false, None)

  /** One outgoing HTTP request, as far as the plugin decides it. */
  datatype Request = Request(verb: string, baseUrl: string, path: string)

  /** Cookies visible on the current side, by name. An absent name is a cookie
      that is unset (or was set to null). */
  type CookieJar = map<string, string>

  /** JavaScript truthiness of a `string | null | undefined`: only a present,
      non-empty string is truthy. */
  predicate Truthy(s: Option<string>) {
    s.Some? && s.value != ""
  }

  /** A user counts as verified when `email_verified_at` is truthy. */
  predicate IsVerified(u: User) {
    Truthy(u.emailVerifiedAt)
  }

  /** `useCookie(key).value`: the cookie's value, or null when unset. */
  function ReadCookie(jar: CookieJar, key: string): (v: Option<string>)
    ensures v.Some? <==> key in jar
    ensures v.Some? ==> v.value == jar[key]
  {
    if key in jar then Some(jar[key]) else None
  }
}
