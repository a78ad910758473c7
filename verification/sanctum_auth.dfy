/** The auth helper's state-changing operations: the token cookie helpers,
    `login`, `logout` and `getUser`. Each is a pure transition of a Session;
    the outcome of the underlying fetch is a parameter. */
module SanctumAuth {
  import opened Wrappers
  import opened Types

  /** The plugin's world: the shared auth record and the cookie jar. */
  datatype Session = Session(auth: Auth, cookies: CookieJar)

  /** The state right after the plugin is installed, over whatever cookies exist. */
  function InitialSession(jar: CookieJar): (s: Session)
    ensures !s.auth.loggedIn && s.auth.user.None? && s.auth.token.None?
    ensures s.cookies == jar
  {
    Session(InitialAuth, jar)
  }

  /** The record's intended invariant: logged in exactly when a user is held. */
  predicate Consistent(a: Auth) {
    a.loggedIn <==> a.user.Some?
  }

  /** `getToken`: copy the token cookie into `auth.token`, or null when the
      cookie is absent or empty. Nothing else changes. */
  function GetToken(cfg: ModuleOptions, s: Session): (r: Session)
    ensures r.cookies == s.cookies
    ensures r.auth.user == s.auth.user && r.auth.loggedIn == s.auth.loggedIn
    ensures r.auth.token.Some? <==> Truthy(ReadCookie(s.cookies, cfg.csrf.tokenCookieKey))
    ensures r.auth.token.Some? ==> r.auth.token == ReadCookie(s.cookies, cfg.csrf.tokenCookieKey)
  {
    var c := ReadCookie(s.cookies, cfg.csrf.tokenCookieKey);
    s.(auth := s.auth.(token := if Truthy(c) then c else None))
  }

  /** `setToken`: write the token cookie; the auth record and every other cookie are untouched. */
  function SetToken(cfg: ModuleOptions, s: Session, t: string): (r: Session)
    ensures r.auth == s.auth
    ensures ReadCookie(r.cookies, cfg.csrf.tokenCookieKey) == Some(t)
    ensures r.cookies - {cfg.csrf.tokenCookieKey} == s.cookies - {cfg.csrf.tokenCookieKey}
  {
    s.(cookies := s.cookies[cfg.csrf.tokenCookieKey := t])
  }

  /** `clearToken`: set the token cookie to null, which removes it. */
  function ClearToken(cfg: ModuleOptions, s: Session): (r: Session)
    ensures r.auth == s.auth
    ensures ReadCookie(r.cookies, cfg.csrf.tokenCookieKey).None?
    ensures r.cookies.Keys == s.cookies.Keys - {cfg.csrf.tokenCookieKey}
    ensures forall k | k in r.cookies :: r.cookies[k] == s.cookies[k]
  {
    s.(cookies := s.cookies - {cfg.csrf.tokenCookieKey})
  }

  /** Writing a token and reading it back yields it, unless it is empty. */
  lemma SetThenGetToken(cfg: ModuleOptions, s: Session, t: string)
    ensures GetToken(cfg, SetToken(cfg, s, t)).auth.token == (if t != "" then Some(t) else None)
  {
  }

  /** After clearing, reading the token yields null. */
  lemma ClearThenGetToken(cfg: ModuleOptions, s: Session)
    ensures GetToken(cfg, ClearToken(cfg, s)).auth.token.None?
  {
  }

  /** A login reply: `{ status, token? }`. */
  datatype LoginBody = LoginBody(status: string, token: Option<string>)

  /** What `login` leaves behind and what it resolves with (or rejects with). */
  datatype LoginOutcome = LoginOutcome(session: Session, returned: Result<Option<LoginBody>>)

  /** `login` stores a token exactly when token mode is on and the request
      resolved with a body carrying a truthy token. */
  predicate StoresToken(cfg: ModuleOptions, response: Result<Option<LoginBody>>)
    ensures StoresToken(cfg, response) ==> cfg.token && response.Ok?
  {
    cfg.token && response.Ok? && response.value.Some? && Truthy(response.value.value.token)
  }

  /** `login`: `response` is the outcome of the POST to the login endpoint (a
      falsy body is None). The response is handed back as is, errors included;
      the only possible effect is writing the token cookie. */
  function Login(cfg: ModuleOptions, s: Session, response: Result<Option<LoginBody>>): (r: LoginOutcome)
    ensures r.returned == response
    ensures r.session.auth == s.auth
    ensures StoresToken(cfg, response) ==>
      ReadCookie(r.session.cookies, cfg.csrf.tokenCookieKey) == response.value.value.token
    ensures r.session.cookies - {cfg.csrf.tokenCookieKey} == s.cookies - {cfg.csrf.tokenCookieKey}
    ensures !StoresToken(cfg, response) ==> r.session.cookies == s.cookies
  {
    if StoresToken(cfg, response) then
      LoginOutcome(SetToken(cfg, s, response.value.value.token.value), response)
    else
      LoginOutcome(s, response)
  }

  /** `logout`: `response` is the outcome of the POST to the logout endpoint.
      A rejection is caught; either way the record is reset and the token
      cookie cleared, so the result does not depend on `response` at all. */
  function Logout(cfg: ModuleOptions, s: Session, response: Result<string>): (r: Session)
    ensures !r.auth.loggedIn && r.auth.user.None? && r.auth.token.None?
    ensures r.cookies.Keys == s.cookies.Keys - {cfg.csrf.tokenCookieKey}
    ensures forall k | k in r.cookies :: r.cookies[k] == s.cookies[k]
  {
    ClearToken(cfg, s.(auth := InitialAuth))
  }

  /** What `getUser` leaves behind, what it resolves with (None for
      `undefined`), and the requests it issued. */
  datatype GetUserOutcome = GetUserOutcome(session: Session, returned: Option<User>, requests: seq<Request>)

  /** `getUser` answers from the record without a request. */
  predicate ServedFromCache(s: Session, refresh: bool)
    ensures ServedFromCache(s, refresh) ==> !refresh && s.auth.user.Some?
  {
    !refresh && s.auth.loggedIn && s.auth.user.Some?
  }

  /** `getUser`: unless served from the record, GET the user endpoint;
      `fetched` is that request's outcome (a falsy body is None). A user sets
      loggedIn and user; a rejection or a falsy body is swallowed and leaves
      the state as it was. */
  function GetUser(cfg: ModuleOptions, s: Session, refresh: bool, fetched: Result<Option<User>>): (r: GetUserOutcome)
    ensures ServedFromCache(s, refresh) ==> r.session == s && r.returned == s.auth.user && r.requests == []
    ensures !ServedFromCache(s, refresh) ==> r.requests == [Request("get", cfg.baseUrl, cfg.endpoints.user)]
    ensures !ServedFromCache(s, refresh) ==>
      (r.returned.Some? <==> fetched.Ok? && fetched.value.Some?) &&
      (r.returned.Some? ==> r.returned == fetched.value)
    ensures r.returned.Some? ==> r.session.auth.loggedIn && r.session.auth.user == r.returned
    ensures r.returned.None? ==> r.session == s
    ensures r.session.cookies == s.cookies && r.session.auth.token == s.auth.token
  {
    if ServedFromCache(s, refresh) then
      GetUserOutcome(s, s.auth.user, [])
    else
      var req := [Request("get", cfg.baseUrl, cfg.endpoints.user)];
      match fetched
      case Ok(Some(u)) => GetUserOutcome(s.(auth := s.auth.(loggedIn := true, user := Some(u))), Some(u), req)
      case _ => GetUserOutcome(s, None, req)
  }

  /** Once `getUser` has returned a user, a second call without refresh issues
      no request and returns the same user, whatever the network would say. */
  lemma GetUserTwiceHitsCache(cfg: ModuleOptions, s: Session, refresh: bool,
                              fetched1: Result<Option<User>>, fetched2: Result<Option<User>>)
    requires GetUser(cfg, s, refresh, fetched1).returned.Some?
    ensures GetUser(cfg, GetUser(cfg, s, refresh, fetched1).session, false, fetched2).requests == []
    ensures GetUser(cfg, GetUser(cfg, s, refresh, fetched1).session, false, fetched2).returned
         == GetUser(cfg, s, refresh, fetched1).returned
  {
  }

  /** Every operation keeps the record consistent. */
  lemma OperationsPreserveConsistent(cfg: ModuleOptions, s: Session, refresh: bool, fetched: Result<Option<User>>,
                                     lr: Result<Option<LoginBody>>, out: Result<string>, t: string)
    requires Consistent(s.auth)
    ensures Consistent(GetUser(cfg, s, refresh, fetched).session.auth)
    ensures Consistent(Login(cfg, s, lr).session.auth)
    ensures Consistent(Logout(cfg, s, out).auth)
    ensures Consistent(GetToken(cfg, s).auth)
    ensures Consistent(SetToken(cfg, s, t).auth)
    ensures Consistent(ClearToken(cfg, s).auth)
  {
  }
}
