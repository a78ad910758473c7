/** Sequences of calls against the auth helper and the route guards, and the
    properties that hold at every point of any such sequence. */
module Lifecycle {
  import opened Wrappers
  import opened Types
  import opened SanctumAuth
  import opened Guards

  /** One call an application can make, with the outcome of its request. */
  datatype Op =
    | GetUserOp(refresh: bool, fetched: Result<Option<User>>)
    | LoginOp(response: Result<Option<LoginBody>>)
    | LogoutOp(outcome: Result<string>)
    | GuardOp(kind: GuardKind, fetched: Result<Option<User>>)

  /** Token mode off means the record never holds a token. */
  predicate CookieModeTokenless(cfg: ModuleOptions, a: Auth) {
    !cfg.token ==> a.token.None?
  }

  /** The effect of one call on the session. */
  function Step(cfg: ModuleOptions, s: Session, op: Op): (r: Session)
    ensures Consistent(s.auth) ==> Consistent(r.auth)
    ensures CookieModeTokenless(cfg, s.auth) ==> CookieModeTokenless(cfg, r.auth)
  {
    match op
    case GetUserOp(refresh, fetched) => GetUser(cfg, s, refresh, fetched).session
    case LoginOp(response) => Login(cfg, s, response).session
    case LogoutOp(outcome) => Logout(cfg, s, outcome)
    case GuardOp(kind, fetched) => RunGuard(cfg, s, kind, fetched).session
  }

  /** The session after a sequence of calls, first to last. */
  function Run(cfg: ModuleOptions, s: Session, ops: seq<Op>): Session
    decreases |ops|
  {
    if ops == [] then s else Run(cfg, Step(cfg, s, ops[0]), ops[1..])
  }

  /** From the initial state, after any sequence of calls, the record is
      logged in exactly when it holds a user. */
  lemma {:induction false} RunPreservesConsistent(cfg: ModuleOptions, s: Session, ops: seq<Op>)
    requires Consistent(s.auth)
    ensures Consistent(Run(cfg, s, ops).auth)
    decreases |ops|
  {
    if ops != [] {
      RunPreservesConsistent(cfg, Step(cfg, s, ops[0]), ops[1..]);
    }
  }

  /** In cookie mode no sequence of calls ever puts a token in the record. */
  lemma {:induction false} RunKeepsCookieModeTokenless(cfg: ModuleOptions, s: Session, ops: seq<Op>)
    requires CookieModeTokenless(cfg, s.auth)
    ensures CookieModeTokenless(cfg, Run(cfg, s, ops).auth)
    decreases |ops|
  {
    if ops != [] {
      RunKeepsCookieModeTokenless(cfg, Step(cfg, s, ops[0]), ops[1..]);
    }
  }

  /** Both invariants hold from the freshly installed plugin onward. */
  lemma InitialInvariants(cfg: ModuleOptions, jar: CookieJar, ops: seq<Op>)
    ensures Run(cfg, InitialSession(jar), ops).auth.loggedIn ==> Run(cfg, InitialSession(jar), ops).auth.user.Some?
    ensures !cfg.token ==> Run(cfg, InitialSession(jar), ops).auth.token.None?
  {
    RunPreservesConsistent(cfg, InitialSession(jar), ops);
    RunKeepsCookieModeTokenless(cfg, InitialSession(jar), ops);
  }

  /** Whatever came before, a logout leaves nobody logged in, no user, no
      token and no token cookie, whether its request succeeded or failed. */
  lemma LogoutAlwaysClears(cfg: ModuleOptions, jar: CookieJar, ops: seq<Op>, outcome: Result<string>)
    ensures var r := Run(cfg, InitialSession(jar), ops + [LogoutOp(outcome)]);
      r.auth == InitialAuth && cfg.csrf.tokenCookieKey !in r.cookies
  {
    RunAppend(cfg, InitialSession(jar), ops, [LogoutOp(outcome)]);
  }

  /** Running two sequences one after the other is running their concatenation. */
  lemma {:induction false} RunAppend(cfg: ModuleOptions, s: Session, xs: seq<Op>, ys: seq<Op>)
    ensures Run(cfg, s, xs + ys) == Run(cfg, Run(cfg, s, xs), ys)
    decreases |xs|
  {
    if xs == [] {
      assert xs + ys == ys;
    } else {
      assert (xs + ys)[0] == xs[0];
      assert (xs + ys)[1..] == xs[1..] + ys;
      RunAppend(cfg, Step(cfg, s, xs[0]), xs[1..], ys);
    }
  }

  /** Cookie mode: after a successful login that returns no token, the next
      `getUser` returns the fetched profile and the record is logged in. */
  lemma CookieLoginThenGetUser(cfg: ModuleOptions, jar: CookieJar, u: User, status: string)
    requires !cfg.token
    ensures var s := Login(cfg, InitialSession(jar), Ok(Some(LoginBody(status, None)))).session;
      var g := GetUser(cfg, s, false, Ok(Some(u)));
      g.returned == Some(u) && g.session.auth.loggedIn && g.session.auth.user == Some(u)
  {
  }

  /** Token mode: a login returning token "abc" writes it to the token cookie,
      and the next guard run copies it into the record. */
  lemma TokenLoginThenGuard(cfg: ModuleOptions, jar: CookieJar, kind: GuardKind, fetched: Result<Option<User>>)
    requires cfg.token
    ensures var s := Login(cfg, InitialSession(jar), Ok(Some(LoginBody("success", Some("abc"))))).session;
      ReadCookie(s.cookies, cfg.csrf.tokenCookieKey) == Some("abc") &&
      RunGuard(cfg, s, kind, fetched).session.auth.token == Some("abc")
  {
  }
}
