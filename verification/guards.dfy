/** The four named route guards. Each first refreshes the token from its
    cookie (token mode only) and calls `getUser`; then it decides from the
    resulting record whether navigation continues or is redirected. */
module Guards {
  import opened Wrappers
  import opened Types
  import opened SanctumAuth

  datatype GuardKind = AuthGuard | GuestGuard | VerifiedGuard | UnverifiedGuard

  /** A guard's verdict. NullDereference is the TypeError thrown by reading
      `email_verified_at` off a null user. */
  datatype Decision = Continue | Redirect(path: string) | NullDereference

  /** `auth`: only logged-in users pass; others go to the login page. */
  function AuthDecision(a: Auth, to: Redirects): (d: Decision)
    ensures d == Redirect(to.login) <==> !a.loggedIn
    ensures d == Continue <==> a.loggedIn
  {
    if !a.loggedIn then Redirect(to.login) else Continue
  }

  /** `guest`: only visitors who are not logged in pass; others go home. */
  function GuestDecision(a: Auth, to: Redirects): (d: Decision)
    ensures d == Redirect(to.home) <==> a.loggedIn
    ensures d == Continue <==> !a.loggedIn
  {
    if a.loggedIn then Redirect(to.home) else Continue
  }

  /** `verified`: not logged in goes to login; a logged-in user whose email is
      not verified goes to the verify page. The user is read without a null check. */
  function VerifiedDecision(a: Auth, to: Redirects): (d: Decision)
    ensures !a.loggedIn ==> d == Redirect(to.login)
    ensures d == NullDereference <==> a.loggedIn && a.user.None?
    ensures a.loggedIn && a.user.Some? ==>
      (d == Redirect(to.verify) <==> !IsVerified(a.user.value)) &&
      (d == Continue <==> IsVerified(a.user.value))
  {
    if !a.loggedIn then Redirect(to.login)
    else if a.user.None? then NullDereference
    else if !IsVerified(a.user.value) then Redirect(to.verify)
    else Continue
  }

  /** `unverified`, as written: a verified user goes home. It reads the user
      without checking that anyone is logged in, so a null user throws. */
  function UnverifiedDecision(a: Auth, to: Redirects): (d: Decision)
    ensures d == NullDereference <==> a.user.None?
    ensures a.user.Some? ==>
      (d == Redirect(to.home) <==> IsVerified(a.user.value)) &&
      (d == Continue <==> !IsVerified(a.user.value))
  {
    if a.user.None? then NullDereference
    else if IsVerified(a.user.value) then Redirect(to.home)
    else Continue
  }

  /** `unverified` with the login check `verified` already has: visitors
      who are not logged in go to the login page instead of crashing. */
  function UnverifiedFixedDecision(a: Auth, to: Redirects): (d: Decision)
    ensures d != NullDereference
    ensures !a.loggedIn || a.user.None? ==> d == Redirect(to.login)
  {
    if !a.loggedIn || a.user.None? then Redirect(to.login)
    else if IsVerified(a.user.value) then Redirect(to.home)
    else Continue
  }

  function Decide(kind: GuardKind, a: Auth, to: Redirects): Decision {
    match kind
    case AuthGuard => AuthDecision(a, to)
    case GuestGuard => GuestDecision(a, to)
    case VerifiedGuard => VerifiedDecision(a, to)
    case UnverifiedGuard => UnverifiedDecision(a, to)
  }

  /** On a consistent record, only `unverified` can throw, and it throws
      exactly for visitors who are not logged in. */
  lemma ConsistentGuardsCrashOnlyForGuestsOnUnverified(kind: GuardKind, a: Auth, to: Redirects)
    requires Consistent(a)
    ensures Decide(kind, a, to) == NullDereference <==> kind == UnverifiedGuard && !a.loggedIn
  {
  }

  /** The corrected `unverified` agrees with the original wherever the
      original does not throw. */
  lemma UnverifiedFixAgreesWhereDefined(a: Auth, to: Redirects)
    requires Consistent(a)
    requires UnverifiedDecision(a, to) != NullDereference
    ensures UnverifiedFixedDecision(a, to) == UnverifiedDecision(a, to)
  {
  }

  datatype GuardOutcome = GuardOutcome(session: Session, decision: Decision)

  /** Running a guard: `getToken()` in token mode, then `getUser()` without
      refresh (`fetched` is its request's outcome), then the decision on the
      record that results. */
  function RunGuard(cfg: ModuleOptions, s: Session, kind: GuardKind, fetched: Result<Option<User>>): (r: GuardOutcome)
    ensures r.decision == Decide(kind, r.session.auth, cfg.redirects)
    ensures r.session == GetUser(cfg, if cfg.token then GetToken(cfg, s) else s, false, fetched).session
    ensures !ServedFromCache(s, false) && fetched.Ok? && fetched.value.Some? ==>
      r.session.auth.loggedIn && r.session.auth.user == fetched.value
    ensures fetched.Err? || fetched.value.None? ==>
      r.session.auth.loggedIn == s.auth.loggedIn && r.session.auth.user == s.auth.user
    ensures r.session.cookies == s.cookies
    ensures cfg.token ==> r.session.auth.token == GetToken(cfg, s).auth.token
    ensures !cfg.token ==> r.session.auth.token == s.auth.token
    ensures Consistent(s.auth) ==> Consistent(r.session.auth)
    ensures s.auth.loggedIn ==> r.session.auth.loggedIn
  {
    var s1 := if cfg.token then GetToken(cfg, s) else s;
    var g := GetUser(cfg, s1, false, fetched);
    GuardOutcome(g.session, Decide(kind, g.session.auth, cfg.redirects))
  }

  /** A visitor who is not logged in and whose user request fails (or returns
      nothing) is sent to the login page by `auth`. */
  lemma AuthGuardRedirectsGuest(cfg: ModuleOptions, s: Session, fetched: Result<Option<User>>)
    requires !s.auth.loggedIn
    requires fetched.Err? || fetched.value.None?
    ensures RunGuard(cfg, s, AuthGuard, fetched).decision == Redirect(cfg.redirects.login)
  {
  }

  /** A logged-in user with a null `email_verified_at` is sent to the verify
      page by `verified`, from the cached record, whatever the network says. */
  lemma VerifiedGuardRedirectsUnverifiedUser(cfg: ModuleOptions, s: Session, u: User, fetched: Result<Option<User>>)
    requires s.auth.loggedIn && s.auth.user == Some(u) && u.emailVerifiedAt.None?
    ensures RunGuard(cfg, s, VerifiedGuard, fetched).decision == Redirect(cfg.redirects.verify)
  {
  }

  /** The defect: from the initial state, a visitor whose user request fails
      makes `unverified` throw instead of redirecting. */
  lemma UnverifiedGuardThrowsForGuest(cfg: ModuleOptions, jar: CookieJar, e: string)
    ensures RunGuard(cfg, InitialSession(jar), UnverifiedGuard, Err(e)).decision == NullDereference
  {
  }
}
