/** The request interceptor of the shared fetch client (`onRequest`) and the
    CSRF bootstrap (`initCsrf`). The network, the cookie store and the
    execution side are explicit parameters. */
module Interceptor {
  import opened Wrappers
  import opened Types

  /** Where the code runs: in the browser, or during server-side rendering. */
  datatype Side = Client | Server

  /** ASCII lower-casing of one character. */
  function LowerChar(c: char): char {
    if 'A' <= c <= 'Z' then (c as int + 32) as char else c
  }

  /** `String.prototype.toLowerCase`, restricted to ASCII letters. */
  function Lower(s: string): (r: string)
    ensures |r| == |s|
    ensures forall i :: 0 <= i < |s| ==> r[i] == LowerChar(s[i])
  {
    if s == [] then [] else [LowerChar(s[0])] + Lower(s[1..])
  }

  /** Two strings that differ at most in the case of ASCII letters. */
  predicate EqualsIgnoringCase(a: string, b: string) {
    |a| == |b| && forall i :: 0 <= i < |a| ==> LowerChar(a[i]) == LowerChar(b[i])
  }

  /** A request method that makes the client bootstrap CSRF first:
      `["post", "delete", "put", "patch"].includes(method?.toLowerCase() ?? "")`. */
  predicate IsMutatingMethod(verb: Option<string>)
    ensures IsMutatingMethod(verb) ==> verb.Some? && 3 <= |verb.value| <= 6
  {
    var m := Lower(verb.GetOr(""));
    m == "post" || m == "delete" || m == "put" || m == "patch"
  }

  /** For a lower-case target, lower-casing a string yields it exactly when
      the two are equal ignoring case. */
  lemma LowerMatches(m: string, w: string)
    requires forall i :: 0 <= i < |w| ==> LowerChar(w[i]) == w[i]
    ensures Lower(m) == w <==> EqualsIgnoringCase(m, w)
  {
    if EqualsIgnoringCase(m, w) {
      var l := Lower(m);
      assert forall i :: 0 <= i < |w| ==> l[i] == w[i];
    }
  }

  /** The CSRF bootstrap is triggered exactly by post, delete, put and patch
      written in any mix of upper and lower case; a missing method never triggers it. */
  lemma MutatingMethodsIgnoreCase(verb: Option<string>)
    ensures IsMutatingMethod(verb) <==>
      verb.Some? &&
      (EqualsIgnoringCase(verb.value, "post") || EqualsIgnoringCase(verb.value, "delete") ||
       EqualsIgnoringCase(verb.value, "put") || EqualsIgnoringCase(verb.value, "patch"))
  {
    var m := verb.GetOr("");
    LowerMatches(m, "post");
    LowerMatches(m, "delete");
    LowerMatches(m, "put");
    LowerMatches(m, "patch");
  }

  /** What `initCsrf` leaves behind: the cookies afterwards, the requests it
      issued, and what it resolved with (or the error it rejected with). */
  datatype CsrfOutcome = CsrfOutcome(cookies: CookieJar, requests: seq<Request>, value: Result<Option<string>>)

  /** `initCsrf`: reuse a truthy CSRF cookie; otherwise GET the CSRF endpoint
      (whose reply may set the cookie) and read the cookie again.
      `reply` is the outcome of that GET: the cookie value the backend set, if any. */
  function InitCsrf(cfg: ModuleOptions, jar: CookieJar, reply: Result<Option<string>>): (r: CsrfOutcome)
    ensures Truthy(ReadCookie(jar, cfg.csrf.cookieKey)) ==>
      r.requests == [] && r.cookies == jar && r.value == Ok(ReadCookie(jar, cfg.csrf.cookieKey))
    ensures !Truthy(ReadCookie(jar, cfg.csrf.cookieKey)) ==>
      r.requests == [Request("get", cfg.baseUrl, cfg.endpoints.csrf)]
    ensures r.value.Err? <==> !Truthy(ReadCookie(jar, cfg.csrf.cookieKey)) && reply.Err?
    ensures r.value.Err? ==> r.value == reply && r.cookies == jar
    ensures r.value.Ok? ==> r.value.value == ReadCookie(r.cookies, cfg.csrf.cookieKey)
    ensures r.cookies - {cfg.csrf.cookieKey} == jar - {cfg.csrf.cookieKey}
    ensures !Truthy(ReadCookie(jar, cfg.csrf.cookieKey)) && reply.Ok? && reply.value.Some? ==>
      r.value == Ok(reply.value) && ReadCookie(r.cookies, cfg.csrf.cookieKey) == reply.value
    ensures reply == Ok(None) ==> r.cookies == jar
  {
    var key := cfg.csrf.cookieKey;
    var existing := ReadCookie(jar, key);
    if Truthy(existing) then
      CsrfOutcome(jar, [], Ok(existing))
    else
      var get := Request("get", cfg.baseUrl, cfg.endpoints.csrf);
      match reply
      case Err(e) => CsrfOutcome(jar, [get], Err(e))
      case Ok(setCookie) =>
        var after := if setCookie.Some? then jar[key := setCookie.value] else jar;
        CsrfOutcome(after, [get], Ok(ReadCookie(after, key)))
  }

  /** Once a bootstrap has left a truthy CSRF cookie, the next one issues no
      request and resolves with the same value, whatever the network would do. */
  lemma InitCsrfReusesCookie(cfg: ModuleOptions, jar: CookieJar, reply1: Result<Option<string>>, reply2: Result<Option<string>>)
    requires InitCsrf(cfg, jar, reply1).value.Ok?
    requires Truthy(InitCsrf(cfg, jar, reply1).value.value)
    ensures InitCsrf(cfg, InitCsrf(cfg, jar, reply1).cookies, reply2).requests == []
    ensures InitCsrf(cfg, InitCsrf(cfg, jar, reply1).cookies, reply2).value == InitCsrf(cfg, jar, reply1).value
  {
  }

  /** The `Authorization` value: `'Bearer ' + auth.token` in token mode (a
      null token concatenates as the text "null"), the empty string otherwise. */
  function AuthorizationValue(cfg: ModuleOptions, a: Auth): (v: string)
    ensures v == "" <==> !cfg.token
    ensures cfg.token ==> |v| >= 7 && v[..7] == "Bearer "
    ensures cfg.token && a.token.None? ==> v == "Bearer null"
    ensures cfg.token && a.token.Some? ==> v[7..] == a.token.value
  {
    if cfg.token then "Bearer " + (if a.token.Some? then a.token.value else "null") else ""
  }

  /** The header names the interceptor writes after the caller's headers, and
      which therefore override them. */
  function LateKeys(cfg: ModuleOptions, side: Side, csrf: Option<string>, inboundCookie: Option<string>): set<string> {
    {"Authorization"}
    + (if Truthy(csrf) then {cfg.csrf.headerKey} else {})
    + (if side.Server? && Truthy(inboundCookie) then {"cookie"} else {})
  }

  /** The header object `onRequest` builds: Accept first, then the caller's
      headers, then the CSRF header when there is a truthy token, then
      Authorization, then (on the server) the inbound cookie string. */
  function BuildHeaders(cfg: ModuleOptions, a: Auth, side: Side, caller: map<string, string>,
                        csrf: Option<string>, inboundCookie: Option<string>): (h: map<string, string>)
    ensures h.Keys == {"Accept"} + caller.Keys + LateKeys(cfg, side, csrf, inboundCookie)
    ensures h["Authorization"] == AuthorizationValue(cfg, a)
    ensures side.Server? && Truthy(inboundCookie) ==> h["cookie"] == inboundCookie.value
    ensures Truthy(csrf) && cfg.csrf.headerKey != "Authorization" && !(side.Server? && Truthy(inboundCookie) && cfg.csrf.headerKey == "cookie")
      ==> h[cfg.csrf.headerKey] == csrf.value
    ensures forall k | k in caller && k !in LateKeys(cfg, side, csrf, inboundCookie) :: h[k] == caller[k]
    ensures "Accept" !in caller && "Accept" !in LateKeys(cfg, side, csrf, inboundCookie) ==> h["Accept"] == "application/json"
  {
    var base := map["Accept" := "application/json"] + caller;
    var withCsrf := if Truthy(csrf) then base[cfg.csrf.headerKey := csrf.value] else base;
    var withAuth := withCsrf["Authorization" := AuthorizationValue(cfg, a)];
    if side.Server? && Truthy(inboundCookie) then withAuth["cookie" := inboundCookie.value] else withAuth
  }

  /** The request options `onRequest` writes back. */
  datatype RequestOptions = RequestOptions(headers: map<string, string>, baseUrl: string)

  /** What intercepting one request leaves behind: cookies afterwards, requests
      issued on the way (the CSRF GET), and the options or the propagated error. */
  datatype Intercepted = Intercepted(cookies: CookieJar, requests: seq<Request>, outcome: Result<RequestOptions>)

  /** `onRequest`. `jar` holds the cookies visible on this side (the browser's,
      or the inbound request's on the server), `inboundCookie` the inbound
      request's raw cookie header, `csrfReply` the outcome of a CSRF GET should
      the bootstrap need one. */
  function OnRequest(cfg: ModuleOptions, side: Side, a: Auth, jar: CookieJar, verb: Option<string>,
                     caller: map<string, string>, inboundCookie: Option<string>,
                     csrfReply: Result<Option<string>>): (r: Intercepted)
    ensures !(side.Client? && IsMutatingMethod(verb)) ==> r.requests == [] && r.cookies == jar && r.outcome.Ok?
    ensures r.requests == [] <==> !(side.Client? && IsMutatingMethod(verb) && !Truthy(ReadCookie(jar, cfg.csrf.cookieKey)))
    ensures r.requests != [] ==> r.requests == [Request("get", cfg.baseUrl, cfg.endpoints.csrf)]
    ensures r.cookies - {cfg.csrf.cookieKey} == jar - {cfg.csrf.cookieKey}
    ensures r.outcome.Err? <==>
      side.Client? && IsMutatingMethod(verb) && !Truthy(ReadCookie(jar, cfg.csrf.cookieKey)) && csrfReply.Err?
    ensures r.outcome.Err? ==> r.outcome.error == csrfReply.error && |r.requests| == 1
    ensures r.requests == [] || r.outcome.Err? ==> r.cookies == jar
    ensures !(csrfReply.Ok? && csrfReply.value.Some?) ==> r.cookies == jar
    ensures (side.Client? && IsMutatingMethod(verb) && !Truthy(ReadCookie(jar, cfg.csrf.cookieKey)) &&
             csrfReply.Ok? && csrfReply.value.Some?) ==>
      r.cookies == jar[cfg.csrf.cookieKey := csrfReply.value.value] &&
      ReadCookie(r.cookies, cfg.csrf.cookieKey) == csrfReply.value
    ensures r.outcome.Ok? ==> r.outcome.value.baseUrl == cfg.baseUrl
    ensures r.outcome.Ok? ==>
      r.outcome.value.headers == BuildHeaders(cfg, a, side, caller, ReadCookie(r.cookies, cfg.csrf.cookieKey), inboundCookie)
  {
    if side.Client? && IsMutatingMethod(verb) then
      var boot := InitCsrf(cfg, jar, csrfReply);
      match boot.value
      case Err(e) => Intercepted(boot.cookies, boot.requests, Err(e))
      case Ok(token) =>
        Intercepted(boot.cookies, boot.requests, Ok(RequestOptions(BuildHeaders(cfg, a, side, caller, token, inboundCookie), cfg.baseUrl)))
    else
      var token := ReadCookie(jar, cfg.csrf.cookieKey);
      Intercepted(jar, [], Ok(RequestOptions(BuildHeaders(cfg, a, side, caller, token, inboundCookie), cfg.baseUrl)))
  }

  /** In cookie mode the interceptor's own Authorization entry is always empty. */
  lemma CookieModeSendsNoBearer(cfg: ModuleOptions, side: Side, a: Auth, jar: CookieJar, verb: Option<string>,
                                caller: map<string, string>, inboundCookie: Option<string>,
                                csrfReply: Result<Option<string>>)
    requires !cfg.token
    requires OnRequest(cfg, side, a, jar, verb, caller, inboundCookie, csrfReply).outcome.Ok?
    ensures OnRequest(cfg, side, a, jar, verb, caller, inboundCookie, csrfReply).outcome.value.headers["Authorization"] == ""
  {
  }

  /** In token mode the interceptor's own Authorization entry is `Bearer <token>`,
      replacing a caller value under that exact name. */
  lemma TokenModeSendsBearer(cfg: ModuleOptions, side: Side, a: Auth, jar: CookieJar, verb: Option<string>,
                             caller: map<string, string>, inboundCookie: Option<string>,
                             csrfReply: Result<Option<string>>, t: string)
    requires cfg.token && a.token == Some(t)
    requires OnRequest(cfg, side, a, jar, verb, caller, inboundCookie, csrfReply).outcome.Ok?
    ensures OnRequest(cfg, side, a, jar, verb, caller, inboundCookie, csrfReply).outcome.value.headers["Authorization"] == "Bearer " + t
  {
  }

  /** Header names are matched exactly, so a caller header spelled
      `authorization` is not replaced: it travels beside the interceptor's
      `Authorization` entry, in cookie mode too. */
  lemma CallerLowercaseAuthorizationSurvives(cfg: ModuleOptions, side: Side, a: Auth, jar: CookieJar, verb: Option<string>,
                                             inboundCookie: Option<string>, csrfReply: Result<Option<string>>, v: string)
    requires cfg.csrf.headerKey != "authorization"
    requires OnRequest(cfg, side, a, jar, verb, map["authorization" := v], inboundCookie, csrfReply).outcome.Ok?
    ensures var h := OnRequest(cfg, side, a, jar, verb, map["authorization" := v], inboundCookie, csrfReply).outcome.value.headers;
      h["authorization"] == v && h["Authorization"] == AuthorizationValue(cfg, a)
  {
  }

  /** When the CSRF GET resolves without setting a cookie, the cookies stay
      as they were and the CSRF header, if any, carries the existing value. */
  lemma CsrfReplyWithoutCookieKeepsJar(cfg: ModuleOptions, side: Side, a: Auth, jar: CookieJar, verb: Option<string>,
                                       caller: map<string, string>, inboundCookie: Option<string>)
    ensures var r := OnRequest(cfg, side, a, jar, verb, caller, inboundCookie, Ok(None));
      r.cookies == jar &&
      r.outcome == Ok(RequestOptions(BuildHeaders(cfg, a, side, caller, ReadCookie(jar, cfg.csrf.cookieKey), inboundCookie), cfg.baseUrl))
  {
  }

  /** A client POST with no CSRF cookie yet issues one GET to the CSRF endpoint
      and then sends the freshly set cookie value in the CSRF header. */
  lemma ClientPostBootstrapsCsrf(cfg: ModuleOptions, a: Auth, jar: CookieJar, caller: map<string, string>, issued: string)
    requires cfg.csrf.cookieKey !in jar
    requires issued != "" && cfg.csrf.headerKey != "Authorization"
    ensures OnRequest(cfg, Client, a, jar, Some("POST"), caller, None, Ok(Some(issued))).requests
      == [Request("get", cfg.baseUrl, cfg.endpoints.csrf)]
    ensures OnRequest(cfg, Client, a, jar, Some("POST"), caller, None, Ok(Some(issued))).outcome.value.headers[cfg.csrf.headerKey] == issued
  {
    assert Lower("POST") == "post";
    var r := OnRequest(cfg, Client, a, jar, Some("POST"), caller, None, Ok(Some(issued)));
    assert ReadCookie(r.cookies, cfg.csrf.cookieKey) == Some(issued);
  }
}
