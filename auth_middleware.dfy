/** The `auth` middleware of backend/src/middleware/auth.js: pick the token
    (cookie first, then a "Bearer " Authorization header), verify it, and on
    success write `req.user` and continue; every failure is a 401. Token
    verification (`jwt.verify` with the server secret) is a parameter. */
module AuthMiddleware {
  import opened Common

  const DefaultCookieName: string := "servix_token"
  const BearerPrefix: string := "Bearer "

  /** The claims a verified token carries (absent claims are None). */
  datatype Claims = Claims(id: Option<string>, orgId: Option<string>, role: Option<string>)

  /** `req.user` as this middleware writes it: exactly `{ id, orgId, role }`. */
  datatype RequestUser = RequestUser(id: Option<string>, orgId: Option<string>, role: Option<string>)

  /** `req.user` as a JavaScript object: the properties that hold a string.
      The object this middleware writes has at most `id`, `orgId` and `role`. */
  function AsObject(u: RequestUser): (o: map<string, string>)
    ensures o.Keys <= {"id", "orgId", "role"}
    ensures ("id" in o <==> u.id.Some?) && ("orgId" in o <==> u.orgId.Some?) && ("role" in o <==> u.role.Some?)
    ensures "id" in o ==> o["id"] == u.id.value
    ensures "orgId" in o ==> o["orgId"] == u.orgId.value
    ensures "role" in o ==> o["role"] == u.role.value
  {
    var withId: map<string, string> := if u.id.Some? then map["id" := u.id.value] else map[];
    var withOrg := if u.orgId.Some? then withId["orgId" := u.orgId.value] else withId;
    if u.role.Some? then withOrg["role" := u.role.value] else withOrg
  }

  /** The parts of the request the middleware looks at. `cookies` holds the
      parsed cookies (empty when there are none). */
  datatype Request = Request(cookies: map<string, string>, authorization: Option<string>)

  /** `(process.env.COOKIE_NAME || "servix_token").trim()`. */
  function CookieName(env: Option<string>): (r: string)
    ensures env.None? || env == Some("") ==> r == DefaultCookieName
    ensures env.Some? && env.value != "" ==> r == Trim(env.value)
  {
    if env.Some? && env.value != "" then Trim(env.value) else Trim(DefaultCookieName)
  }

  /** The token expression: the cookie when it is truthy, else the header
      after "Bearer " when the header starts with it, else null (None). */
  function SelectToken(req: Request, cookieName: string): (t: Option<string>)
    ensures cookieName in req.cookies && req.cookies[cookieName] != "" ==>
              t == Some(req.cookies[cookieName])
    ensures (cookieName !in req.cookies || req.cookies[cookieName] == "") ==>
              (t.Some? <==> req.authorization.Some? && StartsWith(req.authorization.value, BearerPrefix))
    ensures (cookieName !in req.cookies || req.cookies[cookieName] == "") && t.Some? ==>
              req.authorization.value == BearerPrefix + t.value
  {
    if cookieName in req.cookies && req.cookies[cookieName] != "" then
      Some(req.cookies[cookieName])
    else if req.authorization.Some? && StartsWith(req.authorization.value, BearerPrefix) then
      var h := req.authorization.value;
      assert h == h[..7] + h[7..];
      Some(h[7..])
    else None
  }

  datatype AuthOutcome = Unauthorized | Next(user: RequestUser) {
    /** HTTP status of the response the middleware writes itself (0: none, `next` runs). */
    function Status(): nat { if Unauthorized? then 401 else 0 }
  }

  /** The whole middleware. `verify` stands for `jwt.verify(token, JWT_SECRET)`:
      None when it throws. */
  function Auth(req: Request, cookieEnv: Option<string>, verify: string -> Option<Claims>): (r: AuthOutcome)
    ensures var t := SelectToken(req, CookieName(cookieEnv));
            r.Next? <==> t.Some? && t.value != "" && verify(t.value).Some?
    ensures r.Next? ==>
              var c := verify(SelectToken(req, CookieName(cookieEnv)).value).value;
              r.user.id == c.id && r.user.orgId == c.orgId && r.user.role == c.role
  {
    var token := SelectToken(req, CookieName(cookieEnv));
    if token.None? || token.value == "" then Unauthorized
    else
      match verify(token.value)
      case None => Unauthorized
      case Some(c) => Next(RequestUser(c.id, c.orgId, c.role))
  }

  /** The cookie wins over the header whenever it is set and non-empty. */
  lemma CookieTakesPrecedence(req: Request, cookieEnv: Option<string>, verify: string -> Option<Claims>, header: Option<string>)
    requires CookieName(cookieEnv) in req.cookies && req.cookies[CookieName(cookieEnv)] != ""
    ensures Auth(req, cookieEnv, verify) == Auth(req.(authorization := header), cookieEnv, verify)
  {
  }

  /** A request with neither a usable cookie nor a "Bearer " header is
      refused with 401 before any verification. */
  lemma NoTokenIsUnauthorized(req: Request, cookieEnv: Option<string>, verify: string -> Option<Claims>)
    requires CookieName(cookieEnv) !in req.cookies || req.cookies[CookieName(cookieEnv)] == ""
    requires req.authorization.None? || !StartsWith(req.authorization.value, BearerPrefix)
    ensures Auth(req, cookieEnv, verify) == Unauthorized
  {
  }

  /** The header "Bearer " with nothing after it yields the empty token, which
      is refused as missing. */
  lemma EmptyBearerIsUnauthorized(cookieEnv: Option<string>, verify: string -> Option<Claims>)
    ensures Auth(Request(map[], Some("Bearer ")), cookieEnv, verify) == Unauthorized
  {
    assert StartsWith("Bearer ", BearerPrefix);
    assert "Bearer "[7..] == "";
  }
}
