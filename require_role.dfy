/** The `requireRole(...allowed)` gate of backend/src/middleware/requireRole.js:
    401 without `req.user`, 403 when `req.user.roleCode` is not allowed,
    otherwise `next()` with no response written. */
module RequireRole {
  import opened Common
  import opened AuthMiddleware

  datatype Gate = Deny(status: nat) | Proceed

  /** `req.user` is any object some earlier middleware wrote, given by its
      string-valued properties; None when `req.user` is unset. */
  function RequireRole(allowed: seq<string>, user: Option<map<string, string>>): (g: Gate)
    ensures user.None? ==> g == Deny(401)
    ensures user.Some? ==>
              (g == Proceed <==> "roleCode" in user.value && user.value["roleCode"] in allowed)
    ensures user.Some? && g != Proceed ==> g == Deny(403)
  {
    if user.None? then Deny(401)
    else if !("roleCode" in user.value && user.value["roleCode"] in allowed) then Deny(403)
    else Proceed
  }

  /** A user object whose `roleCode` is one of the allowed codes passes. */
  lemma AllowedRoleCodeProceeds(allowed: seq<string>, user: map<string, string>, code: string)
    requires "roleCode" in user && user["roleCode"] == code && code in allowed
    ensures RequireRole(allowed, Some(user)) == Proceed
  {
  }

  /** The gate reads `roleCode`, but `auth` writes only `id`, `orgId` and
      `role`; so behind `auth` every list of allowed role strings is refused. */
  lemma BehindAuthAlwaysForbidden(allowed: seq<string>, req: Request, cookieEnv: Option<string>,
                                  verify: string -> Option<Claims>)
    requires Auth(req, cookieEnv, verify).Next?
    ensures RequireRole(allowed, Some(AsObject(Auth(req, cookieEnv, verify).user))) == Deny(403)
  {
  }
}
