/**
 * The two authentication middlewares: verifyJWT, which picks the access
 * token from the cookie or the Authorization header and loads its user,
 * and verifyRole, which admits only the listed roles. Signature checking is
 * jwt.verify's business and arrives as a Verified value.
 */
module Middleware {
  import opened Common
  import opened Text
  import opened Envelopes
  import opened AccountModel

  /** What a middleware does: call next() with what it established, or throw. */
  datatype Gate<T> = Next(value: T) | Stop(error: ApiError)

  const BearerPrefix: string := "Bearer "
  const UnauthorizedMessage: string := "Unauthorized request"
  const InvalidAccessMessage: string := "Invalid access token"

  /**
   * req.cookies?.accessToken || req.header("Authorization")?.replace("Bearer ", ""):
   * the cookie when it is truthy, else the header with its first "Bearer "
   * removed, else nothing.
   */
  function IncomingAccessToken(cookie: Option<string>, authorization: Option<string>): (t: Option<string>)
    ensures Truthy(cookie) ==> t == cookie
    ensures !Truthy(cookie) && authorization.None? ==> t.None?
    ensures !Truthy(cookie) && authorization.Some? ==> t == Some(ReplaceFirst(authorization.value, BearerPrefix, ""))
  {
    if Truthy(cookie) then cookie
    else if authorization.None? then None
    else Some(ReplaceFirst(authorization.value, BearerPrefix, ""))
  }

  /** verifyJWT: the authenticated user, or a 401. */
  function VerifyJwt(accounts: seq<Account>, cookie: Option<string>, authorization: Option<string>,
                     verified: Verified): (g: Gate<PublicUser>)
    ensures g.Stop? ==> g.error.statusCode == 401
    ensures !Truthy(IncomingAccessToken(cookie, authorization)) ==> g == Stop(NewApiError(401, UnauthorizedMessage))
    ensures g.Next? <==>
      Truthy(IncomingAccessToken(cookie, authorization)) && verified.Verified?
      && FindById(accounts, verified.id).Some?
    ensures g.Next? ==> g.value == Public(accounts[FindById(accounts, verified.id).value])
  {
    var token := IncomingAccessToken(cookie, authorization);
    if !Truthy(token) then Stop(NewApiError(401, UnauthorizedMessage))
    else match verified
      case Rejected(message) =>
        Stop(NewApiError(401, if message != "" then message else InvalidAccessMessage))
      case Verified(id) =>
        var i := FindById(accounts, id);
        if i.None? then Stop(NewApiError(401, InvalidAccessMessage))
        else Next(Public(accounts[i.value]))
  }

  /** A header of the form "Bearer <t>" yields t when no cookie is set. */
  lemma BearerHeaderYieldsToken(cookie: Option<string>, t: string)
    requires !Truthy(cookie)
    ensures IncomingAccessToken(cookie, Some(BearerPrefix + t)) == Some(t)
  {
    var h := BearerPrefix + t;
    assert OccursAt(h, BearerPrefix, 0);
    assert IndexOf(h, BearerPrefix) == 0;
    assert h[..0] + "" + h[|BearerPrefix|..] == t;
  }

  /** A header holding only the prefix leaves an empty token, which is refused. */
  lemma BareBearerIsUnauthorized(accounts: seq<Account>, cookie: Option<string>, verified: Verified)
    requires !Truthy(cookie)
    ensures VerifyJwt(accounts, cookie, Some(BearerPrefix), verified) == Stop(NewApiError(401, UnauthorizedMessage))
  {
    BearerHeaderYieldsToken(cookie, "");
    assert BearerPrefix + "" == BearerPrefix;
  }

  /** A truthy cookie wins over any header. */
  lemma CookieWins(cookie: string, authorization: Option<string>)
    requires cookie != ""
    ensures IncomingAccessToken(Some(cookie), authorization) == Some(cookie)
  {
  }

  // ---------- verifyRole

  function RoleNames(roles: seq<Role>): (names: seq<string>)
    ensures |names| == |roles|
    ensures forall k | 0 <= k < |roles| :: names[k] == RoleName(roles[k])
  {
    seq(|roles|, k requires 0 <= k < |roles| => RoleName(roles[k]))
  }

  /** `Access denied. Required role: ${roles.join(" or ")}`. */
  function DeniedMessage(roles: seq<Role>): string {
    "Access denied. Required role: " + Join(RoleNames(roles), " or ")
  }

  /** verifyRole(...roles): 401 without an authenticated user, 403 for a role not listed. */
  function VerifyRole(user: Option<PublicUser>, roles: seq<Role>): (g: Gate<PublicUser>)
    ensures user.None? ==> g == Stop(NewApiError(401, UnauthorizedMessage))
    ensures user.Some? && user.value.role !in roles ==> g == Stop(NewApiError(403, DeniedMessage(roles)))
    ensures g.Next? <==> user.Some? && user.value.role in roles
    ensures g.Next? ==> g.value == user.value
  {
    if user.None? then Stop(NewApiError(401, UnauthorizedMessage))
    else if user.value.role !in roles then Stop(NewApiError(403, DeniedMessage(roles)))
    else Next(user.value)
  }

  /** The 403 message names every allowed role. */
  lemma DeniedMessageNamesEveryRole(roles: seq<Role>, k: nat)
    requires k < |roles|
    ensures Contains(DeniedMessage(roles), RoleName(roles[k]))
  {
    var names := RoleNames(roles);
    JoinContainsParts(names, " or ", k);
    ContainsAfterPrefix("Access denied. Required role: ", Join(names, " or "), names[k]);
  }

  /** Running verifyJWT then verifyRole admits exactly the stored users whose role is listed. */
  lemma ChainAdmitsListedRoles(accounts: seq<Account>, cookie: Option<string>, authorization: Option<string>,
                               verified: Verified, roles: seq<Role>)
    requires VerifyJwt(accounts, cookie, authorization, verified).Next?
    ensures var u := VerifyJwt(accounts, cookie, authorization, verified).value;
      VerifyRole(Some(u), roles).Next? <==> accounts[FindById(accounts, verified.id).value].role in roles
  {
  }
}
