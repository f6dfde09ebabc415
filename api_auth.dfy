/**
 * src/middleware/apiAuth.ts: `authenticateApiToken`, the cascade that
 * chooses `req.apiUser`; `authorizeClient`; the chain
 * `authenticateClientToken`; and `authorizeRoomAccess`. Environment
 * variables come in as an `Env`, the room-membership query as a
 * parameter.
 */
module ApiAuth {
  import opened Wrappers
  import opened Http
  import opened Tokens
  import opened Jwt

  const NoTokenProvided := "Unauthorized: No token provided"
  const InvalidToken := "Unauthorized: Invalid token"
  const ClientRequired := "Forbidden: Client access required"
  const Unauthorized := "Unauthorized"
  const NoRoomAccess := "Forbidden: You don't have access to this room"
  const InternalError := "Internal server error"

  /** `process.env.NODE_ENV` and `process.env.BYPASS_AUTH`; None when unset. */
  datatype Env = Env(nodeEnv: Option<string>, bypassAuth: Option<string>)

  /**
   * The development bypass is on outside production when BYPASS_AUTH is
   * exactly "true": production never bypasses, whatever BYPASS_AUTH says,
   * and an unset NODE_ENV counts as not production.
   */
  predicate BypassEnabled(env: Env)
    ensures env.nodeEnv == Some("production") ==> !BypassEnabled(env)
    ensures env.bypassAuth != Some("true") ==> !BypassEnabled(env)
    ensures env.nodeEnv.None? && env.bypassAuth == Some("true") ==> BypassEnabled(env)
  {
    env.nodeEnv != Some("production") && env.bypassAuth == Some("true")
  }

  /** The user the development bypass grants: full permissions, but a USER, not a CLIENT. */
  const DevUser := Claims("dev-user", Some("developer"), None, Some("admin"), UserType,
                          Some(Permissions(true, true, true, [])))

  /** The user the temporary Cloudflare fallback grants: read only. */
  const PublicUser := Claims("public-user", Some("public"), None, Some("user"), UserType,
                             Some(Permissions(true, false, false, [])))

  /**
   * The API user built from a verified user cookie: its userId, username
   * and role are copied, it is a USER, and it may read and write but not
   * delete.
   */
  function CookieApiUser(u: Claims): (r: Claims)
    ensures r.userId == u.userId && r.username == u.username && r.role == u.role
    ensures r.kind == UserType && r.email == None
    ensures r.permissions.Some? && r.permissions.value.read && r.permissions.value.write && !r.permissions.value.delete
  {
    Claims(u.userId, u.username, None, u.role, UserType, Some(Permissions(true, true, false, [])))
  }

  /**
   * `getUserTokenFromCookie` (src/utils/userTokenCookie.ts): the cookie's
   * claims when it is present, non-empty and verifies; it is verified with
   * the same secret as API tokens.
   */
  function UserFromCookie(cookie: Option<string>, verify: string -> Option<Claims>): (r: Option<Claims>)
    ensures r.Some? <==> Truthy(cookie) && verify(cookie.value).Some?
    ensures r.Some? ==> r.value == verify(cookie.value).value
  {
    if !Truthy(cookie) then None else verify(cookie.value)
  }

  /** `sub` occurs in `s` starting at index `i`. */
  predicate IncludesAt(s: string, sub: string, i: nat)
  {
    i + |sub| <= |s| && s[i..i + |sub|] == sub
  }

  /** `s.includes(sub)`: true exactly when `sub` occurs somewhere in `s`. */
  function Contains(s: string, sub: string): (r: bool)
    ensures r <==> exists i: nat :: IncludesAt(s, sub, i)
    decreases |s|
  {
    if sub <= s then
      assert IncludesAt(s, sub, 0);
      true
    else if s == [] then
      false
    else
      var r := Contains(s[1..], sub);
      assert r ==> exists i: nat :: IncludesAt(s, sub, i) by {
        if r {
          var j: nat :| IncludesAt(s[1..], sub, j);
          assert s[1..][j..j + |sub|] == s[j + 1..j + 1 + |sub|];
          assert IncludesAt(s, sub, j + 1);
        }
      }
      assert (exists i: nat :: IncludesAt(s, sub, i)) ==> r by {
        if exists i: nat :: IncludesAt(s, sub, i) {
          var i: nat :| IncludesAt(s, sub, i);
          assert s[1..][i - 1..i - 1 + |sub|] == s[i..i + |sub|];
          assert IncludesAt(s[1..], sub, i - 1);
        }
      }
      r
  }

  /**
   * `req.headers.host?.includes('cloudflare') && req.method === 'GET'`: a
   * GET whose Host header holds "cloudflare" somewhere; no Host header
   * never qualifies.
   */
  predicate PublicAccess(req: Request)
    ensures PublicAccess(req) <==>
      req.host.Some? && req.httpMethod == "GET" && exists i: nat :: IncludesAt(req.host.value, "cloudflare", i)
  {
    req.host.Some? && Contains(req.host.value, "cloudflare") && req.httpMethod == "GET"
  }

  /** The claims of a truthy `query.token` that verifies; None when that rung does not apply. */
  function QueryGrant(req: Request, verify: string -> Option<Claims>): (r: Option<Claims>)
    ensures r.Some? <==> Truthy(req.queryToken) && verify(req.queryToken.value).Some?
    ensures r.Some? ==> r.value == verify(req.queryToken.value).value
  {
    if !Truthy(req.queryToken) then None else verify(req.queryToken.value)
  }

  /**
   * `authenticateApiToken`: the first rung that applies decides, in the
   * order bypass, query token, bearer or body token, cookie, Cloudflare
   * GET; a query token that fails to verify falls through, a header or
   * body token that fails is answered 401 "Invalid token", and when no rung
   * applies the answer is 401 "No token provided".
   */
  function AuthenticateApiTokenDecision(env: Env, req: Request, verify: string -> Option<Claims>): (o: Outcome<Claims>)
    ensures BypassEnabled(env) ==> o == Next(DevUser)
    ensures !BypassEnabled(env) && QueryGrant(req, verify).Some? ==> o == Next(QueryGrant(req, verify).value)
    ensures var token := GetToken(req.authorization, req.bodyToken);
      !BypassEnabled(env) && QueryGrant(req, verify).None? && Truthy(token) ==>
        o == match verify(token.value) case Some(c) => Next(c) case None => Respond(401, "error", InvalidToken)
    ensures var token := GetToken(req.authorization, req.bodyToken);
      !BypassEnabled(env) && QueryGrant(req, verify).None? && !Truthy(token) ==>
        o == match UserFromCookie(req.cookie, verify)
             case Some(u) => Next(CookieApiUser(u))
             case None => if PublicAccess(req) then Next(PublicUser) else Respond(401, "error", NoTokenProvided)
  {
    if BypassEnabled(env) then Next(DevUser)
    else
      match QueryGrant(req, verify)
      case Some(decoded) => Next(decoded)
      case None =>
        var token := GetToken(req.authorization, req.bodyToken);
        if Truthy(token) then
          match VerifyApiToken(verify, token.value)
          case Ok(decoded) => Next(decoded)
          case Err(_) => Respond(401, "error", InvalidToken)
        else
          match UserFromCookie(req.cookie, verify)
          case Some(u) => Next(CookieApiUser(u))
          case None =>
            if PublicAccess(req) then Next(PublicUser)
            else Respond(401, "error", NoTokenProvided)
  }

  /** The only two refusals, and what each means. */
  lemma RefusalsOfAuthentication(env: Env, req: Request, verify: string -> Option<Claims>)
    ensures var o := AuthenticateApiTokenDecision(env, req, verify);
      var token := GetToken(req.authorization, req.bodyToken);
      && (o.Respond? ==> o.status == 401 && o.field == "error")
      && (o == Respond(401, "error", InvalidToken) <==>
            !BypassEnabled(env) && QueryGrant(req, verify).None? && Truthy(token) && verify(token.value).None?)
      && (o == Respond(401, "error", NoTokenProvided) <==>
            && !BypassEnabled(env) && QueryGrant(req, verify).None? && !Truthy(token)
            && UserFromCookie(req.cookie, verify).None? && !PublicAccess(req))
  {
  }

  /** A query token that does not verify is skipped: the answer is as if there were none. */
  lemma InvalidQueryTokenFallsThrough(env: Env, req: Request, verify: string -> Option<Claims>)
    requires Truthy(req.queryToken) && verify(req.queryToken.value).None?
    ensures AuthenticateApiTokenDecision(env, req, verify)
         == AuthenticateApiTokenDecision(env, req.(queryToken := None), verify)
  {
  }

  /**
   * A truthy header or body token decides on its own: when it fails, a
   * valid cookie or a Cloudflare GET does not rescue the request.
   */
  lemma HeaderTokenShadowsCookieAndHost(env: Env, req: Request, verify: string -> Option<Claims>, cookie: Option<string>, host: Option<string>, httpMethod: string)
    requires !BypassEnabled(env) && QueryGrant(req, verify).None?
    requires Truthy(GetToken(req.authorization, req.bodyToken))
    ensures AuthenticateApiTokenDecision(env, req, verify)
         == AuthenticateApiTokenDecision(env, req.(cookie := cookie, host := host, httpMethod := httpMethod), verify)
  {
    var req2 := req.(cookie := cookie, host := host, httpMethod := httpMethod);
    assert QueryGrant(req2, verify) == QueryGrant(req, verify);
    assert GetToken(req2.authorization, req2.bodyToken) == GetToken(req.authorization, req.bodyToken);
  }

  /**
   * A request that carries no credential at all (no bypass, no token that
   * verifies, no cookie that verifies) gets only the read-only public user,
   * and only for a GET whose Host header contains "cloudflare".
   */
  lemma AnonymousAccessIsReadOnly(env: Env, req: Request, verify: string -> Option<Claims>)
    requires !BypassEnabled(env) && QueryGrant(req, verify).None?
    requires !Truthy(GetToken(req.authorization, req.bodyToken))
    requires UserFromCookie(req.cookie, verify).None?
    ensures var o := AuthenticateApiTokenDecision(env, req, verify);
      && (o.Next? <==> PublicAccess(req))
      && (o.Next? ==> o.grant.permissions == Some(Permissions(true, false, false, [])))
  {
  }

  /** "my.cloudflare.dev" passes the host test; "CloudFlare.dev" does not, the test being case-sensitive. */
  lemma CloudflareHostTest()
    ensures Contains("my.cloudflare.dev", "cloudflare")
    ensures !Contains("CloudFlare.dev", "cloudflare")
  {
    assert IncludesAt("my.cloudflare.dev", "cloudflare", 3);
    forall i: nat
      ensures !IncludesAt("CloudFlare.dev", "cloudflare", i)
    {
      if i + 10 <= 14 {
        assert "CloudFlare.dev"[i..i + 10][0] == "CloudFlare.dev"[i];
        assert "CloudFlare.dev"[i..i + 10][5] == "CloudFlare.dev"[i + 5];
      }
    }
  }

  /** `authorizeClient`: `next()` exactly for an API user of type CLIENT, else 403. */
  function AuthorizeClient(apiUser: Option<Claims>): (o: Outcome<()>)
    ensures o.Next? <==> apiUser.Some? && apiUser.value.kind == ClientType
    ensures o.Respond? ==> o == Respond(403, "error", ClientRequired)
  {
    if apiUser.None? || apiUser.value.kind != ClientType then Respond(403, "error", ClientRequired)
    else Next(())
  }

  /** `authenticateClientToken`: `authenticateApiToken`, then `authorizeClient` on what it set. */
  function AuthenticateClientToken(env: Env, req: Request, verify: string -> Option<Claims>): (o: Outcome<Claims>)
    ensures AuthenticateApiTokenDecision(env, req, verify).Respond? ==> o == AuthenticateApiTokenDecision(env, req, verify)
    ensures var a := AuthenticateApiTokenDecision(env, req, verify);
      a.Next? ==> o == if a.grant.kind == ClientType then Next(a.grant) else Respond(403, "error", ClientRequired)
  {
    match AuthenticateApiTokenDecision(env, req, verify)
    case Respond(status, field, text) => Respond(status, field, text)
    case Next(apiUser) =>
      match AuthorizeClient(Some(apiUser))
      case Respond(status, field, text) => Respond(status, field, text)
      case Next(_) => Next(apiUser)
  }

  /**
   * Only a verified CLIENT token, from the query string or the bearer or
   * body token, passes the client chain: the development bypass, the
   * cookie and the Cloudflare fallback all grant USERs and are refused 403.
   */
  lemma ClientChainAdmitsOnlyClientTokens(env: Env, req: Request, verify: string -> Option<Claims>)
    ensures var o := AuthenticateClientToken(env, req, verify);
      var token := GetToken(req.authorization, req.bodyToken);
      o.Next? <==>
        && !BypassEnabled(env)
        && (|| (QueryGrant(req, verify).Some? && QueryGrant(req, verify).value.kind == ClientType)
            || (QueryGrant(req, verify).None? && Truthy(token)
                && verify(token.value).Some? && verify(token.value).value.kind == ClientType))
    ensures BypassEnabled(env) ==> AuthenticateClientToken(env, req, verify) == Respond(403, "error", ClientRequired)
  {
  }

  /** What a room lookup of the database answers; Failed stands for a throw. */
  datatype Lookup = Found | NotFound | Failed

  /** `req.params.roomId || req.params.id`. */
  function RoomIdParam(req: Request): (r: Option<string>)
    ensures Truthy(req.roomIdParam) ==> r == req.roomIdParam
    ensures !Truthy(req.roomIdParam) ==> r == req.idParam
  {
    if Truthy(req.roomIdParam) then req.roomIdParam else req.idParam
  }

  /**
   * `authorizeRoomAccess(prisma)`: 401 without an API user; a CLIENT passes
   * without any lookup; any other user passes only when the room lookup
   * `findRoom(roomId, userId)` finds a room of which they are a member, is
   * refused 403 when it finds none, and gets 500 when it throws.
   */
  function AuthorizeRoomAccess(apiUser: Option<Claims>, req: Request, findRoom: (Option<string>, string) -> Lookup): (o: Outcome<()>)
    ensures apiUser.None? <==> o == Respond(401, "error", Unauthorized)
    ensures o.Next? <==> apiUser.Some? && (apiUser.value.kind == ClientType || findRoom(RoomIdParam(req), apiUser.value.userId) == Found)
    ensures o == Respond(403, "error", NoRoomAccess) <==>
      apiUser.Some? && apiUser.value.kind != ClientType && findRoom(RoomIdParam(req), apiUser.value.userId) == NotFound
    ensures o == Respond(500, "error", InternalError) <==>
      apiUser.Some? && apiUser.value.kind != ClientType && findRoom(RoomIdParam(req), apiUser.value.userId) == Failed
  {
    if apiUser.None? then Respond(401, "error", Unauthorized)
    else if apiUser.value.kind == ClientType then Next(())
    else
      match findRoom(RoomIdParam(req), apiUser.value.userId)
      case Found => Next(())
      case NotFound => Respond(403, "error", NoRoomAccess)
      case Failed => Respond(500, "error", InternalError)
  }

  /** A CLIENT's access does not depend on the database at all. */
  lemma ClientNeedsNoLookup(apiUser: Claims, req: Request, findRoom1: (Option<string>, string) -> Lookup, findRoom2: (Option<string>, string) -> Lookup)
    requires apiUser.kind == ClientType
    ensures AuthorizeRoomAccess(Some(apiUser), req, findRoom1) == AuthorizeRoomAccess(Some(apiUser), req, findRoom2) == Next(())
  {
  }

  /**
   * Room access for a USER is decided by membership of the room named by
   * `roomId` (or by `id` when `roomId` is absent or empty) and of no other.
   */
  lemma UserAccessFollowsNamedRoom(apiUser: Claims, req: Request, findRoom1: (Option<string>, string) -> Lookup, findRoom2: (Option<string>, string) -> Lookup)
    requires apiUser.kind != ClientType
    requires findRoom1(RoomIdParam(req), apiUser.userId) == findRoom2(RoomIdParam(req), apiUser.userId)
    ensures AuthorizeRoomAccess(Some(apiUser), req, findRoom1) == AuthorizeRoomAccess(Some(apiUser), req, findRoom2)
  {
  }

  /** A request as `authenticateApiToken` sees it; `apiUser` starts unset. */
  class ApiAuthRequest {
    const request: Request
    var apiUser: Option<Claims>

    constructor (request: Request)
      ensures this.request == request && apiUser == None
    {
      this.request := request;
      apiUser := None;
    }

    /** `authenticateApiToken`: `req.apiUser` is written only on the way to `next()`. */
    method AuthenticateApiToken(env: Env, verify: string -> Option<Claims>) returns (o: Outcome<Claims>)
      modifies this
      ensures o == AuthenticateApiTokenDecision(env, request, verify)
      ensures apiUser == if o.Next? then Some(o.grant) else old(apiUser)
    {
      if BypassEnabled(env) {
        apiUser := Some(DevUser);
        return Next(DevUser);
      }
      if Truthy(request.queryToken) {
        var decoded := VerifyApiToken(verify, request.queryToken.value);
        if decoded.Ok? {
          apiUser := Some(decoded.value);
          return Next(decoded.value);
        }
      }
      var token := GetToken(request.authorization, request.bodyToken);
      if Truthy(token) {
        var decoded := VerifyApiToken(verify, token.value);
        if decoded.Err? {
          return Respond(401, "error", InvalidToken);
        }
        apiUser := Some(decoded.value);
        return Next(decoded.value);
      }
      var fromCookie := UserFromCookie(request.cookie, verify);
      if fromCookie.Some? {
        apiUser := Some(CookieApiUser(fromCookie.value));
        return Next(CookieApiUser(fromCookie.value));
      }
      if PublicAccess(request) {
        apiUser := Some(PublicUser);
        return Next(PublicUser);
      }
      o := Respond(401, "error", NoTokenProvided);
    }

    /** `authorizeClient`, reading `req.apiUser`; it changes nothing. */
    method AuthorizeClientStep() returns (o: Outcome<()>)
      ensures o == AuthorizeClient(apiUser)
    {
      o := AuthorizeClient(apiUser);
    }
  }
}
