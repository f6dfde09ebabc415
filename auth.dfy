/**
 * src/middleware/auth.ts: `authenticate`, which verifies the bearer token
 * and records its claims in `req.user`, and `authorizeAdmin`.
 */
module Auth {
  import opened Wrappers
  import opened Http
  import opened Tokens
  import opened Jwt

  const NoTokenProvided := "Unauthorized: No token provided"
  const InvalidToken := "Unauthorized: Invalid token"
  const AdminRequired := "Forbidden: Admin access required"

  /**
   * The decision of `authenticate`: 401 "No token provided" when
   * `getToken` yields nothing truthy, 401 "Invalid token" when verification
   * throws, and otherwise `next()` with the decoded claims.
   */
  function AuthenticateDecision(req: Request, verify: string -> Option<UserClaims>): (o: Outcome<UserClaims>)
    ensures var token := GetToken(req.authorization, req.bodyToken);
      && (o == Respond(401, "message", NoTokenProvided) <==> !Truthy(token))
      && (o == Respond(401, "message", InvalidToken) <==> Truthy(token) && verify(token.value).None?)
      && (o.Next? <==> Truthy(token) && verify(token.value).Some?)
      && (o.Next? ==> o.grant == verify(token.value).value)
  {
    var token := GetToken(req.authorization, req.bodyToken);
    if !Truthy(token) then Respond(401, "message", NoTokenProvided)
    else
      match VerifyToken(verify, token.value)
      case Ok(user) => Next(user)
      case Err(_) => Respond(401, "message", InvalidToken)
  }

  /** `authorizeAdmin`: `next()` exactly for a user whose role is exactly "ADMIN", else 403. */
  function AuthorizeAdmin(user: Option<UserClaims>): (o: Outcome<()>)
    ensures o.Next? <==> user.Some? && user.value.role == "ADMIN"
    ensures o.Respond? ==> o == Respond(403, "message", AdminRequired)
  {
    if user.None? || user.value.role != "ADMIN" then Respond(403, "message", AdminRequired)
    else Next(())
  }

  /** The role test is exact: "admin" is refused. */
  lemma LowerCaseAdminIsRefused(userId: string, username: string)
    ensures AuthorizeAdmin(Some(UserClaims(userId, username, "admin"))) == Respond(403, "message", AdminRequired)
  {
  }

  /** A request as `authenticate` sees it; `user` starts unset. */
  class AuthRequest {
    const request: Request
    var user: Option<UserClaims>

    constructor (request: Request)
      ensures this.request == request && user == None
    {
      this.request := request;
      user := None;
    }

    /** `authenticate`: `req.user` is written only on the way to `next()`. */
    method Authenticate(verify: string -> Option<UserClaims>) returns (o: Outcome<UserClaims>)
      modifies this
      ensures o == AuthenticateDecision(request, verify)
      ensures user == if o.Next? then Some(o.grant) else old(user)
    {
      var token := GetToken(request.authorization, request.bodyToken);
      if !Truthy(token) {
        return Respond(401, "message", NoTokenProvided);
      }
      var decoded := VerifyToken(verify, token.value);
      if decoded.Err? {
        return Respond(401, "message", InvalidToken);
      }
      user := Some(decoded.value);
      o := Next(decoded.value);
    }
  }
}
