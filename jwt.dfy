/**
 * src/utils/jwt.ts: the payload of an API token and the mapping of
 * verification failures. Signing and verifying are foreign calls: `sign`
 * and `verify` are parameters, `verify` answering None where
 * `jwt.verify` throws.
 */
module Jwt {
  import opened Wrappers

  /**
   * The `type` claim: the enum `JwtAPIPayloadType` has CLIENT and USER; a
   * decoded token may carry anything else (the user cookie, for one,
   * carries the string 'USER', which is neither).
   */
  datatype PayloadType = ClientType | UserType | OtherType

  datatype Permissions = Permissions(read: bool, write: bool, delete: bool, rooms: seq<string>)

  /** The claims of a decoded API token; None marks a claim the token lacks. */
  datatype Claims = Claims(
    userId: string,
    username: Option<string>,
    email: Option<string>,
    role: Option<string>,
    kind: PayloadType,
    permissions: Option<Permissions>)

  /** The claims of a decoded user token (`JwtPayload`). */
  datatype UserClaims = UserClaims(userId: string, username: string, role: string)

  /** The token type a caller of `generateAPIToken` asks for. */
  datatype ApiTokenType = Client | User

  /** `userOrClient`: None marks a property the object does not have. */
  datatype Subject = Subject(userId: string, username: Option<string>, role: Option<string>, email: Option<string>)

  const InvalidPayload := "Invalid payload for token generation"
  const InvalidOrExpired := "Invalid or expired token"

  /**
   * The payload `generateAPIToken` signs: a USER token needs both
   * `username` and `role` and copies only those; a CLIENT token needs
   * `email` and copies only that; anything else is an error.
   */
  function ApiTokenPayload(subject: Subject, tokenType: ApiTokenType): (r: Result<Claims, string>)
    ensures r.Ok? <==>
      (tokenType == User && subject.username.Some? && subject.role.Some?) || (tokenType == Client && subject.email.Some?)
    ensures r.Ok? && tokenType == User ==>
      r.value == Claims(subject.userId, subject.username, None, subject.role, UserType, None)
    ensures r.Ok? && tokenType == Client ==>
      r.value == Claims(subject.userId, None, subject.email, None, ClientType, None)
    ensures r.Err? ==> r.error == InvalidPayload
  {
    if tokenType == User && subject.username.Some? && subject.role.Some? then
      Ok(Claims(subject.userId, subject.username, None, subject.role, UserType, None))
    else if tokenType == Client && subject.email.Some? then
      Ok(Claims(subject.userId, None, subject.email, None, ClientType, None))
    else
      Err(InvalidPayload)
  }

  /** `generateAPIToken`: the payload is chosen, or rejected, before anything is signed. */
  function GenerateApiToken(subject: Subject, tokenType: ApiTokenType, sign: Claims -> string): (r: Result<string, string>)
    ensures r.Ok? <==> ApiTokenPayload(subject, tokenType).Ok?
    ensures r.Ok? ==> r.value == sign(ApiTokenPayload(subject, tokenType).value)
    ensures r.Err? ==> r.error == InvalidPayload
  {
    match ApiTokenPayload(subject, tokenType)
    case Ok(payload) => Ok(sign(payload))
    case Err(e) => Err(e)
  }

  /** A USER token never carries permissions, and a CLIENT token never carries a username or role. */
  lemma GeneratedPayloadIsTagged(subject: Subject, tokenType: ApiTokenType)
    requires ApiTokenPayload(subject, tokenType).Ok?
    ensures var c := ApiTokenPayload(subject, tokenType).value;
      && c.permissions == None
      && c.userId == subject.userId
      && (c.kind == UserType <==> tokenType == User)
      && (c.kind == ClientType ==> c.username == None && c.role == None && c.email.Some?)
      && (c.kind == UserType ==> c.email == None && c.username.Some? && c.role.Some?)
  {
  }

  /** `verifyToken`: every failure of `jwt.verify` becomes the one error "Invalid or expired token". */
  function VerifyToken(verify: string -> Option<UserClaims>, token: string): (r: Result<UserClaims, string>)
    ensures r.Ok? <==> verify(token).Some?
    ensures r.Ok? ==> r.value == verify(token).value
    ensures r.Err? ==> r.error == InvalidOrExpired
  {
    match verify(token)
    case Some(claims) => Ok(claims)
    case None => Err(InvalidOrExpired)
  }

  /** `verifyAPIToken`: the same mapping, for API tokens. */
  function VerifyApiToken(verify: string -> Option<Claims>, token: string): (r: Result<Claims, string>)
    ensures r.Ok? <==> verify(token).Some?
    ensures r.Ok? ==> r.value == verify(token).value
    ensures r.Err? ==> r.error == InvalidOrExpired
  {
    match verify(token)
    case Some(claims) => Ok(claims)
    case None => Err(InvalidOrExpired)
  }
}
