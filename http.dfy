/** What the Express middleware reads from a request and what it answers. */
module Http {
  import opened Wrappers

  /**
   * A middleware's outcome: `next()` with what it granted, or a response
   * `res.status(status).json({ [field]: text })` that ends the request.
   */
  datatype Outcome<+T> = Next(grant: T) | Respond(status: nat, field: string, text: string)

  /**
   * The parts of a request the middleware reads: the Authorization header,
   * `body.token`, `query.token`, the `user_api_token` cookie, the Host
   * header, the method, and the route parameters `roomId` and `id`.
   * None stands for an absent value.
   */
  datatype Request = Request(
    authorization: Option<string>,
    bodyToken: Option<string>,
    queryToken: Option<string>,
    cookie: Option<string>,
    host: Option<string>,
    httpMethod: string,
    roomIdParam: Option<string>,
    idParam: Option<string>)

  /** JavaScript truthiness of a possibly absent string: present and not empty. */
  predicate Truthy(s: Option<string>)
  {
    s.Some? && s.value != ""
  }
}
