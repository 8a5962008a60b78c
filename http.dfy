/** Requests and JSON responses as the route handlers see them. */
module Http {
  import opened Wrappers
  import opened Users

  /** The request headers the pipeline and the handlers read; `None` is an absent header. */
  datatype Headers = Headers(
    authorization: Option<string>,
    refreshToken: Option<string>,
    userAgent: Option<string>)

  /**
   * A request: the client address the framework reports as `req.ip`, its headers, and its
   * JSON body, `None` when the body does not parse (`req.json()` throws).
   */
  datatype Request<B> = Request(ip: Option<string>, headers: Headers, body: Option<B>)

  /**
   * The JSON bodies the handlers answer with. `UserBody(user)` is the user object itself
   * as the body (the me and profile routes); `SessionBody` is `{user, token, refreshToken,
   * expiresIn}`. The `details` a schema violation adds beside `error` is not modelled.
   */
  datatype Body =
    | ErrorBody(error: string)
    | MessageBody(message: string)
    | SessionBody(user: User, token: string, refreshToken: string, expiresIn: nat)
    | TokensBody(token: string, refreshToken: string, expiresIn: nat)
    | UserBody(user: User)

  datatype Response = Response(status: nat, body: Body, headers: seq<(string, string)>)

  /** `NextResponse.json(body, {status})`: no extra headers. */
  function Json(status: nat, body: Body): Response
  {
    Response(status, body, [])
  }

  const InternalError := "Error interno del servidor"
  const InvalidData := "Datos inválidos"
}
