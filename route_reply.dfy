/** What a Next.js route handler answers: a status, a JSON body and, at most,
    one cookie it sets on the response. */
module RouteReply {
  import opened Optional
  import opened JsValues
  import opened Http

  datatype CookieOptions = CookieOptions(
    httpOnly: bool,
    secure: bool,
    sameSite: string,
    path: string,
    expiresAtEpoch: bool)

  datatype SetCookie = SetCookie(name: string, value: Json, options: CookieOptions)

  datatype Reply = Reply(status: nat, body: Json, cookie: Option<SetCookie>)

  /** A reply, and the request the handler forwarded to the backend, if any. */
  datatype Handled = Handled(reply: Reply, forwarded: Option<Request>)

  /** `NextResponse.json({ error }, { status })`. */
  function ErrorReply(status: nat, error: Json): Reply {
    Reply(status, JObj(map["error" := error]), None)
  }

  function ErrorText(status: nat, message: string): Reply {
    ErrorReply(status, JStr(message))
  }

  const ConfigMissing := ErrorText(500, "API URL not configured")
  const InternalError := ErrorText(500, "Internal server error")

  /** The options the login, register and refresh routes set `authToken` with;
      `secure` is `NODE_ENV === 'production'`. */
  function SessionCookie(token: Json, production: bool): SetCookie {
    SetCookie(AuthCookie, token, CookieOptions(true, production, "lax", "/", false))
  }

  /** `data.data.authorization.token`, each read strict. */
  function BackendToken(data: Js): Read {
    Then(Then(Dot(data, "data"), "authorization"), "token")
  }

  /** A backend POST with a JSON body, as the login and register routes send it. */
  function JsonPost(url: string, body: Json): Request {
    Request(url, Some("POST"), map["Content-Type" := Text("application/json")], Some(body))
  }
}
