/** `POST /api/logout` (src/app/api/logout/route.ts): calls the backend's
    `/auth/logout` through `serverApiFetch` and, unless that reports an error,
    answers success and expires the `authToken` cookie. */
module LogoutRoute {
  import opened Optional
  import opened JsValues
  import opened Http
  import opened RouteReply
  import ServerFetch

  /** The call the handler makes: `serverApiFetch('/auth/logout', { method: 'POST' })`. */
  const Endpoint := "/auth/logout"
  const Options := ServerFetch.FetchOptions(false, Some("POST"), map[], None)

  /** How that call ended: it returned an `ApiResponse`, or something threw. */
  datatype Call = Returned(response: ServerFetch.ApiResponse) | Raised

  /** `authToken` overwritten with "" and an expiry at the epoch. */
  function ClearedCookie(production: bool): SetCookie {
    SetCookie(AuthCookie, JStr(""), CookieOptions(true, production, "lax", "/", true))
  }

  function LoggedOut(production: bool): Reply {
    Reply(200, JObj(map["message" := JStr("Logged out successfully")]), Some(ClearedCookie(production)))
  }

  function Post(call: Call, production: bool): (reply: Reply)
    // the cookie is cleared exactly when the backend call came back without an error
    ensures reply.cookie.Some? <==> call.Returned? && !Truthy(Defined(call.response.error))
    ensures reply.cookie.Some? ==> reply == LoggedOut(production)
    // an error from the backend call is passed on, under status 500
    ensures call.Returned? && Truthy(Defined(call.response.error)) ==>
      reply == ErrorReply(500, call.response.error)
    ensures call.Raised? ==> reply == InternalError
  {
    match call
    case Raised => InternalError
    case Returned(response) =>
      if Truthy(Defined(response.error)) then ErrorReply(500, response.error)
      else LoggedOut(production)
  }
}
