/** `POST /api/refresh-token` (src/app/api/refresh-token/route.ts): forwards the
    caller's Authorization header to the backend's `/auth/refresh` and, on
    success, answers `{ token }` and sets the `authToken` cookie to it. */
module RefreshTokenRoute {
  import opened Optional
  import opened JsValues
  import opened Http
  import opened RouteReply

  const BackendPath := "/auth/refresh"
  const NoToken := ErrorText(401, "No authorization token provided")
  const TokenMissing := ErrorText(500, "New token not found in response")

  /** The request forwarded to the backend: the Authorization header, verbatim. */
  function Forward(baseUrl: string, authHeader: HeaderValue): Request {
    Request(baseUrl + BackendPath, Some("POST"), map["Authorization" := authHeader], None)
  }

  /** The reply built from the backend's outcome (lines 40-74). */
  function Answer(backend: FetchOutcome, production: bool): Reply {
    match backend
    case NetworkError(_) => InternalError
    case Response(status, body) =>
      if body.Unparseable? then InternalError
      else
        var data := Defined(body.value);
        if !Ok(status) then
          match Dot(data, "message")
          case TypeError => InternalError
          case Got(message) => ErrorReply(status, Or(message, JStr("Token refresh failed")))
        else
          match BackendToken(data)
          case TypeError => InternalError
          case Got(newToken) =>
            if !Truthy(newToken) then TokenMissing
            else Reply(200, JObj(map["token" := newToken.v]), Some(SessionCookie(newToken.v, production)))
  }

  function Post(baseUrl: Option<string>, authHeader: Option<HeaderValue>, backend: FetchOutcome,
                production: bool): (h: Handled)
    ensures !Configured(baseUrl) ==> h == Handled(ConfigMissing, None)
    ensures Configured(baseUrl) && !HeaderPresent(authHeader) ==> h == Handled(NoToken, None)
    ensures h.forwarded.Some? <==> Configured(baseUrl) && HeaderPresent(authHeader)
    ensures h.forwarded.Some? ==> h.forwarded.value == Forward(baseUrl.value, authHeader.value)
    // the reply is a success exactly when it sets the cookie, and then body and cookie agree
    ensures h.reply.cookie.Some? <==> Ok(h.reply.status)
    ensures h.reply.cookie.Some? ==>
      var token := h.reply.cookie.value.value;
      h.forwarded.Some? && backend.Response? && Ok(backend.status) && backend.body.Parsed?
      && BackendToken(Defined(backend.body.value)) == Got(Defined(token))
      && Truthy(Defined(token))
      && h.reply == Reply(200, JObj(map["token" := token]), Some(SessionCookie(token, production)))
    // a backend refusal keeps its status and message
    ensures h.forwarded.Some? && backend.Response? && !Ok(backend.status)
            && backend.body.Parsed? && backend.body.value != JNull ==>
      h.reply == ErrorReply(backend.status,
                            Or(OptDot(Defined(backend.body.value), "message"), JStr("Token refresh failed")))
    // an accepted reply with a truthy token always sets the cookie
    ensures h.forwarded.Some? && backend.Response? && Ok(backend.status) && backend.body.Parsed?
            && BackendToken(Defined(backend.body.value)).Got?
            && Truthy(BackendToken(Defined(backend.body.value)).value) ==>
      h.reply.cookie.Some?
    // an accepted refresh without a token sets no cookie
    ensures h.forwarded.Some? && backend.Response? && Ok(backend.status) && backend.body.Parsed?
            && BackendToken(Defined(backend.body.value)).Got?
            && !Truthy(BackendToken(Defined(backend.body.value)).value) ==>
      h.reply == TokenMissing
    // transport failures and unreadable bodies are internal errors
    ensures h.forwarded.Some? && (backend.NetworkError? || backend.body.Unparseable?) ==>
      h.reply == InternalError
    // a strict read that throws (`data.message` on a null body, or
    // `data.data.authorization.token` with a link missing) is caught likewise
    ensures h.forwarded.Some? && backend.Response? && backend.body.Parsed?
            && (if Ok(backend.status) then BackendToken(Defined(backend.body.value)).TypeError?
                else backend.body.value == JNull) ==>
      h.reply == InternalError
  {
    if !Configured(baseUrl) then Handled(ConfigMissing, None)
    else if !HeaderPresent(authHeader) then Handled(NoToken, None)
    else Handled(Answer(backend, production), Some(Forward(baseUrl.value, authHeader.value)))
  }
}
