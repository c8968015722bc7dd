/** `POST /api/register` (src/app/api/register/route.ts): forwards the JSON
    request body to the backend's `/auth/register` and, on success, answers
    `{ data }` (the new user and its authorization) and sets the `authToken`
    cookie to the issued token. */
module RegisterRoute {
  import opened Optional
  import opened JsValues
  import opened Http
  import opened RouteReply

  const BackendPath := "/auth/register"
  const TokenMissing := ErrorText(500, "Token not found in response")

  /** The reply built from the backend's outcome (lines 48-82). */
  function Answer(backend: FetchOutcome, production: bool): Reply {
    match backend
    case NetworkError(_) => InternalError
    case Response(status, body) =>
      if body.Unparseable? then InternalError
      else
        var data := Defined(body.value);
        if !Ok(status) then
          match Dot(data, "message")
          case TypeError => InternalError
          case Got(message) => ErrorReply(status, Or(message, JStr("Registration failed")))
        else
          match BackendToken(data)
          case TypeError => InternalError
          case Got(token) =>
            if !Truthy(token) then TokenMissing
            else
              // `data.data` was read, and was an object, on the way to the token
              var registered := OptDot(data, "data");
              assert registered.Defined?;
              Reply(200, JObj(map["data" := registered.v]), Some(SessionCookie(token.v, production)))
  }

  /** `incoming` is what `request.json()` does with the caller's body. */
  function Post(baseUrl: Option<string>, incoming: Body, backend: FetchOutcome, production: bool): (h: Handled)
    ensures !Configured(baseUrl) ==> h == Handled(ConfigMissing, None)
    ensures Configured(baseUrl) && incoming.Unparseable? ==> h == Handled(InternalError, None)
    // the caller's body goes to the backend unchanged, as JSON, by POST
    ensures h.forwarded.Some? <==> Configured(baseUrl) && incoming.Parsed?
    ensures h.forwarded.Some? ==>
      h.forwarded.value == JsonPost(baseUrl.value + BackendPath, incoming.value)
    // the reply is a success exactly when it sets the cookie; the body is the
    // backend's `data`, and the cookie holds the token inside it
    ensures h.reply.cookie.Some? <==> Ok(h.reply.status)
    ensures h.reply.cookie.Some? ==>
      var token := h.reply.cookie.value.value;
      h.forwarded.Some? && backend.Response? && Ok(backend.status) && backend.body.Parsed?
      && BackendToken(Defined(backend.body.value)) == Got(Defined(token))
      && Truthy(Defined(token))
      && OptDot(Defined(backend.body.value), "data").Defined?
      && h.reply == Reply(200, JObj(map["data" := OptDot(Defined(backend.body.value), "data").v]),
                          Some(SessionCookie(token, production)))
    // a backend refusal keeps its status and message
    ensures h.forwarded.Some? && backend.Response? && !Ok(backend.status)
            && backend.body.Parsed? && backend.body.value != JNull ==>
      h.reply == ErrorReply(backend.status,
                            Or(OptDot(Defined(backend.body.value), "message"), JStr("Registration failed")))
    // an accepted reply with a truthy token always sets the cookie
    ensures h.forwarded.Some? && backend.Response? && Ok(backend.status) && backend.body.Parsed?
            && BackendToken(Defined(backend.body.value)).Got?
            && Truthy(BackendToken(Defined(backend.body.value)).value) ==>
      h.reply.cookie.Some?
    // an accepted registration without a token sets no cookie
    ensures h.forwarded.Some? && backend.Response? && Ok(backend.status) && backend.body.Parsed?
            && BackendToken(Defined(backend.body.value)).Got?
            && !Truthy(BackendToken(Defined(backend.body.value)).value) ==>
      h.reply == TokenMissing
    ensures h.forwarded.Some? && (backend.NetworkError? || backend.body.Unparseable?) ==>
      h.reply == InternalError
    // a strict read that throws (`data.message` on a null body, or
    // `data.data.authorization.token` with a link missing) is caught likewise
    ensures h.forwarded.Some? && backend.Response? && backend.body.Parsed?
            && (if Ok(backend.status) then BackendToken(Defined(backend.body.value)).TypeError?
                else backend.body.value == JNull) ==>
      h.reply == InternalError
  {
    if !Configured(baseUrl) then Handled(ConfigMissing, None)
    else if incoming.Unparseable? then Handled(InternalError, None)
    else Handled(Answer(backend, production), Some(JsonPost(baseUrl.value + BackendPath, incoming.value)))
  }
}
