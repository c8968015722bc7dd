/** How the route handlers and the fetch wrapper fit together around the
    `authToken` cookie. */
module CookieContract {
  import opened Optional
  import opened JsValues
  import opened Http
  import opened ServerFetch
  import RouteReply
  import RefreshTokenRoute
  import LoginRoute
  import LogoutRoute

  /** When `refreshToken`'s POST is answered by the refresh route, the route
      forwards the current token to the backend verbatim, and `refreshToken`
      succeeds exactly when the route sets the cookie, storing the same token. */
  lemma RefreshRouteAnswersRefreshToken(apiUrl: string, routeBaseUrl: Option<string>,
                                        cookies: map<string, Json>, backend: FetchOutcome, production: bool)
    requires Truthy(CookieValue(cookies))
    ensures
      var request := RefreshRequest(apiUrl, CookieValue(cookies).v);
      var handled := RefreshTokenRoute.Post(routeBaseUrl, Some(request.headers["Authorization"]), backend, production);
      var run := RefreshTokenRun(apiUrl, cookies, Response(handled.reply.status, Parsed(handled.reply.body)));
      (handled.forwarded.Some? <==> Configured(routeBaseUrl))
      && (handled.forwarded.Some? ==>
            handled.forwarded.value.headers == map["Authorization" := Bearer(CookieValue(cookies).v)])
      && (run.refreshed <==> handled.reply.cookie.Some?)
      && (run.refreshed ==> run.cookies == cookies[AuthCookie := handled.reply.cookie.value.value])
      && (!run.refreshed ==> run.cookies == cookies)
  {
  }

  /** The token the login route issues, once the browser sends it back as the
      `authToken` cookie, is the bearer token of every request that does not
      skip auth. */
  lemma LoginTokenIsAttached(baseUrl: Option<string>, incoming: Body, backend: FetchOutcome, production: bool,
                             cookies: map<string, Json>, options: FetchOptions)
    requires !options.skipAuth
    ensures
      var handled := LoginRoute.Post(baseUrl, incoming, backend, production);
      handled.reply.cookie.Some? ==>
        var token := handled.reply.cookie.value.value;
        var h := RequestHeaders(options, cookies[AuthCookie := token]);
        handled.reply.cookie.value.name == AuthCookie && h["Authorization"] == Bearer(token)
  {
  }

  /** Logout's own reply expires the cookie exactly when the backend call
      through the wrapper ends without an error: after a 2xx with a body, or
      after a successful refresh and retry. A 401 whose recovery fails gets no
      such reply, but the wrapper has deleted the cookie already. */
  lemma LogoutEndsSession(baseUrl: Option<string>, cookies: map<string, Json>,
                          first: FetchOutcome, refresh: FetchOutcome, retry: FetchOutcome,
                          production: bool)
    ensures
      var run := ServerApiFetchRun(baseUrl, LogoutRoute.Endpoint, LogoutRoute.Options, cookies, first, refresh, retry);
      var reply := LogoutRoute.Post(LogoutRoute.Returned(run.response), production);
      (reply.cookie.Some? <==> run.response.error == JNull)
      && (reply.cookie.Some? <==>
            Configured(baseUrl) && (FirstSucceeded(first) || (|run.sent| == 3 && RetrySucceeded(retry))))
      && (Configured(baseUrl) && Is401(first) && run.response.error != JNull ==>
            reply.cookie.None? && AuthCookie !in run.cookies)
      && (Configured(baseUrl) ==> run.sent[0].url == baseUrl.value + "/auth/logout"
                                  && run.sent[0].verb == Some("POST"))
  {
  }
}
