/** The server-side authenticated fetch wrapper (src/lib/serverApiFetch.ts):
    `refreshToken` and `serverApiFetch`, over a request-scoped cookie store.

    The specification functions `RefreshTokenRun` and `ServerApiFetchRun` give
    the whole effect of one call as a value (the result, the cookie store
    afterwards, the requests issued); the methods of `ServerContext` perform the
    call step by step and are proved equal to them. */
module ServerFetch {
  import opened Optional
  import opened JsValues
  import opened Http
  import Decimal

  const RefreshPath := "/api/refresh-token"
  const HttpErrorPrefix := "HTTP error! status: "

  /** `ApiResponse<T>`; `JNull` plays JavaScript's `null` in both fields. */
  datatype ApiResponse = ApiResponse(data: Json, error: Json)

  /** `serverApiFetch`'s options: `skipAuth` plus the `RequestInit` fields it passes on. */
  datatype FetchOptions = FetchOptions(
    skipAuth: bool,
    verb: Option<string>,
    headers: map<string, HeaderValue>,
    body: Option<Json>)

  /** The whole effect of one call: what it returns, the cookie store after it,
      and the requests it handed to `fetch`, in order. */
  datatype Run = Run(response: ApiResponse, cookies: map<string, Json>, sent: seq<Request>)

  datatype RefreshRun = RefreshRun(refreshed: bool, cookies: map<string, Json>, sent: seq<Request>)

  /** An error object `{code, message}`. */
  function ApiError(code: string, message: string): Json {
    JObj(map["code" := JStr(code), "message" := JStr(message)])
  }

  const ConfigError := ApiResponse(JNull, ApiError("API_CONFIG_ERROR", "API URL not configured"))
  const TokenExpired := ApiError("AUTH_002", "Token expired")
  const ParseError := ApiResponse(JNull, ApiError("PARSE_ERROR", "Failed to parse server response"))

  function FetchError(reason: string): ApiResponse {
    ApiResponse(JNull, ApiError("FETCH_ERROR", reason))
  }

  function HttpErrorMessage(status: nat): string {
    HttpErrorPrefix + Decimal.Digits(status)
  }

  /** `cookieStore.get("authToken")?.value`. */
  function CookieValue(cookies: map<string, Json>): Js {
    if AuthCookie in cookies then Defined(cookies[AuthCookie]) else Undefined
  }

  /** `responseData`: the parsed body, or `null` when `response.json()` rejected. */
  function ResponseData(body: Body): Json {
    if body.Parsed? then body.value else JNull
  }

  /** `responseData?.error`. */
  function ErrorMember(responseData: Json): Js {
    OptDot(Defined(responseData), "error")
  }

  /** A structured backend error: `success === false` with a truthy `error.code`
      and a truthy `error.message`. */
  predicate Structured(responseData: Json) {
    OptDot(Defined(responseData), "success") == Defined(JBool(false))
    && Truthy(OptDot(ErrorMember(responseData), "code"))
    && Truthy(OptDot(ErrorMember(responseData), "message"))
  }

  /** The token a refresh response carries: `data.token` of an ok, parsed response. */
  function IssuedToken(outcome: FetchOutcome): Js {
    if outcome.Response? && Ok(outcome.status) && outcome.body.Parsed?
    then OptDot(Defined(outcome.body.value), "token")
    else Undefined
  }

  /** Whether the request carries the cookie token: auth is not skipped and the cookie is truthy. */
  predicate AttachesToken(options: FetchOptions, cookies: map<string, Json>) {
    !options.skipAuth && Truthy(CookieValue(cookies))
  }

  /** The headers of the endpoint request: the caller's, with the cookie token as
      `Authorization` when attached, under a `Content-Type` default. */
  function RequestHeaders(options: FetchOptions, cookies: map<string, Json>): (h: map<string, HeaderValue>)
    ensures "Content-Type" in h
    ensures h["Content-Type"] ==
      if "Content-Type" in options.headers then options.headers["Content-Type"] else Text("application/json")
    ensures AttachesToken(options, cookies) ==>
      "Authorization" in h && h["Authorization"] == Bearer(CookieValue(cookies).v)
    ensures !AttachesToken(options, cookies) ==>
      ("Authorization" in h <==> "Authorization" in options.headers)
      && ("Authorization" in h ==> h["Authorization"] == options.headers["Authorization"])
    ensures h.Keys == options.headers.Keys + {"Content-Type"}
                      + (if AttachesToken(options, cookies) then {"Authorization"} else {})
    ensures forall k :: k in options.headers && k != "Content-Type" && k != "Authorization" ==>
      k in h && h[k] == options.headers[k]
  {
    var withAuth :=
      if AttachesToken(options, cookies)
      then options.headers["Authorization" := Bearer(CookieValue(cookies).v)]
      else options.headers;
    map["Content-Type" := Text("application/json")] + withAuth
  }

  function EndpointRequest(baseUrl: string, endpoint: string, options: FetchOptions,
                           cookies: map<string, Json>): Request {
    Request(baseUrl + endpoint, options.verb, RequestHeaders(options, cookies), options.body)
  }

  /** `refreshToken`'s request, carrying the current cookie token. */
  function RefreshRequest(baseUrl: string, current: Json): Request {
    Request(baseUrl + RefreshPath, Some("POST"),
            map["Content-Type" := Text("application/json"), "Authorization" := Bearer(current)],
            None)
  }

  /** The retried endpoint request: the first one with `Authorization` replaced. */
  function RetryRequest(first: Request, token: Json): Request {
    first.(headers := first.headers["Authorization" := Bearer(token)])
  }

  /** `refreshToken()` against a scripted response to its POST. */
  function RefreshTokenRun(baseUrl: string, cookies: map<string, Json>, outcome: FetchOutcome): (run: RefreshRun)
    ensures run.refreshed <==> Truthy(CookieValue(cookies)) && Truthy(IssuedToken(outcome))
    ensures run.refreshed ==> run.cookies == cookies[AuthCookie := IssuedToken(outcome).v]
    ensures !run.refreshed ==> run.cookies == cookies
    ensures run.sent == if Truthy(CookieValue(cookies))
                        then [RefreshRequest(baseUrl, CookieValue(cookies).v)] else []
  {
    var current := CookieValue(cookies);
    if !Truthy(current) then RefreshRun(false, cookies, [])
    else
      var request := RefreshRequest(baseUrl, current.v);
      if outcome.Response? && Ok(outcome.status) && outcome.body.Parsed? then
        match Dot(Defined(outcome.body.value), "token")
        case TypeError => RefreshRun(false, cookies, [request])
        case Got(token) =>
          if Truthy(token) then RefreshRun(true, cookies[AuthCookie := token.v], [request])
          else RefreshRun(false, cookies, [request])
      else RefreshRun(false, cookies, [request])
  }

  /** The mapping of a first response that is not a 401 (lines 141-176). */
  function Classify(status: nat, responseData: Json): (r: ApiResponse)
    requires status != 401
    ensures r.error != JNull ==> r.data == JNull
    ensures r.error == JNull <==> Ok(status) && Truthy(Defined(responseData))
    ensures r.error == JNull ==> r.data == responseData
    ensures !Ok(status) && Structured(responseData) ==> r.error == ErrorMember(responseData).v
    ensures !Ok(status) && !Structured(responseData) ==>
      r.error == ApiError("HTTP_ERROR", HttpErrorMessage(status))
    ensures Ok(status) && !Truthy(Defined(responseData)) ==> r == ParseError
  {
    if !Ok(status) then
      if Structured(responseData) then ApiResponse(JNull, ErrorMember(responseData).v)
      else ApiResponse(JNull, ApiError("HTTP_ERROR", HttpErrorMessage(status)))
    else if !Truthy(Defined(responseData)) then ParseError
    else ApiResponse(responseData, JNull)
  }

  /** Whether the retry produced a result: an ok response whose body parsed. */
  predicate RetrySucceeded(retry: FetchOutcome) {
    retry.Response? && Ok(retry.status) && retry.body.Parsed?
  }

  /** Recovery from a 401 (lines 98-138): one refresh, at most one retry, and the
      cookie deleted unless the retry succeeds. `sent` holds the refresh and retry
      requests only. */
  function Recover(baseUrl: string, request: Request, responseData: Json, cookies: map<string, Json>,
                   refresh: FetchOutcome, retry: FetchOutcome): (run: Run)
    ensures |run.sent| <= 2
    ensures |run.sent| >= 1 <==> Truthy(CookieValue(cookies))
    ensures |run.sent| >= 1 ==> run.sent[0] == RefreshRequest(baseUrl, CookieValue(cookies).v)
    ensures |run.sent| == 2 <==> Truthy(CookieValue(cookies)) && Truthy(IssuedToken(refresh))
    ensures |run.sent| == 2 ==> run.sent[1] == RetryRequest(request, IssuedToken(refresh).v)
    ensures run.response.error == JNull <==> |run.sent| == 2 && RetrySucceeded(retry)
    ensures run.response.error == JNull ==>
      run.response.data == retry.body.value
      && run.cookies == cookies[AuthCookie := IssuedToken(refresh).v]
    ensures run.response.error != JNull ==>
      run.response.data == JNull && run.cookies == cookies - {AuthCookie}
    ensures run.response.error != JNull ==>
      run.response.error ==
        if |run.sent| == 2 && (retry.NetworkError? || Ok(retry.status)) then TokenExpired
        else Or(ErrorMember(responseData), TokenExpired)
  {
    var r := RefreshTokenRun(baseUrl, cookies, refresh);
    var failed := ApiResponse(JNull, Or(ErrorMember(responseData), TokenExpired));
    var caught := ApiResponse(JNull, TokenExpired);
    var cleared := r.cookies - {AuthCookie};
    if !r.refreshed then Run(failed, cleared, r.sent)
    else
      var newToken := CookieValue(r.cookies);
      if !Truthy(newToken) then Run(failed, cleared, r.sent)
      else
        var sent := r.sent + [RetryRequest(request, newToken.v)];
        match retry
        case NetworkError(_) => Run(caught, cleared, sent)
        case Response(status, body) =>
          if !Ok(status) then Run(failed, cleared, sent)
          else if body.Unparseable? then Run(caught, cleared, sent)
          else Run(ApiResponse(body.value, JNull), r.cookies, sent)
  }

  /** Whether the first response is a success the wrapper returns as data. */
  predicate FirstSucceeded(first: FetchOutcome) {
    first.Response? && Ok(first.status) && first.body.Parsed? && Truthy(Defined(first.body.value))
  }

  predicate Is401(first: FetchOutcome) {
    first.Response? && first.status == 401
  }

  /** `serverApiFetch(endpoint, options)` with scripted outcomes for the endpoint
      request, the refresh request and the retry (each used only if issued). */
  function ServerApiFetchRun(baseUrl: Option<string>, endpoint: string, options: FetchOptions,
                             cookies: map<string, Json>,
                             first: FetchOutcome, refresh: FetchOutcome, retry: FetchOutcome): (run: Run)
    // a non-null error always comes with null data, and is itself truthy
    ensures run.response.error != JNull ==> run.response.data == JNull
    ensures run.response.error == JNull || Truthy(Defined(run.response.error))
    // no base URL: a configuration error, nothing sent, no cookie touched
    ensures !Configured(baseUrl) ==> run == Run(ConfigError, cookies, [])
    // otherwise the endpoint request first, then at most one refresh and one retry
    ensures Configured(baseUrl) ==>
      1 <= |run.sent| <= 3 && run.sent[0] == EndpointRequest(baseUrl.value, endpoint, options, cookies)
    ensures |run.sent| >= 2 ==>
      Configured(baseUrl) && Is401(first) && Truthy(CookieValue(cookies))
      && run.sent[1] == RefreshRequest(baseUrl.value, CookieValue(cookies).v)
    ensures |run.sent| == 3 ==>
      Truthy(IssuedToken(refresh)) && run.sent[2] == RetryRequest(run.sent[0], IssuedToken(refresh).v)
    // a null error only from a successful first response or a successful retry
    ensures run.response.error == JNull <==>
      Configured(baseUrl) && (FirstSucceeded(first) || (|run.sent| == 3 && RetrySucceeded(retry)))
    // a 401 whose recovery fails deletes the cookie; nothing else but a refresh touches it
    ensures Configured(baseUrl) && Is401(first) && run.response.error != JNull ==>
      run.cookies == cookies - {AuthCookie}
    ensures !(Configured(baseUrl) && Is401(first)) ==> run.cookies == cookies
    // the error mapping of the other paths
    ensures Configured(baseUrl) && first.NetworkError? ==> run.response == FetchError(first.reason)
    ensures Configured(baseUrl) && first.Response? && first.status != 401 ==>
      run.response == Classify(first.status, ResponseData(first.body))
    // a 401 is handed to the recovery, whose result, cookies and requests follow the endpoint request
    ensures Configured(baseUrl) && Is401(first) ==>
      var recovery := Recover(baseUrl.value, run.sent[0], ResponseData(first.body), cookies, refresh, retry);
      run == recovery.(sent := [run.sent[0]] + recovery.sent)
  {
    if !Configured(baseUrl) then Run(ConfigError, cookies, [])
    else
      var request := EndpointRequest(baseUrl.value, endpoint, options, cookies);
      match first
      case NetworkError(reason) => Run(FetchError(reason), cookies, [request])
      case Response(status, body) =>
        if status == 401 then
          var recovery := Recover(baseUrl.value, request, ResponseData(body), cookies, refresh, retry);
          recovery.(sent := [request] + recovery.sent)
        else Run(Classify(status, ResponseData(body)), cookies, [request])
  }

  /** The HTTP error message names the status: reading the digits after the
      prefix gives the status back. */
  lemma HttpErrorMessageNamesStatus(status: nat)
    ensures var m := HttpErrorMessage(status);
      |m| > |HttpErrorPrefix| && m[..|HttpErrorPrefix|] == HttpErrorPrefix
      && Decimal.AllDigits(m[|HttpErrorPrefix|..])
      && Decimal.Value(m[|HttpErrorPrefix|..]) == status
  {
    var m := HttpErrorMessage(status);
    assert m[|HttpErrorPrefix|..] == Decimal.Digits(status);
    Decimal.ValueOfDigits(status);
  }

  /** The request-scoped state `serverApiFetch` works on: the cookie store that
      `cookies()` returns, and the requests handed to `fetch` so far. */
  class ServerContext {
    var cookies: map<string, Json>
    var sent: seq<Request>

    constructor (incoming: map<string, Json>)
      ensures cookies == incoming && sent == []
    {
      cookies := incoming;
      sent := [];
    }

    /** `refreshToken()`: lines 17-44. */
    method RefreshToken(baseUrl: string, outcome: FetchOutcome) returns (refreshed: bool)
      modifies this
      ensures var run := RefreshTokenRun(baseUrl, old(cookies), outcome);
        refreshed == run.refreshed && cookies == run.cookies && sent == old(sent) + run.sent
    {
      var currentToken := CookieValue(cookies);
      if !Truthy(currentToken) {
        return false;
      }
      sent := sent + [RefreshRequest(baseUrl, currentToken.v)];
      if outcome.NetworkError? || !Ok(outcome.status) {
        return false;
      }
      if outcome.body.Unparseable? {
        // `response.json()` rejects: caught, and refreshing fails
        return false;
      }
      var token := Dot(Defined(outcome.body.value), "token");
      if token.TypeError? {
        // `data.token` on a `null` body throws: caught likewise
        return false;
      }
      if Truthy(token.value) {
        cookies := cookies[AuthCookie := token.value.v];
        return true;
      }
      return false;
    }

    /** The 401 branch of `serverApiFetch` (lines 98-138): refresh, retry once
        with the new token, and delete the cookie unless the retry succeeds. */
    method RecoverFrom401(baseUrl: string, request: Request, responseData: Json,
                          refresh: FetchOutcome, retry: FetchOutcome) returns (r: ApiResponse)
      modifies this
      ensures var run := Recover(baseUrl, request, responseData, old(cookies), refresh, retry);
        r == run.response && cookies == run.cookies && sent == old(sent) + run.sent
    {
      var refreshed := RefreshToken(baseUrl, refresh);
      if refreshed {
        var newToken := CookieValue(cookies);
        if Truthy(newToken) {
          sent := sent + [RetryRequest(request, newToken.v)];
          if retry.NetworkError? {
            cookies := cookies - {AuthCookie};
            return ApiResponse(JNull, TokenExpired);
          }
          if Ok(retry.status) {
            if retry.body.Unparseable? {
              // `retryResponse.json()` rejects inside the recovery `try`
              cookies := cookies - {AuthCookie};
              return ApiResponse(JNull, TokenExpired);
            }
            return ApiResponse(retry.body.value, JNull);
          }
        }
      }
      cookies := cookies - {AuthCookie};
      return ApiResponse(JNull, Or(ErrorMember(responseData), TokenExpired));
    }

    /** `serverApiFetch(endpoint, options)`: lines 52-188. */
    method ServerApiFetch(baseUrl: Option<string>, endpoint: string, options: FetchOptions,
                          first: FetchOutcome, refresh: FetchOutcome, retry: FetchOutcome)
      returns (r: ApiResponse)
      modifies this
      ensures var run := ServerApiFetchRun(baseUrl, endpoint, options, old(cookies), first, refresh, retry);
        r == run.response && cookies == run.cookies && sent == old(sent) + run.sent
    {
      if !Configured(baseUrl) {
        return ConfigError;
      }
      var headers := options.headers;
      if !options.skipAuth {
        var token := CookieValue(cookies);
        if Truthy(token) {
          headers := headers["Authorization" := Bearer(token.v)];
        }
      }
      headers := map["Content-Type" := Text("application/json")] + headers;
      var request := Request(baseUrl.value + endpoint, options.verb, headers, options.body);
      assert request == EndpointRequest(baseUrl.value, endpoint, options, old(cookies));
      sent := sent + [request];

      if first.NetworkError? {
        return FetchError(first.reason);
      }
      var responseData := ResponseData(first.body);
      if !Ok(first.status) {
        if first.status == 401 {
          r := RecoverFrom401(baseUrl.value, request, responseData, refresh, retry);
          return;
        }
        if Structured(responseData) {
          return ApiResponse(JNull, ErrorMember(responseData).v);
        }
        return ApiResponse(JNull, ApiError("HTTP_ERROR", HttpErrorMessage(first.status)));
      }
      if !Truthy(Defined(responseData)) {
        return ParseError;
      }
      return ApiResponse(responseData, JNull);
    }
  }
}
