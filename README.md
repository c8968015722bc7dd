# Authenticated fetch and auth routes of the Barangay services portal, in Dafny

This project models the one piece of the portal's web front end that has a
failure policy. That piece is the server-side fetch wrapper `serverApiFetch`,
with its helper `refreshToken`. The model also covers the four Next.js route
handlers that issue, refresh and clear the `authToken` session cookie the
wrapper depends on.

- `ServerFetch` (server_api_fetch.dfy) models `src/lib/serverApiFetch.ts`.
  - The class `ServerContext` holds the request-scoped cookie store that
    `cookies()` returns, and a log of every request handed to `fetch`.
  - Its methods `RefreshToken` and `ServerApiFetch` follow the source step by
    step: the headers are built up in place, then the cookie is set or deleted.
    The 401 branch is the method `RecoverFrom401`.
  - Each method is proved equal to a specification function:
    `RefreshTokenRun`, `Recover` or `ServerApiFetchRun`. Such a function returns the
    whole effect of one call: the `ApiResponse`, the cookie store afterwards,
    and the requests issued.
  - The stated properties live on those functions and their parts:
    `RequestHeaders` (the headers), `Recover` (handling a 401) and `Classify`
    (every other response).
- `RefreshTokenRoute`, `LoginRoute`, `RegisterRoute` and `LogoutRoute` model
  the four `route.ts` files. Each is a pure `Post` function that returns a
  reply: a status, a JSON body and an optional cookie instruction. For the
  first three the function also returns the request forwarded to the backend.
- `CookieContract` connects the two halves:
  - the refresh route's `{ token }` reply is exactly what `refreshToken`
    reads;
  - a login cookie becomes the bearer token of later requests;
  - logout expires the cookie exactly when the wrapper reports no error, and
    a 401 whose recovery fails has already deleted it inside the wrapper.
- `JsValues` defines parsed JSON and the JavaScript operations the code
  applies to it. Truthiness, `a.b` (which throws on `null` or `undefined`),
  `a?.b` and `a || b` are written out, because the source's branches depend
  on them.
- `Optional` holds the `Option` datatype.
- `Http` defines the `authToken` cookie name, requests and the scripted outcome of each `fetch`.
- `Decimal` renders the status inside `HTTP error! status: <status>`.

The network, JSON parsing and Next's cookie API are inputs.
- Each `fetch` is a scripted `FetchOutcome`. It either rejects, or it
  resolves to a status and a body. Parsing the body either succeeds or throws.
- `ServerApiFetch` takes three outcomes: the endpoint request, the refresh
  request and the retry. It uses each one only if it issues that request.

Behaviours of the code worth noting:
- On a 401, no refresh request is sent when there is no `authToken` cookie:
  `refreshToken` returns early. So there is at most one refresh, not always
  exactly one.
- The cookie is deleted whenever 401 recovery does not end in an ok retry.
  This covers a retry that fails or has an unreadable body, not only a
  failed refresh.
- On the first response, `PARSE_ERROR` is reported for any falsy body. That
  includes a body that parses as `null`, `false`, `0` or `""`. After a
  retry, an unreadable body is reported as `AUTH_002`. A retry body that
  parses to `null` comes back as `{data: null, error: null}`.
- `refreshToken` posts to `NEXT_PUBLIC_API_URL + "/api/refresh-token"`,
  which is the same base URL the routes use to reach the backend.
  `CookieContract.RefreshRouteAnswersRefreshToken` describes the case where
  that request is answered by the refresh route. That case needs
  `NEXT_PUBLIC_API_URL` to be the Next app's own origin. The route would then
  forward to `/auth/refresh` on that same origin. The lemma takes the two
  base URLs as separate parameters and does not require them to be equal.

## Model

| member | source | states |
|---|---|---|
| `ServerFetch.RequestHeaders` | src/lib/serverApiFetch.ts:66-82 | `Authorization: Bearer <cookie token>` is added exactly when `skipAuth` is false and the `authToken` cookie is truthy, and it overrides a caller's `Authorization`; otherwise the caller's `Authorization` is kept as given. A caller's `Content-Type` overrides the `application/json` default. Every other caller header passes through unchanged, and no other header is added. |
| `ServerFetch.RefreshTokenRun` | src/lib/serverApiFetch.ts:17-44 | The result is true exactly when the cookie token is truthy and the refresh response is ok, parses, and has a truthy `token`. On true the cookie store is the old one with `authToken` set to that token. On false, including on thrown errors, the store is unchanged. A single POST carrying `Bearer <current token>` is sent exactly when the current token is truthy. |
| `ServerFetch.Classify` | src/lib/serverApiFetch.ts:141-176 | For a response other than 401, a non-null error always comes with null data. The error is null exactly on a 2xx with a truthy body, and then the data is that body. A non-2xx response with `success === false` and a truthy `error.code` and `error.message` passes `error` through unchanged; any other non-2xx gives `HTTP_ERROR` with `HTTP error! status: <status>`. A 2xx with a falsy or unreadable body gives `PARSE_ERROR`. |
| `ServerFetch.Recover` | src/lib/serverApiFetch.ts:98-138 | A 401 causes at most one refresh and at most one retry. The refresh is sent only if the cookie token is truthy. The retry is sent only after a refresh that issued a token, and it is the first request with `Authorization: Bearer <new token>`. The error is null exactly when that retry is ok and its body parses: then the data is the retry body and the cookie holds the new token. Otherwise the data is null and `authToken` is deleted. The error is then `AUTH_002` if the retry threw or its body did not parse, and otherwise the first body's `error` or `{AUTH_002, Token expired}`. |
| `ServerFetch.ServerApiFetchRun` | src/lib/serverApiFetch.ts:52-188 | With no base URL the result is `API_CONFIG_ERROR`, no request is sent and the cookies are unchanged. Otherwise the endpoint request goes first, followed by at most one refresh (only after a 401) and at most one retry that carries the issued token. A non-null error always comes with null data and is always truthy. The error is null exactly after a 2xx with a truthy body or after a successful retry. A 401 is handled by `Recover`: the whole result, the cookies and the requests after the first are exactly `Recover`'s. So a successful retry returns its body as data and leaves `authToken` holding the new token. A failed recovery deletes `authToken` and returns the first body's `error`, or `AUTH_002`. Only a 401 changes the cookies. A transport failure gives `FETCH_ERROR` with its reason. |
| `ServerFetch.HttpErrorMessageNamesStatus` | src/lib/serverApiFetch.ts:150 | The `HTTP_ERROR` message is the fixed prefix followed by digits that read back as the response status. |
| `ServerFetch.ServerContext.RefreshToken` | src/lib/serverApiFetch.ts:17-44 | Performing `refreshToken` on the cookie store returns what `RefreshTokenRun` returns, and leaves the store and the request log as `RefreshTokenRun` describes. |
| `ServerFetch.ServerContext.RecoverFrom401` | src/lib/serverApiFetch.ts:98-138 | Performing the 401 branch step by step returns what `Recover` returns. It leaves the store and the request log as `Recover` describes: a refresh, a retry with the new token, and the cookie deleted unless the retry succeeds. |
| `ServerFetch.ServerContext.ServerApiFetch` | src/lib/serverApiFetch.ts:52-188 | Performing `serverApiFetch` step by step returns what `ServerApiFetchRun` returns, and leaves the store and the request log as `ServerApiFetchRun` describes. |
| `Decimal.Digits` | src/lib/serverApiFetch.ts:150 | The rendered status is a non-empty string of decimal digits with no leading zero. |
| `Decimal.ValueOfDigits` | src/lib/serverApiFetch.ts:150 | Reading the rendered status back gives the status, so the message loses nothing. |
| `RefreshTokenRoute.Post` | src/app/api/refresh-token/route.ts:13-76 | No base URL gives 500 `API URL not configured`. A missing or empty Authorization header gives 401 `No authorization token provided`, and nothing is sent to the backend. Otherwise the header is forwarded verbatim to `/auth/refresh` by POST. A backend refusal keeps its status and its `message`, falling back to `Token refresh failed`. A missing or falsy token gives 500 `New token not found in response`. 500 `Internal server error` covers a transport failure and an unreadable body. It also covers a strict read that throws: `data.message` on a `null` refusal body, or `data.data.authorization.token` with a link missing. An ok backend reply with a truthy token always sets the cookie, and the reply is 2xx exactly when it sets the cookie. It is then 200 `{token}` with `authToken` set to the same token: httpOnly, sameSite lax, path `/`, and `secure` only in production. |
| `LoginRoute.Post` | src/app/api/login/route.ts:13-68 | No base URL gives 500 `API URL not configured`. An unreadable request body gives 500 `Internal server error`, and nothing is sent. Otherwise the body is forwarded unchanged as JSON by POST to `/auth/login`. A refusal keeps its status and its `message`, falling back to `Authentication failed`. A falsy token gives 500 `Token not found in response` with no cookie. A transport failure, an unreadable backend body, or a strict read that throws gives 500 `Internal server error`. The strict reads are `data.message` on a `null` body and the `data.data.authorization.token` chain. An ok backend reply with a truthy token always sets the cookie, and the reply is 2xx exactly when it sets the cookie. It is then 200 `{token}` with `authToken` set to that token: httpOnly, lax, path `/`. |
| `RegisterRoute.Post` | src/app/api/register/route.ts:29-84 | Like login, including the 500 `Internal server error` for thrown errors and strict reads that throw, but against `/auth/register`, with `Registration failed` as the fallback message. An ok backend reply with a truthy token always succeeds, and only then is the reply 2xx and the cookie set. On success the body is `{data: <backend data>}`, that is, the new user and its authorization. `authToken` is set to the token inside that data: httpOnly, lax, path `/`. |
| `LogoutRoute.Post` | src/app/api/logout/route.ts:4-41 | The cookie instruction is given exactly when the wrapper returned without a truthy error. It is then 200 `{message: Logged out successfully}`, with `authToken` overwritten by `""` and an epoch expiry, httpOnly, path `/`. A wrapper error is returned as 500 `{error}` with no cookie instruction. A thrown error gives 500 `Internal server error`. |
| `CookieContract.RefreshRouteAnswersRefreshToken` | src/app/api/refresh-token/route.ts:33-66 | Suppose the refresh route answers `refreshToken`'s POST. The route forwards exactly `Bearer <current cookie token>` to the backend. `refreshToken` succeeds exactly when the route sets the cookie, and then it stores the very token the route issued. Otherwise it leaves the store unchanged. |
| `CookieContract.LoginTokenIsAttached` | src/app/api/login/route.ts:50-58 | The login route sets a cookie named `authToken`. Once that cookie is in the store, every request that does not skip auth carries `Bearer <that token>`. |
| `CookieContract.LogoutEndsSession` | src/app/api/logout/route.ts:7-31 | Logout POSTs to `/auth/logout` through the wrapper. The route expires the cookie exactly when the wrapper's error is null, which happens after a 2xx with a body or after a successful refresh and retry. When the backend answers 401 and recovery fails, the route sets no cookie but the wrapper has already deleted `authToken`. |

## Left out

- The transport, `response.json()`, `request.json()`, `cookies()` and
  `NextResponse` are not executed. They are scripted outcomes, a cookie map and
  reply values.
- JSON numbers are integers, so `NaN` and fractions are not modelled.
- Property reads see only the parsed object's own fields. None of the names
  the code reads exist on the built-in prototypes.
- `Bearer ${token}` keeps the token value itself and does not compute
  JavaScript's string conversion. A refreshed token that is not a string is
  therefore compared by value, not by its text.
- `RequestInit.headers` is modelled as a plain record, the form the object
  spreads in the source handle. A `Headers` instance or a list of pairs is
  not modelled. Header names are compared exactly as written, as the spreads
  compare them, without `fetch`'s case-insensitive merge.
- `FetchOptions` keeps only `skipAuth`, `method`, `headers` and `body`. The
  other `RequestInit` fields (`cache`, `credentials`, `signal`, Next's `next`)
  pass unchanged into the request and the retry. The model does not carry
  them.
- Request bodies are JSON values, so a body stream that cannot be sent twice
  on the retry is not modelled.
- `console.error` is left out, and `String(error)` in `FETCH_ERROR` is an
  opaque reason string.
- `secure: NODE_ENV === 'production'` is the boolean parameter `production`.
- Errors thrown by `cookies()` itself are not modelled. Outside a Route
  Handler or Server Action (for instance when the dashboard layout, a Server
  Component, calls the wrapper) the cookie store is read-only:
  `cookieStore.set` would throw and make `refreshToken` return false, and
  `cookieStore.delete` in a failed 401 recovery would throw past the inner
  `catch`, so the wrapper would report `FETCH_ERROR` and leave the cookie in
  place. The model assumes a writable store.
- `LogoutRoute.Post` takes the wrapper's result as an input. The cookie
  deletion the wrapper may perform during that call is not combined with the
  route's own cookie instruction.
- Client-side code is not part of this model: `apiFetch` and its hooks,
  `auth.ts`, the user store, and the navigation and logout UI. It is browser
  rendering, storage and routing, with no server-side cookie contract.
