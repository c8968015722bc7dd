/** The transport as the model sees it: the requests handed to `fetch` and the
    scripted outcome each one produces. Nothing here performs I/O. */
module Http {
  import opened Optional
  import opened JsValues

  /** The session cookie the routes set and the fetch wrapper reads. */
  const AuthCookie := "authToken"

  /** A header value. `Bearer(t)` is the text `Bearer ${t}`; the model keeps the
      token value rather than its JavaScript string form. */
  datatype HeaderValue = Text(s: string) | Bearer(token: Json)

  /** What `fetch(url, init)` is called with. A body is a JSON document,
      represented by the value it encodes. */
  datatype Request = Request(
    url: string,
    verb: Option<string>,
    headers: map<string, HeaderValue>,
    body: Option<Json>)

  /** What `response.json()` does: resolve to a value or reject. */
  datatype Body = Parsed(value: Json) | Unparseable

  /** What a call to `fetch` does: reject with a transport error, or resolve to a response. */
  datatype FetchOutcome =
    | NetworkError(reason: string)
    | Response(status: nat, body: Body)

  /** `response.ok`. */
  predicate Ok(status: nat) {
    200 <= status <= 299
  }

  /** Truthiness of a header read with `headers.get`: an empty header is falsy. */
  predicate HeaderPresent(h: Option<HeaderValue>) {
    h.Some? && (h.value.Text? ==> h.value.s != "")
  }

  /** `process.env.NEXT_PUBLIC_API_URL` is set and non-empty. */
  predicate Configured(baseUrl: Option<string>) {
    baseUrl.Some? && baseUrl.value != ""
  }
}
