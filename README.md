# gremlinrestclient — a Dafny model

This project models `GremlinRestClient`, a small Python client that submits a
Gremlin script to a Gremlin Server over its REST endpoint. A call builds a
JSON payload `{gremlin, bindings, language}`, POSTs it once to the client's
fixed URL with the client's fixed TLS policy and a `content-type:
application/json` header, checks the HTTP status, and decodes a successful
body into a four-field `Response` record.

Files:

- `wrappers.dfy` (`Wrappers`): `Option` and `Result`. `:-` on a `Result`
  stands for a raised Python exception.
- `json.dfy` (`JsonValues`): JSON values, and Python dictionary subscripting
  (`Subscript`, and `LookupPath` for a chain `v["a"]["b"]`). A failed subscript
  reports where it failed: `NotAnObject` (Python's `TypeError`) or
  `KeyMissing` (`KeyError`).
- `http.dfy` (`Http`): the data crossing the transport boundary: the request,
  the response (status and body) and a transport failure.
- `client.dfy` (`Client`): the constants, `BuildPayload`, the status check
  `Classify`, `Post`, `DecodeResponse`, and the class `GremlinRestClient`.
  The class has two `const` fields, `url` and `sslVerify`, set only by the
  constructor.
- `client_properties.dfy` (`ClientProperties`): lemmas that relate these
  operations, plus concrete example calls.

The transport is an input. `Execute` takes a total function
`send: HttpRequest -> Delivery` and is a total function to a `Response` or
exactly one `ClientError`. The error is one of `TransportFailure`,
`ConfigurationError` (403), `RequestError`, `GremlinServerError` or
`DecodeFailure`. The outcome depends only on the answer to the one request
`Sent(...)`.

Python's `None` is written as the JSON `null` (`JNull`):

- omitted bindings are `JNull`, and the payload then holds the empty object;
- `PlatformDefault` is `ssl_verify=None`;
- `NoTimeout` is `query_timeout=None`.

The defaults are Dafny default parameter values: `DefaultUrl`,
`DefaultLanguage` (`"gremlin-groovy"`), `JNull` and `NoTimeout`.

The code does not check the types of the fields it reads. So the
`Response` fields and the error `message` are arbitrary JSON values.

Request errors are not limited to 4xx: the code raises `RequestError` for
every status below 500 except 200 and 403, so 1xx, 3xx and the other 2xx
codes are request errors too (`BelowFiveHundredIsRequestError`,
`RedirectExample`). A non-200, non-403 body with no `message`, or one that
is not JSON, is a `DecodeFailure`: `resp.json()["message"]` raises before any
client error is built.

## Model

| member | source | states |
|---|---|---|
| JsonValues.Subscript | gremlinrestclient/client.py:56 | `v[key]` succeeds exactly when `v` is an object holding `key`, and then gives that value. A non-object gives `NotAnObject` at the current path. A missing key gives `KeyMissing` with the key appended. |
| JsonValues.LookupPath | gremlinrestclient/client.py:43-46 | A chained subscript succeeds on the empty path with the value itself. A failure names a point on the path: a strict prefix for `NotAnObject`, a non-empty prefix for `KeyMissing`. |
| JsonValues.LookupTwoKeys | gremlinrestclient/client.py:43-46 | `v[a][b]` is the subscript by `a` followed by the subscript by `b`. The first failure is the one reported. |
| JsonValues.LookupOneKey | gremlinrestclient/client.py:56 | A one-key path is a single subscript. |
| Client.BuildPayload | gremlinrestclient/client.py:34-40 | The payload is an object with exactly the keys `gremlin`, `bindings`, `language`. They hold the script, the bindings and the language. Null bindings become `{}`; other bindings are kept unchanged. |
| Client.NormalizedBindings | gremlinrestclient/client.py:34-35 | The bindings sent are never `null`: omitted bindings become `{}`, and any other value is kept unchanged. |
| Client.Field | gremlinrestclient/client.py:43-46 | A field read succeeds exactly when the lookup along its path succeeds, and gives the value found there. A failed lookup becomes a `DecodeFailure` carrying where the lookup failed. |
| Client.ErrorMessage | gremlinrestclient/client.py:56 | The `message` of an error body is found exactly when the body is JSON, is an object and has `message`. Otherwise one of three decode failures results: not JSON, not an object, or key missing. |
| Client.Classify | gremlinrestclient/client.py:51-61 | Success exactly on status 200, with the response passed on unchanged. 403 gives the fixed configuration error. Any other status below 500 gives `RequestError(status, message)`. 500 and above gives `GremlinServerError(status, message)`. A missing message gives its decode failure. |
| Client.PostRequest | gremlinrestclient/client.py:50 | The request handed to the transport carries the given URL, payload, timeout and TLS policy, and the header `content-type: application/json`. |
| Client.Post | gremlinrestclient/client.py:49-61 | A transport failure is passed on as `TransportFailure`. A delivered response goes through `Classify`. |
| Client.DecodeResponse | gremlinrestclient/client.py:42-47 | A body that is not JSON is a decode failure. On success, each of the four fields is the value at its path: `status.code`, `result.data`, `status.message`, `result.meta`. Otherwise the first failing lookup, in argument order, is reported. |
| Client.GremlinRestClient.constructor | gremlinrestclient/client.py:20-22 | The client keeps the URL and the TLS policy it was built with. They default to `http://localhost:8182` and the platform default. |
| Client.GremlinRestClient.Sent | gremlinrestclient/client.py:41 | The request of every call goes to the client's URL, with its TLS policy, the JSON content-type header and the call's timeout, and carries the built payload. |
| Client.GremlinRestClient.Execute | gremlinrestclient/client.py:24-47 | A transport failure gives `TransportFailure`. A 200 gives the decoding of its body. Any other status gives the status check's error. Success implies that a response was delivered. |
| ClientProperties.PayloadRoundTrip | gremlinrestclient/client.py:34-40 | Reading the payload back gives exactly the script, the normalised bindings and the language. |
| ClientProperties.PayloadDeterminesArguments | gremlinrestclient/client.py:36-40 | Equal payloads come only from equal scripts, equal languages and equal normalised bindings. |
| ClientProperties.OmittedBindingsAreEmpty | gremlinrestclient/client.py:34-35 | Omitting the bindings gives the same payload as passing `{}`. |
| ClientProperties.OmittedLanguageIsGroovy | gremlinrestclient/client.py:24 | When the language is omitted, the payload's `language` is `"gremlin-groovy"`. |
| ClientProperties.ForbiddenIgnoresBody | gremlinrestclient/client.py:53-55 | A 403 gives the configuration error whatever the body is, including a body that is not JSON or has no `message`. |
| ClientProperties.BelowFiveHundredIsRequestError | gremlinrestclient/client.py:56-58 | Every status below 500 other than 200 and 403 gives `RequestError` with exactly that status and the body's `message`. |
| ClientProperties.FiveHundredAndAboveIsServerError | gremlinrestclient/client.py:59-60 | Every status of 500 or more gives `GremlinServerError` with exactly that status and the body's `message`. |
| ClientProperties.MissingMessageIsDecodeFailure | gremlinrestclient/client.py:56 | A non-200, non-403 response without a readable `message` is a decode failure. |
| ClientProperties.ErrorKindFollowsStatus | gremlinrestclient/client.py:52-60 | The status check never gives a transport failure. The configuration error occurs exactly on 403. Request and server errors carry the response's status and lie on their side of 500. |
| ClientProperties.NotFoundExample | gremlinrestclient/client.py:57-58 | 404 with message "not found" gives `RequestError(404, "not found")`. |
| ClientProperties.InternalErrorExample | gremlinrestclient/client.py:59-60 | 500 with message "internal" gives `GremlinServerError(500, "internal")`. |
| ClientProperties.RedirectExample | gremlinrestclient/client.py:57 | A 301 that reaches the client is a `RequestError`. |
| ClientProperties.DecodeSucceedsIff | gremlinrestclient/client.py:43-46 | Decoding succeeds if and only if the body has `status.code`, `status.message`, `result.data` and `result.meta`. A success returns exactly those nested values in `Response` field order. No partial response exists. |
| ClientProperties.DecodeEncodeRoundTrip | gremlinrestclient/client.py:11-13 | Decoding the wire form of any `Response` gives it back, with its field order kept. |
| ClientProperties.EveryCallUsesConfiguration | gremlinrestclient/client.py:18 | Any two calls on one client post to the same URL, with the same TLS policy and the header `content-type: application/json`. Each call uses its own timeout. |
| ClientProperties.ExecuteObservesOneRequest | gremlinrestclient/client.py:41 | Two transports that answer a call's single request in the same way give the same outcome. |
| ClientProperties.ExecuteSucceedsOnlyOn200 | gremlinrestclient/client.py:42-61 | A call succeeds if and only if a 200 response with a well-formed success body was delivered, and it then returns that body's `status.code`, `result.data`, `status.message` and `result.meta`. |
| ClientProperties.ExecuteForbidden | gremlinrestclient/client.py:53-55 | A delivered 403 ends any call with the configuration error. |
| ClientProperties.DefaultScenario | gremlinrestclient/client.py:24-47 | Take a default client running `g.V().count()` against a server that answers count 42. It posts `{gremlin, bindings: {}, language: "gremlin-groovy"}` to `http://localhost:8182` and returns `Response(200, [42], "OK", {})`. |

## Left out

- The network call, `requests.post`, is not modelled: no connection,
  timeout expiry or TLS handshake. It is the parameter `send`, and a
  transport exception is `TransportFailed(reason)`.
- JSON text is not modelled: no `json.dumps` of the payload and no parsing in
  `resp.json()`. The payload is a `Json` value, and a body is either parsed
  JSON or `Malformed`.
  Because bindings are `Json` values, the model cannot reach the `TypeError`
  that `json.dumps` raises on bindings that cannot be serialised
  (client.py:41). In Python that error is raised before any request is sent.
- JSON numbers are integers. Floating point is not modelled, and the client
  never interprets numbers.
- Timeouts are real numbers of seconds or none. The `(connect, read)` tuple
  form of `requests` is not modelled.
- `RequestError` and `GremlinServerError` are defined in
  `gremlinrestclient/exceptions`, which is not part of this model. Here they
  are error variants carrying `(code, message)`. The 403 `RuntimeError` is
  `ConfigurationError` with its fixed text.
- The script and the language are strings. The Python code would pass any
  value on to `json.dumps`.
- Dictionary key order and duplicate JSON keys are not modelled, because
  objects are maps.
- Concurrency is not modelled. The client has none and holds no mutable
  state.
