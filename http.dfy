/** The boundary with the HTTP library: what is posted and what comes back.
    The transport itself is an input of the model, not part of it. */
module Http {
  import opened JsonValues

  /** The deadline passed to the transport; `NoTimeout` is Python's `None`. */
  datatype Timeout = NoTimeout | Seconds(seconds: real)

  /** The TLS verification argument handed to the transport unchanged:
      `PlatformDefault` is Python's `None`, otherwise a flag or a CA bundle path. */
  datatype VerifyPolicy = PlatformDefault | VerifyFlag(enabled: bool) | CaBundle(path: string)

  /** One POST: target, JSON payload (its text encoding is not modelled),
      headers, deadline and TLS policy. */
  datatype HttpRequest = HttpRequest(
    url: string,
    data: Json,
    headers: map<string, string>,
    timeout: Timeout,
    verify: VerifyPolicy)

  /** A response body as `resp.json()` would see it. */
  datatype Body = Parsed(json: Json) | Malformed

  datatype HttpResponse = HttpResponse(status: int, body: Body)

  /** What the transport gives back: a response, or the failure it raised
      (connection refused, timeout, TLS error). */
  datatype Delivery = Delivered(response: HttpResponse) | TransportFailed(reason: string)
}
