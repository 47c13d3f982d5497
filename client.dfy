/** The Gremlin Server REST client: payload building, status classification and
    response decoding around a single POST. */
module Client {
  import opened Wrappers
  import opened JsonValues
  import opened Http

  const DefaultUrl: string := "http://localhost:8182"
  const DefaultLanguage: string := "gremlin-groovy"
  /** The headers sent with every request. */
  const Headers: map<string, string> := map["content-type" := "application/json"]
  const ForbiddenMessage: string := "403 Forbidden: Server must be configured for REST"

  /** The four places a success body holds the result fields. */
  const StatusCodePath: seq<string> := ["status", "code"]
  const DataPath: seq<string> := ["result", "data"]
  const MessagePath: seq<string> := ["status", "message"]
  const MetaPath: seq<string> := ["result", "meta"]
  const ErrorMessagePath: seq<string> := ["message"]

  /** The decoded reply of a successful call. The client does not check the
      types of the fields, so each is whatever JSON value the server sent. */
  datatype Response = Response(statusCode: Json, data: Json, message: Json, metadata: Json)

  /** Why a body could not be read: it is not JSON, or a subscript failed. */
  datatype DecodeError = BodyNotJson | Lookup(failure: LookupError)

  /** The one error a call ends with. */
  datatype ClientError =
    | TransportFailure(reason: string)
    | ConfigurationError(reason: string)
    | RequestError(code: int, message: Json)
    | GremlinServerError(code: int, message: Json)
    | DecodeFailure(cause: DecodeError)

  /** The bindings a call sends: the given ones, or the empty mapping when
      they were omitted. Never `null`. */
  function NormalizedBindings(bindings: Json): (b: Json)
    ensures b != JNull
    ensures bindings == JNull ==> b == JObject(map[])
    ensures bindings != JNull ==> b == bindings
  {
    if bindings == JNull then JObject(map[]) else bindings
  }

  /** The JSON body of a call. Python's `None` is the JSON `null`, so omitting
      the bindings is passing `JNull`, and it is replaced by the empty mapping. */
  function BuildPayload(gremlin: string, bindings: Json := JNull, lang: string := DefaultLanguage): (p: Json)
    ensures p.JObject?
    ensures p.fields.Keys == {"gremlin", "bindings", "language"}
    ensures p.fields["gremlin"] == JString(gremlin)
    ensures p.fields["language"] == JString(lang)
    ensures bindings == JNull ==> p.fields["bindings"] == JObject(map[])
    ensures bindings != JNull ==> p.fields["bindings"] == bindings
  {
    JObject(map["gremlin" := JString(gremlin), "bindings" := NormalizedBindings(bindings),
                "language" := JString(lang)])
  }

  /** The value at `path` in `body`, a failed lookup becoming a decode failure. */
  function Field(body: Json, path: seq<string>): (r: Result<Json, ClientError>)
    ensures r.Ok? <==> LookupPath(body, path).Ok?
    ensures r.Ok? ==> r.value == LookupPath(body, path).value
    ensures r.Err? ==> r.error == DecodeFailure(Lookup(LookupPath(body, path).error))
  {
    match LookupPath(body, path)
    case Ok(v) => Ok(v)
    case Err(e) => Err(DecodeFailure(Lookup(e)))
  }

  /** `resp.json()["message"]` of an error response. */
  function ErrorMessage(body: Body): (r: Result<Json, ClientError>)
    ensures r.Ok? <==> body.Parsed? && body.json.JObject? && "message" in body.json.fields
    ensures r.Ok? ==> r.value == body.json.fields["message"]
    ensures body.Malformed? ==> r == Err(DecodeFailure(BodyNotJson))
    ensures body.Parsed? && !body.json.JObject? ==> r == Err(DecodeFailure(Lookup(NotAnObject([]))))
    ensures body.Parsed? && body.json.JObject? && "message" !in body.json.fields ==>
              r == Err(DecodeFailure(Lookup(KeyMissing(ErrorMessagePath))))
  {
    match body
    case Malformed => Err(DecodeFailure(BodyNotJson))
    case Parsed(json) =>
      LookupOneKey(json, "message");
      assert [] + ["message"] == ErrorMessagePath;
      Field(json, ErrorMessagePath)
  }

  /** The status check of a delivered response: 200 passes the response on,
      403 is a configuration error whatever the body, any other status below
      500 is a request error and 500 or above a server error, both carrying
      the status and the body's `message`. */
  function Classify(resp: HttpResponse): (r: Result<HttpResponse, ClientError>)
    ensures r.Ok? <==> resp.status == 200
    ensures r.Ok? ==> r.value == resp
    ensures resp.status == 403 ==> r == Err(ConfigurationError(ForbiddenMessage))
    ensures resp.status != 200 && resp.status != 403 && ErrorMessage(resp.body).Err? ==>
              r == Err(ErrorMessage(resp.body).error)
    ensures resp.status != 200 && resp.status != 403 && resp.status < 500 && ErrorMessage(resp.body).Ok? ==>
              r == Err(RequestError(resp.status, ErrorMessage(resp.body).value))
    ensures resp.status >= 500 && ErrorMessage(resp.body).Ok? ==>
              r == Err(GremlinServerError(resp.status, ErrorMessage(resp.body).value))
  {
    if resp.status != 200 then
      if resp.status == 403 then
        Err(ConfigurationError(ForbiddenMessage))
      else
        var msg :- ErrorMessage(resp.body);
        if resp.status < 500 then
          Err(RequestError(resp.status, msg))
        else
          Err(GremlinServerError(resp.status, msg))
    else
      Ok(resp)
  }

  /** The request the transport is asked to perform for one POST. */
  function PostRequest(url: string, data: Json, postTimeout: Timeout, sslVerify: VerifyPolicy): (req: HttpRequest)
    ensures req.url == url && req.data == data && req.headers == Headers
    ensures req.timeout == postTimeout && req.verify == sslVerify
  {
    HttpRequest(url, data, Headers, postTimeout, sslVerify)
  }

  /** One POST through `send`, then the status check. */
  function Post(send: HttpRequest -> Delivery, url: string, data: Json,
                postTimeout: Timeout := NoTimeout, sslVerify: VerifyPolicy := PlatformDefault): (r: Result<HttpResponse, ClientError>)
    ensures var d := send(PostRequest(url, data, postTimeout, sslVerify));
      && (d.TransportFailed? ==> r == Err(TransportFailure(d.reason)))
      && (d.Delivered? ==> r == Classify(d.response))
  {
    match send(PostRequest(url, data, postTimeout, sslVerify))
    case TransportFailed(reason) => Err(TransportFailure(reason))
    case Delivered(resp) => Classify(resp)
  }

  /** The four fields of a success body, looked up in argument order. Either
      all four are found and a complete `Response` results, or the first
      lookup that fails is reported and no `Response` exists. */
  function DecodeResponse(body: Body): (r: Result<Response, ClientError>)
    ensures body.Malformed? ==> r == Err(DecodeFailure(BodyNotJson))
    ensures r.Ok? ==> && body.Parsed?
                      && LookupPath(body.json, StatusCodePath) == Ok(r.value.statusCode)
                      && LookupPath(body.json, DataPath) == Ok(r.value.data)
                      && LookupPath(body.json, MessagePath) == Ok(r.value.message)
                      && LookupPath(body.json, MetaPath) == Ok(r.value.metadata)
    ensures body.Parsed? ==>
      var b := body.json;
      && (LookupPath(b, StatusCodePath).Err? ==>
            r == Err(DecodeFailure(Lookup(LookupPath(b, StatusCodePath).error))))
      && (LookupPath(b, StatusCodePath).Ok? && LookupPath(b, DataPath).Err? ==>
            r == Err(DecodeFailure(Lookup(LookupPath(b, DataPath).error))))
      && (LookupPath(b, StatusCodePath).Ok? && LookupPath(b, DataPath).Ok? && LookupPath(b, MessagePath).Err? ==>
            r == Err(DecodeFailure(Lookup(LookupPath(b, MessagePath).error))))
      && ((LookupPath(b, StatusCodePath).Ok? && LookupPath(b, DataPath).Ok? && LookupPath(b, MessagePath).Ok?
             && LookupPath(b, MetaPath).Err?) ==>
            r == Err(DecodeFailure(Lookup(LookupPath(b, MetaPath).error))))
      && ((LookupPath(b, StatusCodePath).Ok? && LookupPath(b, DataPath).Ok? && LookupPath(b, MessagePath).Ok?
             && LookupPath(b, MetaPath).Ok?) ==> r.Ok?)
  {
    match body
    case Malformed => Err(DecodeFailure(BodyNotJson))
    case Parsed(b) =>
      var code :- Field(b, StatusCodePath);
      var data :- Field(b, DataPath);
      var message :- Field(b, MessagePath);
      var meta :- Field(b, MetaPath);
      Ok(Response(code, data, message, meta))
  }

  /** A client bound, for its whole lifetime, to one endpoint and one TLS policy. */
  class GremlinRestClient {
    const url: string
    const sslVerify: VerifyPolicy

    constructor (url: string := DefaultUrl, sslVerify: VerifyPolicy := PlatformDefault)
      ensures this.url == url && this.sslVerify == sslVerify
    {
      this.url := url;
      this.sslVerify := sslVerify;
    }

    /** The one request a call of `Execute` with these arguments hands to the transport. */
    function Sent(gremlin: string, bindings: Json := JNull, lang: string := DefaultLanguage,
                  queryTimeout: Timeout := NoTimeout): (req: HttpRequest)
      ensures req.url == url && req.verify == sslVerify && req.headers == Headers
      ensures req.timeout == queryTimeout
      ensures req.data == BuildPayload(gremlin, bindings, lang)
    {
      PostRequest(url, BuildPayload(gremlin, bindings, lang), queryTimeout, sslVerify)
    }

    /** Sends `gremlin` through `send` and decodes the reply. The outcome depends
        only on what `send` answers to the one request `Sent` describes: a
        transport failure, the status check's error, or the decoded body of a
        200 response. */
    function Execute(send: HttpRequest -> Delivery, gremlin: string, bindings: Json := JNull,
                     lang: string := DefaultLanguage, queryTimeout: Timeout := NoTimeout): (r: Result<Response, ClientError>)
      ensures var d := send(Sent(gremlin, bindings, lang, queryTimeout));
        && (d.TransportFailed? ==> r == Err(TransportFailure(d.reason)))
        && (d.Delivered? && d.response.status == 200 ==> r == DecodeResponse(d.response.body))
        && (d.Delivered? && d.response.status != 200 ==> r.Err? && r.error == Classify(d.response).error)
      ensures r.Ok? ==> send(Sent(gremlin, bindings, lang, queryTimeout)).Delivered?
    {
      var resp :- Post(send, url, BuildPayload(gremlin, bindings, lang), queryTimeout, sslVerify);
      DecodeResponse(resp.body)
    }
  }
}
