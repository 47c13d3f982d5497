/** Properties of the client model that relate several of its operations. */
module ClientProperties {
  import opened Wrappers
  import opened JsonValues
  import opened Http
  import opened Client

  // ---------------------------------------------------------------------------
  // Request payload

  /** The three arguments of a script submission as the server reads them. */
  datatype Submission = Submission(gremlin: string, bindings: Json, language: string)

  /** The server's reading of a payload: an object with exactly the keys
      `gremlin`, `bindings` and `language`, the first and last strings. */
  function ReadPayload(p: Json): (r: Option<Submission>)
  {
    if p.JObject? && p.fields.Keys == {"gremlin", "bindings", "language"}
       && p.fields["gremlin"].JString? && p.fields["language"].JString?
    then Some(Submission(p.fields["gremlin"].s, p.fields["bindings"], p.fields["language"].s))
    else None
  }

  /** The payload carries the script, the (normalised) bindings and the language,
      and the server reads back exactly those. */
  lemma PayloadRoundTrip(gremlin: string, bindings: Json, lang: string)
    ensures ReadPayload(BuildPayload(gremlin, bindings, lang))
         == Some(Submission(gremlin, NormalizedBindings(bindings), lang))
  {
  }

  /** Different scripts, languages or normalised bindings give different payloads. */
  lemma {:induction false} PayloadDeterminesArguments(g1: string, b1: Json, l1: string, g2: string, b2: Json, l2: string)
    requires BuildPayload(g1, b1, l1) == BuildPayload(g2, b2, l2)
    ensures g1 == g2 && l1 == l2 && NormalizedBindings(b1) == NormalizedBindings(b2)
  {
    PayloadRoundTrip(g1, b1, l1);
    PayloadRoundTrip(g2, b2, l2);
  }

  /** Omitting the bindings is the same as passing the empty mapping. */
  lemma OmittedBindingsAreEmpty(gremlin: string, lang: string)
    ensures BuildPayload(gremlin, lang := lang) == BuildPayload(gremlin, JObject(map[]), lang)
    ensures BuildPayload(gremlin, lang := lang).fields["bindings"] == JObject(map[])
  {
  }

  /** Omitting the language uses the Groovy dialect. */
  lemma OmittedLanguageIsGroovy(gremlin: string, bindings: Json)
    ensures BuildPayload(gremlin, bindings).fields["language"] == JString("gremlin-groovy")
  {
  }

  // ---------------------------------------------------------------------------
  // Status classification

  /** A 403 gives the configuration error; the body is never read, so even a
      body that is not JSON or has no `message` gives it. */
  lemma ForbiddenIgnoresBody(body1: Body, body2: Body)
    ensures Classify(HttpResponse(403, body1)) == Err(ConfigurationError(ForbiddenMessage))
    ensures Classify(HttpResponse(403, body1)) == Classify(HttpResponse(403, body2))
  {
  }

  /** Every status below 500 other than 200 and 403 (1xx, other 2xx, 3xx and 4xx
      alike) is a request error carrying that status and the body's `message`. */
  lemma BelowFiveHundredIsRequestError(status: int, fields: map<string, Json>)
    requires status != 200 && status != 403 && status < 500
    requires "message" in fields
    ensures Classify(HttpResponse(status, Parsed(JObject(fields)))) == Err(RequestError(status, fields["message"]))
  {
  }

  /** Every status of 500 or above is a server error carrying that status and
      the body's `message`. */
  lemma FiveHundredAndAboveIsServerError(status: int, fields: map<string, Json>)
    requires status >= 500
    requires "message" in fields
    ensures Classify(HttpResponse(status, Parsed(JObject(fields)))) == Err(GremlinServerError(status, fields["message"]))
  {
  }

  /** A non-200, non-403 response whose body has no readable `message` is a
      decode failure, not a request or server error. */
  lemma MissingMessageIsDecodeFailure(status: int, body: Body)
    requires status != 200 && status != 403
    requires !(body.Parsed? && body.json.JObject? && "message" in body.json.fields)
    ensures Classify(HttpResponse(status, body)).Err?
    ensures Classify(HttpResponse(status, body)).error.DecodeFailure?
  {
  }

  /** The status restricts which error kinds can occur, and request and
      server errors carry that status. */
  lemma ErrorKindFollowsStatus(resp: HttpResponse)
    ensures Classify(resp).Err? ==>
      var e := Classify(resp).error;
      && !e.TransportFailure?
      && (e.ConfigurationError? <==> resp.status == 403)
      && (e.RequestError? ==> e.code == resp.status && resp.status < 500)
      && (e.GremlinServerError? ==> e.code == resp.status && resp.status >= 500)
      && (e.DecodeFailure? ==> resp.status != 403)
  {
  }

  lemma NotFoundExample()
    ensures Classify(HttpResponse(404, Parsed(JObject(map["message" := JString("not found")]))))
         == Err(RequestError(404, JString("not found")))
  {
  }

  lemma InternalErrorExample()
    ensures Classify(HttpResponse(500, Parsed(JObject(map["message" := JString("internal")]))))
         == Err(GremlinServerError(500, JString("internal")))
  {
  }

  /** A redirect that reaches the client is reported as a request error. */
  lemma RedirectExample()
    ensures Classify(HttpResponse(301, Parsed(JObject(map["message" := JString("moved")]))))
         == Err(RequestError(301, JString("moved")))
  {
  }

  // ---------------------------------------------------------------------------
  // Response decoding

  /** The wire shape of a success body holding `r`. */
  function SuccessBody(r: Response): (body: Json)
  {
    JObject(map[
      "status" := JObject(map["code" := r.statusCode, "message" := r.message]),
      "result" := JObject(map["data" := r.data, "meta" := r.metadata])])
  }

  /** A success body: `status` holds `code` and `message`, `result` holds
      `data` and `meta`; other keys may appear anywhere. */
  ghost predicate IsSuccessBody(b: Json)
  {
    && b.JObject? && "status" in b.fields && "result" in b.fields
    && b.fields["status"].JObject? && "code" in b.fields["status"].fields
    && "message" in b.fields["status"].fields
    && b.fields["result"].JObject? && "data" in b.fields["result"].fields
    && "meta" in b.fields["result"].fields
  }

  /** Decoding succeeds exactly on success bodies, and then the four fields are
      the nested values; otherwise no response at all is produced. */
  lemma {:induction false} DecodeSucceedsIff(b: Json)
    ensures DecodeResponse(Parsed(b)).Ok? <==> IsSuccessBody(b)
    ensures IsSuccessBody(b) ==> DecodeResponse(Parsed(b)) == Ok(Response(
      b.fields["status"].fields["code"], b.fields["result"].fields["data"],
      b.fields["status"].fields["message"], b.fields["result"].fields["meta"]))
  {
    LookupTwoKeys(b, "status", "code");
    LookupTwoKeys(b, "result", "data");
    LookupTwoKeys(b, "status", "message");
    LookupTwoKeys(b, "result", "meta");
  }

  /** Decoding the wire form of a response gives that response back. */
  lemma {:induction false} DecodeEncodeRoundTrip(r: Response)
    ensures DecodeResponse(Parsed(SuccessBody(r))) == Ok(r)
  {
    DecodeSucceedsIff(SuccessBody(r));
  }

  // ---------------------------------------------------------------------------
  // The client

  /** Every call of one client posts to its URL with its TLS policy and the
      JSON content-type header; only the payload and the deadline vary, and
      each call uses its own deadline. */
  lemma EveryCallUsesConfiguration(c: GremlinRestClient,
                                   g1: string, b1: Json, l1: string, t1: Timeout,
                                   g2: string, b2: Json, l2: string, t2: Timeout)
    ensures c.Sent(g1, b1, l1, t1).url == c.Sent(g2, b2, l2, t2).url == c.url
    ensures c.Sent(g1, b1, l1, t1).verify == c.Sent(g2, b2, l2, t2).verify == c.sslVerify
    ensures c.Sent(g1, b1, l1, t1).headers == c.Sent(g2, b2, l2, t2).headers
         == map["content-type" := "application/json"]
    ensures c.Sent(g1, b1, l1, t1).timeout == t1 && c.Sent(g2, b2, l2, t2).timeout == t2
  {
  }

  /** A call observes the transport only through its one request: two
      transports that answer that request alike give the same outcome. */
  lemma ExecuteObservesOneRequest(c: GremlinRestClient, send1: HttpRequest -> Delivery, send2: HttpRequest -> Delivery,
                                  gremlin: string, bindings: Json, lang: string, queryTimeout: Timeout)
    requires send1(c.Sent(gremlin, bindings, lang, queryTimeout)) == send2(c.Sent(gremlin, bindings, lang, queryTimeout))
    ensures c.Execute(send1, gremlin, bindings, lang, queryTimeout) == c.Execute(send2, gremlin, bindings, lang, queryTimeout)
  {
  }

  /** A call succeeds only on a 200 response whose body is a success body,
      and then returns that body's nested fields. */
  lemma {:induction false} ExecuteSucceedsOnlyOn200(c: GremlinRestClient, send: HttpRequest -> Delivery,
                                                    gremlin: string, bindings: Json, lang: string, queryTimeout: Timeout)
    ensures var d := send(c.Sent(gremlin, bindings, lang, queryTimeout));
      c.Execute(send, gremlin, bindings, lang, queryTimeout).Ok? <==>
        d.Delivered? && d.response.status == 200 && d.response.body.Parsed? && IsSuccessBody(d.response.body.json)
    ensures var d := send(c.Sent(gremlin, bindings, lang, queryTimeout));
      d.Delivered? && d.response.status == 200 && d.response.body.Parsed? && IsSuccessBody(d.response.body.json) ==>
        var b := d.response.body.json;
        c.Execute(send, gremlin, bindings, lang, queryTimeout) == Ok(Response(
          b.fields["status"].fields["code"], b.fields["result"].fields["data"],
          b.fields["status"].fields["message"], b.fields["result"].fields["meta"]))
  {
    var d := send(c.Sent(gremlin, bindings, lang, queryTimeout));
    if d.Delivered? && d.response.body.Parsed? {
      DecodeSucceedsIff(d.response.body.json);
    }
  }

  /** A 403 from the server ends every call with the configuration error. */
  lemma ExecuteForbidden(c: GremlinRestClient, send: HttpRequest -> Delivery,
                         gremlin: string, bindings: Json, lang: string, queryTimeout: Timeout)
    requires send(c.Sent(gremlin, bindings, lang, queryTimeout)).Delivered?
    requires send(c.Sent(gremlin, bindings, lang, queryTimeout)).response.status == 403
    ensures c.Execute(send, gremlin, bindings, lang, queryTimeout) == Err(ConfigurationError(ForbiddenMessage))
  {
  }

  /** A client on the default endpoint runs `g.V().count()` against a server
      answering with a count of 42. */
  lemma {:induction false} DefaultScenario(c: GremlinRestClient)
    requires c.url == DefaultUrl
    ensures var body := JObject(map[
              "status" := JObject(map["code" := JNumber(200), "message" := JString("OK")]),
              "result" := JObject(map["data" := JArray([JNumber(42)]), "meta" := JObject(map[])])]);
            var send := (req: HttpRequest) => Delivered(HttpResponse(200, Parsed(body)));
            && c.Sent("g.V().count()").url == "http://localhost:8182"
            && c.Sent("g.V().count()").data == JObject(map[
                 "gremlin" := JString("g.V().count()"), "bindings" := JObject(map[]),
                 "language" := JString("gremlin-groovy")])
            && c.Execute(send, "g.V().count()")
               == Ok(Response(JNumber(200), JArray([JNumber(42)]), JString("OK"), JObject(map[])))
  {
    var r := Response(JNumber(200), JArray([JNumber(42)]), JString("OK"), JObject(map[]));
    DecodeEncodeRoundTrip(r);
    var p := BuildPayload("g.V().count()");
    assert p.fields.Keys == {"gremlin", "bindings", "language"};
  }
}
