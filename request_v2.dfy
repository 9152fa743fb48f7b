/** The v2 builder (v2/request.go). A `Request` is a Go struct copied by value
    at every chained call, but it holds an `*http.Request`: every copy shares
    one mutable request object, so each builder step that touches headers or
    the query modifies that object, and says so in its `modifies` clause. */
module RequestV2 {
  import Http
  import opened Int64
  import opened Metrics
  import opened Outcomes

  /** The builder value: the (never set) url field and the shared pointer. */
  datatype Request = Request(url: string, httpRequest: Http.Request?)

  /** A builder with an expectation attached. */
  datatype RequestExpectant = RequestExpectant(request: Request, response: Destination, responseStatusCode: int)

  /** `NewRequest` on the path where `http.NewRequest` succeeds: a fresh
      request object (an empty method becoming "GET"), no headers, and a url
      field that is left at "". */
  method NewRequest(httpMethod: string, target: string, parsed: Http.Url, body: string) returns (r: Request)
    ensures r.url == "" && r.httpRequest != null && fresh(r.httpRequest)
    ensures r.httpRequest.httpMethod == (if httpMethod == "" then "GET" else httpMethod)
    ensures r.httpRequest.target == target
    ensures r.httpRequest.path == parsed.path && r.httpRequest.query == parsed.query
    ensures r.httpRequest.header == map[] && r.httpRequest.body == body
  {
    var req := new Http.Request(httpMethod, target, parsed, body);
    r := Request("", req);
  }

  /** `WithBasicAuth`: Authorization is SET, replacing any earlier value.
      Go dereferences the pointer unguarded, so a nil request panics. */
  method WithBasicAuth(r: Request, userName: string, password: string, base64: string -> string) returns (r': Request)
    requires r.httpRequest != null
    modifies r.httpRequest
    ensures r' == r
    ensures r.httpRequest.header == Http.SetValue(old(r.httpRequest.header), "Authorization", "Basic " + base64(userName + ":" + password))
    ensures r.httpRequest.httpMethod == old(r.httpRequest.httpMethod) && r.httpRequest.target == old(r.httpRequest.target)
    ensures r.httpRequest.path == old(r.httpRequest.path) && r.httpRequest.query == old(r.httpRequest.query)
    ensures r.httpRequest.body == old(r.httpRequest.body)
  {
    r.httpRequest.SetBasicAuth(userName, password, base64);
    r' := r;
  }

  /** `WithBearerToken`: "Bearer <token>" is ADDED as one more Authorization
      value; earlier values stay. A nil request panics. */
  method WithBearerToken(r: Request, token: string) returns (r': Request)
    requires r.httpRequest != null
    modifies r.httpRequest
    ensures r' == r
    ensures r.httpRequest.header == Http.AddValue(old(r.httpRequest.header), "Authorization", "Bearer " + token)
    ensures r.httpRequest.httpMethod == old(r.httpRequest.httpMethod) && r.httpRequest.target == old(r.httpRequest.target)
    ensures r.httpRequest.path == old(r.httpRequest.path) && r.httpRequest.query == old(r.httpRequest.query)
    ensures r.httpRequest.body == old(r.httpRequest.body)
  {
    r.httpRequest.AddHeader("Authorization", "Bearer " + token);
    r' := r;
  }

  /** `Headers`: a no-op without a request; otherwise every pair is added
      under its key, after the values already there. */
  method Headers(r: Request, headers: map<string, string>) returns (r': Request)
    modifies r.httpRequest
    ensures r' == r
    ensures r.httpRequest != null ==>
      && r.httpRequest.header == Http.AddEach(old(r.httpRequest.header), headers)
      && r.httpRequest.httpMethod == old(r.httpRequest.httpMethod) && r.httpRequest.target == old(r.httpRequest.target)
      && r.httpRequest.path == old(r.httpRequest.path) && r.httpRequest.query == old(r.httpRequest.query)
      && r.httpRequest.body == old(r.httpRequest.body)
  {
    if r.httpRequest == null {
      return r;
    }
    r.httpRequest.AddHeaders(headers);
    r' := r;
  }

  /** `Params`: a no-op without a request; otherwise a copy of the query is
      taken, each pair SET in it (one value per given key, others kept), and
      the copy written back. */
  method Params(r: Request, params: map<string, string>) returns (r': Request)
    modifies r.httpRequest
    ensures r' == r
    ensures r.httpRequest != null ==>
      && r.httpRequest.query == Http.SetEach(old(r.httpRequest.query), params)
      && r.httpRequest.httpMethod == old(r.httpRequest.httpMethod) && r.httpRequest.target == old(r.httpRequest.target)
      && r.httpRequest.path == old(r.httpRequest.path) && r.httpRequest.header == old(r.httpRequest.header)
      && r.httpRequest.body == old(r.httpRequest.body)
  {
    if r.httpRequest == null {
      return r;
    }
    var q := r.httpRequest.query;
    var rest := params.Keys;
    while rest != {}
      invariant rest <= params.Keys
      invariant q == Http.SetEach(old(r.httpRequest.query), params - rest)
      invariant unchanged(r.httpRequest)
      decreases rest
    {
      var k :| k in rest;
      Http.SetEachStep(old(r.httpRequest.query), params - rest, k, params[k]);
      Http.DoneGrows(params, rest, k);
      q := Http.SetValue(q, k, params[k]);
      rest := rest - {k};
    }
    assert params - rest == params;
    r.httpRequest.query := q;
    r' := r;
  }

  /** `Expect`: the same request (the same pointer) with the destination and
      the expected status attached, nothing else. */
  function Expect(r: Request, response: Destination, statusCode: int): (e: RequestExpectant)
    ensures e.request == r && e.response == response && e.responseStatusCode == statusCode
  {
    RequestExpectant(r, response, statusCode)
  }

  /** The record a call pushes: actual status, elapsed milliseconds, URL path. */
  function RecordOf(req: Http.Request, ex: Exchange, elapsedMs: int64): (resp: Response)
    reads req
    ensures resp.statusCode == ex.statusCode && resp.endpoint == req.path && resp.timeDuration == elapsedMs
  {
    Response(ex.statusCode, req.path, elapsedMs)
  }

  /** `Request.Call`: a transport error is fatal before anything is recorded;
      otherwise exactly one record is pushed and the call returns. */
  method Call(r: Request, sink: Sink, ex: Exchange, elapsedMs: int64) returns (o: Outcome)
    requires r.httpRequest != null && !sink.closed
    modifies sink
    ensures !sink.closed
    ensures sink.buffer == old(sink.buffer) + if ex.transportOk then [RecordOf(r.httpRequest, ex, elapsedMs)] else []
    ensures o == if ex.transportOk then Returned else Fatal(TransportFailed)
  {
    if !ex.transportOk {
      return Fatal(TransportFailed);
    }
    sink.Send(RecordOf(r.httpRequest, ex, elapsedMs));
    o := Returned;
  }

  /** `Send`, on the path where a response exists: one record pushed, and the
      response's status handed back to the caller unchecked. */
  method Send(r: Request, sink: Sink, ex: Exchange, elapsedMs: int64) returns (statusCode: int)
    requires r.httpRequest != null && !sink.closed && ex.transportOk
    modifies sink
    ensures !sink.closed
    ensures sink.buffer == old(sink.buffer) + [RecordOf(r.httpRequest, ex, elapsedMs)]
    ensures statusCode == ex.statusCode
  {
    sink.Send(RecordOf(r.httpRequest, ex, elapsedMs));
    statusCode := ex.statusCode;
  }

  /** The decision in `RequestExpectant.Call`: return early only for a nil
      destination with the expected status; ANY mismatch fails, even with a
      nil destination; otherwise decode with the codec the content type picks. */
  function ExpectantPlan(response: Destination, expected: int, actual: int, contentType: string): (p: Plan)
    ensures p == Return <==> response == Nil && actual == expected
    ensures p == FailOnStatus <==> actual != expected
    ensures p.DecodeWith? <==> response != Nil && actual == expected
    ensures p.DecodeWith? ==> p.codec == CodecFor(contentType)
  {
    if response == Nil && actual == expected then Return
    else if actual != expected then FailOnStatus
    else DecodeWith(CodecFor(contentType))
  }

  /** How `RequestExpectant.Call` ends for a given exchange. */
  function ExpectantOutcome(e: RequestExpectant, ex: Exchange): (o: Outcome)
    ensures !ex.transportOk ==> o == Fatal(TransportFailed)
    ensures o == Returned <==>
      && ex.transportOk && ex.statusCode == e.responseStatusCode
      && (e.response == Nil || (ex.decodeOk && (CodecFor(ContentType(ex)) == Json || (IsWriter(e.response) && ex.encodeOk))))
  {
    if !ex.transportOk then Fatal(TransportFailed)
    else Carry(ExpectantPlan(e.response, e.responseStatusCode, ex.statusCode, ContentType(ex)), e.response, ex)
  }

  /** `RequestExpectant.Call`, step by step as the source runs it: the record
      is pushed as soon as a response exists, before the status is looked at. */
  method CallExpectant(e: RequestExpectant, sink: Sink, ex: Exchange, elapsedMs: int64) returns (o: Outcome)
    requires e.request.httpRequest != null && !sink.closed
    modifies sink
    ensures !sink.closed
    ensures sink.buffer == old(sink.buffer) + if ex.transportOk then [RecordOf(e.request.httpRequest, ex, elapsedMs)] else []
    ensures o == ExpectantOutcome(e, ex)
  {
    if !ex.transportOk {
      return Fatal(TransportFailed);
    }
    sink.Send(RecordOf(e.request.httpRequest, ex, elapsedMs));

    if e.response == Nil && ex.statusCode == e.responseStatusCode {
      return Returned;
    }

    if ex.statusCode != e.responseStatusCode {
      if !ex.bodyReadOk {
        return Fatal(BodyUnreadable);
      }
      return Fatal(StatusMismatch);
    }

    var contentType := Http.FirstValue(ex.header, "Content-Type");
    if contentType == "image/png" || contentType == "image/jpeg" || contentType == "image/gif" {
      if !ex.decodeOk {
        return Fatal(DecodeFailed);
      }
      if !IsWriter(e.response) {
        return Panicked;
      }
      if !ex.encodeOk {
        return Fatal(EncodeFailed);
      }
      return Returned;
    }

    if !ex.decodeOk {
      return Fatal(DecodeFailed);
    }
    o := Returned;
  }

  /** Builder values are copies of one pointer: headers added through one
      copy are seen through another made before the call. */
  method CopiesShareTheRequest(parsed: Http.Url) returns (seen: seq<string>)
    ensures seen == ["application/json"]
  {
    var base := NewRequest("GET", "https://api.github.com", parsed, "");
    var copy := base;
    var _ := Headers(base, map["Accept" := "application/json"]);
    seen := Http.ValuesAt(copy.httpRequest.header, "Accept");
  }

  /** Once a response exists, a status other than the expected one is always
      fatal, whatever the destination, nil included. */
  lemma MismatchIsFatal(e: RequestExpectant, ex: Exchange)
    requires ex.transportOk && ex.statusCode != e.responseStatusCode
    ensures ExpectantOutcome(e, ex).Fatal?
    ensures ExpectantOutcome(e, ex).cause == if ex.bodyReadOk then StatusMismatch else BodyUnreadable
  {
  }

  /** A call ends without decoding anything exactly when the destination is
      nil and the status is the expected one. */
  lemma ReturnsEarlyIff(e: RequestExpectant, ex: Exchange)
    ensures ExpectantPlan(e.response, e.responseStatusCode, ex.statusCode, ContentType(ex)) == Return
      <==> e.response == Nil && ex.statusCode == e.responseStatusCode
  {
  }

  /** A matching status with a missing Content-Type header decodes as JSON. */
  lemma MissingContentTypeIsJson(e: RequestExpectant, ex: Exchange)
    requires e.response != Nil && ex.statusCode == e.responseStatusCode
    requires "Content-Type" !in ex.header
    ensures ExpectantPlan(e.response, e.responseStatusCode, ex.statusCode, ContentType(ex)) == DecodeWith(Json)
  {
  }
}
