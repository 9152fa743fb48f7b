/** The legacy builder (request.go). `Requester` is copied by value at every
    chained call; Create, Update, Delete and Get put a fresh `*http.Request`
    into the copy, while WithBasicAuth and Headers write through the pointer.
    Its Call records no metrics and its decision differs from the v2 one. */
module Legacy {
  import Http
  import Int64
  import opened Outcomes
  import RequestV2

  datatype Requester = Requester(url: string, httpRequest: Http.Request?, response: Destination, responseStatusCode: int)

  /** `NewRequestToEndpoint`: only the URL; no request object exists yet, the
      destination is the nil interface and the expected status is 0. */
  function NewRequestToEndpoint(url: string): (r: Requester)
    ensures r.url == url && r.httpRequest == null
    ensures r.response == Nil && r.responseStatusCode == 0
  {
    Requester(url, null, Nil, 0)
  }

  /** `Create`: a new POST request to the stored URL carrying the payload;
      whatever request was built before, and its headers, is dropped. The
      parsed form of the URL is given (net/url is not modelled). */
  method Create(r: Requester, jsonPayload: string, parsed: Http.Url) returns (r': Requester)
    ensures r'.httpRequest != null && fresh(r'.httpRequest)
    ensures r' == r.(httpRequest := r'.httpRequest)
    ensures r'.httpRequest.httpMethod == "POST" && r'.httpRequest.target == r.url
    ensures r'.httpRequest.body == jsonPayload && r'.httpRequest.header == map[]
    ensures r'.httpRequest.path == parsed.path && r'.httpRequest.query == parsed.query
  {
    var req := new Http.Request("POST", r.url, parsed, jsonPayload);
    r' := r.(httpRequest := req);
  }

  /** `Update`: a new PUT request to the stored URL; `path` is ignored. The
      body is the JSON text `json.Marshal` produced for the payload. */
  method Update(r: Requester, path: string, marshalledPayload: string, parsed: Http.Url) returns (r': Requester)
    ensures r'.httpRequest != null && fresh(r'.httpRequest)
    ensures r' == r.(httpRequest := r'.httpRequest)
    ensures r'.httpRequest.httpMethod == "PUT" && r'.httpRequest.target == r.url
    ensures r'.httpRequest.body == marshalledPayload && r'.httpRequest.header == map[]
    ensures r'.httpRequest.path == parsed.path && r'.httpRequest.query == parsed.query
  {
    var req := new Http.Request("PUT", r.url, parsed, marshalledPayload);
    r' := r.(httpRequest := req);
  }

  /** `Delete`: a new DELETE request to the stored URL with no body; `path`
      is ignored. */
  method Delete(r: Requester, path: string, parsed: Http.Url) returns (r': Requester)
    ensures r'.httpRequest != null && fresh(r'.httpRequest)
    ensures r' == r.(httpRequest := r'.httpRequest)
    ensures r'.httpRequest.httpMethod == "DELETE" && r'.httpRequest.target == r.url
    ensures r'.httpRequest.body == "" && r'.httpRequest.header == map[]
    ensures r'.httpRequest.path == parsed.path && r'.httpRequest.query == parsed.query
  {
    var req := new Http.Request("DELETE", r.url, parsed, "");
    r' := r.(httpRequest := req);
  }

  /** `Get`: a new GET request to the stored URL with `filters` appended to
      its text, no body. `parsed` is the parsed form of that joined text. */
  method Get(r: Requester, filters: string, parsed: Http.Url) returns (r': Requester)
    ensures r'.httpRequest != null && fresh(r'.httpRequest)
    ensures r' == r.(httpRequest := r'.httpRequest)
    ensures r'.httpRequest.httpMethod == "GET" && r'.httpRequest.target == r.url + filters
    ensures r'.httpRequest.body == "" && r'.httpRequest.header == map[]
    ensures r'.httpRequest.path == parsed.path && r'.httpRequest.query == parsed.query
  {
    var req := new Http.Request("GET", r.url + filters, parsed, "");
    r' := r.(httpRequest := req);
  }

  /** `WithBasicAuth`: sets Authorization through the pointer. There is no
      nil guard, so calling it before a request was built panics. */
  method WithBasicAuth(r: Requester, userName: string, password: string, base64: string -> string) returns (r': Requester)
    requires r.httpRequest != null
    modifies r.httpRequest
    ensures r' == r
    ensures r.httpRequest.header == Http.SetValue(old(r.httpRequest.header), "Authorization", "Basic " + base64(userName + ":" + password))
    ensures r.httpRequest.httpMethod == old(r.httpRequest.httpMethod) && r.httpRequest.target == old(r.httpRequest.target)
    ensures r.httpRequest.path == old(r.httpRequest.path) && r.httpRequest.query == old(r.httpRequest.query)
    ensures r.httpRequest.body == old(r.httpRequest.body)
  {
    r.httpRequest.SetBasicAuth(userName, password, base64);
    r' := r;
  }

  /** `Read`: sets the destination and the expected status; the URL and the
      request pointer are kept. */
  function Read(r: Requester, response: Destination, statusCode: int): (r': Requester)
    ensures r'.url == r.url && r'.httpRequest == r.httpRequest
    ensures r'.response == response && r'.responseStatusCode == statusCode
  {
    r.(response := response, responseStatusCode := statusCode)
  }

  /** `Headers`: a no-op without a request; otherwise every pair is added
      under its key, after the values already there. */
  method Headers(r: Requester, headers: map<string, string>) returns (r': Requester)
    modifies r.httpRequest
    ensures r' == r
    ensures r.httpRequest != null ==>
      && r.httpRequest.header == Http.AddEach(old(r.httpRequest.header), headers)
      && r.httpRequest.httpMethod == old(r.httpRequest.httpMethod) && r.httpRequest.target == old(r.httpRequest.target)
      && r.httpRequest.path == old(r.httpRequest.path) && r.httpRequest.query == old(r.httpRequest.query)
      && r.httpRequest.body == old(r.httpRequest.body)
  {
    if r.httpRequest == null {
      return r;
    }
    r.httpRequest.AddHeaders(headers);
    r' := r;
  }

  /** `Assert`: a stub; the arguments are dropped and the receiver returned. */
  function Assert<A, E>(r: Requester, actual: A, expected: E): (r': Requester)
    ensures r' == r
  {
    r
  }

  /** `ExpectStatusCode`: a stub; the status is dropped (it is NOT stored in
      responseStatusCode) and the receiver returned. */
  function ExpectStatusCode(r: Requester, status: Int64.int64): (r': Requester)
    ensures r' == r
    ensures r'.responseStatusCode == r.responseStatusCode
  {
    r
  }

  /** The decision in `Requester.Call`: a nil destination returns without any
      status check; a mismatch is tolerated for a `*web.Error` destination and
      fatal for any other; the body is always decoded as JSON. */
  function RequesterPlan(response: Destination, expected: int, actual: int): (p: Plan)
    ensures p == Return <==> response == Nil
    ensures p == FailOnStatus <==> response != Nil && actual != expected && !response.isWebError
    ensures p.DecodeWith? <==> response != Nil && (actual == expected || response.isWebError)
    ensures p.DecodeWith? ==> p.codec == Json
  {
    if response == Nil then Return
    else if actual != expected && !response.isWebError then FailOnStatus
    else DecodeWith(Json)
  }

  /** How `Requester.Call` ends for a given exchange. */
  function RequesterOutcome(r: Requester, ex: Exchange): (o: Outcome)
    ensures !ex.transportOk ==> o == Fatal(TransportFailed)
    ensures o == Returned <==>
      && ex.transportOk
      && (r.response == Nil || ((ex.statusCode == r.responseStatusCode || r.response.isWebError) && ex.decodeOk))
  {
    if !ex.transportOk then Fatal(TransportFailed)
    else Carry(RequesterPlan(r.response, r.responseStatusCode, ex.statusCode), r.response, ex)
  }

  /** `Requester.Call`, step by step as the source runs it. `Do` on a nil
      request panics, so a request must have been built. */
  method Call(r: Requester, ex: Exchange) returns (o: Outcome)
    requires r.httpRequest != null
    ensures o == RequesterOutcome(r, ex)
  {
    if !ex.transportOk {
      return Fatal(TransportFailed);
    }

    if r.response == Nil {
      return Returned;
    }

    if ex.statusCode != r.responseStatusCode {
      if !r.response.isWebError {
        if !ex.bodyReadOk {
          return Fatal(BodyUnreadable);
        }
        return Fatal(StatusMismatch);
      }
    }

    if !ex.decodeOk {
      return Fatal(DecodeFailed);
    }
    o := Returned;
  }

  /** The legacy Call never panics and never reports an encode failure: it
      has no image branch. */
  lemma NoImageBranch(r: Requester, ex: Exchange)
    ensures RequesterOutcome(r, ex) != Panicked
    ensures RequesterOutcome(r, ex) != Fatal(EncodeFailed)
  {
  }

  /** A `*web.Error` destination turns a status mismatch into a JSON decode:
      the outcome then depends only on whether the body decodes. */
  lemma WebErrorToleratesMismatch(r: Requester, ex: Exchange)
    requires ex.transportOk && r.response.Value? && r.response.isWebError
    ensures RequesterOutcome(r, ex) == if ex.decodeOk then Returned else Fatal(DecodeFailed)
  {
  }

  /** Exactly where the two decisions disagree on the same destination,
      expected status, actual status and content type: a nil destination
      with a wrong status (v2 fails, legacy returns), a `*web.Error`
      destination with a wrong status (v2 fails, legacy decodes), and a
      non-nil destination with a matching status and an exact image content
      type (v2 uses the image codec, legacy JSON). */
  lemma DecisionsDisagreeExactly(response: Destination, expected: int, actual: int, contentType: string)
    ensures RequestV2.ExpectantPlan(response, expected, actual, contentType) != RequesterPlan(response, expected, actual)
      <==> || (response == Nil && actual != expected)
           || (response != Nil && actual != expected && response.isWebError)
           || (response != Nil && actual == expected && CodecFor(contentType) != Json)
  {
  }
}
