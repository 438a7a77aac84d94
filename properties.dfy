/** What the worker promises about the response it returns, stated on the
    model of `handleRequest` in module Worker. */
module Properties {
  import opened Wrappers
  import opened Strings
  import opened Http
  import opened Worker

  /** A preflight gets a `null` body, the default status, `corsHeaders` with
      the requested headers echoed verbatim, and the final stamping replaces
      the preflight's `Access-Control-Allow-Methods` while leaving the other
      preflight headers as they were. */
  lemma PreflightOutcome(req: Request, up: Upstreams)
    requires req.verb == "OPTIONS" && IsPreflight(req.headers)
    ensures Answerable(req)
    ensures Final(req, up).body == None && Final(req, up).status == 200
    ensures Final(req, up).headers.Keys == {AllowOrigin, AllowMethods, MaxAge, AllowHeaders}
    ensures Final(req, up).headers[AllowOrigin] == "*"
    ensures Final(req, up).headers[MaxAge] == "86400"
    ensures Final(req, up).headers[AllowHeaders] == req.headers[RequestHeaders]
    ensures Final(req, up).headers[AllowMethods] == FinalMethods != HandleOptions(req).headers[AllowMethods]
    ensures forall k :: k in HandleOptions(req).headers && k != AllowMethods ==>
      Final(req, up).headers[k] == HandleOptions(req).headers[k]
  {
    var before := HandleOptions(req);
    assert Routed(req, up) == before;
    assert FinalMethods[4] != PreflightMethods[4];
  }

  /** Any other OPTIONS request gets a `null` body, the default status, `Allow`
      and the two stamped headers, never `Access-Control-Allow-Headers`. */
  lemma PlainOptionsOutcome(req: Request, up: Upstreams)
    requires req.verb == "OPTIONS" && !IsPreflight(req.headers)
    ensures Answerable(req)
    ensures Final(req, up).body == None && Final(req, up).status == 200
    ensures Final(req, up).headers.Keys == {Allow, AllowOrigin, AllowMethods}
    ensures Final(req, up).headers[Allow] == PlainAllow
    ensures AllowHeaders !in Final(req, up).headers
  {
    assert Routed(req, up) == HandleOptions(req);
  }

  /** Every response, OPTIONS ones included, ends with the two CORS headers. */
  lemma AlwaysStamped(req: Request, up: Upstreams)
    requires Answerable(req)
    ensures Final(req, up).headers[AllowOrigin] == "*"
    ensures Final(req, up).headers[AllowMethods] == FinalMethods
  {
  }

  /** A method other than OPTIONS and GET gets a 500 "Expected GET" (a plain
      text body) and no upstream is consulted. */
  lemma OtherMethodOutcome(req: Request, up: Upstreams)
    requires req.verb != "OPTIONS" && req.verb != "GET"
    ensures Answerable(req)
    ensures Final(req, up).status == 500
    ensures Final(req, up).body == Some("Expected GET")
    ensures Final(req, up).headers[ContentType] == TextPlainUtf8
    ensures Final(req, up).headers.Keys == {ContentType, AllowOrigin, AllowMethods}
    ensures UpstreamCalls(req) == []
  {
  }

  /** A GET whose path starts with "/" but with neither "/news" nor
      "/getCurrencyExchangeRate" gets "Hello worker!" as plain text and no
      upstream is consulted. */
  lemma HelloOutcome(req: Request, up: Upstreams)
    requires req.verb == "GET" && StartsWith(req.pathname, "/")
    requires !StartsWith(req.pathname, "/news") && !StartsWith(req.pathname, "/getCurrencyExchangeRate")
    ensures Answerable(req)
    ensures Final(req, up).status == 200
    ensures Final(req, up).body == Some("Hello worker!")
    ensures Final(req, up).headers[ContentType] == "text/plain"
    ensures Final(req, up).headers.Keys == {ContentType, AllowOrigin, AllowMethods}
    ensures UpstreamCalls(req) == []
  {
    GetDispatch(req, up);
    GetCalls(req);
  }

  /** A GET whose path starts with "/news" gets the news reply as JSON: the
      "Hello worker!" response of the "/" test is entirely replaced, and the
      news API is asked once. */
  lemma NewsOutcome(req: Request, up: Upstreams)
    requires req.verb == "GET" && StartsWith(req.pathname, "/news")
    ensures Answerable(req)
    ensures Final(req, up).status == 200
    ensures Final(req, up).body == Some(GatherResponse(up.news, up.reserialise))
    ensures Final(req, up).headers.Keys == {ContentType, AllowOrigin, AllowMethods}
    ensures Final(req, up).headers[ContentType] == JsonUtf8
    ensures UpstreamCalls(req) == [NewsCall]
  {
    GetPrefixes(req.pathname);
    GetDispatch(req, up);
    GetCalls(req);
  }

  /** A GET whose path starts with "/getCurrencyExchangeRate" gets the rate
      reply as JSON, the rate API being asked once with the query built from
      the request's `from_currency` and `to_currency`. */
  lemma RateOutcome(req: Request, up: Upstreams)
    requires req.verb == "GET" && StartsWith(req.pathname, "/getCurrencyExchangeRate")
    ensures Answerable(req)
    ensures Final(req, up).status == 200
    ensures Final(req, up).body ==
      Some(GatherResponse(up.rate(RateQuery(Get(req.query, "from_currency"), Get(req.query, "to_currency"))), up.reserialise))
    ensures Final(req, up).headers.Keys == {ContentType, AllowOrigin, AllowMethods}
    ensures Final(req, up).headers[ContentType] == JsonUtf8
    ensures UpstreamCalls(req) == [RateCall(RateQuery(Get(req.query, "from_currency"), Get(req.query, "to_currency")))]
  {
    GetPrefixes(req.pathname);
    GetDispatch(req, up);
    GetCalls(req);
  }

  /** At most one upstream is consulted per request. */
  lemma AtMostOneCall(req: Request)
    ensures |UpstreamCalls(req)| <= 1
  {
    if req.verb == "GET" {
      GetCalls(req);
      GetPrefixes(req.pathname);
    }
  }

  /** The exchange-rate example: USD to EUR is sent as
      `from_currency=USD`, `function=CURRENCY_EXCHANGE_RATE`, `to_currency=EUR`. */
  lemma RateQueryExample()
    ensures RateQuery(Some("USD"), Some("EUR")) ==
      [("from_currency", "USD"), ("function", "CURRENCY_EXCHANGE_RATE"), ("to_currency", "EUR")]
  {
    RateQueryExact(Some("USD"), Some("EUR"));
  }
}
