/** The request handler of index.js: CORS handling for OPTIONS requests,
    dispatch of GET requests on pathname prefixes where the last matching
    prefix decides the response, the final CORS headers stamped on every
    response, body shaping of upstream replies by content type, and the query
    of the exchange-rate lookup. The upstream replies and the JSON re-encoding
    are parameters (`Upstreams`). */
module Worker {
  import opened Wrappers
  import opened Strings
  import opened Http

  // Header names, spelled as index.js spells them.
  const Origin := "Origin"
  const RequestMethod := "Access-Control-Request-Method"
  const RequestHeaders := "Access-Control-Request-Headers"
  const AllowOrigin := "Access-Control-Allow-Origin"
  const AllowMethods := "Access-Control-Allow-Methods"
  const MaxAge := "Access-Control-Max-Age"
  const AllowHeaders := "Access-Control-Allow-Headers"
  const Allow := "Allow"

  /** Methods the preflight answer lists (`corsHeaders`). */
  const PreflightMethods := "GET,HEAD,POST,OPTIONS"
  /** Methods stamped on every response at the end of `handleRequest`. */
  const FinalMethods := "GET, POST, PUT, DELETE, OPTIONS"
  /** The `Allow` value of a plain OPTIONS answer. */
  const PlainAllow := "GET, HEAD, POST, OPTIONS"
  const JsonUtf8 := "application/json;charset=UTF-8"
  const Json := "application/json"

  /** `corsHeaders`. */
  const CorsHeaders: Headers := map[AllowOrigin := "*", AllowMethods := PreflightMethods, MaxAge := "86400"]

  /** The replies of the two upstream APIs and the JSON re-encoding
      `JSON.stringify(JSON.parse(text))`, all outside the model. The news
      API is always asked the same thing; the rate API answers as a function
      of the query it is sent. */
  datatype Upstreams = Upstreams(
    news: UpstreamResponse,
    rate: seq<(string, string)> -> UpstreamResponse,
    reserialise: string -> string)

  /** An upstream request made while handling one inbound request. */
  datatype Call = NewsCall | RateCall(query: seq<(string, string)>)

  // ---------------------------------------------------------------------
  // handleOptions

  /** A preflight carries all three of `Origin`, `Access-Control-Request-Method`
      and `Access-Control-Request-Headers`; a present but empty value counts. */
  predicate IsPreflight(h: Headers): (b: bool)
    ensures b <==> Get(h, Origin) != None && Get(h, RequestMethod) != None && Get(h, RequestHeaders) != None
  {
    Origin in h && RequestMethod in h && RequestHeaders in h
  }

  /** `handleOptions`: a preflight gets `corsHeaders` plus the requested headers
      echoed back; any other OPTIONS request gets only `Allow`. Both have a
      `null` body and the default status. */
  function HandleOptions(req: Request): (r: ResponseValue)
    ensures r.body == None && r.status == DefaultStatus
    ensures AllowHeaders in r.headers <==> IsPreflight(req.headers)
    ensures IsPreflight(req.headers) ==>
      r.headers.Keys == {AllowOrigin, AllowMethods, MaxAge, AllowHeaders} &&
      r.headers[AllowOrigin] == "*" &&
      r.headers[AllowMethods] == PreflightMethods &&
      r.headers[MaxAge] == "86400" &&
      r.headers[AllowHeaders] == req.headers[RequestHeaders]
    ensures !IsPreflight(req.headers) ==> r.headers.Keys == {Allow} && r.headers[Allow] == PlainAllow
  {
    if IsPreflight(req.headers) then
      Construct(None, WithHeaders(CorsHeaders[AllowHeaders := req.headers[RequestHeaders]]))
    else
      Construct(None, WithHeaders(map[Allow := PlainAllow]))
  }

  // ---------------------------------------------------------------------
  // gatherResponse

  /** `headers.get('content-type') || ''`, the name keyed in that spelling. */
  function ContentTypeOf(u: UpstreamResponse): (contentType: string)
    ensures Get(u.headers, ContentType).Some? ==> contentType == u.headers[ContentType]
    ensures Get(u.headers, ContentType) == None ==> contentType == ""
  {
    if ContentType in u.headers then u.headers[ContentType] else ""
  }

  /** `gatherResponse`: the body of an upstream reply, re-encoded when its
      content type mentions `application/json` and the raw text otherwise. */
  function GatherResponse(u: UpstreamResponse, reserialise: string -> string): (r: string)
    ensures Contains(ContentTypeOf(u), Json) ==> r == reserialise(u.text)
    ensures !Contains(ContentTypeOf(u), Json) ==> r == u.text
  {
    var contentType := ContentTypeOf(u);
    if Contains(contentType, Json) then reserialise(u.text)
    else if Contains(contentType, "application/text") then u.text
    else if Contains(contentType, "text/html") then u.text
    else u.text
  }

  /** A reply without a content type is passed on as raw text. */
  lemma MissingContentTypeIsRaw(u: UpstreamResponse, reserialise: string -> string)
    requires ContentType !in u.headers
    ensures GatherResponse(u, reserialise) == u.text
  {
  }

  /** `application/text`, `text/html` and any content type not mentioning
      `application/json` are passed on as raw text; the body is re-encoded
      only when it does mention `application/json`. */
  lemma {:induction false} OnlyJsonIsReserialised(u: UpstreamResponse, reserialise: string -> string)
    ensures ContentTypeOf(u) in {"", "application/text", "text/html", "text/plain"} ==>
      GatherResponse(u, reserialise) == u.text
    ensures GatherResponse(u, reserialise) != u.text ==> exists i :: OccursAt(ContentTypeOf(u), Json, i)
  {
    var contentType := ContentTypeOf(u);
    if contentType == "application/text" {
      assert contentType[12] != Json[12];
      assert !StartsWith(contentType, Json);
    }
    ContainsIff(contentType, Json);
  }

  /** The content type the worker itself uses for JSON is re-encoded. */
  lemma JsonUtf8IsReserialised(u: UpstreamResponse, reserialise: string -> string)
    requires ContentTypeOf(u) == JsonUtf8
    ensures GatherResponse(u, reserialise) == reserialise(u.text)
  {
    assert StartsWith(JsonUtf8, Json);
  }

  // ---------------------------------------------------------------------
  // getNews, getRate

  /** `getNews`: the news reply shaped by `gatherResponse`. */
  function GetNews(up: Upstreams): (body: string)
    ensures Contains(ContentTypeOf(up.news), Json) ==> body == up.reserialise(up.news.text)
    ensures !Contains(ContentTypeOf(up.news), Json) ==> body == up.news.text
  {
    GatherResponse(up.news, up.reserialise)
  }

  const RateFunction := "CURRENCY_EXCHANGE_RATE"

  /** The `params` record of `getRate`, in its key order; `None` is `null`. */
  function RateParams(from: Option<string>, to: Option<string>): (params: seq<(string, Option<string>)>)
    ensures |params| == 3
    ensures params[0].0 == "from_currency" && params[1].0 == "function" && params[2].0 == "to_currency"
    ensures params[0].1 == from && params[1].1 == Some(RateFunction) && params[2].1 == to
  {
    [("from_currency", from), ("function", Some(RateFunction)), ("to_currency", to)]
  }

  /** The string `URLSearchParams.append` stores for a value: `null` becomes "null". */
  function ToUsv(v: Option<string>): (s: string)
    ensures v.Some? ==> s == v.value
    ensures v == None ==> s == "null"
  {
    match v
    case None => "null"
    case Some(s) => s
  }

  /** The query sent to the rate API: each entry of `params`, in order, as a
      name/value pair of strings. */
  function RateQuery(from: Option<string>, to: Option<string>): (q: seq<(string, string)>)
    ensures |q| == |RateParams(from, to)|
    ensures q == [("from_currency", ToUsv(from)), ("function", RateFunction), ("to_currency", ToUsv(to))]
  {
    var params := RateParams(from, to);
    seq(|params|, i requires 0 <= i < |params| => (params[i].0, ToUsv(params[i].1)))
  }

  /** Corollary of `RateQuery`'s contract: exactly three parameters, in the
      order `from_currency`, `function`, `to_currency`, the caller's values
      passed through unchecked. */
  lemma RateQueryExact(from: Option<string>, to: Option<string>)
    ensures RateQuery(from, to) ==
      [("from_currency", ToUsv(from)), ("function", RateFunction), ("to_currency", ToUsv(to))]
  {
  }

  /** The loop of `getRate`: starting from the empty query of the base URL,
      appends the parameters one by one. */
  method BuildRateQuery(from: Option<string>, to: Option<string>) returns (q: seq<(string, string)>)
    ensures q == RateQuery(from, to)
  {
    var params := RateParams(from, to);
    var searchParams := new SearchParams();
    var i := 0;
    while i < |params|
      invariant 0 <= i <= |params|
      invariant searchParams.entries == RateQuery(from, to)[..i]
    {
      searchParams.Append(params[i].0, ToUsv(params[i].1));
      i := i + 1;
    }
    q := searchParams.entries;
  }

  /** `getRate`: builds the query, asks the rate API and shapes its reply. */
  method GetRate(from: Option<string>, to: Option<string>, up: Upstreams)
    returns (body: string, query: seq<(string, string)>)
    ensures query == RateQuery(from, to)
    ensures body == GatherResponse(up.rate(query), up.reserialise)
  {
    query := BuildRateQuery(from, to);
    body := GatherResponse(up.rate(query), up.reserialise);
  }

  // ---------------------------------------------------------------------
  // handleRequest

  /** What a matching prefix test of `handleRequest` does. */
  datatype Handler = Hello | News | Rate

  datatype Route = Route(prefix: string, handler: Handler)

  /** The prefix tests for GET, in the order `handleRequest` runs them. */
  const GetRoutes: seq<Route> :=
    [Route("/", Hello), Route("/news", News), Route("/getCurrencyExchangeRate", Rate)]

  /** The handlers of the routes whose prefix `path` starts with, in table order. */
  function Matching(path: string, routes: seq<Route>): (hs: seq<Handler>)
    ensures forall h :: h in hs ==>
      exists j :: 0 <= j < |routes| && routes[j].handler == h && StartsWith(path, routes[j].prefix)
    ensures forall j :: 0 <= j < |routes| && StartsWith(path, routes[j].prefix) ==> routes[j].handler in hs
  {
    if routes == [] then []
    else (if StartsWith(path, routes[0].prefix) then [routes[0].handler] else [])
         + Matching(path, routes[1..])
  }

  /** The handler whose response survives when every test runs and each match
      replaces the response: the last match. */
  function LastMatch(path: string, routes: seq<Route>): (winner: Option<Handler>)
  {
    var hs := Matching(path, routes);
    if hs == [] then None else Some(hs[|hs| - 1])
  }

  /** No route matches exactly when nothing is left by `Matching`. */
  lemma {:induction false} NoMatchIff(path: string, routes: seq<Route>)
    ensures Matching(path, routes) == [] <==>
      forall j :: 0 <= j < |routes| ==> !StartsWith(path, routes[j].prefix)
  {
    if routes != [] {
      NoMatchIff(path, routes[1..]);
      assert forall j :: 1 <= j < |routes| ==> routes[j] == routes[1..][j - 1];
    }
  }

  /** Last match wins: when route `i` matches and no later route does, the
      response is the one route `i` produces, whatever earlier routes matched. */
  lemma {:induction false} LastMatchWins(path: string, routes: seq<Route>, i: int)
    requires 0 <= i < |routes| && StartsWith(path, routes[i].prefix)
    requires forall j :: i < j < |routes| ==> !StartsWith(path, routes[j].prefix)
    ensures LastMatch(path, routes) == Some(routes[i].handler)
  {
    if i == 0 {
      NoMatchIff(path, routes[1..]);
    } else {
      assert routes[i] == routes[1..][i - 1];
      LastMatchWins(path, routes[1..], i - 1);
    }
  }

  /** Conversely, a handler that wins belongs to a matching route with no
      matching route after it. */
  lemma {:induction false} LastMatchIsLast(path: string, routes: seq<Route>, h: Handler)
    requires LastMatch(path, routes) == Some(h)
    ensures exists i :: 0 <= i < |routes| && StartsWith(path, routes[i].prefix) && routes[i].handler == h &&
                        (forall j :: i < j < |routes| ==> !StartsWith(path, routes[j].prefix))
  {
    var tail := routes[1..];
    if Matching(path, tail) != [] {
      LastMatchIsLast(path, tail, h);
      var i :| 0 <= i < |tail| && StartsWith(path, tail[i].prefix) && tail[i].handler == h &&
               (forall j :: i < j < |tail| ==> !StartsWith(path, tail[j].prefix));
      assert forall j :: i + 1 < j < |routes| ==> routes[j] == tail[j - 1];
      assert routes[i + 1] == tail[i];
    } else {
      NoMatchIff(path, tail);
      assert forall j :: 0 < j < |routes| ==> routes[j] == tail[j - 1];
    }
  }

  /** A GET request starting with "/" always has a winning route. */
  lemma RootMatches(path: string)
    requires StartsWith(path, "/")
    ensures LastMatch(path, GetRoutes).Some?
  {
    NoMatchIff(path, GetRoutes);
    assert StartsWith(path, GetRoutes[0].prefix);
  }

  /** `searchParams.get('from_currency')`, `searchParams.get('to_currency')`. */
  function RequestedRateQuery(req: Request): (query: seq<(string, string)>)
    ensures query == [("from_currency", ToUsv(Get(req.query, "from_currency"))),
                      ("function", RateFunction),
                      ("to_currency", ToUsv(Get(req.query, "to_currency")))]
    ensures "from_currency" in req.query ==> query[0].1 == req.query["from_currency"]
    ensures "to_currency" in req.query ==> query[2].1 == req.query["to_currency"]
  {
    RateQueryExact(Get(req.query, "from_currency"), Get(req.query, "to_currency"));
    RateQuery(Get(req.query, "from_currency"), Get(req.query, "to_currency"))
  }

  /** The response a matching prefix test builds. */
  function Respond(h: Handler, req: Request, up: Upstreams): (r: ResponseValue)
    ensures r.status == DefaultStatus && r.headers.Keys == {ContentType}
    ensures r.headers[ContentType] == if h == Hello then "text/plain" else JsonUtf8
    ensures h == Hello ==> r.body == Some("Hello worker!")
    ensures h == News ==> r.body == Some(GetNews(up))
    ensures h == Rate ==> r.body == Some(GatherResponse(up.rate(RequestedRateQuery(req)), up.reserialise))
  {
    match h
    case Hello => Construct(Some("Hello worker!"), WithHeaders(map[ContentType := "text/plain"]))
    case News => Construct(Some(GetNews(up)), WithHeaders(map[ContentType := JsonUtf8]))
    case Rate =>
      var query := RequestedRateQuery(req);
      Construct(Some(GatherResponse(up.rate(query), up.reserialise)), WithHeaders(map[ContentType := JsonUtf8]))
  }

  /** The upstream requests a matching prefix test makes. */
  function CallsOf(hs: seq<Handler>, req: Request): (calls: seq<Call>)
  {
    if hs == [] then []
    else
      (match hs[0]
       case Hello => []
       case News => [NewsCall]
       case Rate => [RateCall(RequestedRateQuery(req))])
      + CallsOf(hs[1..], req)
  }

  /** `handleRequest` can only answer a GET whose pathname starts with "/"
      (otherwise `response` stays undefined); URL parsing guarantees it. */
  predicate Answerable(req: Request)
  {
    req.verb == "GET" ==> StartsWith(req.pathname, "/")
  }

  /** The response before the final CORS headers: `handleOptions` for OPTIONS,
      the last matching route for GET, a 500 "Expected GET" otherwise. */
  function Routed(req: Request, up: Upstreams): (r: ResponseValue)
    requires Answerable(req)
  {
    if req.verb == "OPTIONS" then HandleOptions(req)
    else if req.verb == "GET" then
      RootMatches(req.pathname);
      Respond(LastMatch(req.pathname, GetRoutes).value, req, up)
    else Construct(Some("Expected GET"), ResponseInit(500, map[]))
  }

  /** The upstream requests `handleRequest` makes: one per matching GET route
      that consults an upstream, none for other methods. */
  function UpstreamCalls(req: Request): (calls: seq<Call>)
  {
    if req.verb == "GET" then CallsOf(Matching(req.pathname, GetRoutes), req) else []
  }

  /** The two `headers.set` calls at the end of `handleRequest`. */
  function Stamp(v: ResponseValue): (r: ResponseValue)
    ensures r.body == v.body && r.status == v.status
    ensures r.headers.Keys == v.headers.Keys + {AllowOrigin, AllowMethods}
    ensures r.headers[AllowOrigin] == "*" && r.headers[AllowMethods] == FinalMethods
    ensures forall k :: k in v.headers && k != AllowOrigin && k != AllowMethods ==> r.headers[k] == v.headers[k]
  {
    v.(headers := v.headers[AllowOrigin := "*"][AllowMethods := FinalMethods])
  }

  /** The response `handleRequest` returns. */
  function Final(req: Request, up: Upstreams): (r: ResponseValue)
    requires Answerable(req)
  {
    Stamp(Routed(req, up))
  }

  /** `handleRequest`: the prefix tests run one after the other, each match
      replacing the response, and the two CORS headers are then set in place
      on whatever response was built. */
  method HandleRequest(req: Request, up: Upstreams) returns (response: Response, calls: seq<Call>)
    requires Answerable(req)
    ensures response.Value() == Final(req, up)
    ensures calls == UpstreamCalls(req)
    ensures response.headers[AllowOrigin] == "*" && response.headers[AllowMethods] == FinalMethods
  {
    var r: Response? := null;
    calls := [];
    if req.verb == "OPTIONS" {
      r := new Response.Of(HandleOptions(req));
    } else {
      if req.verb == "GET" {
        if StartsWith(req.pathname, "/") {
          r := new Response(Some("Hello worker!"), WithHeaders(map[ContentType := "text/plain"]));
        }
        if StartsWith(req.pathname, "/news") {
          var res := GetNews(up);
          calls := calls + [NewsCall];
          r := new Response(Some(res), WithHeaders(map[ContentType := JsonUtf8]));
        }
        if StartsWith(req.pathname, "/getCurrencyExchangeRate") {
          var res, query := GetRate(Get(req.query, "from_currency"), Get(req.query, "to_currency"), up);
          calls := calls + [RateCall(query)];
          r := new Response(Some(res), WithHeaders(map[ContentType := JsonUtf8]));
        }
        GetDispatch(req, up);
        GetCalls(req);
      } else {
        r := new Response(Some("Expected GET"), ResponseInit(500, map[]));
      }
    }
    assert r.Value() == Routed(req, up) && calls == UpstreamCalls(req);
    r.SetHeader(AllowOrigin, "*");
    r.SetHeader(AllowMethods, FinalMethods);
    response := r;
  }

  /** `Matching` over the GET table, one test at a time. */
  lemma GetRoutesMatching(path: string)
    ensures Matching(path, GetRoutes) ==
      (if StartsWith(path, "/") then [Hello] else []) +
      (if StartsWith(path, "/news") then [News] else []) +
      (if StartsWith(path, "/getCurrencyExchangeRate") then [Rate] else [])
  {
    var r0 := GetRoutes;
    var r1 := [Route("/news", News), Route("/getCurrencyExchangeRate", Rate)];
    var r2 := [Route("/getCurrencyExchangeRate", Rate)];
    assert r0[1..] == r1 && r1[1..] == r2 && r2[1..] == [];
    assert Matching(path, r2) == (if StartsWith(path, "/getCurrencyExchangeRate") then [Rate] else []) + [];
    assert Matching(path, r1) == (if StartsWith(path, "/news") then [News] else []) + Matching(path, r2);
    assert Matching(path, r0) == (if StartsWith(path, "/") then [Hello] else []) + Matching(path, r1);
  }

  /** The GET response stated by the three prefix tests. */
  lemma GetDispatch(req: Request, up: Upstreams)
    requires req.verb == "GET" && StartsWith(req.pathname, "/")
    ensures Routed(req, up) ==
      if StartsWith(req.pathname, "/getCurrencyExchangeRate") then Respond(Rate, req, up)
      else if StartsWith(req.pathname, "/news") then Respond(News, req, up)
      else Respond(Hello, req, up)
  {
    var path := req.pathname;
    GetRoutesMatching(path);
    var n := if StartsWith(path, "/news") then [News] else [];
    var g := if StartsWith(path, "/getCurrencyExchangeRate") then [Rate] else [];
    assert Matching(path, GetRoutes) == [Hello] + n + g;
  }

  /** The upstream requests of consecutive handler lists are those of each, in order. */
  lemma {:induction false} CallsOfAppend(a: seq<Handler>, b: seq<Handler>, req: Request)
    ensures CallsOf(a + b, req) == CallsOf(a, req) + CallsOf(b, req)
  {
    if a != [] {
      assert (a + b)[1..] == a[1..] + b;
      CallsOfAppend(a[1..], b, req);
    } else {
      assert a + b == b;
    }
  }

  /** "/news" and "/getCurrencyExchangeRate" both extend "/" and exclude each other. */
  lemma GetPrefixes(path: string)
    ensures StartsWith(path, "/news") ==> StartsWith(path, "/") && !StartsWith(path, "/getCurrencyExchangeRate")
    ensures StartsWith(path, "/getCurrencyExchangeRate") ==> StartsWith(path, "/")
  {
    if StartsWith(path, "/news") {
      assert "/" + "news" == "/news";
      StartsWithPrefix(path, "/", "news");
      assert path[1] == 'n';
    }
    if StartsWith(path, "/getCurrencyExchangeRate") {
      assert "/" + "getCurrencyExchangeRate" == "/getCurrencyExchangeRate";
      StartsWithPrefix(path, "/", "getCurrencyExchangeRate");
    }
  }

  /** The upstream requests of a GET stated by the three prefix tests. */
  lemma GetCalls(req: Request)
    requires req.verb == "GET"
    ensures UpstreamCalls(req) ==
      (if StartsWith(req.pathname, "/news") then [NewsCall] else []) +
      (if StartsWith(req.pathname, "/getCurrencyExchangeRate") then [RateCall(RequestedRateQuery(req))] else [])
  {
    var path := req.pathname;
    GetRoutesMatching(path);
    var h := if StartsWith(path, "/") then [Hello] else [];
    var n := if StartsWith(path, "/news") then [News] else [];
    var g := if StartsWith(path, "/getCurrencyExchangeRate") then [Rate] else [];
    CallsOfAppend(h + n, g, req);
    CallsOfAppend(h, n, req);
    assert CallsOf(h, req) == [] by {
      if h != [] { assert CallsOf(h, req) == [] + CallsOf([], req); }
    }
    assert CallsOf(n, req) == if n == [] then [] else [NewsCall] by {
      if n != [] { assert CallsOf(n, req) == [NewsCall] + CallsOf([], req); }
    }
    assert CallsOf(g, req) == if g == [] then [] else [RateCall(RequestedRateQuery(req))] by {
      if g != [] { assert CallsOf(g, req) == [RateCall(RequestedRateQuery(req))] + CallsOf([], req); }
    }
  }
}
