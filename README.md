# crypto-dashboard-backend worker, modelled in Dafny

The repository is an edge worker (`index.js`) that answers HTTP requests for a
crypto dashboard. It proxies a news API and an exchange-rate API behind one
origin and adds permissive CORS headers. This project models the worker's
decision logic and proves what it returns:

- **CORS handling of OPTIONS** (`handleOptions`). A request carrying `Origin`,
  `Access-Control-Request-Method` and `Access-Control-Request-Headers` is a
  preflight. It gets `corsHeaders` plus the requested headers echoed back.
  Any other OPTIONS request gets only `Allow`.
- **Dispatch** (`handleRequest`). For GET, three prefix tests run one after
  the other: `/`, `/news`, `/getCurrencyExchangeRate`. Each match replaces the
  whole response, so the last match wins. Any method other than OPTIONS and
  GET gets a 500 `Expected GET`. Then two CORS headers are set in place on
  whatever response was built, the preflight one included.
- **Body shaping** (`gatherResponse`). Only a content type mentioning
  `application/json` is re-encoded; everything else is passed on as text.
- **The rate query** (`getRate`). The parameter record is appended key by key
  onto the empty query of the rate API's URL.

Files:

- `wrappers.dfy`: `Option`, standing for JavaScript's `null`-or-value.
- `strings.dfy`: `startsWith` and `includes` on strings.
- `http.dfy`: requests as values, and the `Response` class whose header map
  `SetHeader` changes in place. It also holds the `Response` constructor's
  result (`Construct`), the `SearchParams` class that `Append` extends, and
  upstream replies.
- `worker.dfy`: the logic of `index.js`. `HandleRequest` is the imperative
  if-chain of the source. It is proved equal to `Final`, an independent
  reference definition, which runs an ordered route table in which the last
  match wins.
- `properties.dfy`: what every kind of request gets back.

The upstream replies and the JSON re-encoding are parameters (`Upstreams`).
So are the news reply, the rate reply as a function of the query sent, and
`JSON.stringify(response.json())` as a function on strings. `HandleRequest`
also returns the list of upstream requests it made. This shows which
requests consult an upstream and which query the rate API receives.

Three details of the code the model follows closely:

- The preflight test is `!== null` (index.js:12-14). A header that is present
  with an empty value still counts.
- A missing `from_currency` or `to_currency` is `null` when `searchParams.get`
  returns it. `URLSearchParams.append` turns `null` into the string `"null"`.
  So the rate API receives `from_currency=null` (`Worker.ToUsv`).
- `new Response('Expected GET', { status: 500 })` names no content type.
  Under the Fetch standard's Response constructor, a string body then gets
  `content-type: text/plain;charset=UTF-8`. `Http.Construct` models this, and
  `Properties.OtherMethodOutcome` states it.

## Model

| member | source | states |
|---|---|---|
| `Strings.StartsWith` | index.js:53-65 | `startsWith` holds exactly when the prefix is no longer than the string and agrees with it character by character. |
| `Strings.Contains` | index.js:97-102 | `includes` holds whenever the string starts with the pattern, and never when the string is shorter than the pattern. With `Strings.ContainsIff`, it holds exactly when the pattern occurs at some index. |
| `Worker.IsPreflight` | index.js:11-15 | A request is a preflight exactly when all three `get` calls (`Origin`, `Access-Control-Request-Method`, `Access-Control-Request-Headers`) return non-null. |
| `Worker.GetNews` | index.js:109-122 | The news body is the news reply re-encoded when its content type contains `application/json`, and its raw text otherwise. |
| `Worker.RequestedRateQuery` | index.js:66-69 | The rate query is built from the request's `from_currency` and `to_currency`, in that record order. A present value is passed through unchanged; a missing one is sent as `"null"`. |
| `Worker.Respond` | index.js:54-73 | Each prefix branch builds a status-200 response with exactly one header, `content-type`: `text/plain` with `Hello worker!` for `/`, and `application/json;charset=UTF-8` with the shaped news or rate reply for `/news` and `/getCurrencyExchangeRate`. |
| `Worker.HandleOptions` | index.js:7-39 | Null body and status 200. `Access-Control-Allow-Headers` is present exactly for a preflight. A preflight has exactly the four `corsHeaders`/echo headers: `*`, `GET,HEAD,POST,OPTIONS`, `86400`, and the request's `Access-Control-Request-Headers` verbatim. Any other OPTIONS request has only `Allow: GET, HEAD, POST, OPTIONS`. |
| `Worker.GatherResponse` | index.js:94-107 | The reply body is re-encoded when the content type (missing read as `''`) contains `application/json`. Otherwise it is the raw text, whichever of the three non-JSON branches is taken. |
| `Worker.MissingContentTypeIsRaw` | index.js:96 | A reply without a content type is passed on as raw text. |
| `Worker.OnlyJsonIsReserialised` | index.js:96-106 | Empty, `application/text`, `text/html` and `text/plain` content types give the raw text. A body that differs from the raw text implies `application/json` occurs in the content type. |
| `Worker.JsonUtf8IsReserialised` | index.js:97-99 | `application/json;charset=UTF-8` replies are re-encoded. |
| `Worker.ContentTypeOf` | index.js:96 | The content type is the reply's `content-type` value when `get` finds one, and `''` when it returns `null`. |
| `Worker.RateParams` | index.js:132-136 | The `params` record has three entries with keys `from_currency`, `function`, `to_currency` in that order. Their values are the caller's `from`, the constant `CURRENCY_EXCHANGE_RATE`, and the caller's `to`. |
| `Worker.ToUsv` | index.js:138 | `append` stores a string value unchanged and turns `null` into `"null"`. |
| `Worker.RateQuery` | index.js:132-138 | The query is the record's entries as string pairs: exactly `from_currency`, `function=CURRENCY_EXCHANGE_RATE`, `to_currency`, in order, with the caller's values passed through. |
| `Worker.RateQueryExact` | index.js:132-136 | The rate query is exactly three pairs, in the order `from_currency`, `function=CURRENCY_EXCHANGE_RATE`, `to_currency`. The caller's values are passed through unchecked, with `null` written as `"null"`. |
| `Worker.BuildRateQuery` | index.js:137-138 | The `forEach`/`append` loop, started from an empty query, yields exactly the pairs of the parameter record, in key order. |
| `Worker.GetRate` | index.js:124-141 | The rate API is sent the built query, and the result is its reply shaped by `gatherResponse`. |
| `Worker.Matching` | index.js:53-74 | The handlers left are exactly those of routes whose prefix the path starts with: each comes from a matching route, and every matching route's handler is there. |
| `Worker.LastMatchWins` | index.js:53-74 | When a route matches and no later route does, its handler decides the response, whatever earlier routes matched. |
| `Worker.LastMatchIsLast` | index.js:53-74 | Conversely, the handler that decides belongs to a matching route with no matching route after it. |
| `Worker.NoMatchIff` | index.js:53-74 | No handler is left exactly when no prefix test matches. |
| `Worker.Stamp` | index.js:80-84 | The final response keeps body and status. It adds or overwrites `Access-Control-Allow-Origin: *` and `Access-Control-Allow-Methods: GET, POST, PUT, DELETE, OPTIONS`, and leaves every other header as it was. |
| `Worker.HandleRequest` | index.js:45-87 | The imperative if-chain with in-place header setting returns the reference response `Final`: the last matching route for GET, `handleOptions` for OPTIONS, 500 otherwise, stamped. Its upstream requests are those of the matching routes. Both CORS headers end set. |
| `Http.Construct` | index.js:27-76 | Every `new Response(body, init)` (index.js:27-29, 33-37, 54-56, 61-63, 71-73, 76) keeps body, status and headers. It adds `content-type: text/plain;charset=UTF-8` exactly when a string body comes without a content type. |
| `Http.Response.SetHeader` | index.js:80-84 | `headers.set` replaces or adds one header and changes nothing else. |
| `Http.SearchParams.Append` | index.js:138 | `searchParams.append` adds one pair at the end and keeps the earlier ones. |
| `Http.Get` | index.js:12-68 | `get`, both `headers.get(...) !== null` at index.js:12-14 and `searchParams.get` at index.js:67-68, reports a value exactly when the name is present, and then the value stored under it. |
| `Strings.ContainsIff` | index.js:97 | `includes` holds exactly when the pattern occurs at some index. |
| `Properties.PreflightOutcome` | index.js:11-29 | A preflight ends with a null body, status 200 and exactly four headers. These are `Access-Control-Allow-Origin: *`, `Max-Age: 86400`, the echoed `Access-Control-Allow-Headers`, and `Access-Control-Allow-Methods` overwritten by the final `GET, POST, PUT, DELETE, OPTIONS` (it differs from `GET,HEAD,POST,OPTIONS`). Every other preflight header is unchanged by the stamping. |
| `Properties.PlainOptionsOutcome` | index.js:30-37 | A non-preflight OPTIONS request ends with a null body, status 200, and exactly `Allow`, `Access-Control-Allow-Origin` and `Access-Control-Allow-Methods`. It never has `Access-Control-Allow-Headers`. |
| `Properties.AlwaysStamped` | index.js:80-84 | Every response ends with `Access-Control-Allow-Origin: *` and `Access-Control-Allow-Methods: GET, POST, PUT, DELETE, OPTIONS`. |
| `Properties.OtherMethodOutcome` | index.js:75-76 | A method other than OPTIONS and GET gets status 500, body `Expected GET` as plain text, and consults no upstream. |
| `Properties.HelloOutcome` | index.js:53-57 | A GET on a path starting with `/` but with neither `/news` nor `/getCurrencyExchangeRate` gets status 200, `Hello worker!`, `text/plain`, and consults no upstream. |
| `Properties.NewsOutcome` | index.js:58-64 | A GET on a `/news…` path gets the shaped news reply as `application/json;charset=UTF-8`. This fully replaces the `Hello worker!` response, and exactly one news request is made. |
| `Properties.RateOutcome` | index.js:65-74 | A GET on a `/getCurrencyExchangeRate…` path gets the shaped rate reply as `application/json;charset=UTF-8`. Exactly one rate request is made, with the query built from the request's `from_currency` and `to_currency`. |
| `Properties.AtMostOneCall` | index.js:58-74 | At most one upstream is consulted per request. |
| `Properties.RateQueryExample` | index.js:132-138 | USD to EUR is sent as `from_currency=USD`, `function=CURRENCY_EXCHANGE_RATE`, `to_currency=EUR`. |

## Left out

- The `fetch` calls, the upstream hosts and the `x-rapidapi-*` headers (index.js:109-122, 139) are network I/O. Their replies are inputs (`Upstreams`).
- `JSON.stringify(await response.json())` is a foreign parser and serialiser, so it is a function parameter on strings. A reply that is not valid JSON makes the source throw; the model does not capture that.
- Upstream failures (network errors, non-2xx replies) are not handled by the source and are not modelled.
- `async`/`await`, the `addEventListener('fetch', …)` registration and the `console.log` calls carry no decision logic.
- `new URL(request.url)` parsing: the pathname and query parameters are given. For a query name given twice, `get` returns the first value; the model holds that first value only.
- The serialisation of the rate query into URL text, including percent-encoding, is library behaviour. The model stops at the ordered name/value pairs.
- Case-insensitive header lookup: `Request.headers` and `UpstreamResponse.headers` are keyed in the spellings index.js uses (`Origin`, `Access-Control-Request-Method`, `Access-Control-Request-Headers`, `content-type`); folding other spellings to these is left to the caller. With a key in another case (an HTTP/2 browser's `origin`, an upstream's `Content-Type`) the source still finds the header, while the model as it stands does not.
- `REACT_APP_RAPID_API_KEY` is configuration and is only forwarded to the upstreams.
- Worker.HandleRequest: requires a GET pathname to start with `/`. Otherwise `response` stays undefined and `response.headers.set` throws. URL parsing of an `http(s)` request URL always yields such a pathname.
- Repeating a request with the same inputs and unchanged upstreams gives the same response. This holds because `Final` is a function; no separate lemma states it.
