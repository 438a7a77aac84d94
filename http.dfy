/** The slice of the Fetch API the worker touches: requests as values, the
    `Response` object whose header list the worker edits in place, the
    `URLSearchParams` list the rate lookup appends to, and upstream replies. */
module Http {
  import opened Wrappers

  type Headers = map<string, string>

  /** Status a `Response` gets when its init does not name one. */
  const DefaultStatus := 200

  /** Content type the Fetch standard gives a string body when the headers name none. */
  const TextPlainUtf8 := "text/plain;charset=UTF-8"

  const ContentType := "content-type"

  /** An inbound request, already parsed: the method (`verb`), the URL's pathname and
      query parameters (first value per name), and the header list. Header
      names are keyed in the spelling the worker asks for (`Origin`,
      `content-type`, ...): folding their case is up to the caller. Under that
      spelling, a name absent from `headers` or `query` is what `get` reports
      as `null`. */
  datatype Request = Request(
    verb: string,
    pathname: string,
    query: map<string, string>,
    headers: Headers)

  /** `m.get(k)`: the value or `null`. */
  function Get(m: map<string, string>, k: string): (v: Option<string>)
    ensures v.Some? <==> k in m
    ensures v.Some? ==> v.value == m[k]
  {
    if k in m then Some(m[k]) else None
  }

  /** The second argument of `new Response(body, init)`. */
  datatype ResponseInit = ResponseInit(status: int, headers: Headers)

  function WithHeaders(h: Headers): (init: ResponseInit)
  {
    ResponseInit(DefaultStatus, h)
  }

  /** The observable content of a response; `None` is a `null` body. */
  datatype ResponseValue = ResponseValue(body: Option<string>, status: int, headers: Headers)

  /** What `new Response(body, init)` holds: the init's status and headers,
      plus `content-type: text/plain;charset=UTF-8` when a string body comes
      with no content type of its own. */
  function Construct(body: Option<string>, init: ResponseInit): (r: ResponseValue)
    ensures r.body == body && r.status == init.status
    ensures r.headers.Keys == init.headers.Keys + (if body.Some? then {ContentType} else {})
    ensures forall k :: k in init.headers ==> r.headers[k] == init.headers[k]
    ensures body.Some? && ContentType !in init.headers ==> r.headers[ContentType] == TextPlainUtf8
  {
    var h := if body.Some? && ContentType !in init.headers
             then init.headers[ContentType := TextPlainUtf8]
             else init.headers;
    ResponseValue(body, init.status, h)
  }

  /** A `Response` object: its header list can be changed after construction. */
  class Response {
    var body: Option<string>
    var status: int
    var headers: Headers

    function Value(): (v: ResponseValue)
      reads this
    {
      ResponseValue(body, status, headers)
    }

    /** `new Response(body, init)`. */
    constructor (body: Option<string>, init: ResponseInit)
      ensures Value() == Construct(body, init)
    {
      var v := Construct(body, init);
      this.body := v.body;
      this.status := v.status;
      this.headers := v.headers;
    }

    /** A response object holding a value built elsewhere. */
    constructor Of(v: ResponseValue)
      ensures Value() == v
    {
      body := v.body;
      status := v.status;
      headers := v.headers;
    }

    /** `headers.set(name, value)`: adds the header or replaces its value. */
    method SetHeader(name: string, value: string)
      modifies this
      ensures headers == old(headers)[name := value]
      ensures body == old(body) && status == old(status)
    {
      headers := headers[name := value];
    }
  }

  /** A `URLSearchParams` list: ordered name/value pairs. */
  class SearchParams {
    var entries: seq<(string, string)>

    /** The empty query of a URL written without one. */
    constructor ()
      ensures entries == []
    {
      entries := [];
    }

    /** `append(name, value)`: adds a pair at the end, keeping earlier ones. */
    method Append(name: string, value: string)
      modifies this
      ensures entries == old(entries) + [(name, value)]
    {
      entries := entries + [(name, value)];
    }
  }

  /** A reply from an upstream API: its header list, keyed like `Request.headers`,
      and its body text. */
  datatype UpstreamResponse = UpstreamResponse(headers: Headers, text: string)
}
