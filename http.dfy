/** The parts of net/http the asserter touches: a request and a response
    with their method, URL, status, headers and a body that can be read
    once. A body is a value: the bytes a reader yields and, when the reader
    fails after them, its error. `req.Body` and `res.Body` are the one field
    the asserter reassigns. */
module Http {

  import opened Errors
  import opened Text

  newtype byte = x: int | 0 <= x < 256

  /** http.Header: canonical header name to its values, in arrival order. */
  type HeaderFields = map<string, seq<string>>

  /** url.Values: query parameter name to its values. */
  type Values = map<string, seq<string>>

  /** An io.ReadCloser body, or none at all (a nil Body). */
  datatype Body = NilBody | Stream(data: seq<byte>, failure: Option<string>)

  /** ioutil.ReadAll: every byte, or the reader's error. Reading a nil body
      is a nil-pointer panic in Go; here it is the NilBodyPanic error. */
  function ReadAll(b: Body): (r: Result<seq<byte>>)
    ensures r.Ok? <==> b.Stream? && b.failure.None?
    ensures r.Ok? ==> r.value == b.data
  {
    match b
    case NilBody => Err(NilBodyPanic)
    case Stream(data, None) => Ok(data)
    case Stream(_, Some(cause)) => Err(ReadFailed(cause))
  }

  /** What a tee buffer holds once ReadAll has pulled the body through it. */
  function Captured(b: Body): seq<byte> {
    match b
    case NilBody => []
    case Stream(data, _) => data
  }

  /** string(data): each byte as the character of that code. */
  function BytesText(data: seq<byte>): (s: string)
    ensures |s| == |data|
    ensures forall i :: 0 <= i < |data| ==> s[i] as int == data[i] as int
  {
    if data == [] then "" else [(data[0] as int) as char] + BytesText(data[1..])
  }

  /** Header.Get("content-type"): the first value under the canonical name, or "". */
  function ContentType(h: HeaderFields): (v: string)
    ensures "Content-Type" in h && |h["Content-Type"]| > 0 ==> v == h["Content-Type"][0]
    ensures !("Content-Type" in h && |h["Content-Type"]| > 0) ==> v == ""
  {
    if "Content-Type" in h && |h["Content-Type"]| > 0 then h["Content-Type"][0] else ""
  }

  /** URL.String() of a request URL that carries only a path and a raw query. */
  function UrlString(path: string, rawQuery: string): (u: string)
    ensures rawQuery == "" ==> u == path
    ensures rawQuery != "" ==> u == path + "?" + rawQuery
  {
    if rawQuery == "" then path else path + "?" + rawQuery
  }

  /** *http.Request, reduced to what the asserter reads; only the body changes. */
  class Request {
    const verb: string
    const path: string
    const rawQuery: string
    const header: HeaderFields
    /** URL.Query(): the parsed raw query. */
    const query: Values
    var body: Body

    constructor(verb: string, path: string, rawQuery: string, header: HeaderFields, query: Values, body: Body)
      ensures this.verb == verb && this.path == path && this.rawQuery == rawQuery
      ensures this.header == header && this.query == query && this.body == body
    {
      this.verb := verb;
      this.path := path;
      this.rawQuery := rawQuery;
      this.header := header;
      this.query := query;
      this.body := body;
    }
  }

  /** *http.Response, with the request it answers; only the body changes. */
  class Response {
    const statusCode: int
    const header: HeaderFields
    const request: Request
    var body: Body

    constructor(statusCode: int, header: HeaderFields, request: Request, body: Body)
      ensures this.statusCode == statusCode && this.header == header
      ensures this.request == request && this.body == body
    {
      this.statusCode := statusCode;
      this.header := header;
      this.request := request;
      this.body := body;
    }
  }
}
