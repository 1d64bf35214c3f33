/** The free-function form of the assertions: the same checks, each taking
    the document as an argument instead of reading it from an Assertions
    value. The validator and json.Marshal are arguments as well. */
module Assert {

  import opened Errors
  import opened Document
  import Extractor
  import Http
  import opened Checks

  method RequestMediaType(mediaType: string, doc: Swagger, path: string, verb: string) returns (o: Outcome)
    ensures o == RequestMediaTypeCheck(doc, mediaType, path, verb)
  {
    var types := Extractor.RequestMediaTypes(doc, path, verb);
    o := JudgeMediaType(types, mediaType);
  }

  method ResponseMediaType(mediaType: string, doc: Swagger, path: string, verb: string) returns (o: Outcome)
    ensures o == ResponseMediaTypeCheck(doc, mediaType, path, verb)
  {
    var types := Extractor.ResponseMediaTypes(doc, path, verb);
    o := JudgeMediaType(types, mediaType);
  }

  method RequestHeaders(header: Http.HeaderFields, doc: Swagger, validator: Validator, marshal: Marshal,
                        path: string, verb: string) returns (o: Outcome)
    ensures o == RequestHeadersCheck(doc, validator, marshal, header, path, verb)
  {
    var schema := Extractor.RequestHeaders(doc, path, verb);
    if schema.Err? {
      return Fail(schema.error);
    }
    var headers := FlattenHeader(header);
    o := JudgeSchema(schema, StringMap(headers), "request header", validator, marshal);
  }

  method ResponseHeaders(header: Http.HeaderFields, doc: Swagger, validator: Validator, marshal: Marshal,
                         path: string, verb: string, status: int) returns (o: Outcome)
    ensures o == ResponseHeadersCheck(doc, validator, marshal, header, path, verb, status)
  {
    var schema := Extractor.ResponseHeaders(doc, path, verb, status);
    if schema.Err? {
      return Fail(schema.error);
    }
    var headers := FlattenHeader(header);
    o := JudgeSchema(schema, StringMap(headers), "response header", validator, marshal);
  }

  method RequestQuery(query: Http.Values, doc: Swagger, validator: Validator, marshal: Marshal,
                      path: string, verb: string) returns (o: Outcome)
    ensures o == RequestQueryCheck(doc, validator, marshal, query, path, verb)
  {
    var schema := Extractor.RequestQuery(doc, path, verb);
    o := JudgeSchema(schema, Lists(query), "request query", validator, marshal);
  }

  /** `pulled` is what the read took from `body`. */
  method RequestBody(body: Http.Body, doc: Swagger, validator: Validator, path: string, verb: string)
    returns (o: Outcome, pulled: seq<Http.byte>)
    ensures o == RequestBodyCheck(doc, validator, body, path, verb)
    ensures Http.Stream(pulled, None) == BodyLeft(Extractor.RequestBodySchema(doc, path, verb), body)
  {
    var schema := Extractor.RequestBody(doc, path, verb);
    o, pulled := JudgeBody(schema, body, "request body", validator);
  }

  method ResponseBody(body: Http.Body, doc: Swagger, validator: Validator, path: string, verb: string, status: int)
    returns (o: Outcome, pulled: seq<Http.byte>)
    ensures o == ResponseBodyCheck(doc, validator, body, path, verb, status)
    ensures Http.Stream(pulled, None) == BodyLeft(Extractor.ResponseBodySchema(doc, path, verb, status), body)
  {
    var schema := Extractor.ResponseBodySchema(doc, path, verb, status);
    o, pulled := JudgeBody(schema, body, "response body", validator);
  }

  method Request(req: Http.Request, doc: Swagger, validator: Validator, marshal: Marshal) returns (o: Outcome)
    modifies req
    ensures (o, req.body)
            == RequestOutcome(doc, validator, marshal, req.verb, Http.UrlString(req.path, req.rawQuery),
                              req.header, req.query, old(req.body))
  {
    var path := Http.UrlString(req.path, req.rawQuery);
    var verb := req.verb;
    o := RequestHeaders(req.header, doc, validator, marshal, path, verb);
    if o.Fail? {
      return;
    }
    o := RequestMediaType(Http.ContentType(req.header), doc, path, verb);
    if o.Fail? && req.body != Http.NilBody {
      return;
    }
    o := RequestQuery(req.query, doc, validator, marshal, path, verb);
    if o.Fail? {
      return;
    }
    var reader := req.body;
    var pulled;
    o, pulled := RequestBody(reader, doc, validator, path, verb);
    req.body := Http.Stream(pulled, None);
    if o == Fail(BodyNotFound) {
      o := Pass;
    }
  }

  method Response(res: Http.Response, doc: Swagger, validator: Validator, marshal: Marshal) returns (o: Outcome)
    modifies res
    ensures (o, res.body)
            == ResponseOutcome(doc, validator, marshal, res.request.verb, res.request.path,
                               res.statusCode, res.header, old(res.body))
  {
    var path := res.request.path;
    var verb := res.request.verb;
    var status := res.statusCode;
    o := ResponseHeaders(res.header, doc, validator, marshal, path, verb, status);
    if o.Fail? {
      return;
    }
    o := ResponseMediaType(Http.ContentType(res.header), doc, path, verb);
    if o.Fail? && res.body != Http.NilBody {
      return;
    }
    var reader := res.body;
    var pulled;
    o, pulled := ResponseBody(reader, doc, validator, path, verb, status);
    res.body := Http.Stream(pulled, None);
  }
}
