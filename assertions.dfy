/** The Assertions object: a document bound once, every assertion a method
    on it. The validator and json.Marshal it calls are fields here, set by
    the constructor, as they lie outside the model. */
module Asserter {

  import opened Errors
  import opened Document
  import Extractor
  import opened Http
  import opened Checks

  class Assertions {
    const doc: Swagger
    const validator: Validator
    const marshal: Marshal

    /** New(doc). */
    constructor(doc: Swagger, validator: Validator, marshal: Marshal)
      ensures this.doc == doc && this.validator == validator && this.marshal == marshal
    {
      this.doc := doc;
      this.validator := validator;
      this.marshal := marshal;
    }

    method RequestMediaType(mediaType: string, path: string, verb: string) returns (o: Outcome)
      ensures o == RequestMediaTypeCheck(doc, mediaType, path, verb)
    {
      var types := Extractor.RequestMediaTypes(doc, path, verb);
      o := JudgeMediaType(types, mediaType);
    }

    method ResponseMediaType(mediaType: string, path: string, verb: string) returns (o: Outcome)
      ensures o == ResponseMediaTypeCheck(doc, mediaType, path, verb)
    {
      var types := Extractor.ResponseMediaTypes(doc, path, verb);
      o := JudgeMediaType(types, mediaType);
    }

    method RequestHeaders(header: HeaderFields, path: string, verb: string) returns (o: Outcome)
      ensures o == RequestHeadersCheck(doc, validator, marshal, header, path, verb)
    {
      var schema := Extractor.RequestHeaders(doc, path, verb);
      if schema.Err? {
        return Fail(schema.error);
      }
      var headers := FlattenHeader(header);
      o := JudgeSchema(schema, StringMap(headers), "request header", validator, marshal);
    }

    method ResponseHeaders(header: HeaderFields, path: string, verb: string, status: int) returns (o: Outcome)
      ensures o == ResponseHeadersCheck(doc, validator, marshal, header, path, verb, status)
    {
      var schema := Extractor.ResponseHeaders(doc, path, verb, status);
      if schema.Err? {
        return Fail(schema.error);
      }
      var headers := FlattenHeader(header);
      o := JudgeSchema(schema, StringMap(headers), "response header", validator, marshal);
    }

    method RequestQuery(query: Values, path: string, verb: string) returns (o: Outcome)
      ensures o == RequestQueryCheck(doc, validator, marshal, query, path, verb)
    {
      var schema := Extractor.RequestQuery(doc, path, verb);
      o := JudgeSchema(schema, Lists(query), "request query", validator, marshal);
    }

    /** `pulled` is what the read took from `body`. */
    method RequestBody(body: Body, path: string, verb: string) returns (o: Outcome, pulled: seq<byte>)
      ensures o == RequestBodyCheck(doc, validator, body, path, verb)
      ensures Stream(pulled, None) == BodyLeft(Extractor.RequestBodySchema(doc, path, verb), body)
    {
      var schema := Extractor.RequestBody(doc, path, verb);
      o, pulled := JudgeBody(schema, body, "request body", validator);
    }

    method ResponseBody(body: Body, path: string, verb: string, status: int) returns (o: Outcome, pulled: seq<byte>)
      ensures o == ResponseBodyCheck(doc, validator, body, path, verb, status)
      ensures Stream(pulled, None) == BodyLeft(Extractor.ResponseBodySchema(doc, path, verb, status), body)
    {
      var schema := Extractor.ResponseBodySchema(doc, path, verb, status);
      o, pulled := JudgeBody(schema, body, "response body", validator);
    }

    /** Request: the verdict, and the request's body replaced by the buffer
        the tee filled once the body step runs. */
    method Request(req: Http.Request) returns (o: Outcome)
      modifies req
      ensures (o, req.body)
              == RequestOutcome(doc, validator, marshal, req.verb, UrlString(req.path, req.rawQuery),
                                req.header, req.query, old(req.body))
    {
      var path := UrlString(req.path, req.rawQuery);
      var verb := req.verb;
      o := RequestHeaders(req.header, path, verb);
      if o.Fail? {
        return;
      }
      o := RequestMediaType(ContentType(req.header), path, verb);
      if o.Fail? && req.body != NilBody {
        return;
      }
      o := RequestQuery(req.query, path, verb);
      if o.Fail? {
        return;
      }
      var reader := req.body;
      var pulled;
      o, pulled := RequestBody(reader, path, verb);
      req.body := Stream(pulled, None);
      if o == Fail(BodyNotFound) {
        o := Pass;
      }
    }

    /** Response: as Request, on the response and the path of its request;
        the body step's error is returned as it is. */
    method Response(res: Http.Response) returns (o: Outcome)
      modifies res
      ensures (o, res.body)
              == ResponseOutcome(doc, validator, marshal, res.request.verb, res.request.path,
                                 res.statusCode, res.header, old(res.body))
    {
      var path := res.request.path;
      var verb := res.request.verb;
      var status := res.statusCode;
      o := ResponseHeaders(res.header, path, verb, status);
      if o.Fail? {
        return;
      }
      o := ResponseMediaType(ContentType(res.header), path, verb);
      if o.Fail? && res.body != NilBody {
        return;
      }
      var reader := res.body;
      var pulled;
      o, pulled := ResponseBody(reader, path, verb, status);
      res.body := Stream(pulled, None);
    }
  }
}
