/** What each assertion decides, as functions of the document, the input
    and two things outside the model: the JSON-schema validator and
    json.Marshal, both passed in as function values. The assertion methods
    of assertions.dfy and assert.dfy are proved equal to these functions;
    the lemmas at the end are about the composite Request and Response
    checks. */
module Checks {

  import opened Errors
  import opened Text
  import opened Document
  import opened Extractor
  import opened Http

  // ---------------------------------------------------------------------------
  // The validator and the marshaller

  /** The data handed to the validator: a flattened header map, the query
      values, or the raw body bytes. */
  datatype Value =
    | StringMap(strings: map<string, string>)
    | Lists(lists: Values)
    | RawBytes(bytes: seq<byte>)

  /** The schema handed to the validator: the descriptor map of headers or
      query, or the body schema (which a body parameter may leave nil). */
  datatype SchemaInput =
    | DescriptorMap(descriptors: Descriptors)
    | BodySchema(schema: Option<Schema>)

  /** One entry of gojsonschema's Result.Errors(). */
  datatype ResultError = ResultError(field: string, description: string)

  /** gojsonschema.Validate: an error when schema or data cannot be loaded,
      otherwise the list of violations (empty means valid). */
  datatype Validation = LoadFailed(cause: string) | Validated(errors: seq<ResultError>)

  type Validator = (SchemaInput, Value) -> Validation

  /** json.Marshal of the checked value. */
  datatype Serialized = Json(text: string) | Unmarshallable(cause: string)

  type Marshal = Value -> Serialized

  // ---------------------------------------------------------------------------
  // Messages

  /** failf: the assertion error. Its message is "failed asserting that " + detail. */
  function Failf(detail: string): (e: Error)
    ensures e.AssertionFailed? && e.detail == detail
    ensures e.Message() == "failed asserting that " + detail
  {
    AssertionFailed(detail)
  }

  function AllowedDetail(mediaType: string, types: seq<string>): string {
    "'" + mediaType + "' is an allowed media type (" + Join(types, ", ") + ")"
  }

  /** The descriptions of the violations, in order. */
  function Descriptions(errors: seq<ResultError>): (ds: seq<string>)
    ensures |ds| == |errors|
    ensures forall i :: 0 <= i < |errors| ==> ds[i] == errors[i].description
    decreases |errors|
  {
    if errors == [] then []
    else Descriptions(errors[..|errors| - 1]) + [errors[|errors| - 1].description]
  }

  /** `subject` is "request header", "response header", "request query",
      "request body" or "response body". */
  function ValidDetail(shown: string, subject: string, errors: seq<ResultError>): string {
    "'" + shown + "' is a valid " + subject + " (" + Join(Descriptions(errors), ", ") + ")"
  }

  /** The flattened header map: each name to its values joined by ", ". */
  function Flatten(header: HeaderFields): (flat: map<string, string>)
    ensures flat.Keys == header.Keys
    ensures forall k :: k in header ==> flat[k] == Join(header[k], ", ")
  {
    map k | k in header :: Join(header[k], ", ")
  }

  // ---------------------------------------------------------------------------
  // One assertion each

  /** RequestMediaType / ResponseMediaType once the list is known. */
  function MediaTypeOutcome(types: Result<seq<string>>, mediaType: string): (o: Outcome)
    ensures o.Fail? ==> (types.Err? && o.error == types.error) || (types.Ok? && o.error.AssertionFailed?)
  {
    match types
    case Err(e) => Fail(e)
    case Ok(ts) => if mediaType in ts then Pass else Fail(Failf(AllowedDetail(mediaType, ts)))
  }

  /** RequestHeaders / ResponseHeaders / RequestQuery once the descriptors are known. */
  function SchemaOutcome(schema: Result<Descriptors>, value: Value, subject: string,
                         validator: Validator, marshal: Marshal): (o: Outcome)
    ensures o.Fail? ==> || (schema.Err? && o.error == schema.error)
                        || (schema.Ok? && (o.error.AssertionFailed? || o.error.ValidatorUnavailable? || o.error.MarshalFailed?))
  {
    match schema
    case Err(e) => Fail(e)
    case Ok(d) =>
      match validator(DescriptorMap(d), value)
      case LoadFailed(cause) => Fail(ValidatorUnavailable(cause))
      case Validated(errors) =>
        if errors == [] then Pass
        else
          match marshal(value)
          case Unmarshallable(cause) => Fail(MarshalFailed(cause))
          case Json(text) => Fail(Failf(ValidDetail(text, subject, errors)))
  }

  /** RequestBody / ResponseBody once the schema is known: read, then validate
      the bytes; a violation shows the bytes as text. */
  function BodyOutcome(schema: Result<Option<Schema>>, body: Body, subject: string,
                       validator: Validator): (o: Outcome)
    ensures o.Fail? ==> || (schema.Err? && o.error == schema.error)
                        || (schema.Ok? && (|| o.error.AssertionFailed? || o.error.ValidatorUnavailable?
                                           || o.error.ReadFailed? || o.error == NilBodyPanic))
  {
    match schema
    case Err(e) => Fail(e)
    case Ok(sc) =>
      match ReadAll(body)
      case Err(e) => Fail(e)
      case Ok(data) =>
        match validator(BodySchema(sc), RawBytes(data))
        case LoadFailed(cause) => Fail(ValidatorUnavailable(cause))
        case Validated(errors) =>
          if errors == [] then Pass else Fail(Failf(ValidDetail(BytesText(data), subject, errors)))
  }

  /** The replacement body after the tee: what the read pulled through, which
      is nothing when the schema lookup failed before any read. */
  function BodyLeft(schema: Result<Option<Schema>>, body: Body): (left: Body)
    ensures left.Stream? && left.failure.None?
    ensures left.data == [] || left.data == Captured(body)
  {
    if schema.Err? then Stream([], None) else Stream(Captured(body), None)
  }

  function RequestMediaTypeCheck(doc: Swagger, mediaType: string, path: string, verb: string): Outcome {
    MediaTypeOutcome(RequestMediaTypes(doc, path, verb), mediaType)
  }

  function ResponseMediaTypeCheck(doc: Swagger, mediaType: string, path: string, verb: string): Outcome {
    MediaTypeOutcome(ResponseMediaTypes(doc, path, verb), mediaType)
  }

  function RequestHeadersCheck(doc: Swagger, validator: Validator, marshal: Marshal,
                               header: HeaderFields, path: string, verb: string): Outcome
  {
    SchemaOutcome(RequestHeaderSchema(doc, path, verb), StringMap(Flatten(header)),
                  "request header", validator, marshal)
  }

  function ResponseHeadersCheck(doc: Swagger, validator: Validator, marshal: Marshal,
                                header: HeaderFields, path: string, verb: string, status: int): Outcome
  {
    SchemaOutcome(ResponseHeaderSchema(doc, path, verb, status), StringMap(Flatten(header)),
                  "response header", validator, marshal)
  }

  function RequestQueryCheck(doc: Swagger, validator: Validator, marshal: Marshal,
                             query: Values, path: string, verb: string): Outcome
  {
    SchemaOutcome(RequestQuerySchema(doc, path, verb), Lists(query), "request query", validator, marshal)
  }

  function RequestBodyCheck(doc: Swagger, validator: Validator, body: Body, path: string, verb: string): Outcome {
    BodyOutcome(RequestBodySchema(doc, path, verb), body, "request body", validator)
  }

  function ResponseBodyCheck(doc: Swagger, validator: Validator, body: Body,
                             path: string, verb: string, status: int): Outcome
  {
    BodyOutcome(ResponseBodySchema(doc, path, verb, status), body, "response body", validator)
  }

  // ---------------------------------------------------------------------------
  // The composite checks: each returns the verdict and the body left in place

  /** Request after the media-type step: the query, then the body through
      the tee. A missing body parameter is not a failure here. */
  function RequestTail(doc: Swagger, validator: Validator, marshal: Marshal, verb: string,
                       url: string, query: Values, body: Body): (r: (Outcome, Body))
    ensures r.0 != Fail(BodyNotFound)
    ensures r.1 == body || (r.1.Stream? && r.1.failure.None?)
  {
    var q := RequestQueryCheck(doc, validator, marshal, query, url, verb);
    if q.Fail? then (q, body)
    else
      var o := RequestBodyCheck(doc, validator, body, url, verb);
      (if o == Fail(BodyNotFound) then Pass else o, BodyLeft(RequestBodySchema(doc, url, verb), body))
  }

  /** Request: headers, then the media type (which only fails a request that
      has a body), then RequestTail. */
  function RequestOutcome(doc: Swagger, validator: Validator, marshal: Marshal, verb: string,
                          url: string, header: HeaderFields, query: Values, body: Body): (r: (Outcome, Body))
    ensures r.0 != Fail(BodyNotFound)
    ensures r.1 == body || (r.1.Stream? && r.1.failure.None?)
  {
    var h := RequestHeadersCheck(doc, validator, marshal, header, url, verb);
    if h.Fail? then (h, body)
    else
      var m := RequestMediaTypeCheck(doc, ContentType(header), url, verb);
      if m.Fail? && body != NilBody then (m, body)
      else RequestTail(doc, validator, marshal, verb, url, query, body)
  }

  /** Response: headers, then the media type under the same rule, then the
      body through the tee, whose error is returned as it is. */
  function ResponseOutcome(doc: Swagger, validator: Validator, marshal: Marshal, verb: string,
                           path: string, status: int, header: HeaderFields, body: Body): (r: (Outcome, Body))
    ensures r.1 == body || (r.1.Stream? && r.1.failure.None?)
  {
    var h := ResponseHeadersCheck(doc, validator, marshal, header, path, verb, status);
    if h.Fail? then (h, body)
    else
      var m := ResponseMediaTypeCheck(doc, ContentType(header), path, verb);
      if m.Fail? && body != NilBody then (m, body)
      else
        (ResponseBodyCheck(doc, validator, body, path, verb, status),
         BodyLeft(ResponseBodySchema(doc, path, verb, status), body))
  }

  // ---------------------------------------------------------------------------
  // The loops the assertions share

  /** The membership loop of RequestMediaType / ResponseMediaType. */
  method Allowed(types: seq<string>, mediaType: string) returns (found: bool)
    ensures found <==> mediaType in types
  {
    for i := 0 to |types|
      invariant mediaType !in types[..i]
    {
      if types[i] == mediaType {
        return true;
      }
      assert types[..i + 1] == types[..i] + [types[i]];
    }
    assert types[..|types|] == types;
    return false;
  }

  /** The header-flattening loop: `headers[k] = strings.Join(v, ", ")` for each entry. */
  method FlattenHeader(header: HeaderFields) returns (flat: map<string, string>)
    ensures flat == Flatten(header)
  {
    flat := map[];
    var rest := header.Keys;
    while rest != {}
      invariant rest <= header.Keys
      invariant flat.Keys == header.Keys - rest
      invariant forall k :: k in flat ==> flat[k] == Join(header[k], ", ")
      decreases |rest|
    {
      var k :| k in rest;
      flat := flat[k := Join(header[k], ", ")];
      rest := rest - {k};
    }
  }

  /** The loop collecting `v.Description()` of each violation. */
  method CollectDescriptions(errors: seq<ResultError>) returns (ds: seq<string>)
    ensures ds == Descriptions(errors)
  {
    ds := [];
    for i := 0 to |errors|
      invariant ds == Descriptions(errors[..i])
    {
      assert errors[..i + 1][..i] == errors[..i];
      ds := ds + [errors[i].description];
    }
    assert errors[..|errors|] == errors;
  }

  /** The common tail of RequestMediaType and ResponseMediaType. */
  method JudgeMediaType(types: Result<seq<string>>, mediaType: string) returns (o: Outcome)
    ensures o == MediaTypeOutcome(types, mediaType)
  {
    if types.Err? {
      return Fail(types.error);
    }
    var found := Allowed(types.value, mediaType);
    if found {
      return Pass;
    }
    return Fail(Failf(AllowedDetail(mediaType, types.value)));
  }

  /** The common tail of RequestHeaders, ResponseHeaders and RequestQuery:
      validate, and on violations marshal the value and list the descriptions. */
  method JudgeSchema(schema: Result<Descriptors>, value: Value, subject: string,
                     validator: Validator, marshal: Marshal) returns (o: Outcome)
    ensures o == SchemaOutcome(schema, value, subject, validator, marshal)
  {
    if schema.Err? {
      return Fail(schema.error);
    }
    var result := validator(DescriptorMap(schema.value), value);
    if result.LoadFailed? {
      return Fail(ValidatorUnavailable(result.cause));
    }
    if result.errors == [] {
      return Pass;
    }
    var data := marshal(value);
    if data.Unmarshallable? {
      return Fail(MarshalFailed(data.cause));
    }
    var messages := CollectDescriptions(result.errors);
    return Fail(Failf("'" + data.text + "' is a valid " + subject + " (" + Join(messages, ", ") + ")"));
  }

  /** The common tail of RequestBody and ResponseBody: read the body, then
      validate the bytes. `pulled` is what the read took from the body, which
      is what a tee in front of it copies. */
  method JudgeBody(schema: Result<Option<Schema>>, body: Body, subject: string, validator: Validator)
    returns (o: Outcome, pulled: seq<byte>)
    ensures o == BodyOutcome(schema, body, subject, validator)
    ensures Stream(pulled, None) == BodyLeft(schema, body)
  {
    if schema.Err? {
      return Fail(schema.error), [];
    }
    pulled := Captured(body);
    var data := ReadAll(body);
    if data.Err? {
      return Fail(data.error), pulled;
    }
    var result := validator(BodySchema(schema.value), RawBytes(data.value));
    if result.LoadFailed? {
      return Fail(ValidatorUnavailable(result.cause)), pulled;
    }
    if result.errors == [] {
      return Pass, pulled;
    }
    var messages := CollectDescriptions(result.errors);
    o := Fail(Failf("'" + BytesText(data.value) + "' is a valid " + subject + " (" + Join(messages, ", ") + ")"));
  }

  // ---------------------------------------------------------------------------
  // Properties of the single assertions

  /** A media type passes exactly when it is in the resolved list; otherwise
      the message names the offending type and the whole list. */
  lemma MediaTypeVerdict(types: Result<seq<string>>, mediaType: string)
    ensures MediaTypeOutcome(types, mediaType) == Pass <==> types.Ok? && mediaType in types.value
    ensures types.Err? ==> MediaTypeOutcome(types, mediaType) == Fail(types.error)
    ensures types.Ok? && mediaType !in types.value ==>
              MediaTypeOutcome(types, mediaType).error.Message()
              == "failed asserting that '" + mediaType + "' is an allowed media type (" + Join(types.value, ", ") + ")"
  {
    if types.Ok? && mediaType !in types.value {
      var listed := Join(types.value, ", ");
      var detail := AllowedDetail(mediaType, types.value);
      assert MediaTypeOutcome(types, mediaType).error == Failf(detail);
      PrefixedDetail(mediaType, listed);
    }
  }

  lemma PrefixedDetail(mediaType: string, listed: string)
    ensures "failed asserting that " + ("'" + mediaType + "' is an allowed media type (" + listed + ")")
            == "failed asserting that '" + mediaType + "' is an allowed media type (" + listed + ")"
  {
    assert "failed asserting that " + "'" == "failed asserting that '";
  }

  /** A schema check passes exactly when the descriptors resolve and the
      validator reports no violation; a violation's message is built from
      the marshalled value. */
  lemma SchemaVerdict(schema: Result<Descriptors>, value: Value, subject: string,
                      validator: Validator, marshal: Marshal)
    ensures SchemaOutcome(schema, value, subject, validator, marshal) == Pass <==>
              schema.Ok? && validator(DescriptorMap(schema.value), value) == Validated([])
    ensures schema.Err? ==> SchemaOutcome(schema, value, subject, validator, marshal) == Fail(schema.error)
    ensures schema.Ok? && validator(DescriptorMap(schema.value), value).LoadFailed? ==>
              SchemaOutcome(schema, value, subject, validator, marshal).error.Message()
              == validator(DescriptorMap(schema.value), value).cause
    ensures var o := SchemaOutcome(schema, value, subject, validator, marshal);
            schema.Ok? && o.Fail? && o.error.AssertionFailed? ==>
              && validator(DescriptorMap(schema.value), value).Validated?
              && marshal(value).Json?
              && o.error.detail == ValidDetail(marshal(value).text, subject, validator(DescriptorMap(schema.value), value).errors)
  {
  }

  /** A body check passes exactly when the schema resolves, the read
      succeeds and the validator accepts the bytes; a read error is
      returned as it is, and a violation shows the bytes read. */
  lemma BodyVerdict(schema: Result<Option<Schema>>, body: Body, subject: string, validator: Validator)
    ensures BodyOutcome(schema, body, subject, validator) == Pass <==>
              && schema.Ok? && body.Stream? && body.failure.None?
              && validator(BodySchema(schema.value), RawBytes(body.data)) == Validated([])
    ensures schema.Err? ==> BodyOutcome(schema, body, subject, validator) == Fail(schema.error)
    ensures schema.Ok? && ReadAll(body).Err? ==> BodyOutcome(schema, body, subject, validator) == Fail(ReadAll(body).error)
    ensures schema.Ok? && body.Stream? && body.failure.None? &&
            validator(BodySchema(schema.value), RawBytes(body.data)).LoadFailed? ==>
              BodyOutcome(schema, body, subject, validator)
              == Fail(ValidatorUnavailable(validator(BodySchema(schema.value), RawBytes(body.data)).cause))
    ensures schema.Ok? && body == NilBody ==> BodyOutcome(schema, body, subject, validator) == Fail(NilBodyPanic)
    ensures var o := BodyOutcome(schema, body, subject, validator);
            schema.Ok? && o.Fail? && o.error.AssertionFailed? ==>
              && body.Stream? && body.failure.None?
              && validator(BodySchema(schema.value), RawBytes(body.data)).Validated?
              && o.error.detail == ValidDetail(BytesText(body.data), subject, validator(BodySchema(schema.value), RawBytes(body.data)).errors)
  {
  }

  // ---------------------------------------------------------------------------
  // Properties of Request and Response

  /** Whether Request gets past the headers and the media type to RequestTail. */
  predicate ReachesTail(doc: Swagger, validator: Validator, marshal: Marshal, verb: string,
                        url: string, header: HeaderFields, body: Body)
  {
    && RequestHeadersCheck(doc, validator, marshal, header, url, verb) == Pass
    && (RequestMediaTypeCheck(doc, ContentType(header), url, verb) == Pass || body == NilBody)
  }

  /** Request fails fast: the first failing step decides, and the body is
      untouched unless the body step runs. */
  lemma RequestSteps(doc: Swagger, validator: Validator, marshal: Marshal, verb: string,
                     url: string, header: HeaderFields, query: Values, body: Body)
    ensures var h := RequestHeadersCheck(doc, validator, marshal, header, url, verb);
            h.Fail? ==> RequestOutcome(doc, validator, marshal, verb, url, header, query, body) == (h, body)
    ensures var m := RequestMediaTypeCheck(doc, ContentType(header), url, verb);
            RequestHeadersCheck(doc, validator, marshal, header, url, verb) == Pass && m.Fail? && body != NilBody ==>
              RequestOutcome(doc, validator, marshal, verb, url, header, query, body) == (m, body)
    ensures ReachesTail(doc, validator, marshal, verb, url, header, body) ==>
              RequestOutcome(doc, validator, marshal, verb, url, header, query, body)
              == RequestTail(doc, validator, marshal, verb, url, query, body)
    ensures !ReachesTail(doc, validator, marshal, verb, url, header, body) ==>
              RequestOutcome(doc, validator, marshal, verb, url, header, query, body).1 == body
  {
  }

  /** Response runs headers, then the media type (which only fails a response
      with a body); either failure is returned with the body untouched,
      before the tee replaces it. */
  lemma ResponseSteps(doc: Swagger, validator: Validator, marshal: Marshal, verb: string,
                      path: string, status: int, header: HeaderFields, body: Body)
    ensures var h := ResponseHeadersCheck(doc, validator, marshal, header, path, verb, status);
            h.Fail? ==> ResponseOutcome(doc, validator, marshal, verb, path, status, header, body) == (h, body)
    ensures var m := ResponseMediaTypeCheck(doc, ContentType(header), path, verb);
            ResponseHeadersCheck(doc, validator, marshal, header, path, verb, status) == Pass && m.Fail? && body != NilBody ==>
              ResponseOutcome(doc, validator, marshal, verb, path, status, header, body) == (m, body)
    ensures var m := ResponseMediaTypeCheck(doc, ContentType(header), path, verb);
            ResponseHeadersCheck(doc, validator, marshal, header, path, verb, status) == Pass && (m == Pass || body == NilBody) ==>
              ResponseOutcome(doc, validator, marshal, verb, path, status, header, body)
              == (ResponseBodyCheck(doc, validator, body, path, verb, status),
                  BodyLeft(ResponseBodySchema(doc, path, verb, status), body))
  {
  }

  /** A request without a body is never failed for its media type: the outcome
      is that of the remaining steps whatever the Content-Type says. */
  lemma NoBodyIgnoresMediaType(doc: Swagger, validator: Validator, marshal: Marshal, verb: string,
                               url: string, header: HeaderFields, query: Values)
    requires RequestHeadersCheck(doc, validator, marshal, header, url, verb) == Pass
    ensures RequestOutcome(doc, validator, marshal, verb, url, header, query, NilBody)
            == RequestTail(doc, validator, marshal, verb, url, query, NilBody)
  {
  }

  /** What happens to the body once the body step runs. A body read to its
      end comes back whole; a failing read leaves the bytes before the
      failure; a schema lookup that fails (a path without a body parameter
      included) leaves an empty body although the request may pass. */
  lemma RequestBodyAfter(doc: Swagger, validator: Validator, marshal: Marshal, verb: string,
                         url: string, query: Values, body: Body)
    requires RequestQueryCheck(doc, validator, marshal, query, url, verb) == Pass
    ensures var (o, left) := RequestTail(doc, validator, marshal, verb, url, query, body);
            && (RequestBodySchema(doc, url, verb).Ok? && body.Stream? ==> left == Stream(body.data, None))
            && (RequestBodySchema(doc, url, verb).Err? ==> left == Stream([], None))
            && (RequestBodySchema(doc, url, verb) == Err(BodyNotFound) ==> o == Pass)
  {
  }

  /** A body the reader yields without error is kept, byte for byte, on
      every path through Request. */
  lemma RequestKeepsReadableBody(doc: Swagger, validator: Validator, marshal: Marshal, verb: string,
                                 url: string, header: HeaderFields, query: Values, data: seq<byte>)
    requires RequestBodySchema(doc, url, verb).Ok?
    ensures RequestOutcome(doc, validator, marshal, verb, url, header, query, Stream(data, None)).1
            == Stream(data, None)
  {
  }

  /** Asserting a request again on the body the first call left gives the
      same verdict and the same body. */
  lemma RequestIdempotent(doc: Swagger, validator: Validator, marshal: Marshal, verb: string,
                          url: string, header: HeaderFields, query: Values, data: seq<byte>)
    ensures var first := RequestOutcome(doc, validator, marshal, verb, url, header, query, Stream(data, None));
            RequestOutcome(doc, validator, marshal, verb, url, header, query, first.1) == first
  {
    var first := RequestOutcome(doc, validator, marshal, verb, url, header, query, Stream(data, None));
    if ReachesTail(doc, validator, marshal, verb, url, header, Stream(data, None))
       && RequestQueryCheck(doc, validator, marshal, query, url, verb) == Pass
    {
      if RequestBodySchema(doc, url, verb).Err? {
        assert first.1 == Stream([], None);
        assert RequestOutcome(doc, validator, marshal, verb, url, header, query, first.1).0 == first.0;
      }
    }
  }

  /** Request is not idempotent on a nil body. With no body parameter and a
      Content-Type the operation does not declare, the first call passes (the
      media-type failure is skipped for a nil body) but leaves an empty,
      non-nil buffer, on which the second call fails at the media-type step. */
  lemma NilBodyNotIdempotent(doc: Swagger, validator: Validator, marshal: Marshal, verb: string,
                             url: string, header: HeaderFields, query: Values)
    requires RequestHeadersCheck(doc, validator, marshal, header, url, verb) == Pass
    requires RequestMediaTypeCheck(doc, ContentType(header), url, verb).Fail?
    requires RequestQueryCheck(doc, validator, marshal, query, url, verb) == Pass
    requires RequestBodySchema(doc, url, verb) == Err(BodyNotFound)
    ensures var first := RequestOutcome(doc, validator, marshal, verb, url, header, query, NilBody);
            && first == (Pass, Stream([], None))
            && RequestOutcome(doc, validator, marshal, verb, url, header, query, first.1)
               == (RequestMediaTypeCheck(doc, ContentType(header), url, verb), Stream([], None))
  {
  }

  /** Request is not idempotent on a failing read either: the first call
      returns the read error, the second validates the bytes read before it. */
  lemma FailingReadNotIdempotent(doc: Swagger, validator: Validator, marshal: Marshal, verb: string,
                                 url: string, header: HeaderFields, query: Values,
                                 data: seq<byte>, cause: string)
    requires ReachesTail(doc, validator, marshal, verb, url, header, Stream(data, Some(cause)))
    requires RequestQueryCheck(doc, validator, marshal, query, url, verb) == Pass
    requires RequestBodySchema(doc, url, verb).Ok?
    ensures var first := RequestOutcome(doc, validator, marshal, verb, url, header, query, Stream(data, Some(cause)));
            && first == (Fail(ReadFailed(cause)), Stream(data, None))
            && RequestOutcome(doc, validator, marshal, verb, url, header, query, first.1)
               == (RequestBodyCheck(doc, validator, Stream(data, None), url, verb), Stream(data, None))
  {
  }

  /** Request and Response differ on a missing body schema: Request passes,
      Response fails with ErrBodyNotFound. */
  lemma BodyNotFoundVerdicts(doc: Swagger, validator: Validator, marshal: Marshal, verb: string,
                             url: string, status: int, header: HeaderFields, query: Values, body: Body)
    ensures ReachesTail(doc, validator, marshal, verb, url, header, body)
            && RequestQueryCheck(doc, validator, marshal, query, url, verb) == Pass
            && RequestBodySchema(doc, url, verb) == Err(BodyNotFound) ==>
              RequestOutcome(doc, validator, marshal, verb, url, header, query, body) == (Pass, Stream([], None))
    ensures ResponseHeadersCheck(doc, validator, marshal, header, url, verb, status) == Pass
            && ResponseMediaTypeCheck(doc, ContentType(header), url, verb) == Pass
            && ResponseBodySchema(doc, url, verb, status) == Err(BodyNotFound) ==>
              ResponseOutcome(doc, validator, marshal, verb, url, status, header, body) == (Fail(BodyNotFound), Stream([], None))
  {
  }

  /** Response after the headers and the media type: the body verdict, and
      the body kept whole when it was read to its end. */
  lemma ResponseBodyAfter(doc: Swagger, validator: Validator, marshal: Marshal, verb: string,
                          path: string, status: int, header: HeaderFields, body: Body)
    requires ResponseHeadersCheck(doc, validator, marshal, header, path, verb, status) == Pass
    requires ResponseMediaTypeCheck(doc, ContentType(header), path, verb) == Pass || body == NilBody
    ensures var (o, left) := ResponseOutcome(doc, validator, marshal, verb, path, status, header, body);
            && o == ResponseBodyCheck(doc, validator, body, path, verb, status)
            && (ResponseBodySchema(doc, path, verb, status).Ok? && body.Stream? ==> left == Stream(body.data, None))
            && (ResponseBodySchema(doc, path, verb, status).Err? ==> left == Stream([], None))
  {
  }

  /** A URL that matches no declared path fails Request and Response at
      their first step with the matcher's error, body untouched. */
  lemma UnmatchedFailsFirst(doc: Swagger, validator: Validator, marshal: Marshal, verb: string,
                            url: string, status: int, header: HeaderFields, query: Values, body: Body)
    requires PathKey(doc, url).Err?
    ensures RequestOutcome(doc, validator, marshal, verb, url, header, query, body) == (Fail(PathKey(doc, url).error), body)
    ensures ResponseOutcome(doc, validator, marshal, verb, url, status, header, body) == (Fail(PathKey(doc, url).error), body)
  {
    UnmatchedUriFailsEverywhere(doc, url, verb, Consumes, status);
  }

  /** Request matches the whole URL, query string included, against the
      templates: a request with a query fails at its first step unless some
      declared path spells out a '?'. */
  lemma QueryStringRequestFails(doc: Swagger, validator: Validator, marshal: Marshal, verb: string,
                                path: string, rawQuery: string, header: HeaderFields, query: Values, body: Body)
    requires rawQuery != ""
    requires forall i :: 0 <= i < |doc.paths| ==> '?' !in doc.basePath + doc.paths[i].0
    ensures var url := UrlString(path, rawQuery);
            && PathKey(doc, url).Err?
            && RequestOutcome(doc, validator, marshal, verb, url, header, query, body) == (Fail(PathKey(doc, url).error), body)
  {
    var url := UrlString(path, rawQuery);
    assert url[|path|] == '?';
    QuestionMarkUnmatched(doc, url, |path|);
    UnmatchedFailsFirst(doc, validator, marshal, verb, url, 0, header, query, body);
  }

  /** A request with a body whose Content-Type is not declared fails with a
      message naming that type and the declared list. */
  lemma DisallowedMediaType(doc: Swagger, validator: Validator, marshal: Marshal, verb: string,
                            url: string, header: HeaderFields, query: Values, body: Body, types: seq<string>)
    requires RequestHeadersCheck(doc, validator, marshal, header, url, verb) == Pass
    requires RequestMediaTypes(doc, url, verb) == Ok(types)
    requires ContentType(header) !in types && body != NilBody
    ensures var (o, left) := RequestOutcome(doc, validator, marshal, verb, url, header, query, body);
            left == body && o == Fail(Failf(AllowedDetail(ContentType(header), types)))
  {
    var m := RequestMediaTypeCheck(doc, ContentType(header), url, verb);
    assert m == Fail(Failf(AllowedDetail(ContentType(header), types)));
    RequestSteps(doc, validator, marshal, verb, url, header, query, body);
  }

  /** A request whose every step passes and whose body the validator accepts
      succeeds, and the caller can read the same bytes again. */
  lemma MatchingRequestSucceeds(doc: Swagger, validator: Validator, marshal: Marshal, verb: string,
                                url: string, header: HeaderFields, query: Values, data: seq<byte>,
                                schema: Option<Schema>)
    requires ReachesTail(doc, validator, marshal, verb, url, header, Stream(data, None))
    requires RequestQueryCheck(doc, validator, marshal, query, url, verb) == Pass
    requires RequestBodySchema(doc, url, verb) == Ok(schema)
    requires validator(BodySchema(schema), RawBytes(data)) == Validated([])
    ensures RequestOutcome(doc, validator, marshal, verb, url, header, query, Stream(data, None))
            == (Pass, Stream(data, None))
  {
  }
}
