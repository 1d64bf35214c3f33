/** The loaded, fully dereferenced Swagger 2.0 document (the part of
    go-openapi's spec.Swagger the asserter reads) and the descriptor maps
    the extractor hands to the schema validator (document.go). */
module Document {

  import opened Errors

  /** A JSON-Schema fragment of the document; its content is opaque here. */
  datatype Schema = Schema(source: string)

  /** spec.Parameter: `location` is the Swagger `in` field. */
  datatype Parameter = Parameter(
    name: string,
    location: string,
    typ: string,
    description: string,
    required: bool,
    schema: Option<Schema>)

  /** spec.Header of a response. */
  datatype Header = Header(typ: string, description: string)

  /** spec.Response. `headers` lists the declared headers in the order Go's
      map iteration visits them. */
  datatype Response = Response(
    description: string,
    schema: Option<Schema>,
    headers: seq<(string, Header)>)

  /** spec.Responses: the "default" entry and the entries keyed by status code. */
  datatype Responses = Responses(default: Option<Response>, byStatus: map<int, Response>)

  /** spec.Operation. */
  datatype Operation = Operation(
    consumes: seq<string>,
    produces: seq<string>,
    parameters: seq<Parameter>,
    responses: Responses)

  /** spec.PathItem: path-level parameters and the declared operations,
      keyed by lower-case method name ("get", "post", ...). */
  datatype PathItem = PathItem(parameters: seq<Parameter>, operations: map<string, Operation>)

  /** spec.Swagger. `paths` lists the declared path templates in the order
      Go's map iteration visits them. */
  datatype Swagger = Swagger(
    basePath: string,
    paths: seq<(string, PathItem)>,
    consumes: seq<string>,
    produces: seq<string>)

  /** Which media-type list of an operation: `consumes` (request) or `produces` (response). */
  datatype MediaKind = Consumes | Produces {
    function Segment(): string {
      match this
      case Consumes => "consumes"
      case Produces => "produces"
    }
  }

  /** The values of a Headers or Query map: a Param, a response header
      schema, or the list stored under "required". */
  datatype Descriptor =
    | Param(typ: string, description: string, location: string)
    | HeaderSchema(header: Header)
    | Required(names: seq<string>)

  /** Headers and Query: field name to descriptor. */
  type Descriptors = map<string, Descriptor>
}
