# openapi-assert, modelled in Dafny

A model of the contract-lookup and assertion pipeline of faabiosr/openapi-assert, a Go library that checks HTTP requests and responses against a Swagger 2.0 document. It has three parts.

- **The contract extractor** (swagger.go), modelled in `swagger.dfy` (module `Extractor`). Over an immutable, already dereferenced document it:
  - matches a concrete URI against `basePath + declared path` URI templates (findPath);
  - navigates the document by JSON Pointer (findNode);
  - answers typed queries: media types with the document-level fallback, path-level then method-level parameters, the response for a status code with the `"default"` fallback, descriptor maps for headers and query with a synthesized `"required"` list, and body schemas with `ErrBodyNotFound`.
- **The assertion engine** (assertions.go), modelled in `assertions.dfy` as the class `Asserter.Assertions`. Each method checks one part of a message: media-type membership, header flattening and validation, the query, or the body. `Request` and `Response` run the parts in a fixed, fail-fast order and replace the message body by the buffer a tee filled while the body was read.
- **The free-function variant** (assert.go), modelled in `assert.dfy` (module `Assert`). It runs the same checks with the document passed as an argument.

Supporting modules:

- `document.dfy`: the document as datatypes (`Swagger`, `PathItem`, `Operation`, `Responses`, `Response`, `Parameter`, `Header`) and the descriptor values of document.go (`Param`, the response `Header` schema, `Required`).
- `template.dfy`: URI templates with simple `{var}` expressions (RFC 6570 section 3.2.2), used in reverse as an anchored matcher.
- `spec_tree.dfy`: JSON Pointer parsing (RFC 6901 sections 3 and 4) and node-by-node resolution over the document.
- `text.dfy`: the Go string functions the code calls (`strings.ToLower`, `Join`, `Split`, `ReplaceAll`, `strconv.Itoa`, `Atoi`) and the RFC 6901 unescaping.
- `errors.dfy`: the error values, with the message text Go builds for each.
- `http.dfy`: the parts of `net/http` that are read: method, URL path and raw query, parsed query, headers, status, and a body that can be read once.
- `checks.dfy`: the meaning of every assertion as a function of the document and the input. It also holds the loops shared by both Go files and the lemmas about `Request` and `Response`.

Map iteration order in Go is unspecified. The document therefore lists its paths and response headers as sequences, in the order one run visits them. Every property that depends on that order is stated for whichever path comes first in it.

The schema validator (gojsonschema) and `json.Marshal` are outside the model. They are function values (`Checks.Validator`, `Checks.Marshal`): the `Assertions` object holds them, and the free functions take them as arguments. So every verdict is proved for every validator.

Behaviour of the code that a reader might not expect, which the model follows:

- Body capture does not leave a fully buffered copy of the original body on every exit path. `req.Body` is replaced by the tee buffer before the body schema is looked up. That buffer is left empty when the lookup fails before any read, including a path with no body parameter, where `Request` still passes. A failing read leaves only the bytes read before the failure. `Checks.RequestBodyAfter` and `Checks.ResponseBodyAfter` state this.
- `mediaTypes` can fail after the path resolved: the lookup of `consumes` or `produces` below a method the path does not declare returns findNode's error. This rests on an assumption about the JSON Pointer library, which is not part of this model: that it reports a missing node, rather than a nil value, for an undeclared method (a nil `*spec.Operation` field of the path item). Under that assumption `Extractor.MediaTypesFallback` gives a node-lookup error naming the method.
- `Request` matches `req.URL.String()`, query string included, while `Response` uses `URL.Path`. So a request that carries a query fails at its first step unless some declared path contains a `?` (`Checks.QueryStringRequestFails`).
- `Request` is idempotent only on a body that reads without error. A nil body is replaced by an empty, non-nil buffer, so a request that passed because its undeclared Content-Type was skipped for a nil body fails the media-type step when asserted again (`Checks.NilBodyNotIdempotent`). After a failing read the second call validates the bytes read before the failure (`Checks.FailingReadNotIdempotent`).
- findPath escapes `/` as `~1` but does not escape `~` as `~0`. A declared path containing `~0` therefore resolves to a different key (`Text.EscapeLosesTilde`). The lookup lemmas are stated for declared paths without `~`.

## Model

| member | source | states |
|---|---|---|
| Errors.MessageShapes | swagger.go:66-96 | "resource uri does not match" prefixes both findPath errors, "node does not exists" prefixes findNode's, an assertion message begins "failed asserting that " and ends with its detail, and read, validator and marshal errors are passed through as their own text |
| Text.ToLower | swagger.go:104 | lower-cases each character in place and keeps the length |
| Text.Join | assertions.go:39 | joining one part gives that part, joining none gives "" |
| Text.Split | swagger.go:85 | strings.Split as jsonpointer.New applies it: at least one piece, and no piece contains the separator |
| Text.SplitJoin | swagger.go:85 | splitting a join on a separator that occurs in no piece gives back exactly the pieces |
| Text.EscapeSlash | swagger.go:74 | the escaped key holds no '/' and keeps every other character of the declared path |
| Text.EscapeSlashWithoutSlash | swagger.go:74 | a declared path with no '/' is used as its own key |
| Text.EscapeSlashAppend | swagger.go:74 | escaping is per character: the escape of a concatenation is the concatenation of the escapes |
| Text.Unescape | swagger.go:90 | the RFC 6901 unescaping of a reference token: a token without '~' is returned unchanged, and unescaping never lengthens a token |
| Text.EscapeRoundTrip | swagger.go:74 | for a declared path without '~', pointer decoding of the escaped key gives the declared path back |
| Text.EscapeLosesTilde | swagger.go:74 | the declared path "/~0" decodes to "/~": '~' is not escaped, so such a key does not lead back to its path |
| Text.Itoa | swagger.go:174 | strconv.Itoa: a non-empty decimal text that starts with '-' exactly for a negative status code |
| Text.Atoi | swagger.go:174 | the pointer library's reading of a status token: only a non-empty token reads as a number, and only a leading '-' reads as negative |
| Text.AtoiItoa | swagger.go:174 | the decimal token of a status code reads back as that status code |
| Text.ItoaPlain | swagger.go:174 | a status-code token holds no '/' or '~' |
| Text.ItoaIsNotDefault | swagger.go:174-179 | no status code is rendered as "default", so the two lookups address different entries |
| UriTemplate.Compile | swagger.go:68-71 | uritemplate.New: every variable of a compiled template has an RFC 6570 varname (no leading, trailing or doubled '.') |
| UriTemplate.Matches | swagger.go:73 | the anchored match of the template's regular expression: a template of literals alone matches only a URI of its own length |
| UriTemplate.LabelOperatorRejected | swagger.go:68-71 | "{.id}" is a label expansion, not a variable named ".id", and does not compile in the model |
| UriTemplate.CompileLiteral | swagger.go:68 | a template without braces compiles to its own characters |
| UriTemplate.LiteralMatchesItself | swagger.go:73 | such a template matches exactly the URI equal to it |
| UriTemplate.MatchedChars | swagger.go:73 | every character of a matched URI is a literal of the template or a character a variable can produce |
| UriTemplate.CompiledLiteralsComeFromText | swagger.go:68 | compiling keeps only characters of the template text as literals |
| UriTemplate.NoMatchWithForeignChar | swagger.go:73 | a URI holding a character no variable produces and the template does not spell out is not matched |
| SpecTree.Step | swagger.go:90 | one step of pointer.Get through the document's fields; a text, list or parameter-list node has no addressable child |
| SpecTree.Resolve | swagger.go:90-93 | pointer.Get over the reference tokens; a failure is a missing-node error naming one of the tokens |
| SpecTree.BuildPointer | swagger.go:83-85 | the pointer text findNode builds: "" for no segments, otherwise text starting with '/' |
| SpecTree.LookupPath | swagger.go:90 | a path key resolves exactly when some entry carries it, and then to that entry's item |
| SpecTree.ResolveCons | swagger.go:90-93 | resolving a pointer is resolving its first unescaped token, then the rest; a missing child names the token |
| SpecTree.ParsePointer | swagger.go:85-88 | a pointer is rejected exactly when it is non-empty and does not start with '/' |
| SpecTree.ParseBuiltPointer | swagger.go:83-85 | the pointer findNode builds parses back into its segments when none contains '/' |
| Extractor.ScanPaths | swagger.go:67-78 | the findPath loop: it fails only with "resource uri does not match" or a template compile error, and a key it returns holds no '/' |
| Extractor.PathKey | swagger.go:66-79 | findPath: the same two error kinds, and an escaped key without '/' |
| Extractor.ScanFirstDecider | swagger.go:67-75 | the scan returns the verdict of the first declared path whose template fails to compile or matches |
| Extractor.ScanNoDecider | swagger.go:67-78 | when no template fails or matches, the scan fails with "resource uri does not match" |
| Extractor.DeciderCases | swagger.go:67-76 | either no declared path settles the scan or a first one does |
| Extractor.PathKeySpec | swagger.go:66-79 | findPath succeeds only on the first path whose template compiles and matches, returning that path with '/' escaped; otherwise it fails with a mismatch or with the first compile error |
| Extractor.FindPath | swagger.go:66-79 | the loop with its early returns computes the findPath result |
| Extractor.QuestionMarkUnmatched | swagger.go:67-78 | a URI containing '?' fails findPath when no declared template contains '?' |
| Extractor.FindNode | swagger.go:82-95 | findNode: the pointer it builds always parses, so its only error is a missing node |
| Extractor.FindNodeResolves | swagger.go:82-95 | findNode resolves its segments one by one from the document root |
| Extractor.FindNodeEmptySegment | swagger.go:82-93 | findNode("") fails with a missing-node error |
| Extractor.LookupFirstDecider | swagger.go:67-74 | the key findPath picks resolves back to the path item that matched |
| Extractor.SelectedKey | swagger.go:66-79 | for the selected path, findPath returns its escaped key, and the key leads to its item |
| Extractor.PathEntryNode | swagger.go:82-95 | below the key of a declared path, lookups run over that path item |
| Extractor.SelectedNode | swagger.go:66-95 | a lookup under the key findPath returns is a lookup in the path item that matched |
| Extractor.ItemChild | swagger.go:151 | a path-level field lookup reads that field of the path item |
| Extractor.OperationChild | swagger.go:106 | a method-level field lookup reads that field of the operation, and fails naming the method when it is undeclared |
| Extractor.OperationGrandchild | swagger.go:174-179 | a lookup two levels below the operation reads that entry, or fails naming the first missing token |
| Extractor.DocumentChild | swagger.go:121 | a top-level lookup reads that field of the document |
| Extractor.ResolveOne | swagger.go:90 | resolving one plain token is one child step |
| Extractor.ResolveTwo | swagger.go:90 | resolving two plain tokens is two child steps, failing at the first missing one |
| Extractor.KindFields | swagger.go:106-121 | "consumes" and "produces" address the operation's and the document's media-type lists |
| Extractor.MediaTypes | swagger.go:98-131 | mediaTypes: findPath's error unchanged, and once the path resolves only missing-node errors |
| Extractor.RequestMediaTypes | swagger.go:134-136 | the "consumes" lookup, with the same error guarantees |
| Extractor.ResponseMediaTypes | swagger.go:139-141 | the "produces" lookup, with the same error guarantees |
| Extractor.MediaTypesFallback | swagger.go:98-131 | the operation's list when non-empty, else the document's list, possibly empty; an undeclared method is a missing-node error |
| Extractor.UnmatchedUriFailsEverywhere | swagger.go:98-308 | an unmatched URI makes every extractor query fail with findPath's own error |
| Extractor.RequestParams | swagger.go:143-162 | requestParameters fails exactly when findPath fails, with findPath's error; failed node lookups are not errors |
| Extractor.RequestParameters | swagger.go:143-162 | the two appends compute path-level parameters then method-level ones; a failed lookup adds nothing; only findPath errors |
| Extractor.ParametersFields | swagger.go:151-156 | "parameters" addresses the path item's and the operation's parameter lists |
| Extractor.RequestParamsMerge | swagger.go:143-162 | the parameters are the path item's followed by the operation's, with order and duplicates kept |
| Extractor.ResponsesFields | swagger.go:174-184 | "responses" and "default" address the operation's responses and its default response |
| Extractor.StatusChild | swagger.go:174-176 | the status token addresses the entry for exactly that status code |
| Extractor.ResponseFor | swagger.go:164-185 | response: findPath's error unchanged, and once the path resolves only missing-node errors |
| Extractor.ResponseFallback | swagger.go:164-185 | the entry for the status code, else "default", else a missing-node error |
| Extractor.CollectDescriptors | swagger.go:196-216 | the loop computes the descriptor map with its "required" list |
| Extractor.RequestHeaderSchema | swagger.go:188-219 | RequestHeaders fails exactly when findPath fails, with findPath's error |
| Extractor.RequestQuerySchema | swagger.go:247-278 | RequestQuery fails exactly when findPath fails, with findPath's error |
| Extractor.RequestHeaders | swagger.go:188-219 | the header descriptors of the merged parameters, or the lookup error |
| Extractor.RequestQuery | swagger.go:247-278 | the query descriptors of the merged parameters, or the lookup error |
| Extractor.CollectParamsKeys | swagger.go:198-206 | the keys are the lower-cased names of the parameters at the location, each with a descriptor for that location |
| Extractor.CollectParamsLastWins | swagger.go:198-206 | a name maps to the last parameter at the location with that lower-cased name |
| Extractor.RequiredNamesAppend | swagger.go:208-210 | required names of path-level parameters come before the method-level ones |
| Extractor.RequiredNamesMembers | swagger.go:208-210 | "required" lists exactly the required parameters at the location |
| Extractor.ParamSchemaShape | swagger.go:188-219 | one key per name at the location, plus "required" exactly when some parameter there is required, then listing the required names in order |
| Extractor.HeaderNames | swagger.go:232-237 | one lower-cased name per declared response header, in iteration order |
| Extractor.CollectHeaders | swagger.go:230-241 | the loop computes the response-header map and its "required" list |
| Extractor.ResponseHeaderSchema | swagger.go:222-244 | ResponseHeaders: findPath's error unchanged, and once the path resolves only missing-node errors |
| Extractor.ResponseHeaders | swagger.go:222-244 | the response's header descriptors, or the response lookup error |
| Extractor.HeaderMapKeys | swagger.go:232-235 | the keys are the lower-cased names of the declared headers |
| Extractor.HeaderMapLastWins | swagger.go:232-235 | a declared header's lower-cased name maps to its own schema unless a later header in the iteration has the same lower-cased name |
| Extractor.ResponseHeadersAllRequired | swagger.go:222-244 | every declared response header is required, and "required" is present exactly when some header is declared |
| Extractor.ResponseHeaderValue | swagger.go:222-244 | each header (without a later same-named one) maps to its schema; a header named "required" has its entry replaced by the list of required names |
| Extractor.FirstBodySpec | swagger.go:287-291 | the first body parameter, if any, and none exactly when no parameter is in the body |
| Extractor.RequestBodySchema | swagger.go:281-294 | RequestBody: findPath's error unchanged, and once the path resolves the only error is ErrBodyNotFound |
| Extractor.RequestBody | swagger.go:281-294 | the first-match loop returns the first body parameter's schema, else ErrBodyNotFound, or the lookup error |
| Extractor.ResponseBodySchema | swagger.go:297-308 | a response body schema that is found is never nil; findPath's error unchanged; once the path resolves only a missing node or ErrBodyNotFound |
| Extractor.ResponseBodyFallback | swagger.go:297-308 | the schema of the response for the status code, else of "default"; ErrBodyNotFound when that response has no schema; a missing-node error when neither exists or the method is undeclared |
| Http.ReadAll | assertions.go:177-180 | a read succeeds exactly on a body whose reader does not fail, and yields all its bytes |
| Http.BytesText | assertions.go:199 | the text shows one character per byte, with the byte's code |
| Http.ContentType | assertions.go:243 | the first Content-Type value when there is one, and "" otherwise |
| Http.UrlString | assertions.go:236 | the URL is the path, followed by '?' and the raw query when there is one |
| Checks.Failf | assertions.go:297-299 | the message is "failed asserting that " followed by the detail |
| Checks.Allowed | assertions.go:33-37 | the membership loop finds the media type exactly when it is in the list |
| Checks.Flatten | assertions.go:69-73 | the flattened map has the header's names, each mapped to its values joined by ", " |
| Checks.FlattenHeader | assertions.go:69-73 | the map has the same names, each mapped to its values joined by ", " |
| Checks.CollectDescriptions | assertions.go:91-95 | the loop collects each violation's description, in validator order |
| Checks.MediaTypeOutcome | assertions.go:27-42 | the media-type check: a failure is the lookup's error or an assertion failure |
| Checks.SchemaOutcome | assertions.go:63-98 | the header or query check: a failure is the lookup's error, or once it resolves an assertion, validator or marshal failure |
| Checks.BodyOutcome | assertions.go:171-200 | the body check: a failure is the lookup's error, or once it resolves an assertion, validator, read or nil-body failure |
| Checks.BodyLeft | assertions.go:251-255 | the body the tee leaves can always be read in full, and holds nothing or all that the read pulled through |
| Checks.RequestTail | assertions.go:247-260 | the query step then the body step: ErrBodyNotFound never comes out, and the body is untouched or a fully readable buffer |
| Checks.RequestOutcome | assertions.go:235-261 | Request never fails with ErrBodyNotFound, and leaves the body untouched or a fully readable buffer |
| Checks.ResponseOutcome | assertions.go:264-282 | Response leaves the body untouched or a fully readable buffer |
| Checks.JudgeMediaType | assertions.go:27-42 | the media-type check after the lookup returns the meaning of the check |
| Checks.JudgeSchema | assertions.go:74-97 | validate, then on violations marshal and describe, giving the meaning of the check |
| Checks.JudgeBody | assertions.go:177-199 | read, then validate; the bytes read are the body the tee leaves |
| Checks.MediaTypeVerdict | assertions.go:27-42 | pass exactly when the media type is in the list; the lookup error unchanged; otherwise the "is an allowed media type" message naming the type and the whole list |
| Checks.SchemaVerdict | assertions.go:63-98 | pass exactly when the descriptors resolve and the validator reports no violation; the lookup and load errors unchanged; a violation shows the marshalled value and the descriptions |
| Checks.BodyVerdict | assertions.go:171-200 | pass exactly when the schema resolves, the read succeeds and the bytes validate; the schema lookup error, the read error and the validator's load error come back unchanged; a violation shows the raw bytes read |
| Checks.RequestSteps | assertions.go:235-261 | headers, then media type, then query, then body; the first failure is returned and the body is left untouched unless the body step runs |
| Checks.ResponseSteps | assertions.go:264-282 | headers, then media type, then body; a header failure, or a media-type failure on a response with a body, is returned with the body untouched; otherwise the body check decides and the body is teed |
| Checks.NoBodyIgnoresMediaType | assertions.go:243-245 | a request without a body is never failed for its media type |
| Checks.RequestBodyAfter | assertions.go:251-260 | after the body step the body holds everything that was read, or nothing when the schema lookup failed; ErrBodyNotFound becomes a pass |
| Checks.RequestKeepsReadableBody | assertions.go:251-255 | a readable body is kept byte for byte on every path when the body schema resolves |
| Checks.RequestIdempotent | assertions.go:235-261 | for a body that reads without error, asserting again on the body the first call left gives the same verdict and the same body |
| Checks.NilBodyNotIdempotent | assertions.go:243-257 | on a nil body without a body parameter and with an undeclared Content-Type, the first call passes and leaves an empty buffer, on which the second call fails at the media-type step |
| Checks.FailingReadNotIdempotent | assertions.go:250-257 | on a failing read the first call returns the read error and leaves the bytes read before it, which the second call validates |
| Checks.BodyNotFoundVerdicts | assertions.go:256-281 | a missing body schema passes Request and fails Response with ErrBodyNotFound, leaving an empty body |
| Checks.ResponseBodyAfter | assertions.go:277-281 | Response returns the body verdict unchanged, and the body holds what was read |
| Checks.UnmatchedFailsFirst | assertions.go:235-282 | an unmatched URL fails Request and Response at the header step with findPath's error, body untouched |
| Checks.QueryStringRequestFails | assertions.go:236 | a request with a query string fails at its first step unless a declared path contains '?' |
| Checks.DisallowedMediaType | assertions.go:243-245 | a request with a body and an undeclared Content-Type fails with the allowed-media-type message, body untouched |
| Checks.MatchingRequestSucceeds | assertions.go:235-261 | a request whose every step passes succeeds, and its body can be read again in full |
| Asserter.Assertions.constructor | assertions.go:22-24 | the object holds the document it was made with |
| Asserter.Assertions.RequestMediaType | assertions.go:27-42 | the verdict of the request media-type check |
| Asserter.Assertions.ResponseMediaType | assertions.go:45-60 | the verdict of the response media-type check |
| Asserter.Assertions.RequestHeaders | assertions.go:63-98 | the verdict of the request header check |
| Asserter.Assertions.ResponseHeaders | assertions.go:101-136 | the verdict of the response header check |
| Asserter.Assertions.RequestQuery | assertions.go:139-168 | the verdict of the query check |
| Asserter.Assertions.RequestBody | assertions.go:171-200 | the verdict of the request body check and the bytes it read |
| Asserter.Assertions.ResponseBody | assertions.go:203-232 | the verdict of the response body check and the bytes it read |
| Asserter.Assertions.Request | assertions.go:235-261 | the fail-fast request verdict, with `req.body` replaced as the composite check says |
| Asserter.Assertions.Response | assertions.go:264-282 | the fail-fast response verdict on the request's path, with `res.body` replaced as the composite check says |
| Assert.RequestMediaType | assert.go:21-36 | the verdict of the request media-type check |
| Assert.ResponseMediaType | assert.go:39-54 | the verdict of the response media-type check |
| Assert.RequestHeaders | assert.go:57-96 | the verdict of the request header check |
| Assert.ResponseHeaders | assert.go:99-138 | the verdict of the response header check |
| Assert.RequestQuery | assert.go:141-174 | the verdict of the query check |
| Assert.RequestBody | assert.go:177-211 | the verdict of the request body check and the bytes it read |
| Assert.ResponseBody | assert.go:214-248 | the verdict of the response body check and the bytes it read |
| Assert.Request | assert.go:251-277 | the fail-fast request verdict, with `req.body` replaced as the composite check says |
| Assert.Response | assert.go:280-298 | the fail-fast response verdict, with `res.body` replaced as the composite check says |

## Left out

- The loaders (`LoadFromURI`, `LoadFromReader`, `ErrSwaggerLoad`) do file and network I/O and `$ref` expansion. The model starts from a loaded, dereferenced document.
- The `Document` interface: Dafny traits are not used here, so the engine takes the concrete `Swagger` value.
- gojsonschema and the `validate` helper are foreign code. They are the function value `Validator`, which returns a load error or the list of violations; the schema semantics (types, `allOf`, ...) are not modelled.
- `json.Marshal` is the function value `Marshal`. Its output text is not modelled.
- URI templates: only simple `{var}` expressions are supported. A template with an operator (`+ # . / ; ? &`, so also `{.ext}`), a variable list such as `{a,b}`, an explode or a prefix modifier is treated as a compile failure, where the template library compiles it. A pct-encoded triplet in a variable name is not accepted. A variable's value is any run of unreserved characters, '%' and ',' (the separator of a list value), with '%' accepted bare rather than only as `%XX`. The regular expression the template library builds is not modelled.
- The reflective lookup of the JSON Pointer library is `SpecTree.Step`, restricted to the fields the asserter reads. The library's error text is not reproduced: a missing node carries the raw token.
- Go type assertions on the looked-up nodes (`data.([]string)`, `data.([]spec.Parameter)`) cannot fail on a well-typed document. A node of the wrong shape reads as an empty list, where Go would panic.
- When an operation declares neither the status code nor `"default"`, go-openapi leaves `Responses.Default` nil and the Go code's `*data.(*spec.Response)` dereferences nil and panics. Here that case is the error `NodeNotFound("default")`. This is the model's assumption about how the pointer library reports a nil `Default`.
- A method the path item does not declare: its `*spec.Operation` field is nil, and the model assumes the pointer library then reports a missing node naming the method, as `SpecTree.Step` does. The library is not part of this model, so this behaviour is assumed, not derived.
- A nil body that reaches `ReadAll` panics in Go. Here it is the error `NilBodyPanic`.
- mediaTypes returns an empty list beside its error. Callers discard the list, so the model returns only the error.
- `net/http` and `net/url`:
  - the URL is its path, its raw query and the parsed query, which are given separately and not checked against each other;
  - `URL.String()` is the path plus `?` and the raw query, without escaping, scheme or host;
  - header names are taken as canonical, so `Header.Get("content-type")` reads the `Content-Type` entry.
- `string(data)` maps each byte to the character with that code. UTF-8 decoding is not modelled.
- `strings.ToLower` is modelled for ASCII letters only. `strconv.Atoi` has no range limit.
- `NopCloser` and `Close` are not modelled, and neither is the buffer aliasing between the tee and the replacement body. The replacement body is the value of the bytes the read pulled through.
- Extractor.SelectedNode, Extractor.PathEntryNode, Extractor.ItemChild, Extractor.OperationChild, Extractor.OperationGrandchild: require a declared path without '~'. Such a key does not survive findPath's escaping (see Text.EscapeLosesTilde).
- Extractor.MediaTypesFallback, Extractor.RequestParamsMerge, Extractor.ResponseFallback, Extractor.ResponseBodyFallback: require, besides a path without '~', a lower-cased method name without '/' or '~' that is not "parameters". A method named "parameters" would address the path item's parameter list instead of an operation.
- The echo middleware, the example server and the package documentation are outside the core.
