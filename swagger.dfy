/** The contract extractor (swagger.go): matching a request URI against the
    declared path templates, navigating the document by JSON Pointer, and
    the typed queries built on those two: media types, parameters,
    responses, header and query descriptor maps, and body schemas. The
    document is immutable; every query is a function of it, and the queries
    that loop in the source also have a method with that loop, proved equal
    to the function. */
module Extractor {

  import opened Errors
  import opened Text
  import opened Document
  import opened SpecTree
  import opened UriTemplate

  // ===========================================================================
  // findPath

  /** The declared entry settles the scan: its template fails to compile or matches. */
  predicate Decides(basePath: string, entry: (string, PathItem), uri: string) {
    match Compile(basePath + entry.0)
    case Malformed(_) => true
    case Compiled(ps) => Matches(ps, uri)
  }

  /** What the scan returns once `entry` settles it. */
  function Decision(basePath: string, entry: (string, PathItem)): Result<string> {
    match Compile(basePath + entry.0)
    case Malformed(why) => Err(TemplateInvalid(why))
    case Compiled(_) => Ok(EscapeSlash(entry.0))
  }

  /** Entry i is the first, in iteration order, that settles the scan. */
  predicate FirstDecider(basePath: string, paths: seq<(string, PathItem)>, uri: string, i: int) {
    && 0 <= i < |paths|
    && Decides(basePath, paths[i], uri)
    && forall j :: 0 <= j < i ==> !Decides(basePath, paths[j], uri)
  }

  /** The errors findPath itself returns. */
  predicate FindPathError(e: Error) {
    e == UriMismatch || e.TemplateInvalid?
  }

  /** The loop of findPath as a recursive scan over the declared paths. */
  function ScanPaths(basePath: string, paths: seq<(string, PathItem)>, uri: string): (r: Result<string>)
    ensures r.Err? ==> FindPathError(r.error)
    ensures r.Ok? ==> '/' !in r.value
    decreases |paths|
  {
    if paths == [] then Err(UriMismatch)
    else if Decides(basePath, paths[0], uri) then Decision(basePath, paths[0])
    else ScanPaths(basePath, paths[1..], uri)
  }

  /** findPath: the escaped key of the declared path the URI selects. */
  function PathKey(s: Swagger, uri: string): (r: Result<string>)
    ensures r.Err? ==> FindPathError(r.error)
    ensures r.Ok? ==> '/' !in r.value
  {
    ScanPaths(s.basePath, s.paths, uri)
  }

  lemma {:induction false} ScanFirstDecider(basePath: string, paths: seq<(string, PathItem)>, uri: string, i: int)
    requires FirstDecider(basePath, paths, uri, i)
    ensures ScanPaths(basePath, paths, uri) == Decision(basePath, paths[i])
    decreases i
  {
    if i > 0 {
      assert !Decides(basePath, paths[0], uri);
      ScanFirstDecider(basePath, paths[1..], uri, i - 1);
    }
  }

  lemma {:induction false} ScanNoDecider(basePath: string, paths: seq<(string, PathItem)>, uri: string)
    requires forall j :: 0 <= j < |paths| ==> !Decides(basePath, paths[j], uri)
    ensures ScanPaths(basePath, paths, uri) == Err(UriMismatch)
    decreases |paths|
  {
    if paths != [] {
      assert !Decides(basePath, paths[0], uri);
      ScanNoDecider(basePath, paths[1..], uri);
    }
  }

  /** Either no declared path settles the scan, or a first one does. */
  lemma {:induction false} DeciderCases(basePath: string, paths: seq<(string, PathItem)>, uri: string)
    ensures (forall j :: 0 <= j < |paths| ==> !Decides(basePath, paths[j], uri))
            || exists i :: FirstDecider(basePath, paths, uri, i)
    decreases |paths|
  {
    if paths != [] {
      if Decides(basePath, paths[0], uri) {
        assert FirstDecider(basePath, paths, uri, 0);
      } else {
        DeciderCases(basePath, paths[1..], uri);
        if exists i :: FirstDecider(basePath, paths[1..], uri, i) {
          var i :| FirstDecider(basePath, paths[1..], uri, i);
          assert FirstDecider(basePath, paths, uri, i + 1);
        } else {
          assert forall j :: 1 <= j < |paths| ==> paths[j] == paths[1..][j - 1];
        }
      }
    }
  }

  /** findPath succeeds exactly on the first path whose template matches and returns
      that declared path with '/' escaped; it fails with "resource uri does not match"
      when no template matches, and stops at the first template that does not compile. */
  lemma PathKeySpec(s: Swagger, uri: string)
    ensures (forall j :: 0 <= j < |s.paths| ==> !Decides(s.basePath, s.paths[j], uri))
            ==> PathKey(s, uri) == Err(UriMismatch)
    ensures forall i :: (FirstDecider(s.basePath, s.paths, uri, i)
                         ==> PathKey(s, uri) == Decision(s.basePath, s.paths[i]))
    ensures PathKey(s, uri).Ok? ==>
            exists i :: && FirstDecider(s.basePath, s.paths, uri, i)
                        && Compile(s.basePath + s.paths[i].0).Compiled?
                        && Matches(Compile(s.basePath + s.paths[i].0).pieces, uri)
                        && PathKey(s, uri).value == EscapeSlash(s.paths[i].0)
    ensures PathKey(s, uri).Err? ==>
            PathKey(s, uri).error == UriMismatch || PathKey(s, uri).error.TemplateInvalid?
  {
    DeciderCases(s.basePath, s.paths, uri);
    if forall j :: 0 <= j < |s.paths| ==> !Decides(s.basePath, s.paths[j], uri) {
      ScanNoDecider(s.basePath, s.paths, uri);
    }
    forall i | FirstDecider(s.basePath, s.paths, uri, i)
      ensures PathKey(s, uri) == Decision(s.basePath, s.paths[i])
    {
      ScanFirstDecider(s.basePath, s.paths, uri, i);
    }
  }

  /** A URI with a '?' in it matches no declared template without one: findPath
      fails on it, with "resource uri does not match" or a template error. */
  lemma QuestionMarkUnmatched(s: Swagger, uri: string, j: nat)
    requires j < |uri| && uri[j] == '?'
    requires forall i :: 0 <= i < |s.paths| ==> '?' !in s.basePath + s.paths[i].0
    ensures PathKey(s, uri).Err?
  {
    DeciderCases(s.basePath, s.paths, uri);
    if forall k :: 0 <= k < |s.paths| ==> !Decides(s.basePath, s.paths[k], uri) {
      ScanNoDecider(s.basePath, s.paths, uri);
    } else {
      var i :| FirstDecider(s.basePath, s.paths, uri, i);
      ScanFirstDecider(s.basePath, s.paths, uri, i);
      var t := s.basePath + s.paths[i].0;
      if Compile(t).Compiled? {
        NoMatchWithForeignChar(t, uri, j);
      }
    }
  }

  /** The loop of swagger.go's findPath, with its early returns. */
  method FindPath(s: Swagger, uri: string) returns (r: Result<string>)
    ensures r == PathKey(s, uri)
  {
    var i := 0;
    while i < |s.paths|
      invariant 0 <= i <= |s.paths|
      invariant ScanPaths(s.basePath, s.paths[i..], uri) == PathKey(s, uri)
    {
      var path := s.paths[i].0;
      assert s.paths[i..][1..] == s.paths[i + 1..];
      match Compile(s.basePath + path)
      case Malformed(why) =>
        return Err(TemplateInvalid(why));
      case Compiled(pieces) =>
        if Matches(pieces, uri) {
          return Ok(EscapeSlash(path));
        }
      i := i + 1;
    }
    return Err(UriMismatch);
  }

  // ===========================================================================
  // findNode

  /** findNode: resolve the pointer "/" + the segments joined by "/". */
  function FindNode(s: Swagger, segments: seq<string>): (r: Result<Node>)
    ensures r.Err? ==> r.error.NodeNotFound?
  {
    match ParsePointer(BuildPointer(segments))
    case Err(e) => Err(e)
    case Ok(tokens) => Resolve(DocumentNode(s), tokens)
  }

  /** The pointer findNode builds always parses: its segments are the reference tokens. */
  lemma FindNodeResolves(s: Swagger, segments: seq<string>)
    requires forall i :: 0 <= i < |segments| ==> '/' !in segments[i]
    ensures FindNode(s, segments) == Resolve(DocumentNode(s), segments)
  {
    ParseBuiltPointer(segments);
  }

  /** findNode("") addresses the empty-named member of the document, which does not exist. */
  lemma FindNodeEmptySegment(s: Swagger)
    ensures FindNode(s, [""]) == Err(NodeNotFound(""))
  {
    FindNodeResolves(s, [""]);
    assert Unescape("") == "";
  }

  // ===========================================================================
  // The declared path a URI selects

  /** Entry i is the declared path whose (compiling) template the URI selects. */
  predicate Selects(s: Swagger, uri: string, i: int) {
    && FirstDecider(s.basePath, s.paths, uri, i)
    && Compile(s.basePath + s.paths[i].0).Compiled?
  }

  lemma {:induction false} LookupFirstDecider(basePath: string, paths: seq<(string, PathItem)>, uri: string, i: int)
    requires FirstDecider(basePath, paths, uri, i)
    ensures LookupPath(paths, paths[i].0) == Some(paths[i].1)
    decreases i
  {
    if paths[0].0 == paths[i].0 {
      assert Decides(basePath, paths[0], uri) == Decides(basePath, paths[i], uri);
      assert i == 0;
    } else {
      LookupFirstDecider(basePath, paths[1..], uri, i - 1);
    }
  }

  /** For the selected entry, findPath's key leads findNode back to that entry's path item. */
  lemma SelectedNode(s: Swagger, uri: string, i: int, rest: seq<string>)
    requires Selects(s, uri, i)
    requires '~' !in s.paths[i].0
    requires forall k :: 0 <= k < |rest| ==> PlainToken(rest[k])
    ensures PathKey(s, uri) == Ok(EscapeSlash(s.paths[i].0))
    ensures FindNode(s, ["paths", EscapeSlash(s.paths[i].0)] + rest)
            == Resolve(PathItemNode(s.paths[i].1), rest)
  {
    ScanFirstDecider(s.basePath, s.paths, uri, i);
    LookupFirstDecider(s.basePath, s.paths, uri, i);
    PathEntryNode(s, s.paths[i].0, s.paths[i].1, rest);
  }

  /** findNode("paths", escaped key, rest...) starts at the path item of that key. */
  lemma PathEntryNode(s: Swagger, key: string, item: PathItem, rest: seq<string>)
    requires LookupPath(s.paths, key) == Some(item)
    requires '~' !in key
    requires forall k :: 0 <= k < |rest| ==> PlainToken(rest[k])
    ensures FindNode(s, ["paths", EscapeSlash(key)] + rest) == Resolve(PathItemNode(item), rest)
  {
    var esc := EscapeSlash(key);
    var tail := [esc] + rest;
    var segments := ["paths"] + tail;
    PairCons("paths", esc, rest);
    SegmentsWithoutSlash(esc, rest);
    FindNodeResolves(s, segments);
    PathsField(s);
    ResolveCons(DocumentNode(s), "paths", tail);
    assert Resolve(DocumentNode(s), segments) == Resolve(PathsNode(s.paths), tail);
    EscapeRoundTrip(key);
    assert Step(PathsNode(s.paths), Unescape(esc)) == Some(PathItemNode(item));
    ResolveCons(PathsNode(s.paths), esc, rest);
  }

  // Solver helpers: sequence-display identities the pointer lemmas below need
  // spelled out, as the verifier does not find them on its own at that size.

  lemma PairCons<T>(a: T, b: T, rest: seq<T>)
    ensures [a, b] + rest == [a] + ([b] + rest)
  {
  }

  lemma AppendOne<T>(a: T, b: T, c: T)
    ensures [a, b] + [c] == [a, b, c]
  {
  }

  lemma AppendTwo<T>(a: T, b: T, c: T, d: T)
    ensures [a, b] + [c, d] == [a, b, c, d]
  {
  }

  lemma AppendThree<T>(a: T, b: T, c: T, d: T, e: T)
    ensures [a, b] + [c, d, e] == [a, b, c, d, e]
  {
  }

  lemma PathsField(s: Swagger)
    ensures Unescape("paths") == "paths"
    ensures Step(DocumentNode(s), "paths") == Some(PathsNode(s.paths))
  {
  }

  lemma SegmentsWithoutSlash(esc: string, rest: seq<string>)
    requires '/' !in esc
    requires forall k :: 0 <= k < |rest| ==> PlainToken(rest[k])
    ensures forall k :: 0 <= k < |["paths", esc] + rest| ==> '/' !in (["paths", esc] + rest)[k]
  {
    var segments := ["paths", esc] + rest;
    forall k | 0 <= k < |segments| ensures '/' !in segments[k] {
      if k >= 2 { assert segments[k] == rest[k - 2]; }
    }
  }

  /** A method token that names no other field of a path item. */
  predicate OperationToken(m: string) {
    PlainToken(m) && m != "parameters"
  }

  /** The node a plain token reaches, or the error naming it. */
  function Child(node: Node, token: string): Result<Node> {
    match Step(node, token)
    case Some(child) => Ok(child)
    case None => Err(NodeNotFound(token))
  }

  lemma ResolveOne(node: Node, t: string)
    requires PlainToken(t)
    ensures Resolve(node, [t]) == Child(node, t)
  {
    assert [t] == [t] + [];
    ResolveCons(node, t, []);
  }

  lemma ResolveTwo(node: Node, t: string, u: string)
    requires PlainToken(t) && PlainToken(u)
    ensures Resolve(node, [t, u]) == match Child(node, t)
                                     case Ok(child) => Child(child, u)
                                     case Err(e) => Err(e)
  {
    assert [t, u] == [t] + [u];
    ResolveCons(node, t, [u]);
    if Step(node, t).Some? {
      ResolveOne(Step(node, t).value, u);
    }
  }

  /** findNode("paths", key, t): one plain token below the path item. */
  lemma ItemChild(s: Swagger, key: string, item: PathItem, t: string)
    requires LookupPath(s.paths, key) == Some(item) && '~' !in key
    requires PlainToken(t)
    ensures FindNode(s, ["paths", EscapeSlash(key), t]) == Child(PathItemNode(item), t)
  {
    PathEntryNode(s, key, item, [t]);
    AppendOne("paths", EscapeSlash(key), t);
    ResolveOne(PathItemNode(item), t);
  }

  /** findNode("paths", key, m, t): one plain token below the operation of m. */
  lemma OperationChild(s: Swagger, key: string, item: PathItem, m: string, t: string)
    requires LookupPath(s.paths, key) == Some(item) && '~' !in key
    requires OperationToken(m) && PlainToken(t)
    ensures FindNode(s, ["paths", EscapeSlash(key), m, t])
            == if m in item.operations then Child(OperationNode(item.operations[m]), t)
               else Err(NodeNotFound(m))
  {
    TwoPlain(m, t);
    PathEntryNode(s, key, item, [m, t]);
    AppendTwo("paths", EscapeSlash(key), m, t);
    ResolveTwo(PathItemNode(item), m, t);
  }

  /** findNode("paths", key, m, r, t): two plain tokens below the operation of m. */
  lemma OperationGrandchild(s: Swagger, key: string, item: PathItem, m: string, r: string, t: string)
    requires LookupPath(s.paths, key) == Some(item) && '~' !in key
    requires OperationToken(m) && PlainToken(r) && PlainToken(t)
    ensures FindNode(s, ["paths", EscapeSlash(key), m, r, t])
            == if m !in item.operations then Err(NodeNotFound(m))
               else match Child(OperationNode(item.operations[m]), r)
                    case Ok(child) => Child(child, t)
                    case Err(e) => Err(e)
  {
    var rest := [m, r, t];
    ThreePlain(m, r, t);
    PathEntryNode(s, key, item, rest);
    AppendThree("paths", EscapeSlash(key), m, r, t);
    BelowOperation(item, m, r, t);
  }

  // Solver helpers: the per-segment requirement of PathEntryNode for a
  // two- and a three-element display, stated once so callers stay cheap.

  lemma TwoPlain(m: string, t: string)
    requires PlainToken(m) && PlainToken(t)
    ensures forall k :: 0 <= k < |[m, t]| ==> PlainToken([m, t][k])
  {
  }

  lemma ThreePlain(m: string, r: string, t: string)
    requires PlainToken(m) && PlainToken(r) && PlainToken(t)
    ensures forall k :: 0 <= k < |[m, r, t]| ==> PlainToken([m, r, t][k])
  {
  }

  lemma BelowOperation(item: PathItem, m: string, r: string, t: string)
    requires OperationToken(m) && PlainToken(r) && PlainToken(t)
    ensures Resolve(PathItemNode(item), [m, r, t])
            == if m !in item.operations then Err(NodeNotFound(m))
               else match Child(OperationNode(item.operations[m]), r)
                    case Ok(child) => Child(child, t)
                    case Err(e) => Err(e)
  {
    ResolveThree(PathItemNode(item), m, r, t);
    ItemOperation(item, m);
    if m in item.operations {
      ResolveTwo(OperationNode(item.operations[m]), r, t);
    }
  }

  lemma ItemOperation(item: PathItem, m: string)
    requires OperationToken(m)
    ensures Child(PathItemNode(item), m)
            == if m in item.operations then Ok(OperationNode(item.operations[m])) else Err(NodeNotFound(m))
  {
  }

  lemma ResolveThree(node: Node, q: string, r: string, t: string)
    requires PlainToken(q) && PlainToken(r) && PlainToken(t)
    ensures Resolve(node, [q, r, t]) == match Child(node, q)
                                        case Ok(child) => Resolve(child, [r, t])
                                        case Err(e) => Err(e)
  {
    assert [q, r, t] == [q] + [r, t];
    ResolveCons(node, q, [r, t]);
  }

  /** findNode(t): one plain token below the document. */
  lemma DocumentChild(s: Swagger, t: string)
    requires PlainToken(t)
    ensures FindNode(s, [t]) == Child(DocumentNode(s), t)
  {
    FindNodeResolves(s, [t]);
    ResolveOne(DocumentNode(s), t);
  }

  /** The selected entry's key is what findPath returns, and it leads back to that entry. */
  lemma SelectedKey(s: Swagger, uri: string, i: int)
    requires Selects(s, uri, i)
    ensures PathKey(s, uri) == Ok(EscapeSlash(s.paths[i].0))
    ensures LookupPath(s.paths, s.paths[i].0) == Some(s.paths[i].1)
  {
    ScanFirstDecider(s.basePath, s.paths, uri, i);
    LookupFirstDecider(s.basePath, s.paths, uri, i);
  }

  // ===========================================================================
  // Media types

  function StringsOf(n: Node): seq<string> {
    match n
    case StringsNode(ts) => ts
    case _ => []
  }

  /** The list an operation declares for the kind. */
  function Declared(op: Operation, kind: MediaKind): seq<string> {
    match kind
    case Consumes => op.consumes
    case Produces => op.produces
  }

  /** The document-wide list for the kind. */
  function Global(s: Swagger, kind: MediaKind): seq<string> {
    match kind
    case Consumes => s.consumes
    case Produces => s.produces
  }

  /** mediaTypes: the operation's list when non-empty, else the document's. */
  function MediaTypes(s: Swagger, path: string, verb: string, kind: MediaKind): (r: Result<seq<string>>)
    ensures PathKey(s, path).Err? ==> r == Err(PathKey(s, path).error)
    ensures PathKey(s, path).Ok? && r.Err? ==> r.error.NodeNotFound?
  {
    match PathKey(s, path)
    case Err(e) => Err(e)
    case Ok(key) =>
      match FindNode(s, ["paths", key, ToLower(verb), kind.Segment()])
      case Err(e) => Err(e)
      case Ok(node) =>
        var types := StringsOf(node);
        if |types| > 0 then Ok(types)
        else
          match FindNode(s, [kind.Segment()])
          case Err(e) => Err(e)
          case Ok(global) => Ok(StringsOf(global))
  }

  /** RequestMediaTypes. */
  function RequestMediaTypes(s: Swagger, path: string, verb: string): (r: Result<seq<string>>)
    ensures PathKey(s, path).Err? ==> r == Err(PathKey(s, path).error)
    ensures PathKey(s, path).Ok? && r.Err? ==> r.error.NodeNotFound?
  {
    MediaTypes(s, path, verb, Consumes)
  }

  /** ResponseMediaTypes. */
  function ResponseMediaTypes(s: Swagger, path: string, verb: string): (r: Result<seq<string>>)
    ensures PathKey(s, path).Err? ==> r == Err(PathKey(s, path).error)
    ensures PathKey(s, path).Ok? && r.Err? ==> r.error.NodeNotFound?
  {
    MediaTypes(s, path, verb, Produces)
  }

  /** The media-type fields of an operation and of the document. */
  lemma KindFields(s: Swagger, op: Operation, kind: MediaKind)
    ensures PlainToken(kind.Segment())
    ensures Child(OperationNode(op), kind.Segment()) == Ok(StringsNode(Declared(op, kind)))
    ensures Child(DocumentNode(s), kind.Segment()) == Ok(StringsNode(Global(s, kind)))
  {
    match kind
    case Consumes =>
    case Produces =>
  }

  /** The media types of the selected operation, falling back to the document's
      list (possibly empty) when the operation declares none; an undeclared
      method is a missing node. */
  lemma MediaTypesFallback(s: Swagger, uri: string, verb: string, kind: MediaKind, i: int)
    requires Selects(s, uri, i) && '~' !in s.paths[i].0
    requires OperationToken(ToLower(verb))
    ensures var item := s.paths[i].1;
            var m := ToLower(verb);
            MediaTypes(s, uri, verb, kind) ==
              if m !in item.operations then Err(NodeNotFound(m))
              else if |Declared(item.operations[m], kind)| > 0 then Ok(Declared(item.operations[m], kind))
              else Ok(Global(s, kind))
  {
    var item := s.paths[i].1;
    var m := ToLower(verb);
    SelectedKey(s, uri, i);
    KindFields(s, Operation([], [], [], Responses(None, map[])), kind);
    OperationChild(s, s.paths[i].0, item, m, kind.Segment());
    if m in item.operations {
      KindFields(s, item.operations[m], kind);
    }
    DocumentChild(s, kind.Segment());
  }

  /** An unmatched URI fails every extractor query with findPath's own error. */
  lemma UnmatchedUriFailsEverywhere(s: Swagger, uri: string, verb: string, kind: MediaKind, status: int)
    requires PathKey(s, uri).Err?
    ensures MediaTypes(s, uri, verb, kind) == Err(PathKey(s, uri).error)
    ensures RequestParams(s, uri, verb) == Err(PathKey(s, uri).error)
    ensures ResponseFor(s, uri, verb, status) == Err(PathKey(s, uri).error)
    ensures RequestHeaderSchema(s, uri, verb) == Err(PathKey(s, uri).error)
    ensures RequestQuerySchema(s, uri, verb) == Err(PathKey(s, uri).error)
    ensures ResponseHeaderSchema(s, uri, verb, status) == Err(PathKey(s, uri).error)
    ensures RequestBodySchema(s, uri, verb) == Err(PathKey(s, uri).error)
    ensures ResponseBodySchema(s, uri, verb, status) == Err(PathKey(s, uri).error)
  {
  }

  // ===========================================================================
  // Parameters

  function ParamsOf(r: Result<Node>): seq<Parameter> {
    match r
    case Ok(ParametersNode(ps)) => ps
    case _ => []
  }

  /** requestParameters: path-level parameters, then method-level ones; lookups
      that find nothing contribute nothing. */
  function RequestParams(s: Swagger, path: string, verb: string): (r: Result<seq<Parameter>>)
    ensures r.Err? <==> PathKey(s, path).Err?
    ensures r.Err? ==> r.error == PathKey(s, path).error
  {
    match PathKey(s, path)
    case Err(e) => Err(e)
    case Ok(key) =>
      var atPath := ParamsOf(FindNode(s, ["paths", key, "parameters"]));
      var atMethod := ParamsOf(FindNode(s, ["paths", key, ToLower(verb), "parameters"]));
      Ok(atPath + atMethod)
  }

  /** requestParameters with its two appends; a lookup that finds no
      parameter list appends nothing. */
  method RequestParameters(s: Swagger, path: string, verb: string) returns (r: Result<seq<Parameter>>)
    ensures r == RequestParams(s, path, verb)
  {
    var params: seq<Parameter> := [];
    var key := FindPath(s, path);
    if key.Err? {
      return Err(key.error);
    }
    var data := FindNode(s, ["paths", key.value, "parameters"]);
    if data.Ok? && data.value.ParametersNode? {
      params := params + data.value.params;
    }
    assert params == ParamsOf(data);
    data := FindNode(s, ["paths", key.value, ToLower(verb), "parameters"]);
    ghost var atPath := params;
    if data.Ok? && data.value.ParametersNode? {
      params := params + data.value.params;
    }
    assert params == atPath + ParamsOf(data);
    return Ok(params);
  }

  /** The "parameters" fields of a path item and of an operation. */
  lemma ParametersFields(item: PathItem, op: Operation)
    ensures PlainToken("parameters")
    ensures Child(PathItemNode(item), "parameters") == Ok(ParametersNode(item.parameters))
    ensures Child(OperationNode(op), "parameters") == Ok(ParametersNode(op.parameters))
  {
  }

  /** The parameters of the selected path come first, the operation's after them,
      with order and duplicates kept. */
  lemma RequestParamsMerge(s: Swagger, uri: string, verb: string, i: int)
    requires Selects(s, uri, i) && '~' !in s.paths[i].0
    requires OperationToken(ToLower(verb))
    ensures var item := s.paths[i].1;
            var m := ToLower(verb);
            RequestParams(s, uri, verb) ==
              Ok(item.parameters + if m in item.operations then item.operations[m].parameters else [])
  {
    var key := s.paths[i].0;
    var item := s.paths[i].1;
    var m := ToLower(verb);
    SelectedKey(s, uri, i);
    ParametersFields(item, Operation([], [], [], Responses(None, map[])));
    ItemChild(s, key, item, "parameters");
    OperationChild(s, key, item, m, "parameters");
    if m in item.operations {
      ParametersFields(item, item.operations[m]);
    }
  }

  // ===========================================================================
  // Responses

  /** response: the entry for the decimal status code, else "default". */
  function ResponseFor(s: Swagger, path: string, verb: string, status: int): (r: Result<Response>)
    ensures PathKey(s, path).Err? ==> r == Err(PathKey(s, path).error)
    ensures PathKey(s, path).Ok? && r.Err? ==> r.error.NodeNotFound?
  {
    match PathKey(s, path)
    case Err(e) => Err(e)
    case Ok(key) =>
      var m := ToLower(verb);
      match FindNode(s, ["paths", key, m, "responses", Itoa(status)])
      case Ok(ResponseNode(res)) => Ok(res)
      case _ =>
        match FindNode(s, ["paths", key, m, "responses", "default"])
        case Ok(ResponseNode(res)) => Ok(res)
        case Ok(_) => Err(NodeNotFound("default"))
        case Err(e) => Err(e)
  }

  /** The "responses" field of an operation and the "default" entry of its responses. */
  lemma ResponsesFields(op: Operation)
    ensures PlainToken("responses") && PlainToken("default")
    ensures Child(OperationNode(op), "responses") == Ok(ResponsesNode(op.responses))
    ensures Child(ResponsesNode(op.responses), "default")
            == if op.responses.default.Some? then Ok(ResponseNode(op.responses.default.value))
               else Err(NodeNotFound("default"))
  {
  }

  /** The status-code token selects the entry for that status, never "default". */
  lemma StatusChild(rs: Responses, status: int)
    ensures PlainToken(Itoa(status))
    ensures Child(ResponsesNode(rs), Itoa(status))
            == if status in rs.byStatus then Ok(ResponseNode(rs.byStatus[status]))
               else Err(NodeNotFound(Itoa(status)))
  {
    ItoaPlain(status);
    AtoiItoa(status);
    ItoaIsNotDefault(status);
  }

  /** The response for the status code when the operation declares one, else
      its "default" response, else a missing-node error. */
  lemma ResponseFallback(s: Swagger, uri: string, verb: string, status: int, i: int)
    requires Selects(s, uri, i) && '~' !in s.paths[i].0
    requires OperationToken(ToLower(verb))
    ensures var item := s.paths[i].1;
            var m := ToLower(verb);
            ResponseFor(s, uri, verb, status) ==
              if m !in item.operations then Err(NodeNotFound(m))
              else
                var rs := item.operations[m].responses;
                if status in rs.byStatus then Ok(rs.byStatus[status])
                else if rs.default.Some? then Ok(rs.default.value)
                else Err(NodeNotFound("default"))
  {
    var key := s.paths[i].0;
    var item := s.paths[i].1;
    var m := ToLower(verb);
    var code := Itoa(status);
    SelectedKey(s, uri, i);
    ResponsesFields(Operation([], [], [], Responses(None, map[])));
    StatusChild(Responses(None, map[]), status);
    OperationGrandchild(s, key, item, m, "responses", code);
    OperationGrandchild(s, key, item, m, "responses", "default");
    if m in item.operations {
      ResponsesFields(item.operations[m]);
      StatusChild(item.operations[m].responses, status);
    }
  }

  // ===========================================================================
  // Request header and query descriptors

  function ParamDescriptor(p: Parameter): Descriptor {
    Param(p.typ, p.description, p.location)
  }

  /** The map the loop builds: each parameter at `location`, keyed by its
      lower-cased name, a later one overwriting an earlier one. */
  function CollectParams(ps: seq<Parameter>, location: string): Descriptors
    decreases |ps|
  {
    if ps == [] then map[]
    else
      var m := CollectParams(ps[..|ps| - 1], location);
      var p := ps[|ps| - 1];
      if p.location == location then m[ToLower(p.name) := ParamDescriptor(p)] else m
  }

  /** The names the loop appends to `required`, in parameter order. */
  function RequiredNames(ps: seq<Parameter>, location: string): seq<string>
    decreases |ps|
  {
    if ps == [] then []
    else
      var p := ps[|ps| - 1];
      RequiredNames(ps[..|ps| - 1], location)
        + if p.location == location && p.required then [ToLower(p.name)] else []
  }

  /** The "required" entry, stored only when some name is listed. */
  function WithRequired(m: Descriptors, required: seq<string>): Descriptors {
    if |required| > 0 then m["required" := Required(required)] else m
  }

  function ParamSchema(ps: seq<Parameter>, location: string): Descriptors {
    WithRequired(CollectParams(ps, location), RequiredNames(ps, location))
  }

  /** The loop shared by RequestHeaders and RequestQuery. */
  method CollectDescriptors(ps: seq<Parameter>, location: string) returns (d: Descriptors)
    ensures d == ParamSchema(ps, location)
  {
    var m: Descriptors := map[];
    var required: seq<string> := [];
    for i := 0 to |ps|
      invariant m == CollectParams(ps[..i], location)
      invariant required == RequiredNames(ps[..i], location)
    {
      assert ps[..i + 1][..i] == ps[..i];
      var p := ps[i];
      if p.location == location {
        var name := ToLower(p.name);
        m := m[name := ParamDescriptor(p)];
        if p.required {
          required := required + [name];
        }
      }
    }
    assert ps[..|ps|] == ps;
    if |required| > 0 {
      m := m["required" := Required(required)];
    }
    d := m;
  }

  function RequestHeaderSchema(s: Swagger, path: string, verb: string): (r: Result<Descriptors>)
    ensures r.Err? <==> PathKey(s, path).Err?
    ensures r.Err? ==> r.error == PathKey(s, path).error
  {
    match RequestParams(s, path, verb)
    case Err(e) => Err(e)
    case Ok(ps) => Ok(ParamSchema(ps, "header"))
  }

  function RequestQuerySchema(s: Swagger, path: string, verb: string): (r: Result<Descriptors>)
    ensures r.Err? <==> PathKey(s, path).Err?
    ensures r.Err? ==> r.error == PathKey(s, path).error
  {
    match RequestParams(s, path, verb)
    case Err(e) => Err(e)
    case Ok(ps) => Ok(ParamSchema(ps, "query"))
  }

  /** Swagger.RequestHeaders. */
  method RequestHeaders(s: Swagger, path: string, verb: string) returns (r: Result<Descriptors>)
    ensures r == RequestHeaderSchema(s, path, verb)
  {
    var params := RequestParameters(s, path, verb);
    if params.Err? {
      return Err(params.error);
    }
    var d := CollectDescriptors(params.value, "header");
    return Ok(d);
  }

  /** Swagger.RequestQuery. */
  method RequestQuery(s: Swagger, path: string, verb: string) returns (r: Result<Descriptors>)
    ensures r == RequestQuerySchema(s, path, verb)
  {
    var params := RequestParameters(s, path, verb);
    if params.Err? {
      return Err(params.error);
    }
    var d := CollectDescriptors(params.value, "query");
    return Ok(d);
  }

  lemma {:induction false} CollectParamsKeys(ps: seq<Parameter>, location: string)
    ensures forall k :: k in CollectParams(ps, location) <==>
              exists i :: 0 <= i < |ps| && ps[i].location == location && ToLower(ps[i].name) == k
    ensures forall k :: k in CollectParams(ps, location) ==>
              CollectParams(ps, location)[k].Param? && CollectParams(ps, location)[k].location == location
    decreases |ps|
  {
    if ps != [] {
      var init := ps[..|ps| - 1];
      CollectParamsKeys(init, location);
      forall k | (exists i :: 0 <= i < |ps| && ps[i].location == location && ToLower(ps[i].name) == k)
        ensures k in CollectParams(ps, location)
      {
        var i :| 0 <= i < |ps| && ps[i].location == location && ToLower(ps[i].name) == k;
        if i < |ps| - 1 {
          assert init[i] == ps[i];
        }
      }
      forall k | k in CollectParams(ps, location)
        ensures exists i :: 0 <= i < |ps| && ps[i].location == location && ToLower(ps[i].name) == k
      {
        if k in CollectParams(init, location) {
          var i :| 0 <= i < |init| && init[i].location == location && ToLower(init[i].name) == k;
          assert ps[i] == init[i];
        } else {
          assert ps[|ps| - 1].location == location && ToLower(ps[|ps| - 1].name) == k;
        }
      }
    }
  }

  /** The entry of a name is the descriptor of the LAST parameter with that
      lower-cased name at the location. */
  lemma {:induction false} CollectParamsLastWins(ps: seq<Parameter>, location: string, j: int)
    requires 0 <= j < |ps| && ps[j].location == location
    requires forall l :: j < l < |ps| && ps[l].location == location ==> ToLower(ps[l].name) != ToLower(ps[j].name)
    ensures ToLower(ps[j].name) in CollectParams(ps, location)
    ensures CollectParams(ps, location)[ToLower(ps[j].name)] == ParamDescriptor(ps[j])
    decreases |ps|
  {
    if j < |ps| - 1 {
      var init := ps[..|ps| - 1];
      assert init[j] == ps[j];
      CollectParamsLastWins(init, location, j);
    }
  }

  /** Path-level required names come before method-level ones. */
  lemma {:induction false} RequiredNamesAppend(a: seq<Parameter>, b: seq<Parameter>, location: string)
    ensures RequiredNames(a + b, location) == RequiredNames(a, location) + RequiredNames(b, location)
    decreases |b|
  {
    if b == [] {
      assert a + b == a;
    } else {
      assert (a + b)[..|a + b| - 1] == a + b[..|b| - 1];
      RequiredNamesAppend(a, b[..|b| - 1], location);
    }
  }

  /** The required list names exactly the required parameters at the location. */
  lemma {:induction false} RequiredNamesMembers(ps: seq<Parameter>, location: string)
    ensures forall x :: x in RequiredNames(ps, location) <==>
              exists i :: 0 <= i < |ps| && ps[i].location == location && ps[i].required && ToLower(ps[i].name) == x
    decreases |ps|
  {
    if ps != [] {
      var init := ps[..|ps| - 1];
      RequiredNamesMembers(init, location);
      forall x | x in RequiredNames(ps, location)
        ensures exists i :: 0 <= i < |ps| && ps[i].location == location && ps[i].required && ToLower(ps[i].name) == x
      {
        if x in RequiredNames(init, location) {
          var i :| 0 <= i < |init| && init[i].location == location && init[i].required && ToLower(init[i].name) == x;
          assert ps[i] == init[i];
        }
      }
      forall x | exists i :: 0 <= i < |ps| && ps[i].location == location && ps[i].required && ToLower(ps[i].name) == x
        ensures x in RequiredNames(ps, location)
      {
        var i :| 0 <= i < |ps| && ps[i].location == location && ps[i].required && ToLower(ps[i].name) == x;
        if i < |ps| - 1 {
          assert init[i] == ps[i];
        }
      }
    }
  }

  /** The descriptor map: one key per lower-cased name at the location, plus
      "required" exactly when some such parameter is required; the "required"
      entry lists the required names in parameter order and overrides any
      parameter of that name. */
  lemma ParamSchemaShape(ps: seq<Parameter>, location: string)
    ensures forall k :: k in ParamSchema(ps, location) <==>
              (k == "required" && |RequiredNames(ps, location)| > 0)
              || exists i :: 0 <= i < |ps| && ps[i].location == location && ToLower(ps[i].name) == k
    ensures ("required" in ParamSchema(ps, location) && |RequiredNames(ps, location)| > 0)
            ==> ParamSchema(ps, location)["required"] == Required(RequiredNames(ps, location))
    ensures |RequiredNames(ps, location)| > 0 <==>
              exists i :: 0 <= i < |ps| && ps[i].location == location && ps[i].required
  {
    CollectParamsKeys(ps, location);
    RequiredNamesMembers(ps, location);
    var req := RequiredNames(ps, location);
    if exists i :: 0 <= i < |ps| && ps[i].location == location && ps[i].required {
      var i :| 0 <= i < |ps| && ps[i].location == location && ps[i].required;
      assert ToLower(ps[i].name) in req;
    }
  }

  // ===========================================================================
  // Response header descriptors

  /** Each declared response header, keyed by its lower-cased name. */
  function HeaderMap(hs: seq<(string, Header)>): Descriptors
    decreases |hs|
  {
    if hs == [] then map[]
    else HeaderMap(hs[..|hs| - 1])[ToLower(hs[|hs| - 1].0) := HeaderSchema(hs[|hs| - 1].1)]
  }

  /** Every declared response header name, lower-cased, in iteration order. */
  function HeaderNames(hs: seq<(string, Header)>): (names: seq<string>)
    ensures |names| == |hs|
    ensures forall i :: 0 <= i < |hs| ==> names[i] == ToLower(hs[i].0)
    decreases |hs|
  {
    if hs == [] then [] else HeaderNames(hs[..|hs| - 1]) + [ToLower(hs[|hs| - 1].0)]
  }

  function HeaderSchemaOf(res: Response): Descriptors {
    WithRequired(HeaderMap(res.headers), HeaderNames(res.headers))
  }

  function ResponseHeaderSchema(s: Swagger, path: string, verb: string, status: int): (r: Result<Descriptors>)
    ensures PathKey(s, path).Err? ==> r == Err(PathKey(s, path).error)
    ensures PathKey(s, path).Ok? && r.Err? ==> r.error.NodeNotFound?
  {
    match ResponseFor(s, path, verb, status)
    case Err(e) => Err(e)
    case Ok(res) => Ok(HeaderSchemaOf(res))
  }

  /** The loop of Swagger.ResponseHeaders over the response's headers. */
  method CollectHeaders(hs: seq<(string, Header)>) returns (d: Descriptors)
    ensures d == WithRequired(HeaderMap(hs), HeaderNames(hs))
  {
    var m: Descriptors := map[];
    var required: seq<string> := [];
    for i := 0 to |hs|
      invariant m == HeaderMap(hs[..i])
      invariant required == HeaderNames(hs[..i])
    {
      assert hs[..i + 1][..i] == hs[..i];
      var name := ToLower(hs[i].0);
      m := m[name := HeaderSchema(hs[i].1)];
      required := required + [name];
    }
    assert hs[..|hs|] == hs;
    if |required| > 0 {
      m := m["required" := Required(required)];
    }
    d := m;
  }

  /** Swagger.ResponseHeaders. */
  method ResponseHeaders(s: Swagger, path: string, verb: string, status: int) returns (r: Result<Descriptors>)
    ensures r == ResponseHeaderSchema(s, path, verb, status)
  {
    var res := ResponseFor(s, path, verb, status);
    if res.Err? {
      return Err(res.error);
    }
    var d := CollectHeaders(res.value.headers);
    return Ok(d);
  }

  lemma {:induction false} HeaderMapKeys(hs: seq<(string, Header)>)
    ensures forall k :: k in HeaderMap(hs) <==> exists i :: 0 <= i < |hs| && ToLower(hs[i].0) == k
    decreases |hs|
  {
    if hs != [] {
      var init := hs[..|hs| - 1];
      HeaderMapKeys(init);
      forall k | k in HeaderMap(hs)
        ensures exists i :: 0 <= i < |hs| && ToLower(hs[i].0) == k
      {
        if k in HeaderMap(init) {
          var i :| 0 <= i < |init| && ToLower(init[i].0) == k;
          assert hs[i] == init[i];
        }
      }
      forall k | exists i :: 0 <= i < |hs| && ToLower(hs[i].0) == k
        ensures k in HeaderMap(hs)
      {
        var i :| 0 <= i < |hs| && ToLower(hs[i].0) == k;
        if i < |hs| - 1 {
          assert init[i] == hs[i];
        }
      }
    }
  }

  /** A header's name maps to its own schema when no later header in the
      iteration has the same lower-cased name; a later one overwrites it. */
  lemma {:induction false} HeaderMapLastWins(hs: seq<(string, Header)>, j: int)
    requires 0 <= j < |hs|
    requires forall l :: j < l < |hs| ==> ToLower(hs[l].0) != ToLower(hs[j].0)
    ensures ToLower(hs[j].0) in HeaderMap(hs)
    ensures HeaderMap(hs)[ToLower(hs[j].0)] == HeaderSchema(hs[j].1)
    decreases |hs|
  {
    if j < |hs| - 1 {
      var init := hs[..|hs| - 1];
      assert init[j] == hs[j];
      HeaderMapLastWins(init, j);
    }
  }

  /** ResponseHeaders maps each declared header, lower-cased, to its schema,
      except a header named "required", whose entry the required list replaces. */
  lemma ResponseHeaderValue(res: Response, j: int)
    requires 0 <= j < |res.headers|
    requires forall l :: j < l < |res.headers| ==> ToLower(res.headers[l].0) != ToLower(res.headers[j].0)
    ensures var name := ToLower(res.headers[j].0);
            name != "required" ==> name in HeaderSchemaOf(res) && HeaderSchemaOf(res)[name] == HeaderSchema(res.headers[j].1)
    ensures ToLower(res.headers[j].0) == "required" ==>
              HeaderSchemaOf(res)["required"] == Required(HeaderNames(res.headers))
  {
    HeaderMapLastWins(res.headers, j);
  }

  /** Unlike request parameters, every declared response header is required:
      the "required" list holds each declared name, lower-cased, and is stored
      exactly when some header is declared. */
  lemma ResponseHeadersAllRequired(res: Response)
    ensures forall k :: k in HeaderSchemaOf(res) <==>
              (k == "required" && |res.headers| > 0)
              || exists i :: 0 <= i < |res.headers| && ToLower(res.headers[i].0) == k
    ensures |res.headers| > 0 ==>
              && HeaderSchemaOf(res)["required"].Required?
              && (forall x :: x in HeaderSchemaOf(res)["required"].names <==>
                    exists i :: 0 <= i < |res.headers| && ToLower(res.headers[i].0) == x)
  {
    HeaderMapKeys(res.headers);
    var names := HeaderNames(res.headers);
    forall x | x in names
      ensures exists i :: 0 <= i < |res.headers| && ToLower(res.headers[i].0) == x
    {
      var i :| 0 <= i < |names| && names[i] == x;
    }
  }

  // ===========================================================================
  // Body schemas

  /** The first parameter located in the body. */
  function FirstBody(ps: seq<Parameter>): Option<Parameter>
    decreases |ps|
  {
    if ps == [] then None
    else if ps[0].location == "body" then Some(ps[0])
    else FirstBody(ps[1..])
  }

  lemma {:induction false} FirstBodySpec(ps: seq<Parameter>)
    ensures FirstBody(ps).None? <==> forall i :: 0 <= i < |ps| ==> ps[i].location != "body"
    ensures FirstBody(ps).Some? ==>
              exists i :: && 0 <= i < |ps| && ps[i] == FirstBody(ps).value && ps[i].location == "body"
                          && forall j :: 0 <= j < i ==> ps[j].location != "body"
    decreases |ps|
  {
    if ps != [] && ps[0].location != "body" {
      FirstBodySpec(ps[1..]);
      if FirstBody(ps).Some? {
        var i :| && 0 <= i < |ps[1..]| && ps[1..][i] == FirstBody(ps[1..]).value && ps[1..][i].location == "body"
                 && forall j :: 0 <= j < i ==> ps[1..][j].location != "body";
        assert forall j :: 0 < j <= i ==> ps[j] == ps[1..][j - 1];
        assert ps[i + 1] == FirstBody(ps).value;
      }
      if forall i :: 0 <= i < |ps[1..]| ==> ps[1..][i].location != "body" {
        assert forall i :: 1 <= i < |ps| ==> ps[i] == ps[1..][i - 1];
      }
    }
  }

  /** RequestBody: the schema of the first body parameter, else ErrBodyNotFound. */
  function RequestBodySchema(s: Swagger, path: string, verb: string): (r: Result<Option<Schema>>)
    ensures PathKey(s, path).Err? ==> r == Err(PathKey(s, path).error)
    ensures PathKey(s, path).Ok? && r.Err? ==> r.error == BodyNotFound
  {
    match RequestParams(s, path, verb)
    case Err(e) => Err(e)
    case Ok(ps) =>
      match FirstBody(ps)
      case Some(p) => Ok(p.schema)
      case None => Err(BodyNotFound)
  }

  /** Swagger.RequestBody with its first-match loop. */
  method RequestBody(s: Swagger, path: string, verb: string) returns (r: Result<Option<Schema>>)
    ensures r == RequestBodySchema(s, path, verb)
  {
    var params := RequestParameters(s, path, verb);
    if params.Err? {
      return Err(params.error);
    }
    var ps := params.value;
    assert RequestBodySchema(s, path, verb) == match FirstBody(ps)
                                               case Some(p) => Ok(p.schema)
                                               case None => Err(BodyNotFound);
    for i := 0 to |ps|
      invariant FirstBody(ps[i..]) == FirstBody(ps)
    {
      FirstBodyStep(ps, i);
      if ps[i].location == "body" {
        return Ok(ps[i].schema);
      }
    }
    assert ps[|ps|..] == [];
    return Err(BodyNotFound);
  }

  lemma FirstBodyStep(ps: seq<Parameter>, i: nat)
    requires i < |ps|
    ensures FirstBody(ps[i..]) == if ps[i].location == "body" then Some(ps[i]) else FirstBody(ps[i + 1..])
  {
    assert ps[i..][0] == ps[i];
    assert ps[i..][1..] == ps[i + 1..];
  }

  /** ResponseBody: the response's schema, else ErrBodyNotFound. */
  function ResponseBodySchema(s: Swagger, path: string, verb: string, status: int): (r: Result<Option<Schema>>)
    ensures r.Ok? ==> r.value.Some?
    ensures PathKey(s, path).Err? ==> r == Err(PathKey(s, path).error)
    ensures PathKey(s, path).Ok? && r.Err? ==> r.error.NodeNotFound? || r.error == BodyNotFound
  {
    match ResponseFor(s, path, verb, status)
    case Err(e) => Err(e)
    case Ok(res) => if res.schema.Some? then Ok(res.schema) else Err(BodyNotFound)
  }

  /** The schema of the response for the status code, else of the "default"
      response; ErrBodyNotFound when the chosen response declares none. */
  lemma ResponseBodyFallback(s: Swagger, uri: string, verb: string, status: int, i: int)
    requires Selects(s, uri, i) && '~' !in s.paths[i].0
    requires OperationToken(ToLower(verb))
    ensures var item := s.paths[i].1;
            var m := ToLower(verb);
            ResponseBodySchema(s, uri, verb, status) ==
              if m !in item.operations then Err(NodeNotFound(m))
              else
                var rs := item.operations[m].responses;
                var chosen := if status in rs.byStatus then Some(rs.byStatus[status]) else rs.default;
                if chosen.None? then Err(NodeNotFound("default"))
                else if chosen.value.schema.Some? then Ok(chosen.value.schema)
                else Err(BodyNotFound)
  {
    ResponseFallback(s, uri, verb, status, i);
  }
}
