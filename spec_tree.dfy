/** The document as a tree addressed by JSON Pointer (RFC 6901). A `Node`
    is what the pointer library hands back for a reference token; `Step`
    stands for its reflective lookup over go-openapi's types, restricted to
    the fields the asserter reads. */
module SpecTree {

  import opened Errors
  import opened Text
  import opened Document

  datatype Node =
    | DocumentNode(doc: Swagger)
    | PathsNode(entries: seq<(string, PathItem)>)
    | PathItemNode(item: PathItem)
    | OperationNode(op: Operation)
    | ResponsesNode(responses: Responses)
    | ResponseNode(response: Response)
    | ParametersNode(params: seq<Parameter>)
    | StringsNode(strings: seq<string>)
    | TextNode(text: string)

  /** Go's `paths[key]`: the item of the first entry with that key. */
  function LookupPath(entries: seq<(string, PathItem)>, key: string): (r: Option<PathItem>)
    ensures r.Some? <==> exists i :: 0 <= i < |entries| && entries[i].0 == key
    ensures r.Some? ==> exists i :: 0 <= i < |entries| && entries[i] == (key, r.value)
  {
    if entries == [] then None
    else if entries[0].0 == key then Some(entries[0].1)
    else LookupPath(entries[1..], key)
  }

  /** The child of `node` named by one (already unescaped) reference token. */
  function Step(node: Node, token: string): (r: Option<Node>)
    ensures node.TextNode? || node.StringsNode? || node.ParametersNode? ==> r.None?
  {
    match node
    case DocumentNode(d) =>
      if token == "basePath" then Some(TextNode(d.basePath))
      else if token == "paths" then Some(PathsNode(d.paths))
      else if token == "consumes" then Some(StringsNode(d.consumes))
      else if token == "produces" then Some(StringsNode(d.produces))
      else None
    case PathsNode(entries) =>
      (match LookupPath(entries, token)
       case Some(item) => Some(PathItemNode(item))
       case None => None)
    case PathItemNode(item) =>
      if token == "parameters" then Some(ParametersNode(item.parameters))
      else if token in item.operations then Some(OperationNode(item.operations[token]))
      else None
    case OperationNode(op) =>
      if token == "consumes" then Some(StringsNode(op.consumes))
      else if token == "produces" then Some(StringsNode(op.produces))
      else if token == "parameters" then Some(ParametersNode(op.parameters))
      else if token == "responses" then Some(ResponsesNode(op.responses))
      else None
    case ResponsesNode(rs) =>
      if token == "default" then
        (match rs.default
         case Some(res) => Some(ResponseNode(res))
         case None => None)
      else
        (match Atoi(token)
         case Some(code) => if code in rs.byStatus then Some(ResponseNode(rs.byStatus[code])) else None
         case None => None)
    case ResponseNode(res) =>
      if token == "description" then Some(TextNode(res.description)) else None
    case ParametersNode(_) => None
    case StringsNode(_) => None
    case TextNode(_) => None
  }

  /** pointer.Get: follow the tokens, unescaping each. The error names the
      token that had no node. */
  function Resolve(node: Node, tokens: seq<string>): (r: Result<Node>)
    ensures r.Err? ==> r.error.NodeNotFound? && r.error.cause in tokens
    decreases |tokens|
  {
    if tokens == [] then Ok(node)
    else
      match Step(node, Unescape(tokens[0]))
      case Some(child) => Resolve(child, tokens[1..])
      case None => Err(NodeNotFound(tokens[0]))
  }

  /** Resolving one token and then the rest. */
  lemma ResolveCons(node: Node, token: string, rest: seq<string>)
    ensures Resolve(node, [token] + rest)
            == match Step(node, Unescape(token))
               case Some(child) => Resolve(child, rest)
               case None => Err(NodeNotFound(token))
  {
    assert ([token] + rest)[0] == token;
    assert ([token] + rest)[1..] == rest;
  }

  /** jsonpointer.New: the empty pointer or '/'-separated reference tokens. */
  function ParsePointer(p: string): (r: Result<seq<string>>)
    ensures r.Err? <==> p != "" && p[0] != '/'
  {
    if p == "" then Ok([])
    else if p[0] != '/' then Err(PointerInvalid("JSON pointer must be empty or start with a \"/\""))
    else Ok(Split(p, '/')[1..])
  }

  /** The pointer findNode builds from its segments: a leading empty segment, joined by '/'. */
  function BuildPointer(segments: seq<string>): (p: string)
    ensures segments == [] ==> p == ""
    ensures segments != [] ==> |p| >= 1 && p[0] == '/'
  {
    var parts := [""] + segments;
    assert parts[0] == "" && parts[1..] == segments;
    Join(parts, "/")
  }

  /** The built pointer parses back into the segments it was made of,
      provided no segment holds a '/' of its own. */
  lemma ParseBuiltPointer(segments: seq<string>)
    requires forall i :: 0 <= i < |segments| ==> '/' !in segments[i]
    ensures ParsePointer(BuildPointer(segments)) == Ok(segments)
  {
    if segments != [] {
      var joined := Join(segments, "/");
      assert ([""] + segments)[1..] == segments;
      assert BuildPointer(segments) == "" + "/" + joined;
      SplitJoin(segments, '/');
      assert ("/" + joined)[1..] == joined;
      assert Split("/" + joined, '/') == [""] + Split(joined, '/');
    }
  }
}
