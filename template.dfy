/** URI templates used in reverse: a declared path such as
    "/api/pets/{id}" is compiled into pieces and a literal URI is tested
    against it. Only simple string expansion (RFC 6570 section 3.2.2) is
    modelled: a variable matches any run, possibly empty, of characters that
    such an expansion can produce (unreserved characters, '%' and the ','
    that separates the items of a list value); the match
    is anchored at both ends. */
module UriTemplate {

  datatype Piece = Lit(c: char) | Var(name: string)

  datatype Compiled = Compiled(pieces: seq<Piece>) | Malformed(reason: string)

  predicate IsAlphaNum(c: char) {
    'a' <= c <= 'z' || 'A' <= c <= 'Z' || '0' <= c <= '9'
  }

  /** A character of a variable name: RFC 6570 varchar without pct-encoding, or the '.' between varchars. */
  predicate NameChar(c: char) {
    IsAlphaNum(c) || c == '_' || c == '.'
  }

  /** A character a simple expansion can emit: unreserved, '%' of a
      pct-encoding, or the ',' between the items of a list value. */
  predicate ValueChar(c: char) {
    IsAlphaNum(c) || c == '-' || c == '.' || c == '_' || c == '~' || c == '%' || c == ','
  }

  /** RFC 6570 section 2.3 varname: varchar *( ["."] varchar ). A leading '.'
      is the label operator, which the model does not compile. */
  predicate ValidName(name: string) {
    && |name| > 0
    && (forall i :: 0 <= i < |name| ==> NameChar(name[i]))
    && name[0] != '.' && name[|name| - 1] != '.'
    && forall i :: 0 <= i < |name| - 1 && name[i] == '.' ==> name[i + 1] != '.'
  }

  predicate AllValueChars(s: string) {
    forall i :: 0 <= i < |s| ==> ValueChar(s[i])
  }

  /** The index of the first '}' at or after `from`, or |t| if there is none. */
  function CloseAt(t: string, from: nat): (n: nat)
    requires from <= |t|
    ensures from <= n <= |t|
    ensures n < |t| ==> t[n] == '}'
    ensures forall i :: from <= i < n ==> t[i] != '}'
    decreases |t| - from
  {
    if from == |t| || t[from] == '}' then from else CloseAt(t, from + 1)
  }

  /** uritemplate.New: split the template text into literal characters and variables. */
  function Compile(t: string): (r: Compiled)
    ensures r.Compiled? ==> forall k :: 0 <= k < |r.pieces| && r.pieces[k].Var? ==> ValidName(r.pieces[k].name)
    decreases |t|
  {
    if t == [] then Compiled([])
    else if t[0] == '}' then Malformed("unexpected '}'")
    else if t[0] == '{' then
      var n := CloseAt(t, 1);
      if n == |t| then Malformed("unclosed expression")
      else if !ValidName(t[1..n]) then Malformed("invalid expression")
      else
        match Compile(t[n + 1..])
        case Compiled(ps) => Compiled([Var(t[1..n])] + ps)
        case Malformed(why) => Malformed(why)
    else
      match Compile(t[1..])
      case Compiled(ps) => Compiled([Lit(t[0])] + ps)
      case Malformed(why) => Malformed(why)
  }

  /** The compiled template's regular expression matches the whole URI. */
  predicate Matches(ps: seq<Piece>, uri: string)
    ensures Matches(ps, uri) && (forall k :: 0 <= k < |ps| ==> ps[k].Lit?) ==> |uri| == |ps|
    decreases |ps|
  {
    if ps == [] then uri == []
    else match ps[0]
      case Lit(c) => |uri| > 0 && uri[0] == c && Matches(ps[1..], uri[1..])
      case Var(_) =>
        exists k :: 0 <= k <= |uri| && AllValueChars(uri[..k]) && Matches(ps[1..], uri[k..])
  }

  /** A leading '.' is RFC 6570's label operator, not part of a name: "{.id}" does not compile. */
  lemma LabelOperatorRejected()
    ensures Compile("{.id}").Malformed?
  {
    var t := "{.id}";
    assert CloseAt(t, 1) == 4 by {
      assert t[1] != '}' && t[2] != '}' && t[3] != '}' && t[4] == '}';
    }
    assert t[1..4][0] == '.';
  }

  predicate NoBraces(t: string) {
    '{' !in t && '}' !in t
  }

  function Literals(t: string): (ps: seq<Piece>)
    ensures |ps| == |t|
    ensures forall i :: 0 <= i < |t| ==> ps[i] == Lit(t[i])
  {
    if t == [] then [] else [Lit(t[0])] + Literals(t[1..])
  }

  /** A template without expressions compiles to its characters. */
  lemma {:induction false} CompileLiteral(t: string)
    requires NoBraces(t)
    ensures Compile(t) == Compiled(Literals(t))
  {
    if t != [] {
      assert t[0] in t;
      assert forall c :: c in t[1..] ==> c in t;
      CompileLiteral(t[1..]);
    }
  }

  /** ... and then matches exactly the URI equal to it. */
  lemma {:induction false} LiteralMatchesItself(t: string, uri: string)
    ensures Matches(Literals(t), uri) <==> uri == t
  {
    if t != [] {
      LiteralMatchesItself(t[1..], if |uri| > 0 then uri[1..] else uri);
      if |uri| > 0 && uri[0] == t[0] && uri[1..] == t[1..] {
        assert uri == [uri[0]] + uri[1..];
        assert t == [t[0]] + t[1..];
      }
    }
  }

  /** Every character of a matched URI is a literal of the template or a
      character a variable can produce. */
  lemma {:induction false} MatchedChars(ps: seq<Piece>, uri: string, j: nat)
    requires Matches(ps, uri)
    requires j < |uri|
    ensures ValueChar(uri[j]) || Lit(uri[j]) in ps
    decreases |ps|
  {
    match ps[0]
    case Lit(c) =>
      if j > 0 {
        MatchedChars(ps[1..], uri[1..], j - 1);
      }
    case Var(_) =>
      var k :| 0 <= k <= |uri| && AllValueChars(uri[..k]) && Matches(ps[1..], uri[k..]);
      if j < k {
        assert uri[..k][j] == uri[j];
      } else {
        MatchedChars(ps[1..], uri[k..], j - k);
      }
  }

  /** Compiling keeps only characters of the template text as literals. */
  lemma {:induction false} CompiledLiteralsComeFromText(t: string, c: char)
    requires Compile(t).Compiled?
    requires Lit(c) in Compile(t).pieces
    ensures c in t
    decreases |t|
  {
    if t[0] == '{' {
      var n := CloseAt(t, 1);
      var rest := Compile(t[n + 1..]);
      assert Compile(t).pieces == [Var(t[1..n])] + rest.pieces;
      CompiledLiteralsComeFromText(t[n + 1..], c);
    } else {
      var rest := Compile(t[1..]);
      assert Compile(t).pieces == [Lit(t[0])] + rest.pieces;
      if c != t[0] {
        CompiledLiteralsComeFromText(t[1..], c);
      }
    }
  }

  /** A URI holding a character no variable can produce, say the '?' of a
      query string, matches only templates that spell that character out. */
  lemma NoMatchWithForeignChar(t: string, uri: string, j: nat)
    requires Compile(t).Compiled?
    requires j < |uri| && !ValueChar(uri[j]) && uri[j] !in t
    ensures !Matches(Compile(t).pieces, uri)
  {
    if Matches(Compile(t).pieces, uri) {
      MatchedChars(Compile(t).pieces, uri, j);
      CompiledLiteralsComeFromText(t, uri[j]);
    }
  }
}
