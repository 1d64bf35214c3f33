/** The string operations the asserter takes from Go's standard library:
    strings.ToLower, strings.Join, strings.Split, strings.ReplaceAll,
    strconv.Itoa and strconv.Atoi, plus the JSON Pointer escaping of
    RFC 6901 section 4 as the pointer library applies it. */
module Text {

  import opened Errors

  // ---------------------------------------------------------------------------
  // Lower-casing (ASCII letters only)

  function LowerChar(c: char): (r: char)
    ensures 'A' <= c <= 'Z' ==> r as int == c as int + 32
    ensures !('A' <= c <= 'Z') ==> r == c
  {
    if 'A' <= c <= 'Z' then (c as int + 32) as char else c
  }

  /** strings.ToLower, restricted to ASCII case mapping. */
  function ToLower(s: string): (r: string)
    ensures |r| == |s|
    ensures forall i :: 0 <= i < |s| ==> r[i] == LowerChar(s[i])
  {
    if s == [] then [] else [LowerChar(s[0])] + ToLower(s[1..])
  }

  // ---------------------------------------------------------------------------
  // Join and Split

  /** strings.Join(parts, sep). */
  function Join(parts: seq<string>, sep: string): (r: string)
    ensures |parts| == 1 ==> r == parts[0]
    ensures parts == [] ==> r == ""
  {
    if parts == [] then ""
    else if |parts| == 1 then parts[0]
    else parts[0] + sep + Join(parts[1..], sep)
  }

  /** strings.Split(s, [c]): the pieces between occurrences of c; never empty. */
  function Split(s: string, c: char): (r: seq<string>)
    ensures |r| >= 1
    ensures forall k :: 0 <= k < |r| ==> c !in r[k]
  {
    if s == [] then [""]
    else
      var rest := Split(s[1..], c);
      if s[0] == c then [""] + rest else [[s[0]] + rest[0]] + rest[1..]
  }

  lemma {:induction false} SplitNoSeparator(p: string, c: char)
    requires c !in p
    ensures Split(p, c) == [p]
  {
    if p != [] {
      SplitNoSeparator(p[1..], c);
      assert [p[0]] + p[1..] == p;
    }
  }

  lemma {:induction false} SplitAfterPiece(p: string, c: char, s: string)
    requires c !in p
    ensures Split(p + [c] + s, c) == [p] + Split(s, c)
  {
    if p == [] {
      assert p + [c] + s == [c] + s;
      assert ([c] + s)[1..] == s;
    } else {
      var t := p + [c] + s;
      assert t[0] == p[0];
      assert t[1..] == p[1..] + [c] + s;
      SplitAfterPiece(p[1..], c, s);
      assert [p[0]] + p[1..] == p;
    }
  }

  /** Splitting a join on a separator that occurs in no piece gives the pieces back. */
  lemma {:induction false} SplitJoin(parts: seq<string>, c: char)
    requires |parts| >= 1
    requires forall i :: 0 <= i < |parts| ==> c !in parts[i]
    ensures Split(Join(parts, [c]), c) == parts
  {
    if |parts| == 1 {
      SplitNoSeparator(parts[0], c);
    } else {
      SplitJoin(parts[1..], c);
      SplitAfterPiece(parts[0], c, Join(parts[1..], [c]));
      assert [parts[0]] + parts[1..] == parts;
    }
  }

  // ---------------------------------------------------------------------------
  // JSON Pointer token escaping

  /** strings.ReplaceAll(s, "/", "~1"): the escaping findPath applies to a declared path. */
  function EscapeSlash(s: string): (r: string)
    ensures '/' !in r
    ensures forall i :: 0 <= i < |s| && s[i] != '/' ==> s[i] in r
  {
    if s == [] then []
    else (if s[0] == '/' then "~1" else [s[0]]) + EscapeSlash(s[1..])
  }

  /** A path without '/' is left as it is: nothing but '/' is escaped. */
  lemma {:induction false} EscapeSlashWithoutSlash(s: string)
    requires '/' !in s
    ensures EscapeSlash(s) == s
  {
    if s != [] {
      assert s[0] in s;
      assert forall c :: c in s[1..] ==> c in s;
      EscapeSlashWithoutSlash(s[1..]);
      assert [s[0]] + s[1..] == s;
    }
  }

  /** Escaping works character by character: '/' becomes "~1", any other
      character stays, so the escape of a concatenation is the concatenation
      of the escapes. */
  lemma {:induction false} EscapeSlashAppend(a: string, b: string)
    ensures EscapeSlash(a + b) == EscapeSlash(a) + EscapeSlash(b)
    decreases |a|
  {
    if a == [] {
      assert a + b == b;
    } else {
      assert (a + b)[0] == a[0];
      assert (a + b)[1..] == a[1..] + b;
      EscapeSlashAppend(a[1..], b);
    }
  }

  /** Replace every "~d" by `out`, scanning left to right (strings.ReplaceAll of a two-character pattern). */
  function Decode(s: string, d: char, out: char): (r: string)
    ensures |r| <= |s|
  {
    if |s| >= 2 && s[0] == '~' && s[1] == d then [out] + Decode(s[2..], d, out)
    else if s == [] then []
    else [s[0]] + Decode(s[1..], d, out)
  }

  /** RFC 6901 section 4: "~1" becomes "/" first, then "~0" becomes "~". A
      token without '~' is returned as it is, as both replacements leave it be. */
  function Unescape(token: string): (r: string)
    ensures '~' !in token ==> r == token
    ensures |r| <= |token|
  {
    if '~' !in token then token else Decode(Decode(token, '1', '/'), '0', '~')
  }

  lemma {:induction false} DecodeWithoutTilde(s: string, d: char, out: char)
    requires '~' !in s
    ensures Decode(s, d, out) == s
  {
    if s != [] {
      DecodeWithoutTilde(s[1..], d, out);
      assert [s[0]] + s[1..] == s;
    }
  }

  lemma {:induction false} DecodeEscapeSlash(s: string)
    requires '~' !in s
    ensures Decode(EscapeSlash(s), '1', '/') == s
  {
    if s != [] {
      DecodeEscapeSlash(s[1..]);
      var rest := EscapeSlash(s[1..]);
      if s[0] == '/' {
        assert EscapeSlash(s) == "~1" + rest;
        assert ("~1" + rest)[2..] == rest;
      } else {
        assert EscapeSlash(s) == [s[0]] + rest;
        assert ([s[0]] + rest)[1..] == rest;
      }
      assert [s[0]] + s[1..] == s;
    }
  }

  /** A declared path without '~' survives escaping and pointer decoding unchanged. */
  lemma EscapeRoundTrip(s: string)
    requires '~' !in s
    ensures Unescape(EscapeSlash(s)) == s
  {
    DecodeEscapeSlash(s);
    DecodeWithoutTilde(s, '0', '~');
  }

  /** A token free of '/' and '~': one pointer segment that needs no escaping. */
  predicate PlainToken(t: string) {
    '/' !in t && '~' !in t
  }

  /** findPath escapes only '/', so a declared path holding "~0" decodes to a different key. */
  lemma EscapeLosesTilde()
    ensures Unescape(EscapeSlash("/~0")) == "/~"
  {
    EscapeSample();
    DecodeSlashSample();
    DecodeTildeSample();
  }

  lemma EscapeSample()
    ensures EscapeSlash("/~0") == "~1~0"
  {
    assert EscapeSlash("/~0") == "~1" + EscapeSlash("~0");
    assert EscapeSlash("~0") == "~" + EscapeSlash("0");
  }

  lemma DecodeSlashSample()
    ensures Decode("~1~0", '1', '/') == "/~0"
  {
    var escaped := "~1~0";
    assert escaped[2..] == "~0";
    assert Decode("~0", '1', '/') == "~" + Decode("0", '1', '/');
  }

  lemma DecodeTildeSample()
    ensures Decode("/~0", '0', '~') == "/~"
  {
    var once := "/~0";
    assert once[1..] == "~0";
    assert Decode("~0", '0', '~') == "~" + Decode("", '0', '~');
  }

  // ---------------------------------------------------------------------------
  // Decimal integers

  function DigitChar(d: nat): (c: char)
    requires d < 10
    ensures '0' <= c <= '9'
  {
    ('0' as int + d) as char
  }

  function DigitValue(c: char): (d: nat)
    requires '0' <= c <= '9'
    ensures d < 10
  {
    c as int - '0' as int
  }

  /** The decimal digits of n, most significant first. */
  function NatToString(n: nat): (r: string)
    ensures |r| >= 1
    ensures forall i :: 0 <= i < |r| ==> '0' <= r[i] <= '9'
  {
    if n < 10 then [DigitChar(n)] else NatToString(n / 10) + [DigitChar(n % 10)]
  }

  /** strconv.Itoa. */
  function Itoa(n: int): (r: string)
    ensures |r| >= 1
    ensures r[0] == '-' <==> n < 0
  {
    if n < 0 then "-" + NatToString(-n) else NatToString(n)
  }

  predicate AllDigits(s: string) {
    forall i :: 0 <= i < |s| ==> '0' <= s[i] <= '9'
  }

  /** The value of a non-empty digit string. */
  function DigitsValue(s: string): nat
    requires |s| >= 1 && AllDigits(s)
  {
    if |s| == 1 then DigitValue(s[0])
    else DigitsValue(s[..|s| - 1]) * 10 + DigitValue(s[|s| - 1])
  }

  /** strconv.Atoi for an optional sign followed by decimal digits (no range limit). */
  function Atoi(s: string): (r: Option<int>)
    ensures r.Some? ==> |s| >= 1
    ensures r.Some? && r.value < 0 ==> s[0] == '-'
  {
    if |s| >= 2 && (s[0] == '-' || s[0] == '+') && AllDigits(s[1..]) then
      Some(if s[0] == '-' then 0 - DigitsValue(s[1..]) else DigitsValue(s[1..]))
    else if |s| >= 1 && AllDigits(s) then Some(DigitsValue(s))
    else None
  }

  lemma {:induction false} DigitsOfNat(n: nat)
    ensures DigitsValue(NatToString(n)) == n
  {
    if n >= 10 {
      DigitsOfNat(n / 10);
      var r := NatToString(n);
      assert r[..|r| - 1] == NatToString(n / 10);
      assert r[|r| - 1] == DigitChar(n % 10);
    }
  }

  /** A digit string reads back as its value. */
  lemma AtoiDigits(r: string)
    requires |r| >= 1 && AllDigits(r)
    ensures Atoi(r) == Some(DigitsValue(r))
  {
    assert '0' <= r[0] <= '9';
  }

  /** A minus sign followed by a digit string reads back as the negated value. */
  lemma AtoiNegative(r: string)
    requires |r| >= 1 && AllDigits(r)
    ensures Atoi("-" + r) == Some(0 - DigitsValue(r))
  {
    var s := "-" + r;
    assert s[0] == '-';
    assert s[1..] == r;
  }

  lemma AtoiMinus(m: nat)
    ensures Atoi("-" + NatToString(m)) == Some(0 - m)
  {
    DigitsOfNat(m);
    AtoiNegative(NatToString(m));
  }

  lemma AtoiItoaNegative(n: int)
    requires n < 0
    ensures Atoi(Itoa(n)) == Some(n)
  {
    var t := "-" + NatToString(-n);
    assert Itoa(n) == t;
    AtoiMinus(-n);
  }

  lemma AtoiItoaNat(n: nat)
    ensures Atoi(Itoa(n)) == Some(n)
  {
    var r := NatToString(n);
    assert Itoa(n) == r;
    DigitsOfNat(n);
    AtoiDigits(r);
  }

  /** The status-code token built by Itoa parses back to the status code. */
  lemma AtoiItoa(n: int)
    ensures Atoi(Itoa(n)) == Some(n)
  {
    if n < 0 {
      AtoiItoaNegative(n);
    } else {
      AtoiItoaNat(n);
    }
  }

  /** A status-code token is a plain pointer segment. */
  lemma ItoaPlain(n: int)
    ensures PlainToken(Itoa(n))
  {
    var r := Itoa(n);
    assert forall i :: 0 <= i < |r| ==> r[i] == '-' || '0' <= r[i] <= '9';
  }

  /** No status code is rendered as the word "default". */
  lemma ItoaIsNotDefault(n: int)
    ensures Itoa(n) != "default"
  {
    var r := Itoa(n);
    assert r[0] == '-' || '0' <= r[0] <= '9';
    assert "default"[0] == 'd';
  }
}
