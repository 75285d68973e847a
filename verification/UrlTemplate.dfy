/**
  Templates of the url-template module: holes of the form {{ path }} in a text, paths through the
  payload, the request and the context. Resolution is pure; only the walk along a path is a loop.
 */
module UrlTemplate {
  import opened JsText
  import opened Json

  datatype Kind = Url | Header

  datatype Error =
    | InvalidPath(expression: string)
    | UnknownRoot(root: string)
    | NotAllowed(segment: string)
    | Missing(expression: string)
    | NotScalar(expression: string)
    | LineBreak(expression: string)
    | CannotEncode   // encodeURIComponent throws on a lone surrogate

  datatype Result<T> = Ok(value: T) | Err(error: Error)

  // ---------------------------------------------------------------- holes

  datatype Piece = Char(c: char) | Hole(expression: string)

  predicate IsBrace(c: char) { c == '{' || c == '}' }

  function BraceFree(s: string): nat
    ensures BraceFree(s) <= |s|
  {
    if s == "" || IsBrace(s[0]) then 0 else 1 + BraceFree(s[1..])
  }

  /** The length of the text between the braces when `s` starts with a hole, else 0 */
  function HoleLength(s: string): (n: nat)
    ensures n > 0 ==> n + 4 <= |s|
  {
    if |s| >= 2 && s[0] == '{' && s[1] == '{' then
      var n := BraceFree(s[2..]);
      if n + 4 <= |s| && s[n + 2] == '}' && s[n + 3] == '}' then n else 0
    else 0
  }

  /** The matches of TEMPLATE_RE from left to right, and the characters between them */
  function Pieces(s: string): seq<Piece> {
    if s == "" then []
    else
      var n := HoleLength(s);
      if n > 0 then [Hole(Trim(s[2..n + 2]))] + Pieces(s[n + 4..]) else [Char(s[0])] + Pieces(s[1..])
  }

  /** TEMPLATE_DETECT_RE */
  predicate HasTemplate(s: string) { s != "" && (HoleLength(s) > 0 || HasTemplate(s[1..])) }

  // ---------------------------------------------------------------- paths

  /** The name in a leading [name], ['name'] or ["name"], and what follows it */
  datatype Named = Named(name: string, rest: string)

  function Bracket(s: string): (b: Option<Named>)
    ensures b.Some? ==> b.value.name != "" && |b.value.rest| < |s|
  {
    if s == "" || s[0] != '[' then None
    else
      var q := if |s| > 1 && (s[1] == '\'' || s[1] == '"') then 1 else 0;
      var n := NameLength(s[1 + q..]);
      if n == 0 || 1 + q + n + q >= |s| || s[1 + q + n + q] != ']' || (q == 1 && s[1 + q + n] != s[1]) then None
      else Some(Named(s[1 + q..1 + q + n], s[2 + n + 2 * q..]))
  }

  function NameLength(s: string): nat
    ensures NameLength(s) <= |s|
  {
    if s == "" || s[0] == '\'' || s[0] == '"' || s[0] == ']' then 0 else 1 + NameLength(s[1..])
  }

  /** Bracketed names become dotted ones. */
  function Dotted(s: string): string
    decreases |s|
  {
    if s == "" then ""
    else if Bracket(s).Some? then "." + Bracket(s).value.name + Dotted(Bracket(s).value.rest)
    else [s[0]] + Dotted(s[1..])
  }

  /** split('.'), trim, drop empty segments */
  function Segments(s: string): seq<string>
    decreases |s|
  {
    var i := IndexOf(s, '.');
    var first := if Trim(s[..i]) == "" then [] else [Trim(s[..i])];
    if i == |s| then first else first + Segments(s[i + 1..])
  }

  predicate IsIdentifier(s: string) {
    && s != ""
    && (IsLetter(s[0]) || s[0] == '_' || s[0] == '$')
    && forall i :: 1 <= i < |s| ==> IsLetter(s[i]) || IsDigit(s[i]) || s[i] in {'_', '$', '-'}
  }

  predicate IsNumber(s: string) { s != "" && forall i :: 0 <= i < |s| ==> IsDigit(s[i]) }

  function ParsePath(expression: string): Result<seq<string>> {
    var segments := Segments(Dotted(expression));
    if segments == [] || exists i :: 0 <= i < |segments| && !IsIdentifier(segments[i]) && !IsNumber(segments[i])
    then Err(InvalidPath(expression)) else Ok(segments)
  }

  // ---------------------------------------------------------------- values

  function OrEmpty(v: Json): Json { if Truthy(v) then v else Obj(map[]) }

  /** Where a path may start */
  function Root(name: string, payload: Json, context: Fields): Option<Json> {
    var request := OrEmpty(Field(context, "request"));
    if name == "payload" then Some(payload)
    else if name == "request" || name == "_request" then Some(request)
    else if name == "msg" then Some(Obj(map["payload" := payload, "_request" := request]))
    else if name == "context" || name == "gateway" then Some(Obj(context))
    else if name == "global" then Some(OrEmpty(Field(context, "global")))
    else None
  }

  predicate IsUnsafeKey(key: string) { key in {"__proto__", "prototype", "constructor"} }

  /** The walk of readValue along the segments after the root */
  function Walk(v: Json, path: seq<string>): Result<Json>
    decreases |path|
  {
    if path == [] then Ok(v)
    else if IsUnsafeKey(path[0]) then Err(NotAllowed(path[0]))
    else if v.Undefined? || v.Null? then Ok(Undefined)
    else Walk(Get(v, path[0]), path[1..])
  }

  function ReadValue(expression: string, payload: Json, context: Fields): Result<Json> {
    var segments := ParsePath(expression);
    if segments.Err? then Err(segments.error) else ReadPath(segments.value, payload, context)
  }

  function ReadPath(segments: seq<string>, payload: Json, context: Fields): Result<Json> {
    if segments == [] then Err(UnknownRoot(""))
    else
      var root := Root(segments[0], payload, context);
      if root.None? then Err(UnknownRoot(segments[0])) else Walk(root.value, segments[1..])
  }

  /** The loop of readValue */
  method WalkPath(root: Json, path: seq<string>) returns (r: Result<Json>)
    ensures r == Walk(root, path)
  {
    var value := root;
    for i := 0 to |path|
      invariant Walk(value, path[i..]) == Walk(root, path)
    {
      assert path[i..][0] == path[i] && path[i..][1..] == path[i + 1..];
      if IsUnsafeKey(path[i]) { return Err(NotAllowed(path[i])); }
      if value.Undefined? || value.Null? { return Ok(Undefined); }
      value := Get(value, path[i]);
    }
    assert path[|path|..] == [];
    return Ok(value);
  }

  // ---------------------------------------------------------------- resolution

  /** encodeURIComponent, as a function that fails on lone surrogates */
  type Encoder = string -> Option<string>

  function Substitute(kind: Kind, encode: Encoder, expression: string, value: Json): Result<string> {
    if value.Undefined? || value.Null? then Err(Missing(expression))
    else if IsObject(value) then Err(NotScalar(expression))
    else if kind.Header? then
      if HasLineBreak(Text(value)) then Err(LineBreak(expression)) else Ok(Text(value))
    else
      var e := encode(Text(value));
      if e.None? then Err(CannotEncode) else Ok(e.value)
  }

  function Fill(kind: Kind, encode: Encoder, expression: string, payload: Json, context: Fields): Result<string> {
    var v := ReadValue(expression, payload, context);
    if v.Err? then Err(v.error) else Substitute(kind, encode, expression, v.value)
  }

  /** String.replace with a callback: the first callback that throws ends it. */
  function Replace(kind: Kind, encode: Encoder, pieces: seq<Piece>, payload: Json, context: Fields): Result<string> {
    if pieces == [] then Ok("")
    else
      var first := if pieces[0].Char? then Ok([pieces[0].c])
                   else Fill(kind, encode, pieces[0].expression, payload, context);
      if first.Err? then first
      else
        var rest := Replace(kind, encode, pieces[1..], payload, context);
        if rest.Err? then rest else Ok(first.value + rest.value)
  }

  function Resolve(kind: Kind, encode: Encoder, template: string, payload: Json, context: Fields): Result<string> {
    Replace(kind, encode, Pieces(template), payload, context)
  }

  // ---------------------------------------------------------------- properties

  /** The detector finds exactly the texts that have a hole, and any other text is its own resolution. */
  lemma {:induction false} PlainText(s: string, kind: Kind, encode: Encoder, payload: Json, context: Fields)
    ensures HasTemplate(s) <==> exists i :: 0 <= i < |Pieces(s)| && Pieces(s)[i].Hole?
    ensures !HasTemplate(s) ==> Resolve(kind, encode, s, payload, context) == Ok(s)
  {
    if s != "" {
      if HoleLength(s) > 0 {
        assert Pieces(s)[0].Hole?;
      } else {
        PlainText(s[1..], kind, encode, payload, context);
        assert Pieces(s) == [Char(s[0])] + Pieces(s[1..]);
        assert Pieces(s)[1..] == Pieces(s[1..]) && [s[0]] + s[1..] == s;
        if i :| 0 <= i < |Pieces(s[1..])| && Pieces(s[1..])[i].Hole? { assert Pieces(s)[i + 1].Hole?; }
        if i :| 0 <= i < |Pieces(s)| && Pieces(s)[i].Hole? { assert Pieces(s[1..])[i - 1].Hole?; }
      }
    }
  }

  /** A larger context: the same values, and more of them. */
  predicate Extends(small: Fields, large: Fields) { forall k :: k in small ==> k in large && large[k] == small[k] }

  predicate Usable(v: Result<Json>) { v.Ok? && IsScalar(v.value) }

  lemma {:induction false} NothingBelow(v: Json, path: seq<string>)
    requires v == Undefined || v == Obj(map[])
    ensures !Usable(Walk(v, path))
    decreases |path|
  {
    if path != [] && !IsUnsafeKey(path[0]) && v.Obj? { NothingBelow(Get(v, path[0]), path[1..]); }
  }

  /** A value found in the small context is the one the large context has. */
  lemma PathAgrees(segments: seq<string>, payload: Json, small: Fields, large: Fields)
    requires Extends(small, large) && "request" in small
    requires Usable(ReadPath(segments, payload, small))
    ensures ReadPath(segments, payload, large) == ReadPath(segments, payload, small)
  {
    var root, path := segments[0], segments[1..];
    if root == "global" && "global" !in small {
      NothingBelow(Obj(map[]), path);
    } else if root == "context" || root == "gateway" {
      if path != [] && path[0] !in small && !IsUnsafeKey(path[0]) { NothingBelow(Undefined, path[1..]); }
    }
  }

  lemma FillAgrees(kind: Kind, encode: Encoder, expression: string, payload: Json, small: Fields, large: Fields)
    requires Extends(small, large) && "request" in small
    requires Fill(kind, encode, expression, payload, small).Ok?
    ensures Fill(kind, encode, expression, payload, large) == Fill(kind, encode, expression, payload, small)
  {
    PathAgrees(ParsePath(expression).value, payload, small, large);
  }

  /** Whatever resolves at admission resolves at execution, to the same text. */
  lemma {:induction false} ReplaceAgrees(kind: Kind, encode: Encoder, pieces: seq<Piece>, payload: Json,
                                         small: Fields, large: Fields)
    requires Extends(small, large) && "request" in small
    requires Replace(kind, encode, pieces, payload, small).Ok?
    ensures Replace(kind, encode, pieces, payload, large) == Replace(kind, encode, pieces, payload, small)
  {
    if pieces != [] {
      if pieces[0].Hole? { FillAgrees(kind, encode, pieces[0].expression, payload, small, large); }
      ReplaceAgrees(kind, encode, pieces[1..], payload, small, large);
    }
  }

  /** The converse fails: a field that only the execution context has reads as missing at admission. */
  lemma ExtraFieldsAreMissing(f: string, payload: Json, small: Fields, large: Fields)
    requires f in large && f !in small && !IsUnsafeKey(f) && IsScalar(large[f])
    ensures ReadPath(["gateway", f], payload, small) == Ok(Undefined)
    ensures ReadPath(["gateway", f], payload, large) == Ok(large[f])
  {
    var segments := ["gateway", f];
    assert segments[1..] == [f] && [f][1..] == [];
    assert Walk(Obj(small), [f]) == Walk(Undefined, []);
    assert Walk(Obj(large), [f]) == Walk(large[f], []);
  }

  lemma FilledOnOneLine(encode: Encoder, expression: string, payload: Json, context: Fields)
    requires Fill(Header, encode, expression, payload, context).Ok?
    ensures !HasLineBreak(Fill(Header, encode, expression, payload, context).value)
  {
    var v := ReadValue(expression, payload, context);
    assert Fill(Header, encode, expression, payload, context) == Substitute(Header, encode, expression, v.value);
  }

  /** A header resolved without error holds no line break that its own text did not have. */
  lemma {:induction false} HeaderOnOneLine(encode: Encoder, pieces: seq<Piece>, payload: Json, context: Fields)
    requires Replace(Header, encode, pieces, payload, context).Ok?
    requires forall i :: 0 <= i < |pieces| && pieces[i].Char? ==> pieces[i].c != '\r' && pieces[i].c != '\n'
    ensures !HasLineBreak(Replace(Header, encode, pieces, payload, context).value)
  {
    if pieces != [] {
      if pieces[0].Hole? { FilledOnOneLine(encode, pieces[0].expression, payload, context); }
      HeaderOnOneLine(encode, pieces[1..], payload, context);
    }
  }

  // ---------------------------------------------------------------- writing templates and reading them back

  function Chars(s: string): seq<Piece> { if s == "" then [] else [Char(s[0])] + Chars(s[1..]) }

  predicate NoBraces(s: string) { forall i :: 0 <= i < |s| ==> !IsBrace(s[i]) }

  lemma {:induction false} BraceFreeUpTo(s: string, rest: string)
    requires NoBraces(s) && rest != "" && IsBrace(rest[0])
    ensures BraceFree(s + rest) == |s|
  {
    if s != "" {
      assert (s + rest)[1..] == s[1..] + rest;
      BraceFreeUpTo(s[1..], rest);
    } else {
      assert s + rest == rest;
    }
  }

  lemma HoleAtStart(expression: string, rest: string)
    requires NoBraces(expression) && expression != ""
    ensures var s := "{{" + expression + "}}" + rest;
      HoleLength(s) == |expression| && s[2..|expression| + 2] == expression && s[|expression| + 4..] == rest
  {
    var s, tail, n := "{{" + expression + "}}" + rest, "}}" + rest, |expression|;
    assert s[2..] == expression + tail;
    BraceFreeUpTo(expression, tail);
    assert s[n + 2] == (expression + tail)[n] && s[n + 3] == (expression + tail)[n + 1];
  }

  /** A hole written after brace-free text is read as that text and that hole, wherever it stands. */
  lemma {:induction false} HoleReadBack(before: string, expression: string, rest: string)
    requires NoBraces(before) && NoBraces(expression) && expression != ""
    ensures Pieces(before + ("{{" + expression + "}}" + rest))
            == Chars(before) + ([Hole(Trim(expression))] + Pieces(rest))
    decreases |before|
  {
    var hole := "{{" + expression + "}}" + rest;
    if before == "" {
      HoleAtStart(expression, rest);
      assert before + hole == hole;
    } else {
      CharBefore(before, hole);
      HoleReadBack(before[1..], expression, rest);
      var after := [Hole(Trim(expression))] + Pieces(rest);
      assert [Char(before[0])] + (Chars(before[1..]) + after) == Chars(before) + after;
    }
  }

  lemma CharBefore(before: string, s: string)
    requires before != "" && !IsBrace(before[0])
    ensures Pieces(before + s) == [Char(before[0])] + Pieces(before[1..] + s)
  {
    assert (before + s)[0] == before[0] && (before + s)[1..] == before[1..] + s;
  }

  predicate IsSegment(s: string) { IsIdentifier(s) || IsNumber(s) }

  /** A path written with dots */
  function Joined(path: seq<string>): string
    requires path != []
  {
    if |path| == 1 then path[0] else path[0] + "." + Joined(path[1..])
  }

  /** A path written with one kind of bracket after its root */
  function Bracketed(path: seq<string>, quote: string): string {
    if path == [] then "" else "[" + quote + path[0] + quote + "]" + Bracketed(path[1..], quote)
  }

  lemma SegmentChars(s: string)
    requires IsSegment(s)
    ensures s != "" && forall i :: 0 <= i < |s| ==>
      s[i] != '.' && s[i] != '[' && s[i] != ']' && s[i] != '\'' && s[i] != '"' && !IsSpace(s[i])
  {
  }

  lemma {:induction false} NoBracket(s: string, rest: string)
    requires forall i :: 0 <= i < |s| ==> s[i] != '['
    ensures Dotted(s + rest) == s + Dotted(rest)
  {
    if s != "" {
      assert (s + rest)[1..] == s[1..] + rest;
      NoBracket(s[1..], rest);
    } else {
      assert s + rest == rest;
    }
  }

  lemma IndexOfDot(first: string, rest: string)
    requires forall i :: 0 <= i < |first| ==> first[i] != '.'
    requires rest == "" || rest[0] == '.'
    ensures IndexOf(first + rest, '.') == |first|
  {
    var s, i := first + rest, IndexOf(first + rest, '.');
    assert forall j :: 0 <= j < |first| ==> s[j] == first[j];
    assert rest != "" ==> s[|first|] == '.';
    assert forall j :: 0 <= j < i ==> s[..i][j] == s[j] && s[j] != '.';
  }

  lemma {:induction false} JoinedSegments(path: seq<string>)
    requires path != [] && forall i :: 0 <= i < |path| ==> IsSegment(path[i])
    ensures Segments(Joined(path)) == path
    decreases |path|
  {
    SegmentChars(path[0]);
    TrimKeeps(path[0]);
    var rest := if |path| == 1 then "" else "." + Joined(path[1..]);
    assert Joined(path) == path[0] + rest;
    IndexOfDot(path[0], rest);
    if |path| > 1 {
      assert Joined(path)[|path[0]| + 1..] == Joined(path[1..]);
      JoinedSegments(path[1..]);
    }
  }

  lemma {:induction false} JoinedHasNoBracket(path: seq<string>)
    requires path != [] && forall i :: 0 <= i < |path| ==> IsSegment(path[i])
    ensures forall i :: 0 <= i < |Joined(path)| ==> Joined(path)[i] != '['
    decreases |path|
  {
    SegmentChars(path[0]);
    if |path| > 1 { JoinedHasNoBracket(path[1..]); }
  }

  /** Writing a path with dots and parsing it gives the path back. */
  lemma PathReadBack(path: seq<string>)
    requires path != [] && forall i :: 0 <= i < |path| ==> IsSegment(path[i])
    ensures ParsePath(Joined(path)) == Ok(path)
  {
    JoinedHasNoBracket(path);
    NoBracket(Joined(path), "");
    assert Joined(path) + "" == Joined(path);
    JoinedSegments(path);
  }

  lemma {:induction false} NameUpTo(name: string, tail: string)
    requires forall i :: 0 <= i < |name| ==> name[i] != '\'' && name[i] != '"' && name[i] != ']'
    requires tail != "" && (tail[0] == '\'' || tail[0] == '"' || tail[0] == ']')
    ensures NameLength(name + tail) == |name|
  {
    if name == "" {
      assert name + tail == tail;
    } else {
      assert (name + tail)[1..] == name[1..] + tail;
      NameUpTo(name[1..], tail);
    }
  }

  lemma BracketAtStart(name: string, quote: string, rest: string)
    requires IsSegment(name) && quote in {"", "'", "\""}
    ensures Bracket("[" + quote + name + quote + "]" + rest) == Some(Named(name, rest))
  {
    SegmentChars(name);
    var s, q := "[" + quote + name + quote + "]" + rest, |quote|;
    var tail := quote + "]" + rest;
    assert s[1 + q..] == name + tail;
    NameUpTo(name, tail);
    assert forall j :: 0 <= j < |tail| ==> s[1 + q + |name| + j] == tail[j];
    assert s[1] == (quote + name)[0];
    assert s[1 + q..1 + q + |name|] == name && s[2 + |name| + 2 * q..] == rest;
  }

  /** The same path in dots, after a root */
  function Dots(path: seq<string>): string { if path == [] then "" else "." + path[0] + Dots(path[1..]) }

  lemma {:induction false} BracketsBecomeDots(path: seq<string>, quote: string)
    requires quote in {"", "'", "\""} && forall i :: 0 <= i < |path| ==> IsSegment(path[i])
    ensures Dotted(Bracketed(path, quote)) == Dots(path)
    decreases |path|
  {
    if path != [] {
      var rest := Bracketed(path[1..], quote);
      BracketsBecomeDots(path[1..], quote);
      BracketBecomesDot(path[0], quote, rest);
    }
  }

  lemma BracketBecomesDot(name: string, quote: string, rest: string)
    requires IsSegment(name) && quote in {"", "'", "\""}
    ensures Dotted("[" + quote + name + quote + "]" + rest) == "." + name + Dotted(rest)
  {
    BracketAtStart(name, quote, rest);
  }

  lemma {:induction false} JoinedIsDots(root: string, path: seq<string>)
    ensures Joined([root] + path) == root + Dots(path)
    decreases |path|
  {
    assert ([root] + path)[1..] == path;
    if path != [] {
      JoinedIsDots(path[0], path[1..]);
      assert path == [path[0]] + path[1..];
    }
  }

  /** Bracketed names, bare or in either quotes, parse as the path they spell. */
  lemma BracketsReadBack(root: string, path: seq<string>, quote: string)
    requires IsSegment(root) && quote in {"", "'", "\""} && forall i :: 0 <= i < |path| ==> IsSegment(path[i])
    ensures ParsePath(root + Bracketed(path, quote)) == Ok([root] + path)
  {
    SegmentChars(root);
    NoBracket(root, Bracketed(path, quote));
    BracketsBecomeDots(path, quote);
    JoinedIsDots(root, path);
    JoinedSegments([root] + path);
  }
}
