/**
  What a template means: which value each root names, and the text that a hole between plain texts resolves to.
 */
module TemplateMeaning {
  import opened JsText
  import opened Json
  import opened UrlTemplate

  // ---------------------------------------------------------------- the text around a hole

  lemma {:induction false} PlainPieces(s: string)
    requires NoBraces(s)
    ensures Pieces(s) == Chars(s)
  {
    if s != "" { PlainPieces(s[1..]); }
  }

  /** `prefix` before a text, if there is one */
  function Behind(prefix: string, text: Result<string>): Result<string> {
    if text.Err? then text else Ok(prefix + text.value)
  }

  lemma CharFirst(kind: Kind, encode: Encoder, c: char, rest: seq<Piece>, payload: Json, context: Fields)
    ensures Replace(kind, encode, [Char(c)] + rest, payload, context)
            == Behind([c], Replace(kind, encode, rest, payload, context))
  {
    var pieces := [Char(c)] + rest;
    assert pieces[0] == Char(c) && pieces[1..] == rest;
  }

  lemma BehindBoth(c: char, s: string, text: Result<string>)
    ensures Behind([c], Behind(s, text)) == Behind([c] + s, text)
  {
    if text.Ok? { assert [c] + (s + text.value) == [c] + s + text.value; }
  }

  lemma {:induction false} CharsFirst(kind: Kind, encode: Encoder, s: string, rest: seq<Piece>, payload: Json,
                                      context: Fields)
    ensures Replace(kind, encode, Chars(s) + rest, payload, context)
            == Behind(s, Replace(kind, encode, rest, payload, context))
    decreases |s|
  {
    var text := Replace(kind, encode, rest, payload, context);
    if s == "" {
      assert Chars(s) + rest == rest;
      if text.Ok? { assert "" + text.value == text.value; }
    } else {
      CharsFirst(kind, encode, s[1..], rest, payload, context);
      CharFirst(kind, encode, s[0], Chars(s[1..]) + rest, payload, context);
      assert Chars(s) + rest == [Char(s[0])] + (Chars(s[1..]) + rest);
      BehindBoth(s[0], s[1..], text);
      assert [s[0]] + s[1..] == s;
    }
  }

  lemma HoleFirst(kind: Kind, encode: Encoder, hole: Piece, rest: seq<Piece>, payload: Json, context: Fields)
    requires hole.Hole?
    ensures var filled := Fill(kind, encode, hole.expression, payload, context);
      Replace(kind, encode, [hole] + rest, payload, context)
      == if filled.Err? then filled else Behind(filled.value, Replace(kind, encode, rest, payload, context))
  {
    var pieces := [hole] + rest;
    assert pieces[0] == hole && pieces[1..] == rest;
  }

  lemma CharsAlone(kind: Kind, encode: Encoder, s: string, payload: Json, context: Fields)
    ensures Replace(kind, encode, Chars(s), payload, context) == Ok(s)
  {
    CharsFirst(kind, encode, s, [], payload, context);
    assert Chars(s) + [] == Chars(s) && s + "" == s;
  }

  lemma HoleBetween(kind: Kind, encode: Encoder, before: string, hole: Piece, after: string, payload: Json,
                    context: Fields)
    requires hole.Hole?
    ensures var filled := Fill(kind, encode, hole.expression, payload, context);
      Replace(kind, encode, Chars(before) + ([hole] + Chars(after)), payload, context)
      == if filled.Err? then filled else Ok(before + filled.value + after)
  {
    CharsFirst(kind, encode, before, [hole] + Chars(after), payload, context);
    HoleFirst(kind, encode, hole, Chars(after), payload, context);
    CharsAlone(kind, encode, after, payload, context);
    var filled := Fill(kind, encode, hole.expression, payload, context);
    if filled.Ok? { assert before + (filled.value + after) == before + filled.value + after; }
  }

  /** What the hole written as `expression` may become, given the value read for it */
  ghost predicate Becomes(kind: Kind, encode: Encoder, before: string, expression: string, after: string,
                          v: Result<Json>, text: Result<string>)
  {
    match v
    case Err(error) => text == Err(error)
    case Ok(Undefined) => text == Err(Missing(expression))
    case Ok(Null) => text == Err(Missing(expression))
    case Ok(Arr(_)) => text == Err(NotScalar(expression))
    case Ok(Obj(_)) => text == Err(NotScalar(expression))
    case Ok(value) =>
      match kind
      case Header =>
        if '\r' in Text(value) || '\n' in Text(value) then text == Err(LineBreak(expression))
        else text == Ok(before + Text(value) + after)
      case Url =>
        match encode(Text(value))
        case Some(encoded) => text == Ok(before + encoded + after)
        case None => text == Err(CannotEncode)
  }

  lemma {:induction false} DotsHaveNoBrace(path: seq<string>)
    requires path != [] && forall i :: 0 <= i < |path| ==> IsSegment(path[i])
    ensures NoBraces(Joined(path)) && Joined(path) != "" && Trim(Joined(path)) == Joined(path)
    decreases |path|
  {
    SegmentChars(path[0]);
    SegmentHasNoBrace(path[0]);
    if |path| > 1 {
      DotsHaveNoBrace(path[1..]);
      LastOfJoined(path);
      assert Joined(path)[0] == path[0][0];
      TrimKeeps(Joined(path));
    } else {
      TrimKeeps(path[0]);
    }
  }

  lemma SegmentHasNoBrace(s: string)
    requires IsSegment(s)
    ensures NoBraces(s)
  {
  }

  lemma {:induction false} LastOfJoined(path: seq<string>)
    requires path != [] && forall i :: 0 <= i < |path| ==> IsSegment(path[i])
    ensures Joined(path) != "" && !IsSpace(Joined(path)[|Joined(path)| - 1])
    decreases |path|
  {
    SegmentChars(path[|path| - 1]);
    if |path| > 1 {
      LastOfJoined(path[1..]);
      var rest := Joined(path[1..]);
      assert Joined(path)[|Joined(path)| - 1] == rest[|rest| - 1];
    }
  }

  lemma SubstituteBecomes(kind: Kind, encode: Encoder, before: string, expression: string, after: string,
                          v: Result<Json>, filled: Result<string>)
    requires filled == if v.Err? then Err(v.error) else Substitute(kind, encode, expression, v.value)
    ensures Becomes(kind, encode, before, expression, after, v,
                    if filled.Err? then filled else Ok(before + filled.value + after))
  {
  }

  /** A template of one hole resolves to the text around it with the value in between: URL-encoded in a URL, as it is
      in a header. */
  lemma HoleResolves(kind: Kind, encode: Encoder, before: string, path: seq<string>, after: string, payload: Json,
                     context: Fields)
    requires NoBraces(before) && NoBraces(after)
    requires path != [] && forall i :: 0 <= i < |path| ==> IsSegment(path[i])
    ensures Becomes(kind, encode, before, Joined(path), after, ReadPath(path, payload, context),
                    Resolve(kind, encode, before + ("{{" + Joined(path) + "}}" + after), payload, context))
  {
    DotsHaveNoBrace(path);
    HoleReadBack(before, Joined(path), after);
    PlainPieces(after);
    PathReadBack(path);
    HoleBetween(kind, encode, before, Hole(Joined(path)), after, payload, context);
    SubstituteBecomes(kind, encode, before, Joined(path), after, ReadPath(path, payload, context),
                      Fill(kind, encode, Joined(path), payload, context));
  }

  /** A single segment is accepted exactly when it is an identifier - dashes allowed after its start - or a number. */
  lemma SegmentSyntax(s: string)
    requires s != "" && forall i :: 0 <= i < |s| ==> s[i] != '.' && s[i] != '[' && !IsSpace(s[i])
    ensures ParsePath(s) == Ok([s]) <==>
      || (forall i :: 0 <= i < |s| ==> '0' <= s[i] <= '9')
      || (&& ('a' <= s[0] <= 'z' || 'A' <= s[0] <= 'Z' || s[0] == '_' || s[0] == '$')
          && forall i :: 1 <= i < |s| ==>
               'a' <= s[i] <= 'z' || 'A' <= s[i] <= 'Z' || '0' <= s[i] <= '9' || s[i] in {'_', '$', '-'})
  {
    NoBracket(s, "");
    assert s + "" == s;
    IndexOfDot(s, "");
    TrimKeeps(s);
    assert s[..|s|] == s && Dotted("") == "" && Segments(s) == [s];
    assert ParsePath(s) == Ok([s]) <==> IsSegment(s) by {
      assert [s][0] == s;
    }
  }

  /** Blanks around a dot do not matter ... */
  lemma BlanksDropped(a: string, b: string)
    requires IsSegment(a) && IsSegment(b)
    ensures Segments((" " + a + " ") + "." + (" " + b + " ")) == [a, b]
  {
    SegmentChars(a);
    SegmentChars(b);
    Blanks(a);
    Blanks(b);
    DotSplits(" " + a + " ", " " + b + " ");
    NoDot(" " + b + " ");
  }

  /** ... nor does an empty segment. */
  lemma EmptyDropped(a: string, b: string)
    requires IsSegment(a) && IsSegment(b)
    ensures Segments(a + "." + ("." + b)) == [a, b]
  {
    SegmentChars(a);
    SegmentChars(b);
    TrimKeeps(a);
    TrimKeeps(b);
    DotSplits(a, "." + b);
    DotSplits("", b);
    assert "" + "." + b == "." + b;
    NoDot(b);
  }

  lemma DotSplits(first: string, rest: string)
    requires forall i :: 0 <= i < |first| ==> first[i] != '.'
    ensures Segments(first + "." + rest) == (if Trim(first) == "" then [] else [Trim(first)]) + Segments(rest)
  {
    var s := first + "." + rest;
    IndexOfDot(first, "." + rest);
    assert s == first + ("." + rest) && s[..|first|] == first && s[|first| + 1..] == rest;
  }

  lemma NoDot(s: string)
    requires forall i :: 0 <= i < |s| ==> s[i] != '.'
    ensures Segments(s) == if Trim(s) == "" then [] else [Trim(s)]
  {
    IndexOfDot(s, "");
    assert s + "" == s && s[..|s|] == s;
  }

  lemma Blanks(s: string)
    requires s != "" && !IsSpace(s[0]) && !IsSpace(s[|s| - 1])
    ensures Trim(" " + s + " ") == s
  {
    var t := " " + s + " ";
    assert t[0] == ' ' && t[1..] == s + " ";
    assert (s + " ")[0] == s[0] && TrimStart(s + " ") == s + " ";
    assert TrimStart(t) == s + " ";
    assert (s + " ")[..|s|] == s && (s + " ")[|s|] == ' ';
    assert TrimEnd(s + " ") == TrimEnd(s) == s;
  }

  /** Single braces are text. */
  lemma {:induction false} SingleBraces(e: string)
    requires NoBraces(e)
    ensures !HasTemplate("{" + e + "}")
  {
    var s := "{" + e + "}";
    assert s[1..] == e + "}";
    NoHoleIn(e, "}");
    assert s[0] == '{' && s[1] == (e + "}")[0];
  }

  lemma {:induction false} NoHoleIn(e: string, rest: string)
    requires NoBraces(e) && !HasTemplate(rest)
    ensures !HasTemplate(e + rest)
    decreases |e|
  {
    if e == "" {
      assert e + rest == rest;
    } else {
      assert (e + rest)[1..] == e[1..] + rest;
      NoHoleIn(e[1..], rest);
    }
  }

  // ---------------------------------------------------------------- roots

  lemma OneDown(v: Json, f: string)
    requires f !in {"__proto__", "prototype", "constructor"} && v.Obj?
    ensures Walk(v, [f]) == Ok(Field(v.fields, f))
  {
    assert [f][1..] == [];
    assert Walk(Field(v.fields, f), []) == Ok(Field(v.fields, f));
  }

  /** What each root gives access to; every other name is refused. */
  lemma RootsName(payload: Fields, context: Fields, request: Fields, global: Fields, f: string)
    requires f !in {"__proto__", "prototype", "constructor"}
    requires Field(context, "request") == Obj(request) && Field(context, "global") == Obj(global)
    ensures ReadPath(["payload", f], Obj(payload), context) == Ok(Field(payload, f))
    ensures ReadPath(["request", f], Obj(payload), context) == Ok(Field(request, f))
    ensures ReadPath(["_request", f], Obj(payload), context) == Ok(Field(request, f))
    ensures ReadPath(["context", f], Obj(payload), context) == Ok(Field(context, f))
    ensures ReadPath(["gateway", f], Obj(payload), context) == Ok(Field(context, f))
    ensures ReadPath(["global", f], Obj(payload), context) == Ok(Field(global, f))
  {
    OneDown(Obj(payload), f);
    OneDown(Obj(request), f);
    OneDown(Obj(context), f);
    OneDown(Obj(global), f);
    forall root: string ensures [root, f][1..] == [f] {}
  }

  /** A message has the payload and the request, and nothing else. */
  lemma MessageNames(payload: Fields, context: Fields, request: Fields, f: string)
    requires f !in {"__proto__", "prototype", "constructor"} && Field(context, "request") == Obj(request)
    ensures ReadPath(["msg", "payload", f], Obj(payload), context) == Ok(Field(payload, f))
    ensures ReadPath(["msg", "_request", f], Obj(payload), context) == Ok(Field(request, f))
    ensures f !in {"payload", "_request"} ==> ReadPath(["msg", f], Obj(payload), context) == Ok(Undefined)
  {
    OneDown(Obj(payload), f);
    OneDown(Obj(request), f);
    var msg := map["payload" := Obj(payload), "_request" := Obj(request)];
    OneDown(Obj(msg), f);
    assert ["msg", f][1..] == [f];
    forall part | part in {"payload", "_request"}
      ensures ["msg", part, f][1..] == [part, f] && [part, f][1..] == [f] {}
  }

  lemma OtherRoots(root: string, path: seq<string>, payload: Json, context: Fields)
    ensures root !in {"payload", "request", "_request", "msg", "context", "gateway", "global"}
            <==> ReadPath([root] + path, payload, context) == Err(UnknownRoot(root))
  {
    assert ([root] + path)[1..] == path;
    if root in {"payload", "request", "_request", "msg", "context", "gateway", "global"} {
      NoUnknownRoot(Root(root, payload, context).value, path, root);
    }
  }

  lemma {:induction false} NoUnknownRoot(v: Json, path: seq<string>, root: string)
    ensures Walk(v, path) != Err(UnknownRoot(root))
    decreases |path|
  {
    if path != [] && !IsUnsafeKey(path[0]) && !v.Undefined? && !v.Null? {
      NoUnknownRoot(Get(v, path[0]), path[1..], root);
    }
  }

  /** Prototype names are refused wherever they stand behind a value. */
  lemma UnsafeRefused(v: Json, f: string, rest: seq<string>)
    requires f in {"__proto__", "prototype", "constructor"}
    ensures Walk(v, [f] + rest) == Err(NotAllowed(f))
  {
  }

  /** Below a list or a text there are its positions and its length; below other scalars there is nothing. */
  lemma BelowValues(items: seq<Json>, s: string, i: nat, key: string, scalar: Json)
    requires scalar.Bool? || scalar.Num?
    ensures i < |items| ==> Get(Arr(items), Decimal(i)) == items[i]
    ensures i < |s| ==> Get(Str(s), Decimal(i)) == Str([s[i]])
    ensures Get(Arr(items), "length") == Num(Decimal(|items|)) && Get(Str(s), "length") == Num(Decimal(|s|))
    ensures key != "length" && (forall j: nat :: j < |items| ==> key != Decimal(j)) ==>
              Get(Arr(items), key) == Undefined
    ensures key != "length" && (forall j: nat :: j < |s| ==> key != Decimal(j)) ==> Get(Str(s), key) == Undefined
    ensures Get(scalar, key) == Undefined
  {
    IndexNames(Decimal(i), |items|, i);
    IndexNames(Decimal(i), |s|, i);
    DecimalIsNumber(i);
    if IndexNamed(key, |items|).Some? { IndexNames(key, |items|, IndexNamed(key, |items|).value); }
    if IndexNamed(key, |s|).Some? { IndexNames(key, |s|, IndexNamed(key, |s|).value); }
  }

  lemma {:induction false} DecimalIsNumber(i: nat)
    ensures IsDigit(Decimal(i)[0]) && Decimal(i) != "length"
    decreases i
  {
    if i >= 10 { DecimalIsNumber(i / 10); }
    assert !IsDigit("length"[0]);
  }

  /** A request that is absent, or falsy as JavaScript has it, has no fields. */
  lemma NoRequest(payload: Json, context: Fields, f: string)
    requires f !in {"__proto__", "prototype", "constructor"}
    requires match Field(context, "request")
             case Undefined => true
             case Null => true
             case Bool(b) => !b
             case Num(n) => n == "0" || n == "-0" || n == "NaN"
             case Str(s) => s == ""
             case _ => false
    ensures ReadPath(["request", f], payload, context) == Ok(Undefined)
  {
    assert ["request", f][1..] == [f];
    OneDown(Obj(map[]), f);
  }

  /** So a field of the payload in a URL template stands there encoded. */
  lemma PayloadInUrl(encode: Encoder, before: string, f: string, after: string, payload: Fields, context: Fields,
                     encoded: string)
    requires NoBraces(before) && NoBraces(after) && IsSegment(f)
    requires f in payload && IsScalar(payload[f]) && encode(Text(payload[f])) == Some(encoded)
    requires f !in {"__proto__", "prototype", "constructor"}
    ensures Resolve(Url, encode, before + ("{{payload." + f + "}}" + after), Obj(payload), context)
            == Ok(before + encoded + after)
  {
    var path := ["payload", f];
    assert path[1..] == [f] && Joined([f]) == f;
    assert Joined(path) == "payload." + f;
    assert "{{" + Joined(path) + "}}" + after == "{{payload." + f + "}}" + after;
    assert path == [path[0], f] && IsSegment(path[0]);
    OneDown(Obj(payload), f);
    HoleResolves(Url, encode, before, path, after, Obj(payload), context);
  }
}
