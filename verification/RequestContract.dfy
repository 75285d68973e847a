/**
  The request contract: which transport options a caller may pass along, the checks at admission,
  and the headers built at execution. Loops over an object's keys may take them in any order.
 */
module RequestContract {
  import opened JsText
  import opened Json
  import opened UrlTemplate

  /** Functions of the host: toLowerCase, toUpperCase, encodeURIComponent and Number */
  datatype Host = Host(lower: string -> string, upper: string -> string, encode: Encoder, number: Json -> Json)

  datatype Schema = Schema(verb: string, template: string, body: bool, protectedHeaders: seq<string>)

  const HTTP_METHODS := {"GET", "POST", "PUT", "PATCH", "DELETE", "HEAD"}
  const REQUEST_KEYS := {"params", "query", "headers", "body", "method", "payload"}
  const PROTECTED_HEADERS := {"authorization", "cookie", "host", "content-length", "proxy-authorization",
                             "x-api-key", "x-auth-token", "x-rapidapi-key", "api-key"}

  // ---------------------------------------------------------------- the request and its envelope

  datatype Source = Source(fields: Fields, envelope: bool, error: bool)

  function RequestSource(v: Json): Source {
    if v.Undefined? then Source(map[], false, false)
    else if !v.Obj? then Source(map[], false, true)
    else if "input" in v.fields then
      if v.fields["input"].Obj? then Source(v.fields["input"].fields, true, false) else Source(map[], true, true)
    else Source(v.fields, false, false)
  }

  predicate Carried(source: Fields, key: string) {
    key in source && (key == "body" || (key in {"params", "query", "headers"} && !source[key].Undefined?))
  }

  /** What of a request goes on */
  function Normalized(v: Json): (request: Fields)
    ensures var source := RequestSource(v).fields;
      && (forall key :: key in request <==> Carried(source, key))
      && forall key :: key in request ==> request[key] == source[key]
  {
    var source := RequestSource(v).fields;
    source - set key | key in source && !Carried(source, key)
  }

  /** normalizeRequest */
  method NormalizeRequest(v: Json) returns (request: Fields)
    ensures request == Normalized(v)
  {
    var source := RequestSource(v).fields;
    var keys := ["params", "query", "headers"];
    request := map[];
    for i := 0 to |keys|
      invariant forall key :: key in request <==> Carried(source, key) && key in keys[..i]
      invariant forall key :: key in request ==> request[key] == source[key]
    {
      assert keys[..i + 1] == keys[..i] + [keys[i]];
      assert keys[i] != "body";
      if keys[i] in source && !source[keys[i]].Undefined? { request := request[keys[i] := source[keys[i]]]; }
    }
    assert keys[..|keys|] == keys;
    if "body" in source { request := request["body" := source["body"]]; }
    SameFields(request, Normalized(v));
  }

  lemma SameFields(a: Fields, b: Fields)
    requires (forall key :: key in a <==> key in b) && forall key :: key in a ==> a[key] == b[key]
    ensures a == b
  {
  }

  function RequestInput(payload: Json, request: Json, verb: string): Fields {
    (if verb != "" then map["method" := Str(verb)] else map[]) + Normalized(request) + map["payload" := payload]
  }

  function Kept(response: Fields, key: string, when: bool, value: Json): Fields {
    if when then map[key := value] else map[]
  }

  function RequestOutput(host: Host, response: Fields): Fields {
    var status, code, error := Field(response, "status"), Field(response, "statusCode"), Field(response, "error");
    Kept(response, "status", Truthy(status), status)
    + Kept(response, "statusCode", "statusCode" in response,
           if code.Null? || code.Undefined? then Null else host.number(code))
    + Kept(response, "body", "body" in response, Field(response, "body"))
    + Kept(response, "error", Truthy(error), error)
  }

  function RequestEnvelope(host: Host, payload: Json, request: Json, verb: string, response: Fields): Json {
    Obj(map["input" := Obj(RequestInput(payload, request, verb)), "output" := Obj(RequestOutput(host, response))])
  }

  // ---------------------------------------------------------------- admission

  datatype Problem =
    | NotARequest
    | UnknownKey(key: string)
    | MethodNotText
    | UnsupportedMethod
    | WrongMethod
    | NotAnObject(name: string)
    | ParamNotScalar(key: string)
    | QueryNotScalar(key: string)
    | HeaderManaged(key: string)
    | HeaderNotScalar(key: string)
    | HeaderBreaksLine(key: string)
    | HeaderTemplate(key: string, error: Error)
    | BodyNotAllowed
    | UrlTemplateFails(error: Error)

  /** The entries of a part of the request that is an object */
  function Part(request: Fields, name: string): Fields {
    if Field(request, name).Obj? then request[name].fields else map[]
  }

  function Protected(host: Host, extra: seq<string>): set<string> {
    PROTECTED_HEADERS + set i | 0 <= i < |extra| && extra[i] != "" :: host.lower(extra[i])
  }

  /** A text with its holes filled, if it has any */
  function Filled(kind: Kind, host: Host, text: string, payload: Json, context: Fields): Result<string> {
    if HasTemplate(text) then Resolve(kind, host.encode, text, payload, context) else Ok(text)
  }

  /** Filling texts of one kind, for one payload and context */
  type Filler = string -> Result<string>

  function Filling(kind: Kind, host: Host, payload: Json, context: Fields): Filler {
    text => Filled(kind, host, text, payload, context)
  }

  /** The context templates see at admission */
  function AtAdmission(context: Fields, request: Fields): Fields { context["request" := Obj(request)] }

  function Extra(schema: Option<Schema>): seq<string> { if schema.Some? then schema.value.protectedHeaders else [] }

  function QueryValues(v: Json): seq<Json> { if v.Arr? then v.items else [v] }

  predicate AnyObject(values: seq<Json>) { exists i :: 0 <= i < |values| && IsObject(values[i]) }

  predicate KeyProblem(v: Json, key: string) {
    var s := RequestSource(v);
    !s.error && key in s.fields && (key !in REQUEST_KEYS || (key == "payload" && !s.envelope))
  }

  predicate MethodProblem(host: Host, v: Json, schema: Option<Schema>, p: Problem) {
    var verb := Field(RequestSource(v).fields, "method");
    match p
    case MethodNotText => !verb.Undefined? && !verb.Str?
    case UnsupportedMethod => verb.Str? && host.upper(verb.s) !in HTTP_METHODS
    case WrongMethod =>
      && verb.Str? && host.upper(verb.s) in HTTP_METHODS
      && schema.Some? && schema.value.verb != "" && host.upper(verb.s) != host.upper(schema.value.verb)
    case _ => false
  }

  predicate PartProblem(request: Fields, p: Problem) {
    match p
    case NotAnObject(name) =>
      name in {"params", "query", "headers"} && name in request && !request[name].Undefined? && !request[name].Obj?
    case ParamNotScalar(key) => key in Part(request, "params") && IsObject(Part(request, "params")[key])
    case QueryNotScalar(key) => key in Part(request, "query") && AnyObject(QueryValues(Part(request, "query")[key]))
    case _ => false
  }

  predicate HeaderProblem(host: Host, headers: Fields, protected: set<string>, fill: Filler, p: Problem) {
    match p
    case HeaderManaged(key) => key in headers && host.lower(key) in protected
    case HeaderNotScalar(key) => key in headers && IsObject(headers[key])
    case HeaderBreaksLine(key) =>
      && key in headers && headers[key].Str?
      && fill(headers[key].s).Ok?
      && HasLineBreak(fill(headers[key].s).value)
    case HeaderTemplate(key, error) =>
      key in headers && headers[key].Str? && fill(headers[key].s) == Err(error)
    case _ => false
  }

  predicate SchemaProblem(request: Fields, schema: Option<Schema>, fill: Filler, p: Problem) {
    match p
    case BodyNotAllowed => schema.Some? && !schema.value.body && !Field(request, "body").Undefined?
    case UrlTemplateFails(error) =>
      schema.Some? && fill(schema.value.template) == Err(error)
    case _ => false
  }

  predicate ProblemOf(host: Host, v: Json, request: Fields, schema: Option<Schema>, header: Filler, url: Filler,
                      p: Problem) {
    || (p.NotARequest? && RequestSource(v).error)
    || (p.UnknownKey? && KeyProblem(v, p.key))
    || MethodProblem(host, v, schema, p)
    || PartProblem(request, p)
    || HeaderProblem(host, Part(request, "headers"), Protected(host, Extra(schema)), header, p)
    || SchemaProblem(request, schema, url, p)
  }

  /** Everything admission objects to */
  predicate IsProblem(host: Host, payload: Json, v: Json, schema: Option<Schema>, context: Fields, p: Problem) {
    var request := Normalized(v);
    var at := AtAdmission(context, request);
    ProblemOf(host, v, request, schema, Filling(Header, host, payload, at), Filling(Url, host, payload, at), p)
  }

  ghost predicate Accepted(host: Host, payload: Json, v: Json, schema: Option<Schema>, context: Fields) {
    forall p :: !IsProblem(host, payload, v, schema, context, p)
  }

  /** validateRequest: it reports exactly the problems there are. */
  method ValidateRequest(host: Host, payload: Json, v: Json, schema: Option<Schema>, context: Fields)
      returns (ok: bool, request: Fields, errors: seq<Problem>)
    ensures request == Normalized(v)
    ensures forall p :: p in errors <==> IsProblem(host, payload, v, schema, context, p)
    ensures ok <==> Accepted(host, payload, v, schema, context)
  {
    request := NormalizeRequest(v);
    var at := AtAdmission(context, request);
    errors := CheckAll(host, v, request, schema, Filling(Header, host, payload, at), Filling(Url, host, payload, at));
    ok := errors == [];
    if errors != [] { assert errors[0] in errors; }
  }

  method CheckAll(host: Host, v: Json, request: Fields, schema: Option<Schema>, header: Filler, url: Filler)
      returns (errors: seq<Problem>)
    ensures forall p :: p in errors <==> ProblemOf(host, v, request, schema, header, url, p)
  {
    var sourceErrors := if RequestSource(v).error then [NotARequest] else [];
    var keyErrors := CheckKeys(v);
    var methodErrors := CheckMethod(host, v, schema);
    var partErrors := CheckParts(request);
    var headerErrors := CheckHeaders(host, Part(request, "headers"), Protected(host, Extra(schema)), header);
    var schemaErrors := CheckSchema(request, schema, url);
    errors := sourceErrors + keyErrors + methodErrors + partErrors + headerErrors + schemaErrors;
  }

  method CheckKeys(v: Json) returns (errors: seq<Problem>)
    ensures forall p :: p in errors <==> p.UnknownKey? && KeyProblem(v, p.key)
  {
    errors := [];
    var s := RequestSource(v);
    if s.error { return; }
    var todo := s.fields.Keys;
    while todo != {}
      invariant todo <= s.fields.Keys
      invariant forall p :: p in errors <==> p.UnknownKey? && p.key !in todo && KeyProblem(v, p.key)
      decreases todo
    {
      var key :| key in todo;
      todo := todo - {key};
      if key !in REQUEST_KEYS || (key == "payload" && !s.envelope) { errors := errors + [UnknownKey(key)]; }
    }
  }

  method CheckMethod(host: Host, v: Json, schema: Option<Schema>) returns (errors: seq<Problem>)
    ensures forall p :: p in errors <==> MethodProblem(host, v, schema, p)
  {
    var verb := Field(RequestSource(v).fields, "method");
    if verb.Undefined? { return []; }
    if !verb.Str? { return [MethodNotText]; }
    var requested := host.upper(verb.s);
    if requested !in HTTP_METHODS { return [UnsupportedMethod]; }
    if schema.Some? && schema.value.verb != "" && requested != host.upper(schema.value.verb) { return [WrongMethod]; }
    return [];
  }

  method CheckParts(request: Fields) returns (errors: seq<Problem>)
    ensures forall p :: p in errors <==> PartProblem(request, p)
  {
    var names := ["params", "query", "headers"];
    errors := [];
    for i := 0 to |names|
      invariant forall p :: p in errors <==> p.NotAnObject? && p.name in names[..i] && PartProblem(request, p)
    {
      assert names[..i + 1] == names[..i] + [names[i]];
      if names[i] in request && !request[names[i]].Undefined? && !request[names[i]].Obj? {
        errors := errors + [NotAnObject(names[i])];
      }
    }
    assert names[..|names|] == names;
    var params := CheckParams(Part(request, "params"));
    var query := CheckQuery(Part(request, "query"));
    errors := errors + params + query;
  }

  method CheckParams(params: Fields) returns (errors: seq<Problem>)
    ensures forall p :: p in errors <==> p.ParamNotScalar? && p.key in params && IsObject(params[p.key])
  {
    errors := [];
    var todo := params.Keys;
    while todo != {}
      invariant todo <= params.Keys
      invariant forall p :: p in errors <==>
        p.ParamNotScalar? && p.key in params && p.key !in todo && IsObject(params[p.key])
      decreases todo
    {
      var key :| key in todo;
      todo := todo - {key};
      if IsObject(params[key]) { errors := errors + [ParamNotScalar(key)]; }
    }
  }

  method CheckQuery(query: Fields) returns (errors: seq<Problem>)
    ensures forall p :: p in errors <==> p.QueryNotScalar? && p.key in query && AnyObject(QueryValues(query[p.key]))
  {
    errors := [];
    var todo := query.Keys;
    while todo != {}
      invariant todo <= query.Keys
      invariant forall p :: p in errors <==>
        p.QueryNotScalar? && p.key in query && p.key !in todo && AnyObject(QueryValues(query[p.key]))
      decreases todo
    {
      var key :| key in todo;
      todo := todo - {key};
      if AnyObject(QueryValues(query[key])) { errors := errors + [QueryNotScalar(key)]; }
    }
  }

  method CheckHeaders(host: Host, headers: Fields, protected: set<string>, fill: Filler)
      returns (errors: seq<Problem>)
    ensures forall p :: p in errors <==> HeaderProblem(host, headers, protected, fill, p)
  {
    errors := [];
    var todo := headers.Keys;
    while todo != {}
      invariant todo <= headers.Keys
      invariant forall p :: p in errors <==>
        HeaderProblem(host, headers, protected, fill, p) && HeaderOf(p) !in todo
      decreases todo
    {
      var key :| key in todo;
      var more := CheckHeader(host, headers, key, protected, fill);
      todo := todo - {key};
      errors := errors + more;
    }
  }

  /** The header a problem is about */
  function HeaderOf(p: Problem): string {
    match p
    case HeaderManaged(key) => key
    case HeaderNotScalar(key) => key
    case HeaderBreaksLine(key) => key
    case HeaderTemplate(key, _) => key
    case _ => ""
  }

  method CheckHeader(host: Host, headers: Fields, key: string, protected: set<string>, fill: Filler)
      returns (errors: seq<Problem>)
    requires key in headers
    ensures forall p :: p in errors <==>
      HeaderProblem(host, headers, protected, fill, p) && HeaderOf(p) == key
  {
    var value := headers[key];
    errors := [];
    if host.lower(key) in protected { errors := errors + [HeaderManaged(key)]; }
    if IsObject(value) { errors := errors + [HeaderNotScalar(key)]; }
    if value.Str? {
      var text := fill(value.s);
      if text.Err? { errors := errors + [HeaderTemplate(key, text.error)]; }
      else if HasLineBreak(text.value) { errors := errors + [HeaderBreaksLine(key)]; }
    }
  }

  method CheckSchema(request: Fields, schema: Option<Schema>, fill: Filler)
      returns (errors: seq<Problem>)
    ensures forall p :: p in errors <==> SchemaProblem(request, schema, fill, p)
  {
    errors := [];
    if schema.None? { return; }
    if !schema.value.body && !Field(request, "body").Undefined? { errors := errors + [BodyNotAllowed]; }
    var url := fill(schema.value.template);
    if url.Err? { errors := errors + [UrlTemplateFails(url.error)]; }
  }

  // ---------------------------------------------------------------- execution

  datatype Sent = Skipped | Sent(text: string) | Throws

  /** What becomes of one header */
  function HeaderSent(host: Host, key: string, v: Json, fill: Filler, protected: set<string>): Sent {
    if host.lower(key) in protected || !IsScalar(v) then Skipped
    else
      var text := if v.Str? then fill(v.s) else Ok(Text(v));
      if text.Err? || HasLineBreak(text.value) then Throws else Sent.Sent(text.value)
  }

  predicate AnyThrows(host: Host, fields: Fields, fill: Filler, protected: set<string>) {
    exists key :: key in fields && HeaderSent(host, key, fields[key], fill, protected).Throws?
  }

  /** The texts sent for the headers in `keys` */
  ghost function Texts(host: Host, fields: Fields, keys: set<string>, fill: Filler, protected: set<string>)
    : (texts: map<string, string>)
    ensures forall key :: key in texts <==>
              key in fields && key in keys && HeaderSent(host, key, fields[key], fill, protected).Sent?
    ensures forall key :: key in texts ==> texts[key] == HeaderSent(host, key, fields[key], fill, protected).text
    decreases keys
  {
    if keys == {} then map[]
    else
      var key :| key in keys;
      var rest := Texts(host, fields, keys - {key}, fill, protected);
      if key in fields && HeaderSent(host, key, fields[key], fill, protected).Sent?
      then rest[key := HeaderSent(host, key, fields[key], fill, protected).text] else rest
  }

  /** requestHeaders: None when a header throws */
  ghost function HeadersSent(host: Host, headers: Json, payload: Json, context: Fields,
                             extra: seq<string>): Option<map<string, string>> {
    if !headers.Obj? then Some(map[])
    else if AnyThrows(host, headers.fields, Filling(Header, host, payload, context), Protected(host, extra)) then None
    else Some(Texts(host, headers.fields, headers.fields.Keys, Filling(Header, host, payload, context),
                    Protected(host, extra)))
  }

  method RequestHeaders(host: Host, headers: Json, payload: Json, context: Fields, extra: seq<string>)
      returns (result: Option<map<string, string>>)
    ensures result == HeadersSent(host, headers, payload, context, extra)
  {
    if !headers.Obj? { return Some(map[]); }
    var fields, protected, fill := headers.fields, Protected(host, extra), Filling(Header, host, payload, context);
    result := SendHeaders(host, fields, fill, protected);
  }

  method SendHeaders(host: Host, fields: Fields, fill: Filler,
                     protected: set<string>) returns (result: Option<map<string, string>>)
    ensures result == if AnyThrows(host, fields, fill, protected) then None
                      else Some(Texts(host, fields, fields.Keys, fill, protected))
  {
    var sent: map<string, string> := map[];
    var todo := fields.Keys;
    ghost var done: set<string> := {};
    while todo != {}
      invariant done + todo == fields.Keys && done !! todo
      invariant forall key :: key in done ==> !HeaderSent(host, key, fields[key], fill, protected).Throws?
      invariant sent == Texts(host, fields, done, fill, protected)
      decreases todo
    {
      var key :| key in todo;
      var outcome := HeaderSent(host, key, fields[key], fill, protected);
      if outcome.Throws? { return None; }
      OneMoreText(host, fields, done, key, fill, protected);
      if outcome.Sent? { sent := sent[key := outcome.text]; }
      todo := todo - {key};
      done := done + {key};
    }
    assert done == fields.Keys;
    return Some(sent);
  }

  lemma OneMoreText(host: Host, fields: Fields, done: set<string>, key: string, fill: Filler, protected: set<string>)
    requires key in fields
    ensures var texts := Texts(host, fields, done, fill, protected);
      var outcome := HeaderSent(host, key, fields[key], fill, protected);
      Texts(host, fields, done + {key}, fill, protected) == if outcome.Sent? then texts[key := outcome.text] else texts
  {
    var texts := Texts(host, fields, done, fill, protected);
    var outcome := HeaderSent(host, key, fields[key], fill, protected);
    var more := Texts(host, fields, done + {key}, fill, protected);
    if outcome.Sent? { assert more == texts[key := outcome.text]; } else { assert more == texts; }
  }
}
