/**
  The request contract in one piece: which requests admission accepts, rule by rule with the names written out, and
  which text each header of an accepted request is sent with.
 */
module RequestRules {
  import opened JsText
  import opened Json
  import opened UrlTemplate
  import opened RequestContract

  // ---------------------------------------------------------------- the rules

  /** The fields of the request: of the object given, or of the `input` of an envelope */
  function FieldsOf(v: Json): Fields {
    if !v.Obj? then map[] else if "input" !in v.fields then v.fields
    else if v.fields["input"].Obj? then v.fields["input"].fields else map[]
  }

  /** Nothing, an object, or an envelope whose input is an object, with the keys of a request; `payload` only in an
      envelope */
  predicate ShapeOk(v: Json) {
    && (v.Undefined? || (v.Obj? && ("input" in v.fields ==> v.fields["input"].Obj?)))
    && forall key :: key in FieldsOf(v) ==>
         key in {"params", "query", "headers", "body", "method"} || (key == "payload" && "input" in v.fields)
  }

  /** No method, or one of six, which is the operation's if it has one */
  predicate MethodOk(host: Host, v: Json, schema: Option<Schema>) {
    match Field(FieldsOf(v), "method")
    case Undefined => true
    case Str(verb) =>
      && host.upper(verb) in {"GET", "POST", "PUT", "PATCH", "DELETE", "HEAD"}
      && (schema.Some? && schema.value.verb != "" ==> host.upper(verb) == host.upper(schema.value.verb))
    case _ => false
  }

  /** Absent, or an object */
  predicate PartOk(v: Json, name: string) {
    Field(FieldsOf(v), name).Undefined? || Field(FieldsOf(v), name).Obj?
  }

  function Entries(v: Json, name: string): Fields {
    if Field(FieldsOf(v), name).Obj? then FieldsOf(v)[name].fields else map[]
  }

  /** Parameters are scalar, and so are the values of the query, alone or in a list. */
  predicate ValuesOk(v: Json) {
    && (forall key :: key in Entries(v, "params") ==> !IsObject(Entries(v, "params")[key]))
    && (forall key :: key in Entries(v, "query") ==>
          match Entries(v, "query")[key]
          case Obj(_) => false
          case Arr(items) => forall i :: 0 <= i < |items| ==> !IsObject(items[i])
          case _ => true)
  }

  /** No credential or connection header, nor one the operation protects */
  predicate NameOk(host: Host, key: string, schema: Option<Schema>) {
    && host.lower(key) !in {"authorization", "cookie", "host", "content-length", "proxy-authorization", "x-api-key",
                            "x-auth-token", "x-rapidapi-key", "api-key"}
    && (schema.Some? ==> forall i :: 0 <= i < |schema.value.protectedHeaders| ==>
          schema.value.protectedHeaders[i] != "" ==> host.lower(key) != host.lower(schema.value.protectedHeaders[i]))
  }

  /** The text with its holes filled; a text without holes as it is */
  function Resolved(kind: Kind, host: Host, text: string, payload: Json, at: Fields): Result<string> {
    if HasTemplate(text) then Resolve(kind, host.encode, text, payload, at) else Ok(text)
  }

  /** Scalar, and as a text resolvable to one line */
  predicate HeaderValueOk(host: Host, value: Json, payload: Json, at: Fields) {
    match value
    case Obj(_) => false
    case Arr(_) => false
    case Str(s) =>
      && Resolved(Header, host, s, payload, at).Ok?
      && '\r' !in Resolved(Header, host, s, payload, at).value && '\n' !in Resolved(Header, host, s, payload, at).value
    case _ => true
  }

  predicate HeadersOk(host: Host, v: Json, schema: Option<Schema>, payload: Json, at: Fields) {
    forall key :: key in Entries(v, "headers") ==>
      NameOk(host, key, schema) && HeaderValueOk(host, Entries(v, "headers")[key], payload, at)
  }

  /** A body only where the operation takes one, and a URL template that resolves */
  predicate OperationOk(host: Host, v: Json, schema: Option<Schema>, payload: Json, at: Fields) {
    match schema
    case None => true
    case Some(Schema(_, template, body, _)) =>
      && (!body ==> Field(FieldsOf(v), "body").Undefined?)
      && Resolved(Url, host, template, payload, at).Ok?
  }

  // ---------------------------------------------------------------- exactly these

  lemma ShapeIff(host: Host, v: Json)
    ensures ShapeOk(v) <==> !RequestSource(v).error && forall key :: !KeyProblem(v, key)
    ensures RequestSource(v).fields == FieldsOf(v)
  {
    if ShapeOk(v) {
      forall key ensures !KeyProblem(v, key) { assert key in FieldsOf(v) || key !in RequestSource(v).fields; }
    } else if !RequestSource(v).error {
      var key :| key in FieldsOf(v) && key !in {"params", "query", "headers", "body", "method"}
                 && !(key == "payload" && "input" in v.fields);
      assert KeyProblem(v, key);
    }
  }

  lemma MethodIff(host: Host, v: Json, schema: Option<Schema>)
    ensures MethodOk(host, v, schema) <==> forall p :: !MethodProblem(host, v, schema, p)
  {
    ShapeIff(host, v);
    if !MethodOk(host, v, schema) {
      assert MethodProblem(host, v, schema, MethodNotText) || MethodProblem(host, v, schema, UnsupportedMethod)
        || MethodProblem(host, v, schema, WrongMethod);
    }
  }

  lemma PartsAre(v: Json, name: string)
    requires name in {"params", "query", "headers"}
    ensures Part(Normalized(v), name) == Entries(v, name)
    ensures PartOk(v, name) <==> !PartProblem(Normalized(v), NotAnObject(name))
    ensures Field(Normalized(v), "body") == Field(FieldsOf(v), "body")
  {
  }

  lemma PartsIff(v: Json)
    ensures PartOk(v, "params") && PartOk(v, "query") && PartOk(v, "headers") && ValuesOk(v)
            <==> forall p :: !PartProblem(Normalized(v), p)
  {
    PartsAre(v, "params");
    PartsAre(v, "query");
    PartsAre(v, "headers");
    var request := Normalized(v);
    if forall p :: !PartProblem(request, p) {
      assert !PartProblem(request, NotAnObject("params")) && !PartProblem(request, NotAnObject("query"))
        && !PartProblem(request, NotAnObject("headers"));
      forall key | key in Entries(v, "params") ensures !IsObject(Entries(v, "params")[key]) {
        assert !PartProblem(request, ParamNotScalar(key));
      }
      forall key | key in Entries(v, "query") ensures !AnyObject(QueryValues(Entries(v, "query")[key])) {
        assert !PartProblem(request, QueryNotScalar(key));
      }
      forall key | key in Entries(v, "query") { QueryIff(Entries(v, "query")[key]); }
    } else {
      forall key | key in Entries(v, "query") { QueryIff(Entries(v, "query")[key]); }
    }
  }

  lemma QueryIff(value: Json)
    ensures !AnyObject(QueryValues(value)) <==>
      match value
      case Obj(_) => false
      case Arr(items) => forall i :: 0 <= i < |items| ==> !IsObject(items[i])
      case _ => true
  {
    if value.Arr? {
      assert QueryValues(value) == value.items;
    } else {
      assert QueryValues(value)[0] == value;
    }
  }

  lemma NameIff(host: Host, key: string, schema: Option<Schema>)
    ensures NameOk(host, key, schema) <==> host.lower(key) !in Protected(host, Extra(schema))
  {
  }

  lemma HeaderValueIff(host: Host, headers: Fields, key: string, payload: Json, at: Fields, protected: set<string>)
    requires key in headers
    ensures HeaderValueOk(host, headers[key], payload, at) <==>
      forall p: Problem :: !p.HeaderManaged? && HeaderOf(p) == key ==>
        !HeaderProblem(host, headers, protected, Filling(Header, host, payload, at), p)
  {
    var fill := Filling(Header, host, payload, at);
    var value := headers[key];
    if value.Str? { assert fill(value.s) == Resolved(Header, host, value.s, payload, at); }
    if !HeaderValueOk(host, value, payload, at) {
      var p := if !value.Str? then HeaderNotScalar(key)
               else if fill(value.s).Err? then HeaderTemplate(key, fill(value.s).error) else HeaderBreaksLine(key);
      assert HeaderProblem(host, headers, protected, fill, p) && HeaderOf(p) == key;
    }
  }

  lemma HeadersIff(host: Host, v: Json, schema: Option<Schema>, payload: Json, at: Fields)
    ensures HeadersOk(host, v, schema, payload, at) <==>
      forall p :: !HeaderProblem(host, Entries(v, "headers"), Protected(host, Extra(schema)),
                                 Filling(Header, host, payload, at), p)
  {
    var headers, protected := Entries(v, "headers"), Protected(host, Extra(schema));
    var fill := Filling(Header, host, payload, at);
    if HeadersOk(host, v, schema, payload, at) {
      forall p ensures !HeaderProblem(host, headers, protected, fill, p) {
        if HeaderOf(p) in headers {
          NameIff(host, HeaderOf(p), schema);
          HeaderValueIff(host, headers, HeaderOf(p), payload, at, protected);
        }
      }
    } else {
      var key :| key in headers
                 && !(NameOk(host, key, schema) && HeaderValueOk(host, headers[key], payload, at));
      NameIff(host, key, schema);
      HeaderValueIff(host, headers, key, payload, at, protected);
      if !NameOk(host, key, schema) { assert HeaderProblem(host, headers, protected, fill, HeaderManaged(key)); }
    }
  }

  lemma OperationIff(host: Host, v: Json, schema: Option<Schema>, payload: Json, at: Fields)
    ensures OperationOk(host, v, schema, payload, at) <==>
      forall p :: !SchemaProblem(Normalized(v), schema, Filling(Url, host, payload, at), p)
  {
    PartsAre(v, "params");
    var fill, request := Filling(Url, host, payload, at), Normalized(v);
    if schema.Some? {
      var filled := fill(schema.value.template);
      assert filled == Resolved(Url, host, schema.value.template, payload, at);
      if filled.Err? {
        assert SchemaProblem(request, schema, fill, UrlTemplateFails(filled.error));
      } else if !OperationOk(host, v, schema, payload, at) {
        assert SchemaProblem(request, schema, fill, BodyNotAllowed);
      }
    }
  }

  lemma RulesTogether(host: Host, v: Json, request: Fields, schema: Option<Schema>, header: Filler, url: Filler)
    ensures (forall p :: !ProblemOf(host, v, request, schema, header, url, p)) <==>
      && !RequestSource(v).error && (forall key :: !KeyProblem(v, key))
      && (forall p :: !MethodProblem(host, v, schema, p))
      && (forall p :: !PartProblem(request, p))
      && (forall p :: !HeaderProblem(host, Part(request, "headers"), Protected(host, Extra(schema)), header, p))
      && (forall p :: !SchemaProblem(request, schema, url, p))
  {
    if forall p :: !ProblemOf(host, v, request, schema, header, url, p) {
      assert !ProblemOf(host, v, request, schema, header, url, NotARequest);
      forall key ensures !KeyProblem(v, key) {
        assert !ProblemOf(host, v, request, schema, header, url, UnknownKey(key));
      }
      forall p
        ensures !MethodProblem(host, v, schema, p) && !PartProblem(request, p)
        ensures !SchemaProblem(request, schema, url, p)
        ensures !HeaderProblem(host, Part(request, "headers"), Protected(host, Extra(schema)), header, p)
      {
        assert !ProblemOf(host, v, request, schema, header, url, p);
      }
    }
  }

  /** Admission accepts exactly the requests that keep these rules; templates are resolved in the caller's context
      with the request itself as `request`. */
  lemma AcceptedIff(host: Host, payload: Json, v: Json, schema: Option<Schema>, context: Fields)
    ensures var at := context["request" := Obj(Normalized(v))];
      Accepted(host, payload, v, schema, context) <==>
        && ShapeOk(v) && MethodOk(host, v, schema)
        && PartOk(v, "params") && PartOk(v, "query") && PartOk(v, "headers") && ValuesOk(v)
        && HeadersOk(host, v, schema, payload, at) && OperationOk(host, v, schema, payload, at)
  {
    var request := Normalized(v);
    var at := AtAdmission(context, request);
    var header, url := Filling(Header, host, payload, at), Filling(Url, host, payload, at);
    RulesTogether(host, v, request, schema, header, url);
    ShapeIff(host, v);
    MethodIff(host, v, schema);
    PartsIff(v);
    PartsAre(v, "headers");
    HeadersIff(host, v, schema, payload, at);
    OperationIff(host, v, schema, payload, at);
    ProblemsAre(host, payload, v, schema, context);
  }

  lemma ProblemsAre(host: Host, payload: Json, v: Json, schema: Option<Schema>, context: Fields)
    ensures var at := AtAdmission(context, Normalized(v));
      Accepted(host, payload, v, schema, context) <==>
        forall p :: !ProblemOf(host, v, Normalized(v), schema, Filling(Header, host, payload, at),
                               Filling(Url, host, payload, at), p)
  {
    var at := AtAdmission(context, Normalized(v));
    if forall p :: !ProblemOf(host, v, Normalized(v), schema, Filling(Header, host, payload, at),
                              Filling(Url, host, payload, at), p) {
    } else {
      var p :| ProblemOf(host, v, Normalized(v), schema, Filling(Header, host, payload, at),
                         Filling(Url, host, payload, at), p);
      assert IsProblem(host, payload, v, schema, context, p);
    }
  }

  // ---------------------------------------------------------------- what is sent

  /** Each header that execution sends carries the text of its value, a string with its holes filled. */
  lemma HeadersCarryValues(host: Host, headers: Fields, payload: Json, context: Fields, extra: seq<string>, key: string)
    requires HeadersSent(host, Obj(headers), payload, context, extra).Some?
    requires key in HeadersSent(host, Obj(headers), payload, context, extra).value
    ensures key in headers && IsScalar(headers[key])
    ensures var text := HeadersSent(host, Obj(headers), payload, context, extra).value[key];
      match headers[key]
      case Str(s) => Resolved(Header, host, s, payload, context) == Ok(text)
      case Num(n) => text == n
      case Bool(b) => text == if b then "true" else "false"
      case _ => false
  {
    var fill := Filling(Header, host, payload, context);
    if headers[key].Str? { assert fill(headers[key].s) == Resolved(Header, host, headers[key].s, payload, context); }
  }

  // ---------------------------------------------------------------- envelopes

  /** A request between two maps of one name each */
  lemma Between(first: Fields, request: Fields, last: Fields, kf: string, kl: string)
    requires kf != kl && kf !in request && kl !in request && first.Keys <= {kf} && last.Keys == {kl}
    ensures var all := first + request + last;
      && Field(all, kf) == Field(first, kf) && Field(all, kl) == last[kl]
      && forall k :: k != kf && k != kl ==> Field(all, k) == Field(request, k) && (k in all <==> k in request)
  {
  }

  lemma CarriedFields(v: Json)
    ensures forall key :: key in Normalized(v) ==> key in {"params", "query", "headers", "body"}
    ensures forall name :: name in {"params", "query", "headers", "body"} ==>
      Field(Normalized(v), name) == Field(FieldsOf(v), name)
    ensures "body" in Normalized(v) <==> "body" in FieldsOf(v)
    ensures forall name :: name in {"params", "query", "headers"} ==>
      (name in Normalized(v) <==> !Field(FieldsOf(v), name).Undefined?)
  {
  }

  /** What of an envelope is the request: the method, if there is one, what goes on, and the payload */
  lemma EnvelopeInput(host: Host, payload: Json, v: Json, verb: string, response: Fields)
    ensures var envelope := RequestEnvelope(host, payload, v, verb, response);
      && envelope.Obj? && "input" in envelope.fields && envelope.fields["input"].Obj?
      && InputOf(payload, v, verb, envelope.fields["input"].fields)
  {
    CarriedFields(v);
    Between(if verb != "" then map["method" := Str(verb)] else map[], Normalized(v), map["payload" := payload],
            "method", "payload");
  }

  ghost predicate InputOf(payload: Json, v: Json, verb: string, input: Fields) {
    && Field(input, "payload") == payload
    && Field(input, "method") == (if verb != "" then Str(verb) else Undefined)
    && forall k :: k != "payload" && k != "method" ==>
         Field(input, k) == if k in {"params", "query", "headers", "body"} then Field(FieldsOf(v), k) else Undefined
  }

  /** Four maps of one name each, put together */
  lemma Merged(a: Fields, b: Fields, c: Fields, d: Fields, ka: string, kb: string, kc: string, kd: string)
    requires ka != kb && ka != kc && ka != kd && kb != kc && kb != kd && kc != kd
    requires a.Keys <= {ka} && b.Keys <= {kb} && c.Keys <= {kc} && d.Keys <= {kd}
    ensures var all := a + b + c + d;
      && all.Keys <= {ka, kb, kc, kd}
      && Field(all, ka) == Field(a, ka) && Field(all, kb) == Field(b, kb)
      && Field(all, kc) == Field(c, kc) && Field(all, kd) == Field(d, kd)
      && (kb in all <==> kb in b)
  {
  }

  /** What of it is the response: status and error if they are truthy, the code as a number or null, the body as is */
  lemma EnvelopeOutput(host: Host, payload: Json, v: Json, verb: string, response: Fields)
    ensures var envelope := RequestEnvelope(host, payload, v, verb, response);
      && envelope.Obj? && "output" in envelope.fields && envelope.fields["output"].Obj?
      && OutputOf(host, response, envelope.fields["output"].fields)
  {
    var status, code, error := Field(response, "status"), Field(response, "statusCode"), Field(response, "error");
    Merged(Kept(response, "status", Truthy(status), status),
           Kept(response, "statusCode", "statusCode" in response,
                if code.Null? || code.Undefined? then Null else host.number(code)),
           Kept(response, "body", "body" in response, Field(response, "body")),
           Kept(response, "error", Truthy(error), error), "status", "statusCode", "body", "error");
  }

  ghost predicate OutputOf(host: Host, response: Fields, output: Fields) {
    && output.Keys <= {"status", "statusCode", "body", "error"}
    && Field(output, "status") == (if Truthy(Field(response, "status")) then response["status"] else Undefined)
    && Field(output, "error") == (if Truthy(Field(response, "error")) then response["error"] else Undefined)
    && Field(output, "body") == Field(response, "body")
    && ("statusCode" in output <==> "statusCode" in response)
    && ("statusCode" in response ==>
          Field(output, "statusCode") == match response["statusCode"]
                                         case Null => Null
                                         case Undefined => Null
                                         case code => host.number(code))
  }
}
