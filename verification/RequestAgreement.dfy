/**
  Admission and execution agree: what admission accepted in its small context resolves at execution,
  in a larger one, to the same URL and headers; and a request survives being wrapped in a result.
 */
module RequestAgreement {
  import opened JsText
  import opened Json
  import opened UrlTemplate
  import opened RequestContract

  // ---------------------------------------------------------------- the request travels unchanged

  /** Normalising again, at execution and in the adapter, changes nothing. */
  lemma NormalizeIdempotent(v: Json)
    ensures Normalized(Obj(Normalized(v))) == Normalized(v)
  {
    assert "input" !in Normalized(v);
  }

  lemma InputField(payload: Json, v: Json, verb: string, key: string)
    requires key != "method" && key != "payload"
    ensures var input := RequestInput(payload, v, verb);
      (key in input <==> key in Normalized(v)) && (key in input ==> input[key] == Normalized(v)[key])
  {
  }

  lemma CarriedKey(source: Fields, key: string)
    requires Carried(source, key)
    ensures key != "method" && key != "payload"
  {
  }

  lemma EnvelopeSource(host: Host, payload: Json, v: Json, verb: string, response: Fields)
    ensures RequestSource(RequestEnvelope(host, payload, v, verb, response))
            == Source(RequestInput(payload, v, verb), true, false)
  {
  }

  /** A result fed back as a request carries the request it was made from. */
  lemma EnvelopeRoundTrip(host: Host, payload: Json, v: Json, verb: string, response: Fields)
    ensures Normalized(RequestEnvelope(host, payload, v, verb, response)) == Normalized(v)
  {
    var input := RequestInput(payload, v, verb);
    var again := Normalized(RequestEnvelope(host, payload, v, verb, response));
    EnvelopeSource(host, payload, v, verb, response);
    forall key | key in again ensures key in Normalized(v) && again[key] == Normalized(v)[key] {
      CarriedKey(input, key);
      InputField(payload, v, verb, key);
    }
    forall key | key in Normalized(v) ensures key in again {
      CarriedKey(RequestSource(v).fields, key);
      InputField(payload, v, verb, key);
    }
    SameFields(again, Normalized(v));
  }

  /** The keys of an envelope's input, and its method */
  lemma InputShape(payload: Json, v: Json, verb: string)
    ensures var input := RequestInput(payload, v, verb);
      && (forall key :: key in input ==> key in REQUEST_KEYS)
      && Field(input, "method") == if verb != "" then Str(verb) else Undefined
  {
    forall key | key in Normalized(v) ensures key in {"params", "query", "headers", "body"} {}
    assert "method" !in Normalized(v);
  }

  /** The method of an envelope suits the operation: there is none, or it is an HTTP method and the one the
      operation asks for, if it asks for one. */
  predicate VerbFits(host: Host, schema: Option<Schema>, verb: string) {
    || verb == ""
    || (&& host.upper(verb) in HTTP_METHODS
        && (schema.Some? && schema.value.verb != "" ==> host.upper(verb) == host.upper(schema.value.verb)))
  }

  lemma EnvelopeMethod(host: Host, inner: Json, v: Json, schema: Option<Schema>, verb: string, response: Fields)
    ensures var again := RequestEnvelope(host, inner, v, verb, response);
      && (VerbFits(host, schema, verb) ==> forall p :: !MethodProblem(host, again, schema, p))
      && (!VerbFits(host, schema, verb) ==>
            MethodProblem(host, again, schema, UnsupportedMethod) || MethodProblem(host, again, schema, WrongMethod))
  {
    InputShape(inner, v, verb);
    EnvelopeSource(host, inner, v, verb, response);
  }

  /** A result of an accepted request, fed back with the same payload, is accepted again exactly when its method
      suits the operation, whatever it carries as output. The operation's own method does, if it has one
      that is an HTTP method, and so does none. */
  lemma EnvelopeReadmitted(host: Host, payload: Json, inner: Json, v: Json, schema: Option<Schema>, context: Fields,
                           verb: string, response: Fields)
    requires Accepted(host, payload, v, schema, context)
    ensures Accepted(host, payload, RequestEnvelope(host, inner, v, verb, response), schema, context)
            <==> VerbFits(host, schema, verb)
  {
    var again := RequestEnvelope(host, inner, v, verb, response);
    EnvelopeRoundTrip(host, inner, v, verb, response);
    EnvelopeMethod(host, inner, v, schema, verb, response);
    if VerbFits(host, schema, verb) {
      InputShape(inner, v, verb);
      EnvelopeSource(host, inner, v, verb, response);
      var at := AtAdmission(context, Normalized(v));
      SameChecks(host, v, again, Normalized(v), schema, Filling(Header, host, payload, at),
                 Filling(Url, host, payload, at));
      forall p ensures !IsProblem(host, payload, again, schema, context, p) {
        assert !IsProblem(host, payload, v, schema, context, p);
      }
    } else {
      assert IsProblem(host, payload, again, schema, context, UnsupportedMethod)
        || IsProblem(host, payload, again, schema, context, WrongMethod);
    }
  }

  /** Once keys and method are in order, only the carried request is checked. */
  lemma SameChecks(host: Host, v: Json, again: Json, request: Fields, schema: Option<Schema>, header: Filler,
                   url: Filler)
    requires !RequestSource(again).error && forall key :: !KeyProblem(again, key)
    requires forall p :: !MethodProblem(host, again, schema, p)
    ensures forall p :: ProblemOf(host, again, request, schema, header, url, p) ==>
              ProblemOf(host, v, request, schema, header, url, p)
  {
  }

  // ---------------------------------------------------------------- the same texts

  /** The context of execution: the fields of admission, the stored request normalised again, and more */
  predicate AtExecution(context: Fields, v: Json, execution: Fields) {
    && (forall k :: k in context && k != "request" ==> k in execution && execution[k] == context[k])
    && "request" in execution && execution["request"] == Obj(Normalized(Obj(Normalized(v))))
  }

  /** What admission knows of a call */
  function ContextAtAdmission(requestId: Json, podId: Json, service: Json, operation: Json): Fields {
    map["requestId" := requestId, "podId" := podId, "service" := service, "operation" := operation]
  }

  /** What execution adds */
  function AddedAtExecution(verb: Json, signal: Json, deadlineAt: Json, idempotencyKey: Json, attempt: Json): Fields {
    map["method" := verb, "signal" := signal, "deadlineAt" := deadlineAt, "idempotencyKey" := idempotencyKey,
        "attempt" := attempt]
  }

  /** The whole context of execution; `stored` is the request that admission kept. */
  function ContextAtExecution(known: Fields, added: Fields, stored: Json): Fields {
    (known + added)["request" := Obj(Normalized(stored))]
  }

  lemma NamesApart()
    ensures {"requestId", "podId", "service", "operation"}
            !! {"method", "signal", "deadlineAt", "idempotencyKey", "attempt", "request"}
  {
    assert "attempt"[0] != "service"[0];
  }

  lemma NothingHidden(v: Json, known: Fields, added: Fields)
    requires known.Keys !! added.Keys && "request" !in known
    ensures AtExecution(known, v, ContextAtExecution(known, added, Obj(Normalized(v))))
  {
  }

  /** The gateway's own two contexts are such: what follows for `AtExecution` holds for them. */
  lemma GatewayContexts(v: Json, requestId: Json, podId: Json, service: Json, operation: Json, verb: Json,
                        signal: Json, deadlineAt: Json, idempotencyKey: Json, attempt: Json)
    ensures AtExecution(ContextAtAdmission(requestId, podId, service, operation), v,
                        ContextAtExecution(ContextAtAdmission(requestId, podId, service, operation),
                                           AddedAtExecution(verb, signal, deadlineAt, idempotencyKey, attempt),
                                           Obj(Normalized(v))))
  {
    var known := ContextAtAdmission(requestId, podId, service, operation);
    var added := AddedAtExecution(verb, signal, deadlineAt, idempotencyKey, attempt);
    NamesApart();
    assert known.Keys == {"requestId", "podId", "service", "operation"};
    assert added.Keys == {"method", "signal", "deadlineAt", "idempotencyKey", "attempt"};
    NothingHidden(v, known, added);
  }

  /** A text that admission could fill is filled alike at execution. */
  lemma FilledAgrees(kind: Kind, host: Host, text: string, payload: Json, v: Json, context: Fields, execution: Fields)
    requires AtExecution(context, v, execution)
    requires Filled(kind, host, text, payload, AtAdmission(context, Normalized(v))).Ok?
    ensures Filled(kind, host, text, payload, execution)
            == Filled(kind, host, text, payload, AtAdmission(context, Normalized(v)))
  {
    NormalizeIdempotent(v);
    if HasTemplate(text) {
      ReplaceAgrees(kind, host.encode, Pieces(text), payload, AtAdmission(context, Normalized(v)), execution);
    }
  }

  predicate Absent(v: Json) { v.Null? || v.Undefined? }

  /** No header of a protected name is ever sent, whatever was admitted. */
  lemma NeverProtected(host: Host, headers: Json, payload: Json, context: Fields, extra: seq<string>)
    ensures var sent := HeadersSent(host, headers, payload, context, extra);
      sent.Some? ==> forall key :: key in sent.value ==> host.lower(key) !in Protected(host, extra)
  {
  }

  /** One header of an accepted request, given how its text is filled before and after */
  lemma HeaderAgrees(host: Host, key: string, headers: Fields, before: Filler, after: Filler, protected: set<string>)
    requires key in headers && forall p :: !HeaderProblem(host, headers, protected, before, p)
    requires headers[key].Str? && before(headers[key].s).Ok? ==> after(headers[key].s) == before(headers[key].s)
    ensures host.lower(key) !in protected
    ensures Absent(headers[key]) <==> HeaderSent(host, key, headers[key], after, protected).Skipped?
    ensures !HeaderSent(host, key, headers[key], after, protected).Throws?
    ensures HeaderSent(host, key, headers[key], after, protected)
              == HeaderSent(host, key, headers[key], before, protected)
  {
    var v := headers[key];
    assert !HeaderProblem(host, headers, protected, before, HeaderManaged(key));
    assert !HeaderProblem(host, headers, protected, before, HeaderNotScalar(key));
    assert !HeaderProblem(host, headers, protected, before, HeaderBreaksLine(key));
    if v.Str? {
      var error := if before(v.s).Err? then before(v.s).error else CannotEncode;
      assert !HeaderProblem(host, headers, protected, before, HeaderTemplate(key, error));
    }
    if v.Bool? || v.Num? { TextOnOneLine(v); }
  }

  /** All headers of an accepted request */
  lemma HeadersAgree(host: Host, headers: Fields, before: Filler, after: Filler, protected: set<string>)
    requires forall p :: !HeaderProblem(host, headers, protected, before, p)
    requires forall key :: key in headers && headers[key].Str? && before(headers[key].s).Ok? ==>
      after(headers[key].s) == before(headers[key].s)
    ensures !AnyThrows(host, headers, after, protected) && !AnyThrows(host, headers, before, protected)
    ensures Texts(host, headers, headers.Keys, after, protected)
            == Texts(host, headers, headers.Keys, before, protected)
    ensures forall key ::
      key in Texts(host, headers, headers.Keys, after, protected) <==> key in headers && !Absent(headers[key])
  {
    forall key | key in headers
      ensures !HeaderSent(host, key, headers[key], after, protected).Throws?
      ensures Absent(headers[key]) <==> HeaderSent(host, key, headers[key], after, protected).Skipped?
      ensures HeaderSent(host, key, headers[key], after, protected)
              == HeaderSent(host, key, headers[key], before, protected)
    {
      HeaderAgrees(host, key, headers, before, after, protected);
    }
  }

  /** What admission accepted executes: the URL template resolves to the URL admission computed, no
      header throws, and the headers sent are those of the request that are neither null nor undefined,
      none of them protected, each with the text admission computed. */
  lemma AdmissionImpliesExecution(host: Host, payload: Json, v: Json, schema: Option<Schema>, context: Fields,
                                  execution: Fields)
    requires Accepted(host, payload, v, schema, context) && AtExecution(context, v, execution)
    ensures Normalized(execution["request"]) == Normalized(v)
    ensures schema.Some? ==>
      var template, at := schema.value.template, AtAdmission(context, Normalized(v));
      && Filled(Url, host, template, payload, execution).Ok?
      && Filled(Url, host, template, payload, execution) == Filled(Url, host, template, payload, at)
    ensures var headers, at := Field(Normalized(v), "headers"), AtAdmission(context, Normalized(v));
      var sent := HeadersSent(host, headers, payload, execution, Extra(schema));
      && sent.Some?
      && sent == HeadersSent(host, headers, payload, at, Extra(schema))
      && (forall key :: key in sent.value ==> host.lower(key) !in Protected(host, Extra(schema)))
      && forall key :: key in sent.value <==> key in Part(Normalized(v),
                                                          "headers") && !Absent(Part(Normalized(v), "headers")[key])
  {
    var at := AtAdmission(context, Normalized(v));
    NeverProtected(host, Field(Normalized(v), "headers"), payload, execution, Extra(schema));
    NormalizeIdempotent(v);
    NoProblems(host, payload, v, schema, context);
    HeadersAgreeAt(host, payload, v, schema, context, execution);
    if schema.Some? { FilledAgrees(Url, host, schema.value.template, payload, v, context, execution); }
  }

  lemma HeadersAgreeAt(host: Host, payload: Json, v: Json, schema: Option<Schema>, context: Fields, execution: Fields)
    requires AtExecution(context, v, execution)
    requires forall p :: !HeaderProblem(host, Part(Normalized(v), "headers"), Protected(host, Extra(schema)),
                                        Filling(Header, host, payload, AtAdmission(context, Normalized(v))), p)
    ensures var headers, at := Field(Normalized(v), "headers"), AtAdmission(context, Normalized(v));
      var sent := HeadersSent(host, headers, payload, execution, Extra(schema));
      && sent.Some?
      && sent == HeadersSent(host, headers, payload, at, Extra(schema))
      && forall key :: key in sent.value <==> key in Part(Normalized(v),
                                                          "headers") && !Absent(Part(Normalized(v), "headers")[key])
  {
    var before := Filling(Header, host, payload, AtAdmission(context, Normalized(v)));
    var after := Filling(Header, host, payload, execution);
    var headers := Part(Normalized(v), "headers");
    forall key | key in headers && headers[key].Str? && before(headers[key].s).Ok?
      ensures after(headers[key].s) == before(headers[key].s)
    {
      FilledAgrees(Header, host, headers[key].s, payload, v, context, execution);
    }
    HeadersAgree(host, headers, before, after, Protected(host, Extra(schema)));
  }

  /** What acceptance says of the headers and of the URL template */
  lemma NoProblems(host: Host, payload: Json, v: Json, schema: Option<Schema>, context: Fields)
    requires Accepted(host, payload, v, schema, context)
    ensures var request := Normalized(v); var at := AtAdmission(context, request);
      && (forall p :: !HeaderProblem(host, Part(request, "headers"), Protected(host, Extra(schema)),
                                     Filling(Header, host, payload, at), p))
      && (schema.Some? ==> Filled(Url, host, schema.value.template, payload, at).Ok?)
  {
    var request := Normalized(v);
    var at := AtAdmission(context, request);
    var header, url := Filling(Header, host, payload, at), Filling(Url, host, payload, at);
    forall p ensures !ProblemOf(host, v, request, schema, header, url, p) {
      assert !IsProblem(host, payload, v, schema, context, p);
    }
    NoProblemsOf(host, v, request, schema, header, url);
  }

  lemma NoProblemsOf(host: Host, v: Json, request: Fields, schema: Option<Schema>, header: Filler, url: Filler)
    requires forall p :: !ProblemOf(host, v, request, schema, header, url, p)
    ensures forall p :: !HeaderProblem(host, Part(request, "headers"), Protected(host, Extra(schema)), header, p)
    ensures schema.Some? ==> url(schema.value.template).Ok?
  {
    forall p ensures !HeaderProblem(host, Part(request, "headers"), Protected(host, Extra(schema)), header, p) {
      assert !ProblemOf(host, v, request, schema, header, url, p);
    }
    if schema.Some? {
      var filled := url(schema.value.template);
      var error := if filled.Err? then filled.error else CannotEncode;
      assert !ProblemOf(host, v, request, schema, header, url, UrlTemplateFails(error));
    }
  }
}
