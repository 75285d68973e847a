/**
  Which bucket a call uses, and the two limiters. Operations that share a bucket share its
  configuration, so the window bound holds for all of them together; the in-memory limiter
  decides as the script does.
 */
module RateLimiters {
  import opened JsText
  import opened Gcra
  import GcraExpiry

  /** A configured limit; a missing burst means 1 */
  datatype Config = Config(rate: real, burst: Option<real>)

  function LimitOf(c: Config): Limit { Limit(c.rate, if c.burst.Some? then c.burst.value else 1.0) }

  datatype Selected = Selected(config: Option<Config>, bucket: string)

  // ---------------------------------------------------------------- operations and buckets

  datatype Operation = Operation(service: string, operation: string, value: string)

  predicate IsServiceChar(c: char) { IsLetter(c) || IsDigit(c) || c in {'.', '_', '-'} }

  predicate IsOperationChar(c: char) { IsServiceChar(c) || c == ':' }

  /** parseOperation; None where it throws */
  function ParseOperation(operation: string): Option<Operation> {
    var value := Trim(operation);
    var slash := IndexOf(value, '/');
    if slash == 0 || slash >= |value| - 1 then None
    else
      var service, name := value[..slash], value[slash + 1..];
      if (forall c :: c in service ==> IsServiceChar(c)) && (forall c :: c in name ==> IsOperationChar(c))
      then Some(Operation(service, name, value)) else None
  }

  /** The parts put together again are the value; neither has a slash, and both survive trim(). */
  lemma ParsedParts(operation: string)
    requires ParseOperation(operation).Some?
    ensures var op := ParseOperation(operation).value;
      && op.value == op.service + "/" + op.operation
      && op.service != "" && op.operation != "" && '/' !in op.service && '/' !in op.operation
      && Trim(op.value) == op.value && Trim(op.service) == op.service
      && ParseOperation(op.value) == Some(op)
  {
    var op := ParseOperation(operation).value;
    var slash := IndexOf(op.value, '/');
    assert op.value == op.value[..slash] + [op.value[slash]] + op.value[slash + 1..];
    assert op.service[0] in op.service && op.service[|op.service| - 1] in op.service;
    assert op.operation[|op.operation| - 1] in op.operation;
    assert op.value[0] == op.service[0] && op.value[|op.value| - 1] == op.operation[|op.operation| - 1];
    TrimKeeps(op.service);
    TrimKeeps(op.value);
  }

  predicate ServiceText(s: string) {
    s != "" && forall c :: c in s ==>
      'a' <= c <= 'z' || 'A' <= c <= 'Z' || '0' <= c <= '9' || c == '.' || c == '_' || c == '-'
  }

  predicate NameText(s: string) {
    s != "" && forall c :: c in s ==>
      'a' <= c <= 'z' || 'A' <= c <= 'Z' || '0' <= c <= '9' || c == '.' || c == '_' || c == ':' || c == '-'
  }

  lemma PartsAccepted(operation: string, service: string, name: string)
    requires Trim(operation) == service + "/" + name && ServiceText(service) && NameText(name)
    ensures ParseOperation(operation).Some?
  {
    FirstSlash(service, name);
  }

  lemma PartsOf(operation: string)
    requires ParseOperation(operation).Some?
    ensures var op := ParseOperation(operation).value;
      Trim(operation) == op.service + "/" + op.operation && ServiceText(op.service) && NameText(op.operation)
  {
    ParsedParts(operation);
  }

  /** A name is accepted exactly when, trimmed, it is a service of letters, digits, dots, underscores and dashes, a
      slash, and a name of those and colons. */
  lemma ParsedIff(operation: string)
    ensures ParseOperation(operation).Some? <==>
      exists service, name :: Trim(operation) == service + "/" + name && ServiceText(service) && NameText(name)
  {
    if ParseOperation(operation).Some? {
      PartsOf(operation);
    } else if service, name :| Trim(operation) == service + "/" + name && ServiceText(service) && NameText(name) {
      PartsAccepted(operation, service, name);
      assert false;
    }
  }

  lemma FirstSlash(service: string, name: string)
    requires '/' !in service
    ensures IndexOf(service + "/" + name, '/') == |service|
    ensures (service + "/" + name)[..|service|] == service && (service + "/" + name)[|service| + 1..] == name
  {
    var s := service + "/" + name;
    assert s[|service|] == '/' && forall i :: 0 <= i < |service| ==> s[i] == service[i] && s[i] != '/';
  }

  /** selectLimit */
  function SelectLimit(limits: map<string, Config>, service: string, operation: string): Selected {
    var operationKey, serviceKey := Trim(operation), Trim(service);
    if operationKey != "" && operationKey in limits then Selected(Some(limits[operationKey]), operationKey)
    else if serviceKey != "" && serviceKey in limits then Selected(Some(limits[serviceKey]), serviceKey)
    else if "default" in limits then Selected(Some(limits["default"]), "default")
    else Selected(None, if serviceKey != "" then serviceKey else operationKey)
  }

  /** The first lines of both `allow` methods */
  function Choose(limits: map<string, Config>, service: string, operation: string, own: Option<Config>): Selected {
    if own.Some? then Selected(own, Trim(if operation != "" then operation else service))
    else SelectLimit(limits, service, operation)
  }

  /** No configuration, or a zero rate, means no limit. */
  predicate Bypasses(s: Selected) { s.config.None? || s.config.value.rate == 0.0 }

  /** What the gateway passes for a registered operation: its parsed name and its own limit */
  function ChooseFor(limits: map<string, Config>, registered: map<string, Option<Config>>, value: string): Selected
    requires value in registered && ParseOperation(value).Some?
  {
    var op := ParseOperation(value).value;
    Choose(limits, op.service, op.value, registered[value])
  }

  /** Operations are registered under their parsed value. */
  predicate Registered(registered: map<string, Option<Config>>, value: string) {
    value in registered && ParseOperation(value).Some? && ParseOperation(value).value.value == value
  }

  /** An operation's own limit wins; then what is configured for it, for its service, by default, or nothing.
      A bucket with a slash belongs to one operation; any other bucket is a key of `limits`. */
  lemma BucketOwner(limits: map<string, Config>, registered: map<string, Option<Config>>, value: string)
    requires Registered(registered, value)
    ensures var s := ChooseFor(limits, registered, value);
      && s.bucket != ""
      && (registered[value].Some? ==> s == Selected(registered[value], value))
      && (registered[value].None? && s.config.Some? ==> s.bucket in limits && s.config.value == limits[s.bucket])
      && (registered[value].None? && value in limits ==> s.bucket == value)
      && (registered[value].None? && value !in limits ==>
            var service := ParseOperation(value).value.service;
            && (service in limits ==> s.bucket == service)
            && (service !in limits && "default" in limits ==> s.bucket == "default")
            && (s.config.None? <==> service !in limits && "default" !in limits))
      && ('/' in s.bucket ==> s.bucket == value)
      && '/' in value
  {
    ParsedParts(value);
    var op := ParseOperation(value).value;
    assert value[|op.service|] == '/';
    assert '/' !in "default";
  }

  /** One budget per bucket: two registered operations with the same bucket have the same
      configuration. */
  lemma OneBudgetPerBucket(limits: map<string, Config>, registered: map<string, Option<Config>>, v1: string, v2: string)
    requires Registered(registered, v1) && Registered(registered, v2)
    requires ChooseFor(limits, registered, v1).bucket == ChooseFor(limits, registered, v2).bucket
    requires ChooseFor(limits, registered, v1).config.Some? && ChooseFor(limits, registered, v2).config.Some?
    ensures ChooseFor(limits, registered, v1).config == ChooseFor(limits, registered, v2).config
  {
    BucketOwner(limits, registered, v1);
    BucketOwner(limits, registered, v2);
  }

  // ---------------------------------------------------------------- the joint bound

  function Key(prefix: string, bucket: string): string { prefix + ":{" + bucket + "}:g" }

  lemma KeyInjective(prefix: string, a: string, b: string)
    ensures Key(prefix, a) == Key(prefix, b) ==> a == b
  {
    if Key(prefix, a) == Key(prefix, b) {
      var n := |prefix| + 2;
      assert Key(prefix, a)[n..n + |a|] == a;
      assert Key(prefix, b)[n..n + |b|] == b;
    }
  }

  function OneKey(key: string, l: Limit, cost: real, now: real): Call { Call(now, [key], [l], cost) }

  /** One admission test for a registered operation */
  datatype Ask = Ask(value: string, cost: real, now: real)

  predicate AskOk(registered: map<string, Option<Config>>, a: Ask) { Registered(registered, a.value) && a.cost >= 0.0 }

  /** The script calls of a run of asks; bypassed asks make none. */
  function ScriptCalls(limits: map<string, Config>, registered: map<string, Option<Config>>, prefix: string,
                       asks: seq<Ask>)
    : seq<Call>
    requires forall a :: a in asks ==> AskOk(registered, a)
    decreases |asks|
  {
    if asks == [] then []
    else
      assert asks[0] in asks && AskOk(registered, asks[0]);
      var s := ChooseFor(limits, registered, asks[0].value);
      var rest := ScriptCalls(limits, registered, prefix, asks[1..]);
      if Bypasses(s) then rest
      else [OneKey(Key(prefix, s.bucket), LimitOf(s.config.value), asks[0].cost, asks[0].now)] + rest
  }

  lemma {:induction false} CallsUseLimit(limits: map<string, Config>, registered: map<string, Option<Config>>,
                                         prefix: string, asks: seq<Ask>, value: string)
    requires (forall a :: a in asks ==> AskOk(registered, a)) && Registered(registered, value)
    requires ChooseFor(limits, registered, value).config.Some?
    ensures var s := ChooseFor(limits, registered, value);
      forall c :: c in ScriptCalls(limits, registered, prefix, asks) ==>
        Proper(c) && UsesLimit(c, Key(prefix, s.bucket), LimitOf(s.config.value))
    decreases |asks|
  {
    if asks != [] {
      assert asks[0] in asks;
      CallsUseLimit(limits, registered, prefix, asks[1..], value);
      var s, t := ChooseFor(limits, registered, asks[0].value), ChooseFor(limits, registered, value);
      if !Bypasses(s) {
        KeyInjective(prefix, s.bucket, t.bucket);
        if s.bucket == t.bucket { OneBudgetPerBucket(limits, registered, asks[0].value, value); }
      }
    }
  }

  predicate AsksInOrder(asks: seq<Ask>) { forall i, j :: 0 <= i < j < |asks| ==> asks[i].now <= asks[j].now }

  lemma LaterAsks(asks: seq<Ask>)
    requires asks != [] && AsksInOrder(asks)
    ensures AsksInOrder(asks[1..]) && forall a :: a in asks[1..] ==> asks[0].now <= a.now
  {
    forall a | a in asks[1..] ensures asks[0].now <= a.now {
      var i :| 0 <= i < |asks[1..]| && asks[1..][i] == a;
      assert asks[i + 1] == a;
    }
  }

  lemma CallBefore(call: Call, rest: seq<Call>)
    requires Proper(call) && GcraExpiry.Ordered(rest) && forall c :: c in rest ==> call.now <= c.now
    ensures GcraExpiry.Ordered([call] + rest)
  {
  }

  lemma {:induction false} CallsInOrder(limits: map<string, Config>, registered: map<string, Option<Config>>,
                                        prefix: string, asks: seq<Ask>, since: real)
    requires (forall a :: a in asks ==> AskOk(registered, a) && since <= a.now) && AsksInOrder(asks)
    ensures var calls := ScriptCalls(limits, registered, prefix, asks);
      GcraExpiry.Ordered(calls) && forall c :: c in calls ==> since <= c.now
    decreases |asks|
  {
    if asks != [] {
      assert asks[0] in asks;
      LaterAsks(asks);
      CallsInOrder(limits, registered, prefix, asks[1..], asks[0].now);
      var s := ChooseFor(limits, registered, asks[0].value);
      if !Bypasses(s) {
        CallBefore(OneKey(Key(prefix, s.bucket), LimitOf(s.config.value), asks[0].cost, asks[0].now),
                   ScriptCalls(limits, registered, prefix, asks[1..]));
      }
    }
  }

  /** All operations that share `value`'s bucket - the service's, or the default rule's - together
      stay within its one allowance in every interval of every run, on the expiring keys the limiter
      keeps and under a nondecreasing clock. */
  lemma JointWindowBound(limits: map<string, Config>, registered: map<string, Option<Config>>, prefix: string,
                         asks: seq<Ask>, value: string, t1: real, t2: real)
    requires (forall a :: a in asks ==> AskOk(registered, a)) && Registered(registered, value) && t1 <= t2
    requires AsksInOrder(asks)
    requires var s := ChooseFor(limits, registered, value);
      s.config.Some? && s.config.value.rate > 0.0 && LimitOf(s.config.value).burst >= 0.0
    ensures var s := ChooseFor(limits, registered, value);
      var calls := ScriptCalls(limits, registered, prefix, asks);
      && (forall c :: c in calls ==> Proper(c))
      && GcraExpiry.AdmittedExpiring(map[], calls, Key(prefix, s.bucket), t1, t2)
         <= Allowance(s.config.value.rate, LimitOf(s.config.value).burst, t2 - t1)
  {
    var s := ChooseFor(limits, registered, value);
    var calls := ScriptCalls(limits, registered, prefix, asks);
    CallsUseLimit(limits, registered, prefix, asks, value);
    if asks != [] {
      assert forall a :: a in asks ==> asks[0].now <= a.now;
      CallsInOrder(limits, registered, prefix, asks, asks[0].now);
    }
    GcraExpiry.WindowBoundExpiring(map[], calls, Key(prefix, s.bucket), LimitOf(s.config.value), t1, t2);
  }

  // ---------------------------------------------------------------- a fresh bucket

  /** The cost that fits a fresh bucket at once: the configured burst, else 1 */
  predicate FitsAtOnce(config: Config, cost: real) {
    match config.burst
    case Some(burst) => cost <= burst
    case None => cost <= 1.0
  }

  lemma NotMore(emission: real, cost: real, burst: real)
    requires emission > 0.0
    ensures emission * cost - emission * burst <= 0.0 <==> cost <= burst
  {
    assert emission * cost - emission * burst == emission * (cost - burst);
  }

  lemma FreshKey(tats: map<string, real>, key: string, config: Config, cost: real, now: real)
    requires key !in tats && config.rate > 0.0 && cost >= 0.0
    ensures Decide(tats, OneKey(key, LimitOf(config), cost, now)).allowed <==> FitsAtOnce(config, cost)
  {
    var l := LimitOf(config);
    OneKeyDecides(tats, OneKey(key, l, cost, now));
    NotMore(Emission(l), cost, l.burst);
    assert WaitFor(tats, key, l, cost, now) == Emission(l) * cost - Emission(l) * l.burst;
  }

  lemma FreshBucket(state: map<string, real>, bucket: string, config: Config, cost: real, now: real)
    requires bucket !in state && config.rate > 0.0
    ensures MemoryStep(state, bucket, LimitOf(config), cost, now).1.allowed <==> FitsAtOnce(config, cost)
  {
    NotMore(1000.0 / config.rate, cost, LimitOf(config).burst);
  }

  // ---------------------------------------------------------------- the limiters

  datatype AllowResult = Allowed(decision: Decision) | LimiterUnavailable

  class RedisGcraRateLimiter {
    const limits: map<string, Config>
    const keyPrefix: string
    const store: GcraExpiry.RateStore

    constructor (limits: map<string, Config>, keyPrefix: string, store: GcraExpiry.RateStore)
      ensures this.limits == limits && this.keyPrefix == keyPrefix && this.store == store
    {
      this.limits, this.keyPrefix, this.store := limits, keyPrefix, store;
    }

    /** What `allow` does once it has found a limit and its bucket */
    ghost predicate Charged(before: map<string, GcraExpiry.Cell>, after: map<string, GcraExpiry.Cell>, r: AllowResult,
                            config: Config, bucket: string, cost: real, ready: bool, now: real)
      requires cost >= 0.0
    {
      var key := keyPrefix + ":{" + bucket + "}:g";
      var c := OneKey(key, LimitOf(config), cost, now);
      && (config.rate == 0.0 ==> r == Allowed(Decision(true, 0)) && after == before)
      && (config.rate != 0.0 && !ready ==> r == LimiterUnavailable && after == before)
      && (config.rate != 0.0 && ready ==> r == Allowed(GcraExpiry.DecideExpiring(before, c)))
      && (config.rate > 0.0 && ready ==> after == GcraExpiry.AfterExpiring(before, c))
      && (config.rate < 0.0 && ready ==> r == Allowed(Decision(false, 0)) && after == before)
      && (config.rate > 0.0 && ready && key !in before ==> (r.decision.allowed <==> FitsAtOnce(config, cost)))
    }

    /** The operation's own limit, then the one configured for the operation, for the service, by default; else
        the call passes. */
    method Allow(service: string, cost: real, operation: string, own: Option<Config>, ready: bool, now: real)
      returns (r: AllowResult)
      requires cost >= 0.0
      modifies store
      ensures own.Some? ==>
                Charged(old(store.cells), store.cells, r, own.value,
                        Trim(if operation != "" then operation else service), cost, ready, now)
      ensures own.None? && Trim(operation) != "" && Trim(operation) in limits ==>
                Charged(old(store.cells), store.cells, r, limits[Trim(operation)], Trim(operation), cost, ready, now)
      ensures own.None? && (Trim(operation) == "" || Trim(operation) !in limits)
              && Trim(service) != "" && Trim(service) in limits ==>
                Charged(old(store.cells), store.cells, r, limits[Trim(service)], Trim(service), cost, ready, now)
      ensures own.None? && (Trim(operation) == "" || Trim(operation) !in limits)
              && (Trim(service) == "" || Trim(service) !in limits) && "default" in limits ==>
                Charged(old(store.cells), store.cells, r, limits["default"], "default", cost, ready, now)
      ensures own.None? && (Trim(operation) == "" || Trim(operation) !in limits)
              && (Trim(service) == "" || Trim(service) !in limits) && "default" !in limits ==>
                r == Allowed(Decision(true, 0)) && store.cells == old(store.cells)
    {
      var selected := Choose(limits, service, operation, own);
      if Bypasses(selected) { return Allowed(Decision(true, 0)); }
      if !ready { return LimiterUnavailable; }
      var d := Check(selected.config.value, selected.bucket, cost, now);
      return Allowed(d);
    }

    /** The script's evaluation on the bucket's key */
    method Check(config: Config, bucket: string, cost: real, now: real) returns (d: Decision)
      requires cost >= 0.0 && config.rate != 0.0
      modifies store
      ensures Charged(old(store.cells), store.cells, Allowed(d), config, bucket, cost, true, now)
    {
      var key := Key(keyPrefix, bucket);
      d := store.Eval(OneKey(key, LimitOf(config), cost, now));
      if config.rate > 0.0 && key !in old(store.cells) {
        FreshKey(GcraExpiry.Tats(GcraExpiry.Existing(old(store.cells), now)), key, config, cost, now);
      }
    }
  }

  /** The tat the in-memory limiter would store, and the time it would admit the cost. A stored 0
      is falsy and reads as absent. */
  function MemoryTat(state: map<string, real>, bucket: string, l: Limit, cost: real, now: real): real
    requires l.rate != 0.0
  {
    Max(if bucket in state && state[bucket] != 0.0 then state[bucket] else now, now) + (1000.0 / l.rate) * cost
  }

  function MemoryAllowAt(state: map<string, real>, bucket: string, l: Limit, cost: real, now: real): real
    requires l.rate != 0.0
  {
    MemoryTat(state, bucket, l, cost, now) - (1000.0 / l.rate) * l.burst
  }

  function MemoryStep(state: map<string, real>, bucket: string, l: Limit, cost: real, now: real)
    : (map<string, real>, Decision)
    requires l.rate != 0.0
  {
    var allowAt := MemoryAllowAt(state, bucket, l, cost, now);
    if allowAt > now then (state, Decision(false, Ceil(allowAt - now)))
    else (state[bucket := MemoryTat(state, bucket, l, cost, now)], Decision(true, 0))
  }

  class InMemoryGcraRateLimiter {
    const limits: map<string, Config>
    var state: map<string, real>

    constructor (limits: map<string, Config>)
      ensures this.limits == limits && state == map[]
    {
      this.limits := limits;
      state := map[];
    }

    /** What `allow` does once it has found a limit and its bucket */
    ghost predicate Charged(before: map<string, real>, after: map<string, real>, d: Decision, config: Config,
                            bucket: string, cost: real, now: real)
    {
      && (config.rate == 0.0 ==> d == Decision(true, 0) && after == before)
      && (config.rate != 0.0 ==> (after, d) == MemoryStep(before, bucket, LimitOf(config), cost, now))
      && (config.rate > 0.0 && bucket !in before ==> (d.allowed <==> FitsAtOnce(config, cost)))
    }

    /** The limit is found as in the other limiter; an empty bucket name gives way to the service as it is. */
    method Allow(service: string, cost: real, operation: string, own: Option<Config>, now: real) returns (d: Decision)
      modifies this
      ensures own.Some? ==>
                var bucket := Trim(if operation != "" then operation else service);
                Charged(old(state), state, d, own.value, if bucket != "" then bucket else service, cost, now)
      ensures own.None? && Trim(operation) != "" && Trim(operation) in limits ==>
                Charged(old(state), state, d, limits[Trim(operation)], Trim(operation), cost, now)
      ensures own.None? && (Trim(operation) == "" || Trim(operation) !in limits)
              && Trim(service) != "" && Trim(service) in limits ==>
                Charged(old(state), state, d, limits[Trim(service)], Trim(service), cost, now)
      ensures own.None? && (Trim(operation) == "" || Trim(operation) !in limits)
              && (Trim(service) == "" || Trim(service) !in limits) && "default" in limits ==>
                Charged(old(state), state, d, limits["default"], "default", cost, now)
      ensures own.None? && (Trim(operation) == "" || Trim(operation) !in limits)
              && (Trim(service) == "" || Trim(service) !in limits) && "default" !in limits ==>
                d == Decision(true, 0) && state == old(state)
    {
      var selected := Choose(limits, service, operation, own);
      if Bypasses(selected) { return Decision(true, 0); }
      d := Check(selected.config.value, if selected.bucket != "" then selected.bucket else service, cost, now);
    }

    method Check(config: Config, bucket: string, cost: real, now: real) returns (d: Decision)
      requires config.rate != 0.0
      modifies this
      ensures Charged(old(state), state, d, config, bucket, cost, now)
    {
      var newTat, allowAt := Project(bucket, LimitOf(config), cost, now);
      if config.rate > 0.0 && bucket !in state { FreshBucket(state, bucket, config, cost, now); }
      if allowAt > now {
        return Decision(false, Ceil(allowAt - now));
      }
      state := state[bucket := newTat];
      return Decision(true, 0);
    }

    /** The arithmetic of `allow` */
    method Project(bucket: string, l: Limit, cost: real, now: real) returns (newTat: real, allowAt: real)
      requires l.rate != 0.0
      ensures newTat == MemoryTat(state, bucket, l, cost, now)
      ensures allowAt == MemoryAllowAt(state, bucket, l, cost, now)
    {
      var emission := 1000.0 / l.rate;
      var delayTolerance := emission * l.burst;
      assert delayTolerance == (1000.0 / l.rate) * l.burst;
      var tat := if bucket in state && state[bucket] != 0.0 then state[bucket] else now;
      if tat < now { tat := now; }
      newTat := tat + emission * cost;
      assert newTat == tat + (1000.0 / l.rate) * cost;
      allowAt := newTat - delayTolerance;
    }
  }

  // ---------------------------------------------------------------- one decides as the other

  /** Same tats under the script's key names */
  ghost predicate SameTats(state: map<string, real>, tats: map<string, real>, prefix: string) {
    forall b :: (b in state <==> Key(prefix, b) in tats) && (b in state ==> state[b] == tats[Key(prefix, b)])
  }

  lemma MemoryDecidesAsScript(state: map<string, real>, tats: map<string, real>, prefix: string, bucket: string,
                              l: Limit, cost: real, now: real)
    requires SameTats(state, tats, prefix) && l.rate > 0.0 && cost >= 0.0 && now >= 0.0
    ensures var c := OneKey(Key(prefix, bucket), l, cost, now);
      var (state', d) := MemoryStep(state, bucket, l, cost, now);
      d == Decide(tats, c) && SameTats(state', After(tats, c), prefix)
  {
    var key := Key(prefix, bucket);
    var c := OneKey(key, l, cost, now);
    MemoryTatIsNextTat(state, tats, bucket, key, l, cost, now);
    OneKeyDecides(tats, c);
    SameTatsWritten(state, tats, prefix, bucket, NextTat(tats, key, l, cost, now));
  }

  lemma SameTatsWritten(state: map<string, real>, tats: map<string, real>, prefix: string, bucket: string, tat: real)
    requires SameTats(state, tats, prefix)
    ensures SameTats(state[bucket := tat], tats[Key(prefix, bucket) := tat], prefix)
  {
    var state', tats' := state[bucket := tat], tats[Key(prefix, bucket) := tat];
    forall b ensures (b in state' <==> Key(prefix, b) in tats')
                     && (b in state' ==> state'[b] == tats'[Key(prefix, b)]) {
      KeyInjective(prefix, b, bucket);
    }
  }

  lemma MemoryTatIsNextTat(state: map<string, real>, tats: map<string, real>, bucket: string, key: string, l: Limit,
                           cost: real, now: real)
    requires l.rate > 0.0 && now >= 0.0
    requires (bucket in state <==> key in tats) && (bucket in state ==> state[bucket] == tats[key])
    ensures MemoryTat(state, bucket, l, cost, now) == NextTat(tats, key, l, cost, now)
    ensures MemoryAllowAt(state, bucket, l, cost, now) - now == WaitFor(tats, key, l, cost, now)
  {
  }

  /** The script on one key */
  lemma OneKeyDecides(tats: map<string, real>, c: Call)
    requires Proper(c) && Rated(c.limits) && |c.keys| == 1
    ensures var w := WaitFor(tats, c.keys[0], c.limits[0], c.cost, c.now);
      && Decide(tats, c) == (if w > 0.0 then Decision(false, Ceil(w)) else Decision(true, 0))
      && After(tats, c) == if w > 0.0 then tats
                           else tats[c.keys[0] := NextTat(tats, c.keys[0], c.limits[0], c.cost, c.now)]
  {
    assert WorstWait(tats, c, 1) == Max(WorstWait(tats, c, 0), WaitFor(tats, c.keys[0], c.limits[0], c.cost, c.now));
    assert Written(tats, c, 1)
           == Written(tats, c, 0)[c.keys[0] := NextTat(tats, c.keys[0], c.limits[0], c.cost, c.now)];
  }

  /** A limited ask in bucket terms */
  datatype Charge = Charge(bucket: string, l: Limit, cost: real, now: real)

  predicate ChargeOk(a: Charge) { a.l.rate > 0.0 && a.cost >= 0.0 && a.now >= 0.0 }

  function MemoryDecisions(state: map<string, real>, charges: seq<Charge>): seq<Decision>
    requires forall a :: a in charges ==> ChargeOk(a)
    decreases |charges|
  {
    if charges == [] then []
    else
      assert charges[0] in charges && ChargeOk(charges[0]);
      var a := charges[0];
      var (state', d) := MemoryStep(state, a.bucket, a.l, a.cost, a.now);
      [d] + MemoryDecisions(state', charges[1..])
  }

  function AsCalls(prefix: string, charges: seq<Charge>): (calls: seq<Call>)
    requires forall a :: a in charges ==> ChargeOk(a)
    ensures |calls| == |charges| && forall c :: c in calls ==> Proper(c)
    ensures forall i :: 0 <= i < |charges| ==>
              calls[i] == OneKey(Key(prefix, charges[i].bucket), charges[i].l, charges[i].cost, charges[i].now)
  {
    var calls := seq(|charges|, i requires 0 <= i < |charges| =>
      OneKey(Key(prefix, charges[i].bucket), charges[i].l, charges[i].cost, charges[i].now));
    assert forall i :: 0 <= i < |calls| ==> Proper(calls[i]) by {
      forall i | 0 <= i < |calls| ensures Proper(calls[i]) {
        assert ChargeOk(charges[i]);
      }
    }
    calls
  }

  lemma {:induction false} MemoryRunAsScript(state: map<string, real>, tats: map<string, real>, prefix: string,
                                             charges: seq<Charge>)
    requires SameTats(state, tats, prefix) && forall a :: a in charges ==> ChargeOk(a)
    ensures MemoryDecisions(state, charges) == GcraExpiry.Decisions(tats, AsCalls(prefix, charges))
    decreases |charges|
  {
    if charges != [] {
      assert charges[0] in charges;
      var a := charges[0];
      MemoryDecidesAsScript(state, tats, prefix, a.bucket, a.l, a.cost, a.now);
      var c := OneKey(Key(prefix, a.bucket), a.l, a.cost, a.now);
      MemoryRunAsScript(MemoryStep(state, a.bucket, a.l, a.cost, a.now).0, After(tats, c), prefix, charges[1..]);
      assert AsCalls(prefix, charges)[1..] == AsCalls(prefix, charges[1..]);
    }
  }

  /** For positive rates the in-memory limiter decides, over every run and with the same waits,
      as the one-key script at equal times - whose keys expire. */
  lemma MemoryRefinesScript(prefix: string, charges: seq<Charge>)
    requires forall a :: a in charges ==> ChargeOk(a)
    requires forall i, j :: 0 <= i < j < |charges| ==> charges[i].now <= charges[j].now
    ensures MemoryDecisions(map[], charges) == GcraExpiry.DecisionsExpiring(map[], AsCalls(prefix, charges))
  {
    MemoryRunAsScript(map[], map[], prefix, charges);
    GcraExpiry.ExpiryRefinesPersistence(AsCalls(prefix, charges));
  }

  /** The two limiters decide alike exactly for positive rates: for a negative rate the script denies
      with no wait, which the in-memory limiter never does. */
  lemma LimitersAgreeIff(state: map<string, real>, tats: map<string, real>, prefix: string, bucket: string, l: Limit,
                         cost: real, now: real)
    requires SameTats(state, tats, prefix) && l.rate != 0.0 && cost >= 0.0 && now >= 0.0
    ensures MemoryStep(state, bucket, l, cost, now).1 == Decide(tats, OneKey(Key(prefix, bucket), l, cost, now))
            <==> l.rate > 0.0
  {
    if l.rate > 0.0 { MemoryDecidesAsScript(state, tats, prefix, bucket, l, cost, now); }
    CeilBounds(MemoryAllowAt(state, bucket, l, cost, now) - now);
  }

  // ---------------------------------------------------------------- the window bound in memory

  /** Total cost the in-memory limiter admitted on `bucket` at times in [t1, t2] */
  function AdmittedMemory(state: map<string, real>, charges: seq<Charge>, bucket: string, t1: real, t2: real): real
    requires NonZero(charges)
    decreases |charges|
  {
    if charges == [] then 0.0
    else
      assert charges[0] in charges;
      var a := charges[0];
      var (state', d) := MemoryStep(state, a.bucket, a.l, a.cost, a.now);
      (if d.allowed && a.bucket == bucket && t1 <= a.now <= t2 then a.cost else 0.0)
      + AdmittedMemory(state', charges[1..], bucket, t1, t2)
  }

  /** The charges of one bucket, as calls of the script */
  function OnBucket(prefix: string, charges: seq<Charge>, bucket: string): seq<Call>
    decreases |charges|
  {
    if charges == [] then []
    else
      var a := charges[0];
      (if a.bucket == bucket then [OneKey(Key(prefix, bucket), a.l, a.cost, a.now)] else [])
      + OnBucket(prefix, charges[1..], bucket)
  }

  predicate NonZero(charges: seq<Charge>) { forall a :: a in charges ==> a.l.rate != 0.0 }

  /** A charge of `bucket` is made with its limit `l`. */
  predicate BucketCharge(a: Charge, bucket: string, l: Limit) { a.bucket == bucket ==> ChargeOk(a) && a.l == l }

  lemma {:induction false} OnBucketUses(prefix: string, charges: seq<Charge>, bucket: string, l: Limit)
    requires forall a :: a in charges ==> BucketCharge(a, bucket, l)
    ensures forall c :: c in OnBucket(prefix, charges, bucket) ==> Proper(c) && UsesLimit(c, Key(prefix, bucket), l)
    decreases |charges|
  {
    if charges != [] {
      assert charges[0] in charges;
      OnBucketUses(prefix, charges[1..], bucket, l);
    }
  }

  /** One bucket's tat in both stores */
  predicate SameTat(state: map<string, real>, tats: map<string, real>, prefix: string, bucket: string) {
    && (bucket in state <==> Key(prefix, bucket) in tats)
    && (bucket in state ==> state[bucket] == tats[Key(prefix, bucket)])
  }

  lemma BucketStep(state: map<string, real>, tats: map<string, real>, prefix: string, bucket: string, l: Limit,
                   cost: real, now: real)
    requires SameTat(state, tats, prefix, bucket) && l.rate > 0.0 && cost >= 0.0 && now >= 0.0
    ensures var c := OneKey(Key(prefix, bucket), l, cost, now);
      var (state', d) := MemoryStep(state, bucket, l, cost, now);
      d.allowed == Admits(tats, c) && SameTat(state', After(tats, c), prefix, bucket)
  {
    MemoryTatIsNextTat(state, tats, bucket, Key(prefix, bucket), l, cost, now);
    OneKeyDecides(tats, OneKey(Key(prefix, bucket), l, cost, now));
    AllowedIff(tats, OneKey(Key(prefix, bucket), l, cost, now));
  }

  lemma {:induction false} MemoryAdmitsAsScript(state: map<string, real>, tats: map<string, real>, prefix: string,
                                                charges: seq<Charge>, bucket: string, l: Limit, t1: real, t2: real)
    requires SameTat(state, tats, prefix, bucket) && NonZero(charges)
    requires forall a :: a in charges ==> BucketCharge(a, bucket, l)
    ensures forall c :: c in OnBucket(prefix, charges, bucket) ==> Proper(c)
    ensures AdmittedMemory(state, charges, bucket, t1, t2)
            == AdmittedCost(tats, OnBucket(prefix, charges, bucket), Key(prefix, bucket), t1, t2)
    decreases |charges|
  {
    OnBucketUses(prefix, charges, bucket, l);
    if charges != [] {
      var a, more := charges[0], charges[1..];
      assert a in charges;
      var state' := MemoryStep(state, a.bucket, a.l, a.cost, a.now).0;
      OnBucketUses(prefix, more, bucket, l);
      if a.bucket == bucket {
        var c := OneKey(Key(prefix, bucket), a.l, a.cost, a.now);
        BucketStep(state, tats, prefix, bucket, a.l, a.cost, a.now);
        MemoryAdmitsAsScript(state', After(tats, c), prefix, more, bucket, l, t1, t2);
        CostOfFirst(tats, c, OnBucket(prefix, more, bucket), Key(prefix, bucket), t1, t2);
      } else {
        MemoryAdmitsAsScript(state', tats, prefix, more, bucket, l, t1, t2);
        assert OnBucket(prefix, charges, bucket) == OnBucket(prefix, more, bucket);
      }
    }
  }

  lemma CostOfFirst(tats: map<string, real>, c: Call, more: seq<Call>, key: string, t1: real, t2: real)
    requires Proper(c) && forall m :: m in more ==> Proper(m)
    ensures forall m :: m in [c] + more ==> Proper(m)
    ensures AdmittedCost(tats, [c] + more, key, t1, t2)
            == Taken(tats, c, key, t1, t2) + AdmittedCost(After(tats, c), more, key, t1, t2)
  {
    assert ([c] + more)[1..] == more;
  }

  /** The window bound of the in-memory limiter's own store: from any state, over any run, whatever
      other buckets - of any nonzero rate - are charged in between. */
  lemma MemoryWindowBound(state: map<string, real>, charges: seq<Charge>, bucket: string, l: Limit, t1: real, t2: real)
    requires NonZero(charges) && forall a :: a in charges ==> BucketCharge(a, bucket, l)
    requires l.rate > 0.0 && l.burst >= 0.0 && t1 <= t2
    ensures AdmittedMemory(state, charges, bucket, t1, t2) <= Allowance(l.rate, l.burst, t2 - t1)
  {
    var tats := if bucket in state then map[Key("", bucket) := state[bucket]] else map[];
    MemoryAdmitsAsScript(state, tats, "", charges, bucket, l, t1, t2);
    OnBucketUses("", charges, bucket, l);
    WindowBound(tats, OnBucket("", charges, bucket), Key("", bucket), l, t1, t2);
  }

  /** The charges of a run of asks */
  function Charges(limits: map<string, Config>, registered: map<string, Option<Config>>, asks: seq<Ask>): seq<Charge>
    requires forall a :: a in asks ==> AskOk(registered, a)
    decreases |asks|
  {
    if asks == [] then []
    else
      assert asks[0] in asks && AskOk(registered, asks[0]);
      var s := ChooseFor(limits, registered, asks[0].value);
      (if Bypasses(s) then [] else [Charge(s.bucket, LimitOf(s.config.value), asks[0].cost, asks[0].now)])
      + Charges(limits, registered, asks[1..])
  }

  lemma {:induction false} ChargesUse(limits: map<string, Config>, registered: map<string, Option<Config>>,
                                      asks: seq<Ask>, value: string)
    requires (forall a :: a in asks ==> AskOk(registered, a) && a.now >= 0.0) && Registered(registered, value)
    requires var s := ChooseFor(limits, registered, value); s.config.Some? && s.config.value.rate > 0.0
    ensures NonZero(Charges(limits, registered, asks))
    ensures var s := ChooseFor(limits, registered, value);
      forall a :: a in Charges(limits, registered, asks) ==> BucketCharge(a, s.bucket, LimitOf(s.config.value))
    decreases |asks|
  {
    if asks != [] {
      assert asks[0] in asks;
      ChargesUse(limits, registered, asks[1..], value);
      var s, t := ChooseFor(limits, registered, asks[0].value), ChooseFor(limits, registered, value);
      if !Bypasses(s) && s.bucket == t.bucket { OneBudgetPerBucket(limits, registered, asks[0].value, value); }
    }
  }

  /** The joint bound for the in-memory limiter */
  lemma JointMemoryBound(limits: map<string, Config>, registered: map<string, Option<Config>>,
                         asks: seq<Ask>, value: string, t1: real, t2: real)
    requires (forall a :: a in asks ==> AskOk(registered, a) && a.now >= 0.0)
    requires Registered(registered, value) && t1 <= t2
    requires var s := ChooseFor(limits, registered, value);
      s.config.Some? && s.config.value.rate > 0.0 && LimitOf(s.config.value).burst >= 0.0
    ensures var s := ChooseFor(limits, registered, value);
      var charges := Charges(limits, registered, asks);
      && NonZero(charges)
      && AdmittedMemory(map[], charges, s.bucket, t1, t2)
         <= Allowance(s.config.value.rate, LimitOf(s.config.value).burst, t2 - t1)
  {
    var s := ChooseFor(limits, registered, value);
    ChargesUse(limits, registered, asks, value);
    MemoryWindowBound(map[], Charges(limits, registered, asks), s.bucket, LimitOf(s.config.value), t1, t2);
  }
}
