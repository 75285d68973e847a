/**
  Idempotency with the Redis queue: one deduplication key, its record in Redis, and the calls that
  use the key, interleaved command by command. Claiming is SET NX then GET; releasing is GET then
  DEL; results are stored without waiting. An item may have several dispatches at once, and a
  dispatch may outlive the ACK of its item. Calls are named by their request ids.
 */
module QueueIdempotency {
  import opened JsText

  datatype Record = Record(requestId: string, response: Option<string>)

  /** Where the enqueueing of a call is */
  datatype Phase =
    | Claiming                 // before SET NX
    | Reading                  // SET NX found a record; before GET
    | Owner                    // SET NX succeeded; the item is being enqueued
    | Releasing                // enqueueing failed; before GET
    | Deleting                 // GET found its own request id; before DEL
    | Told(original: Option<string>, response: Option<string>)
    | Queued
    | Rejected

  datatype State = State(
    record: Option<Record>,
    phase: map<string, Phase>,
    live: set<string>,              // items in the queue: an entry not ACKed, or a delayed retry
    fetched: map<string, nat>,      // dispatches before their lookup, whether or not the item is live still
    running: map<string, nat>,      // dispatches that went past their lookup, likewise
    stores: set<(string, string)>,  // result writes on their way: request id and response
    runs: nat)                      // history: dispatches that went on to the adapter

  const INIT := State(None, map[], {}, map[], map[], {}, 0)

  function Count(m: map<string, nat>, r: string): nat { if r in m then m[r] else 0 }

  datatype Event =
    | Arrives(r: string)
    | SetNx(r: string)
    | SetNxReplyLost(r: string)
    | Get(r: string)
    | Enqueued(r: string)
    | EnqueueFails(r: string)           // QUEUE_FULL, or a failure before XADD took effect
    | EnqueueReplyLost(r: string)       // XADD took effect, its caller sees a failure
    | ReleaseGet(r: string)
    | ReleaseDel(r: string)
    | Fetched(r: string)                // the item is handed to a dispatch, perhaps not its only one
    | Lookup(r: string)                 // a dispatch reads the record
    | Finishes(r: string, response: string)
    | Requeues(r: string)               // a dispatch stores the item as a delayed retry, even after its ACK
    | Stops(r: string)                  // a dispatch ends without a result
    | StoreLands(r: string, response: string)
    | StoreFails(r: string, response: string)
    | Acked(r: string)
    | CallerCrashes(r: string, landed: bool)
    | WorkersCrash
    | Expires

  predicate In(s: State, r: string, p: Phase) { r in s.phase && s.phase[r] == p }

  predicate Enabled(s: State, e: Event) {
    match e
    case Arrives(r) => r !in s.phase
    case SetNx(r) => In(s, r, Claiming)
    case SetNxReplyLost(r) => In(s, r, Claiming)
    case Get(r) => In(s, r, Reading)
    case Enqueued(r) => In(s, r, Owner)
    case EnqueueFails(r) => In(s, r, Owner)
    case EnqueueReplyLost(r) => In(s, r, Owner)
    case ReleaseGet(r) => In(s, r, Releasing)
    case ReleaseDel(r) => In(s, r, Deleting)
    case Fetched(r) => r in s.live
    case Lookup(r) => Count(s.fetched, r) > 0
    case Finishes(r, _) => Count(s.running, r) > 0
    case Requeues(r) => Count(s.running, r) > 0
    case Stops(r) => Count(s.running, r) > 0
    case StoreLands(r, response) => (r, response) in s.stores
    case StoreFails(r, response) => (r, response) in s.stores
    case Acked(r) => r in s.live
    case CallerCrashes(r, landed) => r in s.phase && (landed ==> s.phase[r] == Owner)
    case WorkersCrash => true
    case Expires => true
  }

  /** The record's SET with NX: nothing happens when there is one. */
  function Claim(record: Option<Record>, r: string): Option<Record> {
    if record.None? then Some(Record(r, None)) else record
  }

  function Answer(record: Option<Record>): Phase {
    if record.None? then Told(None, None) else Told(Some(record.value.requestId), record.value.response)
  }

  predicate Answered(record: Option<Record>) { record.Some? && record.value.response.Some? }

  function Apply(s: State, e: Event): State
    requires Enabled(s, e)
  {
    match e
    case Arrives(r) => s.(phase := s.phase[r := Claiming])
    case SetNx(r) => s.(record := Claim(s.record, r), phase := s.phase[r := if s.record.None? then Owner else Reading])
    case SetNxReplyLost(r) => s.(record := Claim(s.record, r), phase := s.phase[r := Rejected])
    case Get(r) => s.(phase := s.phase[r := Answer(s.record)])
    case Enqueued(r) => s.(phase := s.phase[r := Queued], live := s.live + {r})
    case EnqueueFails(r) => s.(phase := s.phase[r := Releasing])
    case EnqueueReplyLost(r) => s.(phase := s.phase[r := Releasing], live := s.live + {r})
    case ReleaseGet(r) =>
      s.(phase := s.phase[r := if s.record.Some? && s.record.value.requestId == r then Deleting else Rejected])
    case ReleaseDel(r) => s.(phase := s.phase[r := Rejected], record := None)
    case Fetched(r) => s.(fetched := s.fetched[r := Count(s.fetched, r) + 1])
    case Lookup(r) =>
      var s1 := s.(fetched := s.fetched[r := Count(s.fetched, r) - 1]);
      if Answered(s.record) then s1
      else s1.(running := s.running[r := Count(s.running, r) + 1], runs := s.runs + 1)
    case Finishes(r, response) =>
      s.(running := s.running[r := Count(s.running, r) - 1], stores := s.stores + {(r, response)})
    case Requeues(r) => s.(running := s.running[r := Count(s.running, r) - 1], live := s.live + {r})
    case Stops(r) => s.(running := s.running[r := Count(s.running, r) - 1])
    case StoreLands(r, response) =>
      s.(record := Some(Record(r, Some(response))), stores := s.stores - {(r, response)})
    case StoreFails(r, response) => s.(stores := s.stores - {(r, response)})
    case Acked(r) => s.(live := s.live - {r})
    case CallerCrashes(r, landed) =>
      s.(phase := s.phase[r := Rejected], live := if landed then s.live + {r} else s.live)
    case WorkersCrash => s.(fetched := map[], running := map[], stores := {})
    case Expires => s.(record := None)
  }

  // ---------------------------------------------------------------- one owner

  predicate InRelease(p: Phase) { p.Releasing? || p.Deleting? }

  /** A result of `r` is on its way to the record. */
  ghost predicate Storing(stores: set<(string, string)>, r: string) { exists response :: (r, response) in stores }

  /** A dispatch of `r` is going on, or its result is on its way. */
  ghost predicate AtWork(s: State, r: string) {
    Count(s.fetched, r) > 0 || Count(s.running, r) > 0 || Storing(s.stores, r)
  }

  /** The calls that count on the record being theirs */
  ghost predicate Holds(s: State, r: string) {
    || (r in s.phase && (s.phase[r].Owner? || InRelease(s.phase[r])))
    || r in s.live
    || AtWork(s, r)
  }

  predicate Owns(record: Option<Record>, r: string) { record.Some? && record.value.requestId == r }

  /** The call has been enqueued or given up, and does not release. */
  predicate Past(phase: map<string, Phase>, r: string) { r in phase && (phase[r].Queued? || phase[r].Rejected?) }

  /** Whoever counts on the record has it; a call that gives the record up has no item. */
  ghost predicate Exclusive(s: State) {
    && (forall r :: Holds(s, r) ==> Owns(s.record, r))
    && (forall r :: r in s.live || AtWork(s, r) ==> Past(s.phase, r))
    && (Answered(s.record) ==> Past(s.phase, s.record.value.requestId))
    && (s.record.Some? ==> s.record.value.requestId in s.phase && !s.phase[s.record.value.requestId].Claiming?)
  }

  /** The record goes only when nobody counts on it, and no XADD takes effect behind its caller's back. */
  ghost predicate Kept(s: State, e: Event) {
    !e.EnqueueReplyLost? && (e.Expires? ==> forall r :: !Holds(s, r))
  }

  /** Work on an item begins only with a fetch of the live item. */
  lemma WorkStep(s: State, e: Event)
    requires Enabled(s, e)
    ensures forall r :: AtWork(Apply(s, e), r) ==> AtWork(s, r) || (e == Fetched(r) && r in s.live)
    ensures e.StoreLands? ==> AtWork(s, e.r)
  {
    if e.StoreLands? { assert Storing(s.stores, e.r); }
    forall r | AtWork(Apply(s, e), r) ensures AtWork(s, r) || (e == Fetched(r) && r in s.live) {
      if Storing(Apply(s, e).stores, r) {
        var response :| (r, response) in Apply(s, e).stores;
        if (r, response) in s.stores { assert Storing(s.stores, r); }
      }
    }
  }

  lemma HoldsStep(s: State, e: Event)
    requires Exclusive(s) && Enabled(s, e) && Kept(s, e)
    ensures forall r :: Holds(Apply(s, e), r) ==> Owns(Apply(s, e).record, r)
  {
    WorkStep(s, e);
    var s' := Apply(s, e);
    if !e.WorkersCrash? && !e.Expires? { assert Holds(s, e.r) ==> Owns(s.record, e.r); }
    if e.ReleaseDel? { assert !AtWork(s, e.r); }
    forall r | Holds(s', r) ensures Owns(s'.record, r) {
      if !Holds(s, r) {
        assert e.SetNx? && e.r == r;
      }
    }
  }

  lemma ExclusiveStep(s: State, e: Event)
    requires Exclusive(s) && Enabled(s, e) && Kept(s, e)
    ensures Exclusive(Apply(s, e))
  {
    HoldsStep(s, e);
    WorkStep(s, e);
  }

  // ---------------------------------------------------------------- over every run

  predicate Allowed(s: State, es: seq<Event>)
    decreases |es|
  {
    es == [] || (Enabled(s, es[0]) && Allowed(Apply(s, es[0]), es[1..]))
  }

  function Run(s: State, es: seq<Event>): State
    requires Allowed(s, es)
    decreases |es|
  {
    if es == [] then s else Run(Apply(s, es[0]), es[1..])
  }

  ghost predicate KeptRun(s: State, es: seq<Event>)
    requires Allowed(s, es)
    decreases |es|
  {
    es == [] || (Kept(s, es[0]) && KeptRun(Apply(s, es[0]), es[1..]))
  }

  lemma {:induction false} RunExclusive(s: State, es: seq<Event>)
    requires Exclusive(s) && Allowed(s, es) && KeptRun(s, es)
    ensures Exclusive(Run(s, es))
    decreases |es|
  {
    if es != [] {
      ExclusiveStep(s, es[0]);
      RunExclusive(Apply(s, es[0]), es[1..]);
    }
  }

  /** Under all interleavings and crashes the key has one item at most. While there is one, the
      record names it, nobody else can claim or release, and a duplicate that reads the record is told
      that item's request id, with the result once it is stored. */
  lemma OneItemPerKey(es: seq<Event>, item: string)
    requires Allowed(INIT, es) && KeptRun(INIT, es) && item in Run(INIT, es).live
    ensures var s := Run(INIT, es);
      && s.live == {item}
      && Owns(s.record, item)
      && (forall r :: In(s, r, Claiming) ==>
            Apply(s, SetNx(r)).phase[r] == Reading && Apply(s, SetNx(r)).record == s.record)
      && (forall r :: r in s.phase ==> !s.phase[r].Owner? && !InRelease(s.phase[r]))
      && (forall r :: In(s, r, Reading) ==>
            Apply(s, Get(r)).phase[r] == Told(Some(item), s.record.value.response))
  {
    RunExclusive(INIT, es);
    var s := Run(INIT, es);
    assert Holds(s, item);
    forall r | Holds(s, r) ensures r == item {}
    forall r | r in s.live ensures Holds(s, r) {}
    forall r | r in s.phase && (s.phase[r].Owner? || InRelease(s.phase[r])) ensures false {
      assert Holds(s, r);
    }
  }

  /** Only the claimant releases: the record a DEL removes is the releasing call's own, without a
      result, and no item is left without it. */
  lemma OnlyClaimantReleases(es: seq<Event>, r: string)
    requires Allowed(INIT, es) && KeptRun(INIT, es) && In(Run(INIT, es), r, Deleting)
    ensures var s := Run(INIT, es); s.record == Some(Record(r, None)) && s.live == {}
  {
    RunExclusive(INIT, es);
    var s := Run(INIT, es);
    assert Holds(s, r);
    forall other | other in s.live ensures false { assert Holds(s, other); }
  }

  lemma NoReleaseOfAnswer(s: State)
    requires Exclusive(s) && Answered(s.record)
    ensures forall r :: !In(s, r, Deleting)
  {
    assert forall r :: In(s, r, Deleting) ==> Holds(s, r);
  }

  lemma {:induction false} AnswerKept(s: State, es: seq<Event>)
    requires Exclusive(s) && Answered(s.record) && Allowed(s, es) && KeptRun(s, es) && Expires !in es
    ensures var s' := Run(s, es);
      && Exclusive(s') && s'.runs == s.runs
      && Answered(s'.record) && s'.record.value.requestId == s.record.value.requestId
    decreases |es|
  {
    if es != [] {
      var e := es[0];
      assert e in es;
      ExclusiveStep(s, e);
      NoReleaseOfAnswer(s);
      WorkStep(s, e);
      if e.StoreLands? { assert Holds(s, e.r); }
      AnswerKept(Apply(s, e), es[1..]);
    }
  }

  /** From the moment a result is stored until it expires, the record keeps a result of the same
      call, every duplicate gets it, and no dispatch - not even one that outlives the ACK of its item -
      goes on to the adapter: each one's lookup finds the result. */
  lemma NoRunAfterResult(before: seq<Event>, es: seq<Event>)
    requires Allowed(INIT, before) && KeptRun(INIT, before) && Answered(Run(INIT, before).record)
    requires Allowed(Run(INIT, before), es) && KeptRun(Run(INIT, before), es) && Expires !in es
    ensures var s, s' := Run(INIT, before), Run(Run(INIT, before), es);
      && s'.runs == s.runs
      && Answered(s'.record) && s'.record.value.requestId == s.record.value.requestId
      && forall r :: In(s', r, Reading) ==>
           Apply(s', Get(r)).phase[r] == Told(Some(s.record.value.requestId), s'.record.value.response)
  {
    RunExclusive(INIT, before);
    AnswerKept(Run(INIT, before), es);
  }

  /** The blind write of a result replaces its own call's record, never another's. */
  lemma StoreOverwritesOwn(es: seq<Event>, r: string, response: string)
    requires Allowed(INIT, es) && KeptRun(INIT, es) && (r, response) in Run(INIT, es).stores
    ensures var s := Run(INIT, es); var s' := Apply(s, StoreLands(r, response));
      Owns(s.record, r) && Owns(s'.record, r) && s.live <= {r} && forall q :: In(s, q, Owner) ==> q == r
  {
    RunExclusive(INIT, es);
    var s := Run(INIT, es);
    assert Storing(s.stores, r);
    assert Holds(s, r);
    forall q | q in s.live ensures q == r { assert Holds(s, q); }
    forall q | In(s, q, Owner) ensures q == r { assert Holds(s, q); }
  }

  // ---------------------------------------------------------------- where it stops

  /** An expiring record keeps the key exclusive exactly when nobody counts on it any more. */
  lemma ExpiryKeepsIff(s: State)
    requires Exclusive(s)
    ensures Exclusive(Apply(s, Expires)) <==> forall r :: !Holds(s, r)
  {
    forall r ensures Holds(Apply(s, Expires), r) <==> Holds(s, r) {}
  }

  lemma {:induction false} Extend(s: State, es: seq<Event>, e: Event)
    requires Allowed(s, es) && Enabled(Run(s, es), e)
    ensures Allowed(s, es + [e]) && Run(s, es + [e]) == Apply(Run(s, es), e)
    ensures KeptRun(s, es) && Kept(Run(s, es), e) ==> KeptRun(s, es + [e])
    decreases |es|
  {
    if es == [] {
      assert [e][1..] == [];
    } else {
      assert (es + [e])[1..] == es[1..] + [e];
      Extend(Apply(s, es[0]), es[1..], e);
    }
  }

  /** A run in which every record stays with whoever counts on it */
  ghost predicate Ordinary(s: State, es: seq<Event>) { Allowed(s, es) && KeptRun(s, es) }

  lemma Then(s: State, es: seq<Event>, e: Event) returns (all: seq<Event>)
    requires Ordinary(s, es) && Enabled(Run(s, es), e) && Kept(Run(s, es), e)
    ensures Ordinary(s, all) && Run(s, all) == Apply(Run(s, es), e) && all == es + [e]
  {
    Extend(s, es, e);
    all := es + [e];
  }

  lemma SecondItem(s: State, b: string) returns (es: seq<Event>)
    requires s.record.None? && In(s, b, Claiming)
    ensures Ordinary(s, es) && Run(s, es).live == s.live + {b} && Run(s, es).running == s.running
  {
    es := Then(s, [], SetNx(b));
    es := Then(s, es, Enqueued(b));
  }

  /** A record that expires before its item is finished lets a second call in. */
  lemma ExpiryDoublesItem(s: State, a: string, b: string) returns (es: seq<Event>)
    requires a in s.live && In(s, b, Claiming) && a != b
    ensures Ordinary(Apply(s, Expires), es) && {a, b} <= Run(Apply(s, Expires), es).live
  {
    es := SecondItem(Apply(s, Expires), b);
  }

  /** A record that expires while a second dispatch of an item already ACKed still runs: another call
      claims the key, and the late result replaces its record while its item is in the queue. */
  lemma LateResultReplacesRecord(s: State, a: string, b: string, response: string) returns (es: seq<Event>)
    requires Count(s.running, a) > 0 && In(s, b, Claiming) && a != b
    ensures Ordinary(Apply(s, Expires), es) && b in Run(Apply(s, Expires), es).live
    ensures Run(Apply(s, Expires), es).record == Some(Record(a, Some(response)))
  {
    es := SecondItem(Apply(s, Expires), b);
    es := LateResult(Apply(s, Expires), es, a, response);
  }

  lemma LateResult(s: State, before: seq<Event>, a: string, response: string) returns (es: seq<Event>)
    requires Ordinary(s, before) && Count(Run(s, before).running, a) > 0
    ensures Ordinary(s, es) && Run(s, es).live == Run(s, before).live && Run(s, es).phase == Run(s, before).phase
    ensures Count(Run(s, es).running, a) == Count(Run(s, before).running, a) - 1
    ensures Run(s, es).record == Some(Record(a, Some(response)))
  {
    es := Then(s, before, Finishes(a, response));
    es := Then(s, es, StoreLands(a, response));
  }

  /** So does an XADD that took effect while its caller saw a failure: the caller releases the key its
      own item still needs. */
  lemma LostReplyDoublesItem(s: State, a: string, b: string) returns (es: seq<Event>)
    requires In(s, a, Owner) && Owns(s.record, a) && In(s, b, Claiming)
    ensures Ordinary(Apply(s, EnqueueReplyLost(a)), es) && {a, b} <= Run(Apply(s, EnqueueReplyLost(a)), es).live
    ensures Expires !in es
  {
    var t := Apply(s, EnqueueReplyLost(a));
    es := Releases(t, [], a, b);
    es := Then(t, es, SetNx(b));
    es := Then(t, es, Enqueued(b));
  }

  lemma Releases(s: State, before: seq<Event>, a: string, b: string) returns (es: seq<Event>)
    requires Ordinary(s, before) && In(Run(s, before), a, Releasing) && Owns(Run(s, before).record, a) && a != b
    ensures Ordinary(s, es) && Run(s, es).live == Run(s, before).live && Run(s, es).record.None?
    ensures b in Run(s, before).phase ==> In(Run(s, es), b, Run(s, before).phase[b])
    ensures Expires !in before ==> Expires !in es
  {
    es := Then(s, before, ReleaseGet(a));
    es := Then(s, es, ReleaseDel(a));
  }

  /** A duplicate is told no request id exactly when the record is gone at its GET; then nobody
      owns the key or has an item, a dispatch or a result on its way, so nothing can answer the duplicate. */
  lemma NamelessMeansNoItem(es: seq<Event>, r: string)
    requires Allowed(INIT, es) && KeptRun(INIT, es) && In(Run(INIT, es), r, Reading)
    ensures var s := Run(INIT, es);
      && (Apply(s, Get(r)).phase[r] == Told(None, None) <==> s.record.None?)
      && (s.record.None? ==> forall q :: !Holds(s, q))
  {
    RunExclusive(INIT, es);
    var s := Run(INIT, es);
  }

  /** That happens without any fault: the owner's enqueueing fails between the duplicate's SET and GET. */
  lemma NamelessDuplicate(s: State, before: seq<Event>, a: string, b: string) returns (es: seq<Event>)
    requires Ordinary(s, before) && Exclusive(s) && In(Run(s, before), a, Owner) && In(Run(s, before), b, Claiming)
    ensures Ordinary(s, es) && In(Run(s, es), b, Told(None, None))
  {
    RunExclusive(s, before);
    assert Holds(Run(s, before), a);
    es := Then(s, before, SetNx(b));
    es := Then(s, es, EnqueueFails(a));
    es := Releases(s, es, a, b);
    es := Then(s, es, Get(b));
  }

  // ---------------------------------------------------------------- ... from the start

  /** `a` has the key and `b` comes for it. */
  lemma Contended(a: string, b: string) returns (es: seq<Event>)
    requires a != b
    ensures Ordinary(INIT, es) && In(Run(INIT, es), a, Owner) && In(Run(INIT, es), b, Claiming)
    ensures Run(INIT, es).record == Some(Record(a, None)) && Run(INIT, es).fetched == Run(INIT, es).running == map[]
  {
    es := Then(INIT, [], Arrives(a));
    es := Then(INIT, es, SetNx(a));
    es := Then(INIT, es, Arrives(b));
  }

  /** The same, with the item of `a` in the queue */
  lemma ContendedItem(a: string, b: string) returns (es: seq<Event>)
    requires a != b
    ensures Ordinary(INIT, es) && a in Run(INIT, es).live && In(Run(INIT, es), b, Claiming)
    ensures Run(INIT, es).record == Some(Record(a, None)) && Run(INIT, es).fetched == Run(INIT, es).running == map[]
  {
    es := Contended(a, b);
    es := Then(INIT, es, Enqueued(a));
  }

  /** The record expires while the item of `a` is in the queue. */
  lemma EarlyExpiryRun(a: string, b: string) returns (before: seq<Event>, after: seq<Event>)
    requires a != b
    ensures Ordinary(INIT, before) && Ordinary(Apply(Run(INIT, before), Expires), after)
    ensures {a, b} <= Run(Apply(Run(INIT, before), Expires), after).live
  {
    before := ContendedItem(a, b);
    after := ExpiryDoublesItem(Run(INIT, before), a, b);
  }

  /** The item of `a` has two dispatches: one finishes and the item is ACKed while the other still runs. */
  lemma LateResultRun(a: string, b: string, response: string) returns (before: seq<Event>, after: seq<Event>)
    requires a != b
    ensures Ordinary(INIT, before) && a !in Run(INIT, before).live && Answered(Run(INIT, before).record)
    ensures Ordinary(Apply(Run(INIT, before), Expires), after)
    ensures var s := Run(Apply(Run(INIT, before), Expires), after);
      b in s.live && s.record == Some(Record(a, Some(response)))
  {
    before := ContendedItem(a, b);
    before := TwoDispatches(before, a, b);
    before := LateResult(INIT, before, a, response);
    before := Then(INIT, before, Acked(a));
    after := LateResultReplacesRecord(Run(INIT, before), a, b, response);
  }

  lemma TwoDispatches(before: seq<Event>, a: string, b: string) returns (es: seq<Event>)
    requires Ordinary(INIT, before) && a in Run(INIT, before).live && In(Run(INIT, before), b, Claiming)
    requires Run(INIT, before).record == Some(Record(a, None))
    requires Run(INIT, before).fetched == Run(INIT, before).running == map[]
    ensures Ordinary(INIT, es) && a in Run(INIT, es).live && In(Run(INIT, es), b, Claiming)
    ensures Count(Run(INIT, es).running, a) == 2
  {
    es := Then(INIT, before, Fetched(a));
    es := Then(INIT, es, Lookup(a));
    es := Then(INIT, es, Fetched(a));
    es := Then(INIT, es, Lookup(a));
  }

  /** The XADD of `a` takes effect behind its caller's failure. */
  lemma LostReplyRun(a: string, b: string) returns (before: seq<Event>, after: seq<Event>)
    requires a != b
    ensures Ordinary(INIT, before) && Enabled(Run(INIT, before), EnqueueReplyLost(a))
    ensures Ordinary(Apply(Run(INIT, before), EnqueueReplyLost(a)), after) && Expires !in after
    ensures {a, b} <= Run(Apply(Run(INIT, before), EnqueueReplyLost(a)), after).live
  {
    before := Contended(a, b);
    after := LostReplyDoublesItem(Run(INIT, before), a, b);
  }

  /** No fault at all */
  lemma NamelessRun(a: string, b: string) returns (es: seq<Event>)
    requires a != b
    ensures Ordinary(INIT, es) && In(Run(INIT, es), b, Told(None, None))
  {
    es := Contended(a, b);
    es := NamelessDuplicate(INIT, es, a, b);
  }

  // ---------------------------------------------------------------- the queue's methods

  datatype Claimed = Claimed | Duplicate(original: Option<string>, response: Option<string>)

  /** The key's record and the methods that work on it. A method's two commands fall into two states
      of the protocol, `atSet` (or `atGet`) and a later one, which other processes may have changed:
      each method is the protocol's events of one call. */
  class IdempotencyKey {
    var record: Option<Record>

    constructor ()
      ensures record == INIT.record
    {
      record := None;
    }

    /** claimIdempotency: SetNx, then Get of the record `found` in the state `later` */
    method ClaimIdempotency(requestId: string, found: Option<Record>, ghost atSet: State, ghost later: State)
      returns (result: Claimed)
      requires record == atSet.record && Enabled(atSet, SetNx(requestId))
      requires found == later.record && (record.Some? ==> Enabled(later, Get(requestId)))
      modifies this
      ensures record == Apply(atSet, SetNx(requestId)).record
      ensures Apply(atSet, SetNx(requestId)).phase[requestId] == if result.Claimed? then Owner else Reading
      ensures result.Duplicate? ==>
        Apply(later, Get(requestId)).phase[requestId] == Told(result.original, result.response)
    {
      if record.None? {
        record := Some(Record(requestId, None));
        return Claimed.Claimed;
      }
      if found.None? { return Duplicate(None, None); }
      return Duplicate(Some(found.value.requestId), found.value.response);
    }

    /** releaseIdempotency: ReleaseGet of the record `found`, then ReleaseDel of whatever is there later */
    method ReleaseIdempotency(requestId: string, found: Option<Record>, ghost atGet: State, ghost later: State)
      requires found == atGet.record && Enabled(atGet, ReleaseGet(requestId))
      requires record == later.record
      requires Owns(found, requestId) ==> Enabled(later, ReleaseDel(requestId))
      modifies this
      ensures Apply(atGet, ReleaseGet(requestId)).phase[requestId] == Rejected ==> record == old(record)
      ensures Apply(atGet, ReleaseGet(requestId)).phase[requestId] == Deleting ==>
        record == Apply(later, ReleaseDel(requestId)).record
    {
      if found.Some? && found.value.requestId == requestId { record := None; }
    }

    /** storeIdempotencyResult: StoreLands, a blind write. After a run in which records are kept it replaces the
        call's own record. */
    method StoreIdempotencyResult(requestId: string, response: string, ghost es: seq<Event>)
      requires Allowed(INIT, es) && record == Run(INIT, es).record
      requires Enabled(Run(INIT, es), StoreLands(requestId, response))
      modifies this
      ensures record == Apply(Run(INIT, es), StoreLands(requestId, response)).record
      ensures KeptRun(INIT, es) ==> Owns(old(record), requestId) && Owns(record, requestId)
    {
      record := Some(Record(requestId, Some(response)));
      if KeptRun(INIT, es) { StoreOverwritesOwn(es, requestId, response); }
    }

    /** getIdempotencyResult: Lookup, which goes on to the adapter exactly when nothing was cached */
    method LooksUp(requestId: string, ghost s: State) returns (cached: Option<string>)
      requires record == s.record && Enabled(s, Lookup(requestId))
      ensures cached.None? <==> Apply(s, Lookup(requestId)).runs == s.runs + 1
      ensures cached.Some? ==> s.record.Some? && cached == s.record.value.response
    {
      if record.None? { return None; }
      return record.value.response;
    }
  }
}
