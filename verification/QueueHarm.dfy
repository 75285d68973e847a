/**
  The converse of fault isolation: an event that harms a request in order has a continuation, harmless to
  that request, after which it is not in order any more. So `Harms` names exactly the damage.
 */
module QueueHarm {
  import opened QueueModel
  import opened QueueSafety
  import opened QueueView
  import opened QueueIsolation

  /** The continuation `es` of `s` is possible and does not harm `r`. */
  ghost predicate Spares(c: Config, s: State, es: seq<Event>, r: Request) {
    Allowed(c, s, es) && r !in HarmedIn(c, s, es)
  }

  /** ... and leaves `r` out of order. */
  ghost predicate Shows(c: Config, s: State, es: seq<Event>, r: Request) {
    Spares(c, s, es, r) && !InOrder(c, Run(c, s, es), r)
  }

  lemma {:induction false} HarmedIsSummed(c: Config, s: State, es: seq<Event>, r: Request, h: (State, Event) -> nat)
    requires Allowed(c, s, es) && forall t, e :: h(t, e) == if r in Harms(t, e) then 1 else 0
    ensures r in HarmedIn(c, s, es) <==> Summed(c, s, es, h) > 0
    decreases |es|
  {
    if es != [] { HarmedIsSummed(c, Apply(c, s, es[0]), es[1..], r, h); }
  }

  lemma StillUnharmed(c: Config, s: State, es: seq<Event>, e: Event, r: Request)
    requires Allowed(c, s, es) && Enabled(c, Run(c, s, es), e)
    requires r !in HarmedIn(c, s, es) && r !in Harms(Run(c, s, es), e)
    ensures Allowed(c, s, es + [e]) && r !in HarmedIn(c, s, es + [e])
  {
    ghost var h: (State, Event) -> nat := (t: State, x: Event) => if r in Harms(t, x) then 1 else 0;
    Extend(c, s, es, e);
    SummedSnoc(c, s, es, e, h);
    HarmedIsSummed(c, s, es, r, h);
    HarmedIsSummed(c, s, es + [e], r, h);
  }

  lemma Then(c: Config, s: State, es: seq<Event>, e: Event, r: Request) returns (all: seq<Event>)
    requires Spares(c, s, es, r) && Consistent(Run(c, s, es))
    requires Enabled(c, Run(c, s, es), e) && r !in Harms(Run(c, s, es), e)
    ensures Spares(c, s, all, r) && Run(c, s, all) == Apply(c, Run(c, s, es), e) && Consistent(Run(c, s, all))
  {
    StillUnharmed(c, s, es, e, r);
    Extend(c, s, es, e);
    ConsistentStep(c, Run(c, s, es), e);
    all := es + [e];
  }

  // ---------------------------------------------------------------- building blocks

  /** An entry of `r` that no live dispatch is on */
  ghost predicate Loose(s: State, e: nat, r: Request) {
    e in s.redis.entries && s.redis.entries[e].item.request == r && !Live(s, e)
  }

  /** `t` is `s` with the message of `e` received by process 0 as dispatch `n`. */
  ghost predicate TookUp(s: State, t: State, e: nat, n: nat, pc: DispatchPc)
    requires e in s.redis.entries
  {
    && n == s.nextCall && t.dispatches == s.dispatches[n := Dispatch(0, e, s.redis.entries[e].item, pc)]
    && t.redis.zset == s.redis.zset && t.redis.hash == s.redis.hash && t.redis.nextId == s.redis.nextId
    && e in t.redis.entries && t.redis.entries[e].item == s.redis.entries[e].item
    && t.runs == s.runs && t.answered == s.answered && t.clock == s.clock
  }

  lemma Fetched(c: Config, s: State, e: nat, r: Request)
    requires Consistent(s) && Loose(s, e, r)
    ensures Enabled(c, s, Fetch(0, [e], Done)) && r !in Harms(s, Fetch(0, [e], Done))
    ensures TookUp(s, Apply(c, s, Fetch(0, [e], Done)), e, s.nextCall, Taken)
  {
    var x := s.redis.entries[e];
    assert From(s.redis, [e], x.stream, x.delivered);
    var ds := Handlers(s.redis.entries, 0, s.nextCall, [e]);
    assert ds.Keys == {s.nextCall} && [e][s.nextCall - s.nextCall] == e;
    assert s.dispatches + ds == s.dispatches[s.nextCall := Dispatch(0, e, x.item, Taken)];
  }

  lemma Begun(c: Config, s: State, t: State, e: nat, n: nat)
    requires e in s.redis.entries && TookUp(s, t, e, n, Taken)
    ensures Enabled(c, t, Begin(n)) && TookUp(s, Apply(c, t, Begin(n)), e, n, Running)
  {
    var d := Dispatch(0, e, s.redis.entries[e].item, Taken);
    assert t.dispatches[n := d.(pc := Running)] == s.dispatches[n := d.(pc := Running)];
  }

  /** The entry is taken up and its handler starts. */
  lemma TakeUp(c: Config, s0: State, before: seq<Event>, e: nat, r: Request) returns (es: seq<Event>)
    requires Spares(c, s0, before, r) && Consistent(Run(c, s0, before)) && Loose(Run(c, s0, before), e, r)
    ensures Spares(c, s0, es, r) && Consistent(Run(c, s0, es))
    ensures TookUp(Run(c, s0, before), Run(c, s0, es), e, Run(c, s0, before).nextCall, Running)
  {
    var s := Run(c, s0, before);
    Fetched(c, s, e, r);
    es := Then(c, s0, before, Fetch(0, [e], Done), r);
    Begun(c, s, Run(c, s0, es), e, s.nextCall);
    es := Then(c, s0, es, Begin(s.nextCall), r);
  }

  /** A dispatch answers: the request's count goes up. */
  lemma Answer(c: Config, s0: State, before: seq<Event>, n: nat, r: Request) returns (es: seq<Event>)
    requires Spares(c, s0, before, r) && Consistent(Run(c, s0, before))
    requires var s := Run(c, s0, before);
      Enabled(c, s, Respond(n, Done)) && s.dispatches[n].item.request == r && Count(s.answered, r) >= 1
    ensures Shows(c, s0, es, r)
  {
    var s := Run(c, s0, before);
    es := Then(c, s0, before, Respond(n, Done), r);
    assert Run(c, s0, es).answered == Bump(s.answered, r);
  }

  /** An answered request with a loose entry is answered again. */
  lemma AnswersAgain(c: Config, s0: State, before: seq<Event>, e: nat, r: Request) returns (es: seq<Event>)
    requires Spares(c, s0, before, r) && Consistent(Run(c, s0, before)) && Loose(Run(c, s0, before), e, r)
    requires Count(Run(c, s0, before).answered, r) >= 1
    ensures Shows(c, s0, es, r)
  {
    var s := Run(c, s0, before);
    es := TakeUp(c, s0, before, e, r);
    es := Answer(c, s0, es, s.nextCall, r);
  }

  /** A request with a handler at work and a loose entry gets a second handler. */
  lemma SecondHandler(c: Config, s0: State, before: seq<Event>, d: nat, e: nat, r: Request) returns (es: seq<Event>)
    requires Spares(c, s0, before, r) && Consistent(Run(c, s0, before)) && Loose(Run(c, s0, before), e, r)
    requires Works(Run(c, s0, before), d, r)
    ensures Shows(c, s0, es, r)
  {
    var s := Run(c, s0, before);
    es := TakeUp(c, s0, before, e, r);
    var t := Run(c, s0, es);
    assert d < s.nextCall;
    assert Works(t, d, r) && Works(t, s.nextCall, r);
  }

  /** `t` is `s` with the delayed retry of `r` moved to the entry `e`. */
  ghost predicate MovedRetry(s: State, t: State, e: nat, r: Request)
    requires r in s.redis.hash
  {
    && e == s.redis.nextId && t.redis.nextId == e + 1
    && t.redis.entries == s.redis.entries[e := Entry(r.priority, s.redis.hash[r].item, false)]
    && t.dispatches == s.dispatches && t.runs == s.runs && t.answered == s.answered && t.nextCall == s.nextCall
  }

  lemma PromotedWhenDue(c: Config, s: State, r: Request)
    requires Consistent(s) && r in s.redis.zset && 0 in s.scans && s.redis.zset[r] <= s.scans[0]
    ensures Enabled(c, s, Promote(0, r, Done)) && MovedRetry(s, Apply(c, s, Promote(0, r, Done)), s.redis.nextId, r)
  {
  }

  /** `t` is `s` at a later time, when the retry of `r` is due and the promotion pass of process 0 has begun. */
  ghost predicate ComesDue(s: State, t: State, r: Request) {
    && t.redis == s.redis && t.dispatches == s.dispatches && t.runs == s.runs && t.answered == s.answered
    && t.nextCall == s.nextCall && 0 in t.scans && (r in s.redis.zset ==> s.redis.zset[r] <= t.scans[0])
  }

  lemma TimePasses(c: Config, s: State, to: int)
    requires to >= s.clock
    ensures Enabled(c, s, Tick(to)) && Apply(c, s, Tick(to)) == s.(clock := to)
  {
  }

  /** Time passes until the delayed retry is due. */
  lemma WaitUntilDue(c: Config, s0: State, before: seq<Event>, r: Request) returns (es: seq<Event>)
    requires Spares(c, s0, before, r) && Consistent(Run(c, s0, before)) && r in Run(c, s0, before).redis.zset
    ensures Spares(c, s0, es, r) && Consistent(Run(c, s0, es))
    ensures var s, t := Run(c, s0, before), Run(c, s0, es);
      t == s.(clock := t.clock) && s.redis.zset[r] <= t.clock
  {
    var s := Run(c, s0, before);
    var to := if s.redis.zset[r] > s.clock then s.redis.zset[r] else s.clock;
    TimePasses(c, s, to);
    es := Then(c, s0, before, Tick(to), r);
  }

  /** ... and a promotion pass begins ... */
  lemma ScanWhenDue(c: Config, s0: State, before: seq<Event>, r: Request) returns (es: seq<Event>)
    requires Spares(c, s0, before, r) && Consistent(Run(c, s0, before)) && r in Run(c, s0, before).redis.zset
    ensures Spares(c, s0, es, r) && Consistent(Run(c, s0, es))
    ensures ComesDue(Run(c, s0, before), Run(c, s0, es), r)
  {
    es := WaitUntilDue(c, s0, before, r);
    es := Then(c, s0, es, Scan(0), r);
  }

  /** ... that moves it to a loose entry. */
  lemma PromoteNow(c: Config, s0: State, before: seq<Event>, r: Request) returns (es: seq<Event>)
    requires Spares(c, s0, before, r) && Consistent(Run(c, s0, before)) && r in Run(c, s0, before).redis.zset
    ensures Spares(c, s0, es, r) && Consistent(Run(c, s0, es))
    ensures var s, t := Run(c, s0, before), Run(c, s0, es);
      MovedRetry(s, t, s.redis.nextId, r) && Loose(t, s.redis.nextId, r)
  {
    var s := Run(c, s0, before);
    es := ScanWhenDue(c, s0, before, r);
    PromotedWhenDue(c, Run(c, s0, es), r);
    es := Then(c, s0, es, Promote(0, r, Done), r);
    NewIsLoose(s, Run(c, s0, es), s.redis.nextId, r);
  }

  lemma NewIsLoose(s: State, t: State, e: nat, r: Request)
    requires Consistent(s) && r in s.redis.hash && MovedRetry(s, t, e, r)
    ensures Loose(t, e, r)
  {
    forall d | d in t.dispatches ensures t.dispatches[d].entry != e {
      assert DispatchOk(s.redis, s.landed, s.dispatches[d]);
    }
  }

  // ---------------------------------------------------------------- attempts lost

  /** A dispatch of `r` after its adapter was called */
  ghost predicate Calling(s: State, n: nat, e: nat, r: Request, attempts: nat, runs: nat) {
    && n in s.dispatches && s.dispatches[n].pc == Executing && s.dispatches[n].entry == e
    && s.dispatches[n].item.request == r && s.dispatches[n].item.attempts == attempts && Count(s.runs, r) == runs
  }

  /** A loose entry is taken up and its adapter called. */
  lemma CallOnce(c: Config, s0: State, before: seq<Event>, e: nat, r: Request) returns (es: seq<Event>)
    requires Spares(c, s0, before, r) && Consistent(Run(c, s0, before)) && Loose(Run(c, s0, before), e, r)
    ensures Spares(c, s0, es, r) && Consistent(Run(c, s0, es))
    ensures var s := Run(c, s0, before);
      Calling(Run(c, s0, es), s.nextCall, e, r, s.redis.entries[e].item.attempts + 1, Count(s.runs, r) + 1)
  {
    var s := Run(c, s0, before);
    es := TakeUp(c, s0, before, e, r);
    es := Then(c, s0, es, Execute(s.nextCall), r);
  }

  /** Between a failed call and the next one: the retry waits with its attempts. */
  ghost predicate Retried(s: State, r: Request, attempts: nat, runs: nat) {
    && r in s.redis.zset && r in s.redis.hash && s.redis.hash[r].item.attempts == attempts
    && Count(s.runs, r) == runs
  }

  lemma FailsAndRetries(c: Config, s0: State, before: seq<Event>, n: nat, e: nat, r: Request, attempts: nat, runs: nat)
    returns (es: seq<Event>)
    requires Spares(c, s0, before, r) && Consistent(Run(c, s0, before))
    requires Calling(Run(c, s0, before), n, e, r, attempts, runs) && attempts <= c.maxAttempts
    ensures Spares(c, s0, es, r) && Consistent(Run(c, s0, es)) && Retried(Run(c, s0, es), r, attempts, runs)
  {
    es := Then(c, s0, before, AdapterFails(n), r);
    var s := Run(c, s0, es);
    es := Then(c, s0, es, Reschedule(n, s.clock, Done), r);
  }

  /** An entry with fewer attempts on it than calls were made: it is called until the bound is broken. */
  lemma {:induction false} TooManyCalls(c: Config, s0: State, before: seq<Event>, e: nat, r: Request)
    returns (es: seq<Event>)
    requires Spares(c, s0, before, r) && Consistent(Run(c, s0, before)) && Loose(Run(c, s0, before), e, r)
    requires var s := Run(c, s0, before); s.redis.entries[e].item.attempts <= c.maxAttempts
    requires var s := Run(c, s0, before); s.redis.entries[e].item.attempts < Count(s.runs, r)
    ensures Shows(c, s0, es, r)
    decreases c.maxAttempts - Run(c, s0, before).redis.entries[e].item.attempts
  {
    var s := Run(c, s0, before);
    var attempts, runs := s.redis.entries[e].item.attempts, Count(s.runs, r);
    es := CallOnce(c, s0, before, e, r);
    if attempts < c.maxAttempts {
      es := FailsAndRetries(c, s0, es, s.nextCall, e, r, attempts + 1, runs + 1);
      var t := Run(c, s0, es);
      es := PromoteNow(c, s0, es, r);
      es := TooManyCalls(c, s0, es, t.redis.nextId, r);
    }
  }

  // ---------------------------------------------------------------- every harm shows

  /** What is known of a request in order, and of the state around it */
  ghost predicate Settled(c: Config, s: State, r: Request) {
    Consistent(s) && Secured(s) && AnswersCounted(s) && Sound(c, ViewOf(s, r))
  }

  /** A dispatch of `r` that is not past its XACK works on an entry of `r`, and no other dispatch does. */
  lemma OnItsEntry(c: Config, s: State, call: nat, r: Request)
    requires Settled(c, s, r) && call in s.dispatches && s.dispatches[call].item.request == r
    requires s.dispatches[call].pc != Acked
    ensures var e := s.dispatches[call].entry;
      && e in s.redis.entries && s.redis.entries[e].item.request == r
      && s.redis.entries[e].item.attempts <= c.maxAttempts
      && forall d :: d in s.dispatches && d != call && s.dispatches[d].entry == e ==> s.dispatches[d].pc == Acked
  {
    var v, e := ViewOf(s, r), s.dispatches[call].entry;
    assert v.dispatches[call] == s.dispatches[call];
    assert e in v.entries;
    forall d | d in s.dispatches && d != call && s.dispatches[d].entry == e ensures s.dispatches[d].pc == Acked {
      assert DispatchOk(s.redis, s.landed, s.dispatches[d]);
      assert d in v.dispatches && v.dispatches[d] == s.dispatches[d];
    }
  }

  /** What the view says of one dispatch */
  lemma ItsProgress(c: Config, s: State, call: nat, r: Request)
    requires Settled(c, s, r) && call in s.dispatches && s.dispatches[call].item.request == r
    ensures var d := s.dispatches[call];
      && DispatchProgress(c, Count(s.runs, r), Count(s.answered, r), d)
      && (d.entry in s.redis.entries ==> FromEntry(s.redis.entries, d))
  {
    var v := ViewOf(s, r);
    assert v.dispatches[call] == s.dispatches[call];
    assert DispatchOk(s.redis, s.landed, s.dispatches[call]);
  }

  /** `t` is `s` without the dispatch `call`, and perhaps without others. */
  ghost predicate Without(s: State, t: State, call: nat) {
    && t.redis.entries == s.redis.entries && t.redis.zset == s.redis.zset
    && forall d :: d in t.dispatches ==> d != call && d in s.dispatches && t.dispatches[d] == s.dispatches[d]
  }

  lemma LeftLoose(c: Config, s: State, t: State, call: nat, r: Request)
    requires Settled(c, s, r) && call in s.dispatches && s.dispatches[call].item.request == r
    requires s.dispatches[call].pc != Acked && Without(s, t, call)
    ensures Loose(t, s.dispatches[call].entry, r)
  {
    OnItsEntry(c, s, call, r);
  }

  /** The dispatch is gone after its adapter was called, and its entry does not know of the call. */
  lemma CallForgotten(c: Config, s: State, t: State, call: nat, r: Request) returns (es: seq<Event>)
    requires Settled(c, s, r) && call in s.dispatches && s.dispatches[call].item.request == r
    requires var pc := s.dispatches[call].pc; pc == Executing || pc == Caught || pc == MustAnswer
    requires !Untried(s.redis.entries, s.dispatches[call])
    requires Consistent(t) && Without(s, t, call) && t.runs == s.runs
    ensures Shows(c, t, es, r)
  {
    LeftLoose(c, s, t, call, r);
    OnItsEntry(c, s, call, r);
    ItsProgress(c, s, call, r);
    es := TooManyCalls(c, t, [], s.dispatches[call].entry, r);
  }

  /** The dispatch is gone after the request was answered, and its entry is still there. */
  lemma AnswerForgotten(c: Config, s: State, t: State, call: nat, r: Request) returns (es: seq<Event>)
    requires Settled(c, s, r) && call in s.dispatches && s.dispatches[call].item.request == r
    requires s.dispatches[call].pc != Acked && Consistent(t) && Without(s, t, call) && Count(t.answered, r) >= 1
    ensures Shows(c, t, es, r)
  {
    LeftLoose(c, s, t, call, r);
    es := AnswersAgain(c, t, [], s.dispatches[call].entry, r);
  }

  /** The dispatch is gone after it handed its slot over, and its entry is still there. */
  lemma HandOverForgotten(c: Config, s: State, t: State, call: nat, r: Request) returns (es: seq<Event>)
    requires Settled(c, s, r) && call in s.dispatches && s.dispatches[call].item.request == r
    requires s.dispatches[call].pc.Deferred? && Consistent(t) && Without(s, t, call) && t.answered == s.answered
    ensures Shows(c, t, es, r)
  {
    if r in s.answered {
      es := AnswerForgotten(c, s, t, call, r);
    } else {
      es := [];
      TwoCopies(c, s, t, call, r);
    }
  }

  /** The entry owns its slot again, beside the copy that the hand-over made. */
  lemma TwoCopies(c: Config, s: State, t: State, call: nat, r: Request)
    requires Settled(c, s, r) && call in s.dispatches && s.dispatches[call].item.request == r
    requires s.dispatches[call].pc.Deferred? && Without(s, t, call) && r !in s.answered
    ensures !InOrder(c, t, r)
  {
    var d := s.dispatches[call];
    assert DispatchSecured(s.redis, s.answered, d) && DispatchOk(s.redis, s.landed, d);
    UnansweredHasCopy(s, r, d.pc.mark);
    TakenBackCopy(c, s, t, call, r);
    if r !in s.redis.zset {
      var e :| e in Owned(s) && d.pc.mark <= e && s.redis.entries[e].item.request == r;
      OwnStays(s, t, call, e);
      assert Copy(t, e, r) && Copy(t, d.entry, r);
    }
  }

  lemma TakenBackCopy(c: Config, s: State, t: State, call: nat, r: Request)
    requires Settled(c, s, r) && call in s.dispatches && s.dispatches[call].item.request == r
    requires s.dispatches[call].pc != Acked && Without(s, t, call)
    ensures Copy(t, s.dispatches[call].entry, r)
  {
    var e := s.dispatches[call].entry;
    OnItsEntry(c, s, call, r);
    forall d | d in t.dispatches && t.dispatches[d].pc.Deferred? ensures t.dispatches[d].entry != e {}
  }

  lemma OwnStays(s: State, t: State, call: nat, e: nat)
    requires Without(s, t, call) && e in Owned(s)
    ensures e in Owned(t)
  {
    forall d | d in t.dispatches && t.dispatches[d].pc.Deferred? ensures t.dispatches[d].entry != e {
      assert s.dispatches[d] == t.dispatches[d];
    }
  }

  // ---------------------------------------------------------------- by event

  /** What a failed response leaves: the dispatch in the catch block, or nothing of it. */
  lemma ResponseFails(c: Config, s: State, call: nat, o: Outcome)
    requires Enabled(c, s, Respond(call, o)) && o != Done
    ensures var t, d := Apply(c, s, Respond(call, o)), s.dispatches[call];
      && t.runs == s.runs && t.answered == (if Effective(o) then Bump(s.answered, d.item.request) else s.answered)
      && if d.pc == Executing then call in t.dispatches && t.dispatches[call] == d.(pc := Caught)
         else Without(s, t, call)
  {
  }

  lemma RespondShows(c: Config, s: State, call: nat, o: Outcome, r: Request) returns (es: seq<Event>)
    requires Settled(c, s, r) && Enabled(c, s, Respond(call, o)) && r in Harms(s, Respond(call, o))
    ensures Shows(c, Apply(c, s, Respond(call, o)), es, r)
  {
    var t := Apply(c, s, Respond(call, o));
    ConsistentStep(c, s, Respond(call, o));
    ResponseFails(c, s, call, o);
    if o == NoEffect {
      es := CallForgotten(c, s, t, call, r);
    } else if s.dispatches[call].pc == Executing {
      es := Answer(c, t, [], call, r);
    } else {
      es := AnswerForgotten(c, s, t, call, r);
    }
  }

  lemma HandOverLost(c: Config, s: State, call: nat, due: int)
    requires Enabled(c, s, Reschedule(call, due, ReplyLost))
    ensures var t := Apply(c, s, Reschedule(call, due, ReplyLost));
      && t.redis.entries == s.redis.entries && s.dispatches[call].item.request in t.redis.zset
      && t.dispatches == SetPc(s.dispatches, call, MustAnswer)
  {
  }

  /** A hand-over whose reply was lost: the retry is stored beside the entry, which is to be answered. */
  lemma RescheduleShows(c: Config, s: State, call: nat, due: int, r: Request) returns (es: seq<Event>)
    requires Settled(c, s, r) && Enabled(c, s, Reschedule(call, due, ReplyLost))
    requires s.dispatches[call].item.request == r
    ensures Shows(c, Apply(c, s, Reschedule(call, due, ReplyLost)), es, r)
  {
    var t := Apply(c, s, Reschedule(call, due, ReplyLost));
    var e := s.dispatches[call].entry;
    OnItsEntry(c, s, call, r);
    HandOverLost(c, s, call, due);
    forall d | d in t.dispatches && t.dispatches[d].pc.Deferred? ensures t.dispatches[d].entry != e {
      assert d != call && s.dispatches[d] == t.dispatches[d];
    }
    assert Copy(t, e, r);
    es := [];
  }

  lemma XAckWithout(c: Config, s: State, call: nat)
    requires Enabled(c, s, XAck(call, NoEffect))
    ensures var t := Apply(c, s, XAck(call, NoEffect)); Without(s, t, call) && t.answered == s.answered
  {
  }

  lemma XAckShows(c: Config, s: State, call: nat, r: Request) returns (es: seq<Event>)
    requires Settled(c, s, r) && Enabled(c, s, XAck(call, NoEffect)) && s.dispatches[call].item.request == r
    ensures Shows(c, Apply(c, s, XAck(call, NoEffect)), es, r)
  {
    var t := Apply(c, s, XAck(call, NoEffect));
    ConsistentStep(c, s, XAck(call, NoEffect));
    XAckWithout(c, s, call);
    ItsProgress(c, s, call, r);
    if s.dispatches[call].pc == Answered { es := AnswerForgotten(c, s, t, call, r); }
    else { es := HandOverForgotten(c, s, t, call, r); }
  }

  lemma CrashWithout(c: Config, s: State, p: nat, call: nat)
    requires call in s.dispatches && s.dispatches[call].process == p
    ensures var t := Apply(c, s, Crash(p)); Without(s, t, call) && t.runs == s.runs && t.answered == s.answered
  {
    assert Apply(c, s, Crash(p)).dispatches == OnCrash(s, p).dispatches;
  }

  lemma CrashShows(c: Config, s: State, p: nat, r: Request) returns (es: seq<Event>)
    requires Settled(c, s, r) && r in Harms(s, Crash(p))
    ensures Shows(c, Apply(c, s, Crash(p)), es, r)
  {
    var t := Apply(c, s, Crash(p));
    var call :| call in s.dispatches && s.dispatches[call].process == p && s.dispatches[call].pc != Acked
                && !Untried(s.redis.entries, s.dispatches[call]) && s.dispatches[call].item.request == r;
    ConsistentStep(c, s, Crash(p));
    CrashWithout(c, s, p, call);
    ItsProgress(c, s, call, r);
    if s.dispatches[call].pc.Deferred? { es := HandOverForgotten(c, s, t, call, r); }
    else if s.dispatches[call].pc == Answered { es := AnswerForgotten(c, s, t, call, r); }
    else { es := CallForgotten(c, s, t, call, r); }
  }

  /** Only delivery marks of entries differ. */
  ghost predicate SameItems(r: Redis, r': Redis) {
    && r'.zset == r.zset && r'.entries.Keys == r.entries.Keys
    && forall e :: e in r.entries ==> r'.entries[e].item == r.entries[e].item
  }

  /** Dispatch `n` is a new one, just received, and the dispatches before are still there. */
  ghost predicate Joined(ds: map<nat, Dispatch>, ds': map<nat, Dispatch>, n: nat) {
    && n !in ds && n in ds' && ds'[n].pc == Taken
    && (forall d :: d in ds ==> d in ds' && ds'[d] == ds[d])
    && (forall d :: d in ds' && d !in ds ==> ds'[d].pc == Taken)
  }

  /** The entry `x` was refetched as dispatch `n`. */
  ghost predicate Refetched(s: State, t: State, x: nat, n: nat, r: Request) {
    && Joined(s.dispatches, t.dispatches, n) && SameItems(s.redis, t.redis) && t.answered == s.answered
    && t.dispatches[n].entry == x && t.dispatches[n].item.request == r
  }

  lemma FetchApplied(c: Config, s: State, p: nat, batch: seq<nat>)
    requires Enabled(c, s, Fetch(p, batch, Done))
    ensures var t := Apply(c, s, Fetch(p, batch, Done));
      && t.dispatches == s.dispatches + Handlers(s.redis.entries, p, s.nextCall, batch)
      && t.redis == s.redis.(entries := Deliver(s.redis.entries, batch)) && t.answered == s.answered
  {
  }

  /** The messages of a batch are received as new dispatches; the one of `x` is dispatch `n`. */
  lemma ReceivedAs(s: State, p: nat, batch: seq<nat>, x: nat, t: map<nat, Dispatch>) returns (n: nat)
    requires (forall d :: d in s.dispatches ==> d < s.nextCall)
    requires x in batch && forall e :: e in batch ==> e in s.redis.entries
    requires t == s.dispatches + Handlers(s.redis.entries, p, s.nextCall, batch)
    ensures Joined(s.dispatches, t, n) && t[n] == Dispatch(p, x, s.redis.entries[x].item, Taken)
  {
    var i :| 0 <= i < |batch| && batch[i] == x;
    n := s.nextCall + i;
    assert batch[n - s.nextCall] == x;
  }

  lemma RefetchOf(c: Config, s: State, p: nat, batch: seq<nat>, x: nat, r: Request) returns (n: nat)
    requires (forall d :: d in s.dispatches ==> d < s.nextCall)
    requires Enabled(c, s, Fetch(p, batch, Done)) && x in batch && s.redis.entries[x].item.request == r
    ensures Refetched(s, Apply(c, s, Fetch(p, batch, Done)), x, n, r)
  {
    var t := Apply(c, s, Fetch(p, batch, Done));
    FetchApplied(c, s, p, batch);
    n := ReceivedAs(s, p, batch, x, t.dispatches);
  }

  /** The delayed retry of the request is promoted, and meets the new handler. */
  lemma MeetsRetry(c: Config, t: State, n: nat, r: Request) returns (es: seq<Event>)
    requires Consistent(t) && Works(t, n, r) && r in t.redis.zset
    ensures Shows(c, t, es, r)
  {
    es := PromoteNow(c, t, [], r);
    var u := Run(c, t, es);
    assert Works(u, n, r);
    es := SecondHandler(c, t, es, n, t.redis.nextId, r);
  }

  /** Another entry of the request meets the new handler. */
  lemma MeetsEntry(c: Config, s: State, t: State, x: nat, n: nat, e: nat, r: Request) returns (es: seq<Event>)
    requires Consistent(t) && Refetched(s, t, x, n, r) && Works(t, n, r)
    requires e in Owned(s) && e != x && s.redis.entries[e].item.request == r
    ensures Shows(c, t, es, r)
  {
    if Loose(t, e, r) {
      es := SecondHandler(c, t, [], n, e, r);
    } else {
      es := [];
      OtherHandler(s, t, x, n, e, r);
    }
  }

  /** The other dispatch of the entry had handed its slot over: its copy meets the new handler. */
  lemma MeetsCopy(c: Config, s: State, t: State, x: nat, n: nat, call: nat, r: Request) returns (es: seq<Event>)
    requires Settled(c, s, r) && Consistent(t) && Refetched(s, t, x, n, r) && Works(t, n, r)
    requires call in s.dispatches && s.dispatches[call].entry == x && s.dispatches[call].item.request == r
    requires s.dispatches[call].pc.Deferred? && r !in s.answered
    ensures Shows(c, t, es, r)
  {
    var d := s.dispatches[call];
    assert DispatchSecured(s.redis, s.answered, d) && DispatchOk(s.redis, s.landed, d);
    UnansweredHasCopy(s, r, d.pc.mark);
    if r in s.redis.zset {
      es := MeetsRetry(c, t, n, r);
    } else {
      var e :| e in Owned(s) && d.pc.mark <= e && s.redis.entries[e].item.request == r;
      es := MeetsEntry(c, s, t, x, n, e, r);
    }
  }

  lemma OtherHandler(s: State, t: State, x: nat, n: nat, e: nat, r: Request)
    requires Consistent(t) && Refetched(s, t, x, n, r) && e in Owned(s) && e != x
    requires s.redis.entries[e].item.request == r && !Loose(t, e, r)
    ensures exists d :: d != n && Works(t, d, r)
  {
    var d :| d in t.dispatches && t.dispatches[d].entry == e && t.dispatches[d].pc != Acked;
    assert DispatchOk(t.redis, t.landed, t.dispatches[d]);
    if d in s.dispatches {
      assert e !in HandedOver(s.dispatches);
      assert !s.dispatches[d].pc.Deferred?;
    }
    assert d != n && Works(t, d, r);
  }

  /** The entry of an answered request is refetched: the request is answered again. */
  lemma RefetchAnswers(c: Config, t: State, n: nat, r: Request) returns (es: seq<Event>)
    requires Consistent(t) && n in t.dispatches && t.dispatches[n].pc == Taken
    requires t.dispatches[n].item.request == r && Count(t.answered, r) >= 1
    ensures Shows(c, t, es, r)
  {
    es := Then(c, t, [], Begin(n), r);
    es := Answer(c, t, es, n, r);
  }

  /** Somebody's live message is received once more. */
  lemma RefetchShows(c: Config, s: State, t: State, x: nat, n: nat, call: nat, r: Request) returns (es: seq<Event>)
    requires Settled(c, s, r) && Consistent(t) && Refetched(s, t, x, n, r)
    requires call in s.dispatches && s.dispatches[call].entry == x && s.dispatches[call].item.request == r
    requires s.dispatches[call].pc != Acked
    ensures Shows(c, t, es, r)
  {
    if !s.dispatches[call].pc.Deferred? {
      es := [];
      assert Works(t, call, r) && Works(t, n, r);
    } else if r in s.answered {
      es := RefetchAnswers(c, t, n, r);
    } else {
      es := MeetsCopy(c, s, t, x, n, call, r);
    }
  }

  lemma FetchShows(c: Config, s: State, p: nat, batch: seq<nat>, r: Request) returns (es: seq<Event>)
    requires Settled(c, s, r) && Enabled(c, s, Fetch(p, batch, Done)) && r in Harms(s, Fetch(p, batch, Done))
    ensures Shows(c, Apply(c, s, Fetch(p, batch, Done)), es, r)
  {
    var x :| x in batch && x in s.redis.entries && Live(s, x) && s.redis.entries[x].item.request == r;
    var call :| call in s.dispatches && s.dispatches[call].entry == x && s.dispatches[call].pc != Acked;
    assert DispatchOk(s.redis, s.landed, s.dispatches[call]);
    ConsistentStep(c, s, Fetch(p, batch, Done));
    var n := RefetchOf(c, s, p, batch, x, r);
    es := RefetchShows(c, s, Apply(c, s, Fetch(p, batch, Done)), x, n, call, r);
  }

  lemma HarmShows(c: Config, s: State, e: Event, r: Request) returns (es: seq<Event>)
    requires Settled(c, s, r) && Enabled(c, s, e) && r in Harms(s, e)
    ensures Shows(c, Apply(c, s, e), es, r)
  {
    match e
    case Fetch(p, batch, _) => es := FetchShows(c, s, p, batch, r);
    case Respond(call, o) => es := RespondShows(c, s, call, o, r);
    case Reschedule(call, due, _) => es := RescheduleShows(c, s, call, due, r);
    case XAck(call, _) => es := XAckShows(c, s, call, r);
    case Crash(p) => es := CrashShows(c, s, p, r);
  }

  /** `Harms` is exact: after any run that harmed `r` nowhere, an event harms `r` if and only if it has a
      continuation that does not harm `r` and yet ends with `r` out of order. */
  lemma HarmsExactly(c: Config, clock: int, before: seq<Event>, e: Event, r: Request)
    requires Allowed(c, Init(clock), before) && r !in HarmedIn(c, Init(clock), before)
    requires Enabled(c, Run(c, Init(clock), before), e)
    ensures var s := Run(c, Init(clock), before);
      r in Harms(s, e) <==> exists es :: Shows(c, Apply(c, s, e), es, r)
  {
    var s := Run(c, Init(clock), before);
    RunConsistent(c, Init(clock), before);
    RunCountsAnswers(c, Init(clock), before);
    InitSound(c, clock, r);
    RunSound(c, Init(clock), before, r);
    if r in Harms(s, e) {
      var es := HarmShows(c, s, e, r);
    } else {
      ConsistentStep(c, s, e);
      SoundStep(c, s, e, r);
      forall es | Spares(c, Apply(c, s, e), es, r) ensures InOrder(c, Run(c, Apply(c, s, e), es), r) {
        RunSound(c, Apply(c, s, e), es, r);
        SoundInOrder(c, Run(c, Apply(c, s, e), es), r);
      }
    }
  }

  // ---------------------------------------------------------------- every harm happens

  /** Process 0 has dispatch 1 of the request of `item`, at `pc`, on entry 0. */
  ghost predicate At(s: State, item: Item, pc: DispatchPc) {
    && s.clock == 0 && 1 in s.dispatches
    && s.dispatches[1] == Dispatch(0, 0, item.(attempts := Attempts(pc)), pc)
    && 0 in s.redis.entries && s.redis.entries[0].item == item && s.redis.nextId == 1
  }

  function Attempts(pc: DispatchPc): nat { if pc in {Executing, Caught, Answered} then 1 else 0 }

  /** After this run, which did the request no harm */
  ghost predicate Stage(c: Config, es: seq<Event>, item: Item, pc: DispatchPc) {
    && Spares(c, Init(0), es, item.request) && Consistent(Run(c, Init(0), es))
    && At(Run(c, Init(0), es), item, pc)
  }

  lemma StoredStage(c: Config, item: Item) returns (es: seq<Event>)
    requires c.maxQueueSize > 0 && item.attempts == 0
    ensures Spares(c, Init(0), es, item.request) && Consistent(Run(c, Init(0), es))
    ensures var s := Run(c, Init(0), es);
      Loose(s, 0, item.request) && s.redis.entries[0].item == item && s.redis.nextId == 1
      && s.nextCall == 1 && s.clock == 0
  {
    es := Then(c, Init(0), [], Incr(0, item, Done), item.request);
    es := Then(c, Init(0), es, XAdd(0, Done), item.request);
  }

  lemma RunningStage(c: Config, item: Item) returns (es: seq<Event>)
    requires c.maxQueueSize > 0 && item.attempts == 0
    ensures Stage(c, es, item, Running)
  {
    es := StoredStage(c, item);
    es := TakeUp(c, Init(0), es, 0, item.request);
  }

  /** The steps of a handler from one stage to the next */
  predicate Proceeds(pc: DispatchPc, e: Event, next: DispatchPc) {
    || (pc == Running && e == Execute(1) && next == Executing)
    || (pc == Running && e == Reschedule(1, 0, Done) && next == Deferred(1))
    || (pc == Executing && e == AdapterFails(1) && next == Caught)
    || (pc == Executing && e == Respond(1, Done) && next == Answered)
  }

  lemma StageMoves(c: Config, s: State, item: Item, pc: DispatchPc, e: Event, next: DispatchPc)
    requires At(s, item, pc) && item.attempts == 0 && Proceeds(pc, e, next)
    ensures Enabled(c, s, e) && Harms(s, e) == {} && At(Apply(c, s, e), item, next)
  {
  }

  lemma NextStage(c: Config, before: seq<Event>, item: Item, pc: DispatchPc, e: Event, next: DispatchPc)
    returns (es: seq<Event>)
    requires Stage(c, before, item, pc) && item.attempts == 0 && Proceeds(pc, e, next)
    ensures Stage(c, es, item, next)
  {
    StageMoves(c, Run(c, Init(0), before), item, pc, e, next);
    es := Then(c, Init(0), before, e, item.request);
  }

  lemma StageReached(c: Config, item: Item, pc: DispatchPc) returns (es: seq<Event>)
    requires c.maxQueueSize > 0 && item.attempts == 0
    requires pc in {Running, Executing, Caught, Answered, Deferred(1)}
    ensures Stage(c, es, item, pc)
  {
    es := RunningStage(c, item);
    if pc == Deferred(1) {
      es := NextStage(c, es, item, Running, Reschedule(1, 0, Done), pc);
    } else if pc != Running {
      es := NextStage(c, es, item, Running, Execute(1), Executing);
      if pc == Caught { es := NextStage(c, es, item, Executing, AdapterFails(1), pc); }
      if pc == Answered { es := NextStage(c, es, item, Executing, Respond(1, Done), pc); }
    }
  }

  /** What harms the request of a dispatch at `pc` */
  predicate HarmsAt(pc: DispatchPc, e: Event) {
    || (e == Fetch(1, [0], Done) && pc in {Running, Executing, Caught, Answered, Deferred(1)})
    || (e == Respond(1, ReplyLost) && pc in {Running, Executing, Caught})
    || (e == Respond(1, NoEffect) && pc == Caught)
    || (e == Reschedule(1, 0, ReplyLost) && pc in {Running, Caught})
    || (e == XAck(1, NoEffect) && pc in {Answered, Deferred(1)})
    || (e == Crash(0) && pc in {Executing, Caught, Answered, Deferred(1)})
  }

  lemma FetchHarms(c: Config, s: State, item: Item, pc: DispatchPc)
    requires At(s, item, pc) && pc != Acked
    ensures Enabled(c, s, Fetch(1, [0], Done)) && item.request in Harms(s, Fetch(1, [0], Done))
  {
    assert Live(s, 0) && 0 in [0];
    assert From(s.redis, [0], s.redis.entries[0].stream, s.redis.entries[0].delivered);
  }

  lemma CrashHarms(s: State, item: Item, pc: DispatchPc)
    requires At(s, item, pc) && item.attempts == 0 && HarmsAt(pc, Crash(0))
    ensures item.request in Harms(s, Crash(0))
  {
    assert !Untried(s.redis.entries, s.dispatches[1]);
  }

  lemma CommandHarms(c: Config, s: State, item: Item, pc: DispatchPc, e: Event)
    requires At(s, item, pc) && item.attempts == 0 && HarmsAt(pc, e) && !e.Fetch? && !e.Crash?
    requires c.maxAttempts > 0
    ensures Enabled(c, s, e) && item.request in Harms(s, e)
  {
  }

  lemma StageHarms(c: Config, s: State, item: Item, pc: DispatchPc, e: Event)
    requires At(s, item, pc) && item.attempts == 0 && HarmsAt(pc, e) && c.maxAttempts > 0
    ensures Enabled(c, s, e) && item.request in Harms(s, e)
  {
    if e.Fetch? { FetchHarms(c, s, item, pc); }
    else if e.Crash? { CrashHarms(s, item, pc); }
    else { CommandHarms(c, s, item, pc, e); }
  }

  /** Each of these harms is met by a request in order so far: `HarmsExactly` then tells what follows. */
  lemma EveryHarmHappens(c: Config, item: Item, pc: DispatchPc, e: Event) returns (es: seq<Event>)
    requires c.maxQueueSize > 0 && c.maxAttempts > 0 && item.attempts == 0 && HarmsAt(pc, e)
    ensures Stage(c, es, item, pc)
    ensures Enabled(c, Run(c, Init(0), es), e) && item.request in Harms(Run(c, Init(0), es), e)
  {
    es := StageReached(c, item, pc);
    StageHarms(c, Run(c, Init(0), es), item, pc, e);
  }
}
