/**
  What becomes of an accepted message in memory, told by the events: what an item carries, what the adapter's
  answer, the limiter's answer and the deadline make of it, and which result its key gets - over every run.
 */
module MemoryOutcomes {
  import opened JsText
  import opened MemoryScheduler
  import opened MemorySafety

  /** The key of the item, if it has one, holds this result, and is not in flight. */
  predicate Records(s: State, item: Item, r: Response) {
    item.dedupKey.Some? ==>
      item.dedupKey.value in s.results && s.results[item.dedupKey.value] == r && item.dedupKey.value !in s.inflight
  }

  predicate PastDeadline(item: Item, clock: int) {
    match item.deadlineAt
    case Some(deadline) => deadline <= clock
    case None => false
  }

  lemma OnePlace(c: Config, s: State, item: Item)
    requires Conserved(s) && (item in s.queue || item in Held(s.pump) || item in s.running)
    ensures Count(s.finished, item.id) == 0 && item.id < s.nextId
  {
    if item in s.queue { CountMember(s.queue, item); }
    if item in Held(s.pump) { CountMember(Held(s.pump), item); }
    if item in s.running { CountMember(s.running, item); }
    assert Places(s, item.id) == if item.id < s.nextId then 1 else 0;
  }

  // ---------------------------------------------------------------- the adapter

  /** A value the adapter returned is the success its request gets, and the key's result. */
  lemma AdapterSucceeds(c: Config, clock: int, es: seq<Event>, slot: nat)
    requires Allowed(c, Init(clock), es) && slot < |Run(c, Init(clock), es).running|
    ensures var s := Run(c, Init(clock), es); var s1, item := Apply(c, s, Complete(slot, Returns)), s.running[slot];
      && Records(s1, item, Response(item.requestId, None, true, ""))
      && Count(s.finished, item.id) == 0 && Count(s1.finished, item.id) == 1
      && s1.retries == s.retries && s1.queue == s.queue && s1.runs == s.runs
  {
    var s := Run(c, Init(clock), es);
    RunOrderly(c, Init(clock), es);
    OnePlace(c, s, s.running[slot]);
  }

  /** What it threw leads to a retry while it is retryable, attempts last and the deadline is ahead; else the
      request fails with its code. */
  lemma AdapterThrows(c: Config, clock: int, es: seq<Event>, slot: nat, retryable: bool, code: string)
    requires Allowed(c, Init(clock), es) && slot < |Run(c, Init(clock), es).running|
    ensures var s := Run(c, Init(clock), es);
      var s1, item := Apply(c, s, Complete(slot, Throws(retryable, code))), s.running[slot];
      if retryable && item.attempts <= c.maxAttempts && !PastDeadline(item, s.clock) then
        s1.retries == s.retries + [item] && s1.finished == s.finished && s1.results == s.results
        && s1.inflight == s.inflight && s1.runs == s.runs
      else
        Records(s1, item, Response(item.requestId, None, false, code))
        && Count(s.finished, item.id) == 0 && Count(s1.finished, item.id) == 1
        && s1.retries == s.retries && s1.queue == s.queue && s1.runs == s.runs
  {
    var s := Run(c, Init(clock), es);
    RunOrderly(c, Init(clock), es);
    OnePlace(c, s, s.running[slot]);
    if retryable && s.running[slot].attempts <= c.maxAttempts && !PastDeadline(s.running[slot], s.clock) {
      RetriesThrow(c, s, slot, code);
    } else {
      FailsThrow(c, s, slot, retryable, code);
    }
  }

  lemma RetriesThrow(c: Config, s: State, slot: nat, code: string)
    requires slot < |s.running|
    requires s.running[slot].attempts <= c.maxAttempts && !PastDeadline(s.running[slot], s.clock)
    ensures var s1, item := Apply(c, s, Complete(slot, Throws(true, code))), s.running[slot];
      && s1.retries == s.retries + [item] && s1.finished == s.finished && s1.results == s.results
      && s1.inflight == s.inflight && s1.runs == s.runs
  {
  }

  lemma FailsThrow(c: Config, s: State, slot: nat, retryable: bool, code: string)
    requires slot < |s.running|
    requires !retryable || s.running[slot].attempts > c.maxAttempts || PastDeadline(s.running[slot], s.clock)
    ensures var s1, item := Apply(c, s, Complete(slot, Throws(retryable, code))), s.running[slot];
      && Records(s1, item, Response(item.requestId, None, false, code))
      && Count(s1.finished, item.id) == Count(s.finished, item.id) + 1
      && s1.retries == s.retries && s1.queue == s.queue && s1.runs == s.runs
  {
  }

  // ---------------------------------------------------------------- the pump

  lemma {:induction false} PumpLoopStarts(c: Config, s: State)
    ensures s.running <= PumpLoop(c, s).running
    decreases |s.queue|
  {
    if s.active < c.concurrency && s.queue != [] && !Expired(s.queue[0], s.clock) && !c.limited {
      PumpLoopStarts(c, Start(s.(queue := s.queue[1..]), s.queue[0]));
    }
  }

  lemma StartedRuns(c: Config, s: State, s1: State, item: Item)
    requires ItemsOk(c, s) && ItemsOk(c, s1) && (item in s.queue || item in Held(s.pump))
    requires item.(attempts := item.attempts + 1) in s1.running
    ensures Count(s1.runs, item.id) == Count(s.runs, item.id) + 1
  {
    assert item in Waiting(s);
    assert item.(attempts := item.attempts + 1) in multiset(s1.running);
  }

  /** What the limiter's answer makes of the item the pump holds: it goes to the adapter, back to the head of the queue
      until the pump's timer, or its request fails. */
  ghost predicate LimiterOutcome(s: State, s1: State, item: Item, d: Decision) {
    match d
    case Allow =>
      item.(attempts := item.attempts + 1) in s1.running && Count(s1.runs, item.id) == Count(s.runs, item.id) + 1
    case Deny =>
      && s1.queue == [item] + s.queue && s1.pumpTimer && s1.pump == Off && s1.runs == s.runs
      && s1.finished == s.finished && s1.results == s.results && s1.inflight == s.inflight
    case LimiterError =>
      && Records(s1, item, Response(item.requestId, None, false, "RATE_LIMITER_UNAVAILABLE"))
      && Count(s.finished, item.id) == 0 && Count(s1.finished, item.id) == 1 && s1.runs == s.runs
  }

  lemma LimiterAnswers(c: Config, clock: int, es: seq<Event>, d: Decision)
    requires Allowed(c, Init(clock), es) && Run(c, Init(clock), es).pump.AwaitDecision?
    ensures var s := Run(c, Init(clock), es); LimiterOutcome(s, Apply(c, s, Decide(d)), s.pump.item, d)
  {
    RunOrderly(c, Init(clock), es);
    var s := Run(c, Init(clock), es);
    match d
    case Allow => LimiterAllows(c, s);
    case Deny => LimiterDenies(c, s);
    case LimiterError => OnePlace(c, s, s.pump.item); LimiterFails(c, s);
  }

  lemma LimiterAllows(c: Config, s: State)
    requires Conserved(s) && ItemsOk(c, s) && s.pump.AwaitDecision?
    ensures LimiterOutcome(s, Apply(c, s, Decide(Allow)), s.pump.item, Allow)
  {
    var item, t := s.pump.item, Start(s.(pump := Off), s.pump.item);
    DecideItems(c, s, Allow);
    PumpLoopStarts(c, t);
    LastStarted(s.(pump := Off), item, PumpLoop(c, t));
    StartedRuns(c, s, PumpLoop(c, t), item);
  }

  lemma LastStarted(s: State, item: Item, s1: State)
    requires Start(s, item).running <= s1.running
    ensures item.(attempts := item.attempts + 1) in s1.running
  {
    var running := Start(s, item).running;
    assert running[|running| - 1] == item.(attempts := item.attempts + 1);
    assert s1.running[|running| - 1] == running[|running| - 1];
  }

  lemma LimiterDenies(c: Config, s: State)
    requires s.pump.AwaitDecision?
    ensures LimiterOutcome(s, Apply(c, s, Decide(Deny)), s.pump.item, Deny)
  {
  }

  lemma LimiterFails(c: Config, s: State)
    requires s.pump.AwaitDecision? && Count(s.finished, s.pump.item.id) == 0
    ensures LimiterOutcome(s, Apply(c, s, Decide(LimiterError)), s.pump.item, LimiterError)
  {
  }

  /** What the pump does with the head of the queue, when a slot is free */
  ghost predicate ServesHead(c: Config, s: State, s1: State)
    requires s.queue != []
  {
    var item := s.queue[0];
    if PastDeadline(item, s.clock) then
      && Records(s1, item, Response(item.requestId, None, false, "DEADLINE_EXCEEDED"))
      && Count(s.finished, item.id) == 0 && Count(s1.finished, item.id) == 1
      && s1.runs == s.runs && s1.queue == s.queue[1..] && s1.pump == AwaitFinish
    else if c.limited then
      s1.pump == AwaitDecision(item) && s1.queue == s.queue[1..] && s1.runs == s.runs && s1.finished == s.finished
    else
      && item.(attempts := item.attempts + 1) in s1.running
      && Count(s1.runs, item.id) == Count(s.runs, item.id) + 1
  }

  lemma LoopServesHead(c: Config, s: State, t: State)
    requires Conserved(s) && ItemsOk(c, s) && s.queue != [] && t.active < c.concurrency
    requires SameItems(s, t) && ItemsOk(c, PumpLoop(c, t))
    ensures ServesHead(c, s, PumpLoop(c, t))
  {
    OnePlace(c, s, s.queue[0]);
    if PastDeadline(s.queue[0], s.clock) { LoopFails(c, s, t); }
    else if c.limited { LoopAsks(c, s, t); }
    else { LoopStarts(c, s, t); }
  }

  predicate SameItems(s: State, t: State) {
    t == s.(pumping := t.pumping, pumpTimer := t.pumpTimer, pump := t.pump, active := t.active, draining := t.draining)
  }

  lemma LoopFails(c: Config, s: State, t: State)
    requires s.queue != [] && t.active < c.concurrency && SameItems(s, t) && PastDeadline(s.queue[0], s.clock)
    ensures var item, s1 := s.queue[0], PumpLoop(c, t);
      && Records(s1, item, Response(item.requestId, None, false, "DEADLINE_EXCEEDED"))
      && Count(s1.finished, item.id) == Count(s.finished, item.id) + 1
      && s1.runs == s.runs && s1.queue == s.queue[1..] && s1.pump == AwaitFinish
  {
  }

  lemma LoopAsks(c: Config, s: State, t: State)
    requires s.queue != [] && t.active < c.concurrency && SameItems(s, t) && c.limited
    requires !PastDeadline(s.queue[0], s.clock)
    ensures var item, s1 := s.queue[0], PumpLoop(c, t);
      s1.pump == AwaitDecision(item) && s1.queue == s.queue[1..] && s1.runs == s.runs && s1.finished == s.finished
  {
  }

  lemma LoopStarts(c: Config, s: State, t: State)
    requires ItemsOk(c, s) && ItemsOk(c, PumpLoop(c, t)) && s.queue != [] && t.active < c.concurrency && SameItems(s, t)
    requires !c.limited && !PastDeadline(s.queue[0], s.clock)
    ensures var item, s1 := s.queue[0], PumpLoop(c, t);
      && item.(attempts := item.attempts + 1) in s1.running
      && Count(s1.runs, item.id) == Count(s.runs, item.id) + 1
  {
    var item, t1 := s.queue[0], t.(queue := t.queue[1..]);
    PumpLoopStarts(c, Start(t1, item));
    LastStarted(t1, item, PumpLoop(c, t));
    StartedRuns(c, s, PumpLoop(c, t), item);
  }

  /** Whenever the pump runs with a slot free it serves the head of the queue: after an answer, when its timer
      fires, when a slot is given back. */
  lemma PumpServesHead(c: Config, clock: int, es: seq<Event>, e: Event)
    requires Allowed(c, Init(clock), es) && Enabled(Run(c, Init(clock), es), e)
    requires Run(c, Init(clock), es).queue != []
    requires var s := Run(c, Init(clock), es);
      || (e == FinishReturned && s.active < c.concurrency)
      || (e == PumpTimer && !s.pumping && s.active < c.concurrency)
      || (e == SlotDone && !s.pumping && !s.pumpTimer && s.active - 1 < c.concurrency)
    ensures var s := Run(c, Init(clock), es); ServesHead(c, s, Apply(c, s, e))
  {
    var s := Run(c, Init(clock), es);
    RunOrderly(c, Init(clock), es);
    ItemsStep(c, s, e);
    match e
    case FinishReturned => LoopServesHead(c, s, s);
    case PumpTimer => LoopServesHead(c, s, s.(pumpTimer := false, pumping := true));
    case SlotDone => LoopServesHead(c, s, ReleaseSlot(s).(pumping := true));
  }

  // ---------------------------------------------------------------- where successes come from

  /** What was recorded is a failure, if it is new. */
  predicate OnlyFailures(before: map<string, Response>, after: map<string, Response>) {
    forall k :: k in after && after[k].ok ==> k in before && before[k] == after[k]
  }

  lemma {:induction false} PumpLoopOnlyFails(c: Config, s: State)
    ensures OnlyFailures(s.results, PumpLoop(c, s).results)
    decreases |s.queue|
  {
    if s.active < c.concurrency && s.queue != [] && !Expired(s.queue[0], s.clock) && !c.limited {
      PumpLoopOnlyFails(c, Start(s.(queue := s.queue[1..]), s.queue[0]));
    }
  }

  lemma PumpOnlyFails(c: Config, s: State)
    ensures OnlyFailures(s.results, Pump(c, s).results)
  {
    PumpLoopOnlyFails(c, s.(pumping := true));
  }

  /** A key gets a successful result only when the adapter returns for the item of that key. */
  lemma SuccessIsAdapters(c: Config, s: State, e: Event, k: string)
    requires Enabled(s, e) && k in Apply(c, s, e).results && Apply(c, s, e).results[k].ok
    requires k in s.results ==> s.results[k] != Apply(c, s, e).results[k]
    ensures e.Complete? && e.reply.Returns? && s.running[e.slot].dedupKey == Some(k)
  {
    if e.Complete? {
      CompleteRecords(c, s, e.slot, e.reply, k);
    } else {
      OthersOnlyFail(c, s, e);
    }
  }

  lemma CompleteRecords(c: Config, s: State, slot: nat, r: AdapterReply, k: string)
    requires slot < |s.running|
    ensures var results := OnComplete(c, s, slot, r).results;
      k in results && results[k].ok && (k in s.results ==> s.results[k] != results[k]) ==>
        r.Returns? && s.running[slot].dedupKey == Some(k)
  {
  }

  lemma OthersOnlyFail(c: Config, s: State, e: Event)
    requires Enabled(s, e) && !e.Complete?
    ensures OnlyFailures(s.results, Apply(c, s, e).results)
  {
    match e
    case Receive(m) => PumpOnlyFails(c, Accept(s, m));
    case Decide(d) => DecideOnlyFails(c, s, d);
    case FinishReturned => PumpLoopOnlyFails(c, s);
    case PumpTimer => PumpOnlyFails(c, s.(pumpTimer := false));
    case SlotDone => PumpOnlyFails(c, ReleaseSlot(s));
    case RetryTimer(t) => PumpOnlyFails(c, Requeue(s, t));
    case _ =>
  }

  lemma DecideOnlyFails(c: Config, s: State, d: Decision)
    requires s.pump.AwaitDecision?
    ensures OnlyFailures(s.results, OnDecide(c, s, d).results)
  {
    if d == Allow { PumpLoopOnlyFails(c, Start(s.(pump := Off), s.pump.item)); }
  }

  // ---------------------------------------------------------------- what an item carries

  /** An accepted message and when it came */
  datatype Arrival = Arrival(m: Message, at: int)

  /** The message accepted by this event, if it is one */
  function ArrivedBy(c: Config, s: State, e: Event): seq<Arrival> {
    if e.Receive? && Enqueue(c, s, e.m).1.Accepted? then [Arrival(e.m, s.clock)] else []
  }

  /** The messages a run accepted, in their order: the call numbers are their positions. */
  function Arrivals(c: Config, s: State, es: seq<Event>): seq<Arrival>
    requires Allowed(c, s, es)
    decreases |es|
  {
    if es == [] then [] else ArrivedBy(c, s, es[0]) + Arrivals(c, Apply(c, s, es[0]), es[1..])
  }

  /** The item is its message's. */
  predicate Carries(x: Item, came: seq<Arrival>) {
    && x.id < |came|
    && x.requestId == came[x.id].m.requestId && x.dedupKey == came[x.id].m.dedupKey && x.bulk == came[x.id].m.bulk
    && x.deadlineAt == came[x.id].m.deadlineAt && x.enqueuedAt == came[x.id].at
  }

  ghost predicate AllCarry(q: seq<Item>, came: seq<Arrival>) { forall x :: x in q ==> Carries(x, came) }

  ghost predicate Traced(s: State, came: seq<Arrival>) {
    && s.nextId == |came|
    && AllCarry(s.queue, came) && AllCarry(Held(s.pump), came) && AllCarry(s.running, came) && AllCarry(s.retries, came)
  }

  lemma StartTraced(s: State, came: seq<Arrival>, item: Item)
    requires Traced(s, came) && Carries(item, came)
    ensures Traced(Start(s, item), came)
  {
    forall x | x in Start(s, item).running ensures Carries(x, came) {
      assert x in s.running || x == item.(attempts := item.attempts + 1);
    }
  }

  lemma {:induction false} PumpLoopTraced(c: Config, s: State, came: seq<Arrival>)
    requires Traced(s, came)
    ensures Traced(PumpLoop(c, s), came)
    decreases |s.queue|
  {
    if s.active < c.concurrency && s.queue != [] {
      assert s.queue[0] in s.queue;
      if !Expired(s.queue[0], s.clock) && !c.limited {
        StartTraced(s.(queue := s.queue[1..]), came, s.queue[0]);
        PumpLoopTraced(c, Start(s.(queue := s.queue[1..]), s.queue[0]), came);
      }
    }
  }

  lemma PumpTraced(c: Config, s: State, came: seq<Arrival>)
    requires Traced(s, came)
    ensures Traced(Pump(c, s), came)
  {
    PumpLoopTraced(c, s.(pumping := true), came);
  }

  lemma MoreCame(q: seq<Item>, came: seq<Arrival>, a: Arrival)
    requires AllCarry(q, came)
    ensures AllCarry(q, came + [a])
  {
  }

  lemma AcceptTraced(s: State, came: seq<Arrival>, m: Message)
    requires Traced(s, came)
    ensures Traced(Accept(s, m), came + [Arrival(m, s.clock)])
  {
    var x, more := NewItem(s, m), came + [Arrival(m, s.clock)];
    MoreCame(s.queue, came, Arrival(m, s.clock));
    MoreCame(Held(s.pump), came, Arrival(m, s.clock));
    MoreCame(s.running, came, Arrival(m, s.clock));
    MoreCame(s.retries, came, Arrival(m, s.clock));
    SortQueueSorts(s.queue + [x]);
    assert Carries(x, more);
  }

  lemma RequeueTraced(s: State, came: seq<Arrival>, t: nat)
    requires Traced(s, came) && t < |s.retries|
    ensures Traced(Requeue(s, t), came)
  {
    SortQueueSorts(s.queue + [s.retries[t]]);
    assert s.retries[t] in s.retries;
  }

  lemma DecideTraced(c: Config, s: State, came: seq<Arrival>, d: Decision)
    requires Traced(s, came) && s.pump.AwaitDecision?
    ensures Traced(OnDecide(c, s, d), came)
  {
    assert s.pump.item in Held(s.pump);
    if d == Allow {
      StartTraced(s.(pump := Off), came, s.pump.item);
      PumpLoopTraced(c, Start(s.(pump := Off), s.pump.item), came);
    }
  }

  lemma CompleteTraced(c: Config, s: State, came: seq<Arrival>, slot: nat, r: AdapterReply)
    requires Traced(s, came) && slot < |s.running|
    ensures Traced(OnComplete(c, s, slot, r), came)
  {
    var item, s' := s.running[slot], OnComplete(c, s, slot, r);
    assert item in s.running;
    assert AllCarry(Without(s.running, slot), came);
    assert AllCarry(s.retries + [item], came);
    assert s'.retries == s.retries || s'.retries == s.retries + [item];
  }

  lemma ReceiveTraced(c: Config, s: State, came: seq<Arrival>, m: Message)
    requires Traced(s, came)
    ensures Traced(Enqueue(c, s, m).0, came + ArrivedBy(c, s, Receive(m)))
  {
    if |s.queue| < c.maxQueueSize && Claim(s, m).None? {
      AcceptTraced(s, came, m);
      PumpTraced(c, Accept(s, m), came + [Arrival(m, s.clock)]);
    } else {
      assert came + [] == came;
    }
  }

  lemma TracedStep(c: Config, s: State, came: seq<Arrival>, e: Event)
    requires Traced(s, came) && Enabled(s, e)
    ensures Traced(Apply(c, s, e), came + ArrivedBy(c, s, e))
  {
    assert came + [] == came;
    match e
    case Receive(m) => ReceiveTraced(c, s, came, m);
    case Decide(d) => DecideTraced(c, s, came, d);
    case FinishReturned => PumpLoopTraced(c, s, came);
    case PumpTimer => PumpTraced(c, s.(pumpTimer := false), came);
    case SlotDone => PumpTraced(c, ReleaseSlot(s), came);
    case RetryTimer(t) => RequeueTraced(s, came, t); PumpTraced(c, Requeue(s, t), came);
    case Complete(slot, r) => CompleteTraced(c, s, came, slot, r);
    case _ =>
  }

  lemma {:induction false} RunTraced(c: Config, s: State, came: seq<Arrival>, es: seq<Event>)
    requires Traced(s, came) && Allowed(c, s, es)
    ensures Traced(Run(c, s, es), came + Arrivals(c, s, es))
    decreases |es|
  {
    if es == [] {
      assert came + [] == came;
    } else {
      var s1, first := Apply(c, s, es[0]), ArrivedBy(c, s, es[0]);
      TracedStep(c, s, came, es[0]);
      RunTraced(c, s1, came + first, es[1..]);
      assert came + (first + Arrivals(c, s1, es[1..])) == came + first + Arrivals(c, s1, es[1..]);
    }
  }

  /** Wherever an unfinished item is, it carries the fields of the message it was accepted for, the time of its
      arrival as its place in the order, and as attempts the adapter calls made for it. */
  lemma ItemsCarryMessages(c: Config, clock: int, es: seq<Event>, x: Item)
    requires Allowed(c, Init(clock), es) && x in Live(Run(c, Init(clock), es))
    ensures Carries(x, Arrivals(c, Init(clock), es))
    ensures x.attempts == Count(Run(c, Init(clock), es).runs, x.id)
  {
    RunOrderly(c, Init(clock), es);
    RunTraced(c, Init(clock), [], es);
    assert [] + Arrivals(c, Init(clock), es) == Arrivals(c, Init(clock), es);
  }

  // ---------------------------------------------------------------- the place in the queue

  lemma {:induction false} ArrivedBefore(c: Config, s: State, es: seq<Event>)
    requires Allowed(c, s, es)
    ensures s.clock <= Run(c, s, es).clock
    ensures forall a :: a in Arrivals(c, s, es) ==> a.at <= Run(c, s, es).clock
    decreases |es|
  {
    if es != [] {
      ClockStep(c, s, es[0]);
      ArrivedBefore(c, Apply(c, s, es[0]), es[1..]);
    }
  }

  lemma ClockStep(c: Config, s: State, e: Event)
    requires Enabled(s, e)
    ensures s.clock <= Apply(c, s, e).clock
  {
    match e
    case Receive(m) => PumpClock(c, Accept(s, m));
    case Decide(d) => if d == Allow { LoopClock(c, Start(s.(pump := Off), s.pump.item)); }
    case FinishReturned => LoopClock(c, s);
    case PumpTimer => PumpClock(c, s.(pumpTimer := false));
    case SlotDone => PumpClock(c, ReleaseSlot(s));
    case RetryTimer(t) => PumpClock(c, Requeue(s, t));
    case _ =>
  }

  lemma {:induction false} LoopClock(c: Config, s: State)
    ensures PumpLoop(c, s).clock == s.clock
    decreases |s.queue|
  {
    if s.active < c.concurrency && s.queue != [] && !Expired(s.queue[0], s.clock) && !c.limited {
      LoopClock(c, Start(s.(queue := s.queue[1..]), s.queue[0]));
    }
  }

  lemma PumpClock(c: Config, s: State)
    ensures Pump(c, s).clock == s.clock
  {
    LoopClock(c, s.(pumping := true));
  }

  lemma {:induction false} LastPosition(q: seq<Item>, x: Item)
    requires forall y :: y in q ==> y.id != x.id
    ensures Position(q + [x], x.id) == |q| + 1
    decreases |q|
  {
    if q == [] {
      assert q + [x] == [x];
    } else {
      assert (q + [x])[0] == q[0] && (q + [x])[1..] == q[1..] + [x];
      LastPosition(q[1..], x);
    }
  }

  lemma NewestLast(q: seq<Item>, x: Item)
    requires forall y :: y in q ==> y.enqueuedAt <= x.enqueuedAt
    ensures SortQueue(q + [x]) == SortQueue(q) + [x]
  {
    SortQueueSorts(q);
    assert (q + [x])[..|q|] == q;
    var sorted := SortQueue(q);
    if sorted != [] { assert sorted[|sorted| - 1] in q; }
  }

  /** An accepted message is told the number of messages accepted before it as its id, and the end of the queue as
      its place: whatever its priority, it goes behind everything that waits. */
  lemma AcceptedLast(c: Config, clock: int, es: seq<Event>, m: Message)
    requires Allowed(c, Init(clock), es)
    ensures var s := Run(c, Init(clock), es); var reply := Enqueue(c, s, m).1;
      reply.Accepted? ==> reply == Accepted(|Arrivals(c, Init(clock), es)|, |s.queue| + 1)
  {
    var s, came := Run(c, Init(clock), es), Arrivals(c, Init(clock), es);
    RunTraced(c, Init(clock), [], es);
    assert [] + came == came;
    ArrivedBefore(c, Init(clock), es);
    var x := NewItem(s, m);
    forall y | y in s.queue ensures y.enqueuedAt <= x.enqueuedAt && y.id != x.id {
      assert Carries(y, came) && came[y.id] in came;
    }
    NewestLast(s.queue, x);
    SortQueueSorts(s.queue);
    LastPosition(SortQueue(s.queue), x);
  }

  /** What joins a queue that the pump is not working on comes into the order of arrival, and everything else stays:
      a retry with the time it first came. */
  lemma JoinsInOrder(c: Config, s: State, e: Event)
    requires Enabled(s, e) && s.pumping && (e.RetryTimer? || (e.Receive? && Enqueue(c, s, e.m).1.Accepted?))
    ensures var s1 := Apply(c, s, e); var item := if e.RetryTimer? then s.retries[e.timer] else NewItem(s, e.m);
      Sorted(s1.queue) && multiset(s1.queue) == multiset(s.queue) + multiset{item}
    ensures e.RetryTimer? ==> multiset(s.retries) == multiset(Apply(c, s, e).retries) + multiset{s.retries[e.timer]}
  {
    var item := if e.RetryTimer? then s.retries[e.timer] else NewItem(s, e.m);
    SortQueueSorts(s.queue + [item]);
    if e.RetryTimer? { WithoutOne(s.retries, e.timer); }
  }
}
