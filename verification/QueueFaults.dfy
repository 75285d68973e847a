/**
  Runs from the empty queue that show what single faults do to requests, slots and the limits.
 */
module QueueFaults {
  import opened QueueModel
  import opened QueueCapacity

  /** A crash between INCR and XADD: nothing is stored, yet one slot is taken for good. */
  lemma CrashLeaksSlot(c: Config, item: Item) returns (es: seq<Event>)
    requires c.maxQueueSize > 0 && item.attempts == 0
    ensures Allowed(c, Init(0), es)
    ensures var s := Run(c, Init(0), es);
      s.redis == Redis(1, 0, map[], map[], map[]) && s.enqueuers == map[] && s.dispatches == map[]
  {
    Extend(c, Init(0), [], Incr(0, item, Done));
    es := [Incr(0, item, Done)];
    assert [] + es == es;
    var s1 := Run(c, Init(0), es);
    assert s1.redis == Redis(1, 0, map[], map[], map[]) && s1.dispatches == map[];
    assert s1.enqueuers == map[0 := Enqueuer(0, item, Reserved)];
    assert OnCrash(s1, 0).enqueuers == map[] && OnCrash(s1, 0).dispatches == map[];
    Extend(c, Init(0), es, Crash(0));
    es := es + [Crash(0)];
  }

  lemma Appended(c: Config, s: State, es: seq<Event>, e: Event) returns (all: seq<Event>)
    requires Allowed(c, s, es) && Enabled(c, Run(c, s, es), e)
    ensures Allowed(c, s, all) && Run(c, s, all) == Apply(c, Run(c, s, es), e)
  {
    Extend(c, s, es, e);
    all := es + [e];
  }

  /** The state after a request was stored */
  function Stored(item: Item): State {
    Init(0).(redis := Redis(1, 1, map[0 := Entry(item.request.priority, item, false)], map[], map[]),
             nextCall := 1,
             used := {item.request},
             landed := {item.request})
  }

  /** ... its message received ... */
  function Received(item: Item): State {
    Stored(item).(redis := Redis(1, 1, map[0 := Entry(item.request.priority, item, true)], map[], map[]),
                  nextCall := 2,
                  dispatches := map[1 := Dispatch(0, 0, item, Taken)])
  }

  /** ... and its handler started */
  function Started(item: Item): State {
    Received(item).(dispatches := map[1 := Dispatch(0, 0, item, Running)])
  }

  lemma StoredReached(c: Config, item: Item) returns (es: seq<Event>)
    requires c.maxQueueSize > 0 && item.attempts == 0
    ensures Allowed(c, Init(0), es) && Run(c, Init(0), es) == Stored(item)
  {
    es := Appended(c, Init(0), [], Incr(0, item, Done));
    assert Run(c, Init(0), es).enqueuers == map[0 := Enqueuer(0, item, Reserved)];
    es := Appended(c, Init(0), es, XAdd(0, Done));
    assert Run(c, Init(0), es).redis.entries == map[0 := Entry(item.request.priority, item, false)];
    assert Run(c, Init(0), es).enqueuers == map[];
  }

  lemma MessageReceived(c: Config, item: Item)
    ensures Enabled(c, Stored(item), Fetch(0, [0], Done))
    ensures Apply(c, Stored(item), Fetch(0, [0], Done)) == Received(item)
  {
    var s := Stored(item);
    assert From(s.redis, [0], item.request.priority, false);
    OneDelivered(s.redis.entries, item, 0, 1);
    assert s.dispatches + map[1 := Dispatch(0, 0, item, Taken)] == map[1 := Dispatch(0, 0, item, Taken)];
  }

  lemma StartedReached(c: Config, item: Item) returns (es: seq<Event>)
    requires c.maxQueueSize > 0 && item.attempts == 0
    ensures Allowed(c, Init(0), es) && Run(c, Init(0), es) == Started(item)
  {
    es := StoredReached(c, item);
    MessageReceived(c, item);
    es := Appended(c, Init(0), es, Fetch(0, [0], Done));
    es := Appended(c, Init(0), es, Begin(1));
    assert SetPc(Received(item).dispatches, 1, Running) == Started(item).dispatches;
  }

  lemma OneDelivered(es: map<nat, Entry>, item: Item, p: nat, first: nat)
    requires es.Keys == {0} && es[0].item == item && es[0].stream == item.request.priority
    ensures Deliver(es, [0]) == map[0 := Entry(item.request.priority, item, true)]
    ensures Handlers(es, p, first, [0]) == map[first := Dispatch(p, 0, item, Taken)]
  {
    assert 0 in [0];
    var ds := Handlers(es, p, first, [0]);
    assert ds.Keys == {first};
    assert [0][first - first] == 0;
  }

  /** A response that is persisted but whose reply is lost is answered a second time. */
  lemma PersistenceFailureAnswersTwice(c: Config, item: Item) returns (es: seq<Event>)
    requires c.maxQueueSize > 0 && item.attempts == 0
    ensures Allowed(c, Init(0), es)
    ensures Count(Run(c, Init(0), es).answered, item.request) == 2
  {
    es := StartedReached(c, item);
    Extend(c, Init(0), es, Execute(1));
    es := es + [Execute(1)];
    Extend(c, Init(0), es, Respond(1, ReplyLost));
    es := es + [Respond(1, ReplyLost)];
    Extend(c, Init(0), es, Respond(1, Done));
    es := es + [Respond(1, Done)];
  }

  /** ... after its rate-limited handler passed the slot on ... */
  function SlotLent(item: Item): State {
    Started(item).(redis := Redis(1, 1, map[0 := Entry(item.request.priority, item, true)],
                                  map[item.request := 0], map[item.request := Payload(item, 0)]),
                   dispatches := map[1 := Dispatch(0, 0, item, Deferred(1))],
                   nextSerial := 1)
  }

  lemma PassesOn(c: Config, item: Item)
    ensures Apply(c, Started(item), Reschedule(1, 0, Done)) == SlotLent(item)
  {
    var s := Started(item);
    assert HandedOver(s.dispatches) == {} && 0 in Owned(s);
    assert s.landed + {item.request} == s.landed;
  }

  lemma AckFails(c: Config, item: Item)
    ensures Apply(c, SlotLent(item), XAck(1, NoEffect)) == SlotLent(item).(dispatches := map[], drift := -1)
  {
    var ds := SlotLent(item).dispatches;
    assert Drop(ds, 1) == map[] && HandedOver(Drop(ds, 1)) == {};
  }

  lemma Promotes(c: Config, item: Item)
    ensures var s0 := SlotLent(item).(dispatches := map[], drift := -1);
      var s1 := Apply(c, s0, Scan(0));
      Enabled(c, s1, Promote(0, item.request, Done)) && Apply(c, s1, Promote(0, item.request, Done)).drift == -1
      && Apply(c, s1, Promote(0, item.request, Done)).redis.depth == 1
      && Apply(c, s1, Promote(0, item.request, Done)).dispatches == map[]
      && Apply(c, s1, Promote(0, item.request, Done)).redis.entries
         == map[0 := Entry(item.request.priority, item, true), 1 := Entry(item.request.priority, item, false)]
  {
  }

  /** A failed XACK after the hand-over leaves the original pending beside its promoted retry,
      and one slot now covers both. */
  lemma FailedAckDoublesCopy(c: Config, item: Item) returns (es: seq<Event>)
    requires c.maxQueueSize > 0 && item.attempts == 0
    ensures Allowed(c, Init(0), es)
    ensures var s := Run(c, Init(0), es);
      && s.redis.entries == map[0 := Entry(item.request.priority, item, true),
                                1 := Entry(item.request.priority, item, false)]
      && s.dispatches == map[] && s.redis.depth == 1 && s.drift == -1
  {
    es := StartedReached(c, item);
    Extend(c, Init(0), es, Reschedule(1, 0, Done));
    PassesOn(c, item);
    es := es + [Reschedule(1, 0, Done)];
    Extend(c, Init(0), es, XAck(1, NoEffect));
    AckFails(c, item);
    es := es + [XAck(1, NoEffect)];
    es := Promoted(c, item, es);
  }

  lemma Promoted(c: Config, item: Item, before: seq<Event>) returns (es: seq<Event>)
    requires Allowed(c, Init(0), before)
    requires Run(c, Init(0), before) == SlotLent(item).(dispatches := map[], drift := -1)
    ensures Allowed(c, Init(0), es)
    ensures var s := Run(c, Init(0), es);
      && s.redis.entries == map[0 := Entry(item.request.priority, item, true),
                                1 := Entry(item.request.priority, item, false)]
      && s.dispatches == map[] && s.redis.depth == 1 && s.drift == -1
  {
    Promotes(c, item);
    Extend(c, Init(0), before, Scan(0));
    es := before + [Scan(0)];
    Extend(c, Init(0), es, Promote(0, item.request, Done));
    es := es + [Promote(0, item.request, Done)];
  }

  /** The one entry of `item` is with these dispatches, and its adapter was called `k` times. */
  ghost predicate Handling(s: State, item: Item, ds: map<nat, Dispatch>, k: nat) {
    && s.redis.entries == map[0 := Entry(item.request.priority, item, true)]
    && s.dispatches == ds && Count(s.runs, item.request) == k
  }

  /** A process reclaims the entry. */
  lemma Reclaims(c: Config, s: State, item: Item, ds: map<nat, Dispatch>, k: nat, p: nat)
    requires Handling(s, item, ds, k) && s.nextCall !in ds
    ensures Enabled(c, s, Fetch(p, [0], Done))
    ensures var s' := Apply(c, s, Fetch(p, [0], Done));
      Handling(s', item, ds[s.nextCall := Dispatch(p, 0, item, Taken)], k) && s'.nextCall == s.nextCall + 1
  {
    assert From(s.redis, [0], item.request.priority, true);
    OneDelivered(s.redis.entries, item, p, s.nextCall);
    assert ds + map[s.nextCall := Dispatch(p, 0, item, Taken)] == ds[s.nextCall := Dispatch(p, 0, item, Taken)];
  }

  lemma Begins(c: Config, s: State, item: Item, ds: map<nat, Dispatch>, k: nat, n: nat)
    requires Handling(s, item, ds, k) && n in ds && ds[n].pc == Taken
    ensures Enabled(c, s, Begin(n))
    ensures var s' := Apply(c, s, Begin(n));
      Handling(s', item, ds[n := ds[n].(pc := Running)], k) && s'.nextCall == s.nextCall
  {
  }

  /** Another process that reclaims the entry - the first one's handler being slow - puts a second handler
      to work on the request. */
  lemma ReclaimDoublesHandler(c: Config, item: Item) returns (es: seq<Event>)
    requires c.maxQueueSize > 0 && item.attempts == 0
    ensures Allowed(c, Init(0), es)
    ensures Run(c, Init(0), es).dispatches
            == map[1 := Dispatch(0, 0, item, Running), 2 := Dispatch(1, 0, item, Running)]
  {
    es := StartedReached(c, item);
    Reclaims(c, Started(item), item, Started(item).dispatches, 0, 1);
    es := Appended(c, Init(0), es, Fetch(1, [0], Done));
    var ds := Started(item).dispatches[2 := Dispatch(1, 0, item, Taken)];
    Begins(c, Run(c, Init(0), es), item, ds, 0, 2);
    es := Appended(c, Init(0), es, Begin(2));
    assert ds[2 := ds[2].(pc := Running)] == map[1 := Dispatch(0, 0, item, Running),
                                                 2 := Dispatch(1, 0, item, Running)];
  }

  lemma Calls(c: Config, s: State, item: Item, k: nat, n: nat)
    requires Handling(s, item, map[n := Dispatch(0, 0, item, Running)], k)
    ensures Enabled(c, s, Execute(n))
    ensures var s' := Apply(c, s, Execute(n)); var more := item.(attempts := item.attempts + 1);
      Handling(s', item, map[n := Dispatch(0, 0, more, Executing)], k + 1) && s'.nextCall == s.nextCall
  {
    var more := item.(attempts := item.attempts + 1);
    assert s.dispatches[n := Dispatch(0, 0, more, Executing)] == map[n := Dispatch(0, 0, more, Executing)];
  }

  /** The process crashes in the middle of the call. */
  lemma Crashes(c: Config, s: State, item: Item, d: Dispatch, k: nat, n: nat)
    requires Handling(s, item, map[n := d], k) && d.process == 0
    ensures var s' := Apply(c, s, Crash(0)); Handling(s', item, map[], k) && s'.nextCall == s.nextCall
  {
    assert OnCrash(s, 0).dispatches == map[] by {
      assert OnCrash(s, 0).dispatches.Keys == {};
    }
  }

  lemma CallsThenCrashes(c: Config, s0: State, before: seq<Event>, item: Item, k: nat, n: nat) returns (es: seq<Event>)
    requires Allowed(c, s0, before)
    requires Handling(Run(c, s0, before), item, map[n := Dispatch(0, 0, item, Running)], k)
    ensures Allowed(c, s0, es) && Run(c, s0, es).nextCall == Run(c, s0, before).nextCall
    ensures Handling(Run(c, s0, es), item, map[], k + 1)
  {
    Calls(c, Run(c, s0, before), item, k, n);
    es := Appended(c, s0, before, Execute(n));
    Crashes(c, Run(c, s0, es), item, Dispatch(0, 0, item.(attempts := item.attempts + 1), Executing), k + 1, n);
    es := Appended(c, s0, es, Crash(0));
  }

  lemma TakenUpAgain(c: Config, s0: State, before: seq<Event>, item: Item, k: nat) returns (es: seq<Event>)
    requires Allowed(c, s0, before) && Handling(Run(c, s0, before), item, map[], k)
    ensures Allowed(c, s0, es) && Run(c, s0, es).nextCall == Run(c, s0, before).nextCall + 1
    ensures Handling(Run(c, s0, es), item, map[Run(c, s0, before).nextCall := Dispatch(0, 0, item, Running)], k)
  {
    var next := Run(c, s0, before).nextCall;
    Reclaims(c, Run(c, s0, before), item, map[], k, 0);
    es := Appended(c, s0, before, Fetch(0, [0], Done));
    var ds := map[next := Dispatch(0, 0, item, Taken)];
    Begins(c, Run(c, s0, es), item, ds, k, next);
    es := Appended(c, s0, es, Begin(next));
    assert ds[next := ds[next].(pc := Running)] == map[next := Dispatch(0, 0, item, Running)];
  }

  /** Crashes in the middle of adapter calls void the bound on attempts: any number of them is reached. */
  lemma {:induction false} CrashesUnboundAttempts(c: Config, item: Item, k: nat) returns (es: seq<Event>)
    requires c.maxQueueSize > 0 && item.attempts == 0
    ensures Allowed(c, Init(0), es) && Run(c, Init(0), es).nextCall == k + 2
    ensures Handling(Run(c, Init(0), es), item, map[k + 1 := Dispatch(0, 0, item, Running)], k)
    decreases k
  {
    if k == 0 {
      es := StartedReached(c, item);
    } else {
      es := CrashesUnboundAttempts(c, item, k - 1);
      es := CallsThenCrashes(c, Init(0), es, item, k - 1, k);
      es := TakenUpAgain(c, Init(0), es, item, k);
    }
  }

  function Name(n: nat): string { if n == 0 then "" else Name(n - 1) + "x" }

  lemma NameLength(n: nat)
    ensures |Name(n)| == n
  {
  }

  /** `n + k` requests are stored and none is answered, while the counter is `k`. */
  ghost predicate Overfull(s: State, n: nat, k: nat) {
    && s.redis.depth == k && s.answered == map[] && |s.landed| == n + k
    && (forall q :: q in s.enqueuers ==> q < s.nextCall)
    && forall r :: r in s.used || r in s.landed ==> |r.id| < n + k
  }

  /** After this run, which freed `n` slots too early */
  ghost predicate Overfills(c: Config, es: seq<Event>, n: nat, k: nat) {
    Allowed(c, Init(0), es) && Overfull(Run(c, Init(0), es), n, k) && FreedIn(c, Init(0), es) == n
  }

  /** A call went through the limit test with a new request. */
  ghost predicate Entered(s: State, call: nat, item: Item, n: nat, k: nat) {
    && s.redis.depth == k + 1 && s.answered == map[] && |s.landed| == n + k && item.request !in s.landed
    && call in s.enqueuers && s.enqueuers[call].item == item && s.enqueuers[call].pc == Reserved
    && (forall q :: q in s.enqueuers ==> q < s.nextCall)
    && forall r :: r in s.used || r in s.landed || r == item.request ==> |r.id| <= n + k
  }

  lemma Enters(c: Config, s: State, item: Item, n: nat, k: nat)
    requires Overfull(s, n, k) && k < c.maxQueueSize && |item.request.id| == n + k && item.attempts == 0
    ensures Enabled(c, s, Incr(0, item, Done)) && Freed(c, s, Incr(0, item, Done)) == 0
    ensures Entered(Apply(c, s, Incr(0, item, Done)), s.nextCall, item, n, k)
  {
  }

  lemma Stores(c: Config, s: State, call: nat, item: Item, n: nat, k: nat)
    requires Entered(s, call, item, n, k)
    ensures Enabled(c, s, XAdd(call, Done)) && Freed(c, s, XAdd(call, Done)) == 0
    ensures Overfull(Apply(c, s, XAdd(call, Done)), n, k + 1)
  {
    assert OnXAdd(s, call, Done).landed == s.landed + {item.request};
  }

  /** The XADD takes effect, its reply is lost, and the caller gives the slot back. */
  lemma StoresBeyond(c: Config, s: State, call: nat, item: Item, n: nat, k: nat)
    requires Entered(s, call, item, n, k)
    ensures Enabled(c, s, XAdd(call, ReplyLost)) && Freed(c, s, XAdd(call, ReplyLost)) == 1
    ensures var t := Apply(c, s, XAdd(call, ReplyLost));
      Enabled(c, t, Undo(call, Done)) && Freed(c, t, Undo(call, Done)) == 0
      && Overfull(Apply(c, t, Undo(call, Done)), n + 1, k)
  {
    assert OnXAdd(s, call, ReplyLost).landed == s.landed + {item.request};
  }

  lemma AppendedFreed(c: Config, before: seq<Event>, e: Event, freed: nat, t: State) returns (es: seq<Event>)
    requires Allowed(c, Init(0), before) && Enabled(c, Run(c, Init(0), before), e)
    requires Apply(c, Run(c, Init(0), before), e) == t && Freed(c, Run(c, Init(0), before), e) == freed
    ensures Allowed(c, Init(0), es) && Run(c, Init(0), es) == t
    ensures FreedIn(c, Init(0), es) == FreedIn(c, Init(0), before) + freed
  {
    Extend(c, Init(0), before, e);
    FreedSnoc(c, Init(0), before, e);
    es := before + [e];
  }

  lemma EntersRun(c: Config, before: seq<Event>, n: nat, k: nat) returns (es: seq<Event>, call: nat, item: Item)
    requires Overfills(c, before, n, k) && k < c.maxQueueSize
    ensures Allowed(c, Init(0), es) && FreedIn(c, Init(0), es) == n
    ensures Entered(Run(c, Init(0), es), call, item, n, k)
  {
    var s := Run(c, Init(0), before);
    call, item := s.nextCall, Item(Request("", Name(n + k), Normal), 0);
    NameLength(n + k);
    Enters(c, s, item, n, k);
    es := AppendedFreed(c, before, Incr(0, item, Done), 0, Apply(c, s, Incr(0, item, Done)));
  }

  lemma OneMoreStored(c: Config, before: seq<Event>, n: nat, k: nat) returns (es: seq<Event>)
    requires Overfills(c, before, n, k) && k < c.maxQueueSize
    ensures Overfills(c, es, n, k + 1)
  {
    var call, item;
    es, call, item := EntersRun(c, before, n, k);
    var s := Run(c, Init(0), es);
    Stores(c, s, call, item, n, k);
    es := AppendedFreed(c, es, XAdd(call, Done), 0, Apply(c, s, XAdd(call, Done)));
  }

  lemma OneMoreBeyond(c: Config, before: seq<Event>, n: nat, k: nat) returns (es: seq<Event>)
    requires Overfills(c, before, n, k) && k < c.maxQueueSize
    ensures Overfills(c, es, n + 1, k)
  {
    var call, item;
    es, call, item := EntersRun(c, before, n, k);
    var s := Run(c, Init(0), es);
    StoresBeyond(c, s, call, item, n, k);
    var t := Apply(c, s, XAdd(call, ReplyLost));
    es := AppendedFreed(c, es, XAdd(call, ReplyLost), 1, t);
    es := AppendedFreed(c, es, Undo(call, Done), 0, Apply(c, t, Undo(call, Done)));
  }

  lemma {:induction false} Overfilled(c: Config, n: nat, k: nat) returns (es: seq<Event>)
    requires 0 < c.maxQueueSize && k <= c.maxQueueSize
    ensures Overfills(c, es, n, k)
    decreases n + k
  {
    if k > 0 {
      es := Overfilled(c, n, k - 1);
      es := OneMoreStored(c, es, n, k - 1);
    } else if n > 0 {
      es := Overfilled(c, n - 1, 0);
      es := OneMoreBeyond(c, es, n - 1, 0);
    } else {
      es := [];
    }
  }

  /** The bound of `CapacityUnderFaults` is met: for every n, a run with n lost replies of XADD - and no other
      event that frees a slot too early - ends with `maxQueueSize + n` unanswered requests. */
  lemma LostRepliesExceedCapacity(c: Config, n: nat) returns (es: seq<Event>)
    requires c.maxQueueSize > 0
    ensures Allowed(c, Init(0), es) && FreedIn(c, Init(0), es) == n
    ensures |Unanswered(Run(c, Init(0), es))| == c.maxQueueSize + n
    ensures Run(c, Init(0), es).redis.depth == c.maxQueueSize
  {
    es := Overfilled(c, n, c.maxQueueSize);
    assert Unanswered(Run(c, Init(0), es)) == Run(c, Init(0), es).landed;
  }
}
