/**
  The in-memory scheduler over all interleavings: the concurrency bound, no lost wake-up, every
  accepted item in exactly one place and finished at most once, bounded attempts, and at most one
  unfinished item per idempotency key.
 */
module MemorySafety {
  import opened JsText
  import opened MemoryScheduler

  // ---------------------------------------------------------------- the queue's order

  predicate Sorted(q: seq<Item>) { forall i, j :: 0 <= i < j < |q| ==> q[i].enqueuedAt <= q[j].enqueuedAt }

  lemma {:induction false} InsertSorts(q: seq<Item>, x: Item)
    requires Sorted(q)
    ensures Sorted(Insert(q, x)) && |Insert(q, x)| == |q| + 1
    ensures forall y :: y in Insert(q, x) <==> y in q || y == x
    ensures multiset(Insert(q, x)) == multiset(q) + multiset{x}
    decreases |q|
  {
    if q != [] && Compare(q[|q| - 1], x) > 0 {
      var q0, last := q[..|q| - 1], q[|q| - 1];
      InsertSorts(q0, x);
      assert q == q0 + [last];
      forall y | y in Insert(q0, x) ensures y.enqueuedAt <= last.enqueuedAt {
        if y != x {
          var i :| 0 <= i < |q0| && q0[i] == y;
          assert q[i] == y;
        }
      }
    }
  }

  lemma {:induction false} SortQueueSorts(q: seq<Item>)
    ensures Sorted(SortQueue(q)) && multiset(SortQueue(q)) == multiset(q) && |SortQueue(q)| == |q|
    ensures forall y :: y in SortQueue(q) <==> y in q
    decreases |q|
  {
    if q != [] {
      var q0, last := q[..|q| - 1], q[|q| - 1];
      SortQueueSorts(q0);
      InsertSorts(SortQueue(q0), last);
      assert q == q0 + [last];
    }
  }

  /** `q` and then `x`, if it was enqueued at `time` */
  function ThenAt(q: seq<Item>, x: Item, time: int): seq<Item> { if x.enqueuedAt == time then q + [x] else q }

  /** The items enqueued at `time`, in their order */
  function AtTime(q: seq<Item>, time: int): seq<Item> {
    if q == [] then [] else ThenAt(AtTime(q[..|q| - 1], time), q[|q| - 1], time)
  }

  lemma AtTimeSnoc(q: seq<Item>, x: Item, time: int)
    ensures AtTime(q + [x], time) == ThenAt(AtTime(q, time), x, time)
  {
    assert (q + [x])[..|q|] == q;
  }

  lemma {:induction false} InsertStable(q: seq<Item>, x: Item, time: int)
    ensures AtTime(Insert(q, x), time) == ThenAt(AtTime(q, time), x, time)
    decreases |q|
  {
    if q != [] && Compare(q[|q| - 1], x) > 0 {
      var q0, last := q[..|q| - 1], q[|q| - 1];
      assert q == q0 + [last] && Insert(q, x) == Insert(q0, x) + [last];
      InsertStable(q0, x, time);
      AtTimeSnoc(Insert(q0, x), last, time);
      AtTimeSnoc(q0, last, time);
      assert last.enqueuedAt > x.enqueuedAt;
    } else {
      AtTimeSnoc(q, x, time);
      assert Insert(q, x) == q + [x];
    }
  }

  /** Sorting is stable: items enqueued at the same time keep their order. */
  lemma {:induction false} SortQueueStable(q: seq<Item>, time: int)
    ensures AtTime(SortQueue(q), time) == AtTime(q, time)
    decreases |q|
  {
    if q != [] {
      var q0, last := q[..|q| - 1], q[|q| - 1];
      assert q == q0 + [last];
      SortQueueStable(q0, time);
      InsertStable(SortQueue(q0), last, time);
      AtTimeSnoc(q0, last, time);
      assert SortQueue(q) == Insert(SortQueue(q0), last);
    }
  }

  /** No bulk item stands before a normal one. */
  predicate NormalFirst(q: seq<Item>) { forall i, j :: 0 <= i < j < |q| ==> !(q[i].bulk && !q[j].bulk) }

  /** Every normal item was enqueued before every bulk item; at the same time, its position decides. */
  predicate NormalEarlier(q: seq<Item>) {
    forall i, j :: 0 <= i < |q| && 0 <= j < |q| && q[i].bulk && !q[j].bulk ==>
      q[j].enqueuedAt < q[i].enqueuedAt || (q[j].enqueuedAt == q[i].enqueuedAt && j < i)
  }

  /** `x` may follow the items of `q` enqueued no later than it. */
  predicate Fits(q: seq<Item>, x: Item) {
    forall y :: y in q ==>
      (x.bulk && !y.bulk ==> y.enqueuedAt <= x.enqueuedAt) && (!x.bulk && y.bulk ==> x.enqueuedAt < y.enqueuedAt)
  }

  lemma SnocNormalFirst(q: seq<Item>, x: Item)
    ensures NormalFirst(q + [x]) <==> NormalFirst(q) && (x.bulk || forall y :: y in q ==> !y.bulk)
  {
    if NormalFirst(q + [x]) {
      forall i, j | 0 <= i < j < |q| ensures !(q[i].bulk && !q[j].bulk) {
        assert (q + [x])[i] == q[i] && (q + [x])[j] == q[j];
      }
      forall y | y in q ensures x.bulk || !y.bulk {
        var i :| 0 <= i < |q| && q[i] == y;
        assert (q + [x])[i] == y && (q + [x])[|q|] == x;
      }
    }
  }

  lemma {:induction false} InsertNormalFirst(q: seq<Item>, x: Item)
    requires Sorted(q)
    ensures NormalFirst(Insert(q, x)) <==> NormalFirst(q) && Fits(q, x)
    decreases |q|
  {
    if q != [] && Compare(q[|q| - 1], x) > 0 {
      var q0, last := q[..|q| - 1], q[|q| - 1];
      assert q == q0 + [last];
      InsertSorts(q0, x);
      InsertNormalFirst(q0, x);
      SnocNormalFirst(Insert(q0, x), last);
      SnocNormalFirst(q0, last);
      assert Fits(q, x) <==> Fits(q0, x) && (x.bulk ==> last.bulk);
    } else {
      SnocNormalFirst(q, x);
      forall y | y in q ensures y.enqueuedAt <= x.enqueuedAt {
        var i :| 0 <= i < |q| && q[i] == y;
      }
    }
  }

  lemma SnocNormalEarlier(q: seq<Item>, x: Item)
    ensures NormalEarlier(q + [x]) <==> NormalEarlier(q) && Fits(q, x)
  {
    var all := q + [x];
    assert forall i :: 0 <= i < |q| ==> all[i] == q[i];
    if NormalEarlier(all) {
      forall y | y in q
        ensures (x.bulk && !y.bulk ==> y.enqueuedAt <= x.enqueuedAt)
          && (!x.bulk && y.bulk ==> x.enqueuedAt < y.enqueuedAt)
      {
        var i :| 0 <= i < |q| && q[i] == y;
        assert all[i] == y && all[|q|] == x;
      }
    }
  }

  /** The memory queue serves normal items before bulk ones exactly when they were enqueued in that
      order anyway: the declared priority plays no part. */
  lemma {:induction false} NormalFirstIff(q: seq<Item>)
    ensures NormalFirst(SortQueue(q)) <==> NormalEarlier(q)
    decreases |q|
  {
    if q != [] {
      var q0, last := q[..|q| - 1], q[|q| - 1];
      assert q == q0 + [last];
      SortQueueSorts(q0);
      NormalFirstIff(q0);
      InsertNormalFirst(SortQueue(q0), last);
      SnocNormalEarlier(q0, last);
    }
  }

  /** A bulk item enqueued no later than a normal one is served first, whichever joined the array first
      (at the same time: if it did). */
  lemma BulkServedFirst(b: Item, n: Item)
    requires b.bulk && !n.bulk && b.enqueuedAt <= n.enqueuedAt
    ensures SortQueue([b, n]) == [b, n] && !NormalFirst(SortQueue([b, n]))
    ensures b.enqueuedAt < n.enqueuedAt ==> SortQueue([n, b]) == [b, n]
  {
    assert [b, n][..1] == [b] && [n, b][..1] == [n];
    assert SortQueue([b]) == [b] && SortQueue([n]) == [n];
  }

  // ---------------------------------------------------------------- invariants

  /** The concurrency bound, and what makes it hold across the pump's awaits */
  ghost predicate SlotsOk(c: Config, s: State) {
    && s.active == |s.running| + s.draining <= c.concurrency
    && (s.pump.AwaitDecision? ==> s.active < c.concurrency)
    && (s.pumping <==> s.pump != Off)
  }

  /** No lost wake-up */
  ghost predicate Awake(c: Config, s: State) {
    s.queue != [] ==> s.pumping || s.pumpTimer || s.active == c.concurrency
  }

  function CountIn(q: seq<Item>, id: nat): nat {
    if q == [] then 0 else (if q[0].id == id then 1 else 0) + CountIn(q[1..], id)
  }

  function Held(p: PumpPc): seq<Item> { if p.AwaitDecision? then [p.item] else [] }

  /** In how many places the item `id` is */
  function Places(s: State, id: nat): nat {
    CountIn(s.queue, id) + CountIn(Held(s.pump), id) + CountIn(s.running, id) + CountIn(s.retries, id)
    + Count(s.finished, id)
  }

  /** Conservation: every accepted item is in exactly one place, nothing else anywhere. */
  ghost predicate Conserved(s: State) {
    forall id: nat :: Places(s, id) == if id < s.nextId then 1 else 0
  }

  /** Accepted items an adapter is not working on, and those one is working on */
  ghost function Waiting(s: State): multiset<Item> {
    multiset(s.queue) + multiset(Held(s.pump)) + multiset(s.retries)
  }

  ghost function Live(s: State): multiset<Item> { Waiting(s) + multiset(s.running) }

  /** The idempotency tables: an unfinished item's key is in flight under that item; a key in
      flight belongs to an unfinished item; no key is both in flight and answered. */
  ghost predicate KeysOk(live: multiset<Item>, inflight: map<string, Item>, results: map<string, Response>) {
    && (forall item :: item in live && item.dedupKey.Some? ==>
          item.dedupKey.value in inflight && SameCall(inflight[item.dedupKey.value], item))
    && (forall k :: k in inflight ==> k !in results && exists item :: item in live && item.dedupKey == Some(k))
  }

  predicate SameCall(a: Item, b: Item) { a.id == b.id && a.requestId == b.requestId }

  /** Attempts recorded in an item are the adapter calls made for it. */
  ghost predicate AttemptsOk(c: Config, waiting: multiset<Item>, running: multiset<Item>, runs: map<nat, nat>) {
    && (forall item :: item in waiting ==> Count(runs, item.id) == item.attempts <= c.maxAttempts)
    && (forall item :: item in running ==> Count(runs, item.id) == item.attempts)
    && (forall id :: id in runs ==> runs[id] <= c.maxAttempts + 1)
  }

  /** A call number not handed out yet has no adapter calls. */
  ghost predicate FreshOk(runs: map<nat, nat>, nextId: nat) { forall id :: id in runs ==> id < nextId }

  ghost predicate TablesOk(c: Config, waiting: multiset<Item>, running: multiset<Item>,
                           inflight: map<string, Item>, results: map<string, Response>,
                           runs: map<nat, nat>, nextId: nat) {
    && KeysOk(waiting + running, inflight, results)
    && AttemptsOk(c, waiting, running, runs)
    && FreshOk(runs, nextId)
  }

  ghost predicate ItemsOk(c: Config, s: State) {
    TablesOk(c, Waiting(s), multiset(s.running), s.inflight, s.results, s.runs, s.nextId)
  }

  /** What every run keeps */
  ghost predicate Orderly(c: Config, s: State) {
    SlotsOk(c, s) && Awake(c, s) && Conserved(s) && ItemsOk(c, s)
  }

  // ---------------------------------------------------------------- counting

  lemma {:induction false} CountAppend(a: seq<Item>, b: seq<Item>, id: nat)
    ensures CountIn(a + b, id) == CountIn(a, id) + CountIn(b, id)
  {
    if a == [] {
      assert a + b == b;
    } else {
      assert (a + b)[1..] == a[1..] + b;
      CountAppend(a[1..], b, id);
    }
  }

  lemma CountOne(item: Item, id: nat)
    ensures CountIn([item], id) == if item.id == id then 1 else 0
  {
    assert [item][1..] == [];
  }

  lemma CountWithout(q: seq<Item>, i: nat, id: nat)
    requires i < |q|
    ensures CountIn(q, id) == CountIn(Without(q, i), id) + CountIn([q[i]], id)
  {
    assert q == q[..i] + ([q[i]] + q[i + 1..]);
    CountAppend(q[..i], [q[i]] + q[i + 1..], id);
    CountAppend([q[i]], q[i + 1..], id);
    CountAppend(q[..i], q[i + 1..], id);
  }

  lemma {:induction false} CountInsert(q: seq<Item>, x: Item, id: nat)
    ensures CountIn(Insert(q, x), id) == CountIn(q, id) + CountIn([x], id)
    decreases |q|
  {
    CountAppend(q, [x], id);
    if q != [] && Compare(q[|q| - 1], x) > 0 {
      var q0, last := q[..|q| - 1], q[|q| - 1];
      CountInsert(q0, x, id);
      CountAppend(Insert(q0, x), [last], id);
      CountAppend(q0, [last], id);
      assert q == q0 + [last];
    }
  }

  lemma {:induction false} CountSorted(q: seq<Item>, id: nat)
    ensures CountIn(SortQueue(q), id) == CountIn(q, id)
    decreases |q|
  {
    if q != [] {
      var q0, last := q[..|q| - 1], q[|q| - 1];
      CountSorted(q0, id);
      CountInsert(SortQueue(q0), last, id);
      CountAppend(q0, [last], id);
      assert q == q0 + [last];
    }
  }

  lemma {:induction false} CountMember(q: seq<Item>, item: Item)
    requires item in q
    ensures CountIn(q, item.id) > 0
  {
    if q[0] != item {
      assert item in q[1..];
      CountMember(q[1..], item);
    }
  }

  // ---------------------------------------------------------------- the concurrency bound and wake-ups

  /** From inside the pump, whose flag is set, its loop leaves slots and wake-ups in order. */
  lemma {:induction false} PumpLoopAwake(c: Config, s: State)
    requires s.active == |s.running| + s.draining <= c.concurrency && s.pumping
    ensures SlotsOk(c, PumpLoop(c, s)) && Awake(c, PumpLoop(c, s))
    decreases |s.queue|
  {
    if s.active < c.concurrency && s.queue != [] {
      var s1 := s.(queue := s.queue[1..]);
      if !Expired(s.queue[0], s.clock) && !c.limited { PumpLoopAwake(c, Start(s1, s.queue[0])); }
    }
  }

  lemma PumpAwake(c: Config, s: State)
    requires SlotsOk(c, s)
    ensures SlotsOk(c, Pump(c, s)) && Awake(c, Pump(c, s))
  {
    if !s.pumping && !s.pumpTimer && s.queue != [] { PumpLoopAwake(c, s.(pumping := true)); }
  }

  lemma DecideAwake(c: Config, s: State, d: Decision)
    requires SlotsOk(c, s) && s.pump.AwaitDecision?
    ensures SlotsOk(c, OnDecide(c, s, d)) && Awake(c, OnDecide(c, s, d))
  {
    if d == Allow { PumpLoopAwake(c, Start(s.(pump := Off), s.pump.item)); }
  }

  lemma CompleteAwake(c: Config, s: State, slot: nat, r: AdapterReply)
    requires SlotsOk(c, s) && Awake(c, s) && slot < |s.running|
    ensures SlotsOk(c, OnComplete(c, s, slot, r)) && Awake(c, OnComplete(c, s, slot, r))
  {
  }

  lemma AwakeStep(c: Config, s: State, e: Event)
    requires SlotsOk(c, s) && Awake(c, s) && Enabled(s, e)
    ensures SlotsOk(c, Apply(c, s, e)) && Awake(c, Apply(c, s, e))
  {
    match e
    case Receive(m) => if |s.queue| < c.maxQueueSize && Claim(s, m).None? { PumpAwake(c, Accept(s, m)); }
    case Decide(d) => DecideAwake(c, s, d);
    case FinishReturned => PumpLoopAwake(c, s);
    case PumpTimer => PumpAwake(c, s.(pumpTimer := false));
    case Complete(slot, r) => CompleteAwake(c, s, slot, r);
    case SlotDone => PumpAwake(c, ReleaseSlot(s));
    case RetryTimer(t) => PumpAwake(c, Requeue(s, t));
    case _ =>
  }

  // ---------------------------------------------------------------- conservation

  lemma FinishCounts(s: State, item: Item, ok: bool, code: string, id: nat)
    ensures Places(Finish(s, item, ok, code), id) == Places(s, id) + (if item.id == id then 1 else 0)
  {
  }

  lemma StartCounts(s: State, item: Item, id: nat)
    ensures Places(Start(s, item), id) == Places(s, id) + (if item.id == id then 1 else 0)
  {
    CountAppend(s.running, [item.(attempts := item.attempts + 1)], id);
    CountOne(item.(attempts := item.attempts + 1), id);
  }

  /** The head of the queue goes to the adapter, into a response, or into the pump's hands. */
  lemma HeadMoves(s: State, id: nat)
    requires s.queue != [] && !s.pump.AwaitDecision?
    ensures var item, s1 := s.queue[0], s.(queue := s.queue[1..]);
      && Places(Start(s1, item), id) == Places(s, id)
      && Places(Finish(s1, item, false, "DEADLINE_EXCEEDED").(pump := AwaitFinish), id) == Places(s, id)
      && Places(s1.(pump := AwaitDecision(item)), id) == Places(s, id)
  {
    var item, s1 := s.queue[0], s.(queue := s.queue[1..]);
    CountOne(item, id);
    FinishCounts(s1, item, false, "DEADLINE_EXCEEDED", id);
    StartCounts(s1, item, id);
  }

  lemma {:induction false} PumpLoopConserves(c: Config, s: State, id: nat)
    requires !s.pump.AwaitDecision?
    ensures Places(PumpLoop(c, s), id) == Places(s, id) && PumpLoop(c, s).nextId == s.nextId
    decreases |s.queue|
  {
    if s.active < c.concurrency && s.queue != [] {
      HeadMoves(s, id);
      if !Expired(s.queue[0], s.clock) && !c.limited {
        PumpLoopConserves(c, Start(s.(queue := s.queue[1..]), s.queue[0]), id);
      }
    }
  }

  lemma PumpConserves(c: Config, s: State, id: nat)
    requires s.pumping <==> s.pump != Off
    ensures Places(Pump(c, s), id) == Places(s, id) && Pump(c, s).nextId == s.nextId
  {
    if !s.pumping && !s.pumpTimer && s.queue != [] { PumpLoopConserves(c, s.(pumping := true), id); }
  }

  lemma AcceptCounts(s: State, m: Message, id: nat)
    ensures Places(Accept(s, m), id) == Places(s, id) + (if s.nextId == id then 1 else 0)
  {
    CountSorted(s.queue + [NewItem(s, m)], id);
    CountAppend(s.queue, [NewItem(s, m)], id);
  }

  lemma RequeueCounts(s: State, t: nat, id: nat)
    requires t < |s.retries|
    ensures Places(Requeue(s, t), id) == Places(s, id)
  {
    CountSorted(s.queue + [s.retries[t]], id);
    CountAppend(s.queue, [s.retries[t]], id);
    CountWithout(s.retries, t, id);
  }

  /** The adapter's slot, once its call is settled */
  function Freed(s: State, slot: nat): State
    requires slot < |s.running|
  {
    s.(running := Without(s.running, slot), draining := s.draining + 1)
  }

  lemma FreedCounts(s: State, slot: nat, id: nat)
    requires slot < |s.running|
    ensures Places(s, id) == Places(Freed(s, slot), id) + (if s.running[slot].id == id then 1 else 0)
  {
    CountWithout(s.running, slot, id);
    CountOne(s.running[slot], id);
  }

  lemma RetryCounts(s: State, item: Item, id: nat)
    ensures Places(s.(retries := s.retries + [item]), id) == Places(s, id) + (if item.id == id then 1 else 0)
  {
    CountAppend(s.retries, [item], id);
    CountOne(item, id);
  }

  lemma CompleteCounts(c: Config, s: State, slot: nat, r: AdapterReply, id: nat)
    requires slot < |s.running|
    ensures Places(OnComplete(c, s, slot, r), id) == Places(s, id) && OnComplete(c, s, slot, r).nextId == s.nextId
  {
    var item, s1 := s.running[slot], Freed(s, slot);
    FreedCounts(s, slot, id);
    RetryCounts(s1, item, id);
    FinishCounts(s1, item, r.Returns?, if r.Returns? then "" else r.code, id);
  }

  lemma DecideCounts(c: Config, s: State, d: Decision, id: nat)
    requires s.pump.AwaitDecision?
    ensures Places(OnDecide(c, s, d), id) == Places(s, id) && OnDecide(c, s, d).nextId == s.nextId
  {
    var item := s.pump.item;
    CountOne(item, id);
    match d
    case Allow =>
      StartCounts(s.(pump := Off), item, id);
      PumpLoopConserves(c, Start(s.(pump := Off), item), id);
    case Deny => CountAppend([item], s.queue, id);
    case LimiterError => FinishCounts(s, item, false, "RATE_LIMITER_UNAVAILABLE", id);
  }

  /** One item at a time: an event moves it, never copies or drops it. */
  lemma PlacesStep(c: Config, s: State, e: Event, id: nat)
    requires SlotsOk(c, s) && Enabled(s, e)
    ensures var s' := Apply(c, s, e);
      && s.nextId <= s'.nextId
      && Places(s', id) == Places(s, id) + (if s.nextId <= id < s'.nextId then 1 else 0)
  {
    match e
    case Receive(m) =>
      if |s.queue| < c.maxQueueSize && Claim(s, m).None? {
        PumpConserves(c, Accept(s, m), id);
        AcceptCounts(s, m, id);
      }
    case Decide(d) => DecideCounts(c, s, d, id);
    case FinishReturned => PumpLoopConserves(c, s, id);
    case PumpTimer => PumpConserves(c, s.(pumpTimer := false), id);
    case SlotDone => PumpConserves(c, ReleaseSlot(s), id);
    case RetryTimer(t) => PumpConserves(c, Requeue(s, t), id); RequeueCounts(s, t, id);
    case Complete(slot, r) => CompleteCounts(c, s, slot, r, id);
    case _ =>
  }

  // ---------------------------------------------------------------- keys and attempts

  /** Nothing unfinished carries a call number that is in no place. */
  lemma NotLive(s: State, id: nat)
    requires Places(s, id) == 0
    ensures forall item :: item in Waiting(s) || item in s.running ==> item.id != id
  {
    forall item | item in Waiting(s) || item in s.running ensures item.id != id {
      if item.id == id {
        if item in s.queue { CountMember(s.queue, item); }
        if item in Held(s.pump) { CountMember(Held(s.pump), item); }
        if item in s.running { CountMember(s.running, item); }
        if item in s.retries { CountMember(s.retries, item); }
      }
    }
  }

  /** Settling the one item of a key frees the key and records its result. */
  lemma KeysFinish(live: multiset<Item>, item: Item, inflight: map<string, Item>, results: map<string, Response>,
                   r: Response)
    requires KeysOk(live + multiset{item}, inflight, results)
    requires forall other :: other in live ==> other.id != item.id
    ensures item.dedupKey.None? ==> KeysOk(live, inflight, results)
    ensures item.dedupKey.Some? ==>
      KeysOk(live, inflight - {item.dedupKey.value}, results[item.dedupKey.value := r])
  {
    assert item in live + multiset{item};
    forall other | other in live && other.dedupKey.Some?
      ensures other.dedupKey != item.dedupKey && other.dedupKey.value in inflight
      ensures SameCall(inflight[other.dedupKey.value], other)
    {
      assert other in live + multiset{item};
    }
    forall k | k in inflight && Some(k) != item.dedupKey
      ensures k !in results && exists other :: other in live && other.dedupKey == Some(k)
    {
      var other :| other in live + multiset{item} && other.dedupKey == Some(k);
      assert other in live;
    }
  }

  /** Replacing an item by the same call with other attempts keeps the tables. */
  lemma KeysReplace(live: multiset<Item>, item: Item, more: Item, inflight: map<string, Item>, results: map<string,
                    Response>)
    requires KeysOk(live + multiset{item}, inflight, results)
    requires SameCall(item, more) && item.dedupKey == more.dedupKey
    ensures KeysOk(live + multiset{more}, inflight, results)
  {
    assert item in live + multiset{item};
    forall other | other in live + multiset{more} && other.dedupKey.Some?
      ensures other.dedupKey.value in inflight && SameCall(inflight[other.dedupKey.value], other)
    {
      assert other == more || other in live + multiset{item};
    }
    forall k | k in inflight
      ensures k !in results && exists other :: other in live + multiset{more} && other.dedupKey == Some(k)
    {
      var other :| other in live + multiset{item} && other.dedupKey == Some(k);
      assert (if other == item then more else other) in live + multiset{more};
    }
  }

  lemma KeysClaim(live: multiset<Item>, item: Item, inflight: map<string, Item>, results: map<string, Response>)
    requires KeysOk(live, inflight, results)
    requires item.dedupKey.Some? ==> item.dedupKey.value !in inflight && item.dedupKey.value !in results
    ensures item.dedupKey.None? ==> KeysOk(live + multiset{item}, inflight, results)
    ensures item.dedupKey.Some? ==> KeysOk(live + multiset{item}, inflight[item.dedupKey.value := item], results)
  {
    forall k | k in inflight || Some(k) == item.dedupKey
      ensures k !in results && exists other :: other in live + multiset{item} && other.dedupKey == Some(k)
    {
      var other :| (other == item || other in live) && other.dedupKey == Some(k);
      assert other in live + multiset{item};
    }
  }

  lemma AttemptsStart(c: Config, waiting: multiset<Item>, running: multiset<Item>, runs: map<nat, nat>, item: Item,
                      more: Item)
    requires AttemptsOk(c, waiting, running, runs)
    requires forall other :: other in waiting || other in running ==> other.id != item.id
    requires Count(runs, item.id) == item.attempts <= c.maxAttempts
    requires more == item.(attempts := item.attempts + 1)
    ensures AttemptsOk(c, waiting, running + multiset{more}, Bump(runs, item.id))
  {
    forall other | other in running + multiset{more} ensures Count(Bump(runs, item.id), other.id) == other.attempts {
      assert other == more || other in running;
    }
  }

  /** `item` has just been taken out of `s`: it is in no place, and the rest is in order. */
  ghost predicate Out(c: Config, s: State, item: Item) {
    && Places(s, item.id) == 0 && item.id < s.nextId
    && TablesOk(c, Waiting(s) + multiset{item}, multiset(s.running), s.inflight, s.results, s.runs, s.nextId)
  }

  lemma FinishItems(c: Config, s: State, item: Item, ok: bool, code: string)
    requires Places(s, item.id) == 0
    requires KeysOk(Live(s) + multiset{item}, s.inflight, s.results)
    requires AttemptsOk(c, Waiting(s), multiset(s.running), s.runs) && FreshOk(s.runs, s.nextId)
    ensures ItemsOk(c, Finish(s, item, ok, code))
  {
    NotLive(s, item.id);
    KeysFinish(Live(s), item, s.inflight, s.results, Response(item.requestId, None, ok, code));
  }

  lemma StartTables(c: Config, w: multiset<Item>, r: multiset<Item>, item: Item, more: Item,
                    inflight: map<string, Item>, results: map<string, Response>, runs: map<nat, nat>, nextId: nat)
    requires TablesOk(c, w + multiset{item}, r, inflight, results, runs, nextId)
    requires forall other :: other in w || other in r ==> other.id != item.id
    requires more == item.(attempts := item.attempts + 1) && item.id < nextId
    ensures TablesOk(c, w, r + multiset{more}, inflight, results, Bump(runs, item.id), nextId)
  {
    TakenOut(c, w, r, item, inflight, results, runs, nextId);
    KeysReplace(w + r, item, more, inflight, results);
    AttemptsStart(c, w, r, runs, item, more);
    assert w + r + multiset{more} == w + (r + multiset{more});
  }

  lemma StartItems(c: Config, s: State, item: Item)
    requires Out(c, s, item)
    ensures ItemsOk(c, Start(s, item))
  {
    NotLive(s, item.id);
    var more := item.(attempts := item.attempts + 1);
    StartTables(c, Waiting(s), multiset(s.running), item, more, s.inflight, s.results, s.runs, s.nextId);
    StartShape(s, item, more);
  }

  lemma StartShape(s: State, item: Item, more: Item)
    requires more == item.(attempts := item.attempts + 1)
    ensures Waiting(Start(s, item)) == Waiting(s)
    ensures multiset(Start(s, item).running) == multiset(s.running) + multiset{more}
    ensures Start(s, item).runs == Bump(s.runs, item.id)
  {
  }

  lemma TakenOut(c: Config, w: multiset<Item>, r: multiset<Item>, item: Item,
                 inflight: map<string, Item>, results: map<string, Response>, runs: map<nat, nat>, nextId: nat)
    requires TablesOk(c, w + multiset{item}, r, inflight, results, runs, nextId)
    ensures KeysOk(w + r + multiset{item}, inflight, results)
    ensures AttemptsOk(c, w, r, runs)
    ensures Count(runs, item.id) == item.attempts <= c.maxAttempts
  {
    assert w + multiset{item} + r == w + r + multiset{item};
    assert item in w + multiset{item};
    forall other | other in w ensures other in w + multiset{item} {}
  }

  lemma PlacesStart(s: State, item: Item)
    requires forall id: nat :: Places(s, id) == if id < s.nextId && id != item.id then 1 else 0
    requires item.id < s.nextId
    ensures Conserved(Start(s, item))
  {
    forall id: nat ensures Places(Start(s, item), id) == if id < s.nextId then 1 else 0 {
      StartCounts(s, item, id);
    }
  }

  /** Taking the head off the queue */
  lemma HeadOut(c: Config, s: State)
    requires Conserved(s) && ItemsOk(c, s) && s.queue != []
    ensures Out(c, s.(queue := s.queue[1..]), s.queue[0])
    ensures forall id: nat ::
      Places(s.(queue := s.queue[1..]), id) == if id < s.nextId && id != s.queue[0].id then 1 else 0
  {
    var s1, item := s.(queue := s.queue[1..]), s.queue[0];
    assert s.queue == [item] + s1.queue;
    assert Waiting(s) == Waiting(s1) + multiset{item};
    forall id: nat ensures Places(s, id) == Places(s1, id) + (if item.id == id then 1 else 0) {}
    assert Places(s, item.id) == if item.id < s.nextId then 1 else 0;
  }

  /** Taking the item the pump holds */
  lemma HeldOut(c: Config, s: State)
    requires Conserved(s) && ItemsOk(c, s) && s.pump.AwaitDecision?
    ensures Out(c, s.(pump := Off), s.pump.item)
    ensures forall id: nat ::
      Places(s.(pump := Off), id) == if id < s.nextId && id != s.pump.item.id then 1 else 0
  {
    var s1, item := s.(pump := Off), s.pump.item;
    assert Waiting(s) == Waiting(s1) + multiset{item};
    forall id: nat ensures Places(s, id) == Places(s1, id) + (if item.id == id then 1 else 0) {
      CountOne(item, id);
    }
    assert Places(s, item.id) == if item.id < s.nextId then 1 else 0;
  }

  lemma FinishOut(c: Config, s: State, item: Item, ok: bool, code: string)
    requires Out(c, s, item) && !s.pump.AwaitDecision?
    ensures ItemsOk(c, Finish(s, item, ok, code).(pump := AwaitFinish))
  {
    TakenOut(c, Waiting(s), multiset(s.running), item, s.inflight, s.results, s.runs, s.nextId);
    FinishItems(c, s, item, ok, code);
  }

  lemma HoldItems(c: Config, s: State)
    requires ItemsOk(c, s) && !s.pump.AwaitDecision? && s.queue != []
    ensures ItemsOk(c, s.(queue := s.queue[1..], pump := AwaitDecision(s.queue[0])))
  {
    var s' := s.(queue := s.queue[1..], pump := AwaitDecision(s.queue[0]));
    assert s.queue == [s.queue[0]] + s'.queue;
    assert Waiting(s') == Waiting(s);
  }

  lemma {:induction false} PumpLoopItems(c: Config, s: State)
    requires Conserved(s) && ItemsOk(c, s) && !s.pump.AwaitDecision?
    ensures ItemsOk(c, PumpLoop(c, s))
    decreases |s.queue|
  {
    if s.active < c.concurrency && s.queue != [] {
      var item := s.queue[0];
      var s1 := s.(queue := s.queue[1..]);
      HeadOut(c, s);
      if Expired(item, s.clock) {
        FinishOut(c, s1, item, false, "DEADLINE_EXCEEDED");
      } else if c.limited {
        HoldItems(c, s);
      } else {
        StartItems(c, s1, item);
        PlacesStart(s1, item);
        PumpLoopItems(c, Start(s1, item));
      }
    }
  }

  lemma PumpItems(c: Config, s: State)
    requires Conserved(s) && ItemsOk(c, s) && (s.pumping <==> s.pump != Off)
    ensures ItemsOk(c, Pump(c, s))
  {
    if !s.pumping && !s.pumpTimer && s.queue != [] {
      assert Waiting(s.(pumping := true)) == Waiting(s);
      forall id: nat ensures Places(s.(pumping := true), id) == if id < s.nextId then 1 else 0 {
        assert Places(s, id) == if id < s.nextId then 1 else 0;
      }
      PumpLoopItems(c, s.(pumping := true));
    }
  }

  lemma AcceptItems(c: Config, s: State, m: Message)
    requires ItemsOk(c, s) && Claim(s, m).None?
    ensures ItemsOk(c, Accept(s, m))
  {
    var s', item := Accept(s, m), NewItem(s, m);
    SortQueueSorts(s.queue + [item]);
    assert Waiting(s') == Waiting(s) + multiset{item};
    KeysClaim(Waiting(s) + multiset(s.running), item, s.inflight, s.results);
    assert Waiting(s) + multiset(s.running) + multiset{item} == Waiting(s') + multiset(s.running);
    forall other | other in Waiting(s') ensures other == item || other in Waiting(s) {}
  }

  lemma RequeueItems(c: Config, s: State, t: nat)
    requires ItemsOk(c, s) && t < |s.retries|
    ensures ItemsOk(c, Requeue(s, t))
  {
    SortQueueSorts(s.queue + [s.retries[t]]);
    WithoutOne(s.retries, t);
    assert Waiting(Requeue(s, t)) == Waiting(s);
  }

  lemma WithoutOne(q: seq<Item>, i: nat)
    requires i < |q|
    ensures multiset(q) == multiset(Without(q, i)) + multiset{q[i]}
  {
    assert q == q[..i] + [q[i]] + q[i + 1..];
  }

  /** A call the adapter failed goes from the running ones to the waiting ones. */
  lemma RetryTables(c: Config, w: multiset<Item>, r: multiset<Item>, item: Item,
                    inflight: map<string, Item>, results: map<string, Response>, runs: map<nat, nat>, nextId: nat)
    requires TablesOk(c, w, r + multiset{item}, inflight, results, runs, nextId) && item.attempts <= c.maxAttempts
    ensures TablesOk(c, w + multiset{item}, r, inflight, results, runs, nextId)
  {
    assert w + (r + multiset{item}) == w + multiset{item} + r;
    assert item in r + multiset{item};
    forall other | other in r ensures other in r + multiset{item} {}
  }

  lemma RetryItems(c: Config, s: State, slot: nat)
    requires ItemsOk(c, s) && slot < |s.running| && s.running[slot].attempts <= c.maxAttempts
    ensures ItemsOk(c, Freed(s, slot).(retries := s.retries + [s.running[slot]]))
  {
    var item := s.running[slot];
    WithoutOne(s.running, slot);
    RetryTables(c, Waiting(s), multiset(Without(s.running, slot)), item, s.inflight, s.results, s.runs, s.nextId);
    assert Waiting(Freed(s, slot).(retries := s.retries + [item])) == Waiting(s) + multiset{item};
  }

  lemma FreedOut(s: State, slot: nat)
    requires Conserved(s) && slot < |s.running|
    ensures Places(Freed(s, slot), s.running[slot].id) == 0
  {
    var item := s.running[slot];
    CountWithout(s.running, slot, item.id);
    CountOne(item, item.id);
    assert Places(s, item.id) == if item.id < s.nextId then 1 else 0;
  }

  lemma SettleItems(c: Config, s: State, slot: nat, ok: bool, code: string)
    requires Conserved(s) && ItemsOk(c, s) && slot < |s.running|
    ensures ItemsOk(c, Finish(Freed(s, slot), s.running[slot], ok, code))
  {
    var item, s1 := s.running[slot], Freed(s, slot);
    WithoutOne(s.running, slot);
    FreedOut(s, slot);
    var r1 := multiset(s1.running);
    assert Waiting(s) + (r1 + multiset{item}) == Live(s1) + multiset{item};
    forall other | other in r1 ensures other in r1 + multiset{item} {}
    FinishItems(c, s1, item, ok, code);
  }

  lemma CompleteItems(c: Config, s: State, slot: nat, r: AdapterReply)
    requires Conserved(s) && ItemsOk(c, s) && slot < |s.running|
    ensures ItemsOk(c, OnComplete(c, s, slot, r))
  {
    if r.Throws? && r.retryable && s.running[slot].attempts <= c.maxAttempts && !Expired(s.running[slot], s.clock) {
      RetryItems(c, s, slot);
    } else {
      SettleItems(c, s, slot, r.Returns?, if r.Returns? then "" else r.code);
    }
  }

  lemma AllowItems(c: Config, s: State)
    requires Conserved(s) && ItemsOk(c, s) && s.pump.AwaitDecision?
    ensures ItemsOk(c, PumpLoop(c, Start(s.(pump := Off), s.pump.item)))
  {
    var item, s1 := s.pump.item, s.(pump := Off);
    HeldOut(c, s);
    StartItems(c, s1, item);
    PlacesStart(s1, item);
    PumpLoopItems(c, Start(s1, item));
  }

  lemma DecideItems(c: Config, s: State, d: Decision)
    requires Conserved(s) && ItemsOk(c, s) && s.pump.AwaitDecision?
    ensures ItemsOk(c, OnDecide(c, s, d))
  {
    match d
    case Allow =>
      AllowItems(c, s);
    case Deny =>
      assert Waiting(OnDecide(c, s, d)) == Waiting(s);
    case LimiterError =>
      HeldOut(c, s);
      FinishOut(c, s.(pump := Off), s.pump.item, false, "RATE_LIMITER_UNAVAILABLE");
  }

  lemma ConservedStep(c: Config, s: State, e: Event)
    requires SlotsOk(c, s) && Conserved(s) && Enabled(s, e)
    ensures Conserved(Apply(c, s, e)) && s.nextId <= Apply(c, s, e).nextId
  {
    PlacesStep(c, s, e, 0);
    forall id: nat ensures Places(Apply(c, s, e), id) == if id < Apply(c, s, e).nextId then 1 else 0 {
      PlacesStep(c, s, e, id);
    }
  }

  /** Accept, ReleaseSlot and Requeue leave every item in one place. */
  lemma BeforePump(c: Config, s: State)
    requires Conserved(s)
    ensures s.draining > 0 ==> Conserved(ReleaseSlot(s))
    ensures forall t: nat :: t < |s.retries| ==> Conserved(Requeue(s, t))
    ensures forall m :: Conserved(Accept(s, m))
    ensures Conserved(s.(pumpTimer := false))
  {
    forall id: nat ensures Places(s.(pumpTimer := false), id) == if id < s.nextId then 1 else 0 {
      assert Places(s, id) == if id < s.nextId then 1 else 0;
    }
    if s.draining > 0 {
      forall id: nat ensures Places(ReleaseSlot(s), id) == if id < s.nextId then 1 else 0 {
        assert Places(s, id) == if id < s.nextId then 1 else 0;
      }
    }
    forall t: nat, id: nat | t < |s.retries| ensures Places(Requeue(s, t), id) == if id < s.nextId then 1 else 0 {
      RequeueCounts(s, t, id);
    }
    forall m, id: nat ensures Places(Accept(s, m), id) == if id < s.nextId + 1 then 1 else 0 { AcceptCounts(s, m, id); }
  }

  lemma ItemsStep(c: Config, s: State, e: Event)
    requires SlotsOk(c, s) && Conserved(s) && ItemsOk(c, s) && Enabled(s, e)
    ensures ItemsOk(c, Apply(c, s, e))
  {
    BeforePump(c, s);
    match e
    case Receive(m) =>
      if |s.queue| < c.maxQueueSize && Claim(s, m).None? {
        AcceptItems(c, s, m);
        PumpItems(c, Accept(s, m));
      }
    case Decide(d) => DecideItems(c, s, d);
    case FinishReturned => PumpLoopItems(c, s);
    case PumpTimer => PumpItems(c, s.(pumpTimer := false));
    case Complete(slot, r) => CompleteItems(c, s, slot, r);
    case SlotDone => PumpItems(c, ReleaseSlot(s));
    case RetryTimer(t) => RequeueItems(c, s, t); PumpItems(c, Requeue(s, t));
    case _ =>
  }

  lemma {:induction false} RunOrderly(c: Config, s: State, es: seq<Event>)
    requires Orderly(c, s) && Allowed(c, s, es)
    ensures Orderly(c, Run(c, s, es)) && s.nextId <= Run(c, s, es).nextId
    decreases |es|
  {
    if es != [] {
      AwakeStep(c, s, es[0]);
      ConservedStep(c, s, es[0]);
      ItemsStep(c, s, es[0]);
      RunOrderly(c, Apply(c, s, es[0]), es[1..]);
    }
  }

  // ---------------------------------------------------------------- over every run

  /** Events that run the pump, or resume it */
  predicate RunsPump(e: Event) { e.Decide? || e.FinishReturned? || e.PumpTimer? || e.SlotDone? }

  /** The concurrency bound, and no lost wake-up: while something is queued, what is under way leads
      to the pump within two events - its own resumption, its timer, a slot given back, or an adapter's
      answer after which the slot is given back. */
  lemma Scheduling(c: Config, clock: int, es: seq<Event>)
    requires Allowed(c, Init(clock), es) && c.concurrency > 0
    ensures var s := Run(c, Init(clock), es);
      && |s.running| <= s.active <= c.concurrency
      && (s.queue != [] ==> s.pump != Off || s.pumpTimer || s.active == c.concurrency)
      && (s.queue != [] ==>
            (exists e :: RunsPump(e) && Enabled(s, e))
            || (s.running != [] && forall r :: Enabled(Apply(c, s, Complete(0, r)), SlotDone)))
  {
    RunOrderly(c, Init(clock), es);
    var s := Run(c, Init(clock), es);
    if s.queue != [] {
      var e := if s.pump.AwaitDecision? then Decide(Allow) else if s.pump.AwaitFinish? then FinishReturned
               else if s.pumpTimer then PumpTimer else SlotDone;
      assert RunsPump(e);
      if s.pump == Off && !s.pumpTimer && s.draining == 0 {
        forall r ensures Enabled(Apply(c, s, Complete(0, r)), SlotDone) { Drains(c, s, r); }
      } else {
        assert Enabled(s, e);
      }
    }
  }

  lemma Drains(c: Config, s: State, r: AdapterReply)
    requires s.running != []
    ensures OnComplete(c, s, 0, r).draining == s.draining + 1
  {
  }

  predicate Quiet(s: State) { s.queue == [] && s.pump == Off && s.running == [] && s.retries == [] }

  /** Every accepted item is in exactly one place and is finished at most once; once nothing is
      queued, held, running or waiting, every accepted item was finished exactly once. */
  lemma Conservation(c: Config, clock: int, es: seq<Event>, id: nat)
    requires Allowed(c, Init(clock), es)
    ensures var s := Run(c, Init(clock), es);
      && (id < s.nextId ==> Places(s, id) == 1)
      && (id >= s.nextId ==> Places(s, id) == 0)
      && Count(s.finished, id) <= 1
      && (Quiet(s) && id < s.nextId ==> Count(s.finished, id) == 1)
  {
    RunOrderly(c, Init(clock), es);
    assert Places(Run(c, Init(clock), es), id) == if id < Run(c, Init(clock), es).nextId then 1 else 0;
  }

  /** The adapter runs at most maxAttempts + 1 times for an accepted item. */
  lemma BoundedRuns(c: Config, clock: int, es: seq<Event>, id: nat)
    requires Allowed(c, Init(clock), es)
    ensures Count(Run(c, Init(clock), es).runs, id) <= c.maxAttempts + 1
  {
    RunOrderly(c, Init(clock), es);
  }

  lemma KeyFacts(live: multiset<Item>, inflight: map<string, Item>, results: map<string, Response>, k: string)
    requires KeysOk(live, inflight, results)
    ensures forall a, b :: a in live && b in live && a.dedupKey == b.dedupKey == Some(k) ==> a.id == b.id
    ensures forall a :: a in live && a.dedupKey == Some(k) ==> k in inflight && inflight[k].requestId == a.requestId
    ensures k in inflight <==> exists a :: a in live && a.dedupKey == Some(k)
    ensures k in inflight ==> k !in results
  {
  }

  predicate QueueIsFull(c: Config, s: State) { |s.queue| >= c.maxQueueSize }

  /** What is sent for a message with a key. The length of the queue is looked at first, so on a full
      queue even a duplicate, or a key with a result, gets QUEUE_FULL. */
  lemma ReplyFacts(c: Config, s: State, m: Message, k: string)
    requires KeysOk(Live(s), s.inflight, s.results) && m.dedupKey == Some(k)
    ensures var reply := Enqueue(c, s, m).1;
      && (reply == QueueFull <==> QueueIsFull(c, s))
      && (forall a :: a in Live(s) && a.dedupKey == Some(k) ==>
            (reply == DuplicateOf(a.requestId) <==> !QueueIsFull(c, s)))
      && (k in s.results ==>
            (reply == CachedResult(ResponseForRequest(s.results[k], m.requestId)) <==> !QueueIsFull(c, s)))
      && (reply.Accepted? <==>
            !QueueIsFull(c, s) && k !in s.results && forall a :: a in Live(s) ==> a.dedupKey != Some(k))
  {
    KeyFacts(Live(s), s.inflight, s.results, k);
  }

  /** Over every run: at most one unfinished item per idempotency key. Unless the queue is full, and
      only then, a duplicate is told exactly that item's request id, a message whose key has a result
      gets it under its own request id, and a new item is made exactly when the key has neither. */
  lemma OneItemPerKey(c: Config, clock: int, es: seq<Event>, m: Message, k: string)
    requires Allowed(c, Init(clock), es) && m.dedupKey == Some(k)
    ensures var s := Run(c, Init(clock), es); var reply := Enqueue(c, s, m).1;
      && (forall a, b :: a in Live(s) && b in Live(s) && a.dedupKey == b.dedupKey == Some(k) ==> a.id == b.id)
      && (reply == QueueFull <==> QueueIsFull(c, s))
      && (forall a :: a in Live(s) && a.dedupKey == Some(k) ==>
            (reply == DuplicateOf(a.requestId) <==> !QueueIsFull(c, s)))
      && (k in s.results ==>
            (reply == CachedResult(ResponseForRequest(s.results[k], m.requestId)) <==> !QueueIsFull(c, s)))
      && (reply.Accepted? <==>
            !QueueIsFull(c, s) && k !in s.results && forall a :: a in Live(s) ==> a.dedupKey != Some(k))
  {
    RunOrderly(c, Init(clock), es);
    var s := Run(c, Init(clock), es);
    KeyFacts(Live(s), s.inflight, s.results, k);
    ReplyFacts(c, s, m, k);
  }

  // ---------------------------------------------------------------- the answer of a key stays

  /** No item of `q` has the key `k`. */
  predicate Lacks(q: seq<Item>, k: string) { forall item :: item in q ==> item.dedupKey != Some(k) }

  lemma {:induction false} PumpLoopKeepsAnswer(c: Config, s: State, k: string)
    requires Lacks(s.queue, k) && k in s.results
    ensures k in PumpLoop(c, s).results && PumpLoop(c, s).results[k] == s.results[k]
    decreases |s.queue|
  {
    if s.active < c.concurrency && s.queue != [] {
      assert s.queue[0] in s.queue;
      if !Expired(s.queue[0], s.clock) && !c.limited {
        PumpLoopKeepsAnswer(c, Start(s.(queue := s.queue[1..]), s.queue[0]), k);
      }
    }
  }

  lemma PumpKeepsAnswer(c: Config, s: State, k: string)
    requires Lacks(s.queue, k) && k in s.results
    ensures k in Pump(c, s).results && Pump(c, s).results[k] == s.results[k]
  {
    if !s.pumping && !s.pumpTimer && s.queue != [] { PumpLoopKeepsAnswer(c, s.(pumping := true), k); }
  }

  lemma DecideKeepsAnswer(c: Config, s: State, d: Decision, k: string)
    requires Lacks(s.queue, k) && s.pump.AwaitDecision? && s.pump.item.dedupKey != Some(k) && k in s.results
    ensures k in OnDecide(c, s, d).results && OnDecide(c, s, d).results[k] == s.results[k]
  {
    if d == Allow { PumpLoopKeepsAnswer(c, Start(s.(pump := Off), s.pump.item), k); }
  }

  /** An answered key belongs to no unfinished item. */
  lemma AnsweredKeyIsFree(s: State, k: string)
    requires KeysOk(Live(s), s.inflight, s.results) && k in s.results
    ensures Lacks(s.queue, k) && Lacks(Held(s.pump), k) && Lacks(s.running, k) && Lacks(s.retries, k)
  {
    assert forall item :: item in Live(s) ==> item.dedupKey != Some(k);
    forall item | item in s.queue || item in Held(s.pump) || item in s.running || item in s.retries
      ensures item.dedupKey != Some(k)
    {
      assert item in Live(s);
    }
  }

  lemma ReceiveKeepsAnswer(c: Config, s: State, m: Message, k: string)
    requires Lacks(s.queue, k) && k in s.results
    ensures k in Enqueue(c, s, m).0.results && Enqueue(c, s, m).0.results[k] == s.results[k]
  {
    if |s.queue| < c.maxQueueSize && Claim(s, m).None? {
      SortQueueSorts(s.queue + [NewItem(s, m)]);
      PumpKeepsAnswer(c, Accept(s, m), k);
    }
  }

  lemma RetryKeepsAnswer(c: Config, s: State, t: nat, k: string)
    requires Lacks(s.queue, k) && Lacks(s.retries, k) && k in s.results && t < |s.retries|
    ensures var s' := Pump(c, Requeue(s, t)); k in s'.results && s'.results[k] == s.results[k]
  {
    SortQueueSorts(s.queue + [s.retries[t]]);
    assert s.retries[t] in s.retries;
    PumpKeepsAnswer(c, Requeue(s, t), k);
  }

  lemma AnswerStep(c: Config, s: State, e: Event, k: string)
    requires Enabled(s, e) && k in s.results && e != ResultExpires(k)
    requires Lacks(s.queue, k) && Lacks(Held(s.pump), k) && Lacks(s.running, k) && Lacks(s.retries, k)
    ensures var s' := Apply(c, s, e); k in s'.results && s'.results[k] == s.results[k]
  {
    match e
    case Receive(m) => ReceiveKeepsAnswer(c, s, m, k);
    case Decide(d) =>
      assert s.pump.item in Held(s.pump);
      DecideKeepsAnswer(c, s, d, k);
    case FinishReturned => PumpLoopKeepsAnswer(c, s, k);
    case PumpTimer => PumpKeepsAnswer(c, s.(pumpTimer := false), k);
    case Complete(slot, r) => assert s.running[slot] in s.running;
    case SlotDone => PumpKeepsAnswer(c, ReleaseSlot(s), k);
    case RetryTimer(t) => RetryKeepsAnswer(c, s, t, k);
    case _ =>
  }

  lemma {:induction false} AnswerKept(c: Config, s: State, es: seq<Event>, k: string)
    requires Orderly(c, s) && Allowed(c, s, es) && k in s.results && ResultExpires(k) !in es
    ensures var s' := Run(c, s, es); k in s'.results && s'.results[k] == s.results[k]
    decreases |es|
  {
    if es != [] {
      assert es[0] in es;
      AwakeStep(c, s, es[0]);
      ConservedStep(c, s, es[0]);
      ItemsStep(c, s, es[0]);
      AnsweredKeyIsFree(s, k);
      AnswerStep(c, s, es[0], k);
      AnswerKept(c, Apply(c, s, es[0]), es[1..], k);
    }
  }

  /** From the moment a key has a result until that result expires, every message with the key gets
      exactly it unless the queue is full, and no item is made: nothing overwrites the result. */
  lemma AnswerStays(c: Config, clock: int, before: seq<Event>, es: seq<Event>, k: string, m: Message)
    requires Allowed(c, Init(clock), before) && k in Run(c, Init(clock), before).results
    requires Allowed(c, Run(c, Init(clock), before), es) && ResultExpires(k) !in es && m.dedupKey == Some(k)
    ensures var s, s' := Run(c, Init(clock), before), Run(c, Run(c, Init(clock), before), es);
      var (after, reply) := Enqueue(c, s', m);
      && k in s'.results && s'.results[k] == s.results[k]
      && (reply == CachedResult(ResponseForRequest(s.results[k], m.requestId)) <==> !QueueIsFull(c, s'))
      && (reply == QueueFull <==> QueueIsFull(c, s'))
      && after == s'
    ensures var kept := Run(c, Init(clock), before).results[k]; var sent := ResponseForRequest(kept, m.requestId);
      && sent.requestId == m.requestId && sent.ok == kept.ok && sent.code == kept.code
      && sent.duplicateOf == if m.requestId == kept.requestId then kept.duplicateOf else Some(kept.requestId)
  {
    RunOrderly(c, Init(clock), before);
    var s := Run(c, Init(clock), before);
    RunOrderly(c, s, es);
    AnswerKept(c, s, es, k);
    ReplyFacts(c, Run(c, s, es), m, k);
  }

  // ---------------------------------------------------------------- a claimed key ends answered

  /** The key is still claimed by the same call, or has the result of that call. */
  predicate HeldOrAnswered(before: Item, s: State, k: string) {
    if k in s.inflight then s.inflight[k] == before else k in s.results && s.results[k].requestId == before.requestId
  }

  predicate Agrees(q: seq<Item>, inflight: map<string, Item>) {
    forall item :: item in q && item.dedupKey.Some? ==>
      item.dedupKey.value in inflight && SameCall(inflight[item.dedupKey.value], item)
  }

  lemma {:induction false} PumpLoopAnswers(c: Config, s: State, k: string)
    requires Agrees(s.queue, s.inflight) && k in s.inflight
    ensures HeldOrAnswered(s.inflight[k], PumpLoop(c, s), k)
    decreases |s.queue|
  {
    if s.active < c.concurrency && s.queue != [] {
      assert s.queue[0] in s.queue;
      if !Expired(s.queue[0], s.clock) && !c.limited {
        PumpLoopAnswers(c, Start(s.(queue := s.queue[1..]), s.queue[0]), k);
      }
    }
  }

  lemma PumpAnswers(c: Config, s: State, k: string)
    requires Agrees(s.queue, s.inflight) && k in s.inflight
    ensures HeldOrAnswered(s.inflight[k], Pump(c, s), k)
  {
    if !s.pumping && !s.pumpTimer && s.queue != [] { PumpLoopAnswers(c, s.(pumping := true), k); }
  }

  lemma LiveAgrees(s: State)
    requires KeysOk(Live(s), s.inflight, s.results)
    ensures Agrees(s.queue, s.inflight) && Agrees(Held(s.pump), s.inflight)
    ensures Agrees(s.running, s.inflight) && Agrees(s.retries, s.inflight)
  {
    forall item | item in s.queue || item in Held(s.pump) || item in s.running || item in s.retries
      ensures item in Live(s)
    {
    }
  }

  lemma ReceiveAnswers(c: Config, s: State, m: Message, k: string)
    requires Agrees(s.queue, s.inflight) && k in s.inflight
    ensures HeldOrAnswered(s.inflight[k], Enqueue(c, s, m).0, k)
  {
    if |s.queue| < c.maxQueueSize && Claim(s, m).None? {
      SortQueueSorts(s.queue + [NewItem(s, m)]);
      PumpAnswers(c, Accept(s, m), k);
    }
  }

  lemma RetryAnswers(c: Config, s: State, t: nat, k: string)
    requires Agrees(s.queue, s.inflight) && Agrees(s.retries, s.inflight) && k in s.inflight && t < |s.retries|
    ensures HeldOrAnswered(s.inflight[k], Pump(c, Requeue(s, t)), k)
  {
    SortQueueSorts(s.queue + [s.retries[t]]);
    assert s.retries[t] in s.retries;
    PumpAnswers(c, Requeue(s, t), k);
  }

  lemma DecideAnswers(c: Config, s: State, d: Decision, k: string)
    requires Agrees(s.queue, s.inflight) && Agrees(Held(s.pump), s.inflight) && k in s.inflight && s.pump.AwaitDecision?
    ensures HeldOrAnswered(s.inflight[k], OnDecide(c, s, d), k)
  {
    assert s.pump.item in Held(s.pump);
    if d == Allow { PumpLoopAnswers(c, Start(s.(pump := Off), s.pump.item), k); }
  }

  lemma CompleteAnswers(c: Config, s: State, slot: nat, r: AdapterReply, k: string)
    requires Agrees(s.running, s.inflight) && k in s.inflight && slot < |s.running|
    ensures HeldOrAnswered(s.inflight[k], OnComplete(c, s, slot, r), k)
  {
    assert s.running[slot] in s.running;
  }

  /** An event takes a key from its call only by answering that call. */
  lemma KeyStep(c: Config, s: State, e: Event, k: string)
    requires KeysOk(Live(s), s.inflight, s.results) && Enabled(s, e) && k in s.inflight
    ensures HeldOrAnswered(s.inflight[k], Apply(c, s, e), k)
  {
    LiveAgrees(s);
    match e
    case Receive(m) => ReceiveAnswers(c, s, m, k);
    case Decide(d) => DecideAnswers(c, s, d, k);
    case FinishReturned => PumpLoopAnswers(c, s, k);
    case PumpTimer => PumpAnswers(c, s.(pumpTimer := false), k);
    case Complete(slot, r) => CompleteAnswers(c, s, slot, r, k);
    case SlotDone => PumpAnswers(c, ReleaseSlot(s), k);
    case RetryTimer(t) => RetryAnswers(c, s, t, k);
    case _ =>
  }

  lemma {:induction false} ClaimKept(c: Config, s: State, es: seq<Event>, k: string)
    requires Orderly(c, s) && Allowed(c, s, es) && k in s.inflight && ResultExpires(k) !in es
    ensures HeldOrAnswered(s.inflight[k], Run(c, s, es), k)
    decreases |es|
  {
    if es != [] {
      var s1 := Apply(c, s, es[0]);
      AwakeStep(c, s, es[0]);
      ConservedStep(c, s, es[0]);
      ItemsStep(c, s, es[0]);
      KeyStep(c, s, es[0], k);
      if k in s1.inflight {
        ClaimKept(c, s1, es[1..], k);
      } else {
        AnswerKept(c, s1, es[1..], k);
        AnsweredNotClaimed(c, s1, es[1..], k);
      }
    }
  }

  lemma AnsweredNotClaimed(c: Config, s: State, es: seq<Event>, k: string)
    requires Orderly(c, s) && Allowed(c, s, es) && k in Run(c, s, es).results
    ensures k !in Run(c, s, es).inflight
  {
    RunOrderly(c, s, es);
  }

  /** Only the call that claimed a key releases it, and only by its result: at any later moment before
      that result expires the key is still claimed by that call, or holds that call's result. */
  lemma ClaimEndsAnswered(c: Config, clock: int, before: seq<Event>, es: seq<Event>, k: string)
    requires Allowed(c, Init(clock), before) && k in Run(c, Init(clock), before).inflight
    requires Allowed(c, Run(c, Init(clock), before), es) && ResultExpires(k) !in es
    ensures var s := Run(c, Init(clock), before); HeldOrAnswered(s.inflight[k], Run(c, s, es), k)
  {
    RunOrderly(c, Init(clock), before);
    ClaimKept(c, Run(c, Init(clock), before), es, k);
  }
}
