/**
  The queue's code: the Lua scripts and commands on the Redis keys, and the async functions
  that issue them, each as one uninterrupted pass. The scripts are the transition system's, and
  an enqueue pass is a run of its events, so what is proved about all interleavings of those
  events covers this code.
 */
module RedisStreamQueue {
  import opened QueueModel

  /** The keys of one prefix, updated in place */
  class RedisKeys {
    var depth: int
    var nextId: nat
    var entries: map<nat, Entry>
    var zset: map<Request, int>
    var hash: map<Request, Payload>

    function Value(): Redis
      reads this
    {
      Redis(depth, nextId, entries, zset, hash)
    }

    constructor ()
      ensures Value() == Redis(0, 0, map[], map[], map[])
    {
      depth, nextId, entries, zset, hash := 0, 0, map[], map[], map[];
    }

    method EvalSchedule(request: Request, payload: Payload, due: int, preserveDepth: bool, max: nat)
      returns (reply: ScheduleReply)
      modifies this
      ensures (Value(), reply) == ScheduleScript(old(Value()), request, payload, due, preserveDepth, max)
    {
      var already := request in zset;
      if !already && !preserveDepth {
        depth := depth + 1;
        if depth > max {
          depth := depth - 1;
          return ScheduleReply.Full;
        }
      }
      hash := hash[request := payload];
      zset := zset[request := due];
      return Scheduled(already);
    }

    method EvalPromote(stream: Priority, request: Request, now: int) returns (reply: PromoteReply)
      modifies this
      ensures (Value(), reply) == PromoteScript(old(Value()), stream, request, now)
    {
      if request !in zset || zset[request] > now { return NotDue; }
      if request !in hash {
        zset := zset - {request};
        return PayloadMissing;
      }
      var payload := hash[request];
      var id := nextId;
      entries := entries[id := Entry(stream, payload.item, false)];
      nextId := nextId + 1;
      zset := zset - {request};
      hash := hash - {request};
      return Promoted(id, payload.serial);
    }

    method AddToDepth(delta: int, o: Outcome) returns (value: int)
      modifies this
      ensures Value() == if Effective(o) then AddDepth(old(Value()), delta) else old(Value())
      ensures value == depth
    {
      if o != NoEffect { depth := depth + delta; }
      value := depth;
    }

    method XAdd(stream: Priority, item: Item, o: Outcome) returns (id: nat)
      modifies this
      ensures id == old(nextId)
      ensures Value() == if o == NoEffect then old(Value())
                         else old(Value()).(nextId := id + 1, entries := old(entries)[id := Entry(stream, item, false)])
    {
      id := nextId;
      if o != NoEffect {
        entries := entries[id := Entry(stream, item, false)];
        nextId := nextId + 1;
      }
    }

    method XAck(id: nat, o: Outcome)
      modifies this
      ensures Value() == if o == NoEffect then old(Value()) else old(Value()).(entries := old(entries) - {id})
    {
      if o != NoEffect { entries := entries - {id}; }
    }
  }

  /** What the function's caller sees */
  datatype EnqueueResult = Enqueued(id: nat, stream: Priority) | QueueFull | QueueUnavailable | CommandFailed

  datatype ScheduleResult = RetryScheduled(retryAt: int) | ScheduleFull | ScheduleUnavailable | ScheduleFailed

  /** What one enqueue pass does to the keys, and its result */
  function EnqueuePass(c: Config, r: Redis, item: Item, ready: bool, o1: Outcome, o2: Outcome, o3: Outcome)
    : (Redis, EnqueueResult)
  {
    var counted := if Effective(o1) then AddDepth(r, 1) else r;
    var stored := if Effective(o2) then AddEntry(counted, item) else counted;
    var returned := (v: Redis) => if Effective(o3) then AddDepth(v, -1) else v;
    if !ready then (r, QueueUnavailable)
    else if o1 != Done then (counted, CommandFailed)
    else if r.depth + 1 > c.maxQueueSize then (returned(counted), QueueFull)
    else if o2 != Done then (returned(stored), CommandFailed)
    else (stored, Enqueued(r.nextId, item.request.priority))
  }

  /** The events of that pass, numbered `call` */
  function EnqueueEvents(c: Config, r: Redis, process: nat, call: nat, item: Item, o1: Outcome, o2: Outcome,
                         o3: Outcome)
    : seq<Event>
  {
    [Incr(process, item, o1)] + if o1 == Done then RestOf(c, r, call, o2, o3) else []
  }

  /** The events `es` are allowed and lead to the keys `r`, with no call left behind. */
  ghost predicate RunsTo(c: Config, s: State, es: seq<Event>, r: Redis, enqueuers: map<nat, Enqueuer>) {
    Allowed(c, s, es) && Run(c, s, es).redis == r && Run(c, s, es).enqueuers == enqueuers
  }

  /** An enqueue pass is a run of the transition system that leaves no call behind. */
  lemma EnqueueIsRun(c: Config, s: State, process: nat, item: Item, o1: Outcome, o2: Outcome, o3: Outcome)
    requires s.nextCall !in s.enqueuers && Enabled(c, s, Incr(process, item, o1))
    ensures RunsTo(c, s, EnqueueEvents(c, s.redis, process, s.nextCall, item, o1, o2, o3),
                   EnqueuePass(c, s.redis, item, true, o1, o2, o3).0, s.enqueuers)
  {
    var e1 := Incr(process, item, o1);
    var s1 := Apply(c, s, e1);
    IncrCounts(c, s, process, item, o1);
    if o1 == Done { RestIsRun(c, s, s1, s.nextCall, item, o2, o3); }
    Prepended(c, s, e1, if o1 == Done then RestOf(c, s.redis, s.nextCall, o2, o3) else []);
  }

  lemma IncrCounts(c: Config, s: State, process: nat, item: Item, o1: Outcome)
    requires s.nextCall !in s.enqueuers && Enabled(c, s, Incr(process, item, o1))
    ensures var s1 := Apply(c, s, Incr(process, item, o1));
      && s1.redis == (if Effective(o1) then AddDepth(s.redis, 1) else s.redis)
      && s1.enqueuers == if o1 != Done then s.enqueuers
                         else s.enqueuers[s.nextCall :=
                           Enqueuer(process, item, if s.redis.depth + 1 > c.maxQueueSize then OverLimit else Reserved)]
  {
  }

  function RestOf(c: Config, r: Redis, call: nat, o2: Outcome, o3: Outcome): seq<Event> {
    if r.depth + 1 > c.maxQueueSize then [Undo(call, o3)]
    else if o2 != Done then [XAdd(call, o2), Undo(call, o3)]
    else [XAdd(call, o2)]
  }

  /** The pass after an INCR that succeeded */
  lemma RestIsRun(c: Config, s: State, s1: State, call: nat, item: Item, o2: Outcome, o3: Outcome)
    requires s1.redis == AddDepth(s.redis, 1) && Drop(s1.enqueuers, call) == s.enqueuers && call in s1.enqueuers
    requires s1.enqueuers[call].item == item
    requires s1.enqueuers[call].pc == if s.redis.depth + 1 > c.maxQueueSize then OverLimit else Reserved
    ensures RunsTo(c, s1, RestOf(c, s.redis, call, o2, o3), EnqueuePass(c, s.redis, item, true, Done, o2, o3).0,
                   s.enqueuers)
  {
    if s.redis.depth + 1 > c.maxQueueSize {
      UndoesCall(c, s1, Undo(call, o3), s.enqueuers);
    } else {
      CountedIsRun(c, s1, call, item, o2, o3, s.enqueuers);
    }
  }

  lemma TwoSteps(c: Config, s: State, e1: Event, e2: Event)
    requires Enabled(c, s, e1) && Enabled(c, Apply(c, s, e1), e2)
    ensures Allowed(c, s, [e1, e2]) && Run(c, s, [e1, e2]) == Apply(c, Apply(c, s, e1), e2)
  {
    Prepended(c, Apply(c, s, e1), e2, []);
    Prepended(c, s, e1, [e2]);
    assert [e1] + [e2] == [e1, e2];
  }

  /** The XADD failed, or its reply was lost: the caller gives the slot back. */
  lemma UndoneIsRun(c: Config, s: State, call: nat, item: Item, o2: Outcome, o3: Outcome, before: map<nat, Enqueuer>)
    requires Enabled(c, s, XAdd(call, o2)) && o2 != Done
    requires s.enqueuers[call].item == item && Drop(s.enqueuers, call) == before
    ensures var stored := if Effective(o2) then AddEntry(s.redis, item) else s.redis;
      RunsTo(c, s, [XAdd(call, o2), Undo(call, o3)],
             if Effective(o3) then AddDepth(stored, -1) else stored, before)
  {
    XAddCounts(c, s, call, o2);
    TwoSteps(c, s, XAdd(call, o2), Undo(call, o3));
  }

  /** The rest of the pass once the call is counted */
  lemma CountedIsRun(c: Config, s: State, call: nat, item: Item, o2: Outcome, o3: Outcome, before: map<nat, Enqueuer>)
    requires Enabled(c, s, XAdd(call, o2)) && s.enqueuers[call].item == item && Drop(s.enqueuers, call) == before
    ensures var stored := if Effective(o2) then AddEntry(s.redis, item) else s.redis;
      RunsTo(c, s, if o2 == Done then [XAdd(call, o2)] else [XAdd(call, o2), Undo(call, o3)],
             if o2 != Done && Effective(o3) then AddDepth(stored, -1) else stored, before)
  {
    if o2 == Done {
      XAddCounts(c, s, call, o2);
      Prepended(c, s, XAdd(call, o2), []);
    } else {
      UndoneIsRun(c, s, call, item, o2, o3, before);
    }
  }

  lemma XAddCounts(c: Config, s: State, call: nat, o: Outcome)
    requires Enabled(c, s, XAdd(call, o))
    ensures var s1 := Apply(c, s, XAdd(call, o));
      && s1.redis == (if Effective(o) then AddEntry(s.redis, s.enqueuers[call].item) else s.redis)
      && (if o == Done then s1.enqueuers == Drop(s.enqueuers, call)
          else Enabled(c, s1, Undo(call, o)) && Drop(s1.enqueuers, call) == Drop(s.enqueuers, call))
  {
  }

  lemma UndoesCall(c: Config, s: State, e: Event, before: map<nat, Enqueuer>)
    requires e.Undo? && Enabled(c, s, e) && Drop(s.enqueuers, e.call) == before
    ensures Allowed(c, s, [e]) && Run(c, s, [e]).enqueuers == before
    ensures Run(c, s, [e]).redis == if Effective(e.outcome) then AddDepth(s.redis, -1) else s.redis
  {
    Prepended(c, s, e, []);
  }

  lemma Prepended(c: Config, s: State, e: Event, es: seq<Event>)
    requires Enabled(c, s, e) && Allowed(c, Apply(c, s, e), es)
    ensures Allowed(c, s, [e] + es) && Run(c, s, [e] + es) == Run(c, Apply(c, s, e), es)
    ensures es == [] ==> [e] + es == [e]
  {
    assert ([e] + es)[1..] == es;
  }

  /** QUEUE_FULL stores nothing, and a pass that stores nothing gives its slot back exactly when
      its INCR failed outright or its rollback took effect. */
  lemma RejectionLeavesNoTrace(c: Config, r: Redis, item: Item, o1: Outcome, o2: Outcome, o3: Outcome)
    ensures var (r', result) := EnqueuePass(c, r, item, true, o1, o2, o3);
      && (result == QueueFull <==> o1 == Done && r.depth >= c.maxQueueSize)
      && (result == QueueFull ==> r' == r.(depth := r'.depth))
      && (!result.Enqueued? ==> (r'.depth == r.depth <==> o1 == NoEffect || (o1 == Done && Effective(o3))))
      && (!result.Enqueued? && o2 != ReplyLost ==> r' == r.(depth := r'.depth))
  {
  }

  /** The scripts of one promotion pass, one after the other, and how many moved a retry */
  function PromotePass(r: Redis, stream: Priority, members: seq<Request>, now: int): (Redis, nat)
    decreases |members|
  {
    if members == [] then (r, 0)
    else
      var k := |members| - 1;
      var (r', n) := PromotePass(r, stream, members[..k], now);
      var (r'', reply) := PromoteScript(r', stream, members[k], now);
      (r'', if reply.Promoted? then n + 1 else n)
  }

  /** The members of the pass that are due */
  function Due(r: Redis, members: seq<Request>, now: int): set<Request> {
    set m | m in members && m in r.zset && r.zset[m] <= now
  }

  ghost predicate MovedOnce(r: Redis, r': Redis, stream: Priority, m: Request)
    requires m in r.hash
  {
    exists e :: r.nextId <= e < r'.nextId && e in r'.entries && r'.entries[e] == Entry(stream, r.hash[m].item, false)
  }

  /** `r'` is `r` with exactly the requests of `due` moved from the retry structures to the
      stream, each into an entry of its own. */
  ghost predicate Moves(r: Redis, r': Redis, stream: Priority, due: set<Request>)
    requires due <= r.hash.Keys
  {
    && r'.depth == r.depth && r'.nextId == r.nextId + |due|
    && r'.zset == r.zset - due && r'.hash == r.hash - due
    && (forall e :: e in r.entries ==> e in r'.entries && r'.entries[e] == r.entries[e])
    && (forall e :: e in r'.entries ==> e in r.entries || r.nextId <= e < r'.nextId)
    && (forall m :: m in due ==> MovedOnce(r, r', stream, m))
  }

  lemma NewlyMoved(r: Redis, r1: Redis, stream: Priority, m: Request, now: int)
    requires m in r.hash && m in r1.hash && r1.hash[m] == r.hash[m] && r.nextId <= r1.nextId
    requires PromoteScript(r1, stream, m, now).1.Promoted?
    ensures MovedOnce(r, PromoteScript(r1, stream, m, now).0, stream, m)
  {
    assert r1.nextId in PromoteScript(r1, stream, m, now).0.entries;
  }

  lemma MovesOneMore(r: Redis, r1: Redis, stream: Priority, due: set<Request>, m: Request, now: int)
    requires due <= r.hash.Keys && m in r.hash && m !in due && Moves(r, r1, stream, due)
    requires PromoteScript(r1, stream, m, now).1.Promoted?
    requires forall e :: e in r.entries ==> e < r.nextId
    ensures Moves(r, PromoteScript(r1, stream, m, now).0, stream, due + {m})
  {
    var r2 := PromoteScript(r1, stream, m, now).0;
    NewlyMoved(r, r1, stream, m, now);
    forall x | x in due + {m} ensures MovedOnce(r, r2, stream, x) {
      if x != m { MovedStays(r, r1, r2, stream, x); }
    }
  }

  /** The script on one more member of the list, after `before` was moved */
  lemma PromoteNext(r: Redis, r1: Redis, stream: Priority, before: set<Request>, m: Request, now: int)
    requires r.zset.Keys == r.hash.Keys && forall e :: e in r.entries ==> e < r.nextId
    requires forall x :: x in before ==> x in r.zset && r.zset[x] <= now
    requires Moves(r, r1, stream, before)
    ensures var (r2, reply) := PromoteScript(r1, stream, m, now);
      var due := if m in r.zset && r.zset[m] <= now then before + {m} else before;
      && Moves(r, r2, stream, due)
      && (reply.Promoted? ==> |due| == |before| + 1)
      && (!reply.Promoted? ==> due == before)
  {
    if PromoteScript(r1, stream, m, now).1.Promoted? {
      assert m in r1.zset && m !in before;
      MovesOneMore(r, r1, stream, before, m, now);
    } else {
      assert m in r.zset && r.zset[m] <= now ==> m in before;
      assert m in before ==> before + {m} == before;
    }
  }

  lemma DueExtends(r: Redis, members: seq<Request>, m: Request, now: int)
    ensures Due(r, members + [m], now) == Due(r, members, now) + if m in r.zset && r.zset[m] <= now then {m} else {}
  {
  }

  /** A promotion pass moves exactly the due members and leaves the rest untouched, whatever
      list the scan returned (repeated, stale or rescheduled members included). */
  lemma {:induction false} PromotePassMoves(r: Redis, stream: Priority, members: seq<Request>, now: int)
    requires r.zset.Keys == r.hash.Keys && forall e :: e in r.entries ==> e < r.nextId
    ensures var (r', n) := PromotePass(r, stream, members, now);
      n == |Due(r, members, now)| && Moves(r, r', stream, Due(r, members, now))
    decreases |members|
  {
    if members == [] {
      assert Due(r, members, now) == {};
    } else {
      var before, m := members[..|members| - 1], members[|members| - 1];
      assert members == before + [m];
      PromotePassMoves(r, stream, before, now);
      DueExtends(r, before, m, now);
      PromoteNext(r, PromotePass(r, stream, before, now).0, stream, Due(r, before, now), m, now);
    }
  }

  lemma MovedStays(r: Redis, r1: Redis, r2: Redis, stream: Priority, m: Request)
    requires m in r.hash && MovedOnce(r, r1, stream, m) && r1.nextId <= r2.nextId
    requires forall e :: e in r1.entries ==> e in r2.entries && r2.entries[e] == r1.entries[e]
    ensures MovedOnce(r, r2, stream, m)
  {
  }

  class RedisStreamQueue {
    const redis: RedisKeys
    const config: Config
    var streamXAdd: nat
    var delayedScheduled: nat
    var delayedPromoted: nat
    var acknowledged: nat

    constructor (redis: RedisKeys, config: Config)
      ensures this.redis == redis && this.config == config
    {
      this.redis, this.config := redis, config;
      streamXAdd, delayedScheduled, delayedPromoted, acknowledged := 0, 0, 0, 0;
    }

    /** enqueue: `o1`, `o2`, `o3` are the fates of INCR, XADD and the rollback DECR. */
    method Enqueue(item: Item, ready: bool, o1: Outcome, o2: Outcome, o3: Outcome) returns (result: EnqueueResult)
      modifies this, redis
      ensures (redis.Value(), result) == EnqueuePass(config, old(redis.Value()), item, ready, o1, o2, o3)
      ensures result.Enqueued? ==>
                && redis.Value() == AddEntry(AddDepth(old(redis.Value()), 1), item)
                && result == Enqueued(old(redis.nextId), item.request.priority)
      ensures result.Enqueued? <==> ready && o1 == Done && o2 == Done && old(redis.depth) < config.maxQueueSize
      ensures streamXAdd == old(streamXAdd) + (if result.Enqueued? then 1 else 0)
    {
      if !ready { return QueueUnavailable; }
      var depth := redis.AddToDepth(1, o1);
      if o1 != Done { return CommandFailed; }
      if depth > config.maxQueueSize {
        var _ := redis.AddToDepth(-1, o3);
        return QueueFull;
      }
      var id := redis.XAdd(item.request.priority, item, o2);
      if o2 != Done {
        var _ := redis.AddToDepth(-1, o3);
        return CommandFailed;
      }
      streamXAdd := streamXAdd + 1;
      return Enqueued(id, item.request.priority);
    }

    /** scheduleRetry; `delay` is the finite delay requested, `now` the clock */
    method ScheduleRetry(item: Item, serial: nat, now: int, delay: int, preserveDepth: bool, ready: bool, o: Outcome)
      returns (result: ScheduleResult)
      modifies this, redis
      ensures !ready || o == NoEffect ==> redis.Value() == old(redis.Value())
      ensures ready && Effective(o) ==>
                var due := if delay < 0 then now else now + delay;
                redis.Value() == ScheduleScript(old(redis.Value()), item.request, Payload(item, serial), due,
                                                preserveDepth, config.maxQueueSize).0
      ensures result.RetryScheduled? <==>
                ready && o == Done &&
                (preserveDepth || item.request in old(redis.zset) || old(redis.depth) < config.maxQueueSize)
      ensures result.RetryScheduled? ==>
                && result.retryAt == now + (if delay < 0 then 0 else delay)
                && redis.zset == old(redis.zset)[item.request := result.retryAt]
                && redis.hash == old(redis.hash)[item.request := Payload(item, serial)]
                && redis.entries == old(redis.entries) && redis.nextId == old(redis.nextId)
                && redis.depth == old(redis.depth) + (if preserveDepth || item.request in old(redis.zset) then 0 else 1)
      ensures result == ScheduleFull ==> redis.Value() == old(redis.Value())
      ensures delayedScheduled == old(delayedScheduled) + (if result.RetryScheduled? then 1 else 0)
    {
      if !ready { return ScheduleUnavailable; }
      var retryAt := now + (if delay < 0 then 0 else delay);
      if o == NoEffect { return ScheduleFailed; }
      var reply := redis.EvalSchedule(item.request, Payload(item, serial), retryAt, preserveDepth, config.maxQueueSize);
      if o == ReplyLost { return ScheduleFailed; }
      if reply == ScheduleReply.Full { return ScheduleFull; }
      delayedScheduled := delayedScheduled + 1;
      return RetryScheduled(retryAt);
    }

    /** The loop of _promoteDueRetries over the members one range scan of a priority returned */
    method PromoteMembers(stream: Priority, members: seq<Request>, now: int) returns (promoted: nat)
      modifies this, redis
      ensures (redis.Value(), promoted) == PromotePass(old(redis.Value()), stream, members, now)
      ensures delayedPromoted == old(delayedPromoted) + promoted
      ensures streamXAdd == old(streamXAdd) + promoted
    {
      promoted := 0;
      var k := 0;
      while k < |members|
        invariant 0 <= k <= |members|
        invariant (redis.Value(), promoted) == PromotePass(old(redis.Value()), stream, members[..k], now)
        invariant delayedPromoted == old(delayedPromoted) + promoted
        invariant streamXAdd == old(streamXAdd) + promoted
      {
        assert members[..k + 1][..k] == members[..k];
        var reply := redis.EvalPromote(stream, members[k], now);
        if reply.Promoted? {
          delayedPromoted := delayedPromoted + 1;
          streamXAdd := streamXAdd + 1;
          promoted := promoted + 1;
        }
        k := k + 1;
      }
      assert members[..k] == members;
    }
  }
}
