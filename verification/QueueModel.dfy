/**
  The durable queue as a transition system: the Redis keys the gateway uses, the
  program counters of the gateway processes that work on them, and one event per
  Redis command, per Lua script, or per stretch of JavaScript between two awaits.

  Every command may succeed, fail without effect, or take effect and lose its
  reply; a process may crash between any two events and come back.
 */
module QueueModel {

  datatype Priority = Normal | Bulk

  /** Identity of one accepted request. Its retry token is the three fields joined, so
      requests and tokens are in bijection (the distinct-token hypothesis). */
  datatype Request = Request(pod: string, id: string, priority: Priority)

  /** A queue item; `attempts` is the only field of it the protocol reads. */
  datatype Item = Item(request: Request, attempts: nat)

  /** An un-ACKed stream entry; `delivered` once it is in the group's pending list. */
  datatype Entry = Entry(stream: Priority, item: Item, delivered: bool)

  /** A delayed retry's payload; `serial` numbers the scheduling that wrote it. */
  datatype Payload = Payload(item: Item, serial: nat)

  /** The keys of one prefix. Both priorities' retry keys are kept in one map each: a token
      starts with its priority, so the two sorted sets (and hashes) never share a member. */
  datatype Redis = Redis(
    depth: int,
    nextId: nat,
    entries: map<nat, Entry>,
    zset: map<Request, int>,
    hash: map<Request, Payload>)

  datatype Config = Config(maxQueueSize: nat, maxAttempts: nat)

  // ---------------------------------------------------------------- Lua scripts

  datatype ScheduleReply = Full | Scheduled(already: bool)

  /** SCHEDULE_RETRY_SCRIPT */
  function ScheduleScript(r: Redis, request: Request, payload: Payload, due: int,
                          preserveDepth: bool, max: nat): (Redis, ScheduleReply)
  {
    var already := request in r.zset;
    if !already && !preserveDepth && r.depth + 1 > max then (r, Full)
    else
      var depth := if already || preserveDepth then r.depth else r.depth + 1;
      (r.(depth := depth, hash := r.hash[request := payload], zset := r.zset[request := due]),
       Scheduled(already))
  }

  datatype PromoteReply = NotDue | PayloadMissing | Promoted(id: nat, serial: nat)

  /** PROMOTE_RETRY_SCRIPT on the keys of one priority */
  function PromoteScript(r: Redis, stream: Priority, request: Request, now: int): (Redis, PromoteReply)
  {
    if request !in r.zset || r.zset[request] > now then (r, NotDue)
    else if request !in r.hash then (r.(zset := r.zset - {request}), PayloadMissing)
    else
      var payload := r.hash[request];
      (r.(nextId := r.nextId + 1,
          entries := r.entries[r.nextId := Entry(stream, payload.item, false)],
          zset := r.zset - {request},
          hash := r.hash - {request}),
       Promoted(r.nextId, payload.serial))
  }

  // ---------------------------------------------------------------- process side

  datatype EnqueuePc =
    | Reserved   // INCR done, below the limit, XADD not yet issued
    | OverLimit  // INCR went over the limit, DECR not yet issued
    | Rollback   // XADD threw, DECR not yet issued

  datatype Enqueuer = Enqueuer(process: nat, item: Item, pc: EnqueuePc)

  datatype DispatchPc =
    | Taken               // the message is in a reply the consumer received, its handler not started
    | Running             // handler entered, outcome not chosen yet
    | Executing           // adapter called
    | Caught              // adapter or first response failed, in the catch block
    | MustAnswer          // rescheduling failed, only a failure response is left
    | Answered            // handler returned an undeferred outcome, XACK next
    | Deferred(mark: nat) // handler returned { deferred: true }; `mark` = next entry id then
    | Acked               // XACKed, DECR next

  datatype Dispatch = Dispatch(process: nat, entry: nat, item: Item, pc: DispatchPc)

  datatype State = State(
    redis: Redis,
    clock: int,
    nextCall: nat,
    enqueuers: map<nat, Enqueuer>,
    dispatches: map<nat, Dispatch>,
    scans: map<nat, int>,         // process -> the `now` of its current promotion pass
    used: set<Request>,           // requests that came in
    nextSerial: nat,              // of the schedulings
    // history, read by no transition
    drift: int,
    landed: set<Request>,         // stored in a stream or as a delayed retry at least once
    answered: map<Request, nat>,  // responses sent, or written to the pending-result hash
    runs: map<Request, nat>,      // adapter calls
    promoted: map<nat, nat>)      // serials moved back to a stream

  /** Event counters */
  function Count<K>(m: map<K, nat>, k: K): nat { if k in m then m[k] else 0 }

  function Bump<K>(m: map<K, nat>, k: K): map<K, nat> { m[k := Count(m, k) + 1] }

  function Init(clock: int): State {
    State(Redis(0, 0, map[], map[], map[]), clock, 0, map[], map[], map[],
          {}, 0, 0, {}, map[], map[], map[])
  }

  datatype Outcome =
    | Done       // command executed, reply received
    | NoEffect   // command failed
    | ReplyLost  // command executed, the caller sees an error

  predicate Effective(o: Outcome) { o != NoEffect }

  datatype Event =
    | Tick(to: int)
    | Incr(process: nat, item: Item, outcome: Outcome)
    | XAdd(call: nat, outcome: Outcome)
    | Undo(call: nat, outcome: Outcome)
    | ScheduleNew(item: Item, due: int, outcome: Outcome)
    | Fetch(process: nat, batch: seq<nat>, outcome: Outcome)
    | Begin(call: nat)    // the handler starts
    | Forget(call: nat)   // the received message is dropped: a later command of the same round failed
    | LookupFails(call: nat)
    | Execute(call: nat)
    | AdapterFails(call: nat)
    | Respond(call: nat, outcome: Outcome)
    | Reschedule(call: nat, due: int, outcome: Outcome)
    | XAck(call: nat, outcome: Outcome)
    | Decr(call: nat, outcome: Outcome)
    | Scan(process: nat)
    | Promote(process: nat, request: Request, outcome: Outcome)
    | Crash(process: nat)

  /** Live dispatch of entry `e`, by any process */
  ghost predicate Live(s: State, e: nat) {
    exists d :: d in s.dispatches && s.dispatches[d].entry == e && s.dispatches[d].pc != Acked
  }

  /** Entries of one stream: never delivered, as XREADGROUP with '>' returns them, or pending, as
      XAUTOCLAIM does */
  ghost predicate From(r: Redis, batch: seq<nat>, stream: Priority, pending: bool) {
    forall e :: e in batch ==> e in r.entries && r.entries[e].stream == stream && r.entries[e].delivered == pending
  }

  predicate Distinct(batch: seq<nat>) { forall i, j :: 0 <= i < j < |batch| ==> batch[i] != batch[j] }

  /** The reply of one XREADGROUP or XAUTOCLAIM lists an entry once. */
  ghost predicate BatchOk(r: Redis, batch: seq<nat>) {
    && Distinct(batch)
    && (forall e :: e in batch ==> e in r.entries)
    && exists stream, pending :: From(r, batch, stream, pending)
  }

  ghost predicate Enabled(c: Config, s: State, e: Event) {
    match e
    case Tick(to) => to >= s.clock
    case Incr(_, item, _) => item.request !in s.used && item.attempts == 0
    case XAdd(call, _) => call in s.enqueuers && s.enqueuers[call].pc == Reserved
    case Undo(call, _) => call in s.enqueuers && s.enqueuers[call].pc != Reserved
    case ScheduleNew(item, due, _) => item.request !in s.used && item.attempts == 0 && due >= s.clock
    case Fetch(_, batch, _) => BatchOk(s.redis, batch)
    case Begin(call) => call in s.dispatches && s.dispatches[call].pc == Taken
    case Forget(call) => call in s.dispatches && s.dispatches[call].pc == Taken
    case LookupFails(call) => call in s.dispatches && s.dispatches[call].pc == Running
    case Execute(call) => call in s.dispatches && s.dispatches[call].pc == Running
    case AdapterFails(call) => call in s.dispatches && s.dispatches[call].pc == Executing
    case Respond(call, _) =>
      call in s.dispatches && s.dispatches[call].pc in {Running, Executing, Caught, MustAnswer}
    case Reschedule(call, due, _) =>
      && call in s.dispatches
      && due >= s.clock
      && (|| s.dispatches[call].pc == Running  // rate limited
          || (s.dispatches[call].pc == Caught && s.dispatches[call].item.attempts <= c.maxAttempts))
    case XAck(call, _) =>
      call in s.dispatches && (s.dispatches[call].pc == Answered || s.dispatches[call].pc.Deferred?)
    case Decr(call, _) => call in s.dispatches && s.dispatches[call].pc == Acked
    case Scan(process) => true
    case Promote(process, _, _) => process in s.scans
    case Crash(_) => true
  }

  // ---------------------------------------------------------------- transitions

  function Drop<V>(m: map<nat, V>, k: nat): map<nat, V> { m - {k} }

  function SetPc(ds: map<nat, Dispatch>, call: nat, pc: DispatchPc): map<nat, Dispatch>
    requires call in ds
  {
    ds[call := ds[call].(pc := pc)]
  }

  function AddEntry(r: Redis, item: Item): Redis {
    r.(nextId := r.nextId + 1, entries := r.entries[r.nextId := Entry(item.request.priority, item, false)])
  }

  function AddDepth(r: Redis, delta: int): Redis { r.(depth := r.depth + delta) }

  /** enqueue, first segment: INCR and the limit test */
  function OnIncr(c: Config, s: State, process: nat, item: Item, o: Outcome): State {
    var pc := if s.redis.depth + 1 > c.maxQueueSize then OverLimit else Reserved;
    s.(used := s.used + {item.request},
       redis := if Effective(o) then AddDepth(s.redis, 1) else s.redis,
       nextCall := s.nextCall + 1,
       enqueuers := if o == Done then s.enqueuers[s.nextCall := Enqueuer(process, item, pc)] else s.enqueuers)
  }

  function OnXAdd(s: State, call: nat, o: Outcome): State
    requires call in s.enqueuers
  {
    var q := s.enqueuers[call];
    s.(redis := if Effective(o) then AddEntry(s.redis, q.item) else s.redis,
       landed := if Effective(o) then s.landed + {q.item.request} else s.landed,
       enqueuers := if o == Done then Drop(s.enqueuers, call) else s.enqueuers[call := q.(pc := Rollback)])
  }

  function OnUndo(s: State, call: nat, o: Outcome): State {
    s.(redis := if Effective(o) then AddDepth(s.redis, -1) else s.redis,
       enqueuers := Drop(s.enqueuers, call))
  }

  function OnScheduleNew(c: Config, s: State, item: Item, due: int, o: Outcome): State {
    var (r, reply) := ScheduleScript(s.redis, item.request, Payload(item, s.nextSerial), due, false, c.maxQueueSize);
    var stored := Effective(o) && reply.Scheduled?;
    s.(used := s.used + {item.request},
       redis := if stored then r else s.redis,
       nextSerial := s.nextSerial + 1,
       landed := if stored then s.landed + {item.request} else s.landed)
  }

  /** The entries of the batch are marked delivered. */
  function Deliver(es: map<nat, Entry>, batch: seq<nat>): (es': map<nat, Entry>)
    ensures es'.Keys == es.Keys
    ensures forall e :: e in es ==> es'[e] == if e in batch then es[e].(delivered := true) else es[e]
    decreases |batch|
  {
    if batch == [] then es
    else
      var rest, e := batch[..|batch| - 1], batch[|batch| - 1];
      assert batch == rest + [e];
      var es1 := Deliver(es, rest);
      if e in es then es1[e := es[e].(delivered := true)] else es1
  }

  /** One dispatch per message of the batch, numbered from `first` */
  function Handlers(es: map<nat, Entry>, process: nat, first: nat, batch: seq<nat>): (ds: map<nat, Dispatch>)
    requires forall e :: e in batch ==> e in es
    ensures forall d :: d in ds <==> first <= d < first + |batch|
    ensures forall d :: d in ds ==>
              batch[d - first] in batch
              && ds[d] == Dispatch(process, batch[d - first], es[batch[d - first]].item, Taken)
    decreases |batch|
  {
    if batch == [] then map[]
    else
      var rest, e := batch[..|batch| - 1], batch[|batch| - 1];
      assert batch == rest + [e];
      Handlers(es, process, first, rest)[first + |batch| - 1 := Dispatch(process, e, es[e].item, Taken)]
  }

  function OnFetch(s: State, process: nat, batch: seq<nat>, o: Outcome): State
    requires forall e :: e in batch ==> e in s.redis.entries
  {
    s.(redis := if Effective(o) then s.redis.(entries := Deliver(s.redis.entries, batch)) else s.redis,
       nextCall := s.nextCall + |batch|,
       dispatches := if o == Done then s.dispatches + Handlers(s.redis.entries, process, s.nextCall, batch)
                     else s.dispatches)
  }

  function OnExecute(s: State, call: nat): State
    requires call in s.dispatches
  {
    var d := s.dispatches[call];
    s.(runs := Bump(s.runs, d.item.request),
       dispatches := s.dispatches[call := d.(pc := Executing, item := d.item.(attempts := d.item.attempts + 1))])
  }

  /** _finish, or delivery of a cached response. A failure inside the adapter's `try` is caught
      and handled like an adapter failure; anywhere else it ends the handler without an ACK. */
  function OnRespond(s: State, call: nat, o: Outcome): State
    requires call in s.dispatches
  {
    var d := s.dispatches[call];
    s.(answered := if Effective(o) then Bump(s.answered, d.item.request) else s.answered,
       dispatches := if o == Done then SetPc(s.dispatches, call, Answered)
                     else if d.pc == Executing then SetPc(s.dispatches, call, Caught)
                     else Drop(s.dispatches, call))
  }

  /** _requeue with preserveDepth: the entry's slot goes to the delayed retry */
  function OnReschedule(c: Config, s: State, call: nat, due: int, o: Outcome): State
    requires call in s.dispatches
  {
    var d := s.dispatches[call];
    var payload := Payload(d.item, s.nextSerial);
    s.(redis := if Effective(o)
                then ScheduleScript(s.redis, d.item.request, payload, due, true, c.maxQueueSize).0
                else s.redis,
       nextSerial := s.nextSerial + 1,
       dispatches := SetPc(s.dispatches, call, if o == Done then Deferred(s.redis.nextId) else MustAnswer))
  }

  /** XACK, whose reply count is not looked at; a deferred outcome skips the DECR */
  function OnXAck(s: State, call: nat, o: Outcome): State
    requires call in s.dispatches
  {
    var d := s.dispatches[call];
    s.(redis := if Effective(o) then s.redis.(entries := Drop(s.redis.entries, d.entry)) else s.redis,
       dispatches := if o == Done && d.pc == Answered then SetPc(s.dispatches, call, Acked)
                     else Drop(s.dispatches, call))
  }

  function OnDecr(s: State, call: nat, o: Outcome): State {
    s.(redis := if Effective(o) then AddDepth(s.redis, -1) else s.redis,
       dispatches := Drop(s.dispatches, call))
  }

  function OnPromote(s: State, process: nat, request: Request, o: Outcome): State
    requires process in s.scans
  {
    var (r, reply) := PromoteScript(s.redis, request.priority, request, s.scans[process]);
    s.(redis := if Effective(o) then r else s.redis,
       promoted := if Effective(o) && reply.Promoted? then Bump(s.promoted, reply.serial) else s.promoted)
  }

  function OnCrash(s: State, process: nat): State {
    s.(enqueuers := s.enqueuers - (set q | q in s.enqueuers && s.enqueuers[q].process == process),
       dispatches := s.dispatches - (set d | d in s.dispatches && s.dispatches[d].process == process),
       scans := Drop(s.scans, process))
  }

  ghost function Effect(c: Config, s: State, e: Event): State
    requires Enabled(c, s, e)
  {
    match e
    case Tick(to) => s.(clock := to)
    case Incr(process, item, o) => OnIncr(c, s, process, item, o)
    case XAdd(call, o) => OnXAdd(s, call, o)
    case Undo(call, o) => OnUndo(s, call, o)
    case ScheduleNew(item, due, o) => OnScheduleNew(c, s, item, due, o)
    case Fetch(process, batch, o) => OnFetch(s, process, batch, o)
    case Begin(call) => s.(dispatches := SetPc(s.dispatches, call, Running))
    case Forget(call) => s.(dispatches := Drop(s.dispatches, call))
    case LookupFails(call) => s.(dispatches := Drop(s.dispatches, call))
    case Execute(call) => OnExecute(s, call)
    case AdapterFails(call) => s.(dispatches := SetPc(s.dispatches, call, Caught))
    case Respond(call, o) => OnRespond(s, call, o)
    case Reschedule(call, due, o) => OnReschedule(c, s, call, due, o)
    case XAck(call, o) => OnXAck(s, call, o)
    case Decr(call, o) => OnDecr(s, call, o)
    case Scan(process) => s.(scans := s.scans[process := s.clock])
    case Promote(process, request, o) => OnPromote(s, process, request, o)
    case Crash(process) => OnCrash(s, process)
  }

  // ---------------------------------------------------------------- depth accounting

  /** Entries whose slot a live dispatch has passed on to a delayed retry */
  function HandedOver(ds: map<nat, Dispatch>): set<nat> {
    set d | d in ds && ds[d].pc.Deferred? :: ds[d].entry
  }

  /** Un-ACKed entries that still own their slot */
  function Owned(s: State): set<nat> { s.redis.entries.Keys - HandedOver(s.dispatches) }

  /** Dispatches between XACK and DECR */
  function Releasing(ds: map<nat, Dispatch>): set<nat> { set d | d in ds && ds[d].pc == Acked }

  function Accounted(s: State): int {
    |Owned(s)| + |s.redis.zset| + |s.enqueuers| + |Releasing(s.dispatches)|
  }

  function Unit(b: bool): int { if b then 1 else 0 }

  /** What each event adds to `depth` beyond the accounted slots: faults, and an XACK or a hand-over of an
      entry that does not own a slot (any more) */
  ghost function Delta(c: Config, s: State, e: Event): int
    requires Enabled(c, s, e)
  {
    match e
    case Incr(_, _, o) => Unit(o == ReplyLost)
    case XAdd(_, o) => -Unit(o == ReplyLost)
    case Undo(_, o) => Unit(o == NoEffect)
    case Decr(_, o) => Unit(o == NoEffect)
    case Reschedule(call, _, o) =>
      var d := s.dispatches[call];
      Unit(o == Done && d.entry in Owned(s)) - Unit(Effective(o) && d.item.request !in s.redis.zset)
    case XAck(call, o) =>
      var d := s.dispatches[call];
      if d.pc == Answered then
        Unit(Effective(o) && d.entry in Owned(s)) - Unit(o == Done)
      else
        -Unit(o == NoEffect && d.entry in s.redis.entries && d.entry !in HandedOver(Drop(s.dispatches, call)))
    case Promote(p, request, o) =>
      Unit(Effective(o) && PromoteScript(s.redis, request.priority, request, s.scans[p]).1.PayloadMissing?)
    case Crash(process) =>
      var s' := OnCrash(s, process);
      |s.enqueuers.Keys - s'.enqueuers.Keys|
      + |Releasing(s.dispatches) - Releasing(s'.dispatches)|
      - |s.redis.entries.Keys * (HandedOver(s.dispatches) - HandedOver(s'.dispatches))|
    case _ => 0
  }

  ghost function Apply(c: Config, s: State, e: Event): State
    requires Enabled(c, s, e)
  {
    Effect(c, s, e).(drift := s.drift + Delta(c, s, e))
  }

  // ---------------------------------------------------------------- runs

  ghost predicate Allowed(c: Config, s: State, es: seq<Event>)
    decreases |es|
  {
    es == [] || (Enabled(c, s, es[0]) && Allowed(c, Apply(c, s, es[0]), es[1..]))
  }

  ghost function Run(c: Config, s: State, es: seq<Event>): State
    requires Allowed(c, s, es)
    decreases |es|
  {
    if es == [] then s else Run(c, Apply(c, s, es[0]), es[1..])
  }

  lemma {:induction false} Extend(c: Config, s: State, es: seq<Event>, e: Event)
    requires Allowed(c, s, es) && Enabled(c, Run(c, s, es), e)
    ensures Allowed(c, s, es + [e]) && Run(c, s, es + [e]) == Apply(c, Run(c, s, es), e)
    decreases |es|
  {
    if es == [] {
      assert Allowed(c, Apply(c, s, e), []);
      assert (es + [e])[1..] == [];
    } else {
      assert (es + [e])[1..] == es[1..] + [e];
      Extend(c, Apply(c, s, es[0]), es[1..], e);
    }
  }

  /** The sum of what `h` gives for the events of a run */
  ghost function Summed(c: Config, s: State, es: seq<Event>, h: (State, Event) -> nat): nat
    requires Allowed(c, s, es)
    decreases |es|
  {
    if es == [] then 0 else h(s, es[0]) + Summed(c, Apply(c, s, es[0]), es[1..], h)
  }

  lemma {:induction false} SummedSnoc(c: Config, s: State, es: seq<Event>, e: Event, h: (State, Event) -> nat)
    requires Allowed(c, s, es) && Allowed(c, s, es + [e])
    ensures Summed(c, s, es + [e], h) == Summed(c, s, es, h) + h(Run(c, s, es), e)
    decreases |es|
  {
    var all := es + [e];
    if es == [] {
      assert all == [e] && all[1..] == [];
    } else {
      assert all[0] == es[0] && all[1..] == es[1..] + [e];
      SummedSnoc(c, Apply(c, s, es[0]), es[1..], e, h);
    }
  }

  /** A command that failed or lost its reply, a lookup that failed, or a crash */
  predicate Failed(e: Event) {
    match e
    case Incr(_, _, o) => o != Done
    case XAdd(_, o) => o != Done
    case Undo(_, o) => o != Done
    case ScheduleNew(_, _, o) => o != Done
    case Fetch(_, _, o) => o != Done
    case Forget(_) => true
    case LookupFails(_) => true
    case Respond(_, o) => o != Done
    case Reschedule(_, _, o) => o != Done
    case XAck(_, o) => o != Done
    case Decr(_, o) => o != Done
    case Promote(_, _, o) => o != Done
    case Crash(_) => true
    case _ => false
  }

  /** A failure, or a fetch of an entry while another dispatch of it is live */
  ghost predicate Faulty(s: State, e: Event) { Failed(e) || Refetches(s, e) }

  ghost predicate Refetches(s: State, e: Event) { e.Fetch? && exists x :: x in e.batch && Live(s, x) }

  ghost predicate FaultFree(c: Config, s: State, es: seq<Event>)
    requires Allowed(c, s, es)
    decreases |es|
  {
    es == [] || (!Faulty(s, es[0]) && FaultFree(c, Apply(c, s, es[0]), es[1..]))
  }
}
