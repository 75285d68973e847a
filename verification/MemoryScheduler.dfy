/**
  The gateway's in-memory scheduler and idempotency tables as a transition system. One event is
  one stretch of JavaScript between two awaits: a message, a timer, an adapter result, or the
  resumption of the pump after the rate limiter or a delivery.
 */
module MemoryScheduler {
  import opened JsText

  datatype Item = Item(id: nat, requestId: string, dedupKey: Option<string>, bulk: bool,
                       enqueuedAt: int, deadlineAt: Option<int>, attempts: nat)

  datatype Response = Response(requestId: string, duplicateOf: Option<string>, ok: bool, code: string)

  /** `limited`: whether a rate limiter is configured. Concurrency is a positive integer. */
  datatype Config = Config(concurrency: nat, maxQueueSize: nat, maxAttempts: nat, limited: bool)

  /** Where the pump's async function is */
  datatype PumpPc = Off | AwaitDecision(item: Item) | AwaitFinish

  datatype State = State(
    clock: int,
    queue: seq<Item>,
    active: int,
    pumping: bool,
    pumpTimer: bool,
    pump: PumpPc,
    running: seq<Item>,   // slots whose adapter has not answered
    draining: nat,        // slots whose item is settled but which still count in `active`
    retries: seq<Item>,   // armed retry timers
    inflight: map<string, Item>,
    results: map<string, Response>,
    nextId: nat,
    // history
    finished: map<nat, nat>,
    runs: map<nat, nat>)

  function Init(clock: int): State {
    State(clock, [], 0, false, false, Off, [], 0, [], map[], map[], 0, map[], map[])
  }

  // ---------------------------------------------------------------- the queue's order

  /** PRIORITY[priority] || PRIORITY.normal: bulk is 0, which is falsy */
  function Weight(bulk: bool): int {
    var p := if bulk then 0 else 1;
    if p != 0 then p else 1
  }

  /** The comparator of _sortQueue: negative when `left` goes first */
  function Compare(left: Item, right: Item): int {
    var priority := Weight(right.bulk) - Weight(left.bulk);
    if priority != 0 then priority else left.enqueuedAt - right.enqueuedAt
  }

  /** Stable insertion into a sorted queue: after everything that does not go behind `x` */
  function Insert(q: seq<Item>, x: Item): seq<Item> {
    if q != [] && Compare(q[|q| - 1], x) > 0 then Insert(q[..|q| - 1], x) + [q[|q| - 1]] else q + [x]
  }

  /** Array.prototype.sort, which is stable */
  function SortQueue(q: seq<Item>): seq<Item> {
    if q == [] then [] else Insert(SortQueue(q[..|q| - 1]), q[|q| - 1])
  }

  // ---------------------------------------------------------------- transitions

  predicate Expired(item: Item, clock: int) { item.deadlineAt.Some? && item.deadlineAt.value <= clock }

  function Count(m: map<nat, nat>, k: nat): nat { if k in m then m[k] else 0 }

  function Bump(m: map<nat, nat>, k: nat): map<nat, nat> { m[k := Count(m, k) + 1] }

  /** _finish, up to and including delivery */
  function Finish(s: State, item: Item, ok: bool, code: string): State {
    s.(finished := Bump(s.finished, item.id),
       inflight := if item.dedupKey.Some? then s.inflight - {item.dedupKey.value} else s.inflight,
       results := if item.dedupKey.Some?
                  then s.results[item.dedupKey.value := Response(item.requestId, None, ok, code)] else s.results)
  }

  /** active++ and the synchronous part of _execute */
  function Start(s: State, item: Item): State {
    s.(active := s.active + 1,
       running := s.running + [item.(attempts := item.attempts + 1)],
       runs := Bump(s.runs, item.id))
  }

  /** The pump's loop, until it awaits something or stops */
  function PumpLoop(c: Config, s: State): State
    decreases |s.queue|
  {
    if s.active >= c.concurrency || s.queue == [] then s.(pumping := false, pump := Off)
    else
      var item := s.queue[0];
      var s1 := s.(queue := s.queue[1..]);
      if Expired(item, s.clock) then Finish(s1, item, false, "DEADLINE_EXCEEDED").(pump := AwaitFinish)
      else if c.limited then s1.(pump := AwaitDecision(item))
      else PumpLoop(c, Start(s1, item))
  }

  function Pump(c: Config, s: State): State {
    if s.pumping || s.pumpTimer || s.queue == [] then s else PumpLoop(c, s.(pumping := true))
  }

  datatype Message = Message(requestId: string, dedupKey: Option<string>, bulk: bool, deadlineAt: Option<int>)

  datatype Reply =
    | QueueFull
    | Accepted(id: nat, position: nat)   // position 1 is the head of the queue
    | DuplicateOf(requestId: string)     // the original is still unfinished
    | CachedResult(response: Response)

  function ResponseForRequest(r: Response, requestId: string): Response {
    if r.requestId == requestId then r else Response(requestId, Some(r.requestId), r.ok, r.code)
  }

  /** _claimIdempotencySync, and what is sent when it finds something */
  function Claim(s: State, m: Message): Option<Reply> {
    if m.dedupKey.None? then None
    else
      var k := m.dedupKey.value;
      if k in s.inflight then Some(DuplicateOf(s.inflight[k].requestId))
      else if k in s.results then Some(CachedResult(ResponseForRequest(s.results[k], m.requestId)))
      else None
  }

  function Position(q: seq<Item>, id: nat): nat {
    if q == [] then 0 else if q[0].id == id then 1
    else if Position(q[1..], id) == 0 then 0 else 1 + Position(q[1..], id)
  }

  function NewItem(s: State, m: Message): Item {
    Item(s.nextId, m.requestId, m.dedupKey, m.bulk, s.clock, m.deadlineAt, 0)
  }

  /** The new item claims its key and joins the queue */
  function Accept(s: State, m: Message): State {
    s.(nextId := s.nextId + 1,
       queue := SortQueue(s.queue + [NewItem(s, m)]),
       inflight := if m.dedupKey.Some? then s.inflight[m.dedupKey.value := NewItem(s, m)] else s.inflight)
  }

  /** _enqueue of a valid request, without an external queue */
  function Enqueue(c: Config, s: State, m: Message): (State, Reply) {
    if |s.queue| >= c.maxQueueSize then (s, QueueFull)
    else if Claim(s, m).Some? then (s, Claim(s, m).value)
    else (Pump(c, Accept(s, m)), Accepted(s.nextId, Position(Accept(s, m).queue, s.nextId)))
  }

  datatype Decision = Allow | Deny | LimiterError

  datatype AdapterReply = Returns | Throws(retryable: bool, code: string)

  datatype Event =
    | Tick(to: int)
    | Receive(m: Message)
    | Decide(decision: Decision)
    | FinishReturned
    | PumpTimer
    | Complete(slot: nat, reply: AdapterReply)
    | SlotDone
    | RetryTimer(timer: nat)
    | ResultExpires(key: string)

  predicate Enabled(s: State, e: Event) {
    match e
    case Tick(to) => to >= s.clock
    case Receive(_) => true
    case Decide(_) => s.pump.AwaitDecision?
    case FinishReturned => s.pump.AwaitFinish?
    case PumpTimer => s.pumpTimer
    case Complete(slot, _) => slot < |s.running|
    case SlotDone => s.draining > 0
    case RetryTimer(timer) => timer < |s.retries|
    case ResultExpires(key) => true
  }

  function Without(q: seq<Item>, i: nat): seq<Item>
    requires i < |q|
  {
    q[..i] + q[i + 1..]
  }

  function ReleaseSlot(s: State): State
    requires s.draining > 0
  {
    s.(draining := s.draining - 1, active := s.active - 1)
  }

  /** _requeue, up to its call of the pump */
  function Requeue(s: State, timer: nat): State
    requires timer < |s.retries|
  {
    s.(retries := Without(s.retries, timer), queue := SortQueue(s.queue + [s.retries[timer]]))
  }

  function OnDecide(c: Config, s: State, d: Decision): State
    requires s.pump.AwaitDecision?
  {
    var item := s.pump.item;
    match d
    case Allow => PumpLoop(c, Start(s.(pump := Off), item))
    case Deny => s.(queue := [item] + s.queue, pumpTimer := true, pumping := false, pump := Off)
    case LimiterError => Finish(s, item, false, "RATE_LIMITER_UNAVAILABLE").(pump := AwaitFinish)
  }

  function OnComplete(c: Config, s: State, slot: nat, r: AdapterReply): State
    requires slot < |s.running|
  {
    var item := s.running[slot];
    var s1 := s.(running := Without(s.running, slot), draining := s.draining + 1);
    match r
    case Returns => Finish(s1, item, true, "")
    case Throws(retryable, code) =>
      if retryable && item.attempts <= c.maxAttempts && !Expired(item, s.clock)
      then s1.(retries := s.retries + [item])
      else Finish(s1, item, false, code)
  }

  function Apply(c: Config, s: State, e: Event): State
    requires Enabled(s, e)
  {
    match e
    case Tick(to) => s.(clock := to)
    case Receive(m) => Enqueue(c, s, m).0
    case Decide(d) => OnDecide(c, s, d)
    case FinishReturned => PumpLoop(c, s)
    case PumpTimer => Pump(c, s.(pumpTimer := false))
    case Complete(slot, r) => OnComplete(c, s, slot, r)
    case SlotDone => Pump(c, ReleaseSlot(s))
    case RetryTimer(t) => Pump(c, Requeue(s, t))
    case ResultExpires(key) => s.(results := s.results - {key})
  }

  predicate Allowed(c: Config, s: State, es: seq<Event>)
    decreases |es|
  {
    es == [] || (Enabled(s, es[0]) && Allowed(c, Apply(c, s, es[0]), es[1..]))
  }

  function Run(c: Config, s: State, es: seq<Event>): State
    requires Allowed(c, s, es)
    decreases |es|
  {
    if es == [] then s else Run(c, Apply(c, s, es[0]), es[1..])
  }
}
