/**
  The in-memory half of GatewayServer as a class: each method is one stretch of JavaScript between
  two awaits and updates the fields in place. Every contract ties the object to one transition of
  the scheduler, so that what is proved over its runs holds of the object.
 */
module MemoryGateway {
  import opened JsText
  import opened MemoryScheduler

  class GatewayMemory {
    const config: Config
    var clock: int
    var memoryQueue: seq<Item>
    var active: int
    var pumping: bool
    var pumpTimer: bool
    var inflightIdempotency: map<string, Item>
    var idempotencyResults: map<string, Response>
    var nextId: nat
    // suspended async functions and armed timers
    var pump: PumpPc
    var running: seq<Item>
    var draining: nat
    var retryTimers: seq<Item>
    // history
    ghost var finished: map<nat, nat>
    ghost var runs: map<nat, nat>

    ghost function Snapshot(): State
      reads this
    {
      State(clock, memoryQueue, active, pumping, pumpTimer, pump, running, draining, retryTimers,
            inflightIdempotency, idempotencyResults, nextId, finished, runs)
    }

    constructor (config: Config, now: int)
      ensures this.config == config && Snapshot() == Init(now)
    {
      this.config := config;
      clock, memoryQueue, active, pumping, pumpTimer := now, [], 0, false, false;
      inflightIdempotency, idempotencyResults, nextId := map[], map[], 0;
      pump, running, draining, retryTimers := Off, [], 0, [];
      finished, runs := map[], map[];
    }

    method SortMemoryQueue()
      modifies this
      ensures Snapshot() == old(Snapshot()).(queue := SortQueue(old(memoryQueue)))
    {
      memoryQueue := SortQueue(memoryQueue);
    }

    /** _finish: the key is freed and its result kept before the answer is sent */
    method FinishItem(item: Item, ok: bool, code: string)
      modifies this
      ensures Snapshot() == Finish(old(Snapshot()), item, ok, code)
    {
      if item.dedupKey.Some? {
        inflightIdempotency := inflightIdempotency - {item.dedupKey.value};
        idempotencyResults := idempotencyResults[item.dedupKey.value := Response(item.requestId, None, ok, code)];
      }
      finished := Bump(finished, item.id);
    }

    /** active++ and the synchronous part of _execute */
    method StartItem(item: Item)
      modifies this
      ensures Snapshot() == Start(old(Snapshot()), item)
    {
      active := active + 1;
      var started := item.(attempts := item.attempts + 1);
      running := running + [started];
      runs := Bump(runs, item.id);
    }

    /** One turn of the pump's loop; `again` is false when it ended in an await. */
    method ServeHead() returns (again: bool)
      requires active < config.concurrency && |memoryQueue| > 0
      modifies this
      ensures again ==> PumpLoop(config, Snapshot()) == PumpLoop(config, old(Snapshot()))
      ensures again ==> |memoryQueue| < old(|memoryQueue|)
      ensures !again ==> Snapshot() == PumpLoop(config, old(Snapshot()))
    {
      var item := memoryQueue[0];
      memoryQueue := memoryQueue[1..];
      if Expired(item, clock) {
        FinishItem(item, false, "DEADLINE_EXCEEDED");
        pump := AwaitFinish;
        return false;
      }
      if config.limited {
        pump := AwaitDecision(item);
        return false;
      }
      StartItem(item);
      return true;
    }

    /** The pump's loop, from where it starts or resumes to its next await or its end */
    method PumpUntilAwait()
      modifies this
      ensures Snapshot() == PumpLoop(config, old(Snapshot()))
    {
      while active < config.concurrency && |memoryQueue| > 0
        invariant PumpLoop(config, Snapshot()) == PumpLoop(config, old(Snapshot()))
        decreases |memoryQueue|
      {
        var again := ServeHead();
        if !again { return; }
      }
      pumping := false;
      pump := Off;
    }

    /** _pump */
    method PumpQueue()
      modifies this
      ensures Snapshot() == Pump(config, old(Snapshot()))
    {
      if pumping || pumpTimer || |memoryQueue| == 0 { return; }
      pumping := true;
      PumpUntilAwait();
    }

    /** _schedulePump's timer */
    method PumpTimerFires()
      modifies this
      ensures Snapshot() == Pump(config, old(Snapshot()).(pumpTimer := false))
    {
      pumpTimer := false;
      PumpQueue();
    }

    /** The pump resumes with the limiter's answer. */
    method DecisionReturns(decision: Decision)
      requires pump.AwaitDecision?
      modifies this
      ensures Snapshot() == OnDecide(config, old(Snapshot()), decision)
    {
      var item := pump.item;
      match decision
      case Allow =>
        pump := Off;
        StartItem(item);
        PumpUntilAwait();
      case Deny =>
        memoryQueue := [item] + memoryQueue;
        pumpTimer := true;
        pumping := false;
        pump := Off;
      case LimiterError =>
        FinishItem(item, false, "RATE_LIMITER_UNAVAILABLE");
        pump := AwaitFinish;
    }

    /** The adapter of a slot answers or throws. */
    method AdapterReturns(slot: nat, reply: AdapterReply)
      requires slot < |running|
      modifies this
      ensures Snapshot() == OnComplete(config, old(Snapshot()), slot, reply)
    {
      var item := running[slot];
      running := Without(running, slot);
      draining := draining + 1;
      match reply
      case Returns => FinishItem(item, true, "");
      case Throws(retryable, code) =>
        if retryable && item.attempts <= config.maxAttempts && !Expired(item, clock) {
          retryTimers := retryTimers + [item];
        } else {
          FinishItem(item, false, code);
        }
    }

    /** The slot is given back once _execute has returned. */
    method SlotReturns()
      requires draining > 0
      modifies this
      ensures Snapshot() == Pump(config, ReleaseSlot(old(Snapshot())))
    {
      draining := draining - 1;
      active := active - 1;
      PumpQueue();
    }

    /** _requeue, when its timer fires */
    method RetryTimerFires(timer: nat)
      requires timer < |retryTimers|
      modifies this
      ensures Snapshot() == Pump(config, MemoryScheduler.Requeue(old(Snapshot()), timer))
    {
      var item := retryTimers[timer];
      retryTimers := Without(retryTimers, timer);
      memoryQueue := memoryQueue + [item];
      SortMemoryQueue();
      PumpQueue();
    }

    /** _claimIdempotencySync and the reply its caller makes of it */
    method ClaimIdempotency(m: Message) returns (reply: Option<Reply>)
      ensures reply == Claim(Snapshot(), m)
    {
      if m.dedupKey.None? { return None; }
      var k := m.dedupKey.value;
      if k in inflightIdempotency { return Some(DuplicateOf(inflightIdempotency[k].requestId)); }
      if k in idempotencyResults {
        return Some(CachedResult(ResponseForRequest(idempotencyResults[k], m.requestId)));
      }
      return None;
    }

    method AcceptItem(m: Message) returns (id: nat)
      modifies this
      ensures Snapshot() == Accept(old(Snapshot()), m) && id == old(nextId)
    {
      id := nextId;
      var item := Item(id, m.requestId, m.dedupKey, m.bulk, clock, m.deadlineAt, 0);
      if m.dedupKey.Some? { inflightIdempotency := inflightIdempotency[m.dedupKey.value := item]; }
      PushItem(item);
    }

    /** The item's id is taken; it joins the queue in order. */
    method PushItem(item: Item)
      modifies this
      ensures Snapshot() == old(Snapshot()).(nextId := old(nextId) + 1, queue := SortQueue(old(memoryQueue) + [item]))
    {
      nextId := nextId + 1;
      memoryQueue := memoryQueue + [item];
      SortMemoryQueue();
    }

    /** _enqueue: nothing is awaited between the claim and the push, so no duplicate slips in. */
    method EnqueueRequest(m: Message) returns (reply: Reply)
      modifies this
      ensures (Snapshot(), reply) == Enqueue(config, old(Snapshot()), m)
    {
      if |memoryQueue| >= config.maxQueueSize { return QueueFull; }
      var duplicate := ClaimIdempotency(m);
      if duplicate.Some? { return duplicate.value; }
      var id := AcceptItem(m);
      reply := Accepted(id, Position(memoryQueue, id));
      PumpQueue();
    }
  }
}
