/**
  Runs without faults: the counter never drifts, one handler works on a request, none is answered twice
  or run too often, and the number of live requests stays within the limit.
 */
module QueueFaultFree {
  import opened QueueModel
  import opened QueueSafety
  import opened QueueDepth
  import opened QueueCapacity
  import opened QueueView
  import opened QueueIsolation

  // ---------------------------------------------------------------- fault-free runs

  ghost predicate Orderly(c: Config, s: State) {
    && Consistent(s) && Secured(s) && Balanced(s) && s.drift == 0
    && forall r :: Sound(c, ViewOf(s, r))
  }

  lemma OrderlyStep(c: Config, s: State, e: Event)
    requires Orderly(c, s) && Enabled(c, s, e) && !Faulty(s, e)
    ensures Orderly(c, Apply(c, s, e)) && Freed(c, s, e) == 0
  {
    ConsistentStep(c, s, e);
    SecuredStep(c, s, e);
    BalancedStep(c, s, e);
    NoDrift(c, s, e);
    NoFaultNoHarm(s, e);
    forall r ensures Sound(c, ViewOf(Apply(c, s, e), r)) { SoundStep(c, s, e, r); }
  }

  lemma {:induction false} RunOrderly(c: Config, s: State, es: seq<Event>)
    requires Orderly(c, s) && Allowed(c, s, es) && FaultFree(c, s, es)
    ensures Orderly(c, Run(c, s, es)) && FreedIn(c, s, es) == 0
    decreases |es|
  {
    if es != [] {
      OrderlyStep(c, s, es[0]);
      RunOrderly(c, Apply(c, s, es[0]), es[1..]);
    }
  }

  lemma InitOrderly(c: Config, clock: int)
    ensures Orderly(c, Init(clock))
  {
    var s := Init(clock);
    assert Owned(s) == {} && Releasing(s.dispatches) == {};
    forall r ensures Sound(c, ViewOf(s, r)) { InitSound(c, clock, r); }
  }

  /** No fault, no drift: the counter is exactly the named slots, and 0 once nothing is left. */
  lemma ExactDepth(c: Config, clock: int, es: seq<Event>)
    requires Allowed(c, Init(clock), es) && FaultFree(c, Init(clock), es)
    ensures var s := Run(c, Init(clock), es);
      && s.redis.depth == Accounted(s)
      && (s.redis.entries == map[] && s.redis.zset == map[] && s.enqueuers == map[] && s.dispatches == map[] ==>
            s.redis.depth == 0)
  {
    InitOrderly(c, clock);
    RunOrderly(c, Init(clock), es);
    var s := Run(c, Init(clock), es);
    if s.redis.entries == map[] && s.dispatches == map[] {
      assert Owned(s) == {} && Releasing(s.dispatches) == {};
    }
  }

  /** Every request has one handler at a time, bounded attempts across any number of rate-limit deferrals,
      and a single response - even when its retry has been promoted before its original entry is ACKed. */
  lemma AllInOrder(c: Config, clock: int, es: seq<Event>, r: Request)
    requires Allowed(c, Init(clock), es) && FaultFree(c, Init(clock), es)
    ensures InOrder(c, Run(c, Init(clock), es), r)
  {
    FaultFreeHarmsNobody(c, Init(clock), es);
    UnharmedRequest(c, clock, es, r);
  }

  /** Capacity: the stored requests without a response never exceed `maxQueueSize`, nor do the
      slots in use. */
  lemma Capacity(c: Config, clock: int, es: seq<Event>)
    requires Allowed(c, Init(clock), es) && FaultFree(c, Init(clock), es)
    ensures var s := Run(c, Init(clock), es);
      |Unanswered(s)| <= |Owned(s)| + |s.redis.zset| <= c.maxQueueSize
  {
    InitOrderly(c, clock);
    RunOrderly(c, Init(clock), es);
    CapacityUnderFaults(c, clock, es);
  }
}
