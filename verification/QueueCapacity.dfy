/**
  The capacity of the queue in every run, faulty or not: the requests stored without a response exceed
  `maxQueueSize` by no more than the slots that were freed while something still occupied them.
 */
module QueueCapacity {
  import opened QueueModel
  import opened QueueSafety
  import opened QueueDepth

  /** Slots freed by `e` while a request still occupies them: an XADD or hand-over whose reply was lost, the
      release or hand-over of an entry that owns no slot, and hand-overs taken back when the dispatch
      that made them ends without its XACK */
  ghost function Freed(c: Config, s: State, e: Event): nat
    requires Enabled(c, s, e)
  {
    match e
    case Crash(p) => |s.redis.entries.Keys * (HandedOver(s.dispatches) - HandedOver(OnCrash(s, p).dispatches))|
    case _ => if Delta(c, s, e) < 0 then -Delta(c, s, e) else 0
  }

  /** Over a run */
  ghost function FreedIn(c: Config, s: State, es: seq<Event>): nat
    requires Allowed(c, s, es)
    decreases |es|
  {
    if es == [] then 0 else Freed(c, s, es[0]) + FreedIn(c, Apply(c, s, es[0]), es[1..])
  }

  lemma {:induction false} FreedIsSummed(c: Config, s: State, es: seq<Event>, h: (State, Event) -> nat)
    requires Allowed(c, s, es) && forall t, e | Enabled(c, t, e) :: h(t, e) == Freed(c, t, e)
    ensures FreedIn(c, s, es) == Summed(c, s, es, h)
    decreases |es|
  {
    if es != [] { FreedIsSummed(c, Apply(c, s, es[0]), es[1..], h); }
  }

  lemma FreedSnoc(c: Config, s: State, es: seq<Event>, e: Event)
    requires Allowed(c, s, es) && Enabled(c, Run(c, s, es), e)
    ensures Allowed(c, s, es + [e])
    ensures FreedIn(c, s, es + [e]) == FreedIn(c, s, es) + Freed(c, Run(c, s, es), e)
  {
    ghost var h: (State, Event) -> nat := (t: State, x: Event) => if Enabled(c, t, x) then Freed(c, t, x) else 0;
    Extend(c, s, es, e);
    SummedSnoc(c, s, es, e, h);
    FreedIsSummed(c, s, es, h);
    FreedIsSummed(c, s, es + [e], h);
  }

  // ---------------------------------------------------------------- the invariant

  /** Calls that still have their INCR to give back */
  function Undoing(qs: map<nat, Enqueuer>): set<nat> { set q | q in qs && qs[q].pc != Reserved }

  /** No slot was freed beyond `freed`, and what is counted keeps to the limit. */
  ghost predicate Within(c: Config, s: State, freed: int) {
    && s.drift + freed >= 0
    && s.redis.depth - |Undoing(s.enqueuers)| <= c.maxQueueSize + s.drift + freed
  }

  /** What one transition to `t` may do: it lets the counter grow within the limit, or not at all beyond the
      calls that give theirs back, and what it frees makes up for the drift. */
  ghost predicate Grants(c: Config, s: State, t: State, delta: int, freed: nat) {
    && delta + freed >= 0
    && (|| t.redis.depth <= c.maxQueueSize
        || t.redis.depth - |Undoing(t.enqueuers)| <= s.redis.depth - |Undoing(s.enqueuers)| + delta + freed)
  }

  lemma OverLimitAdded(qs: map<nat, Enqueuer>, call: nat, q: Enqueuer)
    requires call !in qs && q.pc != Reserved
    ensures |Undoing(qs[call := q])| == |Undoing(qs)| + 1
  {
    SetAdded(Undoing(qs), Undoing(qs[call := q]), call);
  }

  lemma IncrGrants(c: Config, s: State, p: nat, item: Item, o: Outcome)
    requires forall q :: q in s.enqueuers ==> q < s.nextCall
    ensures Grants(c, s, OnIncr(c, s, p, item, o), Unit(o == ReplyLost), 0)
  {
    OverLimitAdded(s.enqueuers, s.nextCall, Enqueuer(p, item, OverLimit));
  }

  lemma XAddGrants(c: Config, s: State, call: nat, o: Outcome)
    requires call in s.enqueuers && s.enqueuers[call].pc == Reserved
    ensures Grants(c, s, OnXAdd(s, call, o), -Unit(o == ReplyLost), Unit(o == ReplyLost))
  {
    var t := OnXAdd(s, call, o);
    if o == Done { assert Undoing(t.enqueuers) == Undoing(s.enqueuers); }
    else { SetAdded(Undoing(s.enqueuers), Undoing(t.enqueuers), call); }
  }

  lemma UndoGrants(c: Config, s: State, call: nat, o: Outcome)
    requires call in s.enqueuers && s.enqueuers[call].pc != Reserved
    ensures Grants(c, s, OnUndo(s, call, o), Unit(o == NoEffect), 0)
  {
    SetDropped(Undoing(s.enqueuers), Undoing(OnUndo(s, call, o).enqueuers), call);
  }

  lemma CallsLost(qs: map<nat, Enqueuer>, rest: map<nat, Enqueuer>)
    requires forall q :: q in rest ==> q in qs && qs[q] == rest[q]
    ensures |Undoing(qs)| - |Undoing(rest)| <= |qs.Keys - rest.Keys|
  {
    assert Undoing(rest) <= Undoing(qs);
    Subtract(Undoing(qs), Undoing(rest));
    SubsetSmaller(Undoing(qs) - Undoing(rest), qs.Keys - rest.Keys);
  }

  /** The drift grows by the abandoned calls and unreleased slots at least. */
  lemma CrashDelta(c: Config, s: State, p: nat)
    ensures Delta(c, s, Crash(p)) + Freed(c, s, Crash(p)) >= |s.enqueuers.Keys - OnCrash(s, p).enqueuers.Keys|
  {
  }

  lemma CrashGrants(c: Config, s: State, p: nat)
    ensures Grants(c, s, OnCrash(s, p), Delta(c, s, Crash(p)), Freed(c, s, Crash(p)))
  {
    CrashDelta(c, s, p);
    CallsLost(s.enqueuers, OnCrash(s, p).enqueuers);
    assert OnCrash(s, p).redis == s.redis;
  }

  /** Everything else leaves the enqueueing calls alone and adds nothing to the counter. */
  lemma OtherGrants(c: Config, s: State, e: Event)
    requires Enabled(c, s, e) && !e.Incr? && !e.XAdd? && !e.Undo? && !e.ScheduleNew? && !e.Crash?
    ensures Grants(c, s, Effect(c, s, e), Delta(c, s, e), Freed(c, s, e))
  {
    assert Effect(c, s, e).enqueuers == s.enqueuers;
  }

  lemma ScheduleNewGrants(c: Config, s: State, item: Item, due: int, o: Outcome)
    ensures Grants(c, s, OnScheduleNew(c, s, item, due, o), 0, 0)
  {
  }

  lemma EventGrants(c: Config, s: State, e: Event)
    requires WellFormed(s) && Enabled(c, s, e)
    ensures Grants(c, s, Effect(c, s, e), Delta(c, s, e), Freed(c, s, e))
  {
    match e
    case Incr(p, item, o) => IncrGrants(c, s, p, item, o);
    case XAdd(call, o) => XAddGrants(c, s, call, o);
    case Undo(call, o) => UndoGrants(c, s, call, o);
    case ScheduleNew(item, due, o) => ScheduleNewGrants(c, s, item, due, o);
    case Crash(p) => CrashGrants(c, s, p);
    case _ => OtherGrants(c, s, e);
  }

  lemma WithinStep(c: Config, s: State, e: Event, freed: nat)
    requires WellFormed(s) && Within(c, s, freed) && Enabled(c, s, e)
    ensures Within(c, Apply(c, s, e), freed + Freed(c, s, e))
  {
    EventGrants(c, s, e);
  }

  lemma {:induction false} RunWithin(c: Config, s: State, es: seq<Event>, freed: nat)
    requires Consistent(s) && Within(c, s, freed) && Allowed(c, s, es)
    ensures Within(c, Run(c, s, es), freed + FreedIn(c, s, es))
    decreases |es|
  {
    if es != [] {
      WithinStep(c, s, es[0], freed);
      ConsistentStep(c, s, es[0]);
      RunWithin(c, Apply(c, s, es[0]), es[1..], freed + Freed(c, s, es[0]));
    }
  }

  // ---------------------------------------------------------------- stored requests

  /** Stored requests without a response */
  function Unanswered(s: State): set<Request> { set r | r in s.landed && r !in s.answered }

  /** The request of the slot-owning entry `e`, for every such `e` */
  function OwnedRequests(own: set<nat>, es: map<nat, Entry>): set<Request>
    requires own <= es.Keys
  {
    set e | e in own :: es[e].item.request
  }

  lemma {:induction false} FewerRequests(own: set<nat>, es: map<nat, Entry>)
    requires own <= es.Keys
    ensures |OwnedRequests(own, es)| <= |own|
    decreases own
  {
    if own != {} {
      var e :| e in own;
      FewerRequests(own - {e}, es);
      assert OwnedRequests(own, es) == OwnedRequests(own - {e}, es) + {es[e].item.request};
    }
  }

  lemma SubsetSmaller<T>(a: set<T>, b: set<T>)
    requires a <= b
    ensures |a| <= |b|
  {
    assert b == a + (b - a);
  }

  /** Every unanswered request occupies a slot of its own. */
  lemma UnansweredOwnSlots(s: State)
    requires Consistent(s) && Secured(s)
    ensures |Unanswered(s)| <= |Owned(s)| + |s.redis.zset|
  {
    var requests := OwnedRequests(Owned(s), s.redis.entries);
    forall r | r in Unanswered(s) ensures r in requests + s.redis.zset.Keys {
      UnansweredHasCopy(s, r, 0);
    }
    SubsetSmaller(Unanswered(s), requests + s.redis.zset.Keys);
    FewerRequests(Owned(s), s.redis.entries);
    assert |requests + s.redis.zset.Keys| <= |requests| + |s.redis.zset.Keys|;
    assert |s.redis.zset.Keys| == |s.redis.zset|;
  }

  lemma SlotsWithin(c: Config, s: State, freed: int)
    requires Balanced(s) && Within(c, s, freed)
    ensures |Owned(s)| + |s.redis.zset| <= c.maxQueueSize + freed
  {
    SubsetSmaller(Undoing(s.enqueuers), s.enqueuers.Keys);
    assert |s.enqueuers.Keys| == |s.enqueuers|;
  }

  /** Capacity: after any run, with any failures and crashes, the stored requests without a response occupy
      as many slots or fewer, and no more slots are occupied than `maxQueueSize` and those freed too early. */
  lemma CapacityUnderFaults(c: Config, clock: int, es: seq<Event>)
    requires Allowed(c, Init(clock), es)
    ensures var s := Run(c, Init(clock), es);
      |Unanswered(s)| <= |Owned(s)| + |s.redis.zset| <= c.maxQueueSize + FreedIn(c, Init(clock), es)
  {
    var s := Run(c, Init(clock), es);
    assert Undoing(Init(clock).enqueuers) == {};
    RunConsistent(c, Init(clock), es);
    RunWithin(c, Init(clock), es, 0);
    DepthAccounting(c, clock, es);
    SlotsWithin(c, s, FreedIn(c, Init(clock), es));
    UnansweredOwnSlots(s);
  }

  // ---------------------------------------------------------------- which events free a slot too early

  /** The hand-over of `entry` by one of `ds` that is not among `rest` */
  ghost predicate TakesBack(s: State, ds: map<nat, Dispatch>, rest: map<nat, Dispatch>, entry: nat) {
    entry in s.redis.entries && entry in HandedOver(ds) && entry !in HandedOver(rest)
  }

  ghost predicate FreesEarly(s: State, e: Event) {
    match e
    case XAdd(_, o) => o == ReplyLost
    case Reschedule(call, _, o) =>
      call in s.dispatches && s.dispatches[call].item.request !in s.redis.zset
      && (o == ReplyLost || (o == Done && s.dispatches[call].entry !in Owned(s)))
    case XAck(call, o) =>
      call in s.dispatches
      && if s.dispatches[call].pc == Answered then o == Done && s.dispatches[call].entry !in Owned(s)
         else o == NoEffect
              && TakesBack(s, s.dispatches, Drop(s.dispatches, call), s.dispatches[call].entry)
    case Crash(p) => exists entry :: TakesBack(s, s.dispatches, OnCrash(s, p).dispatches, entry)
    case _ => false
  }

  /** These are all of them: a failed INCR, DECR, lookup, fetch or promotion, a lost response and a crash
      that takes no hand-over back leave the bound as it is. */
  lemma FreedExactly(c: Config, s: State, e: Event)
    requires Consistent(s) && Enabled(c, s, e)
    ensures Freed(c, s, e) > 0 <==> FreesEarly(s, e)
    ensures !e.Crash? ==> Freed(c, s, e) <= 1
  {
    if e.XAck? { DeferredHandedOver(s.dispatches, e.call); }
    if e.Crash? { CrashFrees(c, s, e.process); }
  }

  lemma DeferredHandedOver(ds: map<nat, Dispatch>, call: nat)
    requires call in ds
    ensures ds[call].pc.Deferred? ==> ds[call].entry in HandedOver(ds)
  {
  }

  lemma CrashFrees(c: Config, s: State, p: nat)
    ensures Freed(c, s, Crash(p)) > 0 <==> FreesEarly(s, Crash(p))
  {
    var rest := OnCrash(s, p).dispatches;
    var back := s.redis.entries.Keys * (HandedOver(s.dispatches) - HandedOver(rest));
    if back != {} {
      var entry :| entry in back;
      assert TakesBack(s, s.dispatches, rest, entry);
    }
  }
}
