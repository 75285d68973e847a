/**
  What holds in every reachable state, whatever commands fail and whatever processes crash:
  a stored request is never lost, the two retry structures agree, and a delayed retry is
  promoted only when due and only once per scheduling.
 */
module QueueSafety {
  import opened QueueModel

  // ---------------------------------------------------------------- invariants

  /** Identifiers are fresh where they are used as fresh, and every copy of a request says so. */
  ghost predicate WellFormed(s: State) {
    && EntriesOk(s.redis, s.landed)
    && (forall q :: q in s.enqueuers ==> q < s.nextCall && s.enqueuers[q].item.request in s.used)
    && (forall d :: d in s.dispatches ==> d < s.nextCall && DispatchOk(s.redis, s.landed, s.dispatches[d]))
    && (forall p :: p in s.scans ==> s.scans[p] <= s.clock)
    && (forall r :: r in s.redis.hash ==> s.redis.hash[r].item.request == r && r in s.landed)
    && s.landed <= s.used
  }

  ghost predicate EntriesOk(r: Redis, landed: set<Request>) {
    forall e :: e in r.entries ==> e < r.nextId && EntryOk(landed, r.entries[e])
  }

  ghost predicate EntryOk(landed: set<Request>, e: Entry) {
    e.stream == e.item.request.priority && e.item.request in landed
  }

  ghost predicate DispatchOk(r: Redis, landed: set<Request>, d: Dispatch) {
    && d.entry < r.nextId
    && d.item.request in landed
    && (d.entry in r.entries ==> r.entries[d.entry].item.request == d.item.request)
    && (d.pc.Deferred? ==> d.entry < d.pc.mark <= r.nextId)
  }

  /** Sorted set and payload hash have the same members; serials of live payloads are
      distinct, not yet promoted, and no serial is promoted twice. */
  ghost predicate RetryStoreOk(s: State) {
    && s.redis.zset.Keys == s.redis.hash.Keys
    && (forall r :: r in s.redis.hash ==>
          s.redis.hash[r].serial < s.nextSerial && s.redis.hash[r].serial !in s.promoted)
    && (forall r, r' :: r in s.redis.hash && r' in s.redis.hash && r != r' ==>
          s.redis.hash[r].serial != s.redis.hash[r'].serial)
    && (forall k :: k in s.promoted ==> k < s.nextSerial && s.promoted[k] == 1)
  }

  /** An un-ACKed copy of `r` among the entries added at or after id `from` */
  ghost predicate HasEntry(redis: Redis, r: Request, from: nat) {
    exists e :: e in redis.entries && from <= e && redis.entries[e].item.request == r
  }

  /** `r` is answered, or delayed with its payload, or an un-ACKed entry from `from` on */
  ghost predicate Safe(redis: Redis, answered: map<Request, nat>, r: Request, from: nat) {
    || r in answered
    || (r in redis.zset && r in redis.hash && redis.hash[r].item.request == r)
    || HasEntry(redis, r, from)
  }

  /** At-least-once, with what makes it inductive: a handler whose entry is about to be ACKed
      has answered, or a later copy exists. Ordering the copies by entry id is what rules out
      two deferred dispatches each relying on the other's entry. */
  ghost predicate Secured(s: State) {
    && (forall r :: r in s.landed ==> Safe(s.redis, s.answered, r, 0))
    && (forall d :: d in s.dispatches ==> DispatchSecured(s.redis, s.answered, s.dispatches[d]))
  }

  ghost predicate DispatchSecured(redis: Redis, answered: map<Request, nat>, d: Dispatch) {
    && (d.pc == Answered || d.pc == Acked ==> d.item.request in answered)
    && (d.pc.Deferred? ==> Safe(redis, answered, d.item.request, d.pc.mark))
  }

  ghost predicate Consistent(s: State) { WellFormed(s) && RetryStoreOk(s) }

  // ---------------------------------------------------------------- preservation

  ghost predicate ByHandler(e: Event) {
    e.Begin? || e.Forget? || e.LookupFails? || e.Execute? || e.AdapterFails? || e.Respond?
  }

  /** One dispatch moved on or ended, still working on the same message; the others are as they were. */
  ghost predicate OneMoved(ds: map<nat, Dispatch>, call: nat, ds': map<nat, Dispatch>) {
    && (forall d :: d in ds' ==> d in ds && (d != call ==> ds'[d] == ds[d]))
    && (forall d :: d in ds && d != call ==> d in ds')
    && (call in ds' ==>
          && ds'[call].entry == ds[call].entry && ds'[call].item.request == ds[call].item.request
          && !ds'[call].pc.Deferred? && ds'[call].pc != Acked)
  }

  /** What a handler event does: its dispatch moves, and an answered dispatch has answered. */
  lemma HandlerShape(c: Config, s: State, e: Event)
    requires Enabled(c, s, e) && ByHandler(e)
    ensures var s' := Effect(c, s, e);
      && s' == s.(dispatches := s'.dispatches, runs := s'.runs, answered := s'.answered)
      && OneMoved(s.dispatches, e.call, s'.dispatches)
      && s.answered.Keys <= s'.answered.Keys
      && (e.call in s'.dispatches && s'.dispatches[e.call].pc == Answered ==>
            s'.dispatches[e.call].item.request in s'.answered)
  {
  }

  lemma IncrConsistent(c: Config, s: State, p: nat, item: Item, o: Outcome)
    requires Consistent(s)
    ensures Consistent(OnIncr(c, s, p, item, o))
  {
  }

  lemma UndoConsistent(s: State, call: nat, o: Outcome)
    requires Consistent(s)
    ensures Consistent(OnUndo(s, call, o))
  {
  }

  lemma ClockConsistent(c: Config, s: State, e: Event)
    requires Consistent(s) && Enabled(c, s, e) && (e.Tick? || e.Scan?)
    ensures Consistent(Effect(c, s, e))
  {
  }

  lemma HandlerConsistent(c: Config, s: State, e: Event)
    requires Consistent(s) && Enabled(c, s, e) && ByHandler(e)
    ensures Consistent(Effect(c, s, e))
  {
    HandlerShape(c, s, e);
    var s' := Effect(c, s, e);
    forall d | d in s'.dispatches ensures d < s.nextCall && DispatchOk(s.redis, s.landed, s'.dispatches[d]) {
      assert DispatchOk(s.redis, s.landed, s.dispatches[d]);
    }
  }

  lemma DecrConsistent(s: State, call: nat, o: Outcome)
    requires Consistent(s)
    ensures Consistent(OnDecr(s, call, o))
  {
  }

  lemma CrashConsistent(s: State, p: nat)
    requires Consistent(s)
    ensures Consistent(OnCrash(s, p))
  {
  }

  lemma XAddConsistent(s: State, call: nat, o: Outcome)
    requires Consistent(s) && call in s.enqueuers
    ensures Consistent(OnXAdd(s, call, o))
  {
  }

  lemma XAckConsistent(s: State, call: nat, o: Outcome)
    requires Consistent(s) && call in s.dispatches
    ensures Consistent(OnXAck(s, call, o))
  {
  }

  lemma DeliveredOk(r: Redis, landed: set<Request>, batch: seq<nat>)
    requires EntriesOk(r, landed)
    ensures var r' := r.(entries := Deliver(r.entries, batch));
      EntriesOk(r', landed) && forall d: Dispatch :: DispatchOk(r, landed, d) ==> DispatchOk(r', landed, d)
  {
  }

  lemma StartedOk(r: Redis, landed: set<Request>, p: nat, first: nat, batch: seq<nat>)
    requires EntriesOk(r, landed) && forall e :: e in batch ==> e in r.entries
    ensures var ds := Handlers(r.entries, p, first, batch);
      forall d :: d in ds ==> d < first + |batch| && ds[d].pc == Taken && DispatchOk(r, landed, ds[d])
  {
  }

  lemma FetchDispatchesOk(s: State, p: nat, batch: seq<nat>, o: Outcome)
    requires WellFormed(s) && forall e :: e in batch ==> e in s.redis.entries
    ensures var s' := OnFetch(s, p, batch, o);
      forall d :: d in s'.dispatches ==> d < s'.nextCall && DispatchOk(s.redis, s.landed, s'.dispatches[d])
  {
    StartedOk(s.redis, s.landed, p, s.nextCall, batch);
  }

  lemma FetchConsistent(s: State, p: nat, batch: seq<nat>, o: Outcome)
    requires Consistent(s) && forall e :: e in batch ==> e in s.redis.entries
    ensures Consistent(OnFetch(s, p, batch, o))
  {
    DeliveredOk(s.redis, s.landed, batch);
    FetchDispatchesOk(s, p, batch, o);
  }

  lemma ScheduleNewConsistent(c: Config, s: State, item: Item, due: int, o: Outcome)
    requires Consistent(s)
    ensures Consistent(OnScheduleNew(c, s, item, due, o))
  {
  }

  lemma RescheduleConsistent(c: Config, s: State, call: nat, due: int, o: Outcome)
    requires Consistent(s) && call in s.dispatches
    ensures Consistent(OnReschedule(c, s, call, due, o))
  {
  }

  lemma PromoteConsistent(s: State, p: nat, r: Request, o: Outcome)
    requires Consistent(s) && p in s.scans
    ensures Consistent(OnPromote(s, p, r, o))
  {
  }

  lemma EffectConsistent(c: Config, s: State, e: Event)
    requires Consistent(s) && Enabled(c, s, e)
    ensures Consistent(Effect(c, s, e))
  {
    match e
    case Incr(p, item, o) => IncrConsistent(c, s, p, item, o);
    case XAdd(call, o) => XAddConsistent(s, call, o);
    case Undo(call, o) => UndoConsistent(s, call, o);
    case ScheduleNew(item, due, o) => ScheduleNewConsistent(c, s, item, due, o);
    case Fetch(p, batch, o) => FetchConsistent(s, p, batch, o);
    case Reschedule(call, due, o) => RescheduleConsistent(c, s, call, due, o);
    case XAck(call, o) => XAckConsistent(s, call, o);
    case Decr(call, o) => DecrConsistent(s, call, o);
    case Promote(p, r, o) => PromoteConsistent(s, p, r, o);
    case Crash(p) => CrashConsistent(s, p);
    case _ => if ByHandler(e) { HandlerConsistent(c, s, e); } else { ClockConsistent(c, s, e); }
  }

  /** Every event, faulty or not, keeps the retry structures in agreement and ids fresh. */
  lemma ConsistentStep(c: Config, s: State, e: Event)
    requires Consistent(s) && Enabled(c, s, e)
    ensures Consistent(Apply(c, s, e))
  {
    EffectConsistent(c, s, e);
    DriftIrrelevant(Effect(c, s, e), s.drift + Delta(c, s, e));
  }

  lemma DriftIrrelevant(s: State, drift: int)
    ensures Consistent(s) ==> Consistent(s.(drift := drift))
    ensures Secured(s) ==> Secured(s.(drift := drift))
  {
  }

  // ---------------------------------------------------------------- at least once

  /** Nothing that kept a request safe is gone: every copy in `r` is still a copy in `r'`. */
  ghost predicate Grows(r: Redis, r': Redis) {
    && (forall e :: e in r.entries ==>
          e in r'.entries && r'.entries[e].item.request == r.entries[e].item.request)
    && (forall q :: q in r.zset ==> q in r'.zset)
    && (forall q :: q in r.hash ==> q in r'.hash && (r.hash[q].item.request == q ==> r'.hash[q].item.request == q))
  }

  lemma SafeGrows(r: Redis, answered: map<Request, nat>, r': Redis, answered': map<Request, nat>, q: Request, from: nat)
    requires Safe(r, answered, q, from) && Grows(r, r') && answered.Keys <= answered'.Keys
    ensures Safe(r', answered', q, from)
  {
    if HasEntry(r, q, from) {
      var e :| e in r.entries && from <= e && r.entries[e].item.request == q;
      assert e in r'.entries;
    }
  }

  /** A step that only adds copies keeps every dispatch that was secured so. */
  lemma SecuredGrows(s: State, s': State)
    requires Secured(s) && Grows(s.redis, s'.redis) && s.answered.Keys <= s'.answered.Keys
    ensures forall r :: r in s.landed ==> Safe(s'.redis, s'.answered, r, 0)
    ensures forall d :: d in s.dispatches ==> DispatchSecured(s'.redis, s'.answered, s.dispatches[d])
  {
    forall r | r in s.landed ensures Safe(s'.redis, s'.answered, r, 0) {
      SafeGrows(s.redis, s.answered, s'.redis, s'.answered, r, 0);
    }
    forall d | d in s.dispatches ensures DispatchSecured(s'.redis, s'.answered, s.dispatches[d]) {
      var t := s.dispatches[d];
      if t.pc.Deferred? {
        SafeGrows(s.redis, s.answered, s'.redis, s'.answered, t.item.request, t.pc.mark);
      }
    }
  }

  lemma XAddSecured(s: State, call: nat, o: Outcome)
    requires Consistent(s) && Secured(s) && call in s.enqueuers
    ensures Secured(OnXAdd(s, call, o))
  {
    var s' := OnXAdd(s, call, o);
    SecuredGrows(s, s');
    var r := s.enqueuers[call].item.request;
    if Effective(o) {
      assert s'.redis.entries[s.redis.nextId].item.request == r;
      assert HasEntry(s'.redis, r, 0);
    }
  }

  lemma FetchSecured(s: State, p: nat, batch: seq<nat>, o: Outcome)
    requires Consistent(s) && Secured(s) && forall e :: e in batch ==> e in s.redis.entries
    ensures Secured(OnFetch(s, p, batch, o))
  {
    SecuredGrows(s, OnFetch(s, p, batch, o));
    NewSecured(OnFetch(s, p, batch, o).redis, s.answered, s.dispatches,
               Handlers(s.redis.entries, p, s.nextCall, batch));
  }

  /** A message just received owes nothing yet. */
  lemma NewSecured(redis: Redis, answered: map<Request, nat>, ds: map<nat, Dispatch>, news: map<nat, Dispatch>)
    requires forall d :: d in ds ==> DispatchSecured(redis, answered, ds[d])
    requires forall d :: d in news ==> news[d].pc == Taken
    ensures forall d :: d in ds + news ==> DispatchSecured(redis, answered, (ds + news)[d])
  {
  }

  lemma HandlerSecured(c: Config, s: State, e: Event)
    requires Consistent(s) && Secured(s) && Enabled(c, s, e) && ByHandler(e)
    ensures Secured(Effect(c, s, e))
  {
    HandlerShape(c, s, e);
    var s' := Effect(c, s, e);
    SecuredGrows(s, s');
    forall d | d in s'.dispatches ensures DispatchSecured(s'.redis, s'.answered, s'.dispatches[d]) {
      assert DispatchSecured(s'.redis, s'.answered, s.dispatches[d]);
    }
  }

  lemma ScheduleNewSecured(c: Config, s: State, item: Item, due: int, o: Outcome)
    requires Consistent(s) && Secured(s)
    ensures Secured(OnScheduleNew(c, s, item, due, o))
  {
    SecuredGrows(s, OnScheduleNew(c, s, item, due, o));
  }

  /** The hand-over only adds a copy, which secures the dispatch that made it. */
  lemma HandedOverSafe(c: Config, s: State, call: nat, due: int, o: Outcome)
    requires Consistent(s) && call in s.dispatches
    ensures var s' := OnReschedule(c, s, call, due, o); var r := s.dispatches[call].item.request;
      Grows(s.redis, s'.redis) && (Effective(o) ==> forall from: nat :: Safe(s'.redis, s'.answered, r, from))
  {
  }

  lemma RescheduleSecured(c: Config, s: State, call: nat, due: int, o: Outcome)
    requires Consistent(s) && Secured(s) && call in s.dispatches
    ensures Secured(OnReschedule(c, s, call, due, o))
  {
    var s' := OnReschedule(c, s, call, due, o);
    HandedOverSafe(c, s, call, due, o);
    SecuredGrows(s, s');
    forall d | d in s'.dispatches ensures DispatchSecured(s'.redis, s'.answered, s'.dispatches[d]) {
      if d != call { assert DispatchSecured(s'.redis, s'.answered, s.dispatches[d]); }
    }
  }

  /** The crux: an ACK removes one copy, and whoever issues it has left a later one. */
  lemma XAckSecured(c: Config, s: State, call: nat, o: Outcome)
    requires Consistent(s) && Secured(s) && Enabled(c, s, XAck(call, o))
    ensures Secured(OnXAck(s, call, o))
  {
    var s' := OnXAck(s, call, o);
    var d := s.dispatches[call];
    forall q, from: nat | Safe(s.redis, s.answered, q, from)
      ensures Safe(s'.redis, s'.answered, q, from)
    {
      AckKeepsSafe(s, d, s'.redis, q, from);
    }
  }

  lemma AckKeepsSafe(s: State, d: Dispatch, r': Redis, q: Request, from: nat)
    requires Safe(s.redis, s.answered, q, from)
    requires DispatchOk(s.redis, s.landed, d) && DispatchSecured(s.redis, s.answered, d)
    requires d.pc == Answered || d.pc.Deferred?
    requires r' == s.redis || r' == s.redis.(entries := Drop(s.redis.entries, d.entry))
    ensures Safe(r', s.answered, q, from)
  {
    if HasEntry(s.redis, q, from) {
      var e :| e in s.redis.entries && from <= e && s.redis.entries[e].item.request == q;
      if e == d.entry {
        assert q == d.item.request;
        if d.pc.Deferred? && HasEntry(s.redis, q, d.pc.mark) {
          var e' :| e' in s.redis.entries && d.pc.mark <= e' && s.redis.entries[e'].item.request == q;
          assert e' in r'.entries && from <= e';
        }
      } else {
        assert e in r'.entries;
      }
    }
  }

  lemma PromoteSecured(s: State, p: nat, q: Request, o: Outcome)
    requires Consistent(s) && Secured(s) && p in s.scans
    ensures Secured(OnPromote(s, p, q, o))
  {
    var s' := OnPromote(s, p, q, o);
    forall r, from: nat | Safe(s.redis, s.answered, r, from) && from <= s.redis.nextId
      ensures Safe(s'.redis, s'.answered, r, from)
    {
      PromoteKeepsSafe(s.redis, s.answered, s.scans[p], q, r, from);
    }
  }

  /** The promoted copy gets an id above every mark taken before. */
  lemma PromoteKeepsSafe(r: Redis, answered: map<Request, nat>, now: int, q: Request, t: Request, from: nat)
    requires Safe(r, answered, t, from) && from <= r.nextId
    requires forall e :: e in r.entries ==> e < r.nextId
    requires q in r.zset ==> q in r.hash && r.hash[q].item.request == q
    ensures Safe(PromoteScript(r, q.priority, q, now).0, answered, t, from)
  {
    var r' := PromoteScript(r, q.priority, q, now).0;
    if HasEntry(r, t, from) {
      var e :| e in r.entries && from <= e && r.entries[e].item.request == t;
      assert e in r'.entries && r'.entries[e] == r.entries[e];
    } else if r' != r && q == t {
      assert r.nextId in r'.entries;
    }
  }

  /** Events that touch neither a copy nor a response, and start no dispatch */
  lemma OthersSecured(s: State, s': State)
    requires Secured(s) && Grows(s.redis, s'.redis) && s'.answered == s.answered && s'.landed == s.landed
    requires forall d :: d in s'.dispatches ==> d in s.dispatches && s'.dispatches[d] == s.dispatches[d]
    ensures Secured(s')
  {
    SecuredGrows(s, s');
  }

  lemma IncrSecured(c: Config, s: State, p: nat, item: Item, o: Outcome)
    requires Secured(s)
    ensures Secured(OnIncr(c, s, p, item, o))
  {
    OthersSecured(s, OnIncr(c, s, p, item, o));
  }

  lemma UndoSecured(s: State, call: nat, o: Outcome)
    requires Secured(s)
    ensures Secured(OnUndo(s, call, o))
  {
    OthersSecured(s, OnUndo(s, call, o));
  }

  lemma DecrSecured(s: State, call: nat, o: Outcome)
    requires Secured(s)
    ensures Secured(OnDecr(s, call, o))
  {
    OthersSecured(s, OnDecr(s, call, o));
  }

  lemma CrashSecured(s: State, p: nat)
    requires Secured(s)
    ensures Secured(OnCrash(s, p))
  {
    OthersSecured(s, OnCrash(s, p));
  }

  lemma ClockSecured(c: Config, s: State, e: Event)
    requires Secured(s) && Enabled(c, s, e) && (e.Tick? || e.Scan?)
    ensures Secured(Effect(c, s, e))
  {
    OthersSecured(s, Effect(c, s, e));
  }

  lemma EffectSecured(c: Config, s: State, e: Event)
    requires Consistent(s) && Secured(s) && Enabled(c, s, e)
    ensures Secured(Effect(c, s, e))
  {
    match e
    case Incr(p, item, o) => IncrSecured(c, s, p, item, o);
    case XAdd(call, o) => XAddSecured(s, call, o);
    case Undo(call, o) => UndoSecured(s, call, o);
    case ScheduleNew(item, due, o) => ScheduleNewSecured(c, s, item, due, o);
    case Fetch(p, batch, o) => FetchSecured(s, p, batch, o);
    case Reschedule(call, due, o) => RescheduleSecured(c, s, call, due, o);
    case XAck(call, o) => XAckSecured(c, s, call, o);
    case Decr(call, o) => DecrSecured(s, call, o);
    case Promote(p, r, o) => PromoteSecured(s, p, r, o);
    case Crash(p) => CrashSecured(s, p);
    case _ => if ByHandler(e) { HandlerSecured(c, s, e); } else { ClockSecured(c, s, e); }
  }

  lemma SecuredStep(c: Config, s: State, e: Event)
    requires Consistent(s) && Secured(s) && Enabled(c, s, e)
    ensures Secured(Apply(c, s, e))
  {
    EffectSecured(c, s, e);
    DriftIrrelevant(Effect(c, s, e), s.drift + Delta(c, s, e));
  }

  // ---------------------------------------------------------------- over whole runs

  lemma {:induction false} RunConsistent(c: Config, s: State, es: seq<Event>)
    requires Consistent(s) && Secured(s) && Allowed(c, s, es)
    ensures Consistent(Run(c, s, es)) && Secured(Run(c, s, es))
    decreases |es|
  {
    if es != [] {
      ConsistentStep(c, s, es[0]);
      SecuredStep(c, s, es[0]);
      RunConsistent(c, Apply(c, s, es[0]), es[1..]);
    }
  }

  /** At-least-once: after any run of any number of processes, with any failures and crashes,
      a request whose XADD (or first scheduling) took effect is answered, or is still an
      un-ACKed stream entry, or is a delayed retry with its own payload. */
  lemma AtLeastOnce(c: Config, clock: int, es: seq<Event>, r: Request)
    requires Allowed(c, Init(clock), es)
    requires r in Run(c, Init(clock), es).landed
    ensures var s := Run(c, Init(clock), es); Safe(s.redis, s.answered, r, 0)
  {
    RunConsistent(c, Init(clock), es);
  }

  /** Retry store agreement and single promotion, over the same runs: both structures have the
      same members, each payload is its own member's, every serial was promoted at most once,
      and a serial still waiting was not promoted. */
  lemma RetryStoreAgreement(c: Config, clock: int, es: seq<Event>)
    requires Allowed(c, Init(clock), es)
    ensures var s := Run(c, Init(clock), es);
      && s.redis.zset.Keys == s.redis.hash.Keys
      && (forall r :: r in s.redis.hash ==>
            s.redis.hash[r].item.request == r && Count(s.promoted, s.redis.hash[r].serial) == 0)
      && (forall k :: Count(s.promoted, k) <= 1)
  {
    RunConsistent(c, Init(clock), es);
  }

  /** No retry is promoted before its current due time, though the pass that promotes it may
      have read its member before a later rescheduling; and the script never finds a member
      without its payload. */
  lemma PromotionIsDue(c: Config, clock: int, es: seq<Event>, p: nat, r: Request)
    requires Allowed(c, Init(clock), es)
    requires p in Run(c, Init(clock), es).scans
    ensures var s := Run(c, Init(clock), es);
      var (redis', reply) := PromoteScript(s.redis, r.priority, r, s.scans[p]);
      && !reply.PayloadMissing?
      && (reply.Promoted? <==> r in s.redis.zset && s.redis.zset[r] <= s.scans[p])
      && (reply.Promoted? ==>
            && s.redis.zset[r] <= s.clock
            && r !in redis'.zset && r !in redis'.hash
            && redis'.entries == s.redis.entries[reply.id := Entry(r.priority, s.redis.hash[r].item, false)]
            && reply.id !in s.redis.entries)
      && (reply.NotDue? ==> redis' == s.redis)
  {
    RunConsistent(c, Init(clock), es);
  }

  /** A slot-owning entry of `r` added at or after id `from`, or its delayed retry */
  ghost predicate HasCopy(s: State, r: Request, from: nat) {
    r in s.redis.zset || exists e :: e in Owned(s) && from <= e && s.redis.entries[e].item.request == r
  }

  /** A safe unanswered request owns a slot: if its copy is handed over, look at the later copy
      that secures the hand-over. */
  lemma {:induction false} UnansweredHasCopy(s: State, r: Request, from: nat)
    requires Consistent(s) && Secured(s) && Safe(s.redis, s.answered, r, from) && r !in s.answered
    ensures HasCopy(s, r, from)
    decreases s.redis.nextId - from
  {
    if r !in s.redis.zset {
      var e :| e in s.redis.entries && from <= e && s.redis.entries[e].item.request == r;
      if e in HandedOver(s.dispatches) {
        var d :| d in s.dispatches && s.dispatches[d].pc.Deferred? && s.dispatches[d].entry == e;
        assert DispatchOk(s.redis, s.landed, s.dispatches[d]);
        assert DispatchSecured(s.redis, s.answered, s.dispatches[d]);
        UnansweredHasCopy(s, r, s.dispatches[d].pc.mark);
      } else {
        assert e in Owned(s);
      }
    }
  }

  /** A counted request was counted at least once. */
  ghost predicate AnswersCounted(s: State) { forall r :: r in s.answered ==> s.answered[r] >= 1 }

  lemma CountsAnswersStep(c: Config, s: State, e: Event)
    requires AnswersCounted(s) && Enabled(c, s, e)
    ensures AnswersCounted(Apply(c, s, e))
  {
    if e.Respond? { assert Effect(c, s, e) == OnRespond(s, e.call, e.outcome); }
    else { assert Effect(c, s, e).answered == s.answered; }
  }

  lemma {:induction false} RunCountsAnswers(c: Config, s: State, es: seq<Event>)
    requires AnswersCounted(s) && Allowed(c, s, es)
    ensures AnswersCounted(Run(c, s, es))
    decreases |es|
  {
    if es != [] {
      CountsAnswersStep(c, s, es[0]);
      RunCountsAnswers(c, Apply(c, s, es[0]), es[1..]);
    }
  }
}
