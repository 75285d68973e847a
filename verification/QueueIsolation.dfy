/**
  Fault isolation: which requests an event can harm, and that every other request keeps one copy, one
  handler, bounded attempts and a single response - over every run, whatever fails elsewhere.
 */
module QueueIsolation {
  import opened JsText
  import opened QueueModel
  import opened QueueSafety
  import opened QueueView

  // ---------------------------------------------------------------- harm

  /** The requests an event may leave with two copies, a second handler, uncounted attempts or a second
      response. Failed or reply-less INCR, XADD, DECR and promotion harm nobody, nor do a failed fetch or
      lookup, a failed response straight after the adapter, a failed hand-over, a reply-less XACK, and a
      crash or a failed response of handlers that tried nothing. */
  ghost function Harms(s: State, e: Event): set<Request> {
    match e
    case Fetch(_, batch, Done) =>
      set x | x in batch && x in s.redis.entries && Live(s, x) :: s.redis.entries[x].item.request
    case Respond(call, ReplyLost) => if call in s.dispatches then {s.dispatches[call].item.request} else {}
    case Respond(call, NoEffect) =>
      if call in s.dispatches && s.dispatches[call].pc != Executing && !Untried(s.redis.entries, s.dispatches[call])
      then {s.dispatches[call].item.request} else {}
    case Reschedule(call, _, ReplyLost) => if call in s.dispatches then {s.dispatches[call].item.request} else {}
    case XAck(call, NoEffect) => if call in s.dispatches then {s.dispatches[call].item.request} else {}
    case Crash(p) =>
      set d | d in s.dispatches && s.dispatches[d].process == p
              && !Untried(s.redis.entries, s.dispatches[d]) && s.dispatches[d].pc != Acked
            :: s.dispatches[d].item.request
    case _ => {}
  }

  /** The requests some event of the run harmed */
  ghost function HarmedIn(c: Config, s: State, es: seq<Event>): set<Request>
    requires Allowed(c, s, es)
    decreases |es|
  {
    if es == [] then {} else Harms(s, es[0]) + HarmedIn(c, Apply(c, s, es[0]), es[1..])
  }

  // ---------------------------------------------------------------- how events change the view

  lemma DispatchesAdded(ds: map<nat, Dispatch>, more: map<nat, Dispatch>, r: Request)
    requires ds.Keys !! more.Keys
    ensures DispatchesOf(ds + more, r) == DispatchesOf(ds, r) + DispatchesOf(more, r)
  {
  }

  lemma DispatchSet(ds: map<nat, Dispatch>, call: nat, d: Dispatch, r: Request)
    requires call in ds && ds[call].item.request == d.item.request
    ensures d.item.request == r ==> DispatchesOf(ds[call := d], r) == DispatchesOf(ds, r)[call := d]
    ensures d.item.request != r ==> DispatchesOf(ds[call := d], r) == DispatchesOf(ds, r)
  {
  }

  lemma DispatchDropped(ds: map<nat, Dispatch>, call: nat, r: Request)
    requires call in ds
    ensures ds[call].item.request == r ==> DispatchesOf(Drop(ds, call), r) == DispatchesOf(ds, r) - {call}
    ensures ds[call].item.request != r ==> DispatchesOf(Drop(ds, call), r) == DispatchesOf(ds, r)
  {
  }

  lemma EntryDropped(es: map<nat, Entry>, e: nat, r: Request)
    ensures EntriesOf(Drop(es, e), r) == EntriesOf(es, r) - {e}
  {
  }

  lemma EntryAdded(es: map<nat, Entry>, e: nat, v: Entry, r: Request)
    requires e !in es
    ensures EntriesOf(es[e := v], r)
            == if v.item.request == r then EntriesOf(es, r)[e := v] else EntriesOf(es, r)
  {
  }

  lemma CallSet(qs: map<nat, Enqueuer>, call: nat, q: Enqueuer, r: Request)
    requires call in qs ==> qs[call].item.request == q.item.request
    ensures CallsOf(qs[call := q], r) == if q.item.request == r then CallsOf(qs, r)[call := q] else CallsOf(qs, r)
  {
  }

  lemma CallDropped(qs: map<nat, Enqueuer>, call: nat, r: Request)
    ensures CallsOf(Drop(qs, call), r) == CallsOf(qs, r) - {call}
  {
  }

  /** A request nobody used yet has an empty view. */
  lemma Unused(s: State, r: Request)
    requires Consistent(s) && r !in s.used
    ensures r !in s.landed && CallsOf(s.enqueuers, r) == map[]
  {
  }

  // ---------------------------------------------------------------- one event

  lemma IncrSound(c: Config, s: State, p: nat, item: Item, o: Outcome, r: Request)
    requires Consistent(s) && Enabled(c, s, Incr(p, item, o)) && Sound(c, ViewOf(s, r))
    ensures Sound(c, ViewOf(OnIncr(c, s, p, item, o), r))
  {
    var v, v' := ViewOf(s, r), ViewOf(OnIncr(c, s, p, item, o), r);
    if o == Done {
      var q := OnIncr(c, s, p, item, o).enqueuers[s.nextCall];
      CallSet(s.enqueuers, s.nextCall, q, r);
      if item.request == r {
        Unused(s, r);
        CallAdded(c, v, v', s.nextCall, q);
      }
    }
  }

  lemma XAddOther(s: State, call: nat, o: Outcome, r: Request)
    requires Consistent(s) && call in s.enqueuers && s.enqueuers[call].item.request != r
    ensures ViewOf(OnXAdd(s, call, o), r) == ViewOf(s, r)
  {
    var q := s.enqueuers[call];
    CallDropped(s.enqueuers, call, r);
    CallSet(s.enqueuers, call, q.(pc := Rollback), r);
    EntryAdded(s.redis.entries, s.redis.nextId, Entry(q.item.request.priority, q.item, false), r);
  }

  lemma XAddView(s: State, call: nat, o: Outcome)
    requires s.redis.nextId !in s.redis.entries
    requires call in s.enqueuers
    ensures var q := s.enqueuers[call]; var r := q.item.request;
      var v, v' := ViewOf(s, r), ViewOf(OnXAdd(s, call, o), r);
      && call in v.calls && v.calls[call] == q
      && v'.calls == (if o == Done then v.calls - {call} else v.calls[call := q.(pc := Rollback)])
      && v' == if !Effective(o) then v.(calls := v'.calls)
               else v.(calls := v'.calls, landed := true,
                       entries := v.entries[s.redis.nextId := Entry(r.priority, q.item, false)])
  {
    var q := s.enqueuers[call];
    CallDropped(s.enqueuers, call, q.item.request);
    CallSet(s.enqueuers, call, q.(pc := Rollback), q.item.request);
    EntryAdded(s.redis.entries, s.redis.nextId, Entry(q.item.request.priority, q.item, false), q.item.request);
  }

  lemma XAddSound(c: Config, s: State, call: nat, o: Outcome, r: Request)
    requires Consistent(s) && Enabled(c, s, XAdd(call, o)) && Sound(c, ViewOf(s, r))
    ensures Sound(c, ViewOf(OnXAdd(s, call, o), r))
  {
    var q := s.enqueuers[call];
    if q.item.request == r {
      var v, v' := ViewOf(s, r), ViewOf(OnXAdd(s, call, o), r);
      XAddView(s, call, o);
      var v1 := v.(calls := v'.calls);
      CallMoved(c, v, v1, v'.calls);
      if Effective(o) { FirstCopy(c, v1, v', s.redis.nextId, Entry(r.priority, q.item, false), true); }
    } else {
      XAddOther(s, call, o, r);
    }
  }

  lemma UndoSound(c: Config, s: State, call: nat, o: Outcome, r: Request)
    requires Sound(c, ViewOf(s, r))
    ensures Sound(c, ViewOf(OnUndo(s, call, o), r))
  {
    CallDropped(s.enqueuers, call, r);
    CallMoved(c, ViewOf(s, r), ViewOf(OnUndo(s, call, o), r), CallsOf(s.enqueuers, r) - {call});
  }

  lemma ScheduleNewSound(c: Config, s: State, item: Item, due: int, o: Outcome, r: Request)
    requires Consistent(s) && Enabled(c, s, ScheduleNew(item, due, o)) && Sound(c, ViewOf(s, r))
    ensures Sound(c, ViewOf(OnScheduleNew(c, s, item, due, o), r))
  {
    var v, v' := ViewOf(s, r), ViewOf(OnScheduleNew(c, s, item, due, o), r);
    if item.request == r {
      Unused(s, r);
      if v' != v { FirstCopy(c, v, v', 0, Entry(r.priority, item, false), false); }
    } else {
      assert v' == v;
    }
  }

  /** What a fetch changes in the view */
  lemma FetchView(s: State, p: nat, batch: seq<nat>, o: Outcome, r: Request)
    requires Consistent(s) && BatchOk(s.redis, batch)
    ensures var v, v' := ViewOf(s, r), ViewOf(OnFetch(s, p, batch, o), r);
      var entries := if Effective(o) then EntriesOf(Deliver(s.redis.entries, batch), r) else v.entries;
      var news := DispatchesOf(Handlers(s.redis.entries, p, s.nextCall, batch), r);
      v' == if o == Done then v.(entries := entries, dispatches := v.dispatches + news) else v.(entries := entries)
  {
    DispatchesAdded(s.dispatches, Handlers(s.redis.entries, p, s.nextCall, batch), r);
  }

  lemma FetchSound(c: Config, s: State, p: nat, batch: seq<nat>, o: Outcome, r: Request)
    requires Consistent(s) && BatchOk(s.redis, batch) && Sound(c, ViewOf(s, r))
    requires r !in Harms(s, Fetch(p, batch, o))
    ensures Sound(c, ViewOf(OnFetch(s, p, batch, o), r))
  {
    var v, v' := ViewOf(s, r), ViewOf(OnFetch(s, p, batch, o), r);
    FetchView(s, p, batch, o, r);
    DeliveredView(s.redis.entries, batch, r);
    var v1 := v.(entries := v'.entries);
    MarkedDelivered(c, v, v1);
    if o == Done {
      FetchedIdle(s, p, batch, r);
      TakenUp(c, v1, v', DispatchesOf(Handlers(s.redis.entries, p, s.nextCall, batch), r));
    }
  }

  lemma DeliveredView(es: map<nat, Entry>, batch: seq<nat>, r: Request)
    ensures var v, v' := EntriesOf(es, r), EntriesOf(Deliver(es, batch), r);
      v'.Keys == v.Keys && forall e :: e in v ==> v'[e].item == v[e].item
  {
  }

  /** What an unharmed request's dispatches of a batch are */
  lemma FetchedIdle(s: State, p: nat, batch: seq<nat>, r: Request)
    requires Consistent(s) && BatchOk(s.redis, batch) && r !in Harms(s, Fetch(p, batch, Done))
    ensures var news := DispatchesOf(Handlers(s.redis.entries, p, s.nextCall, batch), r); var v := ViewOf(s, r);
      && (forall d :: d in news ==>
            && d !in v.dispatches && news[d].pc == Taken && Idle(v.dispatches, news[d].entry)
            && news[d].entry in v.entries && news[d].item == v.entries[news[d].entry].item)
      && (forall d, d' :: d in news && d' in news && d != d' ==> news[d].entry != news[d'].entry)
  {
    var handlers := Handlers(s.redis.entries, p, s.nextCall, batch);
    HandlersApart(s.redis.entries, p, s.nextCall, batch);
    forall e | e in batch && s.redis.entries[e].item.request == r ensures !Live(s, e) {
      assert !Live(s, e) || r in Harms(s, Fetch(p, batch, Done));
    }
    forall d | d in DispatchesOf(handlers, r) ensures Idle(DispatchesOf(s.dispatches, r), handlers[d].entry) {
      NotLive(s, handlers[d].entry, r);
    }
  }

  lemma HandlersApart(es: map<nat, Entry>, p: nat, first: nat, batch: seq<nat>)
    requires Distinct(batch) && forall e :: e in batch ==> e in es
    ensures var ds := Handlers(es, p, first, batch);
      forall d, d' :: d in ds && d' in ds && d != d' ==> ds[d].entry != ds[d'].entry
  {
  }

  lemma NotLive(s: State, e: nat, r: Request)
    requires !Live(s, e)
    ensures Idle(DispatchesOf(s.dispatches, r), e)
  {
  }

  lemma BeginSound(c: Config, s: State, call: nat, r: Request)
    requires Enabled(c, s, Begin(call)) && Sound(c, ViewOf(s, r))
    ensures Sound(c, ViewOf(s.(dispatches := SetPc(s.dispatches, call, Running)), r))
  {
    var v, v', d := ViewOf(s, r), ViewOf(s.(dispatches := SetPc(s.dispatches, call, Running)), r), s.dispatches[call];
    DispatchSet(s.dispatches, call, d.(pc := Running), r);
    if d.item.request == r {
      assert v.dispatches[call] == d;
      StillActive(c, v, v', call, d.(pc := Running));
    }
  }

  lemma DropSound(c: Config, s: State, call: nat, r: Request)
    requires call in s.dispatches && Untried(s.redis.entries, s.dispatches[call])
    requires Sound(c, ViewOf(s, r))
    ensures Sound(c, ViewOf(s.(dispatches := Drop(s.dispatches, call)), r))
  {
    DispatchDropped(s.dispatches, call, r);
    if s.dispatches[call].item.request == r {
      assert ViewOf(s, r).dispatches[call] == s.dispatches[call];
      DroppedEarly(c, ViewOf(s, r), ViewOf(s.(dispatches := Drop(s.dispatches, call)), r), call);
    }
  }

  /** What an adapter call changes in the view of its request, and that it changes no other view */
  lemma ExecuteView(s: State, call: nat, more: Dispatch, r: Request)
    requires call in s.dispatches
    requires var d := s.dispatches[call];
      more == d.(pc := Executing, item := d.item.(attempts := d.item.attempts + 1))
    ensures var d, v, v' := s.dispatches[call], ViewOf(s, r), ViewOf(OnExecute(s, call), r);
      && (d.item.request != r ==> v' == v)
      && (d.item.request == r ==>
            && call in v.dispatches && v.dispatches[call] == d
            && v' == v.(runs := v.runs + 1, dispatches := v.dispatches[call := more]))
  {
    DispatchSet(s.dispatches, call, more, r);
  }

  lemma ExecuteSound(c: Config, s: State, call: nat, r: Request)
    requires Enabled(c, s, Execute(call)) && Sound(c, ViewOf(s, r))
    ensures Sound(c, ViewOf(OnExecute(s, call), r))
  {
    var d := s.dispatches[call];
    var more := d.(pc := Executing, item := d.item.(attempts := d.item.attempts + 1));
    ExecuteView(s, call, more, r);
    if d.item.request == r { Called(c, ViewOf(s, r), ViewOf(OnExecute(s, call), r), call, more); }
  }

  lemma AdapterFailsSound(c: Config, s: State, call: nat, r: Request)
    requires Enabled(c, s, AdapterFails(call)) && Sound(c, ViewOf(s, r))
    ensures Sound(c, ViewOf(s.(dispatches := SetPc(s.dispatches, call, Caught)), r))
  {
    var v, v', d := ViewOf(s, r), ViewOf(s.(dispatches := SetPc(s.dispatches, call, Caught)), r), s.dispatches[call];
    DispatchSet(s.dispatches, call, d.(pc := Caught), r);
    if d.item.request == r {
      assert v.dispatches[call] == d && DispatchProgress(c, v.runs, v.answered, v.dispatches[call]);
      StillActive(c, v, v', call, d.(pc := Caught));
    }
  }

  /** What a response changes in the view of its request */
  lemma RespondView(s: State, call: nat, o: Outcome)
    requires call in s.dispatches
    ensures var d := s.dispatches[call];
      var v, v' := ViewOf(s, d.item.request), ViewOf(OnRespond(s, call, o), d.item.request);
      && call in v.dispatches && v.dispatches[call] == d
      && v'.answered == v.answered + (if Effective(o) then 1 else 0)
      && v' == v.(answered := v'.answered, dispatches := v'.dispatches)
      && v'.dispatches == if o == Done then v.dispatches[call := d.(pc := Answered)]
                          else if d.pc == Executing then v.dispatches[call := d.(pc := Caught)]
                          else v.dispatches - {call}
  {
    var d := s.dispatches[call];
    DispatchSet(s.dispatches, call, d.(pc := Answered), d.item.request);
    DispatchSet(s.dispatches, call, d.(pc := Caught), d.item.request);
    DispatchDropped(s.dispatches, call, d.item.request);
  }

  lemma RespondOther(s: State, call: nat, o: Outcome, r: Request)
    requires call in s.dispatches && s.dispatches[call].item.request != r
    ensures ViewOf(OnRespond(s, call, o), r) == ViewOf(s, r)
  {
    var d := s.dispatches[call];
    DispatchSet(s.dispatches, call, d.(pc := Answered), r);
    DispatchSet(s.dispatches, call, d.(pc := Caught), r);
    DispatchDropped(s.dispatches, call, r);
  }

  lemma RespondSound(c: Config, s: State, call: nat, o: Outcome, r: Request)
    requires Enabled(c, s, Respond(call, o)) && Sound(c, ViewOf(s, r)) && r !in Harms(s, Respond(call, o))
    ensures Sound(c, ViewOf(OnRespond(s, call, o), r))
  {
    var v, v', d := ViewOf(s, r), ViewOf(OnRespond(s, call, o), r), s.dispatches[call];
    if d.item.request == r {
      RespondView(s, call, o);
      assert DispatchProgress(c, v.runs, v.answered, v.dispatches[call]);
      if o == Done { StillActive(c, v, v', call, d.(pc := Answered)); }
      else if d.pc == Executing { StillActive(c, v, v', call, d.(pc := Caught)); }
      else { DroppedEarly(c, v, v', call); }
    } else {
      RespondOther(s, call, o, r);
    }
  }

  /** What a hand-over changes in the view of its request, and that it changes no other view */
  lemma RescheduleView(c: Config, s: State, call: nat, due: int, o: Outcome, next: Dispatch, r: Request)
    requires call in s.dispatches
    requires next == s.dispatches[call].(pc := if o == Done then Deferred(s.redis.nextId) else MustAnswer)
    ensures var d, v, v' := s.dispatches[call], ViewOf(s, r), ViewOf(OnReschedule(c, s, call, due, o), r);
      && (d.item.request != r ==> v' == v)
      && (d.item.request == r ==>
            && call in v.dispatches && v.dispatches[call] == d
            && v' == v.(retry := if Effective(o) then Some(d.item) else v.retry,
                        dispatches := v.dispatches[call := next]))
  {
    DispatchSet(s.dispatches, call, next, r);
  }

  lemma HandOverSound(c: Config, s: State, call: nat, due: int, r: Request)
    requires Enabled(c, s, Reschedule(call, due, Done)) && Sound(c, ViewOf(s, r))
    ensures Sound(c, ViewOf(OnReschedule(c, s, call, due, Done), r))
  {
    var d := s.dispatches[call];
    var next := d.(pc := Deferred(s.redis.nextId));
    RescheduleView(c, s, call, due, Done, next, r);
    if d.item.request == r {
      SlotPassed(c, ViewOf(s, r), ViewOf(OnReschedule(c, s, call, due, Done), r), call, next);
    }
  }

  lemma HandOverFailedSound(c: Config, s: State, call: nat, due: int, o: Outcome, r: Request)
    requires Enabled(c, s, Reschedule(call, due, o)) && Sound(c, ViewOf(s, r)) && o != Done
    requires o == ReplyLost ==> s.dispatches[call].item.request != r
    ensures Sound(c, ViewOf(OnReschedule(c, s, call, due, o), r))
  {
    var d := s.dispatches[call];
    var next := d.(pc := MustAnswer);
    RescheduleView(c, s, call, due, o, next, r);
    if d.item.request == r {
      StillActive(c, ViewOf(s, r), ViewOf(OnReschedule(c, s, call, due, o), r), call, next);
    }
  }

  lemma RescheduleSound(c: Config, s: State, call: nat, due: int, o: Outcome, r: Request)
    requires Enabled(c, s, Reschedule(call, due, o)) && Sound(c, ViewOf(s, r))
    requires r !in Harms(s, Reschedule(call, due, o))
    ensures Sound(c, ViewOf(OnReschedule(c, s, call, due, o), r))
  {
    if o == Done { HandOverSound(c, s, call, due, r); } else { HandOverFailedSound(c, s, call, due, o, r); }
  }

  /** An XACK for another request leaves the view as it is. */
  lemma XAckOther(s: State, call: nat, o: Outcome, r: Request)
    requires Consistent(s) && call in s.dispatches && s.dispatches[call].item.request != r
    ensures ViewOf(OnXAck(s, call, o), r) == ViewOf(s, r)
  {
    var d := s.dispatches[call];
    assert DispatchOk(s.redis, s.landed, d);
    DispatchSet(s.dispatches, call, d.(pc := Acked), r);
    DispatchDropped(s.dispatches, call, r);
    EntryDropped(s.redis.entries, d.entry, r);
  }

  lemma XAckOwn(s: State, call: nat, o: Outcome)
    requires call in s.dispatches && Effective(o)
    ensures var d := s.dispatches[call];
      var v, v' := ViewOf(s, d.item.request), ViewOf(OnXAck(s, call, o), d.item.request);
      && call in v.dispatches && v.dispatches[call] == d
      && v' == v.(entries := v.entries - {d.entry}, dispatches := v'.dispatches)
      && v'.dispatches == if o == Done && d.pc == Answered then v.dispatches[call := d.(pc := Acked)]
                          else v.dispatches - {call}
  {
    var d := s.dispatches[call];
    DispatchSet(s.dispatches, call, d.(pc := Acked), d.item.request);
    DispatchDropped(s.dispatches, call, d.item.request);
    EntryDropped(s.redis.entries, d.entry, d.item.request);
  }

  lemma XAckSound(c: Config, s: State, call: nat, o: Outcome, r: Request)
    requires Consistent(s) && Enabled(c, s, XAck(call, o)) && Sound(c, ViewOf(s, r)) && r !in Harms(s, XAck(call, o))
    ensures Sound(c, ViewOf(OnXAck(s, call, o), r))
  {
    if s.dispatches[call].item.request == r {
      XAckOwn(s, call, o);
      var v, v' := ViewOf(s, r), ViewOf(OnXAck(s, call, o), r);
      EntryAcked(c, v, v', call, v'.dispatches);
    } else {
      XAckOther(s, call, o, r);
    }
  }

  lemma DecrSound(c: Config, s: State, call: nat, o: Outcome, r: Request)
    requires Enabled(c, s, Decr(call, o)) && Sound(c, ViewOf(s, r))
    ensures Sound(c, ViewOf(OnDecr(s, call, o), r))
  {
    var v, v' := ViewOf(s, r), ViewOf(OnDecr(s, call, o), r);
    DispatchDropped(s.dispatches, call, r);
    if s.dispatches[call].item.request == r {
      assert v.dispatches[call] == s.dispatches[call];
      assert v' == v.(dispatches := v.dispatches - {call});
      SlotReturned(c, v, v', call);
    } else {
      assert v' == v;
    }
  }

  lemma PromoteSound(c: Config, s: State, p: nat, q: Request, o: Outcome, r: Request)
    requires Consistent(s) && p in s.scans && Sound(c, ViewOf(s, r))
    ensures Sound(c, ViewOf(OnPromote(s, p, q, o), r))
  {
    var v, v' := ViewOf(s, r), ViewOf(OnPromote(s, p, q, o), r);
    if Effective(o) && PromoteScript(s.redis, q.priority, q, s.scans[p]).1.Promoted? {
      EntryAdded(s.redis.entries, s.redis.nextId, Entry(q.priority, s.redis.hash[q].item, false), r);
      if q == r {
        forall d | d in v.dispatches ensures v.dispatches[d].entry != s.redis.nextId {
          assert DispatchOk(s.redis, s.landed, s.dispatches[d]);
        }
        RetryMoved(c, v, v', s.redis.nextId, Entry(q.priority, s.redis.hash[q].item, false));
      }
    }
  }

  /** What a crash takes from an unharmed request */
  lemma CrashTakes(s: State, p: nat, r: Request)
    requires r !in Harms(s, Crash(p))
    ensures var v, v' := ViewOf(s, r), ViewOf(OnCrash(s, p), r);
      forall d :: d in v.dispatches && d !in v'.dispatches ==>
        Untried(v.entries, v.dispatches[d]) || v.dispatches[d].pc == Acked
  {
    var v, v' := ViewOf(s, r), ViewOf(OnCrash(s, p), r);
    forall d | d in v.dispatches && d !in v'.dispatches
      ensures Untried(v.entries, v.dispatches[d]) || v.dispatches[d].pc == Acked
    {
      assert s.dispatches[d].process == p;
    }
  }

  lemma CrashSound(c: Config, s: State, p: nat, r: Request)
    requires Sound(c, ViewOf(s, r)) && r !in Harms(s, Crash(p))
    ensures Sound(c, ViewOf(OnCrash(s, p), r))
  {
    var v, v' := ViewOf(s, r), ViewOf(OnCrash(s, p), r);
    CrashTakes(s, p, r);
    Crashed(c, v, v', v'.calls, v'.dispatches);
  }

  lemma ClockSound(c: Config, s: State, e: Event, r: Request)
    requires Enabled(c, s, e) && (e.Tick? || e.Scan?) && Sound(c, ViewOf(s, r))
    ensures Sound(c, ViewOf(Effect(c, s, e), r))
  {
    assert ViewOf(Effect(c, s, e), r) == ViewOf(s, r);
  }

  lemma HandlerSound(c: Config, s: State, e: Event, r: Request)
    requires Enabled(c, s, e) && ByHandler(e) && Sound(c, ViewOf(s, r)) && r !in Harms(s, e)
    ensures Sound(c, ViewOf(Effect(c, s, e), r))
  {
    match e
    case Begin(call) => BeginSound(c, s, call, r);
    case Forget(call) => DropSound(c, s, call, r);
    case LookupFails(call) => DropSound(c, s, call, r);
    case Execute(call) => ExecuteSound(c, s, call, r);
    case AdapterFails(call) => AdapterFailsSound(c, s, call, r);
    case Respond(call, o) => RespondSound(c, s, call, o, r);
  }

  lemma ProducerSound(c: Config, s: State, e: Event, r: Request)
    requires Consistent(s) && Enabled(c, s, e) && Sound(c, ViewOf(s, r))
    requires e.Incr? || e.XAdd? || e.Undo? || e.ScheduleNew?
    ensures Sound(c, ViewOf(Effect(c, s, e), r))
  {
    match e
    case Incr(p, item, o) => IncrSound(c, s, p, item, o, r);
    case XAdd(call, o) => XAddSound(c, s, call, o, r);
    case Undo(call, o) => UndoSound(c, s, call, o, r);
    case ScheduleNew(item, due, o) => ScheduleNewSound(c, s, item, due, o, r);
  }

  lemma DispatcherSound(c: Config, s: State, e: Event, r: Request)
    requires Consistent(s) && Enabled(c, s, e) && Sound(c, ViewOf(s, r)) && r !in Harms(s, e)
    requires e.Reschedule? || e.XAck?
    ensures Sound(c, ViewOf(Effect(c, s, e), r))
  {
    match e
    case Reschedule(call, due, o) => RescheduleSound(c, s, call, due, o, r);
    case XAck(call, o) => XAckSound(c, s, call, o, r);
  }

  lemma ConsumerSound(c: Config, s: State, e: Event, r: Request)
    requires Consistent(s) && Enabled(c, s, e) && Sound(c, ViewOf(s, r)) && r !in Harms(s, e)
    requires e.Fetch? || e.Crash? || e.Promote?
    ensures Sound(c, ViewOf(Effect(c, s, e), r))
  {
    match e
    case Fetch(p, batch, o) => FetchSound(c, s, p, batch, o, r);
    case Crash(p) => CrashSound(c, s, p, r);
    case Promote(p, q, o) => PromoteSound(c, s, p, q, o, r);
  }

  lemma EffectSound(c: Config, s: State, e: Event, r: Request)
    requires Consistent(s) && Enabled(c, s, e) && Sound(c, ViewOf(s, r)) && r !in Harms(s, e)
    ensures Sound(c, ViewOf(Effect(c, s, e), r))
  {
    if ByHandler(e) { HandlerSound(c, s, e, r); }
    else if e.Reschedule? || e.XAck? { DispatcherSound(c, s, e, r); }
    else if e.Fetch? || e.Crash? || e.Promote? { ConsumerSound(c, s, e, r); }
    else if e.Decr? { DecrSound(c, s, e.call, e.outcome, r); }
    else if e.Tick? || e.Scan? { ClockSound(c, s, e, r); }
    else { ProducerSound(c, s, e, r); }
  }

  lemma DriftUnseen(s: State, drift: int, r: Request)
    ensures ViewOf(s.(drift := drift), r) == ViewOf(s, r)
  {
  }

  /** An event keeps every request it does not harm in order. */
  lemma SoundStep(c: Config, s: State, e: Event, r: Request)
    requires Consistent(s) && Enabled(c, s, e) && Sound(c, ViewOf(s, r)) && r !in Harms(s, e)
    ensures Sound(c, ViewOf(Apply(c, s, e), r))
  {
    EffectSound(c, s, e, r);
    DriftUnseen(Effect(c, s, e), s.drift + Delta(c, s, e), r);
  }

  // ---------------------------------------------------------------- over every run

  lemma {:induction false} RunSound(c: Config, s: State, es: seq<Event>, r: Request)
    requires Consistent(s) && Sound(c, ViewOf(s, r)) && Allowed(c, s, es) && r !in HarmedIn(c, s, es)
    ensures Consistent(Run(c, s, es)) && Sound(c, ViewOf(Run(c, s, es), r))
    decreases |es|
  {
    if es != [] {
      ConsistentStep(c, s, es[0]);
      SoundStep(c, s, es[0], r);
      RunSound(c, Apply(c, s, es[0]), es[1..], r);
    }
  }

  lemma InitSound(c: Config, clock: int, r: Request)
    ensures Sound(c, ViewOf(Init(clock), r))
  {
  }

  /** `d` is a dispatch of `r` whose handler is at work. */
  ghost predicate Works(s: State, d: nat, r: Request) {
    d in s.dispatches && s.dispatches[d].item.request == r && Active(s.dispatches[d])
  }

  /** `e` is an entry of `r` that owns a slot. */
  ghost predicate Copy(s: State, e: nat, r: Request) { e in Owned(s) && s.redis.entries[e].item.request == r }

  /** One handler, bounded attempts, one response, one slot-owning copy */
  ghost predicate InOrder(c: Config, s: State, r: Request) {
    && Count(s.runs, r) <= c.maxAttempts + 1 && Count(s.answered, r) <= 1
    && (forall d, d' :: Works(s, d, r) && Works(s, d', r) ==> d == d')
    && (forall e, e' :: Copy(s, e, r) && Copy(s, e', r) ==> e == e')
    && (forall e :: Copy(s, e, r) ==> r !in s.redis.zset)
  }

  /** Fault isolation: over every run, with whatever crashes and failures, a request that no event of the
      run harmed has at most one handler at work, at most maxAttempts + 1 adapter calls, and at most one
      response; and its slot is owned by one entry or by its delayed retry. */
  lemma UnharmedRequest(c: Config, clock: int, es: seq<Event>, r: Request)
    requires Allowed(c, Init(clock), es) && r !in HarmedIn(c, Init(clock), es)
    ensures InOrder(c, Run(c, Init(clock), es), r)
  {
    InitSound(c, clock, r);
    RunSound(c, Init(clock), es, r);
    SoundInOrder(c, Run(c, Init(clock), es), r);
  }

  lemma SoundInOrder(c: Config, s: State, r: Request)
    requires Consistent(s) && Sound(c, ViewOf(s, r))
    ensures InOrder(c, s, r)
  {
    var v := ViewOf(s, r);
    forall d, d' | Works(s, d, r) && Works(s, d', r) ensures d == d' {
      assert d in v.dispatches && d' in v.dispatches && v.dispatches[d'] == s.dispatches[d'];
      ActiveOwns(v.entries, v.retry, v.dispatches, d);
    }
    forall e | Copy(s, e, r) ensures OwnCopy(v.entries, v.dispatches, e) {
      OwnedInView(s, r, e);
    }
  }

  /** The view sees every dispatch that could have passed on a slot of its entries. */
  lemma OwnedInView(s: State, r: Request, e: nat)
    requires Consistent(s) && e in s.redis.entries && s.redis.entries[e].item.request == r
    ensures var v := ViewOf(s, r); e in Owned(s) <==> OwnCopy(v.entries, v.dispatches, e)
  {
    var ds := DispatchesOf(s.dispatches, r);
    if e in HandedOver(s.dispatches) {
      var d :| d in s.dispatches && s.dispatches[d].pc.Deferred? && s.dispatches[d].entry == e;
      assert DispatchOk(s.redis, s.landed, s.dispatches[d]);
      assert d in ds && ds[d] == s.dispatches[d];
    }
    if PassedOn(ds, e) {
      var d :| d in ds && ds[d].pc.Deferred? && ds[d].entry == e;
      assert d in s.dispatches && s.dispatches[d] == ds[d];
    }
  }

  // ---------------------------------------------------------------- drift

  /** An event without a fault of its own makes the counter drift exactly when it ACKs an entry that owns
      no slot (any more), or hands over a slot that is not there or to a retry that has one. */
  lemma DriftExactly(c: Config, s: State, e: Event)
    requires Consistent(s) && Enabled(c, s, e) && !Faulty(s, e)
    ensures Delta(c, s, e) != 0 <==>
      || (e.XAck? && s.dispatches[e.call].pc == Answered && s.dispatches[e.call].entry !in Owned(s))
      || (e.Reschedule? &&
            (s.dispatches[e.call].entry in Owned(s) <==> s.dispatches[e.call].item.request in s.redis.zset))
  {
  }

  /** Over every run such an event concerns a request that an earlier event harmed: for any other, the
      counter drifts at the named faults only. */
  lemma DriftNeedsHarm(c: Config, clock: int, es: seq<Event>, e: Event)
    requires Allowed(c, Init(clock), es)
    requires var s := Run(c, Init(clock), es); Enabled(c, s, e) && !Faulty(s, e) && Delta(c, s, e) != 0
    ensures e.XAck? || e.Reschedule?
    ensures Run(c, Init(clock), es).dispatches[e.call].item.request in HarmedIn(c, Init(clock), es)
  {
    var s := Run(c, Init(clock), es);
    RunConsistent(c, Init(clock), es);
    DriftExactly(c, s, e);
    var r := s.dispatches[e.call].item.request;
    if r !in HarmedIn(c, Init(clock), es) {
      InitSound(c, clock, r);
      RunSound(c, Init(clock), es, r);
      NoDrift(c, s, e);
    }
  }

  /** A fault-free event on a request in order makes no drift. */
  lemma NoDrift(c: Config, s: State, e: Event)
    requires Consistent(s) && Enabled(c, s, e) && !Faulty(s, e)
    requires e.XAck? || e.Reschedule? ==> Sound(c, ViewOf(s, s.dispatches[e.call].item.request))
    ensures Delta(c, s, e) == 0
  {
    DriftExactly(c, s, e);
    if e.Reschedule? || (e.XAck? && s.dispatches[e.call].pc == Answered) {
      var d := s.dispatches[e.call];
      var v := ViewOf(s, d.item.request);
      assert v.dispatches[e.call] == d;
      ActiveOwns(v.entries, v.retry, v.dispatches, e.call);
      OwnedInView(s, d.item.request, d.entry);
    }
  }

  lemma NoFaultNoHarm(s: State, e: Event)
    requires !Faulty(s, e)
    ensures Harms(s, e) == {}
  {
  }

  /** Without faults nobody is harmed. */
  lemma {:induction false} FaultFreeHarmsNobody(c: Config, s: State, es: seq<Event>)
    requires Allowed(c, s, es) && FaultFree(c, s, es)
    ensures HarmedIn(c, s, es) == {}
    decreases |es|
  {
    if es != [] { NoFaultNoHarm(s, es[0]); FaultFreeHarmsNobody(c, Apply(c, s, es[0]), es[1..]); }
  }
}
