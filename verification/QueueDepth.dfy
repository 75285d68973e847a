/**
  The depth counter. In every reachable state it equals the slots that can be named - entries
  still owning theirs, delayed retries, enqueuers before their XADD or DECR, dispatches between
  XACK and DECR - plus a drift that each event changes by the amount `Delta` states.
 */
module QueueDepth {
  import opened QueueModel
  import opened QueueSafety

  ghost predicate Balanced(s: State) { s.redis.depth == Accounted(s) + s.drift }

  /** How far one transition moves `depth` from the named slots */
  function Gap(s: State): int { s.redis.depth - Accounted(s) }

  lemma KeyAdded<K, V>(m: map<K, V>, k: K, v: V)
    ensures |m[k := v]| == |m| + Unit(k !in m)
  {
    assert m[k := v].Keys == m.Keys + {k};
    assert |m[k := v].Keys| == |m[k := v]|;
  }

  lemma KeyDropped<K, V>(m: map<K, V>, k: K)
    ensures |m - {k}| == |m| - Unit(k in m)
  {
    assert (m - {k}).Keys == m.Keys - {k};
    assert |(m - {k}).Keys| == |m - {k}|;
  }

  lemma SetAdded<T>(a: set<T>, b: set<T>, x: T)
    requires b == a + {x}
    ensures |b| == |a| + Unit(x !in a)
  {
    if x in a { assert b == a; }
  }

  lemma SetDropped<T>(a: set<T>, b: set<T>, x: T)
    requires b == a - {x}
    ensures |b| == |a| - Unit(x in a)
  {
    if x !in a { assert b == a; }
  }

  lemma IncrGap(c: Config, s: State, p: nat, item: Item, o: Outcome)
    requires Consistent(s)
    ensures Gap(OnIncr(c, s, p, item, o)) == Gap(s) + Unit(o == ReplyLost)
  {
    KeyAdded(s.enqueuers, s.nextCall, Enqueuer(p, item, Reserved));
    KeyAdded(s.enqueuers, s.nextCall, Enqueuer(p, item, OverLimit));
    assert Owned(OnIncr(c, s, p, item, o)) == Owned(s);
  }

  lemma KeyGained(keys: set<nat>, handed: set<nat>, e: nat)
    requires e !in keys && e !in handed
    ensures |(keys + {e}) - handed| == |keys - handed| + 1
  {
    assert (keys + {e}) - handed == (keys - handed) + {e};
  }

  lemma FreshNotHandedOver(ds: map<nat, Dispatch>, e: nat)
    requires forall d :: d in ds ==> ds[d].entry < e
    ensures e !in HandedOver(ds)
  {
  }

  lemma KeysOfUpdate<K, V>(m: map<K, V>, k: K, v: V)
    ensures m[k := v].Keys == m.Keys + {k}
  {
  }

  lemma AddedEntryOwned(s: State, s': State, v: Entry)
    requires s.redis.nextId !in s.redis.entries
    requires forall d :: d in s.dispatches ==> s.dispatches[d].entry < s.redis.nextId
    requires s'.redis.entries == s.redis.entries[s.redis.nextId := v]
    requires s'.dispatches == s.dispatches
    ensures |Owned(s')| == |Owned(s)| + 1
  {
    var e := s.redis.nextId;
    FreshNotHandedOver(s.dispatches, e);
    KeyGained(s.redis.entries.Keys, HandedOver(s.dispatches), e);
    KeysOfUpdate(s.redis.entries, e, v);
  }

  lemma XAddGap(s: State, call: nat, o: Outcome)
    requires Consistent(s) && call in s.enqueuers
    ensures Gap(OnXAdd(s, call, o)) == Gap(s) - Unit(o == ReplyLost)
  {
    var s' := OnXAdd(s, call, o);
    var q := s.enqueuers[call];
    KeyDropped(s.enqueuers, call);
    KeyAdded(s.enqueuers, call, q.(pc := Rollback));
    if Effective(o) {
      AddedEntryOwned(s, s', Entry(q.item.request.priority, q.item, false));
    } else {
      assert Owned(s') == Owned(s);
    }
  }

  lemma UndoGap(s: State, call: nat, o: Outcome)
    requires call in s.enqueuers
    ensures Gap(OnUndo(s, call, o)) == Gap(s) + Unit(o == NoEffect)
  {
    KeyDropped(s.enqueuers, call);
    assert Owned(OnUndo(s, call, o)) == Owned(s);
  }

  lemma ScheduleNewGap(c: Config, s: State, item: Item, due: int, o: Outcome)
    ensures Gap(OnScheduleNew(c, s, item, due, o)) == Gap(s)
  {
    KeyAdded(s.redis.zset, item.request, due);
    assert Owned(OnScheduleNew(c, s, item, due, o)) == Owned(s);
  }

  /** Dispatches that are neither deferred nor releasing may come and go freely. */
  lemma DispatchesUncounted(s: State, s': State)
    requires s'.redis.entries.Keys == s.redis.entries.Keys
    requires HandedOver(s'.dispatches) == HandedOver(s.dispatches)
    requires Releasing(s'.dispatches) == Releasing(s.dispatches)
    requires s'.redis.depth == s.redis.depth && s'.redis.zset == s.redis.zset && s'.enqueuers == s.enqueuers
    ensures Gap(s') == Gap(s)
  {
    assert Owned(s') == Owned(s);
  }

  lemma FetchGap(s: State, p: nat, batch: seq<nat>, o: Outcome)
    requires Consistent(s) && forall e :: e in batch ==> e in s.redis.entries
    ensures Gap(OnFetch(s, p, batch, o)) == Gap(s)
  {
    var s' := OnFetch(s, p, batch, o);
    var started := Handlers(s.redis.entries, p, s.nextCall, batch);
    TakenUncounted(s.dispatches, started, s.nextCall);
    DispatchesUncounted(s, s');
  }

  lemma TakenUncounted(ds: map<nat, Dispatch>, started: map<nat, Dispatch>, first: nat)
    requires forall d :: d in ds ==> d < first
    requires forall d :: d in started ==> d >= first && started[d].pc == Taken
    ensures HandedOver(ds + started) == HandedOver(ds) && Releasing(ds + started) == Releasing(ds)
  {
    SamePcs(ds, ds + started);
  }

  ghost predicate Uncounted(d: Dispatch) { !d.pc.Deferred? && d.pc != Acked }

  /** Two dispatch tables that agree on their deferred and releasing members */
  lemma SamePcs(a: map<nat, Dispatch>, b: map<nat, Dispatch>)
    requires forall d :: d in a && !Uncounted(a[d]) ==> d in b && b[d] == a[d]
    requires forall d :: d in b && !Uncounted(b[d]) ==> d in a && a[d] == b[d]
    ensures HandedOver(a) == HandedOver(b) && Releasing(a) == Releasing(b)
  {
    forall e | e in HandedOver(a) ensures e in HandedOver(b) {
      var d :| d in a && a[d].pc.Deferred? && a[d].entry == e;
      assert d in b && b[d] == a[d];
    }
    forall e | e in HandedOver(b) ensures e in HandedOver(a) {
      var d :| d in b && b[d].pc.Deferred? && b[d].entry == e;
      assert d in a && a[d] == b[d];
    }
  }

  lemma HandlerGap(c: Config, s: State, e: Event)
    requires Enabled(c, s, e) && ByHandler(e)
    ensures Gap(Effect(c, s, e)) == Gap(s)
  {
    var s' := Effect(c, s, e);
    SamePcs(s.dispatches, s'.dispatches);
    DispatchesUncounted(s, s');
  }

  lemma RescheduleGap(c: Config, s: State, call: nat, due: int, o: Outcome)
    requires Enabled(c, s, Reschedule(call, due, o))
    ensures Gap(OnReschedule(c, s, call, due, o)) == Gap(s) + Delta(c, s, Reschedule(call, due, o))
  {
    if o == Done {
      RescheduledGap(c, s, call, due);
    } else {
      RescheduleFailedGap(c, s, call, due, o);
    }
  }

  lemma RescheduledGap(c: Config, s: State, call: nat, due: int)
    requires Enabled(c, s, Reschedule(call, due, Done))
    ensures Gap(OnReschedule(c, s, call, due, Done)) == Gap(s) + Delta(c, s, Reschedule(call, due, Done))
  {
    var s' := OnReschedule(c, s, call, due, Done);
    var d := s.dispatches[call];
    KeyAdded(s.redis.zset, d.item.request, due);
    SamePcsButDeferred(s.dispatches, call, s.redis.nextId);
    HandOver(s.dispatches, call, s.redis.nextId);
    OwnedHandedOver(s, s', d.entry);
  }

  lemma RescheduleFailedGap(c: Config, s: State, call: nat, due: int, o: Outcome)
    requires Enabled(c, s, Reschedule(call, due, o)) && o != Done
    ensures Gap(OnReschedule(c, s, call, due, o)) == Gap(s) + Delta(c, s, Reschedule(call, due, o))
  {
    var s' := OnReschedule(c, s, call, due, o);
    KeyAdded(s.redis.zset, s.dispatches[call].item.request, due);
    SamePcs(s.dispatches, s'.dispatches);
    assert Owned(s') == Owned(s);
  }

  lemma SamePcsButDeferred(ds: map<nat, Dispatch>, call: nat, mark: nat)
    requires call in ds && Uncounted(ds[call])
    ensures Releasing(SetPc(ds, call, Deferred(mark))) == Releasing(ds)
  {
  }

  /** Handing over an entry takes it from the owned ones. */
  lemma OwnedHandedOver(s: State, s': State, entry: nat)
    requires s'.redis.entries == s.redis.entries && HandedOver(s'.dispatches) == HandedOver(s.dispatches) + {entry}
    ensures |Owned(s')| == |Owned(s)| - Unit(entry in Owned(s))
  {
    assert Owned(s') == Owned(s) - {entry};
    SetDropped(Owned(s), Owned(s'), entry);
  }

  lemma HandOver(ds: map<nat, Dispatch>, call: nat, mark: nat)
    requires call in ds && Uncounted(ds[call])
    ensures HandedOver(SetPc(ds, call, Deferred(mark))) == HandedOver(ds) + {ds[call].entry}
  {
    var ds' := SetPc(ds, call, Deferred(mark));
    forall e | e in HandedOver(ds) + {ds[call].entry} ensures e in HandedOver(ds') {
      if e == ds[call].entry {
        assert call in ds' && ds'[call].pc.Deferred?;
      } else {
        var d :| d in ds && ds[d].pc.Deferred? && ds[d].entry == e;
        assert d in ds' && ds'[d] == ds[d];
      }
    }
    forall e | e in HandedOver(ds') ensures e in HandedOver(ds) + {ds[call].entry} {
      var d :| d in ds' && ds'[d].pc.Deferred? && ds'[d].entry == e;
      assert d == call || ds[d] == ds'[d];
    }
  }

  lemma XAckAnsweredGap(c: Config, s: State, call: nat, o: Outcome)
    requires Enabled(c, s, XAck(call, o)) && s.dispatches[call].pc == Answered
    ensures Gap(OnXAck(s, call, o)) == Gap(s) + Delta(c, s, XAck(call, o))
  {
    var s' := OnXAck(s, call, o);
    var d := s.dispatches[call];
    if o == Done {
      Releases(s.dispatches, call);
    } else {
      SamePcs(s.dispatches, s'.dispatches);
    }
    if Effective(o) {
      assert Owned(s') == Owned(s) - {d.entry};
      SetDropped(Owned(s), Owned(s'), d.entry);
    } else {
      assert Owned(s') == Owned(s);
    }
  }

  lemma Releases(ds: map<nat, Dispatch>, call: nat)
    requires call in ds && Uncounted(ds[call])
    ensures HandedOver(SetPc(ds, call, Acked)) == HandedOver(ds)
    ensures |Releasing(SetPc(ds, call, Acked))| == |Releasing(ds)| + 1
  {
    var ds' := SetPc(ds, call, Acked);
    assert Releasing(ds') == Releasing(ds) + {call};
    SamePcs(Drop(ds, call), ds);
    forall e | e in HandedOver(ds') ensures e in HandedOver(ds) {
      var d :| d in ds' && ds'[d].pc.Deferred? && ds'[d].entry == e;
      assert d in ds && ds[d] == ds'[d];
    }
    forall e | e in HandedOver(ds) ensures e in HandedOver(ds') {
      var d :| d in ds && ds[d].pc.Deferred? && ds[d].entry == e;
      assert d in ds' && ds[d] == ds'[d];
    }
  }

  lemma XAckDeferredGap(c: Config, s: State, call: nat, o: Outcome)
    requires Enabled(c, s, XAck(call, o)) && s.dispatches[call].pc.Deferred?
    ensures Gap(OnXAck(s, call, o)) == Gap(s) + Delta(c, s, XAck(call, o))
  {
    var d := s.dispatches[call];
    var rest := Drop(s.dispatches, call);
    assert Releasing(rest) == Releasing(s.dispatches);
    DropDeferred(s.dispatches, call);
    DeferredOwned(s, OnXAck(s, call, o), d.entry, rest, o);
  }

  /** What happens to the owned entries when the dispatch of a handed-over entry ends with its ACK */
  lemma DeferredOwned(s: State, s': State, entry: nat, rest: map<nat, Dispatch>, o: Outcome)
    requires HandedOver(s.dispatches) == HandedOver(rest) + {entry} && s'.dispatches == rest
    requires s'.redis.entries == if Effective(o) then Drop(s.redis.entries, entry) else s.redis.entries
    ensures Owned(s') == if !Effective(o) && entry in s.redis.entries && entry !in HandedOver(rest)
                         then Owned(s) + {entry} else Owned(s)
  {
  }

  lemma DropDeferred(ds: map<nat, Dispatch>, call: nat)
    requires call in ds && ds[call].pc.Deferred?
    ensures HandedOver(ds) == HandedOver(Drop(ds, call)) + {ds[call].entry}
  {
    var rest := Drop(ds, call);
    forall e | e in HandedOver(ds) ensures e in HandedOver(rest) + {ds[call].entry} {
      var d :| d in ds && ds[d].pc.Deferred? && ds[d].entry == e;
      assert d == call || (d in rest && rest[d] == ds[d]);
    }
    forall e | e in HandedOver(rest) ensures e in HandedOver(ds) {
      var d :| d in rest && rest[d].pc.Deferred? && rest[d].entry == e;
      assert d in ds && ds[d] == rest[d];
    }
  }

  lemma DecrGap(s: State, call: nat, o: Outcome)
    requires call in s.dispatches && s.dispatches[call].pc == Acked
    ensures Gap(OnDecr(s, call, o)) == Gap(s) + Unit(o == NoEffect)
  {
    var s' := OnDecr(s, call, o);
    assert Releasing(s'.dispatches) == Releasing(s.dispatches) - {call};
    SetDropped(Releasing(s.dispatches), Releasing(s'.dispatches), call);
    forall e | e in HandedOver(s.dispatches) ensures e in HandedOver(s'.dispatches) {
      var d :| d in s.dispatches && s.dispatches[d].pc.Deferred? && s.dispatches[d].entry == e;
      assert d in s'.dispatches && s'.dispatches[d] == s.dispatches[d];
    }
    assert Owned(s') == Owned(s);
  }

  /** A retry becomes an entry: one named slot for another. */
  lemma MovedGap(s: State, s': State, r: Request, v: Entry)
    requires s.redis.nextId !in s.redis.entries && r in s.redis.zset
    requires forall d :: d in s.dispatches ==> s.dispatches[d].entry < s.redis.nextId
    requires s'.redis.entries == s.redis.entries[s.redis.nextId := v] && s'.redis.zset == s.redis.zset - {r}
    requires s'.redis.depth == s.redis.depth && s'.dispatches == s.dispatches && s'.enqueuers == s.enqueuers
    ensures Gap(s') == Gap(s)
  {
    KeyDropped(s.redis.zset, r);
    AddedEntryOwned(s, s', v);
  }

  lemma PromotedGap(s: State, p: nat, r: Request, o: Outcome)
    requires Consistent(s) && p in s.scans && Effective(o)
    requires PromoteScript(s.redis, r.priority, r, s.scans[p]).1.Promoted?
    ensures Gap(OnPromote(s, p, r, o)) == Gap(s)
  {
    MovedGap(s, OnPromote(s, p, r, o), r, Entry(r.priority, s.redis.hash[r].item, false));
  }

  lemma PayloadMissingGap(s: State, p: nat, r: Request, o: Outcome)
    requires p in s.scans && Effective(o)
    requires PromoteScript(s.redis, r.priority, r, s.scans[p]).1.PayloadMissing?
    ensures Gap(OnPromote(s, p, r, o)) == Gap(s) + 1
  {
    KeyDropped(s.redis.zset, r);
    assert Owned(OnPromote(s, p, r, o)) == Owned(s);
  }

  lemma PromoteGap(c: Config, s: State, p: nat, r: Request, o: Outcome)
    requires Consistent(s) && p in s.scans
    ensures Gap(OnPromote(s, p, r, o)) == Gap(s) + Delta(c, s, Promote(p, r, o))
  {
    var reply := PromoteScript(s.redis, r.priority, r, s.scans[p]).1;
    if Effective(o) && reply.Promoted? {
      PromotedGap(s, p, r, o);
    } else if Effective(o) && reply.PayloadMissing? {
      PayloadMissingGap(s, p, r, o);
    } else {
      UnmovedGap(s, p, r, o);
    }
  }

  lemma UnmovedGap(s: State, p: nat, r: Request, o: Outcome)
    requires p in s.scans && (!Effective(o) || PromoteScript(s.redis, r.priority, r, s.scans[p]).1.NotDue?)
    ensures Gap(OnPromote(s, p, r, o)) == Gap(s)
  {
    DispatchesUncounted(s, OnPromote(s, p, r, o));
  }

  lemma CrashGap(c: Config, s: State, p: nat)
    ensures Gap(OnCrash(s, p)) == Gap(s) + Delta(c, s, Crash(p))
  {
    var s' := OnCrash(s, p);
    FewerHandedOver(s.dispatches, s'.dispatches);
    Abandoned(s.enqueuers.Keys, s'.enqueuers.Keys, Releasing(s.dispatches), Releasing(s'.dispatches),
              s.redis.entries.Keys, HandedOver(s.dispatches), HandedOver(s'.dispatches));
  }

  lemma Abandoned(q: set<nat>, q': set<nat>, rel: set<nat>, rel': set<nat>, keys: set<nat>, handed: set<nat>,
                  handed': set<nat>)
    requires q' <= q && rel' <= rel && handed' <= handed
    ensures |q - q'| + |rel - rel'| - |keys * (handed - handed')|
            == |q| + |rel| + |keys - handed| - |q'| - |rel'| - |keys - handed'|
  {
    Subtract(q, q');
    Subtract(rel, rel');
    TakenBack(keys, handed, handed');
  }

  lemma FewerHandedOver(ds: map<nat, Dispatch>, rest: map<nat, Dispatch>)
    requires forall d :: d in rest ==> d in ds && ds[d] == rest[d]
    ensures HandedOver(rest) <= HandedOver(ds)
  {
    forall e | e in HandedOver(rest) ensures e in HandedOver(ds) {
      var d :| d in rest && rest[d].pc.Deferred? && rest[d].entry == e;
      assert d in ds && ds[d] == rest[d];
    }
  }

  lemma TakenBack(keys: set<nat>, handed: set<nat>, handed': set<nat>)
    requires handed' <= handed
    ensures |keys - handed'| == |keys - handed| + |keys * (handed - handed')|
  {
    assert keys - handed' == (keys - handed) + keys * (handed - handed');
    assert (keys - handed) !! keys * (handed - handed');
  }

  lemma Subtract<T>(a: set<T>, b: set<T>)
    requires b <= a
    ensures |a - b| == |a| - |b|
  {
    assert a == (a - b) + b;
  }

  /** One event moves `depth` away from the named slots by exactly `Delta`. */
  lemma GapStep(c: Config, s: State, e: Event)
    requires Consistent(s) && Enabled(c, s, e)
    ensures Gap(Effect(c, s, e)) == Gap(s) + Delta(c, s, e)
  {
    match e
    case Tick(_) => assert Owned(Effect(c, s, e)) == Owned(s);
    case Scan(_) => assert Owned(Effect(c, s, e)) == Owned(s);
    case Incr(p, item, o) => IncrGap(c, s, p, item, o);
    case XAdd(call, o) => XAddGap(s, call, o);
    case Undo(call, o) => UndoGap(s, call, o);
    case ScheduleNew(item, due, o) => ScheduleNewGap(c, s, item, due, o);
    case Fetch(p, batch, o) => FetchGap(s, p, batch, o);
    case Reschedule(call, due, o) => RescheduleGap(c, s, call, due, o);
    case XAck(call, o) =>
      if s.dispatches[call].pc == Answered { XAckAnsweredGap(c, s, call, o); }
      else { XAckDeferredGap(c, s, call, o); }
    case Decr(call, o) => DecrGap(s, call, o);
    case Promote(p, r, o) => PromoteGap(c, s, p, r, o);
    case Crash(p) => CrashGap(c, s, p);
    case _ => HandlerGap(c, s, e);
  }

  lemma BalancedStep(c: Config, s: State, e: Event)
    requires Consistent(s) && Balanced(s) && Enabled(c, s, e)
    ensures Balanced(Apply(c, s, e))
  {
    GapStep(c, s, e);
    Drifts(s, Effect(c, s, e), Delta(c, s, e));
  }

  lemma Drifts(s: State, t: State, delta: int)
    requires Balanced(s) && Gap(t) == Gap(s) + delta
    ensures Balanced(t.(drift := s.drift + delta))
  {
    assert Owned(t.(drift := s.drift + delta)) == Owned(t);
  }

  /** Depth conservation over every run, faulty or not: the drift is the sum of the stated
      amounts and nothing else ever separates the counter from the named slots. */
  lemma {:induction false} DepthConserved(c: Config, s: State, es: seq<Event>)
    requires Consistent(s) && Secured(s) && Balanced(s) && Allowed(c, s, es)
    ensures Balanced(Run(c, s, es))
    decreases |es|
  {
    if es != [] {
      BalancedStep(c, s, es[0]);
      ConsistentStep(c, s, es[0]);
      SecuredStep(c, s, es[0]);
      DepthConserved(c, Apply(c, s, es[0]), es[1..]);
    }
  }

  lemma DepthAccounting(c: Config, clock: int, es: seq<Event>)
    requires Allowed(c, Init(clock), es)
    ensures var s := Run(c, Init(clock), es);
      s.redis.depth == |Owned(s)| + |s.redis.zset| + |s.enqueuers| + |Releasing(s.dispatches)| + s.drift
  {
    var s := Init(clock);
    assert Owned(s) == {} && Releasing(s.dispatches) == {};
    DepthConserved(c, s, es);
  }
}
