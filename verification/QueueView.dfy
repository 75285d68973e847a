/**
  The queue as one request sees it: its un-ACKed entries, its delayed retry, the calls and dispatches
  that carry it, and what was done for it. On this view one copy, one handler, bounded attempts and a
  single response are an invariant that no change but a few named ones can break.
 */
module QueueView {
  import opened JsText
  import opened QueueModel

  datatype View = View(
    entries: map<nat, Entry>,
    retry: Option<Item>,
    calls: map<nat, Enqueuer>,
    dispatches: map<nat, Dispatch>,
    landed: bool,
    runs: nat,
    answered: nat)

  function EntriesOf(es: map<nat, Entry>, r: Request): map<nat, Entry> {
    es - set e | e in es && es[e].item.request != r
  }

  function CallsOf(qs: map<nat, Enqueuer>, r: Request): map<nat, Enqueuer> {
    qs - set q | q in qs && qs[q].item.request != r
  }

  function DispatchesOf(ds: map<nat, Dispatch>, r: Request): map<nat, Dispatch> {
    ds - set d | d in ds && ds[d].item.request != r
  }

  function RetryOf(r: Redis, q: Request): Option<Item> { if q in r.hash then Some(r.hash[q].item) else None }

  function ViewOf(s: State, r: Request): View {
    View(EntriesOf(s.redis.entries, r), RetryOf(s.redis, r), CallsOf(s.enqueuers, r), DispatchesOf(s.dispatches, r),
         r in s.landed, Count(s.runs, r), Count(s.answered, r))
  }

  // ---------------------------------------------------------------- the invariant

  /** The handler of this dispatch has not handed the request on and is not past its XACK. */
  predicate Active(d: Dispatch) { !d.pc.Deferred? && d.pc != Acked }

  /** The entry's slot was handed over by a live dispatch. */
  ghost predicate PassedOn(ds: map<nat, Dispatch>, e: nat) {
    exists d :: d in ds && ds[d].pc.Deferred? && ds[d].entry == e
  }

  ghost predicate OwnCopy(entries: map<nat, Entry>, ds: map<nat, Dispatch>, e: nat) { e in entries && !PassedOn(ds, e) }

  ghost predicate Idle(ds: map<nat, Dispatch>, e: nat) {
    forall d :: d in ds && ds[d].entry == e ==> ds[d].pc == Acked
  }

  /** One slot-owning copy: an entry or the delayed retry, not both; and one live dispatch an entry. */
  ghost predicate OneCopy(entries: map<nat, Entry>, retry: Option<Item>, ds: map<nat, Dispatch>) {
    && (forall e, e' :: OwnCopy(entries, ds, e) && OwnCopy(entries, ds, e') ==> e == e')
    && (forall e :: OwnCopy(entries, ds, e) ==> retry.None?)
    && (forall d :: d in ds && ds[d].pc != Acked ==> ds[d].entry in entries)
    && (forall d, d' :: d in ds && d' in ds && d != d' && ds[d].pc != Acked && ds[d'].pc != Acked ==>
          ds[d].entry != ds[d'].entry)
  }

  /** The copy carries the number of adapter calls made so far, and there is no response yet. */
  predicate Waiting(c: Config, runs: nat, answered: nat, item: Item) {
    runs == item.attempts <= c.maxAttempts && answered == 0
  }

  predicate DispatchProgress(c: Config, runs: nat, answered: nat, d: Dispatch) {
    match d.pc
    case Taken => Waiting(c, runs, answered, d.item)
    case Running => Waiting(c, runs, answered, d.item)
    case Executing => runs == d.item.attempts && answered == 0
    case Caught => runs == d.item.attempts && answered == 0
    case MustAnswer => runs == d.item.attempts && answered == 0
    case Deferred(_) => true
    case _ => answered == 1
  }

  /** A dispatch has its entry's item, with one attempt more once it called the adapter. */
  predicate FromEntry(entries: map<nat, Entry>, d: Dispatch) {
    d.entry in entries ==>
      var item := entries[d.entry].item;
      match d.pc
      case Taken => d.item == item
      case Running => d.item == item
      case Executing => d.item == item.(attempts := item.attempts + 1)
      case Caught => d.item == item.(attempts := item.attempts + 1)
      case MustAnswer => d.item == item || d.item == item.(attempts := item.attempts + 1)
      case _ => true
  }

  /** The handler called no adapter, made no response and left no copy: it did nothing yet, or only failed
      to hand its slot over. */
  predicate Untried(entries: map<nat, Entry>, d: Dispatch) {
    || d.pc == Taken || d.pc == Running
    || (d.pc == MustAnswer && d.entry in entries && entries[d.entry].item == d.item)
  }

  ghost predicate Progress(c: Config, entries: map<nat, Entry>, retry: Option<Item>, ds: map<nat, Dispatch>,
                           runs: nat, answered: nat) {
    && runs <= c.maxAttempts + 1 && answered <= 1
    && (retry.Some? ==> Waiting(c, runs, answered, retry.value))
    && (forall e :: OwnCopy(entries, ds, e) && Idle(ds, e) ==> Waiting(c, runs, answered, entries[e].item))
    && (forall e :: e in entries ==> entries[e].item.attempts <= c.maxAttempts)
    && (forall d :: d in ds ==> DispatchProgress(c, runs, answered, ds[d]) && FromEntry(entries, ds[d]))
  }

  /** While it is being enqueued the request has one call, no copy and no history. */
  ghost predicate CallsOk(v: View) {
    && (forall q, q' :: q in v.calls && q' in v.calls ==> q == q')
    && (forall q :: q in v.calls ==> v.calls[q].item.attempts == 0 && (v.calls[q].pc == Reserved ==> !v.landed))
    && (!v.landed ==> v.entries == map[] && v.retry.None? && v.dispatches == map[] && v.runs == 0 && v.answered == 0)
  }

  ghost predicate Sound(c: Config, v: View) {
    && OneCopy(v.entries, v.retry, v.dispatches)
    && Progress(c, v.entries, v.retry, v.dispatches, v.runs, v.answered)
    && CallsOk(v)
  }

  // ---------------------------------------------------------------- consequences

  /** The slot of an active dispatch's entry is its own, it is the only one, and no retry is waiting. */
  lemma ActiveOwns(entries: map<nat, Entry>, retry: Option<Item>, ds: map<nat, Dispatch>, d: nat)
    requires OneCopy(entries, retry, ds) && d in ds && Active(ds[d])
    ensures OwnCopy(entries, ds, ds[d].entry) && retry.None?
    ensures forall d' :: d' in ds && d' != d ==> !Active(ds[d'])
  {
    NotPassed(entries, retry, ds, d);
    forall d' | d' in ds && d' != d ensures !Active(ds[d']) {
      if Active(ds[d']) { NotPassed(entries, retry, ds, d'); }
    }
  }

  lemma NotPassed(entries: map<nat, Entry>, retry: Option<Item>, ds: map<nat, Dispatch>, d: nat)
    requires OneCopy(entries, retry, ds) && d in ds && Active(ds[d])
    ensures OwnCopy(entries, ds, ds[d].entry)
  {
    forall d' | d' in ds && ds[d'].pc.Deferred? ensures ds[d'].entry != ds[d].entry {}
  }

  /** Deferred dispatches that stay keep their entries passed on. */
  lemma PassedKept(ds: map<nat, Dispatch>, ds': map<nat, Dispatch>)
    requires forall d :: d in ds && ds[d].pc.Deferred? ==> d in ds' && ds'[d] == ds[d]
    ensures forall e :: PassedOn(ds, e) ==> PassedOn(ds', e)
  {
    forall e | PassedOn(ds, e) ensures PassedOn(ds', e) {
      var d :| d in ds && ds[d].pc.Deferred? && ds[d].entry == e;
      assert d in ds' && ds'[d] == ds[d];
    }
  }

  /** An entry nothing works on after some dispatches went is one nothing worked on, or theirs. */
  lemma IdleKept(ds: map<nat, Dispatch>, ds': map<nat, Dispatch>, e: nat)
    requires Idle(ds', e)
    requires forall d :: d in ds && ds[d].entry == e && ds[d].pc != Acked ==>
               d in ds' && ds'[d].entry == e && ds'[d].pc != Acked
    ensures Idle(ds, e)
  {
  }

  lemma FewerCopies(entries: map<nat, Entry>, entries': map<nat, Entry>, retry: Option<Item>,
                    ds: map<nat, Dispatch>, ds': map<nat, Dispatch>)
    requires OneCopy(entries, retry, ds)
    requires forall e :: OwnCopy(entries', ds', e) ==> OwnCopy(entries, ds, e)
    requires forall d :: d in ds' && ds'[d].pc != Acked ==>
               d in ds && ds[d].pc != Acked && ds'[d].entry == ds[d].entry && ds[d].entry in entries'
    ensures OneCopy(entries', retry, ds')
  {
  }

  /** No new own copy becomes idle, and every dispatch is in order. */
  lemma SameProgress(c: Config, v: View, entries': map<nat, Entry>, ds': map<nat, Dispatch>)
    requires Progress(c, v.entries, v.retry, v.dispatches, v.runs, v.answered)
    requires forall e :: e in entries' ==> e in v.entries && entries'[e].item == v.entries[e].item
    requires forall e :: OwnCopy(entries', ds', e) && Idle(ds', e) ==>
               OwnCopy(v.entries, v.dispatches, e) && Idle(v.dispatches, e)
    requires forall d :: d in ds' ==> DispatchProgress(c, v.runs, v.answered, ds'[d]) && FromEntry(entries', ds'[d])
    ensures Progress(c, entries', v.retry, ds', v.runs, v.answered)
  {
  }

  // ---------------------------------------------------------------- one change of the view at a time

  lemma CallAdded(c: Config, v: View, v': View, call: nat, q: Enqueuer)
    requires Sound(c, v) && v.calls == map[] && !v.landed && q.item.attempts == 0
    requires v' == v.(calls := map[call := q])
    ensures Sound(c, v')
  {
  }

  /** The call goes on to its rollback, or ends. */
  lemma CallMoved(c: Config, v: View, v': View, calls: map<nat, Enqueuer>)
    requires Sound(c, v) && calls.Keys <= v.calls.Keys
    requires forall q :: q in v.calls && q in calls ==>
               calls[q].item == v.calls[q].item && (calls[q].pc == Reserved ==> v.calls[q].pc == Reserved)
    requires v' == v.(calls := calls)
    ensures Sound(c, v')
  {
    assert forall q :: q in calls ==> q in v.calls;
  }

  /** The first copy: as an entry or as a delayed retry */
  lemma FirstCopy(c: Config, v: View, v': View, e: nat, x: Entry, asEntry: bool)
    requires Sound(c, v) && !v.landed && x.item.attempts == 0
    requires forall q :: q in v.calls ==> v.calls[q].pc != Reserved
    requires v' == if asEntry then v.(landed := true, entries := map[e := x])
                   else v.(landed := true, retry := Some(x.item))
    ensures Sound(c, v')
  {
  }

  /** The delayed retry becomes an entry. */
  lemma RetryMoved(c: Config, v: View, v': View, e: nat, x: Entry)
    requires Sound(c, v) && v.retry == Some(x.item) && e !in v.entries
    requires forall d :: d in v.dispatches ==> v.dispatches[d].entry != e
    requires v' == v.(retry := None, entries := v.entries[e := x])
    ensures Sound(c, v')
  {
    OnlyRetry(v.entries, v.retry, v.dispatches, e, v'.entries);
    assert v.landed;
  }

  lemma OnlyRetry(entries: map<nat, Entry>, retry: Option<Item>, ds: map<nat, Dispatch>, e: nat,
                  entries': map<nat, Entry>)
    requires OneCopy(entries, retry, ds) && retry.Some? && entries'.Keys == entries.Keys + {e}
    ensures OneCopy(entries', None, ds)
    ensures forall o :: OwnCopy(entries', ds, o) ==> o == e
  {
    forall o | OwnCopy(entries', ds, o) ensures o == e {
      if o != e { assert OwnCopy(entries, ds, o); }
    }
  }

  /** Entries are marked delivered. */
  lemma MarkedDelivered(c: Config, v: View, v': View)
    requires Sound(c, v) && v' == v.(entries := v'.entries) && v'.entries.Keys == v.entries.Keys
    requires forall e :: e in v.entries ==> v'.entries[e].item == v.entries[e].item
    ensures Sound(c, v')
  {
    MarkedApart(v.entries, v'.entries, v.retry, v.dispatches);
    SameProgress(c, v, v'.entries, v.dispatches);
    assert v.entries == map[] ==> v'.entries == map[] by { assert v.entries == map[] ==> v'.entries.Keys == {}; }
  }

  lemma MarkedApart(entries: map<nat, Entry>, entries': map<nat, Entry>, retry: Option<Item>, ds: map<nat, Dispatch>)
    requires OneCopy(entries, retry, ds) && entries'.Keys == entries.Keys
    ensures OneCopy(entries', retry, ds)
    ensures forall e :: OwnCopy(entries', ds, e) <==> OwnCopy(entries, ds, e)
  {
    assert forall e :: OwnCopy(entries', ds, e) <==> OwnCopy(entries, ds, e);
  }

  /** Messages on idle entries reach a consumer. */
  lemma TakenUp(c: Config, v: View, v': View, news: map<nat, Dispatch>)
    requires Sound(c, v) && v' == v.(dispatches := v.dispatches + news)
    requires forall d :: d in news ==>
               && d !in v.dispatches && news[d].pc == Taken && Idle(v.dispatches, news[d].entry)
               && news[d].entry in v.entries && news[d].item == v.entries[news[d].entry].item
    requires forall d, d' :: d in news && d' in news && d != d' ==> news[d].entry != news[d'].entry
    ensures Sound(c, v')
  {
    var ds, ds' := v.dispatches, v'.dispatches;
    PassedKept(ds, ds');
    PassedKept(ds', ds);
    TakenApart(v, v', news);
    forall d | d in ds' ensures DispatchProgress(c, v.runs, v.answered, ds'[d]) && FromEntry(v.entries, ds'[d]) {
      if d in news { assert OwnCopy(v.entries, ds, news[d].entry); } else { assert d in ds; }
    }
    forall e | OwnCopy(v.entries, ds', e) && Idle(ds', e) ensures OwnCopy(v.entries, ds, e) && Idle(ds, e) {
      IdleKept(ds, ds', e);
    }
    SameProgress(c, v, v.entries, ds');
    assert news != map[] ==> v.landed;
  }

  lemma TakenApart(v: View, v': View, news: map<nat, Dispatch>)
    requires OneCopy(v.entries, v.retry, v.dispatches) && v'.dispatches == v.dispatches + news
    requires v'.entries == v.entries && v'.retry == v.retry
    requires forall e :: OwnCopy(v.entries, v'.dispatches, e) ==> OwnCopy(v.entries, v.dispatches, e)
    requires forall d :: d in news ==>
               d !in v.dispatches && Idle(v.dispatches, news[d].entry) && news[d].entry in v.entries
    requires forall d, d' :: d in news && d' in news && d != d' ==> news[d].entry != news[d'].entry
    ensures OneCopy(v'.entries, v'.retry, v'.dispatches)
  {
  }

  /** A dispatch moves on, still the active one of its entry. */
  lemma StillActive(c: Config, v: View, v': View, call: nat, d: Dispatch)
    requires Sound(c, v) && call in v.dispatches && Active(v.dispatches[call])
    requires Active(d) && d.entry == v.dispatches[call].entry
    requires v' == v.(dispatches := v.dispatches[call := d], runs := v'.runs, answered := v'.answered)
    requires v'.runs <= c.maxAttempts + 1 && v'.answered <= 1
    requires DispatchProgress(c, v'.runs, v'.answered, d) && FromEntry(v.entries, d)
    requires v.answered == 1 ==> v'.answered == 1
    ensures Sound(c, v')
  {
    var ds, ds' := v.dispatches, v'.dispatches;
    ActiveOwns(v.entries, v.retry, ds, call);
    PassedKept(ds, ds');
    assert v.landed;
    FewerCopies(v.entries, v.entries, v.retry, ds, ds');
    forall e | OwnCopy(v.entries, ds', e) ensures !Idle(ds', e) {
      assert e == d.entry && call in ds' && ds'[call].pc != Acked;
    }
    forall x | x in ds' ensures DispatchProgress(c, v'.runs, v'.answered, ds'[x]) && FromEntry(v.entries, ds'[x]) {
      if x != call { assert x in ds && ds'[x] == ds[x]; }
    }
  }

  /** The adapter is called. */
  lemma Called(c: Config, v: View, v': View, call: nat, more: Dispatch)
    requires Sound(c, v) && call in v.dispatches && v.dispatches[call].pc == Running
    requires more.pc == Executing && more.entry == v.dispatches[call].entry
    requires more.item == v.dispatches[call].item.(attempts := v.dispatches[call].item.attempts + 1)
    requires v' == v.(runs := v.runs + 1, dispatches := v.dispatches[call := more])
    ensures Sound(c, v')
  {
    assert DispatchProgress(c, v.runs, v.answered, v.dispatches[call]);
    StillActive(c, v, v', call, more);
  }

  /** A dispatch that tried nothing is dropped: its entry waits again. */
  lemma DroppedEarly(c: Config, v: View, v': View, call: nat)
    requires Sound(c, v) && call in v.dispatches && Untried(v.entries, v.dispatches[call])
    requires v' == v.(dispatches := v.dispatches - {call})
    ensures Sound(c, v')
  {
    Crashed(c, v, v', v.calls, v'.dispatches);
  }

  /** The slot goes from the entry to the delayed retry. */
  lemma SlotPassed(c: Config, v: View, v': View, call: nat, next: Dispatch)
    requires Sound(c, v) && call in v.dispatches && Active(v.dispatches[call])
    requires Waiting(c, v.runs, v.answered, v.dispatches[call].item)
    requires next.pc.Deferred? && next.entry == v.dispatches[call].entry
    requires v' == v.(retry := Some(v.dispatches[call].item), dispatches := v.dispatches[call := next])
    ensures Sound(c, v')
  {
    var ds' := v'.dispatches;
    NoneOwn(v.entries, v.retry, v.dispatches, ds', call, next);
    PassedApart(v.entries, v.retry, v'.retry, v.dispatches, ds', call, next);
    forall d | d in ds' ensures DispatchProgress(c, v.runs, v.answered, ds'[d]) && FromEntry(v.entries, ds'[d]) {
      if d != call { assert d in v.dispatches && ds'[d] == v.dispatches[d]; }
    }
    assert v.landed;
  }

  lemma NoneOwn(entries: map<nat, Entry>, retry: Option<Item>, ds: map<nat, Dispatch>, ds': map<nat, Dispatch>,
                call: nat, next: Dispatch)
    requires OneCopy(entries, retry, ds) && call in ds && Active(ds[call]) && ds' == ds[call := next]
    requires next.pc.Deferred? && next.entry == ds[call].entry
    ensures forall e :: !OwnCopy(entries, ds', e)
  {
    ActiveOwns(entries, retry, ds, call);
    assert PassedOn(ds', next.entry) by { assert call in ds'; }
    PassedKept(ds, ds');
    forall e ensures !OwnCopy(entries, ds', e) {
      assert OwnCopy(entries, ds', e) ==> OwnCopy(entries, ds, e);
    }
  }

  lemma PassedApart(entries: map<nat, Entry>, retry: Option<Item>, retry': Option<Item>, ds: map<nat, Dispatch>,
                    ds': map<nat, Dispatch>, call: nat, next: Dispatch)
    requires OneCopy(entries, retry, ds) && call in ds && Active(ds[call]) && ds' == ds[call := next]
    requires next.pc.Deferred? && next.entry == ds[call].entry
    requires forall e :: !OwnCopy(entries, ds', e)
    ensures OneCopy(entries, retry', ds')
  {
  }

  /** The entry is ACKed; the dispatch ends, or has its slot still to give back. */
  lemma EntryAcked(c: Config, v: View, v': View, call: nat, ds': map<nat, Dispatch>)
    requires Sound(c, v) && call in v.dispatches
    requires v.dispatches[call].pc == Answered || v.dispatches[call].pc.Deferred?
    requires ds' == v.dispatches - {call}
             || (v.dispatches[call].pc == Answered && ds' == v.dispatches[call := v.dispatches[call].(pc := Acked)])
    requires v' == v.(entries := v.entries - {v.dispatches[call].entry}, dispatches := ds')
    ensures Sound(c, v')
  {
    var ds := v.dispatches;
    AckLeavesCopies(v.entries, ds, ds', call);
    FewerCopies(v.entries, v'.entries, v.retry, ds, ds');
    AckedDispatches(c, v, call, ds');
    forall e | OwnCopy(v'.entries, ds', e) && Idle(ds', e) ensures Idle(ds, e) {
      IdleKept(ds, ds', e);
    }
    SameProgress(c, v, v'.entries, ds');
    assert v.landed;
  }

  lemma AckedDispatches(c: Config, v: View, call: nat, ds': map<nat, Dispatch>)
    requires Progress(c, v.entries, v.retry, v.dispatches, v.runs, v.answered) && call in v.dispatches
    requires forall d :: d in ds' && d != call ==> d in v.dispatches && ds'[d] == v.dispatches[d]
    requires call in ds' ==> v.dispatches[call].pc == Answered && ds'[call] == v.dispatches[call].(pc := Acked)
    ensures forall d :: d in ds' ==>
      DispatchProgress(c, v.runs, v.answered, ds'[d]) && FromEntry(v.entries - {v.dispatches[call].entry}, ds'[d])
  {
    forall d | d in ds'
      ensures DispatchProgress(c, v.runs, v.answered, ds'[d])
              && FromEntry(v.entries - {v.dispatches[call].entry}, ds'[d])
    {
      assert DispatchProgress(c, v.runs, v.answered, v.dispatches[d]) && FromEntry(v.entries, v.dispatches[d]);
    }
  }

  lemma AckLeavesCopies(entries: map<nat, Entry>, ds: map<nat, Dispatch>, ds': map<nat, Dispatch>, call: nat)
    requires call in ds && forall d :: d in ds && d != call ==> d in ds' && ds'[d] == ds[d]
    ensures forall e :: OwnCopy(entries - {ds[call].entry}, ds', e) ==> OwnCopy(entries, ds, e) && e != ds[call].entry
  {
    forall e | OwnCopy(entries - {ds[call].entry}, ds', e) ensures !PassedOn(ds, e) {
      forall d | d in ds && ds[d].pc.Deferred? ensures ds[d].entry != e {
        assert d != call ==> d in ds' && ds'[d] == ds[d];
      }
    }
  }

  /** A dispatch past its XACK ends. */
  lemma SlotReturned(c: Config, v: View, v': View, call: nat)
    requires Sound(c, v) && call in v.dispatches && v.dispatches[call].pc == Acked
    requires v' == v.(dispatches := v.dispatches - {call})
    ensures Sound(c, v')
  {
    Crashed(c, v, v', v.calls, v'.dispatches);
  }

  /** Dispatches that tried nothing, or which are past their XACK, vanish, and calls with them. */
  lemma Crashed(c: Config, v: View, v': View, calls: map<nat, Enqueuer>, ds': map<nat, Dispatch>)
    requires Sound(c, v) && v' == v.(calls := calls, dispatches := ds')
    requires calls.Keys <= v.calls.Keys && (forall q :: q in v.calls && q in calls ==> calls[q] == v.calls[q])
    requires forall d :: d in ds' ==> d in v.dispatches && ds'[d] == v.dispatches[d]
    requires forall d :: d in v.dispatches && d !in ds' ==>
               Untried(v.entries, v.dispatches[d]) || v.dispatches[d].pc == Acked
    ensures Sound(c, v')
  {
    var ds := v.dispatches;
    PassedKept(ds, ds');
    FewerCopies(v.entries, v.entries, v.retry, ds, ds');
    forall e | OwnCopy(v.entries, ds', e) && Idle(ds', e) ensures Waiting(c, v.runs, v.answered, v.entries[e].item) {
      IdleAgain(c, v, ds', e);
    }
    assert forall q :: q in calls ==> q in v.calls;
    assert ds' != map[] ==> ds != map[];
  }

  lemma IdleAgain(c: Config, v: View, ds': map<nat, Dispatch>, e: nat)
    requires Progress(c, v.entries, v.retry, v.dispatches, v.runs, v.answered)
    requires OwnCopy(v.entries, v.dispatches, e) && Idle(ds', e)
    requires forall d :: d in v.dispatches && d in ds' ==> ds'[d] == v.dispatches[d]
    requires forall d :: d in v.dispatches && d !in ds' ==>
               Untried(v.entries, v.dispatches[d]) || v.dispatches[d].pc == Acked
    ensures Waiting(c, v.runs, v.answered, v.entries[e].item)
  {
    if !Idle(v.dispatches, e) {
      var d :| d in v.dispatches && v.dispatches[d].entry == e && v.dispatches[d].pc != Acked;
      assert d !in ds';
    }
  }
}
