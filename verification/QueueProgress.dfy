/**
  What the consumer loop asks for: the two claims, the normal stream, and the bulk stream only when nothing normal
  is left to read; and that every stored entry can be reached: from wherever the loop of a process is, it can go
  on, without any failure, until one of its handlers has the entry.
 */
module QueueProgress {
  import opened QueueModel
  import opened QueueSafety
  import opened QueueConsumer

  // ---------------------------------------------------------------- the order of the commands

  /** The next command of the loop of `p` is this one: it may return exactly these messages. */
  ghost predicate Asks(c: Config, y: System, p: nat, stream: Priority, delivered: bool) {
    forall batch, o :: Fires(c, y, Command(p, batch, o)) ==> From(y.queue.redis, batch, stream, delivered)
  }

  ghost predicate MayGet(c: Config, y: System, p: nat, stream: Priority, delivered: bool) {
    forall e :: e in y.queue.redis.entries && From(y.queue.redis, [e], stream, delivered) ==>
      Fires(c, y, Command(p, [e], Done))
  }

  lemma OneMessage(c: Config, y: System, p: nat, e: nat)
    requires e in y.queue.redis.entries && Returns(y.queue.redis, LoopOf(y, p), [e], Done)
    ensures Fires(c, y, Command(p, [e], Done))
  {
    assert From(y.queue.redis, [e], y.queue.redis.entries[e].stream, y.queue.redis.entries[e].delivered);
  }

  lemma NoMessage(c: Config, y: System, p: nat)
    requires Returns(y.queue.redis, LoopOf(y, p), [], Done)
    ensures Fires(c, y, Command(p, [], Done))
    ensures LoopOf(After(c, y, Command(p, [], Done)), p) == AfterCommand(LoopOf(y, p), {}, Done)
    ensures After(c, y, Command(p, [], Done)).queue.redis == y.queue.redis
    ensures After(c, y, Command(p, [], Done)).queue.dispatches == y.queue.dispatches
  {
    assert From(y.queue.redis, [], Normal, false);
    var s := y.queue;
    assert Numbers(s.nextCall, 0) == {};
    assert s.dispatches + Handlers(s.redis.entries, p, s.nextCall, []) == s.dispatches;
    assert Deliver(s.redis.entries, []) == s.redis.entries;
  }

  lemma AsksFor(c: Config, y: System, p: nat, stream: Priority, delivered: bool)
    requires match LoopOf(y, p)
             case ClaimNormal => stream == Normal && delivered
             case ClaimBulk(_) => stream == Bulk && delivered
             case ReadNormal => stream == Normal && !delivered
             case ReadBulk => stream == Bulk && !delivered
             case _ => false
    ensures Asks(c, y, p, stream, delivered) && MayGet(c, y, p, stream, delivered)
  {
    forall e | e in y.queue.redis.entries && From(y.queue.redis, [e], stream, delivered)
      ensures Fires(c, y, Command(p, [e], Done)) {
      OneMessage(c, y, p, e);
    }
  }

  /** From the top of the loop: pending messages of the normal stream are asked for, then pending bulk ones; when
      neither claim found any, new normal messages; and when there are none, new bulk ones. */
  lemma RoundOrder(c: Config, y: System, p: nat)
    requires LoopOf(y, p).ClaimNormal?
    ensures Asks(c, y, p, Normal, true) && MayGet(c, y, p, Normal, true) && Fires(c, y, Command(p, [], Done))
    ensures var y1 := After(c, y, Command(p, [], Done));
      Asks(c, y1, p, Bulk, true) && MayGet(c, y1, p, Bulk, true) && Fires(c, y1, Command(p, [], Done))
    ensures var y1 := After(c, y, Command(p, [], Done)); var y2 := After(c, y1, Command(p, [], Done));
      Asks(c, y2, p, Normal, false) && MayGet(c, y2, p, Normal, false)
      && (Fires(c, y2, Command(p, [], Done)) <==> Unread(y.queue.redis, Normal) == {})
      && (Unread(y.queue.redis, Normal) == {} ==>
            var y3 := After(c, y2, Command(p, [], Done));
            Asks(c, y3, p, Bulk, false) && MayGet(c, y3, p, Bulk, false))
  {
    AsksFor(c, y, p, Normal, true);
    NoMessage(c, y, p);
    var y1 := After(c, y, Command(p, [], Done));
    AsksFor(c, y1, p, Bulk, true);
    NoMessage(c, y1, p);
    var y2 := After(c, y1, Command(p, [], Done));
    AsksFor(c, y2, p, Normal, false);
    if Unread(y.queue.redis, Normal) == {} {
      NoMessage(c, y2, p);
      AsksFor(c, After(c, y2, Command(p, [], Done)), p, Bulk, false);
    }
  }

  /** A command that fails takes the loop back to its top, by way of dropping what the first claim brought. */
  lemma FailureStartsOver(c: Config, y: System, p: nat, batch: seq<nat>, o: Outcome)
    requires Fires(c, y, Command(p, batch, o)) && o != Done
    ensures LoopOf(After(c, y, Command(p, batch, o)), p)
            == if LoopOf(y, p).ClaimBulk? then Dropping(LoopOf(y, p).calls) else ClaimNormal
    ensures forall z :: LoopOf(z, p).Dropping? && Fires(c, z, AllDropped(p)) ==>
              LoopOf(After(c, z, AllDropped(p)), p) == ClaimNormal
  {
  }

  // ---------------------------------------------------------------- bulk only after an empty normal read

  predicate ByLoop(step: Step, p: nat) { !step.Elsewhere? && step.process == p }

  /** A loop turns to the bulk stream only from a normal read that found nothing because there was nothing. */
  lemma TurnsToBulk(c: Config, y: System, step: Step, p: nat)
    requires Fires(c, y, step) && LoopOf(After(c, y, step), p).ReadBulk?
    ensures if ByLoop(step, p) then step == Command(p, [], Done) && LoopOf(y, p).ReadNormal?
                                && Unread(y.queue.redis, Normal) == {}
            else LoopOf(y, p).ReadBulk?
  {
    if ByLoop(step, p) && step.Command? { NumbersEmpty(y.queue.nextCall, |step.batch|); }
  }

  lemma NumbersEmpty(first: nat, n: nat)
    ensures Numbers(first, n) == {} <==> n == 0
  {
    if n > 0 { assert first in Numbers(first, n); }
  }

  /** No step after the `i`th is one of this loop. */
  predicate LastBy(steps: seq<Step>, i: nat, p: nat) { forall j :: i < j < |steps| ==> !ByLoop(steps[j], p) }

  /** The last step of this loop is the `i`th: a normal read that came back empty, at a moment without undelivered
      normal entries. */
  ghost predicate ReadNothing(c: Config, y: System, steps: seq<Step>, i: nat, p: nat) {
    && i < |steps| && steps[i] == Command(p, [], Done) && LastBy(steps, i, p) && Possible(c, y, steps[..i])
    && var at := Reach(c, y, steps[..i]);
      LoopOf(at, p).ReadNormal? && Unread(at.queue.redis, Normal) == {}
  }

  lemma StillReadNothing(c: Config, y: System, before: seq<Step>, step: Step, i: nat, p: nat)
    requires ReadNothing(c, y, before, i, p) && !ByLoop(step, p)
    ensures ReadNothing(c, y, before + [step], i, p)
  {
    assert (before + [step])[..i] == before[..i];
  }

  /** Over every run: when a process reads bulk messages, its last step was such a read. */
  lemma {:induction false} BulkAfterNormal(c: Config, y: System, steps: seq<Step>, p: nat) returns (i: nat)
    requires Possible(c, y, steps) && !LoopOf(y, p).ReadBulk? && LoopOf(Reach(c, y, steps), p).ReadBulk?
    ensures ReadNothing(c, y, steps, i, p)
    decreases |steps|
  {
    var last := |steps| - 1;
    var before, step := steps[..last], steps[last];
    Unsnoc(c, y, steps);
    TurnsToBulk(c, Reach(c, y, before), step, p);
    if ByLoop(step, p) {
      i := last;
    } else {
      i := BulkAfterNormal(c, y, before, p);
      StillReadNothing(c, y, before, step, i, p);
      assert steps == before + [step];
    }
  }

  lemma OneFires(c: Config, y: System, step: Step)
    requires Possible(c, y, [step])
    ensures Fires(c, y, step) && Reach(c, y, [step]) == After(c, y, step)
  {
    assert [step][1..] == [];
  }

  lemma {:induction false} Unsnoc(c: Config, y: System, steps: seq<Step>)
    requires Possible(c, y, steps) && steps != []
    ensures var last := |steps| - 1;
      && Possible(c, y, steps[..last]) && Fires(c, Reach(c, y, steps[..last]), steps[last])
      && Reach(c, y, steps) == After(c, Reach(c, y, steps[..last]), steps[last])
    decreases |steps|
  {
    var front := steps[..|steps| - 1];
    if |steps| == 1 {
      assert front == [] && steps == [steps[0]];
      OneFires(c, y, steps[0]);
    } else {
      var y1, rest := After(c, y, steps[0]), steps[1..];
      Unsnoc(c, y1, rest);
      assert front[0] == steps[0] && front[1..] == rest[..|rest| - 1];
      assert Possible(c, y, front) && Reach(c, y, front) == Reach(c, y1, front[1..]);
    }
  }

  // ---------------------------------------------------------------- paths of one loop

  /** A step of the loop of `p` or the end of a handler, and no failure */
  predicate Serves(step: Step, p: nat) {
    match step
    case Elsewhere(e) => (e.Respond? || e.XAck? || e.Decr?) && e.outcome == Done
    case Command(q, _, o) => q == p && o == Done
    case Restart(_) => false
    case _ => step.process == p
  }

  predicate AllServe(steps: seq<Step>, p: nat) { forall i :: 0 <= i < |steps| ==> Serves(steps[i], p) }

  ghost predicate Path(c: Config, y: System, p: nat, steps: seq<Step>, z: System) {
    Possible(c, y, steps) && Reach(c, y, steps) == z && AllServe(steps, p)
  }

  lemma OneStep(c: Config, y: System, p: nat, step: Step)
    requires Fires(c, y, step) && Serves(step, p)
    ensures Path(c, y, p, [step], After(c, y, step))
  {
    assert [step][1..] == [];
  }

  lemma {:induction false} RunsJoin(c: Config, y: System, a: seq<Step>, b: seq<Step>)
    requires Possible(c, y, a) && Possible(c, Reach(c, y, a), b)
    ensures Possible(c, y, a + b) && Reach(c, y, a + b) == Reach(c, Reach(c, y, a), b)
    decreases |a|
  {
    if a == [] {
      assert a + b == b;
    } else {
      assert (a + b)[1..] == a[1..] + b && (a + b)[0] == a[0];
      RunsJoin(c, After(c, y, a[0]), a[1..], b);
    }
  }

  lemma Joins(c: Config, y: System, p: nat, a: seq<Step>, z: System, b: seq<Step>, w: System)
    requires Path(c, y, p, a, z) && Path(c, z, p, b, w)
    ensures Path(c, y, p, a + b, w)
  {
    RunsJoin(c, y, a, b);
  }

  // ---------------------------------------------------------------- what every system keeps

  /** Whatever a dispatch works on was delivered. */
  ghost predicate AllDelivered(s: State) {
    forall d :: d in s.dispatches && s.dispatches[d].entry in s.redis.entries ==>
      s.redis.entries[s.dispatches[d].entry].delivered
  }

  /** The handlers of a round that is awaited have begun; those of a dropped one have not. */
  ghost predicate PhaseOk(ds: map<nat, Dispatch>, l: Loop) {
    && (l.Awaiting? ==> forall d :: d in l.calls && d in ds ==> ds[d].pc != Taken)
    && (l.Dropping? ==> forall d :: d in l.calls && d in ds ==> ds[d].pc == Taken)
  }

  ghost predicate Fit(y: System, p: nat) {
    && Consistent(y.queue) && AllDelivered(y.queue)
    && (forall q :: LoopOk(y, q))
    && PhaseOk(y.queue.dispatches, LoopOf(y, p))
  }

  /** Entries stay as delivered as they were, and new ones get new ids. */
  ghost predicate NoneUndelivered(r: Redis, r': Redis) {
    forall x :: x in r'.entries && x < r.nextId ==>
      x in r.entries && (r.entries[x].delivered ==> r'.entries[x].delivered)
  }

  lemma SameEntriesByHandler(c: Config, s: State, e: Event)
    requires Enabled(c, s, e) && (ByHandler(e) || e.Reschedule? || e.Decr?)
    ensures Apply(c, s, e).redis.entries == s.redis.entries
  {
  }

  lemma SameEntriesByProducer(c: Config, s: State, e: Event)
    requires Enabled(c, s, e) && (e.Incr? || e.Undo? || e.ScheduleNew?)
    ensures Effect(c, s, e).redis.entries == s.redis.entries
  {
    match e
    case Incr(p, item, o) => assert Effect(c, s, e) == OnIncr(c, s, p, item, o);
    case Undo(call, o) => assert Effect(c, s, e) == OnUndo(s, call, o);
    case ScheduleNew(item, due, o) => assert Effect(c, s, e) == OnScheduleNew(c, s, item, due, o);
  }

  lemma SameEntriesElse(c: Config, s: State, e: Event)
    requires Enabled(c, s, e) && (e.Tick? || e.Scan? || e.Crash?)
    ensures Effect(c, s, e).redis == s.redis
  {
  }

  lemma SameEntries(c: Config, s: State, e: Event)
    requires Enabled(c, s, e) && !e.XAdd? && !e.XAck? && !e.Promote? && !e.Fetch?
    ensures Apply(c, s, e).redis.entries == s.redis.entries
  {
    if ByHandler(e) || e.Reschedule? || e.Decr? { SameEntriesByHandler(c, s, e); }
    else if e.Incr? || e.Undo? || e.ScheduleNew? { SameEntriesByProducer(c, s, e); }
    else { SameEntriesElse(c, s, e); }
  }

  lemma PromoteUndeliversNone(c: Config, s: State, p: nat, r: Request, o: Outcome)
    requires Consistent(s) && p in s.scans
    ensures NoneUndelivered(s.redis, OnPromote(s, p, r, o).redis)
  {
  }

  lemma DeliveredStays(c: Config, s: State, e: Event)
    requires Consistent(s) && Enabled(c, s, e) && !e.Fetch?
    ensures NoneUndelivered(s.redis, Apply(c, s, e).redis)
  {
    match e
    case XAdd(call, o) => assert Apply(c, s, e).redis == OnXAdd(s, call, o).redis;
    case XAck(call, o) => assert Apply(c, s, e).redis == OnXAck(s, call, o).redis;
    case Promote(p, r, o) => PromoteUndeliversNone(c, s, p, r, o);
    case _ => SameEntries(c, s, e);
  }

  lemma FetchDelivers(c: Config, s: State, p: nat, batch: seq<nat>, o: Outcome)
    requires Consistent(s) && AllDelivered(s) && Enabled(c, s, Fetch(p, batch, o))
    ensures AllDelivered(OnFetch(s, p, batch, o))
  {
    var s' := OnFetch(s, p, batch, o);
    forall d | d in s'.dispatches && s'.dispatches[d].entry in s'.redis.entries
      ensures s'.redis.entries[s'.dispatches[d].entry].delivered
    {
      if d in s.dispatches && d < s.nextCall {
        assert s'.dispatches[d] == s.dispatches[d];
      }
    }
  }

  /** Outside the loops dispatches only move on: none is new, and none becomes unstarted. */
  lemma NoneNew(c: Config, s: State, e: Event)
    requires Enabled(c, s, e) && !e.Fetch?
    ensures forall d :: d in Apply(c, s, e).dispatches ==>
      d in s.dispatches && Apply(c, s, e).dispatches[d].entry == s.dispatches[d].entry
      && (Apply(c, s, e).dispatches[d].pc == Taken ==> s.dispatches[d].pc == Taken)
  {
  }

  lemma DeliveredStep(c: Config, s: State, e: Event)
    requires Consistent(s) && AllDelivered(s) && Enabled(c, s, e)
    ensures AllDelivered(Apply(c, s, e))
  {
    if e.Fetch? {
      FetchDelivers(c, s, e.process, e.batch, e.outcome);
    } else {
      DeliveredStays(c, s, e);
      NoneNew(c, s, e);
      forall d | d in Apply(c, s, e).dispatches ensures DispatchOk(s.redis, s.landed, s.dispatches[d]) {}
    }
  }

  lemma ElsewherePhase(c: Config, y: System, e: Event, p: nat)
    requires Fit(y, p) && Fires(c, y, Elsewhere(e))
    ensures PhaseOk(After(c, y, Elsewhere(e)).queue.dispatches, LoopOf(y, p))
  {
    OutsideMovesOn(c, y.queue, e);
    NoneNew(c, y.queue, e);
  }

  /** New dispatches are none of the round's. */
  lemma OldCalls(ds: map<nat, Dispatch>, ds': map<nat, Dispatch>, next: nat, l: Loop, p: nat)
    requires RoundOk(ds, next, l, p)
    requires forall d :: d in ds' && d < next ==> d in ds && ds'[d] == ds[d]
    ensures PhaseOk(ds, l) ==> PhaseOk(ds', l)
    ensures l.ClaimBulk? ==> PhaseOk(ds', Dropping(l.calls))
  {
    forall d | d in Calls(l) && d in ds' ensures d in ds && ds'[d] == ds[d] {}
    if l.ClaimBulk? {
      forall d | d in l.calls && d in ds' ensures ds'[d].pc == Taken { assert QueueConsumer.Of(ds, d, p); }
    }
  }

  lemma FetchOld(c: Config, s: State, q: nat, batch: seq<nat>, o: Outcome)
    requires Consistent(s) && Enabled(c, s, Fetch(q, batch, o))
    ensures var ds' := Apply(c, s, Fetch(q, batch, o)).dispatches;
      forall d :: d in ds' && d < s.nextCall ==> d in s.dispatches && ds'[d] == s.dispatches[d]
  {
  }

  lemma CommandPhase(c: Config, y: System, q: nat, batch: seq<nat>, o: Outcome, p: nat)
    requires Fit(y, p) && Fires(c, y, Command(q, batch, o))
    ensures var y' := After(c, y, Command(q, batch, o)); PhaseOk(y'.queue.dispatches, LoopOf(y', p))
  {
    var y' := After(c, y, Command(q, batch, o));
    assert LoopOk(y, p);
    FetchOld(c, y.queue, q, batch, o);
    OldCalls(y.queue.dispatches, y'.queue.dispatches, y.queue.nextCall, LoopOf(y, p), p);
    if q == p { CommandLoop(LoopOf(y, p), Numbers(y.queue.nextCall, |batch|), o); }
  }

  /** After its command a loop awaits nothing, and drops only the reply of its first claim. */
  lemma CommandLoop(l: Loop, calls: set<nat>, o: Outcome)
    requires l.ClaimNormal? || l.ClaimBulk? || l.ReadNormal? || l.ReadBulk?
    ensures !AfterCommand(l, calls, o).Awaiting?
    ensures AfterCommand(l, calls, o).Dropping? ==> l.ClaimBulk? && AfterCommand(l, calls, o) == Dropping(l.calls)
  {
  }

  /** A handler starts: whoever's it is, the phase of `p` stays. */
  lemma StartPhase(c: Config, y: System, q: nat, call: nat, p: nat)
    requires Fit(y, p) && Fires(c, y, StartHandler(q, call))
    ensures var y' := After(c, y, StartHandler(q, call)); PhaseOk(y'.queue.dispatches, LoopOf(y', p))
  {
    assert LoopOk(y, p) && LoopOk(y, q);
    assert After(c, y, StartHandler(q, call)).queue.dispatches == SetPc(y.queue.dispatches, call, Running);
  }

  /** So it does when a message is dropped. */
  lemma DropPhase(c: Config, y: System, q: nat, call: nat, p: nat)
    requires Fit(y, p) && Fires(c, y, DropMessage(q, call))
    ensures var y' := After(c, y, DropMessage(q, call)); PhaseOk(y'.queue.dispatches, LoopOf(y', p))
  {
    assert After(c, y, DropMessage(q, call)).queue.dispatches == Drop(y.queue.dispatches, call);
  }

  lemma RestartPhase(c: Config, y: System, q: nat, p: nat)
    requires Fit(y, p) && Fires(c, y, Restart(q))
    ensures var y' := After(c, y, Restart(q)); PhaseOk(y'.queue.dispatches, LoopOf(y', p))
  {
    CrashLeaves(c, y.queue, q);
  }

  lemma PhaseStep(c: Config, y: System, step: Step, p: nat)
    requires Fit(y, p) && Fires(c, y, step)
    ensures var y' := After(c, y, step); PhaseOk(y'.queue.dispatches, LoopOf(y', p))
  {
    match step
    case Elsewhere(e) => ElsewherePhase(c, y, e, p);
    case Command(q, batch, o) => CommandPhase(c, y, q, batch, o, p);
    case StartHandler(q, call) => StartPhase(c, y, q, call, p);
    case DropMessage(q, call) => DropPhase(c, y, q, call, p);
    case Restart(q) => RestartPhase(c, y, q, p);
    case _ =>
  }

  lemma FitStep(c: Config, y: System, step: Step, p: nat)
    requires Fit(y, p) && Fires(c, y, step)
    ensures Fit(After(c, y, step), p)
  {
    var y' := After(c, y, step);
    if EventOf(step).Some? {
      ConsistentStep(c, y.queue, EventOf(step).value);
      DeliveredStep(c, y.queue, EventOf(step).value);
    }
    PhaseStep(c, y, step, p);
    forall q ensures LoopOk(y', q) { StepOk(c, y, step, q); }
  }

  lemma {:induction false} FitOver(c: Config, y: System, steps: seq<Step>, p: nat)
    requires Fit(y, p) && Possible(c, y, steps)
    ensures Fit(Reach(c, y, steps), p)
    decreases |steps|
  {
    if steps != [] {
      FitStep(c, y, steps[0], p);
      FitOver(c, After(c, y, steps[0]), steps[1..], p);
    }
  }

  // ---------------------------------------------------------------- a round comes to its end

  /** The same entries are still to be read. */
  predicate Keeps(s: State, t: State) {
    Unread(t.redis, Normal) == Unread(s.redis, Normal) && Unread(t.redis, Bulk) == Unread(s.redis, Bulk)
  }

  /** The next step of a dispatch towards its end */
  function NextOf(d: Dispatch, call: nat, p: nat): Step {
    match d.pc
    case Taken => StartHandler(p, call)
    case Answered => Elsewhere(XAck(call, Done))
    case Deferred(_) => Elsewhere(XAck(call, Done))
    case Acked => Elsewhere(Decr(call, Done))
    case _ => Elsewhere(Respond(call, Done))
  }

  function StepsLeft(pc: DispatchPc): nat {
    match pc
    case Taken => 4
    case Answered => 2
    case Deferred(_) => 1
    case Acked => 1
    case _ => 3
  }

  /** The dispatch came nearer to its end, and its entry may be gone; nothing else changed. */
  ghost predicate Nearer(s: State, t: State, call: nat)
    requires call in s.dispatches
  {
    && (|| t.dispatches == Drop(s.dispatches, call)
        || exists pc ::
             StepsLeft(pc) < StepsLeft(s.dispatches[call].pc) && t.dispatches == SetPc(s.dispatches, call, pc))
    && (t.redis.entries == s.redis.entries || t.redis.entries == Drop(s.redis.entries, s.dispatches[call].entry))
  }

  lemma HandlerStarts(c: Config, s: State, call: nat)
    requires call in s.dispatches && s.dispatches[call].pc == Taken
    ensures Enabled(c, s, Begin(call)) && Nearer(s, Apply(c, s, Begin(call)), call)
  {
    assert Apply(c, s, Begin(call)).dispatches == SetPc(s.dispatches, call, Running);
  }

  lemma HandlerAnswers(c: Config, s: State, call: nat)
    requires call in s.dispatches && s.dispatches[call].pc in {Running, Executing, Caught, MustAnswer}
    ensures Enabled(c, s, Respond(call, Done)) && Nearer(s, Apply(c, s, Respond(call, Done)), call)
  {
    assert Apply(c, s, Respond(call, Done)).dispatches == SetPc(s.dispatches, call, Answered);
  }

  lemma EntryAcked(c: Config, s: State, call: nat)
    requires call in s.dispatches && (s.dispatches[call].pc == Answered || s.dispatches[call].pc.Deferred?)
    ensures Enabled(c, s, XAck(call, Done)) && Nearer(s, Apply(c, s, XAck(call, Done)), call)
  {
    if s.dispatches[call].pc == Answered {
      assert Apply(c, s, XAck(call, Done)).dispatches == SetPc(s.dispatches, call, Acked);
    }
  }

  lemma SlotReleased(c: Config, s: State, call: nat)
    requires call in s.dispatches && s.dispatches[call].pc == Acked
    ensures Enabled(c, s, Decr(call, Done)) && Nearer(s, Apply(c, s, Decr(call, Done)), call)
  {
  }

  lemma DispatchSteps(c: Config, s: State, call: nat, p: nat)
    requires call in s.dispatches
    ensures var step := NextOf(s.dispatches[call], call, p);
      EventOf(step).Some? && Enabled(c, s, EventOf(step).value) && Nearer(s, Apply(c, s, EventOf(step).value), call)
  {
    match s.dispatches[call].pc
    case Taken => HandlerStarts(c, s, call);
    case Answered => EntryAcked(c, s, call);
    case Deferred(_) => EntryAcked(c, s, call);
    case Acked => SlotReleased(c, s, call);
    case _ => HandlerAnswers(c, s, call);
  }

  /** Ending handlers touch delivered entries only. */
  lemma NearerKeeps(s: State, t: State, call: nat)
    requires AllDelivered(s) && call in s.dispatches && Nearer(s, t, call)
    ensures Keeps(s, t)
  {
  }

  /** A round whose handlers are to be started or awaited */
  ghost predicate InRound(y: System, p: nat, l: Loop) {
    LoopOf(y, p) == l && (l.Starting? || l.Awaiting?)
  }

  lemma NextKind(d: Dispatch, call: nat, p: nat)
    ensures var step := NextOf(d, call, p);
      && Serves(step, p)
      && (if d.pc == Taken then step == StartHandler(p, call) else step.Elsewhere? && !OfLoop(step.e))
  {
  }

  lemma StepFires(c: Config, y: System, step: Step)
    requires EventOf(step).Some? && Enabled(c, y.queue, EventOf(step).value)
    requires if step.Elsewhere? then !OfLoop(step.e)
             else step.StartHandler? && LoopOf(y, step.process).Starting? && step.call in LoopOf(y, step.process).calls
    ensures Fires(c, y, step)
  {
  }

  lemma NextFires(c: Config, y: System, p: nat, call: nat, l: Loop)
    requires PhaseOk(y.queue.dispatches, l) && InRound(y, p, l) && call in Calls(l) && call in y.queue.dispatches
    ensures var step := NextOf(y.queue.dispatches[call], call, p); Fires(c, y, step) && Serves(step, p)
  {
    DispatchSteps(c, y.queue, call, p);
    NextKind(y.queue.dispatches[call], call, p);
    StepFires(c, y, NextOf(y.queue.dispatches[call], call, p));
  }

  lemma OneNearer(c: Config, y: System, p: nat, call: nat, l: Loop) returns (z: System)
    requires Fit(y, p) && InRound(y, p, l) && call in Calls(l) && call in y.queue.dispatches
    ensures Path(c, y, p, [NextOf(y.queue.dispatches[call], call, p)], z)
    ensures Fit(z, p) && InRound(z, p, l) && Keeps(y.queue, z.queue) && Nearer(y.queue, z.queue, call)
  {
    var step := NextOf(y.queue.dispatches[call], call, p);
    NextFires(c, y, p, call, l);
    DispatchSteps(c, y.queue, call, p);
    z := After(c, y, step);
    NearerKeeps(y.queue, z.queue, call);
    OneStep(c, y, p, step);
    FitStep(c, y, step, p);
  }

  /** The dispatch comes to its end. */
  lemma {:induction false} CallEnds(c: Config, y: System, p: nat, call: nat, l: Loop)
    returns (steps: seq<Step>, z: System)
    requires Fit(y, p) && InRound(y, p, l) && call in Calls(l) && call in y.queue.dispatches
    ensures Path(c, y, p, steps, z) && Fit(z, p) && InRound(z, p, l) && Keeps(y.queue, z.queue)
    ensures z.queue.dispatches.Keys == y.queue.dispatches.Keys - {call}
    decreases StepsLeft(y.queue.dispatches[call].pc)
  {
    z := OneNearer(c, y, p, call, l);
    steps := [NextOf(y.queue.dispatches[call], call, p)];
    if call in z.queue.dispatches {
      var y1, rest := z, steps;
      rest, z := CallEnds(c, y1, p, call, l);
      Joins(c, y, p, steps, y1, rest, z);
      steps := steps + rest;
    }
  }

  lemma Apart(a: set<nat>, b: set<nat>)
    requires a * b == {}
    ensures a !! b
  {
    forall x | x in a ensures x !in b {
      assert x in b ==> x in a * b;
    }
  }

  /** All dispatches of the round do. */
  lemma {:induction false} CallsEnd(c: Config, y: System, p: nat, l: Loop) returns (steps: seq<Step>, z: System)
    requires Fit(y, p) && InRound(y, p, l)
    ensures Path(c, y, p, steps, z) && Fit(z, p) && InRound(z, p, l) && Keeps(y.queue, z.queue)
    ensures Calls(l) !! z.queue.dispatches.Keys
    decreases Calls(l) * y.queue.dispatches.Keys
  {
    if Calls(l) * y.queue.dispatches.Keys == {} {
      Apart(Calls(l), y.queue.dispatches.Keys);
      steps, z := [], y;
    } else {
      var call :| call in Calls(l) * y.queue.dispatches.Keys;
      var y1, rest;
      steps, y1 := CallEnds(c, y, p, call, l);
      assert Calls(l) * y1.queue.dispatches.Keys == Calls(l) * y.queue.dispatches.Keys - {call};
      rest, z := CallsEnd(c, y1, p, l);
      Joins(c, y, p, steps, y1, rest, z);
      steps := steps + rest;
    }
  }

  /** A step of the loop that is no queue event */
  lemma Turns(c: Config, y: System, p: nat, step: Step, l: Loop) returns (z: System)
    requires Fit(y, p) && LoopOf(y, p) == l && Calls(l) !! y.queue.dispatches.Keys
    requires || (l.Starting? && step == AllStarted(p)) || (l.Awaiting? && step == AllSettled(p))
             || (l.Dropping? && step == AllDropped(p))
    ensures Path(c, y, p, [step], z) && Fit(z, p) && z.queue == y.queue
    ensures LoopOf(z, p) == if l.Starting? then Awaiting(l.calls) else ClaimNormal
  {
    z := After(c, y, step);
    OneStep(c, y, p, step);
    FitStep(c, y, step, p);
  }

  lemma AwaitingEnds(c: Config, y: System, p: nat, l: Loop) returns (steps: seq<Step>, z: System)
    requires Fit(y, p) && InRound(y, p, l)
    ensures Path(c, y, p, steps, z) && Fit(z, p) && LoopOf(z, p) == ClaimNormal && Keeps(y.queue, z.queue)
  {
    var y1, y2;
    steps, y1 := CallsEnd(c, y, p, l);
    var last := l;
    if l.Starting? {
      y2 := Turns(c, y1, p, AllStarted(p), l);
      Joins(c, y, p, steps, y1, [AllStarted(p)], y2);
      steps, y1, last := steps + [AllStarted(p)], y2, Awaiting(l.calls);
    }
    z := Turns(c, y1, p, AllSettled(p), last);
    Joins(c, y, p, steps, y1, [AllSettled(p)], z);
    steps := steps + [AllSettled(p)];
  }

  lemma MessageDropped(c: Config, y: System, p: nat, call: nat, l: Loop) returns (z: System)
    requires Fit(y, p) && LoopOf(y, p) == l && l.Dropping? && call in l.calls && call in y.queue.dispatches
    ensures Path(c, y, p, [DropMessage(p, call)], z) && Fit(z, p) && LoopOf(z, p) == l && Keeps(y.queue, z.queue)
    ensures z.queue.dispatches.Keys == y.queue.dispatches.Keys - {call}
  {
    assert y.queue.dispatches[call].pc == Taken;
    z := After(c, y, DropMessage(p, call));
    OneStep(c, y, p, DropMessage(p, call));
    FitStep(c, y, DropMessage(p, call), p);
    assert z.queue.redis == y.queue.redis;
  }

  lemma {:induction false} DroppingEnds(c: Config, y: System, p: nat, l: Loop) returns (steps: seq<Step>, z: System)
    requires Fit(y, p) && LoopOf(y, p) == l && l.Dropping?
    ensures Path(c, y, p, steps, z) && Fit(z, p) && LoopOf(z, p) == ClaimNormal && Keeps(y.queue, z.queue)
    decreases Calls(l) * y.queue.dispatches.Keys
  {
    if Calls(l) * y.queue.dispatches.Keys == {} {
      Apart(Calls(l), y.queue.dispatches.Keys);
      z := Turns(c, y, p, AllDropped(p), l);
      steps := [AllDropped(p)];
    } else {
      var call :| call in Calls(l) * y.queue.dispatches.Keys;
      var y1 := MessageDropped(c, y, p, call, l);
      assert Calls(l) * y1.queue.dispatches.Keys == Calls(l) * y.queue.dispatches.Keys - {call};
      steps, z := DroppingEnds(c, y1, p, l);
      Joins(c, y, p, [DropMessage(p, call)], y1, steps, z);
      steps := [DropMessage(p, call)] + steps;
    }
  }

  // ---------------------------------------------------------------- every entry is reached

  /** The loop gets nothing back and goes on to its next command. */
  lemma GetsNothing(c: Config, y: System, p: nat) returns (z: System)
    requires Fit(y, p) && Returns(y.queue.redis, LoopOf(y, p), [], Done)
    ensures Path(c, y, p, [Command(p, [], Done)], z) && Fit(z, p) && z.queue.redis == y.queue.redis
    ensures LoopOf(z, p) == AfterCommand(LoopOf(y, p), {}, Done)
  {
    NoMessage(c, y, p);
    z := After(c, y, Command(p, [], Done));
    OneStep(c, y, p, Command(p, [], Done));
    FitStep(c, y, Command(p, [], Done), p);
  }

  /** The loop reads one entry: a dispatch of its process has it, and it is no longer to be read. */
  lemma Gets(c: Config, y: System, p: nat, e: nat) returns (z: System)
    requires Fit(y, p) && e in y.queue.redis.entries && !y.queue.redis.entries[e].delivered
    requires LoopOf(y, p) == if y.queue.redis.entries[e].stream == Normal then ReadNormal else ReadBulk
    ensures Path(c, y, p, [Command(p, [e], Done)], z) && Fit(z, p)
    ensures Unread(z.queue.redis, Normal) == Unread(y.queue.redis, Normal) - {e}
    ensures Unread(z.queue.redis, Bulk) == Unread(y.queue.redis, Bulk) - {e}
    ensures Received(y, z, p, e) && LoopOf(z, p) == Starting({y.queue.nextCall})
  {
    OneMessage(c, y, p, e);
    z := After(c, y, Command(p, [e], Done));
    OneStep(c, y, p, Command(p, [e], Done));
    FitStep(c, y, Command(p, [e], Done), p);
    OneReceived(c, y.queue, p, e);
    OneReadLess(y.queue.redis, z.queue.redis, e);
    LoopStarts(y, p, e);
  }

  lemma LoopStarts(y: System, p: nat, e: nat)
    requires LoopOf(y, p).ReadNormal? || LoopOf(y, p).ReadBulk?
    ensures LoopAfter(y, Command(p, [e], Done)) == Starting({y.queue.nextCall})
  {
    assert Numbers(y.queue.nextCall, 1) == {y.queue.nextCall};
  }

  lemma OneReadLess(r: Redis, r': Redis, e: nat)
    requires e in r.entries && r'.entries.Keys == r.entries.Keys
    requires forall x :: x in r.entries ==>
      r'.entries[x] == if x == e then r.entries[x].(delivered := true) else r.entries[x]
    ensures Unread(r', Normal) == Unread(r, Normal) - {e} && Unread(r', Bulk) == Unread(r, Bulk) - {e}
  {
  }

  /** A new dispatch of `p` has the message of entry `e`. */
  ghost predicate Received(y: System, z: System, p: nat, e: nat)
    requires e in y.queue.redis.entries
  {
    && y.queue.nextCall in z.queue.dispatches
    && z.queue.dispatches[y.queue.nextCall] == Dispatch(p, e, y.queue.redis.entries[e].item, Taken)
  }

  lemma OneReceived(c: Config, s: State, p: nat, e: nat)
    requires Enabled(c, s, Fetch(p, [e], Done))
    ensures var t := Apply(c, s, Fetch(p, [e], Done));
      && t.dispatches == s.dispatches[s.nextCall := Dispatch(p, e, s.redis.entries[e].item, Taken)]
      && t.redis.entries.Keys == s.redis.entries.Keys
      && forall x :: x in s.redis.entries ==>
           t.redis.entries[x] == if x == e then s.redis.entries[x].(delivered := true) else s.redis.entries[x]
  {
    var ds := Handlers(s.redis.entries, p, s.nextCall, [e]);
    assert e in [e] && ds.Keys == {s.nextCall} && [e][s.nextCall - s.nextCall] == e;
    assert s.dispatches + ds == s.dispatches[s.nextCall := ds[s.nextCall]];
  }

  /** How far the loop is from its normal read */
  function Rank(l: Loop): nat {
    match l
    case ReadNormal => 0
    case ClaimNormal => 1
    case ReadBulk => 4
    case ClaimBulk(_) => 3
    case _ => 2
  }

  /** A step, or a whole round, of a loop that does not stand at a read: it gets nearer to the normal read. */
  lemma Onward(c: Config, y: System, p: nat) returns (steps: seq<Step>, z: System)
    requires Fit(y, p) && !LoopOf(y, p).ReadNormal? && !LoopOf(y, p).ReadBulk?
    ensures Path(c, y, p, steps, z) && Fit(z, p) && Keeps(y.queue, z.queue)
    ensures Rank(LoopOf(z, p)) < Rank(LoopOf(y, p))
  {
    match LoopOf(y, p)
    case ClaimNormal => steps, z := FromTop(c, y, p);
    case ClaimBulk(_) => z := GetsNothing(c, y, p); steps := [Command(p, [], Done)];
    case Starting(_) => steps, z := AwaitingEnds(c, y, p, LoopOf(y, p));
    case Awaiting(_) => steps, z := AwaitingEnds(c, y, p, LoopOf(y, p));
    case Dropping(_) => steps, z := DroppingEnds(c, y, p, LoopOf(y, p));
  }

  /** Both claims come back empty. */
  lemma FromTop(c: Config, y: System, p: nat) returns (steps: seq<Step>, z: System)
    requires Fit(y, p) && LoopOf(y, p).ClaimNormal?
    ensures Path(c, y, p, steps, z) && Fit(z, p) && Keeps(y.queue, z.queue) && LoopOf(z, p).ReadNormal?
  {
    var y1 := GetsNothing(c, y, p);
    z := GetsNothing(c, y1, p);
    Joins(c, y, p, [Command(p, [], Done)], y1, [Command(p, [], Done)], z);
    steps := [Command(p, [], Done)] + [Command(p, [], Done)];
  }

  /** A read for which `e` is not the next: the read comes back empty, or with another entry. */
  lemma ReadsOther(c: Config, y: System, p: nat, e: nat) returns (steps: seq<Step>, z: System)
    requires Fit(y, p) && (LoopOf(y, p).ReadNormal? || LoopOf(y, p).ReadBulk?)
    requires e in y.queue.redis.entries && !y.queue.redis.entries[e].delivered
    requires y.queue.redis.entries[e].stream == if LoopOf(y, p).ReadNormal? then Bulk else Normal
    ensures Path(c, y, p, steps, z) && Fit(z, p)
    ensures var stream := y.queue.redis.entries[e].stream;
      Unread(z.queue.redis, stream) == Unread(y.queue.redis, stream)
    ensures if LoopOf(y, p).ReadBulk? then
              Unread(z.queue.redis, Normal) == Unread(y.queue.redis, Normal) && Rank(LoopOf(z, p)) < 4
            else if Unread(y.queue.redis, Normal) == {} then LoopOf(z, p).ReadBulk? && Keeps(y.queue, z.queue)
            else Unread(z.queue.redis, Normal) < Unread(y.queue.redis, Normal)
  {
    var stream := if LoopOf(y, p).ReadNormal? then Normal else Bulk;
    if Unread(y.queue.redis, stream) == {} {
      z := GetsNothing(c, y, p);
      steps := [Command(p, [], Done)];
    } else {
      var x :| x in Unread(y.queue.redis, stream);
      z := Gets(c, y, p, x);
      steps := [Command(p, [x], Done)];
    }
  }

  /** A dispatch of `p`, not started yet, has the entry `e`. */
  ghost predicate Reached(y: System, p: nat, e: nat) {
    exists d :: d in y.queue.dispatches && y.queue.dispatches[d].process == p && y.queue.dispatches[d].entry == e
                && y.queue.dispatches[d].pc == Taken
  }

  predicate ToRead(y: System, e: nat) { e in Unread(y.queue.redis, Normal) || e in Unread(y.queue.redis, Bulk) }

  lemma {:induction false} Delivers(c: Config, y: System, p: nat, e: nat) returns (steps: seq<Step>, z: System)
    requires Fit(y, p) && ToRead(y, e)
    ensures Path(c, y, p, steps, z) && Reached(z, p, e)
    decreases Unread(y.queue.redis, Normal), Rank(LoopOf(y, p))
  {
    var l, normal := LoopOf(y, p), y.queue.redis.entries[e].stream == Normal;
    if (l.ReadNormal? && normal) || (l.ReadBulk? && !normal) {
      z := Gets(c, y, p, e);
      steps := [Command(p, [e], Done)];
    } else {
      var y1, rest;
      if l.ReadNormal? || l.ReadBulk? { steps, y1 := ReadsOther(c, y, p, e); }
      else { steps, y1 := Onward(c, y, p); }
      if l.ReadNormal? && LoopOf(y1, p).ReadBulk? {
        z := Gets(c, y1, p, e);
        rest := [Command(p, [e], Done)];
      } else {
        rest, z := Delivers(c, y1, p, e);
      }
      Joins(c, y, p, steps, y1, rest, z);
      steps := steps + rest;
    }
  }

  lemma StartFit(clock: int, p: nat)
    ensures Fit(Start(clock), p)
  {
  }

  /** Every stored entry can be reached: from whatever any run left behind, the loop of each process can go on
      without any failure - ending its round, reading what comes before - until a handler has the entry. */
  lemma EveryEntryIsReached(c: Config, clock: int, before: seq<Step>, p: nat, e: nat) returns (steps: seq<Step>)
    requires Possible(c, Start(clock), before)
    requires var r := Reach(c, Start(clock), before).queue.redis; e in r.entries && !r.entries[e].delivered
    ensures var y := Reach(c, Start(clock), before);
      && Possible(c, y, steps) && AllServe(steps, p)
      && Reached(Reach(c, y, steps), p, e)
  {
    StartFit(clock, p);
    FitOver(c, Start(clock), before, p);
    var z;
    steps, z := Delivers(c, Reach(c, Start(clock), before), p, e);
  }
}
