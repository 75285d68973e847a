/**
  The consumer loop of every gateway process, command by command: two XAUTOCLAIMs, two XREADGROUPs, the
  handlers of a round, and the wait for all of them. On top of the queue's transitions: each step of a
  loop is one queue event or none.
 */
module QueueConsumer {
  import opened JsText
  import opened QueueModel
  import opened QueueSafety

  /** Where the loop of a process is; `calls` are the dispatches of its current round. */
  datatype Loop =
    | ClaimNormal                  // top of the loop: XAUTOCLAIM of the normal stream
    | ClaimBulk(calls: set<nat>)   // XAUTOCLAIM of the bulk stream, the first reply in hand
    | ReadNormal                   // XREADGROUP of the normal stream
    | ReadBulk
    | Starting(calls: set<nat>)    // _dispatch starts the handlers
    | Awaiting(calls: set<nat>)    // Promise.all
    | Dropping(calls: set<nat>)    // the second claim threw: the first reply is dropped

  datatype System = System(queue: State, loops: map<nat, Loop>)

  function Start(clock: int): System { System(Init(clock), map[]) }

  function LoopOf(y: System, p: nat): Loop { if p in y.loops then y.loops[p] else ClaimNormal }

  datatype Step =
    | Elsewhere(e: Event)                                   // an event outside the loops
    | Command(process: nat, batch: seq<nat>, o: Outcome)    // the loop's next command
    | StartHandler(process: nat, call: nat)
    | AllStarted(process: nat)
    | DropMessage(process: nat, call: nat)
    | AllDropped(process: nat)
    | AllSettled(process: nat)                              // every handler of the round has ended
    | Restart(process: nat)                                 // the process crashes and comes back

  predicate OfLoop(e: Event) { e.Fetch? || e.Begin? || e.Forget? || e.Crash? }

  /** The queue event of a step */
  function EventOf(step: Step): Option<Event> {
    match step
    case Elsewhere(e) => Some(e)
    case Command(p, batch, o) => Some(Fetch(p, batch, o))
    case StartHandler(_, call) => Some(Begin(call))
    case DropMessage(_, call) => Some(Forget(call))
    case Restart(p) => Some(Crash(p))
    case _ => None
  }

  /** Undelivered entries of a stream */
  function Unread(r: Redis, stream: Priority): set<nat> {
    set e | e in r.entries && r.entries[e].stream == stream && !r.entries[e].delivered
  }

  /** What the command of a loop may return. A claim finds whatever has been idle long enough; a read that comes
      back with nothing found nothing undelivered. */
  ghost predicate Returns(r: Redis, l: Loop, batch: seq<nat>, o: Outcome) {
    match l
    case ClaimNormal => From(r, batch, Normal, true)
    case ClaimBulk(_) => From(r, batch, Bulk, true)
    case ReadNormal => From(r, batch, Normal, false) && (o == Done && batch == [] ==> Unread(r, Normal) == {})
    case ReadBulk => From(r, batch, Bulk, false) && (o == Done && batch == [] ==> Unread(r, Bulk) == {})
    case _ => false
  }

  ghost predicate Fires(c: Config, y: System, step: Step) {
    && (EventOf(step).Some? ==> Enabled(c, y.queue, EventOf(step).value))
    && match step
       case Elsewhere(e) => !OfLoop(e)
       case Command(p, batch, o) => Returns(y.queue.redis, LoopOf(y, p), batch, o)
       case StartHandler(p, call) => LoopOf(y, p).Starting? && call in LoopOf(y, p).calls
       case AllStarted(p) =>
         LoopOf(y, p).Starting? && forall d :: d in LoopOf(y, p).calls && d in y.queue.dispatches ==>
           y.queue.dispatches[d].pc != Taken
       case DropMessage(p, call) => LoopOf(y, p).Dropping? && call in LoopOf(y, p).calls
       case AllDropped(p) => LoopOf(y, p).Dropping? && LoopOf(y, p).calls !! y.queue.dispatches.Keys
       case AllSettled(p) => LoopOf(y, p).Awaiting? && LoopOf(y, p).calls !! y.queue.dispatches.Keys
       case Restart(_) => true
  }

  function Numbers(first: nat, count: nat): (ns: set<nat>)
    ensures forall d :: d in ns <==> first <= d < first + count
  {
    if count == 0 then {} else Numbers(first, count - 1) + {first + count - 1}
  }

  /** The loop after its command was answered or failed; an error goes back to the top */
  function AfterCommand(l: Loop, calls: set<nat>, o: Outcome): Loop {
    match l
    case ClaimNormal => if o == Done then ClaimBulk(calls) else ClaimNormal
    case ClaimBulk(first) =>
      if o != Done then Dropping(first) else if first + calls == {} then ReadNormal else Starting(first + calls)
    case ReadNormal => if o != Done then ClaimNormal else if calls == {} then ReadBulk else Starting(calls)
    case ReadBulk => if o != Done || calls == {} then ClaimNormal else Starting(calls)
    case _ => l
  }

  function LoopAfter(y: System, step: Step): Loop
    requires !step.Elsewhere?
  {
    match step
    case Command(p, batch, o) => AfterCommand(LoopOf(y, p), Numbers(y.queue.nextCall, |batch|), o)
    case StartHandler(p, _) => LoopOf(y, p)
    case DropMessage(p, _) => LoopOf(y, p)
    case AllStarted(p) => if LoopOf(y, p).Starting? then Awaiting(LoopOf(y, p).calls) else LoopOf(y, p)
    case _ => ClaimNormal
  }

  ghost function After(c: Config, y: System, step: Step): System
    requires Fires(c, y, step)
  {
    System(if EventOf(step).Some? then Apply(c, y.queue, EventOf(step).value) else y.queue,
           if step.Elsewhere? then y.loops else y.loops[step.process := LoopAfter(y, step)])
  }

  ghost predicate Possible(c: Config, y: System, steps: seq<Step>)
    decreases |steps|
  {
    steps == [] || (Fires(c, y, steps[0]) && Possible(c, After(c, y, steps[0]), steps[1..]))
  }

  ghost function Reach(c: Config, y: System, steps: seq<Step>): System
    requires Possible(c, y, steps)
    decreases |steps|
  {
    if steps == [] then y else Reach(c, After(c, y, steps[0]), steps[1..])
  }

  // ---------------------------------------------------------------- the loops drive the queue

  function EventsOf(steps: seq<Step>): seq<Event>
    decreases |steps|
  {
    if steps == [] then []
    else (if EventOf(steps[0]).Some? then [EventOf(steps[0]).value] else []) + EventsOf(steps[1..])
  }

  /** Every run of the loops is a run of the queue, so what holds over all runs of the queue holds here. */
  lemma {:induction false} LoopsRunQueue(c: Config, y: System, steps: seq<Step>)
    requires Possible(c, y, steps)
    ensures Allowed(c, y.queue, EventsOf(steps)) && Run(c, y.queue, EventsOf(steps)) == Reach(c, y, steps).queue
    decreases |steps|
  {
    if steps != [] {
      LoopsRunQueue(c, After(c, y, steps[0]), steps[1..]);
      if EventOf(steps[0]).Some? {
        assert EventsOf(steps)[1..] == EventsOf(steps[1..]);
      } else {
        assert EventsOf(steps) == EventsOf(steps[1..]);
      }
    }
  }

  // ---------------------------------------------------------------- the round of a process

  /** `d` is a dispatch of process `p`. */
  predicate Of(ds: map<nat, Dispatch>, d: nat, p: nat) { d in ds && ds[d].process == p }

  /** The calls of the round */
  function Calls(l: Loop): set<nat> {
    match l
    case ClaimBulk(calls) => calls
    case Starting(calls) => calls
    case Awaiting(calls) => calls
    case Dropping(calls) => calls
    case _ => {}
  }

  /** The dispatches of `p` are those of its loop's round - none before a round - and nobody else's. Between
      the two claims they are messages of the normal stream whose handlers are not started. */
  ghost predicate RoundOk(ds: map<nat, Dispatch>, next: nat, l: Loop, p: nat) {
    && (forall d :: Of(ds, d, p) ==> d in Calls(l))
    && (forall d :: d in Calls(l) ==> d < next && (d in ds ==> ds[d].process == p))
    && (l.ClaimBulk? ==> forall d :: Of(ds, d, p) ==> ds[d].pc == Taken && ds[d].item.request.priority == Normal)
  }

  /** No two dispatches of `p` are on one entry. */
  ghost predicate Exclusive(ds: map<nat, Dispatch>, p: nat) {
    forall d, d' :: Of(ds, d, p) && Of(ds, d', p) && d != d' ==> ds[d].entry != ds[d'].entry
  }

  ghost predicate LoopOk(y: System, p: nat) {
    RoundOk(y.queue.dispatches, y.queue.nextCall, LoopOf(y, p), p) && Exclusive(y.queue.dispatches, p)
  }

  /** Dispatches may end and move on, but what was only received stays so. */
  ghost predicate MovedOn(ds: map<nat, Dispatch>, ds': map<nat, Dispatch>) {
    forall d :: d in ds' ==>
      && d in ds && ds'[d].process == ds[d].process && ds'[d].entry == ds[d].entry
      && ds'[d].item.request == ds[d].item.request
      && (ds[d].pc == Taken ==> ds'[d].pc == Taken)
  }

  lemma MovedOnOk(ds: map<nat, Dispatch>, ds': map<nat, Dispatch>, next: nat, next': nat, l: Loop, p: nat)
    requires MovedOn(ds, ds') && next <= next' && RoundOk(ds, next, l, p) && Exclusive(ds, p)
    ensures RoundOk(ds', next', l, p) && Exclusive(ds', p)
  {
    assert forall d :: Of(ds', d, p) ==> Of(ds, d, p);
  }

  lemma OutsideMovesOn(c: Config, s: State, e: Event)
    requires Enabled(c, s, e) && !OfLoop(e)
    ensures MovedOn(s.dispatches, Apply(c, s, e).dispatches) && s.nextCall <= Apply(c, s, e).nextCall
  {
  }

  /** The command of another process leaves the round of `p` alone. */
  lemma OtherProcess(ds: map<nat, Dispatch>, more: map<nat, Dispatch>, next: nat, next': nat, l: Loop, p: nat)
    requires next <= next' && RoundOk(ds, next, l, p) && Exclusive(ds, p)
    requires forall d :: d in more ==> d >= next && more[d].process != p
    ensures RoundOk(ds + more, next', l, p) && Exclusive(ds + more, p)
  {
    assert forall d :: Of(ds + more, d, p) ==> Of(ds, d, p) && (ds + more)[d] == ds[d];
  }

  /** The reply of a loop's own command joins its round; what it brings is on other entries. */
  lemma OwnCommand(s: State, p: nat, l: Loop, batch: seq<nat>)
    requires Consistent(s) && RoundOk(s.dispatches, s.nextCall, l, p) && Exclusive(s.dispatches, p)
    requires BatchOk(s.redis, batch) && Returns(s.redis, l, batch, Done)
    ensures var ds := s.dispatches + Handlers(s.redis.entries, p, s.nextCall, batch);
      RoundOk(ds, s.nextCall + |batch|, AfterCommand(l, Numbers(s.nextCall, |batch|), Done), p) && Exclusive(ds, p)
  {
    var more := Handlers(s.redis.entries, p, s.nextCall, batch);
    NewApart(s, p, l, batch);
    if l.ClaimNormal? { NormalMessages(s, p, batch); }
    NextCalls(l, Numbers(s.nextCall, |batch|));
    JoinsRound(s.dispatches, more, s.nextCall, |batch|, l, AfterCommand(l, Numbers(s.nextCall, |batch|), Done), p);
  }

  lemma NextCalls(l: Loop, calls: set<nat>)
    requires l.ClaimNormal? || l.ClaimBulk? || l.ReadNormal? || l.ReadBulk?
    ensures Calls(AfterCommand(l, calls, Done)) == Calls(l) + calls
    ensures AfterCommand(l, calls, Done).ClaimBulk? <==> l.ClaimNormal?
  {
  }

  lemma JoinsRound(ds: map<nat, Dispatch>, more: map<nat, Dispatch>, next: nat, n: nat, l: Loop, l': Loop, p: nat)
    requires RoundOk(ds, next, l, p) && Calls(l') == Calls(l) + Numbers(next, n)
    requires forall d :: d in more ==> next <= d < next + n && more[d].process == p
    requires forall d :: d in ds ==> d < next
    requires l'.ClaimBulk? ==> Calls(l) == {}
    requires l'.ClaimBulk? ==> forall d :: d in more ==> more[d].pc == Taken && more[d].item.request.priority == Normal
    ensures RoundOk(ds + more, next + n, l', p)
  {
    forall d | Of(ds + more, d, p) ensures d in more || (Of(ds, d, p) && (ds + more)[d] == ds[d]) {}
  }

  lemma NormalMessages(s: State, p: nat, batch: seq<nat>)
    requires Consistent(s) && From(s.redis, batch, Normal, true)
    ensures var more := Handlers(s.redis.entries, p, s.nextCall, batch);
      forall d :: d in more ==> more[d].item.request.priority == Normal
  {
    forall e | e in batch ensures EntryOk(s.landed, s.redis.entries[e]) {}
  }

  lemma NewApart(s: State, p: nat, l: Loop, batch: seq<nat>)
    requires Consistent(s) && RoundOk(s.dispatches, s.nextCall, l, p) && Exclusive(s.dispatches, p)
    requires BatchOk(s.redis, batch) && Returns(s.redis, l, batch, Done)
    ensures Exclusive(s.dispatches + Handlers(s.redis.entries, p, s.nextCall, batch), p)
  {
    var more := Handlers(s.redis.entries, p, s.nextCall, batch);
    var ds := s.dispatches + more;
    forall d, d' | Of(ds, d, p) && Of(ds, d', p) && d in more && d' !in more ensures ds[d].entry != ds[d'].entry {
      assert Of(s.dispatches, d', p);
      NotInBatch(s, l, batch, Done, d', p);
    }
    forall d, d' | Of(ds, d, p) && Of(ds, d', p) && d != d' ensures ds[d].entry != ds[d'].entry {
      if d !in more && d' !in more { assert Of(s.dispatches, d, p) && Of(s.dispatches, d', p); }
    }
  }

  /** A loop asks for messages only when its process has no dispatch, or between the two claims, when those
      are of the other stream: what it gets is never an entry it has a dispatch of. */
  lemma NotInBatch(s: State, l: Loop, batch: seq<nat>, o: Outcome, d: nat, p: nat)
    requires Consistent(s) && RoundOk(s.dispatches, s.nextCall, l, p) && Returns(s.redis, l, batch, o)
    requires Of(s.dispatches, d, p)
    ensures s.dispatches[d].entry !in batch
  {
    var e := s.dispatches[d].entry;
    assert DispatchOk(s.redis, s.landed, s.dispatches[d]);
    if e in s.redis.entries { assert EntryOk(s.landed, s.redis.entries[e]); }
  }

  lemma CommandOk(c: Config, y: System, p: nat, batch: seq<nat>, o: Outcome, q: nat)
    requires Consistent(y.queue) && LoopOk(y, q) && Fires(c, y, Command(p, batch, o))
    ensures LoopOk(After(c, y, Command(p, batch, o)), q)
  {
    var s := y.queue;
    if o != Done {
      MovedOnOk(s.dispatches, s.dispatches, s.nextCall, s.nextCall + |batch|, LoopOf(y, q), q);
      if q == p { assert Calls(AfterCommand(LoopOf(y, p), Numbers(s.nextCall, |batch|), o)) == Calls(LoopOf(y, p)); }
    } else if q == p {
      OwnCommand(s, p, LoopOf(y, p), batch);
    } else {
      OtherProcess(s.dispatches, Handlers(s.redis.entries, p, s.nextCall, batch), s.nextCall, s.nextCall + |batch|,
                   LoopOf(y, q), q);
    }
  }

  lemma CrashOk(ds: map<nat, Dispatch>, ds': map<nat, Dispatch>, next: nat, l: Loop, p: nat, q: nat)
    requires RoundOk(ds, next, l, q) && Exclusive(ds, q)
    requires forall d :: d in ds' <==> d in ds && ds[d].process != p
    requires forall d :: d in ds' ==> ds'[d] == ds[d]
    ensures Exclusive(ds', q) && RoundOk(ds', next, if q == p then ClaimNormal else l, q)
  {
    assert forall d :: Of(ds', d, q) ==> Of(ds, d, q);
  }

  /** A handler starts, or a message is dropped: the dispatch is the process's own. */
  lemma OwnCallOk(ds: map<nat, Dispatch>, ds': map<nat, Dispatch>, next: nat, l: Loop, call: nat, p: nat, q: nat)
    requires RoundOk(ds, next, l, q) && Exclusive(ds, q) && call in ds && ds[call].process == p
    requires ds' == SetPc(ds, call, Running) || ds' == Drop(ds, call)
    requires q == p ==> !l.ClaimBulk?
    ensures RoundOk(ds', next, l, q) && Exclusive(ds', q)
  {
    assert forall d :: Of(ds', d, q) ==> Of(ds, d, q);
  }

  lemma HandlerOk(c: Config, y: System, step: Step, q: nat)
    requires step.StartHandler? || step.DropMessage?
    requires LoopOk(y, q) && LoopOk(y, step.process) && Fires(c, y, step)
    ensures LoopOk(After(c, y, step), q)
  {
    OwnCallOk(y.queue.dispatches, After(c, y, step).queue.dispatches, y.queue.nextCall, LoopOf(y, q), step.call,
              step.process, q);
  }

  lemma RestartOk(c: Config, y: System, p: nat, q: nat)
    requires LoopOk(y, q) && Fires(c, y, Restart(p))
    ensures LoopOk(After(c, y, Restart(p)), q)
  {
    CrashLeaves(c, y.queue, p);
    CrashOk(y.queue.dispatches, After(c, y, Restart(p)).queue.dispatches, y.queue.nextCall, LoopOf(y, q), p, q);
  }

  lemma CrashLeaves(c: Config, s: State, p: nat)
    ensures var s' := Apply(c, s, Crash(p));
      && s'.nextCall == s.nextCall
      && (forall d :: d in s'.dispatches <==> d in s.dispatches && s.dispatches[d].process != p)
      && (forall d :: d in s'.dispatches ==> s'.dispatches[d] == s.dispatches[d])
  {
    assert Apply(c, s, Crash(p)).dispatches == OnCrash(s, p).dispatches;
  }

  lemma ElsewhereOk(c: Config, y: System, e: Event, q: nat)
    requires LoopOk(y, q) && Fires(c, y, Elsewhere(e))
    ensures LoopOk(After(c, y, Elsewhere(e)), q)
  {
    var s, s' := y.queue, After(c, y, Elsewhere(e)).queue;
    OutsideMovesOn(c, s, e);
    MovedOnOk(s.dispatches, s'.dispatches, s.nextCall, s'.nextCall, LoopOf(y, q), q);
  }

  lemma TurnOk(c: Config, y: System, step: Step, q: nat)
    requires LoopOk(y, q) && Fires(c, y, step) && (step.AllStarted? || step.AllDropped? || step.AllSettled?)
    ensures LoopOk(After(c, y, step), q)
  {
  }

  lemma StepOk(c: Config, y: System, step: Step, q: nat)
    requires Consistent(y.queue) && (forall p :: LoopOk(y, p)) && Fires(c, y, step)
    ensures LoopOk(After(c, y, step), q)
  {
    assert LoopOk(y, q);
    match step
    case Elsewhere(e) => ElsewhereOk(c, y, e, q);
    case Command(p, batch, o) => CommandOk(c, y, p, batch, o, q);
    case Restart(p) => RestartOk(c, y, p, q);
    case StartHandler(p, call) => assert LoopOk(y, p); HandlerOk(c, y, step, q);
    case DropMessage(p, call) => assert LoopOk(y, p); HandlerOk(c, y, step, q);
    case _ => TurnOk(c, y, step, q);
  }

  lemma {:induction false} ReachOk(c: Config, y: System, steps: seq<Step>)
    requires Consistent(y.queue) && (forall p :: LoopOk(y, p)) && Possible(c, y, steps)
    ensures Consistent(Reach(c, y, steps).queue) && forall p :: LoopOk(Reach(c, y, steps), p)
    decreases |steps|
  {
    if steps != [] {
      var y' := After(c, y, steps[0]);
      if EventOf(steps[0]).Some? { ConsistentStep(c, y.queue, EventOf(steps[0]).value); }
      forall q ensures LoopOk(y', q) { StepOk(c, y, steps[0], q); }
      ReachOk(c, y', steps[1..]);
    }
  }

  /** Single-consumer exclusion: over every run, with any failures and crashes and whatever the idle time
      after which pending entries may be reclaimed, no two dispatches of one process are on one entry, and
      the next command of a loop never returns an entry its process still has a dispatch of. */
  lemma ConsumerExclusion(c: Config, clock: int, steps: seq<Step>, p: nat)
    requires Possible(c, Start(clock), steps)
    ensures var y := Reach(c, Start(clock), steps); var ds := y.queue.dispatches;
      && (forall d, d' :: Of(ds, d, p) && Of(ds, d', p) && d != d' ==> ds[d].entry != ds[d'].entry)
      && (forall batch, o, d :: Fires(c, y, Command(p, batch, o)) && Of(ds, d, p) ==> ds[d].entry !in batch)
  {
    ReachOk(c, Start(clock), steps);
    var y := Reach(c, Start(clock), steps);
    assert LoopOk(y, p);
    forall batch, o, d | Fires(c, y, Command(p, batch, o)) && Of(y.queue.dispatches, d, p)
      ensures y.queue.dispatches[d].entry !in batch
    {
      NotInBatch(y.queue, LoopOf(y, p), batch, o, d, p);
    }
  }

  // ---------------------------------------------------------------- one process

  /** Only the loop of `p` runs. */
  predicate OnlyLoop(steps: seq<Step>, p: nat) {
    forall i :: 0 <= i < |steps| ==> steps[i].Elsewhere? || steps[i].process == p
  }

  ghost predicate OnlyOf(ds: map<nat, Dispatch>, p: nat) { forall d :: d in ds ==> ds[d].process == p }

  lemma FetchOnlyOf(c: Config, s: State, p: nat, batch: seq<nat>, o: Outcome)
    requires Enabled(c, s, Fetch(p, batch, o)) && OnlyOf(s.dispatches, p)
    ensures OnlyOf(OnFetch(s, p, batch, o).dispatches, p)
  {
  }

  lemma LoopEventOnlyOf(c: Config, s: State, e: Event, p: nat)
    requires Enabled(c, s, e) && OfLoop(e) && OnlyOf(s.dispatches, p) && (e.Fetch? ==> e.process == p)
    ensures OnlyOf(Apply(c, s, e).dispatches, p)
  {
    if e.Fetch? { FetchOnlyOf(c, s, p, e.batch, e.outcome); }
  }

  lemma OnlyOfStep(c: Config, y: System, step: Step, p: nat)
    requires Fires(c, y, step) && OnlyOf(y.queue.dispatches, p) && (step.Elsewhere? || step.process == p)
    ensures OnlyOf(After(c, y, step).queue.dispatches, p)
  {
    if step.Elsewhere? { OutsideMovesOn(c, y.queue, step.e); }
    else if EventOf(step).Some? { LoopEventOnlyOf(c, y.queue, EventOf(step).value, p); }
  }

  /** With one process no message reaches a handler while another dispatch of its entry is live. */
  lemma NeverRefetches(c: Config, y: System, step: Step, p: nat)
    requires Consistent(y.queue) && LoopOk(y, p) && OnlyOf(y.queue.dispatches, p) && Fires(c, y, step)
    requires step.Elsewhere? || step.process == p
    ensures EventOf(step).Some? ==> !Refetches(y.queue, EventOf(step).value)
  {
    if step.Command? {
      forall e | e in step.batch ensures !Live(y.queue, e) {
        forall d | d in y.queue.dispatches ensures y.queue.dispatches[d].entry != e {
          NotInBatch(y.queue, LoopOf(y, p), step.batch, step.o, d, p);
        }
      }
    }
  }

  /** One process, and no failed command or crash: such a run is fault-free - the clause about refetched
      entries takes care of itself - so everything that holds in fault-free runs holds. */
  lemma {:induction false} OneProcessFaultFree(c: Config, y: System, steps: seq<Step>, p: nat)
    requires Consistent(y.queue) && (forall q :: LoopOk(y, q)) && OnlyOf(y.queue.dispatches, p)
    requires Possible(c, y, steps) && OnlyLoop(steps, p)
    requires forall e :: e in EventsOf(steps) ==> !Failed(e)
    ensures Allowed(c, y.queue, EventsOf(steps)) && FaultFree(c, y.queue, EventsOf(steps))
    decreases |steps|
  {
    if steps != [] {
      var step, y' := steps[0], After(c, y, steps[0]);
      assert LoopOk(y, p);
      NeverRefetches(c, y, step, p);
      OnlyOfStep(c, y, step, p);
      if EventOf(step).Some? { ConsistentStep(c, y.queue, EventOf(step).value); }
      forall q ensures LoopOk(y', q) { StepOk(c, y, step, q); }
      assert OnlyLoop(steps[1..], p) by { assert forall i :: 0 <= i < |steps[1..]| ==> steps[1..][i] == steps[i + 1]; }
      FirstEvent(steps);
      OneProcessFaultFree(c, y', steps[1..], p);
    }
  }

  lemma FirstEvent(steps: seq<Step>)
    requires steps != []
    ensures var rest := EventsOf(steps[1..]);
      if EventOf(steps[0]).Some?
      then EventsOf(steps) != [] && EventsOf(steps)[0] == EventOf(steps[0]).value && EventsOf(steps)[1..] == rest
      else EventsOf(steps) == rest
    ensures forall e :: e in EventsOf(steps[1..]) ==> e in EventsOf(steps)
    ensures EventOf(steps[0]).Some? ==> EventOf(steps[0]).value in EventsOf(steps)
  {
  }

  /** From the start */
  lemma OneProcess(c: Config, clock: int, steps: seq<Step>, p: nat)
    requires Possible(c, Start(clock), steps) && OnlyLoop(steps, p)
    requires forall e :: e in EventsOf(steps) ==> !Failed(e)
    ensures Allowed(c, Init(clock), EventsOf(steps)) && FaultFree(c, Init(clock), EventsOf(steps))
    ensures Run(c, Init(clock), EventsOf(steps)) == Reach(c, Start(clock), steps).queue
  {
    OneProcessFaultFree(c, Start(clock), steps, p);
    LoopsRunQueue(c, Start(clock), steps);
  }
}
