/**
  The queue-mode handler of the gateway server and the per-message code that calls it. Each
  method reports the events it causes; they follow the transition system's program counters,
  whatever the cache, the rate limiter, the adapter and the commands do.
 */
module GatewayHandler {
  import opened QueueModel

  // ---------------------------------------------------------------- one dispatch on its own

  /** Where one dispatch is; no other process can move it */
  datatype Where = At(pc: DispatchPc, attempts: nat) | Ended | Stuck

  predicate CanRespond(pc: DispatchPc) { pc.Running? || pc.Executing? || pc.Caught? || pc.MustAnswer? }

  /** The transition system's view of one event of this dispatch */
  function Move(c: Config, w: Where, e: Event, mark: nat): Where {
    if !w.At? then Stuck
    else match e
      case Begin(_) => if w.pc == Taken then At(Running, w.attempts) else Stuck
      case Forget(_) => if w.pc == Taken then Ended else Stuck
      case LookupFails(_) => if w.pc == Running then Ended else Stuck
      case Execute(_) => if w.pc == Running then At(Executing, w.attempts + 1) else Stuck
      case AdapterFails(_) => if w.pc == Executing then At(Caught, w.attempts) else Stuck
      case Respond(_, o) =>
        if !CanRespond(w.pc) then Stuck
        else if o == Done then At(Answered, w.attempts)
        else if w.pc == Executing then At(Caught, w.attempts) else Ended
      case Reschedule(_, _, o) =>
        if w.pc == Running || (w.pc == Caught && w.attempts <= c.maxAttempts)
        then At(if o == Done then Deferred(mark) else MustAnswer, w.attempts) else Stuck
      case XAck(_, o) =>
        if w.pc != Answered && !w.pc.Deferred? then Stuck
        else if o == Done && w.pc == Answered then At(Acked, w.attempts) else Ended
      case Decr(_, _) => if w.pc == Acked then Ended else Stuck
      case _ => Stuck
  }

  function Follow(c: Config, w: Where, es: seq<Event>, mark: nat): Where
    decreases |es|
  {
    if es == [] then w else Move(c, Follow(c, w, es[..|es| - 1], mark), es[|es| - 1], mark)
  }

  lemma FollowSnoc(c: Config, w: Where, es: seq<Event>, e: Event, mark: nat)
    ensures Follow(c, w, es + [e], mark) == Move(c, Follow(c, w, es, mark), e, mark)
  {
    assert (es + [e])[..|es|] == es;
  }

  predicate OfDispatch(e: Event) {
    || e.Begin? || e.Forget? || e.LookupFails? || e.Execute? || e.AdapterFails? || e.Respond?
    || e.Reschedule? || e.XAck? || e.Decr?
  }

  function WhereIs(s: State, call: nat): Where {
    if call in s.dispatches then At(s.dispatches[call].pc, s.dispatches[call].item.attempts) else Ended
  }

  /** In any state, whatever the rest of it looks like, an event of the dispatch is enabled
      exactly when `Move` does not get stuck on it, and takes the dispatch where `Move` says. */
  lemma MoveAgrees(c: Config, s: State, e: Event)
    requires OfDispatch(e)
    requires e.Reschedule? ==> e.due >= s.clock
    requires e.call in s.dispatches
    ensures Enabled(c, s, e) <==> Move(c, WhereIs(s, e.call), e, s.redis.nextId) != Stuck
    ensures Enabled(c, s, e) ==>
              WhereIs(Apply(c, s, e), e.call) == Move(c, WhereIs(s, e.call), e, s.redis.nextId)
  {
    if Enabled(c, s, e) {
      match e
      case Respond(call, o) => assert Effect(c, s, e) == OnRespond(s, call, o);
      case Reschedule(call, due, o) => assert Effect(c, s, e) == OnReschedule(c, s, call, due, o);
      case XAck(call, o) => assert Effect(c, s, e) == OnXAck(s, call, o);
      case Decr(call, o) => assert Effect(c, s, e) == OnDecr(s, call, o);
      case _ =>
    }
  }

  /** The events are the dispatch `call`'s own, and no retry is set for a time gone by. */
  ghost predicate OwnTrace(es: seq<Event>, call: nat, clock: int) {
    forall i :: 0 <= i < |es| ==> OfDispatch(es[i]) && es[i].call == call && (es[i].Reschedule? ==> es[i].due >= clock)
  }

  lemma OwnSnoc(es: seq<Event>, e: Event, call: nat, clock: int)
    requires OwnTrace(es, call, clock) && OfDispatch(e) && e.call == call && (e.Reschedule? ==> e.due >= clock)
    ensures OwnTrace(es + [e], call, clock)
  {
  }

  /** A dispatch's own events leave the clock and the next entry id as they are. */
  lemma OwnEventQuiet(c: Config, s: State, e: Event)
    requires OfDispatch(e) && Enabled(c, s, e)
    ensures Apply(c, s, e).clock == s.clock && Apply(c, s, e).redis.nextId == s.redis.nextId
  {
    var s' := Effect(c, s, e);
    match e
    case Respond(call, o) => assert s' == OnRespond(s, call, o);
    case Reschedule(call, due, o) => assert s' == OnReschedule(c, s, call, due, o);
    case XAck(call, o) => assert s' == OnXAck(s, call, o);
    case Decr(call, o) => assert s' == OnDecr(s, call, o);
    case _ =>
  }

  /** A trace that the automaton accepts is a run of the transition system, from every state in which the
      dispatch is where the trace begins, and leaves the dispatch where the automaton says. */
  lemma {:induction false} TraceIsRun(c: Config, s: State, call: nat, es: seq<Event>)
    requires call in s.dispatches && OwnTrace(es, call, s.clock)
    requires Follow(c, WhereIs(s, call), es, s.redis.nextId) != Stuck
    ensures Allowed(c, s, es)
    ensures WhereIs(Run(c, s, es), call) == Follow(c, WhereIs(s, call), es, s.redis.nextId)
    ensures Run(c, s, es).clock == s.clock && Run(c, s, es).redis.nextId == s.redis.nextId
    decreases |es|
  {
    if es != [] {
      var before, e := es[..|es| - 1], es[|es| - 1];
      assert es == before + [e];
      assert OwnTrace(before, call, s.clock) && OfDispatch(e) && e.call == call;
      TraceIsRun(c, s, call, before);
      var t := Run(c, s, before);
      assert WhereIs(t, call).At?;
      MoveAgrees(c, t, e);
      Extend(c, s, before, e);
      OwnEventQuiet(c, t, e);
    }
  }

  // ---------------------------------------------------------------- the code

  datatype Lookup = LookupError | Cached | NotCached

  datatype Decision = Allow | Deny(retryAfterMs: int) | LimiterError

  /** What an await throws: whether it may be tried again, the wait it asks for (0 for none), its code if it has one */
  datatype Thrown = Thrown(retryable: bool, waitMs: int, code: string)

  datatype AdapterReply = Returns | Throws(thrown: Thrown)

  /** What the outside does during one handling of an item */
  datatype Env = Env(
    now: int, lookup: Lookup, expired: bool, decision: Decision,
    reply: AdapterReply, expiredAfter: bool,
    respond: Outcome,            // the first response
    unsent: Thrown,              // what it throws, if it fails
    reschedule: Outcome,
    respondAgain: Outcome)       // the response after a failed rescheduling or from the catch block

  /** What a response says */
  datatype Answer = FromCache | Success | Failure(code: string)

  datatype Handled = HandledDeferred | HandledDone | HandlerThrew

  function Max(a: int, b: int): int { if a > b then a else b }

  /** The last event tells how the handling ended: an answer, a hand-over, or neither anywhere. */
  ghost predicate EndsAs(outcome: Handled, trace: seq<Event>, call: nat) {
    && |trace| > 0
    && (outcome == HandledDone <==> trace[|trace| - 1] == Respond(call, Done))
    && (outcome == HandledDeferred <==> trace[|trace| - 1].Reschedule? && trace[|trace| - 1].outcome == Done)
    && forall k :: 0 <= k < |trace| - 1 ==>
         trace[k] != Respond(call, Done) && !(trace[k].Reschedule? && trace[k].outcome == Done)
  }

  /** Where the automaton has the dispatch then */
  function EndOf(outcome: Handled, attempts: nat, mark: nat): Where {
    match outcome
    case HandledDeferred => At(Deferred(mark), attempts)
    case HandledDone => At(Answered, attempts)
    case HandlerThrew => Ended
  }

  class GatewayServer {
    const config: Config
    var active: int

    constructor (config: Config)
      ensures this.config == config && active == 0
    {
      this.config, active := config, 0;
    }

    /** _handleQueuedItem: first the cache, then the deadline, then the limiter, and only then the adapter. `said`
        is what the responses of the trace say, in their order. The `active` slot is given back on every path. */
    method HandleQueuedItem(call: nat, attempts: nat, env: Env, ghost mark: nat)
      returns (outcome: Handled, trace: seq<Event>, said: seq<Answer>, attemptsAfter: nat)
      modifies this
      ensures active == old(active)
      ensures (exists k :: 0 <= k < |trace| && trace[k].Execute?)
              <==> env.lookup.NotCached? && !env.expired && env.decision.Allow?
      ensures attemptsAfter
              == if env.lookup.NotCached? && !env.expired && env.decision.Allow? then attempts + 1 else attempts
      ensures env.lookup.LookupError? ==> trace == [LookupFails(call)] && said == []
      ensures env.lookup.Cached? ==> trace == [Respond(call, env.respond)] && said == [FromCache]
      ensures env.lookup.NotCached? && env.expired ==>
                trace == [Respond(call, env.respond)] && said == [Failure("DEADLINE_EXCEEDED")]
      ensures env.lookup.NotCached? && !env.expired && env.decision.LimiterError? ==>
                trace == [Respond(call, env.respond)] && said == [Failure("RATE_LIMITER_UNAVAILABLE")]
      ensures env.lookup.NotCached? && !env.expired && env.decision.Deny? ==>
                var asked := env.decision.retryAfterMs;
                var due := env.now + if asked == 0 then 100 else if asked < 1 then 1 else asked;
                && trace == [Reschedule(call, due, env.reschedule)]
                            + (if env.reschedule == Done then [] else [Respond(call, env.respondAgain)])
                && said == if env.reschedule == Done then [] else [Failure("QUEUE_UNAVAILABLE")]
      ensures env.lookup.NotCached? && !env.expired && env.decision.Allow? ==>
                Executed(call, attempts + 1, env, trace, said)
      ensures EndsAs(outcome, trace, call)
      ensures Follow(config, At(Running, attempts), trace, mark) == EndOf(outcome, attemptsAfter, mark)
      ensures OwnTrace(trace, call, env.now)
    {
      active := active + 1;
      outcome, trace, said, attemptsAfter := LookAndRun(call, attempts, env, mark);
      assert env.lookup.NotCached? && !env.expired && env.decision.Allow? ==> trace[0].Execute?;
      active := active - 1;
    }

    /** Inside the `try` block */
    method LookAndRun(call: nat, attempts: nat, env: Env, ghost mark: nat)
      returns (outcome: Handled, trace: seq<Event>, said: seq<Answer>, attemptsAfter: nat)
      ensures attemptsAfter
              == if env.lookup.NotCached? && !env.expired && env.decision.Allow? then attempts + 1 else attempts
      ensures env.lookup.LookupError? ==> trace == [LookupFails(call)] && said == []
      ensures env.lookup.Cached? ==> trace == [Respond(call, env.respond)] && said == [FromCache]
      ensures env.lookup.NotCached? && env.expired ==>
                trace == [Respond(call, env.respond)] && said == [Failure("DEADLINE_EXCEEDED")]
      ensures env.lookup.NotCached? && !env.expired && env.decision.LimiterError? ==>
                trace == [Respond(call, env.respond)] && said == [Failure("RATE_LIMITER_UNAVAILABLE")]
      ensures env.lookup.NotCached? && !env.expired && env.decision.Deny? ==>
                var asked := env.decision.retryAfterMs;
                var due := env.now + if asked == 0 then 100 else if asked < 1 then 1 else asked;
                && trace == [Reschedule(call, due, env.reschedule)]
                            + (if env.reschedule == Done then [] else [Respond(call, env.respondAgain)])
                && said == if env.reschedule == Done then [] else [Failure("QUEUE_UNAVAILABLE")]
      ensures env.lookup.NotCached? && !env.expired && env.decision.Allow? ==>
                Executed(call, attempts + 1, env, trace, said)
      ensures EndsAs(outcome, trace, call)
      ensures Follow(config, At(Running, attempts), trace, mark) == EndOf(outcome, attemptsAfter, mark)
      ensures OwnTrace(trace, call, env.now)
    {
      attemptsAfter := attempts;
      if env.lookup.LookupError? {
        FollowSnoc(config, At(Running, attempts), [], LookupFails(call), mark);
        outcome, trace, said := HandlerThrew, [] + [LookupFails(call)], [];
      } else if env.lookup.Cached? {
        outcome, trace, said := Finish(call, At(Running, attempts), [], [], FromCache, env.respond, mark);
      } else if env.expired {
        outcome, trace, said :=
          Finish(call, At(Running, attempts), [], [], Failure("DEADLINE_EXCEEDED"), env.respond, mark);
      } else {
        outcome, trace, said, attemptsAfter := AfterDecision(call, attempts, env, mark);
      }
    }

    /** From the limiter's answer on */
    method AfterDecision(call: nat, attempts: nat, env: Env, ghost mark: nat)
      returns (outcome: Handled, trace: seq<Event>, said: seq<Answer>, attemptsAfter: nat)
      ensures attemptsAfter == if env.decision.Allow? then attempts + 1 else attempts
      ensures env.decision.LimiterError? ==>
                trace == [Respond(call, env.respond)] && said == [Failure("RATE_LIMITER_UNAVAILABLE")]
      ensures env.decision.Deny? ==>
                var asked := env.decision.retryAfterMs;
                var due := env.now + if asked == 0 then 100 else if asked < 1 then 1 else asked;
                && trace == [Reschedule(call, due, env.reschedule)]
                            + (if env.reschedule == Done then [] else [Respond(call, env.respondAgain)])
                && said == if env.reschedule == Done then [] else [Failure("QUEUE_UNAVAILABLE")]
      ensures env.decision.Allow? ==> Executed(call, attempts + 1, env, trace, said)
      ensures EndsAs(outcome, trace, call)
      ensures Follow(config, At(Running, attempts), trace, mark) == EndOf(outcome, attemptsAfter, mark)
      ensures OwnTrace(trace, call, env.now)
    {
      attemptsAfter := attempts;
      match env.decision
      case LimiterError =>
        outcome, trace, said :=
          Finish(call, At(Running, attempts), [], [], Failure("RATE_LIMITER_UNAVAILABLE"), env.respond, mark);
      case Deny(asked) =>
        var due := env.now + Max(1, if asked == 0 then 100 else asked);
        outcome, trace, said := Requeue(call, At(Running, attempts), [], [], due, env, mark);
      case Allow =>
        outcome, trace, said, attemptsAfter := ExecuteItem(call, attempts, env, mark);
    }

    /** What the call number `attempts` of the adapter leads to: its response; or, when it threw or the response
        could not be sent, a retry while the failure is retryable, attempts last and the deadline is ahead - after the
        wait asked for, else a second for every attempt up to ten - and a failure response otherwise. */
    ghost predicate Executed(call: nat, attempts: nat, env: Env, trace: seq<Event>, said: seq<Answer>) {
      if env.reply.Returns? && env.respond == Done then
        trace == [Execute(call), Respond(call, Done)] && said == [Success]
      else
        var begun := [Execute(call), if env.reply.Returns? then Respond(call, env.respond) else AdapterFails(call)];
        var told := if env.reply.Returns? then [Success] else [];
        var thrown := if env.reply.Returns? then env.unsent else env.reply.thrown;
        if thrown.retryable && attempts <= config.maxAttempts && !env.expiredAfter then
          var wait := if thrown.waitMs != 0 then thrown.waitMs else if attempts < 10 then 1000 * attempts else 10000;
          && trace == begun + [Reschedule(call, env.now + (if wait < 0 then 0 else wait), env.reschedule)]
                      + (if env.reschedule == Done then [] else [Respond(call, env.respondAgain)])
          && said == told + if env.reschedule == Done then [] else [Failure("QUEUE_UNAVAILABLE")]
        else
          && trace == begun + [Respond(call, env.respondAgain)]
          && said == told + [Failure(if thrown.code != "" then thrown.code else "UPSTREAM_ERROR")]
    }

    /** _execute: one adapter call, then a response, a retry, or both a failed response and its handling in the
        catch block. */
    method ExecuteItem(call: nat, attempts: nat, env: Env, ghost mark: nat)
      returns (outcome: Handled, trace: seq<Event>, said: seq<Answer>, attemptsAfter: nat)
      ensures attemptsAfter == attempts + 1
      ensures Executed(call, attempts + 1, env, trace, said)
      ensures EndsAs(outcome, trace, call)
      ensures Follow(config, At(Running, attempts), trace, mark) == EndOf(outcome, attemptsAfter, mark)
      ensures OwnTrace(trace, call, env.now)
    {
      attemptsAfter := attempts + 1;
      var done;
      done, trace, said := CallAdapter(call, attempts, env, mark);
      if done { return HandledDone, trace, said, attemptsAfter; }
      var thrown := if env.reply.Returns? then env.unsent else env.reply.thrown;
      outcome, trace, said := HandleFailure(call, At(Running, attempts), trace, said, attemptsAfter, thrown, env, mark);
    }

    /** The `try` block: the adapter's call, then its response; anything thrown ends in the catch */
    method CallAdapter(call: nat, attempts: nat, env: Env, ghost mark: nat)
      returns (done: bool, trace: seq<Event>, said: seq<Answer>)
      ensures done <==> env.reply.Returns? && env.respond == Done
      ensures Follow(config, At(Running, attempts), trace, mark) == At(if done then Answered else Caught, attempts + 1)
      ensures trace == [Execute(call), if env.reply.Returns? then Respond(call, env.respond) else AdapterFails(call)]
      ensures said == if env.reply.Returns? then [Success] else []
    {
      ghost var start := At(Running, attempts);
      var begun := [] + [Execute(call)];
      FollowSnoc(config, start, [], Execute(call), mark);
      var next := if env.reply.Returns? then Respond(call, env.respond) else AdapterFails(call);
      FollowSnoc(config, start, begun, next, mark);
      trace := begun + [next];
      said := if env.reply.Returns? then [Success] else [];
      done := env.reply.Returns? && env.respond == Done;
    }

    /** The catch block: a retry while the failure is retryable and attempts last, else a response */
    method HandleFailure(call: nat, ghost start: Where, before: seq<Event>, told: seq<Answer>, attempts: nat,
                         thrown: Thrown, env: Env, ghost mark: nat)
      returns (outcome: Handled, trace: seq<Event>, said: seq<Answer>)
      requires Follow(config, start, before, mark) == At(Caught, attempts)
      requires OwnTrace(before, call, env.now) && NothingDone(before, call)
      ensures Follow(config, start, trace, mark) == EndOf(outcome, attempts, mark)
      ensures EndsAs(outcome, trace, call)
      ensures var retries := thrown.retryable && attempts <= config.maxAttempts && !env.expiredAfter;
        if retries then
          var wait := if thrown.waitMs != 0 then thrown.waitMs else if attempts < 10 then 1000 * attempts else 10000;
          && trace == before + [Reschedule(call, env.now + (if wait < 0 then 0 else wait), env.reschedule)]
                      + (if env.reschedule == Done then [] else [Respond(call, env.respondAgain)])
          && said == told + if env.reschedule == Done then [] else [Failure("QUEUE_UNAVAILABLE")]
        else
          && trace == before + [Respond(call, env.respondAgain)]
          && said == told + [Failure(if thrown.code != "" then thrown.code else "UPSTREAM_ERROR")]
      ensures OwnTrace(trace, call, env.now)
    {
      if thrown.retryable && attempts <= config.maxAttempts && !env.expiredAfter {
        var wait := if thrown.waitMs != 0 then thrown.waitMs
                    else if 1000 * attempts < 10000 then 1000 * attempts else 10000;
        outcome, trace, said := Requeue(call, start, before, told, env.now + Max(0, wait), env, mark);
      } else {
        OwnSnoc(before, Respond(call, env.respondAgain), call, env.now);
        var code := if thrown.code != "" then thrown.code else "UPSTREAM_ERROR";
        outcome, trace, said := Finish(call, start, before, told, Failure(code), env.respondAgain, mark);
      }
    }

    /** _requeue with preserveDepth, and the failure response when that throws */
    method Requeue(call: nat, ghost start: Where, before: seq<Event>, told: seq<Answer>, due: int, env: Env,
                   ghost mark: nat)
      returns (outcome: Handled, trace: seq<Event>, said: seq<Answer>)
      requires due >= env.now && OwnTrace(before, call, env.now) && NothingDone(before, call)
      requires var w := Follow(config, start, before, mark);
        w.At? && (w.pc == Running || (w.pc == Caught && w.attempts <= config.maxAttempts))
      ensures Follow(config, start, trace, mark)
              == EndOf(outcome, Follow(config, start, before, mark).attempts, mark)
      ensures outcome == HandledDeferred <==> env.reschedule == Done
      ensures trace == before + [Reschedule(call, due, env.reschedule)]
                       + if env.reschedule == Done then [] else [Respond(call, env.respondAgain)]
      ensures said == told + if env.reschedule == Done then [] else [Failure("QUEUE_UNAVAILABLE")]
      ensures EndsAs(outcome, trace, call)
      ensures OwnTrace(trace, call, env.now)
    {
      FollowSnoc(config, start, before, Reschedule(call, due, env.reschedule), mark);
      trace := before + [Reschedule(call, due, env.reschedule)];
      if env.reschedule == Done { return HandledDeferred, trace, told; }
      outcome, trace, said := Finish(call, start, trace, told, Failure("QUEUE_UNAVAILABLE"), env.respondAgain, mark);
    }

    /** _finish outside the adapter's `try`: answered, or the handler throws */
    method Finish(call: nat, ghost start: Where, before: seq<Event>, told: seq<Answer>, answer: Answer, o: Outcome,
                  ghost mark: nat)
      returns (outcome: Handled, trace: seq<Event>, said: seq<Answer>)
      requires var w := Follow(config, start, before, mark); w.At? && CanRespond(w.pc) && !w.pc.Executing?
      requires NothingDone(before, call)
      ensures trace == before + [Respond(call, o)] && said == told + [answer]
      ensures outcome == if o == Done then HandledDone else HandlerThrew
      ensures EndsAs(outcome, trace, call)
      ensures Follow(config, start, trace, mark)
              == EndOf(outcome, Follow(config, start, before, mark).attempts, mark)
    {
      FollowSnoc(config, start, before, Respond(call, o), mark);
      trace := before + [Respond(call, o)];
      said := told + [answer];
      outcome := if o == Done then HandledDone else HandlerThrew;
    }

    /** _dispatch of one message: the handler, then XACK - exactly after an answer or a hand-over - then DECR, exactly
        after an answer whose XACK succeeded. The dispatch always comes to its end. */
    method DispatchMessage(call: nat, attempts: nat, env: Env, ack: Outcome, decr: Outcome, ghost mark: nat)
      returns (trace: seq<Event>, said: seq<Answer>)
      modifies this
      ensures active == old(active)
      ensures OwnTrace(trace, call, env.now)
      ensures Follow(config, At(Running, attempts), trace, mark) == Ended
      ensures exists handled, outcome :: EndsAs(outcome, handled, call) && trace == handled +
                match outcome
                case HandlerThrew => []
                case HandledDeferred => [XAck(call, ack)]
                case HandledDone => if ack == Done then [XAck(call, ack), Decr(call, decr)] else [XAck(call, ack)]
      ensures forall k :: 0 <= k < |trace| && trace[k].XAck? ==>
                var w := Follow(config, At(Running, attempts), trace[..k], mark);
                w.At? && (w.pc == Answered || w.pc == Deferred(mark))
    {
      var outcome, after;
      outcome, trace, said, after := HandleQueuedItem(call, attempts, env, mark);
      trace := Acknowledge(call, outcome, trace, At(Running, attempts), after, ack, decr, env.now, mark);
      HandlerNeverAcks(config, attempts, trace, mark);
    }

    method Acknowledge(call: nat, outcome: Handled, handled: seq<Event>, ghost start: Where, ghost attempts: nat,
                       ack: Outcome, decr: Outcome, ghost now: int, ghost mark: nat)
      returns (trace: seq<Event>)
      requires OwnTrace(handled, call, now)
      requires Follow(config, start, handled, mark) == EndOf(outcome, attempts, mark)
      ensures trace == handled +
                match outcome
                case HandlerThrew => []
                case HandledDeferred => [XAck(call, ack)]
                case HandledDone => if ack == Done then [XAck(call, ack), Decr(call, decr)] else [XAck(call, ack)]
      ensures Follow(config, start, trace, mark) == Ended && OwnTrace(trace, call, now)
    {
      trace := handled;
      if outcome != HandlerThrew {
        FollowSnoc(config, start, trace, XAck(call, ack), mark);
        OwnSnoc(trace, XAck(call, ack), call, now);
        trace := trace + [XAck(call, ack)];
        if ack == Done && outcome == HandledDone {
          FollowSnoc(config, start, trace, Decr(call, decr), mark);
          OwnSnoc(trace, Decr(call, decr), call, now);
          trace := trace + [Decr(call, decr)];
          assert trace == handled + [XAck(call, ack), Decr(call, decr)];
        }
      }
    }
  }

  /** No answer was given and no slot handed over yet. */
  ghost predicate NothingDone(es: seq<Event>, call: nat) {
    forall k :: 0 <= k < |es| ==> es[k] != Respond(call, Done) && !(es[k].Reschedule? && es[k].outcome == Done)
  }

  /** A dispatch that ACKs was answered or handed over at that point. */
  lemma {:induction false} HandlerNeverAcks(c: Config, attempts: nat, es: seq<Event>, mark: nat)
    requires Follow(c, At(Running, attempts), es, mark) != Stuck
    ensures forall k :: 0 <= k < |es| && es[k].XAck? ==>
              var w := Follow(c, At(Running, attempts), es[..k], mark);
              w.At? && (w.pc == Answered || w.pc == Deferred(mark))
    decreases |es|
  {
    if es != [] {
      var last := |es| - 1;
      HandlerNeverAcks(c, attempts, es[..last], mark);
      OnlyThisMark(c, attempts, es[..last], mark);
      forall k | 0 <= k < |es| && es[k].XAck?
        ensures var w := Follow(c, At(Running, attempts), es[..k], mark);
                w.At? && (w.pc == Answered || w.pc == Deferred(mark))
      {
        if k < last { assert es[..last][..k] == es[..k] && es[..last][k] == es[k]; }
      }
    }
  }

  lemma {:induction false} OnlyThisMark(c: Config, attempts: nat, es: seq<Event>, mark: nat)
    ensures var w := Follow(c, At(Running, attempts), es, mark); w.At? && w.pc.Deferred? ==> w.pc == Deferred(mark)
    decreases |es|
  {
    if es != [] { OnlyThisMark(c, attempts, es[..|es| - 1], mark); }
  }
}
