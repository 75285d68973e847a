/**
  What becomes of a call, told by the events alone: what each message, each timer and the end of the connection
  make of its promise, over every run.
 */
module ClientCalls {
  import opened JsText
  import opened ClientModel
  import opened ClientSafety

  /** The call of the pending request `r`, not settled yet */
  ghost predicate OpenCall(s: State, r: string, p: nat, waits: bool) {
    r in s.pending && s.pending[r].call == p && s.pending[r].waitForResult == waits && p !in s.settled
  }

  /** A call is entered with its timers: a deadline, and for a request an acceptance timer too. */
  lemma CallBegins(es: seq<Event>, r: string, waits: bool, written: bool)
    requires Allowed(INIT, es) && Run(INIT, es).open && FreshId(Run(INIT, es), r)
    ensures var s := Run(INIT, es); var s1, p := Apply(s, Begins(r, waits, written)), |s.calls|;
      && Enabled(s1, DeadlineFires(p)) && (Enabled(s1, AcceptTimerFires(p)) <==> waits)
      && (written ==> OpenCall(s1, r, p, waits) && s1.settled == s.settled)
      && (!written ==> s1.settled == s.settled[p := Failure("GATEWAY_NOT_CONNECTED")])
  {
    RunInv(INIT, es);
  }

  /** An accepted `send` resolves with its acceptance, and no timer of it is left. */
  lemma SendResolves(es: seq<Event>, r: string, p: nat, duplicateOf: Option<string>)
    requires Allowed(INIT, es) && OpenCall(Run(INIT, es), r, p, false)
    ensures var s1 := Apply(Run(INIT, es), ReceiveAccepted(r, duplicateOf));
      && p in s1.settled && s1.settled[p] == Accepted(r) && r !in s1.pending
      && !Enabled(s1, DeadlineFires(p)) && !Enabled(s1, AcceptTimerFires(p))
  {
    RunInv(INIT, es);
  }

  /** A result settles its request: with its body under its own id, or with the gateway's error code. */
  lemma ResultSettlesRequest(es: seq<Event>, r: string, p: nat, waits: bool, ok: bool, body: string, code: string)
    requires Allowed(INIT, es) && OpenCall(Run(INIT, es), r, p, waits) && (waits || !ok)
    ensures var s1 := Apply(Run(INIT, es), ReceiveResult(r, ok, body, code));
      && p in s1.settled && s1.settled[p] == (if ok then Success(r, None, body) else Failure(code))
      && r !in s1.pending && r !in s1.aliases
      && !Enabled(s1, DeadlineFires(p)) && !Enabled(s1, AcceptTimerFires(p))
  {
    RunInv(INIT, es);
    ResultOutcomes(Run(INIT, es), r, if ok then Success(r, None, body) else Failure(code));
  }

  // ---------------------------------------------------------------- accepted or not

  lemma CallsStay(s: State, e: Event)
    requires Enabled(s, e)
    ensures s.calls <= Apply(s, e).calls
  {
    if e.Begins? { } else if e.DeadlineFires? || e.AcceptTimerFires? || e.ReceiveAccepted? { }
    else if e.ReceiveResult? { } else { ConnectionBreaksNothing(s, e); }
  }

  /** An id once used is not used again ... */
  lemma UsedStays(s: State, e: Event, r: string)
    requires Enabled(s, e) && !FreshId(s, r)
    ensures !FreshId(Apply(s, e), r)
  {
    CallsStay(s, e);
    var i :| 0 <= i < |s.calls| && s.calls[i].requestId == r;
    assert Apply(s, e).calls[i].requestId == r;
  }

  lemma AcceptedEntry(s: State, e: Event, r: string)
    requires e.ReceiveAccepted? && r in Apply(s, e).pending
    ensures r in s.pending
    ensures e != ReceiveAccepted(r, None) ==> Apply(s, e).pending[r] == s.pending[r]
    ensures e == ReceiveAccepted(r, None) ==>
      Apply(s, e).pending[r] == if s.pending[r].waitForResult then s.pending[r].(accepted := true) else s.pending[r]
  {
  }

  lemma TimerEntry(s: State, e: Event, r: string)
    requires Enabled(s, e) && (e.DeadlineFires? || e.AcceptTimerFires? || e.ReceiveResult?) && r in Apply(s, e).pending
    ensures r in s.pending && Apply(s, e).pending[r] == s.pending[r]
  {
  }

  lemma ConnectionEntry(s: State, e: Event, r: string)
    requires Enabled(s, e) && !e.Begins? && !e.DeadlineFires? && !e.AcceptTimerFires? && !e.ReceiveResult?
    requires !e.ReceiveAccepted? && r in Apply(s, e).pending
    ensures r in s.pending && Apply(s, e).pending[r] == s.pending[r]
  {
  }

  /** ... so what left the table stays away, and an entry is marked accepted, once, by its message alone. */
  lemma EntryStep(s: State, e: Event, r: string)
    requires Enabled(s, e) && r in Apply(s, e).pending && (e.Begins? ==> e.requestId != r)
    ensures r in s.pending
    ensures e != ReceiveAccepted(r, None) ==> Apply(s, e).pending[r] == s.pending[r]
    ensures e == ReceiveAccepted(r, None) ==>
      Apply(s, e).pending[r] == if s.pending[r].waitForResult then s.pending[r].(accepted := true) else s.pending[r]
  {
    if e.Begins? { assert Apply(s, e).pending == s.pending[e.requestId := Apply(s, e).pending[e.requestId]]; }
    else if e.DeadlineFires? || e.AcceptTimerFires? || e.ReceiveResult? { TimerEntry(s, e, r); }
    else if e.ReceiveAccepted? { AcceptedEntry(s, e, r); }
    else { ConnectionEntry(s, e, r); }
  }

  lemma {:induction false} EntryOver(s: State, more: seq<Event>, r: string)
    requires Allowed(s, more) && !FreshId(s, r) && r in Run(s, more).pending
    ensures r in s.pending
    ensures ReceiveAccepted(r, None) !in more ==> Run(s, more).pending[r] == s.pending[r]
    ensures s.pending[r].accepted ==> Run(s, more).pending[r] == s.pending[r]
    decreases |more|
  {
    if more != [] {
      var s1 := Apply(s, more[0]);
      UsedStays(s, more[0], r);
      EntryOver(s1, more[1..], r);
      EntryStep(s, more[0], r);
    }
  }

  lemma PendingUsed(s: State, r: string)
    requires Inv(s) && r in s.pending
    ensures !FreshId(s, r)
  {
    assert EntryOk(s.calls, s.pending[r]);
  }

  /** A request that was accepted under its own id: nothing is left of its acceptance timer, and at its deadline,
      if it is still pending then, it is told that the result did not come. */
  lemma AcceptedTimesOut(es: seq<Event>, r: string, p: nat, more: seq<Event>)
    requires Allowed(INIT, es) && OpenCall(Run(INIT, es), r, p, true)
    requires Allowed(Apply(Run(INIT, es), ReceiveAccepted(r, None)), more)
    requires OpenCall(Run(Apply(Run(INIT, es), ReceiveAccepted(r, None)), more), r, p, true)
    ensures var s := Run(Apply(Run(INIT, es), ReceiveAccepted(r, None)), more);
      && Enabled(s, DeadlineFires(p))
      && Apply(s, DeadlineFires(p)).settled == s.settled[p := Failure("GATEWAY_RESULT_TIMEOUT")]
      && r !in Apply(s, DeadlineFires(p)).pending
  {
    var s0 := Run(INIT, es);
    var s1 := Apply(s0, ReceiveAccepted(r, None));
    RunInv(INIT, es);
    InvStep(s0, ReceiveAccepted(r, None));
    RunInv(s1, more);
    PendingUsed(s1, r);
    EntryOver(s1, more, r);
    TimerArmed(Run(s1, more), r);
  }

  lemma TimerArmed(s: State, r: string)
    requires Inv(s) && r in s.pending && s.pending[r].call !in s.settled
    ensures s.pending[r].call in s.deadline && s.pending[r].call < |s.calls|
    ensures s.calls[s.pending[r].call] == Call(r, s.pending[r].waitForResult)
  {
    assert s.pending[r].call in PendingCalls(s.pending);
    NotBroken(s);
  }

  /** Requests in the table are accepted, or have their acceptance timer. */
  ghost predicate AcceptArmed(s: State) {
    forall r :: r in s.pending && s.pending[r].waitForResult && !s.pending[r].accepted ==> s.pending[r].call in s.accept
  }

  lemma AcceptKept(s: State, e: Event, r: string)
    requires Inv(s) && Enabled(s, e) && (e.Begins? ==> FreshId(s, e.requestId))
    requires AcceptArmed(s) && r in s.pending && r in Apply(s, e).pending
    requires s.pending[r].waitForResult && !s.pending[r].accepted && !e.ReceiveAccepted?
    ensures s.pending[r].call in Apply(s, e).accept
  {
    assert EntryOk(s.calls, s.pending[r]);
    if e.ReceiveResult? { ResultKeepsAccept(s, e, r); }
    else if e.AcceptTimerFires? { TimerKeepsAccept(s, e.call, r); }
    else { OtherKeepsAccept(s, e, r); }
  }

  lemma ResultKeepsAccept(s: State, e: Event, r: string)
    requires Inv(s) && e.ReceiveResult? && r in s.pending && r in Apply(s, e).pending
    requires s.pending[r].call in s.accept
    ensures s.pending[r].call in Apply(s, e).accept
  {
    if e.requestId in s.pending { assert EntryOk(s.calls, s.pending[e.requestId]); }
  }

  lemma TimerKeepsAccept(s: State, p: nat, r: string)
    requires Inv(s) && Enabled(s, AcceptTimerFires(p)) && r in s.pending && !s.pending[r].accepted
    requires s.pending[r].call in s.accept && r in Apply(s, AcceptTimerFires(p)).pending
    ensures s.pending[r].call in Apply(s, AcceptTimerFires(p)).accept
  {
    assert EntryOk(s.calls, s.pending[r]);
  }

  lemma OtherKeepsAccept(s: State, e: Event, r: string)
    requires Enabled(s, e) && r in s.pending && r in Apply(s, e).pending && s.pending[r].call in s.accept
    requires !e.ReceiveAccepted? && !e.ReceiveResult? && !e.AcceptTimerFires?
    ensures s.pending[r].call in Apply(s, e).accept
  {
  }

  lemma AcceptArmedStep(s: State, e: Event)
    requires Inv(s) && Enabled(s, e) && (e.Begins? ==> FreshId(s, e.requestId)) && AcceptArmed(s)
    ensures AcceptArmed(Apply(s, e))
  {
    var s1 := Apply(s, e);
    forall r | r in s1.pending && s1.pending[r].waitForResult && !s1.pending[r].accepted
      ensures s1.pending[r].call in s1.accept
    {
      if !(e.Begins? && e.requestId == r) {
        EntryStep(s, e, r);
        if e.ReceiveAccepted? { assert EntryOk(s.calls, s.pending[r]); } else { AcceptKept(s, e, r); }
      }
    }
  }

  lemma {:induction false} RunAcceptArmed(s: State, es: seq<Event>)
    requires Inv(s) && AcceptArmed(s) && Allowed(s, es)
    ensures AcceptArmed(Run(s, es))
    decreases |es|
  {
    if es != [] {
      InvStep(s, es[0]);
      AcceptArmedStep(s, es[0]);
      RunAcceptArmed(Apply(s, es[0]), es[1..]);
    }
  }

  predicate NotAccepted(s: State, r: string) { r in s.pending ==> !s.pending[r].accepted }

  lemma {:induction false} OnlyMessageAccepts(s: State, es: seq<Event>, r: string)
    requires NotAccepted(s, r) && Allowed(s, es) && ReceiveAccepted(r, None) !in es
    ensures NotAccepted(Run(s, es), r)
    decreases |es|
  {
    if es != [] {
      var s1 := Apply(s, es[0]);
      if r in s1.pending && !(es[0].Begins? && es[0].requestId == r) { EntryStep(s, es[0], r); }
      OnlyMessageAccepts(s1, es[1..], r);
    }
  }

  /** A request that never was accepted has both timers: the one says so, the other that the deadline passed. */
  lemma NeverAcceptedTimesOut(es: seq<Event>, r: string, p: nat)
    requires Allowed(INIT, es) && OpenCall(Run(INIT, es), r, p, true) && ReceiveAccepted(r, None) !in es
    ensures var s := Run(INIT, es);
      && Enabled(s, DeadlineFires(p)) && Enabled(s, AcceptTimerFires(p))
      && Apply(s, DeadlineFires(p)).settled == s.settled[p := Failure("DEADLINE_EXCEEDED")]
      && Apply(s, AcceptTimerFires(p)).settled == s.settled[p := Failure("GATEWAY_ACCEPT_TIMEOUT")]
      && r !in Apply(s, DeadlineFires(p)).pending && r !in Apply(s, AcceptTimerFires(p)).pending
      && !Enabled(Apply(s, AcceptTimerFires(p)), DeadlineFires(p))
  {
    RunInv(INIT, es);
    RunAcceptArmed(INIT, es);
    OnlyMessageAccepts(INIT, es, r);
    TimerArmed(Run(INIT, es), r);
  }

  // ---------------------------------------------------------------- duplicates

  /** What is settled stays so. */
  lemma SettledStays(s: State, e: Event, p: nat)
    requires Inv(s) && Enabled(s, e) && p in s.settled
    ensures p in Apply(s, e).settled && Apply(s, e).settled[p] == s.settled[p]
  {
    if e.ReceiveResult? && e.requestId in s.pending && !Throws(s, e.requestId, ResultOf(e)) {
      ResultOutcomes(s, e.requestId, ResultOf(e));
    }
  }

  lemma {:induction false} SettledOver(s: State, more: seq<Event>, p: nat)
    requires Inv(s) && Allowed(s, more) && p in s.settled
    ensures p in Run(s, more).settled
    decreases |more|
  {
    if more != [] {
      SettledStays(s, more[0], p);
      InvStep(s, more[0]);
      SettledOver(Apply(s, more[0]), more[1..], p);
    }
  }

  /** No result of `k` arrives in these events. */
  predicate NoResultOf(more: seq<Event>, k: string) {
    forall i :: 0 <= i < |more| && more[i].ReceiveResult? ==> more[i].requestId != k
  }

  /** A filed duplicate stays where it is until its original's result or the end of the connection settles it. */
  lemma FiledStep(s: State, e: Event, k: string, i: nat)
    requires Inv(s) && Enabled(s, e) && i < |Filed(s.aliases, k)| && (e.ReceiveResult? ==> e.requestId != k)
    requires Filed(s.aliases, k)[i].call !in Apply(s, e).settled
    ensures Filed(s.aliases, k) <= Filed(Apply(s, e).aliases, k)
  {
    if Rejects(s, e) { RejectedFiled(s, e, k, i); }
    else if e.ReceiveAccepted? { AcceptedFiled(s, e, k); }
    else if e.ReceiveResult? { ResultFiled(s, e, k); }
    else { OtherFiled(s, e); }
  }

  lemma AcceptedFiled(s: State, e: Event, k: string)
    requires e.ReceiveAccepted?
    ensures Filed(s.aliases, k) <= Filed(Apply(s, e).aliases, k)
  {
  }

  lemma ResultFiled(s: State, e: Event, k: string)
    requires e.ReceiveResult? && e.requestId != k
    ensures Filed(Apply(s, e).aliases, k) == Filed(s.aliases, k)
  {
  }

  lemma OtherFiled(s: State, e: Event)
    requires Enabled(s, e) && !Rejects(s, e) && !e.ReceiveAccepted? && !e.ReceiveResult?
    ensures Apply(s, e).aliases == s.aliases
  {
  }

  lemma RejectedFiled(s: State, e: Event, k: string, i: nat)
    requires Inv(s) && Enabled(s, e) && Rejects(s, e) && i < |Filed(s.aliases, k)|
    ensures Filed(s.aliases, k)[i].call in Apply(s, e).settled
  {
    assert s.aliases[k][i].call in AliasCalls(s.aliases);
  }

  lemma {:induction false} FiledOver(s: State, more: seq<Event>, k: string, i: nat)
    requires Inv(s) && Allowed(s, more) && NoResultOf(more, k) && i < |Filed(s.aliases, k)|
    requires Filed(s.aliases, k)[i].call !in Run(s, more).settled
    ensures Filed(s.aliases, k) <= Filed(Run(s, more).aliases, k)
    decreases |more|
  {
    if more != [] {
      var s1, p := Apply(s, more[0]), Filed(s.aliases, k)[i].call;
      InvStep(s, more[0]);
      if p in s1.settled { SettledOver(s1, more[1..], p); }
      FiledStep(s, more[0], k, i);
      assert NoResultOf(more[1..], k) by {
        forall j | 0 <= j < |more[1..]| && more[1..][j].ReceiveResult? ensures more[1..][j].requestId != k {
          assert more[1..][j] == more[j + 1];
        }
      }
      FiledOver(s1, more[1..], k, i);
    }
  }

  /** A request accepted as a duplicate of `d` that is still open when the result of `d` comes is settled by it:
      with the same body, under its own id and naming `d`, or with the same error. */
  lemma DuplicateFollowsOriginal(es: seq<Event>, r: string, p: nat, d: string, more: seq<Event>,
                                 ok: bool, body: string, code: string)
    requires Allowed(INIT, es) && OpenCall(Run(INIT, es), r, p, true)
    requires Allowed(Apply(Run(INIT, es), ReceiveAccepted(r, Some(d))), more) && NoResultOf(more, d)
    requires var s := Run(Apply(Run(INIT, es), ReceiveAccepted(r, Some(d))), more);
      p !in s.settled && d in s.pending && (s.pending[d].waitForResult || !ok)
    ensures var s := Run(Apply(Run(INIT, es), ReceiveAccepted(r, Some(d))), more);
      var s' := Apply(s, ReceiveResult(d, ok, body, code));
      && p in s'.settled
      && s'.settled[p] == (if ok then Success(r, Some(d), body) else Failure(code))
      && !Enabled(s', DeadlineFires(p))
  {
    var s0 := Run(INIT, es);
    var s1 := Apply(s0, ReceiveAccepted(r, Some(d)));
    RunInv(INIT, es);
    InvStep(s0, ReceiveAccepted(r, Some(d)));
    var i := |Filed(s0.aliases, d)|;
    assert Filed(s1.aliases, d)[i] == s0.pending[r].(accepted := true);
    assert EntryOk(s0.calls, s0.pending[r]);
    FiledOver(s1, more, d, i);
    RunInv(s1, more);
    var s := Run(s1, more);
    FiledSettles(s, d, i, ok, body, code);
  }

  lemma FiledSettles(s: State, d: string, i: nat, ok: bool, body: string, code: string)
    requires Inv(s) && i < |Filed(s.aliases, d)| && Filed(s.aliases, d)[i].call !in s.settled
    requires d in s.pending && (s.pending[d].waitForResult || !ok)
    ensures var alias, s' := Filed(s.aliases, d)[i], Apply(s, ReceiveResult(d, ok, body, code));
      && alias.call in s'.settled && alias.call !in s'.deadline
      && s'.settled[alias.call] == if ok then Success(alias.requestId, Some(d), body) else Failure(code)
  {
    var o := if ok then Success(d, None, body) else Failure(code);
    ResultOutcomes(s, d, o);
    assert Filed(s.aliases, d)[i].call in CallsOf(Filed(s.aliases, d));
    assert Apply(s, ReceiveResult(d, ok, body, code)) == OnResult(s, d, o);
  }

  // ---------------------------------------------------------------- the end of the connection

  lemma RejectTells(s: State, code: string, p: nat)
    requires Inv(s) && s.broken == {} && s.dropped == {} && p < |s.calls| && p !in s.settled
    ensures p in RejectPending(s, code).settled && RejectPending(s, code).settled[p] == Failure(code)
  {
    assert p in FiledCalls(s);
    RejectStep(s, code);
  }

  /** `close` and a lost connection tell every open call so. */
  lemma EndSettles(es: seq<Event>, p: nat)
    requires Allowed(INIT, es) && AcceptanceFirst(INIT, es)
    requires p < |Run(INIT, es).calls| && p !in Run(INIT, es).settled
    ensures var s := Run(INIT, es);
      && p in Apply(s, CloseCalled).settled && Apply(s, CloseCalled).settled[p] == Failure("GATEWAY_CLOSED")
      && (s.phase == Connected ==>
            p in Apply(s, SocketClosed).settled
            && Apply(s, SocketClosed).settled[p] == Failure("GATEWAY_CONNECTION_LOST"))
  {
    RunInv(INIT, es);
    NothingBreaks(INIT, es);
    CloseTells(Run(INIT, es), p);
    if Run(INIT, es).phase == Connected { LossTells(Run(INIT, es), p); }
  }

  lemma CloseTells(s: State, p: nat)
    requires Inv(s) && s.broken == {} && s.dropped == {} && p < |s.calls| && p !in s.settled
    ensures p in Apply(s, CloseCalled).settled && Apply(s, CloseCalled).settled[p] == Failure("GATEWAY_CLOSED")
  {
    RejectTells(s, "GATEWAY_CLOSED", p);
  }

  lemma LossTells(s: State, p: nat)
    requires Inv(s) && s.broken == {} && s.dropped == {} && p < |s.calls| && p !in s.settled && s.phase == Connected
    ensures p in Apply(s, SocketClosed).settled
    ensures Apply(s, SocketClosed).settled[p] == Failure("GATEWAY_CONNECTION_LOST")
  {
    var s1 := s.(open := false, phase := Disconnected);
    assert Inv(s1);
    RejectTells(s1, "GATEWAY_CONNECTION_LOST", p);
  }

  /** The client is closing, and nothing is connected or about to be. */
  ghost predicate Shut(s: State) { s.closing && !s.open && s.phase != Connecting && s.phase != Connected }

  lemma {:induction false} StaysShut(s: State, more: seq<Event>)
    requires Shut(s) && Allowed(s, more)
    ensures Shut(Run(s, more)) && Run(s, more).calls == s.calls
    decreases |more|
  {
    if more != [] {
      ShutStep(s, more[0]);
      StaysShut(Apply(s, more[0]), more[1..]);
    }
  }

  lemma ShutStep(s: State, e: Event)
    requires Shut(s) && Enabled(s, e)
    ensures Shut(Apply(s, e)) && Apply(s, e).calls == s.calls
  {
    if e.DeadlineFires? || e.AcceptTimerFires? || e.ReceiveAccepted? || e.ReceiveResult? { MessagesKeepPhase(s, e); }
  }

  lemma MessagesKeepPhase(s: State, e: Event)
    requires Enabled(s, e) && (e.DeadlineFires? || e.AcceptTimerFires? || e.ReceiveAccepted? || e.ReceiveResult?)
    ensures var s' := Apply(s, e);
      s'.phase == s.phase && s'.open == s.open && s'.closing == s.closing && s'.calls == s.calls
  {
  }

  /** After `close` no connection is made and no call begins, whatever comes. */
  lemma ClosedForGood(es: seq<Event>, more: seq<Event>, r: string, waits: bool, written: bool)
    requires Allowed(INIT, es) && Allowed(Apply(Run(INIT, es), CloseCalled), more)
    ensures var s := Run(Apply(Run(INIT, es), CloseCalled), more);
      && Apply(Run(INIT, es), CloseCalled).phase == Closed
      && !Enabled(s, ConnectBegins) && !Enabled(s, HelloAck) && !Enabled(s, Begins(r, waits, written))
      && s.calls == Run(INIT, es).calls
  {
    StaysShut(Apply(Run(INIT, es), CloseCalled), more);
  }
}
