/**
  No orphaned promise: over every run with request ids of their own, an unsettled call has an armed
  timer, unless it is a `send` that met its success before its acceptance; such a call never settles.
 */
module ClientSafety {
  import opened JsText
  import opened ClientModel

  /** The tables name calls consistently. */
  ghost predicate TablesOk(calls: seq<Call>, pending: map<string, Entry>, aliases: map<string, seq<Entry>>) {
    && (forall r :: r in pending ==> EntryOk(calls, pending[r]) && pending[r].requestId == r)
    && (forall k, i :: k in aliases && 0 <= i < |aliases[k]| ==>
          EntryOk(calls, aliases[k][i]) && aliases[k][i].waitForResult && aliases[k][i].requestId !in pending)
  }

  predicate EntryOk(calls: seq<Call>, e: Entry) {
    e.call < |calls| && calls[e.call] == Call(e.requestId, e.waitForResult)
  }

  predicate DistinctIds(calls: seq<Call>) {
    forall i, j :: 0 <= i < j < |calls| ==> calls[i].requestId != calls[j].requestId
  }

  ghost predicate TimersOk(calls: seq<Call>, deadline: set<nat>, accept: set<nat>, settled: map<nat, Outcome>) {
    && (forall p :: p in deadline || p in accept ==> p < |calls|)
    && (forall p :: p in accept ==> calls[p].waitForResult)
    && (forall p :: p in settled ==> p < |calls|)
  }

  /** What the promises of the calls have left to them. `filed` are the calls in the two tables. */
  ghost predicate PromisesOk(calls: seq<Call>, filed: set<nat>, deadline: set<nat>, accept: set<nat>,
                             settled: map<nat, Outcome>, broken: set<nat>, dropped: set<nat>) {
    && (forall p: nat :: p < |calls| && p !in settled ==> p in deadline || p in broken)
    && (forall p: nat :: p < |calls| && p !in settled ==> p in filed || p in broken || p in dropped)
    && (forall p :: p in broken ==> Gone(calls, filed, deadline, accept, settled, p))
  }

  /** Nothing refers to the unsettled send `p` any more. */
  predicate Gone(calls: seq<Call>, filed: set<nat>, deadline: set<nat>, accept: set<nat>, settled: map<nat, Outcome>,
                 p: nat) {
    p < |calls| && !calls[p].waitForResult && p !in settled && p !in deadline && p !in accept && p !in filed
  }

  function FiledCalls(s: State): set<nat> { PendingCalls(s.pending) + AliasCalls(s.aliases) }

  ghost predicate Inv(s: State) {
    && DistinctIds(s.calls)
    && TablesOk(s.calls, s.pending, s.aliases)
    && TimersOk(s.calls, s.deadline, s.accept, s.settled)
    && PromisesOk(s.calls, FiledCalls(s), s.deadline, s.accept, s.settled, s.broken, s.dropped)
  }

  // ---------------------------------------------------------------- settling

  /** Some entry of `aliases` belongs to `p` and gives it `o`. */
  ghost predicate Gives(aliases: seq<Entry>, original: string, result: Outcome, p: nat, o: Outcome) {
    exists i :: 0 <= i < |aliases| && aliases[i].call == p && o == ForAlias(aliases[i], original, result)
  }

  lemma CallsOfHead(aliases: seq<Entry>)
    requires aliases != []
    ensures CallsOf(aliases) == {aliases[0].call} + CallsOf(aliases[1..])
  {
    forall p | p in CallsOf(aliases) ensures p in {aliases[0].call} + CallsOf(aliases[1..]) {
      var i :| 0 <= i < |aliases| && aliases[i].call == p;
      assert i > 0 ==> aliases[1..][i - 1] == aliases[i];
    }
    assert forall i :: 0 <= i < |aliases[1..]| ==> aliases[1..][i] == aliases[i + 1];
  }

  lemma GivesTail(aliases: seq<Entry>, original: string, result: Outcome, p: nat, o: Outcome)
    requires aliases != [] && Gives(aliases[1..], original, result, p, o)
    ensures Gives(aliases, original, result, p, o)
  {
    var j :| 0 <= j < |aliases[1..]| && aliases[1..][j].call == p && o == ForAlias(aliases[1..][j], original, result);
    assert aliases[j + 1] == aliases[1..][j];
  }

  /** Every duplicate is settled; one not settled before has the original's outcome under its own id. */
  lemma {:induction false} AliasesSettle(settled: map<nat, Outcome>, aliases: seq<Entry>, original: string,
                                         result: Outcome)
    ensures var after := SettleAliases(settled, aliases, original, result);
      && after.Keys == settled.Keys + CallsOf(aliases)
      && (forall p :: p in settled ==> after[p] == settled[p])
      && (forall p :: p in after && p !in settled ==> Gives(aliases, original, result, p, after[p]))
    decreases |aliases|
  {
    if aliases != [] {
      var first := Settle(settled, aliases[0].call, ForAlias(aliases[0], original, result));
      AliasesSettle(first, aliases[1..], original, result);
      CallsOfHead(aliases);
      var after := SettleAliases(settled, aliases, original, result);
      forall p | p in after && p !in settled ensures Gives(aliases, original, result, p, after[p]) {
        if p !in first { GivesTail(aliases, original, result, p, after[p]); }
      }
    }
  }

  // ---------------------------------------------------------------- the tables under each change

  lemma PendingDrop(calls: seq<Call>, pending: map<string, Entry>, aliases: map<string, seq<Entry>>, r: string)
    requires DistinctIds(calls) && TablesOk(calls, pending, aliases)
    ensures TablesOk(calls, pending - {r}, aliases)
    ensures r !in pending ==> pending - {r} == pending
    ensures r in pending ==> pending[r].call in PendingCalls(pending)
    ensures r in pending ==>
      PendingCalls(pending - {r}) + AliasCalls(aliases)
      == PendingCalls(pending) + AliasCalls(aliases) - {pending[r].call}
  {
    forall p | p in PendingCalls(pending) && (r in pending ==> p != pending[r].call)
      ensures p in PendingCalls(pending - {r}) {
      var q :| q in pending && pending[q].call == p;
      assert q in pending - {r};
    }
  }

  lemma PendingAdd(calls: seq<Call>, pending: map<string, Entry>, aliases: map<string, seq<Entry>>, c: Call)
    requires TablesOk(calls, pending, aliases)
    requires forall i :: 0 <= i < |calls| ==> calls[i].requestId != c.requestId
    ensures var after := pending[c.requestId := Entry(|calls|, c.requestId, c.waitForResult, false)];
      TablesOk(calls + [c], after, aliases) && PendingCalls(after) == PendingCalls(pending) + {|calls|}
  {
    var after := pending[c.requestId := Entry(|calls|, c.requestId, c.waitForResult, false)];
    assert c.requestId !in pending;
    assert after[c.requestId].call == |calls|;
    forall p | p in PendingCalls(pending) ensures p in PendingCalls(after) {
      var q :| q in pending && pending[q].call == p;
      assert after[q].call == p;
    }
  }

  lemma PendingMark(calls: seq<Call>, pending: map<string, Entry>, aliases: map<string, seq<Entry>>, r: string)
    requires TablesOk(calls, pending, aliases) && r in pending
    ensures var after := pending[r := pending[r].(accepted := true)];
      TablesOk(calls, after, aliases) && PendingCalls(after) == PendingCalls(pending)
  {
    var after := pending[r := pending[r].(accepted := true)];
    forall p | p in PendingCalls(pending) ensures p in PendingCalls(after) {
      var q :| q in pending && pending[q].call == p;
      assert after[q].call == p;
    }
    forall p | p in PendingCalls(after) ensures p in PendingCalls(pending) {
      var q :| q in after && after[q].call == p;
      assert pending[q].call == p;
    }
  }

  lemma AliasDrop(calls: seq<Call>, pending: map<string, Entry>, aliases: map<string, seq<Entry>>, k: string)
    requires TablesOk(calls, pending, aliases)
    ensures TablesOk(calls, pending, aliases - {k})
    ensures AliasCalls(aliases) == AliasCalls(aliases - {k}) + CallsOf(Filed(aliases, k))
  {
    forall p | p in AliasCalls(aliases) ensures p in AliasCalls(aliases - {k}) + CallsOf(Filed(aliases, k)) {
      var q, i :| q in aliases && 0 <= i < |aliases[q]| && aliases[q][i].call == p;
      if q != k {
        assert (aliases - {k})[q] == aliases[q];
        assert p in AliasCalls(aliases - {k});
      } else {
        assert Filed(aliases, k)[i].call == p;
      }
    }
  }

  lemma AliasAdd(calls: seq<Call>, pending: map<string, Entry>, aliases: map<string, seq<Entry>>, k: string, e: Entry)
    requires TablesOk(calls, pending, aliases) && EntryOk(calls, e) && e.waitForResult && e.requestId !in pending
    ensures var after := aliases[k := Filed(aliases, k) + [e]];
      TablesOk(calls, pending, after) && AliasCalls(after) == AliasCalls(aliases) + {e.call}
  {
    var after := aliases[k := Filed(aliases, k) + [e]];
    assert after[k][|Filed(aliases, k)|] == e;
    forall p | p in AliasCalls(aliases) ensures p in AliasCalls(after) {
      var q, i :| q in aliases && 0 <= i < |aliases[q]| && aliases[q][i].call == p;
      assert after[q][i] == aliases[q][i];
    }
    forall q, i | q in after && 0 <= i < |after[q]|
      ensures after[q][i] == e || (q in aliases && i < |aliases[q]| && after[q][i] == aliases[q][i])
    {
    }
  }

  // ---------------------------------------------------------------- the promises under each change

  /** Calls may lose their timers and entries together with being settled. */
  lemma Settles(calls: seq<Call>, filed: set<nat>, filed': set<nat>, deadline: set<nat>, deadline': set<nat>,
                accept: set<nat>, accept': set<nat>, settled: map<nat, Outcome>, settled': map<nat, Outcome>,
                broken: set<nat>, dropped: set<nat>, x: set<nat>)
    requires PromisesOk(calls, filed, deadline, accept, settled, broken, dropped)
    requires settled'.Keys == settled.Keys + x && x !! broken
    requires filed - x <= filed' <= filed && deadline - x <= deadline' <= deadline && accept' <= accept
    ensures PromisesOk(calls, filed', deadline', accept', settled', broken, dropped)
  {
  }

  /** No broken send is filed or timed. */
  lemma NotBroken(s: State)
    requires Inv(s)
    ensures FiledCalls(s) !! s.broken && s.deadline !! s.broken && s.accept !! s.broken
  {
  }

  // ---------------------------------------------------------------- steps

  lemma BeginStep(s: State, r: string, waits: bool, written: bool)
    requires Inv(s) && FreshId(s, r)
    ensures Inv(Begin(s, r, waits, written))
  {
    PendingAdd(s.calls, s.pending, s.aliases, Call(r, waits));
    BeginPromises(s.calls, Call(r, waits), FiledCalls(s), s.deadline, s.accept, s.settled,
                  Begin(s, r, waits, written).settled, s.broken, s.dropped);
    assert FiledCalls(Begin(s, r, waits, written)) == FiledCalls(s) + {|s.calls|};
  }

  lemma BeginPromises(calls: seq<Call>, c: Call, filed: set<nat>, deadline: set<nat>, accept: set<nat>,
                      settled: map<nat, Outcome>, settled': map<nat, Outcome>, broken: set<nat>, dropped: set<nat>)
    requires PromisesOk(calls, filed, deadline, accept, settled, broken, dropped)
    requires settled.Keys <= settled'.Keys <= settled.Keys + {|calls|}
    ensures PromisesOk(calls + [c], filed + {|calls|}, deadline + {|calls|},
                       if c.waitForResult then accept + {|calls|} else accept, settled', broken, dropped)
  {
  }

  lemma DeadlineStep(s: State, p: nat)
    requires Inv(s) && p in s.deadline
    ensures Inv(OnDeadline(s, p)) && p in OnDeadline(s, p).settled
  {
    var r, s' := s.calls[p].requestId, OnDeadline(s, p);
    assert r in s.pending ==> s.pending[r].call == p;
    PendingDrop(s.calls, s.pending, s.aliases, r);
    NotBroken(s);
    Settles(s.calls, FiledCalls(s), FiledCalls(s'), s.deadline, s'.deadline, s.accept, s'.accept,
            s.settled, s'.settled, s.broken, s.dropped, {p});
  }

  lemma AcceptTimeoutStep(s: State, p: nat)
    requires Inv(s) && p in s.accept
    requires var r := s.calls[p].requestId; r in s.pending && !s.pending[r].accepted
    ensures Inv(OnAcceptTimer(s, p))
  {
    var r, s' := s.calls[p].requestId, OnAcceptTimer(s, p);
    assert s.pending[r].call == p;
    PendingDrop(s.calls, s.pending, s.aliases, r);
    NotBroken(s);
    Settles(s.calls, FiledCalls(s), FiledCalls(s'), s.deadline, s'.deadline, s.accept, s'.accept,
            s.settled, s'.settled, s.broken, s.dropped, {p});
  }

  lemma AcceptTimerStep(s: State, p: nat)
    requires Inv(s) && p in s.accept
    ensures Inv(OnAcceptTimer(s, p))
  {
    var r, s' := s.calls[p].requestId, OnAcceptTimer(s, p);
    if r in s.pending && !s.pending[r].accepted {
      AcceptTimeoutStep(s, p);
    } else {
      Settles(s.calls, FiledCalls(s), FiledCalls(s'), s.deadline, s'.deadline, s.accept, s'.accept,
              s.settled, s'.settled, s.broken, s.dropped, {});
    }
  }

  /** `accepted` for a request that waits on: its entry is marked, or filed under the original, and so the call
      stays filed. */
  lemma WaitingStaysFiled(s: State, r: string, duplicateOf: Option<string>)
    requires Inv(s) && r in s.pending && s.pending[r].waitForResult
    ensures var s' := OnAccepted(s, r, duplicateOf);
      TablesOk(s.calls, s'.pending, s'.aliases) && FiledCalls(s') == FiledCalls(s)
  {
    var e := s.pending[r];
    if duplicateOf.None? {
      PendingMark(s.calls, s.pending, s.aliases, r);
    } else {
      PendingDrop(s.calls, s.pending, s.aliases, r);
      AliasAdd(s.calls, s.pending - {r}, s.aliases, duplicateOf.value, e.(accepted := true));
    }
  }

  lemma WaitingStep(s: State, r: string, duplicateOf: Option<string>)
    requires Inv(s) && r in s.pending && s.pending[r].waitForResult
    ensures Inv(OnAccepted(s, r, duplicateOf))
  {
    var s' := OnAccepted(s, r, duplicateOf);
    WaitingStaysFiled(s, r, duplicateOf);
    Settles(s.calls, FiledCalls(s), FiledCalls(s'), s.deadline, s'.deadline, s.accept, s'.accept,
            s.settled, s'.settled, s.broken, s.dropped, {});
  }

  lemma AcceptedStep(s: State, r: string, duplicateOf: Option<string>)
    requires Inv(s)
    ensures Inv(OnAccepted(s, r, duplicateOf))
  {
    if r in s.pending {
      if s.pending[r].waitForResult {
        WaitingStep(s, r, duplicateOf);
      } else {
        var s' := OnAccepted(s, r, duplicateOf);
        PendingDrop(s.calls, s.pending, s.aliases, r);
        NotBroken(s);
        Settles(s.calls, FiledCalls(s), FiledCalls(s'), s.deadline, s'.deadline, s.accept, s'.accept,
                s.settled, s'.settled, s.broken, s.dropped, {s.pending[r].call});
      }
    }
  }

  /** A result settles the call and every duplicate filed under it, each not settled before with the
      same outcome, a success under its own request id; nothing else is settled or changed. */
  lemma ResultOutcomes(s: State, r: string, o: Outcome)
    requires Inv(s) && r in s.pending && !Throws(s, r, o)
    ensures var s', e, aliases := OnResult(s, r, o), s.pending[r], Filed(s.aliases, r);
      && s'.settled.Keys == s.settled.Keys + {e.call} + CallsOf(aliases)
      && (forall p :: p in s.settled ==> s'.settled[p] == s.settled[p])
      && (e.call !in s.settled ==> s'.settled[e.call] == o)
      && (forall i :: 0 <= i < |aliases| && aliases[i].call !in s.settled ==>
            s'.settled[aliases[i].call] == ForAlias(aliases[i], r, o))
  {
    var e, aliases := s.pending[r], Filed(s.aliases, r);
    AliasesSettle(Settle(s.settled, e.call, o), aliases, r, o);
    forall i | 0 <= i < |aliases| ensures EntryOk(s.calls, aliases[i]) && aliases[i].call != e.call {
      assert aliases[i] == s.aliases[r][i];
    }
    EachGets(s.calls, Settle(s.settled, e.call, o), aliases, r, o);
  }

  /** Entries of one call agree, so each of them gets its own outcome. */
  lemma EachGets(calls: seq<Call>, first: map<nat, Outcome>, aliases: seq<Entry>, r: string, o: Outcome)
    requires forall i :: 0 <= i < |aliases| ==> EntryOk(calls, aliases[i])
    ensures forall i :: 0 <= i < |aliases| && aliases[i].call !in first ==>
      var after := SettleAliases(first, aliases, r, o);
      aliases[i].call in after && after[aliases[i].call] == ForAlias(aliases[i], r, o)
  {
    AliasesSettle(first, aliases, r, o);
    var after := SettleAliases(first, aliases, r, o);
    forall i | 0 <= i < |aliases| && aliases[i].call !in first
      ensures aliases[i].call in after && after[aliases[i].call] == ForAlias(aliases[i], r, o)
    {
      assert aliases[i].call in CallsOf(aliases);
      assert Gives(aliases, r, o, aliases[i].call, after[aliases[i].call]);
      var j :| 0 <= j < |aliases| && aliases[j].call == aliases[i].call
               && after[aliases[i].call] == ForAlias(aliases[j], r, o);
    }
  }

  /** The entry and its duplicates leave the tables, and nobody else does. */
  lemma ResultUnfiles(s: State, r: string, x: set<nat>)
    requires Inv(s) && r in s.pending && x == {s.pending[r].call} + CallsOf(Filed(s.aliases, r))
    ensures TablesOk(s.calls, s.pending - {r}, s.aliases - {r})
    ensures var filed := PendingCalls(s.pending - {r}) + AliasCalls(s.aliases - {r});
      FiledCalls(s) - x <= filed <= FiledCalls(s)
  {
    PendingDrop(s.calls, s.pending, s.aliases, r);
    AliasDrop(s.calls, s.pending - {r}, s.aliases, r);
  }

  lemma ResultSettles(s: State, r: string, o: Outcome)
    requires Inv(s) && r in s.pending && !Throws(s, r, o)
    ensures Inv(OnResult(s, r, o))
  {
    var s', x := OnResult(s, r, o), {s.pending[r].call} + CallsOf(Filed(s.aliases, r));
    ResultOutcomes(s, r, o);
    ResultUnfiles(s, r, x);
    NotBroken(s);
    SettledCalls(s, r, x);
    Settles(s.calls, FiledCalls(s), FiledCalls(s'), s.deadline, s'.deadline, s.accept, s'.accept,
            s.settled, s'.settled, s.broken, s.dropped, x);
    assert TimersOk(s.calls, s'.deadline, s'.accept, s'.settled);
  }

  lemma SettledCalls(s: State, r: string, x: set<nat>)
    requires Inv(s) && r in s.pending && x == {s.pending[r].call} + CallsOf(Filed(s.aliases, r))
    ensures x <= FiledCalls(s) && forall p :: p in x ==> p < |s.calls|
  {
    assert s.pending[r].call in PendingCalls(s.pending);
    forall p | p in CallsOf(Filed(s.aliases, r)) ensures p in AliasCalls(s.aliases) && p < |s.calls| {
      var i :| 0 <= i < |Filed(s.aliases, r)| && Filed(s.aliases, r)[i].call == p;
      assert s.aliases[r][i].call == p;
    }
  }

  /** A send met by its success before its acceptance loses timer and entry and stays unsettled. */
  lemma ResultBreaks(s: State, r: string, o: Outcome)
    requires Inv(s) && Throws(s, r, o)
    ensures Inv(OnResult(s, r, o))
  {
    var s', p := OnResult(s, r, o), s.pending[r].call;
    PendingDrop(s.calls, s.pending, s.aliases, r);
    AliasDrop(s.calls, s.pending - {r}, s.aliases, r);
    BreakPromises(s.calls, FiledCalls(s), FiledCalls(s'), s.deadline, s.accept, s.settled, s.broken, s.dropped,
                  p, CallsOf(Filed(s.aliases, r)));
  }

  lemma BreakPromises(calls: seq<Call>, filed: set<nat>, filed': set<nat>, deadline: set<nat>, accept: set<nat>,
                      settled: map<nat, Outcome>, broken: set<nat>, dropped: set<nat>, p: nat, more: set<nat>)
    requires PromisesOk(calls, filed, deadline, accept, settled, broken, dropped)
    requires p < |calls| && !calls[p].waitForResult && p in filed
    requires filed - {p} - more <= filed' <= filed - {p}
    ensures PromisesOk(calls, filed', deadline - {p}, accept - {p}, settled,
                       if p in settled then broken else broken + {p}, dropped + more)
  {
  }

  /** Losing the connection, or closing, settles every call but the broken ones. */
  lemma RejectKeepsInv(s: State, code: string)
    requires Inv(s)
    ensures Inv(RejectPending(s, code))
  {
    var s' := RejectPending(s, code);
    NotBroken(s);
    assert FiledCalls(s') == {};
    forall p | p in FiledCalls(s) ensures p < |s.calls| {}
    Settles(s.calls, FiledCalls(s), {}, s.deadline, s'.deadline, s.accept, s'.accept,
            s.settled, s'.settled, s.broken, s.dropped, FiledCalls(s));
  }

  lemma RejectStep(s: State, code: string)
    requires Inv(s)
    ensures Inv(RejectPending(s, code))
    ensures forall p: nat :: p < |s.calls| ==> p in RejectPending(s, code).settled || p in s.broken || p in s.dropped
    ensures forall p :: p in s.settled ==> RejectPending(s, code).settled[p] == s.settled[p]
    ensures forall p :: p in FiledCalls(s) && p !in s.settled ==> RejectPending(s, code).settled[p] == Failure(code)
  {
    RejectKeepsInv(s, code);
  }

  lemma InvStep(s: State, e: Event)
    requires Inv(s) && Enabled(s, e) && (e.Begins? ==> FreshId(s, e.requestId))
    ensures Inv(Apply(s, e))
  {
    match e
    case Begins(r, waits, written) => BeginStep(s, r, waits, written);
    case DeadlineFires(p) => DeadlineStep(s, p);
    case AcceptTimerFires(p) => AcceptTimerStep(s, p);
    case ReceiveAccepted(r, duplicateOf) => AcceptedStep(s, r, duplicateOf);
    case ReceiveResult(r, _, _, _) =>
      if r in s.pending {
        if Throws(s, r, ResultOf(e)) { ResultBreaks(s, r, ResultOf(e)); } else { ResultSettles(s, r, ResultOf(e)); }
      }
    case SocketClosed =>
      if s.phase == Connected { RejectStep(s.(open := false, phase := Disconnected), "GATEWAY_CONNECTION_LOST"); }
    case CloseCalled => RejectStep(s, "GATEWAY_CLOSED");
    case _ =>
  }

  // ---------------------------------------------------------------- over every run

  /** Only a result breaks a promise or drops a duplicate. */
  lemma CallsBreakNothing(s: State, e: Event)
    requires Enabled(s, e) && (e.Begins? || e.DeadlineFires? || e.AcceptTimerFires? || e.ReceiveAccepted?)
    ensures var s' := Apply(s, e); s'.broken == s.broken && s'.dropped == s.dropped && |s.calls| <= |s'.calls|
  {
  }

  lemma ConnectionBreaksNothing(s: State, e: Event)
    requires Enabled(s, e) && !(e.Begins? || e.DeadlineFires? || e.AcceptTimerFires? || e.ReceiveAccepted?)
    requires !e.ReceiveResult?
    ensures var s' := Apply(s, e); s'.broken == s.broken && s'.dropped == s.dropped && s'.calls == s.calls
  {
  }

  lemma HistoryGrows(s: State, e: Event)
    requires Enabled(s, e)
    ensures s.broken <= Apply(s, e).broken && |s.calls| <= |Apply(s, e).calls|
  {
    if e.Begins? || e.DeadlineFires? || e.AcceptTimerFires? || e.ReceiveAccepted? { CallsBreakNothing(s, e); }
    else if !e.ReceiveResult? { ConnectionBreaksNothing(s, e); }
  }

  lemma {:induction false} RunInv(s: State, es: seq<Event>)
    requires Inv(s) && Allowed(s, es)
    ensures Inv(Run(s, es)) && s.broken <= Run(s, es).broken && |s.calls| <= |Run(s, es).calls|
    decreases |es|
  {
    if es != [] {
      InvStep(s, es[0]);
      HistoryGrows(s, es[0]);
      RunInv(Apply(s, es[0]), es[1..]);
    }
  }

  /** Every call is settled, or its timer is armed and will settle it, or it is a send that met its
      success before its acceptance. */
  lemma NoOrphan(es: seq<Event>, p: nat)
    requires Allowed(INIT, es) && p < |Run(INIT, es).calls|
    ensures var s := Run(INIT, es);
      && (p in s.settled || p in s.deadline || p in s.broken)
      && (p in s.deadline ==> p in OnDeadline(s, p).settled)
  {
    RunInv(INIT, es);
    var s := Run(INIT, es);
    if p in s.deadline { DeadlineStep(s, p); }
  }

  /** The exception is real: such a send has no timer and is in no table, and never settles. */
  lemma BrokenForever(es: seq<Event>, more: seq<Event>, p: nat)
    requires Allowed(INIT, es) && p in Run(INIT, es).broken && Allowed(Run(INIT, es), more)
    ensures var s := Run(Run(INIT, es), more);
      p < |s.calls| && !s.calls[p].waitForResult && p !in s.settled && p !in s.deadline && p !in s.accept
  {
    RunInv(INIT, es);
    RunInv(Run(INIT, es), more);
  }

  /** A run that gets there: a `send`, and the success of a cached duplicate before any acceptance. */
  lemma SendBreaks(body: string)
    ensures exists es: seq<Event> :: Allowed(INIT, es) && Run(INIT, es).broken == {0}
  {
    var begin, success := Begins("a", false, true), ReceiveResult("a", true, body, "");
    Extend(INIT, [], ConnectBegins);
    Extend(INIT, [] + [ConnectBegins], HelloAck);
    Extend(INIT, [] + [ConnectBegins] + [HelloAck], begin);
    var es := [] + [ConnectBegins] + [HelloAck] + [begin];
    assert Run(INIT, es).pending == map["a" := Entry(0, "a", false, false)];
    Extend(INIT, es, success);
    assert Run(INIT, es + [success]).broken == {0};
  }

  /** A message orphans a promise exactly when it is a success for a send not yet accepted, whose
      promise is still open. */
  lemma ResultOrphansIff(s: State, r: string, o: Outcome)
    requires Inv(s) && s.broken == {}
    ensures (exists p: nat :: p < |s.calls| && p !in OnResult(s, r, o).settled && p !in OnResult(s, r, o).deadline)
            <==> Throws(s, r, o) && s.pending[r].call !in s.settled
  {
    if Throws(s, r, o) {
      ResultBreaks(s, r, o);
      if s.pending[r].call !in s.settled { assert s.pending[r].call in OnResult(s, r, o).broken; }
    } else if r in s.pending {
      ResultSettles(s, r, o);
    }
  }

  /** No send meets a success before its acceptance. */
  ghost predicate AcceptanceFirst(s: State, es: seq<Event>)
    requires Allowed(s, es)
    decreases |es|
  {
    es == [] || ((es[0].ReceiveResult? ==> !Throws(s, es[0].requestId, ResultOf(es[0])))
     && AcceptanceFirst(Apply(s, es[0]), es[1..]))
  }

  lemma BreaksNothing(s: State, e: Event)
    requires Enabled(s, e) && (e.ReceiveResult? ==> !Throws(s, e.requestId, ResultOf(e)))
    ensures Apply(s, e).broken == s.broken && Apply(s, e).dropped == s.dropped
  {
    if e.Begins? || e.DeadlineFires? || e.AcceptTimerFires? || e.ReceiveAccepted? { CallsBreakNothing(s, e); }
    else if !e.ReceiveResult? { ConnectionBreaksNothing(s, e); }
  }

  lemma {:induction false} NothingBreaks(s: State, es: seq<Event>)
    requires Allowed(s, es) && AcceptanceFirst(s, es)
    ensures Run(s, es).broken == s.broken && Run(s, es).dropped == s.dropped
    decreases |es|
  {
    if es != [] {
      BreaksNothing(s, es[0]);
      NothingBreaks(Apply(s, es[0]), es[1..]);
    }
  }

  /** In such runs no promise is ever orphaned, and a lost connection or `close` settles every call
      there is and empties both tables. */
  lemma LossSettlesAll(es: seq<Event>)
    requires Allowed(INIT, es) && AcceptanceFirst(INIT, es)
    ensures var s := Run(INIT, es);
      && (forall p: nat :: p < |s.calls| && p !in s.settled ==> p in s.deadline)
      && (forall p: nat :: p < |s.calls| ==> p in OnClose(s).settled)
      && OnClose(s).pending == map[] && OnClose(s).aliases == map[]
      && (s.phase == Connected ==>
            && (forall p: nat :: p < |s.calls| ==> p in OnSocketClosed(s).settled)
            && OnSocketClosed(s).pending == map[] && OnSocketClosed(s).aliases == map[])
  {
    RunInv(INIT, es);
    NothingBreaks(INIT, es);
    var s := Run(INIT, es);
    RejectStep(s, "GATEWAY_CLOSED");
    RejectStep(s.(open := false, phase := Disconnected), "GATEWAY_CONNECTION_LOST");
  }

  /** The close event empties the tables exactly when the client still counted as connected, or they
      were empty already. */
  lemma LossRejectsIff(s: State)
    ensures OnSocketClosed(s).pending == map[] && OnSocketClosed(s).aliases == map[]
            <==> s.phase == Connected || (s.pending == map[] && s.aliases == map[])
  {
  }

  /** It may not: a call made while the socket is closing starts a new connection first, so the old
      socket's close event no longer finds the client connected. */
  lemma StaleCloseKeepsPending()
    ensures exists es: seq<Event> :: Allowed(INIT, es) && |es| > 0 && es[|es| - 1] == SocketClosed
              && Run(INIT, es).pending != map[] && Run(INIT, es).settled == map[]
  {
    var s1 := Apply(INIT, ConnectBegins);
    var s2 := Apply(s1, HelloAck);
    var s3 := Apply(s2, Begins("a", true, true));
    Extend(INIT, [], ConnectBegins);
    Extend(INIT, [ConnectBegins], HelloAck);
    var es3 := [ConnectBegins, HelloAck] + [Begins("a", true, true)];
    Extend(INIT, [ConnectBegins] + [HelloAck], Begins("a", true, true));
    assert [ConnectBegins] + [HelloAck] == [ConnectBegins, HelloAck];
    assert "a" in s3.pending;
    StaleClose(es3);
  }

  /** From any run that ends connected */
  lemma StaleClose(es: seq<Event>)
    requires Allowed(INIT, es)
    requires Run(INIT, es).phase == Connected && !Run(INIT, es).closing
    ensures var all := es + [SocketClosing] + [ConnectBegins] + [SocketClosed];
      && Allowed(INIT, all) && all[|all| - 1] == SocketClosed
      && Run(INIT, all).pending == Run(INIT, es).pending && Run(INIT, all).settled == Run(INIT, es).settled
  {
    Extend(INIT, es, SocketClosing);
    Extend(INIT, es + [SocketClosing], ConnectBegins);
    Extend(INIT, es + [SocketClosing] + [ConnectBegins], SocketClosed);
  }

  lemma {:induction false} Extend(s: State, es: seq<Event>, e: Event)
    requires Allowed(s, es) && Enabled(Run(s, es), e) && (e.Begins? ==> FreshId(Run(s, es), e.requestId))
    ensures Allowed(s, es + [e]) && Run(s, es + [e]) == Apply(Run(s, es), e)
    decreases |es|
  {
    if es == [] {
      assert [e][1..] == [];
    } else {
      assert (es + [e])[1..] == es[1..] + [e];
      Extend(Apply(s, es[0]), es[1..], e);
    }
  }

  /** Request ids must differ: with two pending calls of one id, the first one's acceptance timer
      takes the second one's entry and timer, and the second is settled by nothing that is left. */
  lemma SharedIdOrphans(s: State, r: string)
    requires Inv(s) && s.open && FreshId(s, r)
    ensures var s1 := Begin(Begin(s, r, true, true), r, true, true);
      var first, second := |s.calls|, |s.calls| + 1;
      var s2 := OnAcceptTimer(OnAcceptTimer(s1, first), second);
      && Enabled(s1, AcceptTimerFires(first)) && Enabled(OnAcceptTimer(s1, first), AcceptTimerFires(second))
      && second !in s2.settled && second !in s2.deadline && second !in s2.accept && second !in FiledCalls(s2)
  {
    var s1 := Begin(Begin(s, r, true, true), r, true, true);
    var s2 := OnAcceptTimer(OnAcceptTimer(s1, |s.calls|), |s.calls| + 1);
    assert s2.pending == s.pending - {r} && s2.aliases == s.aliases;
    forall p | p in FiledCalls(s2) ensures p < |s.calls| {}
  }

  // ---------------------------------------------------------------- duplicates

  predicate Rejects(s: State, e: Event) { e.CloseCalled? || (e.SocketClosed? && s.phase == Connected) }

  /** Neither a result for `k` arrives nor is everything rejected. */
  ghost predicate Leaves(s: State, es: seq<Event>, k: string)
    requires Allowed(s, es)
    decreases |es|
  {
    es == [] || (!Rejects(s, es[0]) && !(es[0].ReceiveResult? && es[0].requestId == k)
     && Leaves(Apply(s, es[0]), es[1..], k))
  }

  lemma {:induction false} StaysFiled(s: State, es: seq<Event>, k: string)
    requires Allowed(s, es) && Leaves(s, es, k)
    ensures Filed(s.aliases, k) <= Filed(Run(s, es).aliases, k)
    decreases |es|
  {
    if es != [] { StaysFiled(Apply(s, es[0]), es[1..], k); }
  }

  /** A duplicate filed under a call waits for it: whenever that call's result arrives, however much
      later, it settles the duplicate with the same outcome unless its timer did. */
  lemma DuplicateGetsResult(es: seq<Event>, more: seq<Event>, k: string, i: nat, o: Outcome)
    requires Allowed(INIT, es) && i < |Filed(Run(INIT, es).aliases, k)|
    requires Allowed(Run(INIT, es), more) && Leaves(Run(INIT, es), more, k)
    requires var s := Run(Run(INIT, es), more); k in s.pending && !Throws(s, k, o)
    ensures var alias, s := Filed(Run(INIT, es).aliases, k)[i], Run(Run(INIT, es), more);
      && alias.call in OnResult(s, k, o).settled
      && (alias.call !in s.settled ==> OnResult(s, k, o).settled[alias.call] == ForAlias(alias, k, o))
  {
    RunInv(INIT, es);
    RunInv(Run(INIT, es), more);
    StaysFiled(Run(INIT, es), more, k);
    var s := Run(Run(INIT, es), more);
    ResultOutcomes(s, k, o);
    assert Filed(s.aliases, k)[i] == Filed(Run(INIT, es).aliases, k)[i];
    assert Filed(s.aliases, k)[i].call in CallsOf(Filed(s.aliases, k));
  }

  /** A duplicate that was accepted and then times out is told that its deadline passed, not - as an
      accepted call that waits for its own result is - that the result did not come. */
  lemma DuplicateTimeoutCode(es: seq<Event>, k: string, i: nat)
    requires Allowed(INIT, es)
    requires var s := Run(INIT, es); i < |Filed(s.aliases, k)| && Filed(s.aliases, k)[i].call !in s.settled
    ensures var s := Run(INIT, es); var p := Filed(s.aliases, k)[i].call;
      && Enabled(s, DeadlineFires(p))
      && OnDeadline(s, p).settled[p] == Failure("DEADLINE_EXCEEDED")
  {
    RunInv(INIT, es);
    var s := Run(INIT, es);
    var e := Filed(s.aliases, k)[i];
    assert s.aliases[k][i] == e;
    assert e.call in AliasCalls(s.aliases);
    NotBroken(s);
  }

  /** A call still pending that times out is told so according to whether it was accepted. */
  lemma PendingTimeoutCode(es: seq<Event>, r: string)
    requires Allowed(INIT, es)
    requires var s := Run(INIT, es); r in s.pending && s.pending[r].call !in s.settled
    ensures var s := Run(INIT, es); var e := s.pending[r];
      && Enabled(s, DeadlineFires(e.call))
      && OnDeadline(s, e.call).settled[e.call] == Failure(
           if !e.waitForResult then "GATEWAY_ACCEPT_TIMEOUT"
           else if e.accepted then "GATEWAY_RESULT_TIMEOUT" else "DEADLINE_EXCEEDED")
  {
    RunInv(INIT, es);
    var s := Run(INIT, es);
    assert s.pending[r].call in PendingCalls(s.pending);
    NotBroken(s);
  }
}
