/**
  The client's callbacks as a class: every method changes the tables in place, step by step, and is
  one transition of the call table.
 */
module GatewayClientTable {
  import opened JsText
  import opened ClientModel

  datatype Message =
    | AcceptedMessage(requestId: string, duplicateOf: Option<string>)
    | ResultMessage(requestId: string, ok: bool, body: string, code: string)
    | OtherMessage

  class GatewayClient {
    var phase: Phase
    var open: bool
    var closing: bool
    var pending: map<string, Entry>
    var aliases: map<string, seq<Entry>>
    var deadline: set<nat>
    var accept: set<nat>
    var settled: map<nat, Outcome>
    var calls: seq<Call>
    ghost var broken: set<nat>
    ghost var dropped: set<nat>

    ghost function Table(): State
      reads this
    {
      State(phase, open, closing, pending, aliases, deadline, accept, settled, calls, broken, dropped)
    }

    constructor ()
      ensures Table() == INIT
    {
      phase, open, closing, pending, aliases := Disconnected, false, false, map[], map[];
      deadline, accept, settled, calls, broken, dropped := {}, {}, map[], [], {}, {};
    }

    /** `resolve` or `reject`: the first one counts */
    method SettleCall(call: nat, o: Outcome)
      modifies this`settled
      ensures settled == Settle(old(settled), call, o)
    {
      if call !in settled { settled := settled[call := o]; }
    }

    /** The executor of `send` and of `request` */
    method BeginCall(requestId: string, waits: bool, written: bool)
      modifies this
      ensures Table() == Begin(old(Table()), requestId, waits, written)
    {
      var p := |calls|;
      calls := calls + [Call(requestId, waits)];
      deadline := deadline + {p};
      if waits { accept := accept + {p}; }
      pending := pending[requestId := Entry(p, requestId, waits, false)];
      if !written { SettleCall(p, Failure("GATEWAY_NOT_CONNECTED")); }
    }

    /** The call's timer */
    method DeadlineFires(p: nat)
      requires p < |calls|
      modifies this
      ensures Table() == OnDeadline(old(Table()), p)
    {
      var code := TimeoutCode(pending, calls[p]);
      deadline := deadline - {p};
      pending := pending - {calls[p].requestId};
      SettleCall(p, Failure(code));
    }

    /** A request's acceptedTimer */
    method AcceptTimerFires(p: nat)
      requires p < |calls|
      modifies this
      ensures Table() == OnAcceptTimer(old(Table()), p)
    {
      var r := calls[p].requestId;
      accept := accept - {p};
      if r !in pending || pending[r].accepted { return; }
      deadline := deadline - {pending[r].call};
      pending := pending - {r};
      SettleCall(p, Failure("GATEWAY_ACCEPT_TIMEOUT"));
    }

    /** _handleMessage */
    method HandleMessage(m: Message)
      modifies this
      ensures m.AcceptedMessage? ==> Table() == OnAccepted(old(Table()), m.requestId, m.duplicateOf)
      ensures m.ResultMessage? ==>
        Table() == OnResult(old(Table()), m.requestId,
                          if m.ok then Success(m.requestId, None, m.body) else Failure(m.code))
      ensures m.OtherMessage? ==> Table() == old(Table())
    {
      match m
      case AcceptedMessage(r, duplicateOf) => HandleAccepted(r, duplicateOf);
      case ResultMessage(r, ok, body, code) =>
        if r in pending { HandleResult(r, if ok then Success(r, None, body) else Failure(code)); }
      case OtherMessage =>
    }

    method HandleAccepted(r: string, duplicateOf: Option<string>)
      modifies this
      ensures Table() == OnAccepted(old(Table()), r, duplicateOf)
    {
      if r !in pending { return; }
      var e := pending[r];
      if !e.waitForResult {
        deadline := deadline - {e.call};
        pending := pending - {r};
        SettleCall(e.call, Accepted(r));
        return;
      }
      accept := accept - {e.call};
      e := e.(accepted := true);
      pending := pending[r := e];
      if duplicateOf.Some? {
        pending := pending - {r};
        assert pending == old(pending) - {r};
        if duplicateOf.value !in aliases { aliases := aliases[duplicateOf.value := []]; }
        aliases := aliases[duplicateOf.value := aliases[duplicateOf.value] + [e]];
      }
    }

    /** The original is settled, then its duplicates one after the other. */
    method HandleResult(r: string, o: Outcome)
      requires r in pending
      modifies this
      ensures Table() == OnResult(old(Table()), r, o)
    {
      var e, filed := TakeOut(r);
      if !e.waitForResult && !o.Failure? {
        // pending.resolve is undefined: the call throws out of the handler
        if e.call !in settled { broken := broken + {e.call}; }
        dropped := dropped + CallsOf(filed);
        return;
      }
      SettleCall(e.call, o);
      SettleDuplicates(filed, r, o);
    }

    /** The call's timers, its entry and the list of its duplicates go. */
    method TakeOut(r: string) returns (e: Entry, filed: seq<Entry>)
      requires r in pending
      modifies this`deadline, this`accept, this`pending, this`aliases
      ensures e == old(pending)[r] && filed == Filed(old(aliases), r)
      ensures deadline == old(deadline) - {e.call} && accept == old(accept) - {e.call}
      ensures pending == old(pending) - {r} && aliases == old(aliases) - {r}
    {
      e := pending[r];
      filed := if r in aliases then aliases[r] else [];
      deadline := deadline - {e.call};
      accept := accept - {e.call};
      pending := pending - {r};
      aliases := aliases - {r};
    }

    method SettleDuplicates(filed: seq<Entry>, r: string, o: Outcome)
      modifies this`deadline, this`settled
      ensures settled == SettleAliases(old(settled), filed, r, o)
      ensures deadline == old(deadline) - CallsOf(filed)
    {
      for i := 0 to |filed|
        invariant SettleAliases(settled, filed[i..], r, o) == SettleAliases(old(settled), filed, r, o)
        invariant deadline == old(deadline) - CallsOf(filed[..i])
      {
        assert filed[..i + 1] == filed[..i] + [filed[i]];
        CallsAppend(filed[..i], filed[i]);
        assert filed[i..][1..] == filed[i + 1..];
        deadline := deadline - {filed[i].call};
        SettleCall(filed[i].call, ForAlias(filed[i], r, o));
      }
      assert filed[..|filed|] == filed;
    }

    /** _rejectPending: the pending calls first, then every list of duplicates */
    method RejectAll(code: string)
      modifies this
      ensures Table() == RejectPending(old(Table()), code)
    {
      RejectPendingCalls(code);
      RejectAliases(code);
      RejectTwice(old(settled), PendingCalls(old(pending)), AliasCalls(old(aliases)), code);
    }

    method RejectPendingCalls(code: string)
      modifies this`pending, this`deadline, this`accept, this`settled
      ensures pending == map[]
      ensures deadline == old(deadline) - PendingCalls(old(pending))
      ensures accept == old(accept) - PendingCalls(old(pending))
      ensures settled == RejectCalls(old(settled), PendingCalls(old(pending)), code)
    {
      ghost var done: set<nat>, all := {}, PendingCalls(pending);
      ghost var deadline0, accept0, settled0 := deadline, accept, settled;
      while pending.Keys != {}
        invariant Halfway(all, done, PendingCalls(pending), deadline0, deadline)
        invariant accept == accept0 - done
        invariant Rejected(settled0, done, code, settled)
        decreases pending.Keys
      {
        var r :| r in pending.Keys;
        var p := pending[r].call;
        DropPending(pending, r);
        RejectedMore(settled0, done, code, settled, p);
        HalfwayOn(all, done, PendingCalls(pending), PendingCalls(pending - {r}), {p}, deadline0, deadline);
        RejectOne(r, code);
        done := done + {p};
      }
      NothingLeft(all, done, PendingCalls(pending), deadline0, deadline);
      RejectedIs(settled0, done, code, settled);
    }

    method RejectOne(r: string, code: string)
      requires r in pending
      modifies this`pending, this`deadline, this`accept, this`settled
      ensures pending == old(pending) - {r}
      ensures deadline == old(deadline) - {old(pending)[r].call} && accept == old(accept) - {old(pending)[r].call}
      ensures settled == Settle(old(settled), old(pending)[r].call, Failure(code))
    {
      var p := pending[r].call;
      deadline, accept := deadline - {p}, accept - {p};
      SettleCall(p, Failure(code));
      pending := pending - {r};
    }

    method RejectAliases(code: string)
      modifies this`aliases, this`deadline, this`settled
      ensures aliases == map[]
      ensures deadline == old(deadline) - AliasCalls(old(aliases))
      ensures settled == RejectCalls(old(settled), AliasCalls(old(aliases)), code)
    {
      ghost var done: set<nat>, all := {}, AliasCalls(aliases);
      ghost var deadline0, settled0 := deadline, settled;
      while aliases.Keys != {}
        invariant Halfway(all, done, AliasCalls(aliases), deadline0, deadline)
        invariant Rejected(settled0, done, code, settled)
        decreases aliases.Keys
      {
        var k :| k in aliases.Keys;
        DropAliases(aliases, k);
        RejectedTwice(settled0, done, code, settled, CallsOf(aliases[k]));
        HalfwayOn(all, done, AliasCalls(aliases), AliasCalls(aliases - {k}), CallsOf(aliases[k]), deadline0, deadline);
        RejectList(aliases[k], code);
        done := done + CallsOf(aliases[k]);
        aliases := aliases - {k};
      }
      NothingLeft(all, done, AliasCalls(aliases), deadline0, deadline);
      RejectedIs(settled0, done, code, settled);
    }

    method RejectList(entries: seq<Entry>, code: string)
      modifies this`deadline, this`settled
      ensures deadline == old(deadline) - CallsOf(entries)
      ensures settled == RejectCalls(old(settled), CallsOf(entries), code)
    {
      RejectNone(settled, code);
      for i := 0 to |entries|
        invariant deadline == old(deadline) - CallsOf(entries[..i])
        invariant settled == RejectCalls(old(settled), CallsOf(entries[..i]), code)
      {
        assert entries[..i + 1] == entries[..i] + [entries[i]];
        CallsAppend(entries[..i], entries[i]);
        RejectOneMore(old(settled), CallsOf(entries[..i]), entries[i].call, code);
        deadline := deadline - {entries[i].call};
        SettleCall(entries[i].call, Failure(code));
      }
      assert entries[..|entries|] == entries;
    }

    /** The socket's close event */
    method SocketClosed()
      modifies this
      ensures Table() == OnSocketClosed(old(Table()))
    {
      var wasConnected := phase == Connected;
      open := false;
      phase := Disconnected;
      if wasConnected { RejectAll("GATEWAY_CONNECTION_LOST"); }
    }

    /** close() */
    method Close()
      modifies this
      ensures Table() == OnClose(old(Table()))
    {
      closing := true;
      RejectAll("GATEWAY_CLOSED");
      open := false;
      phase := Closed;
    }
  }

  /** `after` is `settled` with the calls of `done` rejected. */
  predicate Rejected(settled: map<nat, Outcome>, done: set<nat>, code: string, after: map<nat, Outcome>) {
    && after.Keys == settled.Keys + done
    && forall p :: p in after ==> after[p] == if p in settled then settled[p] else Failure(code)
  }

  lemma RejectedIs(settled: map<nat, Outcome>, done: set<nat>, code: string, after: map<nat, Outcome>)
    requires Rejected(settled, done, code, after)
    ensures after == RejectCalls(settled, done, code)
  {
  }

  /** Of all the calls some are rejected and their timers cleared, the rest is to come. */
  predicate Halfway(all: set<nat>, done: set<nat>, rest: set<nat>, timers0: set<nat>, timers: set<nat>) {
    all == done + rest && timers == timers0 - done
  }

  lemma NothingLeft(all: set<nat>, done: set<nat>, rest: set<nat>, timers0: set<nat>, timers: set<nat>)
    requires Halfway(all, done, rest, timers0, timers) && rest == {}
    ensures all == done && timers == timers0 - all
  {
  }

  lemma HalfwayOn(all: set<nat>, done: set<nat>, rest: set<nat>, rest': set<nat>, now: set<nat>,
                  timers0: set<nat>, timers: set<nat>)
    requires Halfway(all, done, rest, timers0, timers) && rest == rest' + now
    ensures Halfway(all, done + now, rest', timers0, timers - now)
  {
  }

  lemma RejectedMore(settled: map<nat, Outcome>, done: set<nat>, code: string, after: map<nat, Outcome>, p: nat)
    requires Rejected(settled, done, code, after)
    ensures Rejected(settled, done + {p}, code, Settle(after, p, Failure(code)))
  {
  }

  lemma RejectedTwice(settled: map<nat, Outcome>, done: set<nat>, code: string, after: map<nat, Outcome>,
                      more: set<nat>)
    requires Rejected(settled, done, code, after)
    ensures Rejected(settled, done + more, code, RejectCalls(after, more, code))
  {
  }

  lemma RejectNone(settled: map<nat, Outcome>, code: string)
    ensures RejectCalls(settled, {}, code) == settled
  {
  }

  lemma RejectOneMore(settled: map<nat, Outcome>, done: set<nat>, p: nat, code: string)
    ensures RejectCalls(settled, done + {p}, code) == Settle(RejectCalls(settled, done, code), p, Failure(code))
  {
  }

  lemma RejectTwice(settled: map<nat, Outcome>, a: set<nat>, b: set<nat>, code: string)
    ensures RejectCalls(RejectCalls(settled, a, code), b, code) == RejectCalls(settled, a + b, code)
  {
  }

  lemma DropPending(pending: map<string, Entry>, r: string)
    requires r in pending
    ensures PendingCalls(pending) == PendingCalls(pending - {r}) + {pending[r].call}
  {
    forall p | p in PendingCalls(pending) ensures p in PendingCalls(pending - {r}) + {pending[r].call} {
      var q :| q in pending && pending[q].call == p;
      if q != r { assert (pending - {r})[q].call == p; }
    }
  }

  lemma DropAliases(aliases: map<string, seq<Entry>>, k: string)
    requires k in aliases
    ensures AliasCalls(aliases) == AliasCalls(aliases - {k}) + CallsOf(aliases[k])
  {
    forall p | p in AliasCalls(aliases) ensures p in AliasCalls(aliases - {k}) + CallsOf(aliases[k]) {
      var q, i :| q in aliases && 0 <= i < |aliases[q]| && aliases[q][i].call == p;
      if q != k { assert (aliases - {k})[q][i].call == p; }
    }
  }

  lemma CallsAppend(entries: seq<Entry>, e: Entry)
    ensures CallsOf(entries + [e]) == CallsOf(entries) + {e.call}
  {
    assert (entries + [e])[|entries|] == e;
    forall p | p in CallsOf(entries) ensures p in CallsOf(entries + [e]) {
      var i :| 0 <= i < |entries| && entries[i].call == p;
      assert (entries + [e])[i].call == p;
    }
  }
}
