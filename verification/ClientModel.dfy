/**
  The client's table of calls as a transition system: pending calls, duplicates filed under the
  call they repeat, two timers a call, promises, and the connection. One event is one callback:
  a call, a timer, a message, or a socket event.
 */
module ClientModel {
  import opened JsText

  datatype Outcome =
    | Accepted(requestId: string)
    | Success(requestId: string, duplicateOf: Option<string>, body: string)
    | Failure(code: string)

  /** What a call's closures know */
  datatype Call = Call(requestId: string, waitForResult: bool)

  datatype Entry = Entry(call: nat, requestId: string, waitForResult: bool, accepted: bool)

  datatype Phase = Disconnected | Connecting | Connected | Closed

  datatype State = State(
    phase: Phase,
    open: bool,            // the current socket exists and is OPEN
    closing: bool,
    pending: map<string, Entry>,
    aliases: map<string, seq<Entry>>,
    deadline: set<nat>,    // calls whose timer is armed
    accept: set<nat>,      // calls whose acceptedTimer is armed
    settled: map<nat, Outcome>,
    // history
    calls: seq<Call>,
    broken: set<nat>,      // sends whose timers and entry went before `pending.resolve` threw
    dropped: set<nat>)     // duplicates filed under such a send

  const INIT := State(Disconnected, false, false, map[], map[], {}, {}, map[], [], {}, {})

  // ---------------------------------------------------------------- promises

  /** A promise keeps its first outcome. */
  function Settle(settled: map<nat, Outcome>, call: nat, o: Outcome): map<nat, Outcome> {
    if call in settled then settled else settled[call := o]
  }

  /** The loop over the duplicates of `original` */
  function SettleAliases(settled: map<nat, Outcome>, aliases: seq<Entry>, original: string,
                         result: Outcome): map<nat, Outcome>
    decreases |aliases|
  {
    if aliases == [] then settled
    else SettleAliases(Settle(settled, aliases[0].call, ForAlias(aliases[0], original, result)), aliases[1..],
                       original, result)
  }

  /** The original's result under the duplicate's own request id; an error as it is */
  function ForAlias(alias: Entry, original: string, result: Outcome): Outcome {
    if result.Success? then Success(alias.requestId, Some(original), result.body) else result
  }

  function CallsOf(entries: seq<Entry>): set<nat> { set i | 0 <= i < |entries| :: entries[i].call }

  function PendingCalls(pending: map<string, Entry>): set<nat> { set r | r in pending :: pending[r].call }

  function AliasCalls(aliases: map<string, seq<Entry>>): set<nat> {
    set k, i | k in aliases && 0 <= i < |aliases[k]| :: aliases[k][i].call
  }

  /** Every one of the calls is rejected, unless it was settled before. */
  ghost function RejectCalls(settled: map<nat, Outcome>, calls: set<nat>, code: string): (after: map<nat, Outcome>)
    ensures after.Keys == settled.Keys + calls
    ensures forall p :: p in after ==> after[p] == if p in settled then settled[p] else Failure(code)
    decreases calls
  {
    if calls == {} then settled
    else
      var p :| p in calls;
      Settle(RejectCalls(settled, calls - {p}, code), p, Failure(code))
  }

  // ---------------------------------------------------------------- transitions

  /** `send` (waits = false) and `request`: the entry and its timers are there before the message is
      written, and stay when the write throws, which rejects the promise. */
  function Begin(s: State, requestId: string, waits: bool, written: bool): State {
    var p := |s.calls|;
    s.(calls := s.calls + [Call(requestId, waits)],
       deadline := s.deadline + {p},
       accept := if waits then s.accept + {p} else s.accept,
       pending := s.pending[requestId := Entry(p, requestId, waits, false)],
       settled := if written then s.settled else Settle(s.settled, p, Failure("GATEWAY_NOT_CONNECTED")))
  }

  function TimeoutCode(pending: map<string, Entry>, c: Call): string {
    if !c.waitForResult then "GATEWAY_ACCEPT_TIMEOUT"
    else if c.requestId in pending && pending[c.requestId].accepted then "GATEWAY_RESULT_TIMEOUT"
    else "DEADLINE_EXCEEDED"
  }

  function OnDeadline(s: State, p: nat): State
    requires p < |s.calls|
  {
    s.(deadline := s.deadline - {p},
       pending := s.pending - {s.calls[p].requestId},
       settled := Settle(s.settled, p, Failure(TimeoutCode(s.pending, s.calls[p]))))
  }

  function OnAcceptTimer(s: State, p: nat): State
    requires p < |s.calls|
  {
    var r := s.calls[p].requestId;
    if r !in s.pending || s.pending[r].accepted then s.(accept := s.accept - {p})
    else s.(accept := s.accept - {p},
            deadline := s.deadline - {s.pending[r].call},
            pending := s.pending - {r},
            settled := Settle(s.settled, p, Failure("GATEWAY_ACCEPT_TIMEOUT")))
  }

  function Filed(aliases: map<string, seq<Entry>>, original: string): seq<Entry> {
    if original in aliases then aliases[original] else []
  }

  function OnAccepted(s: State, r: string, duplicateOf: Option<string>): State {
    if r !in s.pending then s
    else
      var e := s.pending[r];
      if !e.waitForResult then
        s.(deadline := s.deadline - {e.call},
           pending := s.pending - {r},
           settled := Settle(s.settled, e.call, Accepted(r)))
      else if duplicateOf.None? then
        s.(accept := s.accept - {e.call}, pending := s.pending[r := e.(accepted := true)])
      else
        s.(accept := s.accept - {e.call},
           pending := s.pending - {r},
           aliases := s.aliases[duplicateOf.value := Filed(s.aliases, duplicateOf.value) + [e.(accepted := true)]])
  }

  /** `send` stores no `resolve`, so a success that comes before `accepted` throws in the handler. */
  predicate Throws(s: State, r: string, o: Outcome) {
    r in s.pending && !s.pending[r].waitForResult && !o.Failure?
  }

  function OnResult(s: State, r: string, o: Outcome): State {
    if r !in s.pending then s
    else
      var e := s.pending[r];
      var s1 := s.(deadline := s.deadline - {e.call}, accept := s.accept - {e.call},
                   pending := s.pending - {r}, aliases := s.aliases - {r});
      if Throws(s, r, o) then
        s1.(broken := if e.call in s.settled then s.broken else s.broken + {e.call},
            dropped := s.dropped + CallsOf(Filed(s.aliases, r)))
      else
        s1.(deadline := s1.deadline - CallsOf(Filed(s.aliases, r)),
            settled := SettleAliases(Settle(s.settled, e.call, o), Filed(s.aliases, r), r, o))
  }

  /** _rejectPending */
  ghost function RejectPending(s: State, code: string): State {
    s.(pending := map[], aliases := map[],
       deadline := s.deadline - PendingCalls(s.pending) - AliasCalls(s.aliases),
       accept := s.accept - PendingCalls(s.pending),
       settled := RejectCalls(s.settled, PendingCalls(s.pending) + AliasCalls(s.aliases), code))
  }

  /** The socket's close event */
  ghost function OnSocketClosed(s: State): State {
    var s1 := s.(open := false, phase := Disconnected);
    if s.phase == Connected then RejectPending(s1, "GATEWAY_CONNECTION_LOST") else s1
  }

  ghost function OnClose(s: State): State {
    RejectPending(s, "GATEWAY_CLOSED").(closing := true, open := false, phase := Closed)
  }

  datatype Event =
    | Begins(requestId: string, waits: bool, written: bool)
    | DeadlineFires(call: nat)
    | AcceptTimerFires(call: nat)
    | ReceiveAccepted(requestId: string, duplicateOf: Option<string>)
    | ReceiveResult(requestId: string, ok: bool, body: string, code: string)
    | ConnectBegins
    | HelloAck
    | SocketClosing   // the socket leaves OPEN before its close event comes
    | SocketClosed
    | CloseCalled

  predicate Enabled(s: State, e: Event) {
    match e
    case Begins(_, _, _) => s.open
    case DeadlineFires(p) => p in s.deadline && p < |s.calls|
    case AcceptTimerFires(p) => p in s.accept && p < |s.calls|
    case ConnectBegins => !s.closing && !(s.phase == Connected && s.open)
    case HelloAck => s.phase == Connecting
    case _ => true
  }

  function ResultOf(e: Event): Outcome
    requires e.ReceiveResult?
  {
    if e.ok then Success(e.requestId, None, e.body) else Failure(e.code)
  }

  ghost function Apply(s: State, e: Event): State
    requires Enabled(s, e)
  {
    match e
    case Begins(r, waits, written) => Begin(s, r, waits, written)
    case DeadlineFires(p) => OnDeadline(s, p)
    case AcceptTimerFires(p) => OnAcceptTimer(s, p)
    case ReceiveAccepted(r, duplicateOf) => OnAccepted(s, r, duplicateOf)
    case ReceiveResult(r, _, _, _) => OnResult(s, r, ResultOf(e))
    case ConnectBegins => s.(phase := Connecting)
    case HelloAck => s.(phase := Connected, open := true)
    case SocketClosing => s.(open := false)
    case SocketClosed => OnSocketClosed(s)
    case CloseCalled => OnClose(s)
  }

  /** No earlier call had this request id. */
  predicate FreshId(s: State, r: string) { forall i :: 0 <= i < |s.calls| ==> s.calls[i].requestId != r }

  /** A run whose calls have request ids of their own */
  ghost predicate Allowed(s: State, es: seq<Event>)
    decreases |es|
  {
    es == [] ||
    (Enabled(s, es[0]) && (es[0].Begins? ==> FreshId(s, es[0].requestId)) && Allowed(Apply(s, es[0]), es[1..]))
  }

  ghost function Run(s: State, es: seq<Event>): State
    requires Allowed(s, es)
    decreases |es|
  {
    if es == [] then s else Run(Apply(s, es[0]), es[1..])
  }
}
