/**
  The script's store: every write sets a time to live, after which the key is gone. Forgetting
  changes no decision, because a written tat is already in the past when its key expires.
 */
module GcraExpiry {
  import opened Gcra

  datatype Cell = Cell(tat: real, expiresAt: real)

  /** The keys that still exist at `now` */
  function Existing(cells: map<string, Cell>, now: real): map<string, Cell> {
    cells - set k | k in cells && cells[k].expiresAt <= now
  }

  ghost function Tats(cells: map<string, Cell>): (tats: map<string, real>)
    ensures tats.Keys == cells.Keys
    ensures forall k :: k in cells ==> tats[k] == cells[k].tat
    decreases cells.Keys
  {
    if cells.Keys == {} then map[]
    else
      var k :| k in cells.Keys;
      Tats(cells - {k})[k := cells[k].tat]
  }

  /** The time to live of a write, in milliseconds */
  function Ttl(l: Limit): real
    requires l.rate > 0.0
  {
    (Ceil(Emission(l) * l.burst * 2.0) + 1000) as real
  }

  /** The store after the first `n` writes of an admitted call */
  ghost function WrittenCells(cells: map<string, Cell>, c: Call, n: nat): map<string, Cell>
    requires Proper(c) && Rated(c.limits) && n <= |c.keys|
  {
    if n == 0 then cells
    else
      var l := c.limits[n - 1];
      WrittenCells(cells, c, n - 1)
        [c.keys[n - 1] := Cell(NextTat(Tats(cells), c.keys[n - 1], l, c.cost, c.now), c.now + Ttl(l))]
  }

  ghost function DecideExpiring(cells: map<string, Cell>, c: Call): Decision
    requires Proper(c)
  {
    Decide(Tats(Existing(cells, c.now)), c)
  }

  ghost function AfterExpiring(cells: map<string, Cell>, c: Call): map<string, Cell>
    requires Proper(c)
  {
    var existing := Existing(cells, c.now);
    if Admits(Tats(existing), c) then WrittenCells(existing, c, |c.keys|) else existing
  }

  /** The expiring store remembers what matters at `t` and later: a cell holds the true tat and
      outlives it, and a forgotten tat is not after `t`. */
  ghost predicate Remembers(cells: map<string, Cell>, tats: map<string, real>, t: real) {
    && (forall k :: k in cells ==> k in tats && cells[k].tat == tats[k] <= cells[k].expiresAt)
    && (forall k :: k in tats && k !in cells ==> tats[k] <= t)
  }

  lemma ExistingRemembers(cells: map<string, Cell>, tats: map<string, real>, t: real, now: real)
    requires Remembers(cells, tats, t) && t <= now
    ensures Remembers(Existing(cells, now), tats, now)
    ensures forall k :: Start(Tats(Existing(cells, now)), k, now) == Start(tats, k, now)
  {
    var existing := Existing(cells, now);
    forall k | k in tats && k !in existing ensures tats[k] <= now {
      if k in cells { assert cells[k].expiresAt <= now; }
    }
  }

  lemma {:induction false} SameWorst(a: map<string, real>, b: map<string, real>, c: Call, n: nat)
    requires Proper(c) && Rated(c.limits) && n <= |c.keys|
    requires forall k :: Start(a, k, c.now) == Start(b, k, c.now)
    ensures WorstWait(a, c, n) == WorstWait(b, c, n)
  {
    if n > 0 {
      SameWorst(a, b, c, n - 1);
      assert Start(a, c.keys[n - 1], c.now) == Start(b, c.keys[n - 1], c.now);
    }
  }

  /** A tat written by an admitted call is past before its key's time to live runs out. */
  lemma TatBeforeExpiry(tats: map<string, real>, key: string, l: Limit, cost: real, now: real)
    requires l.rate > 0.0 && cost >= 0.0 && WaitFor(tats, key, l, cost, now) <= 0.0
    ensures NextTat(tats, key, l, cost, now) <= now + Emission(l) * l.burst < now + Ttl(l)
  {
    AdmittedTat(tats, key, l, cost, now);
    CeilBounds(Emission(l) * l.burst * 2.0);
  }

  lemma {:induction false} WritesRemember(cells: map<string, Cell>, tats: map<string, real>, c: Call, n: nat)
    requires Proper(c) && Rated(c.limits) && n <= |c.keys|
    requires Remembers(cells, tats, c.now) && forall k :: Start(Tats(cells), k, c.now) == Start(tats, k, c.now)
    requires forall i :: 0 <= i < n ==> WaitFor(tats, c.keys[i], c.limits[i], c.cost, c.now) <= 0.0
    ensures Remembers(WrittenCells(cells, c, n), Written(tats, c, n), c.now)
  {
    if n > 0 {
      WritesRemember(cells, tats, c, n - 1);
      TatBeforeExpiry(tats, c.keys[n - 1], c.limits[n - 1], c.cost, c.now);
      assert Start(Tats(cells), c.keys[n - 1], c.now) == Start(tats, c.keys[n - 1], c.now);
    }
  }

  lemma SameDecision(cells: map<string, Cell>, tats: map<string, real>, c: Call, t: real)
    requires Proper(c) && Remembers(cells, tats, t) && t <= c.now
    ensures DecideExpiring(cells, c) == Decide(tats, c)
    ensures Remembers(AfterExpiring(cells, c), After(tats, c), c.now)
  {
    var existing := Existing(cells, c.now);
    ExistingRemembers(cells, tats, t, c.now);
    if Rated(c.limits) {
      SameWorst(Tats(existing), tats, c, |c.keys|);
      if Admits(tats, c) {
        WorstWaitIsMax(tats, c, |c.keys|);
        WritesRemember(existing, tats, c, |c.keys|);
      }
    }
  }

  predicate Ordered(calls: seq<Call>) {
    && (forall c :: c in calls ==> Proper(c))
    && (forall i, j :: 0 <= i < j < |calls| ==> calls[i].now <= calls[j].now)
  }

  /** The decisions of a run, from an expiring store and from one that never forgets */
  function Decisions(tats: map<string, real>, calls: seq<Call>): seq<Decision>
    requires forall c :: c in calls ==> Proper(c)
    decreases |calls|
  {
    if calls == [] then [] else [Decide(tats, calls[0])] + Decisions(After(tats, calls[0]), calls[1..])
  }

  ghost function DecisionsExpiring(cells: map<string, Cell>, calls: seq<Call>): seq<Decision>
    requires forall c :: c in calls ==> Proper(c)
    decreases |calls|
  {
    if calls == [] then []
    else [DecideExpiring(cells, calls[0])] + DecisionsExpiring(AfterExpiring(cells, calls[0]), calls[1..])
  }

  lemma {:induction false} ExpiryInvisible(cells: map<string, Cell>, tats: map<string, real>, calls: seq<Call>, t: real)
    requires Ordered(calls) && Remembers(cells, tats, t) && (calls != [] ==> t <= calls[0].now)
    ensures DecisionsExpiring(cells, calls) == Decisions(tats, calls)
    decreases |calls|
  {
    if calls != [] {
      SameDecision(cells, tats, calls[0], t);
      ExpiryInvisible(AfterExpiring(cells, calls[0]), After(tats, calls[0]), calls[1..], calls[0].now);
    }
  }

  /** Expiry refines persistence: over every run under a nondecreasing clock, whatever the limits
      of each call, the expiring limiter decides as one that never forgets. */
  lemma ExpiryRefinesPersistence(calls: seq<Call>)
    requires Ordered(calls)
    ensures DecisionsExpiring(map[], calls) == Decisions(map[], calls)
  {
    if calls != [] { ExpiryInvisible(map[], map[], calls, calls[0].now); }
  }

  // ---------------------------------------------------------------- the window bound on expiring keys

  /** Total cost the expiring limiter admitted on `key` at times in [t1, t2] */
  ghost function AdmittedExpiring(cells: map<string, Cell>, calls: seq<Call>, key: string, t1: real, t2: real): real
    requires forall c :: c in calls ==> Proper(c)
    decreases |calls|
  {
    if calls == [] then 0.0
    else
      var c := calls[0];
      (if DecideExpiring(cells, c).allowed && key in c.keys && t1 <= c.now <= t2 then c.cost else 0.0)
      + AdmittedExpiring(AfterExpiring(cells, c), calls[1..], key, t1, t2)
  }

  lemma {:induction false} SameAdmitted(cells: map<string, Cell>, tats: map<string, real>, calls: seq<Call>,
                                        t: real, key: string, t1: real, t2: real)
    requires Ordered(calls) && Remembers(cells, tats, t) && (calls != [] ==> t <= calls[0].now)
    ensures AdmittedExpiring(cells, calls, key, t1, t2) == AdmittedCost(tats, calls, key, t1, t2)
    decreases |calls|
  {
    if calls != [] {
      SameDecision(cells, tats, calls[0], t);
      AllowedIff(tats, calls[0]);
      SameAdmitted(AfterExpiring(cells, calls[0]), After(tats, calls[0]), calls[1..], calls[0].now, key, t1, t2);
    }
  }

  /** The window bound for the keys as the script keeps them, under a nondecreasing clock: from any
      store whose tats are past when their keys expire, over any run and any interval. */
  lemma WindowBoundExpiring(cells: map<string, Cell>, calls: seq<Call>, key: string, l: Limit, t1: real, t2: real)
    requires Ordered(calls) && forall k :: k in cells ==> cells[k].tat <= cells[k].expiresAt
    requires forall c :: c in calls ==> Proper(c) && UsesLimit(c, key, l)
    requires l.rate > 0.0 && l.burst >= 0.0 && t1 <= t2
    ensures AdmittedExpiring(cells, calls, key, t1, t2) <= Allowance(l.rate, l.burst, t2 - t1)
  {
    if calls != [] { SameAdmitted(cells, Tats(cells), calls, calls[0].now, key, t1, t2); }
    WindowBound(Tats(cells), calls, key, l, t1, t2);
    if calls == [] { assert AdmittedCost(Tats(cells), calls, key, t1, t2) == 0.0; }
  }

  // ---------------------------------------------------------------- the script

  /** The keys the script works on, updated in place */
  class RateStore {
    var cells: map<string, Cell>

    constructor ()
      ensures cells == map[]
    {
      cells := map[];
    }

    /** GCRA_SCRIPT at server time `c.now` */
    method Eval(c: Call) returns (d: Decision)
      requires Proper(c)
      modifies this
      ensures d == DecideExpiring(old(cells), c)
      ensures Rated(c.limits) ==> cells == AfterExpiring(old(cells), c)
      ensures !Rated(c.limits) ==> cells == old(cells)
    {
      var rated, newTat, worstWait := Examine(c);
      if !rated { return Decision(false, 0); }
      cells := Existing(cells, c.now);
      if worstWait > 0.0 { return Decision(false, Ceil(worstWait)); }
      Write(c, newTat);
      return Decision(true, 0);
    }

    /** The first loop: every key's new tat and the largest wait, or a rate that is not positive */
    method Examine(c: Call) returns (rated: bool, newTat: seq<real>, worstWait: real)
      requires Proper(c)
      ensures rated <==> Rated(c.limits)
      ensures rated ==> worstWait == WorstWait(Tats(Existing(cells, c.now)), c, |c.keys|) >= 0.0
      ensures rated ==> |newTat| == |c.keys| && forall j :: 0 <= j < |newTat| ==>
                newTat[j] == NextTat(Tats(Existing(cells, c.now)), c.keys[j], c.limits[j], c.cost, c.now)
    {
      ghost var read := Tats(Existing(cells, c.now));
      newTat, worstWait := [], 0.0;
      var i := 0;
      while i < |c.keys|
        invariant 0 <= i <= |c.keys| && |newTat| == i
        invariant forall j :: 0 <= j < i ==> c.limits[j].rate > 0.0
        invariant forall j :: 0 <= j < i ==> newTat[j] == NextTat(read, c.keys[j], c.limits[j], c.cost, c.now)
        invariant worstWait == PartialWorst(read, c, i) >= 0.0
      {
        if c.limits[i].rate <= 0.0 { return false, newTat, worstWait; }
        var nextTat, wait := ExamineKey(c.keys[i], c.limits[i], c.cost, c.now);
        if wait > 0.0 && wait > worstWait { worstWait := wait; }
        newTat := newTat + [nextTat];
        i := i + 1;
      }
      rated := true;
      PartialWorstIs(read, c, |c.keys|);
    }

    /** The body of the first loop: HGET, the clamp to now, and the time the cost would fit */
    method ExamineKey(key: string, l: Limit, cost: real, now: real) returns (nextTat: real, wait: real)
      requires l.rate > 0.0
      ensures nextTat == NextTat(Tats(Existing(cells, now)), key, l, cost, now)
      ensures wait == WaitFor(Tats(Existing(cells, now)), key, l, cost, now)
    {
      var emission := 1000.0 / l.rate;
      var delayTol := emission * l.burst;
      var tat := if key in cells && now < cells[key].expiresAt then cells[key].tat else now;
      if tat < now { tat := now; }
      nextTat := tat + emission * cost;
      var allowAt := nextTat - delayTol;
      wait := allowAt - now;
    }

    /** The second loop: HSET and PEXPIRE for every key */
    method Write(c: Call, newTat: seq<real>)
      requires Proper(c) && Rated(c.limits) && |newTat| == |c.keys|
      requires forall j :: 0 <= j < |newTat| ==>
                 newTat[j] == NextTat(Tats(cells), c.keys[j], c.limits[j], c.cost, c.now)
      modifies this
      ensures cells == WrittenCells(old(cells), c, |c.keys|)
    {
      var i := 0;
      while i < |c.keys|
        invariant 0 <= i <= |c.keys| && cells == WrittenCells(old(cells), c, i)
      {
        var l := c.limits[i];
        cells := cells[c.keys[i] := Cell(newTat[i], c.now + Ttl(l))];
        i := i + 1;
        assert WrittenCells(old(cells), c, i)
            == WrittenCells(old(cells), c, i - 1)[c.keys[i - 1] := Cell(newTat[i - 1], c.now + Ttl(l))];
      }
    }
  }

  /** The first loop's accumulator */
  ghost function PartialWorst(tats: map<string, real>, c: Call, n: nat): real
    requires Proper(c) && n <= |c.keys| && forall j :: 0 <= j < n ==> c.limits[j].rate > 0.0
  {
    if n == 0 then 0.0
    else Max(PartialWorst(tats, c, n - 1), WaitFor(tats, c.keys[n - 1], c.limits[n - 1], c.cost, c.now))
  }

  lemma {:induction false} PartialWorstIs(tats: map<string, real>, c: Call, n: nat)
    requires Proper(c) && Rated(c.limits) && n <= |c.keys|
    ensures PartialWorst(tats, c, n) == WorstWait(tats, c, n) >= 0.0
  {
    if n > 0 { PartialWorstIs(tats, c, n - 1); }
  }

  /** The later of what a key still holds and now */
  function LaterOf(cells: map<string, Cell>, key: string, now: real): real {
    if key in cells && cells[key].expiresAt > now && cells[key].tat > now then cells[key].tat else now
  }

  lemma StartIsLater(cells: map<string, Cell>, key: string, now: real)
    ensures Start(Tats(Existing(cells, now)), key, now) == LaterOf(cells, key, now)
  {
  }

  lemma OneCell(cells: map<string, Cell>, key: string, l: Limit, cost: real, now: real)
    requires l.rate > 0.0 && cost >= 0.0
    requires DecideExpiring(cells, Call(now, [key], [l], cost)).allowed
    ensures AfterExpiring(cells, Call(now, [key], [l], cost))
            == Existing(cells, now)[key := Cell(LaterOf(cells, key, now) + Emission(l) * cost, now + Ttl(l))]
  {
    var c := Call(now, [key], [l], cost);
    var existing := Existing(cells, now);
    AllowedIff(Tats(existing), c);
    StartIsLater(cells, key, now);
    assert WrittenCells(existing, c, 0) == existing;
    assert WrittenCells(existing, c, 1)
           == existing[key := Cell(NextTat(Tats(existing), key, l, cost, now), now + Ttl(l))];
  }

  lemma CellSet(cells: map<string, Cell>, existing: map<string, Cell>, key: string, cell: Cell, now: real)
    requires existing == Existing(cells, now)
    ensures var cells' := existing[key := cell];
      && cells'[key] == cell
      && forall k :: k != key ==> (k in cells' <==> k in cells && cells[k].expiresAt > now)
                                  && (k in cells' ==> cells'[k] == cells[k])
  {
  }

  lemma TtlBounds(l: Limit, twice: real)
    requires l.rate > 0.0 && twice == Emission(l) * l.burst * 2.0
    ensures twice + 1000.0 <= Ttl(l) < twice + 1001.0
  {
    CeilBounds(Emission(l) * l.burst * 2.0);
  }

  /** What an admitted call writes for a key, and for how long: the tat moves on by the cost at the key's rate, and
      the key outlives twice the time its whole burst takes, rounded up, by a second. */
  lemma CellWritten(cells: map<string, Cell>, key: string, l: Limit, cost: real, now: real, step: real, twice: real)
    requires l.rate > 0.0 && cost >= 0.0
    requires step == Emission(l) * cost && twice == Emission(l) * l.burst * 2.0
    requires DecideExpiring(cells, Call(now, [key], [l], cost)).allowed
    ensures var cells' := AfterExpiring(cells, Call(now, [key], [l], cost));
      var start := if key in cells && cells[key].expiresAt > now && cells[key].tat > now then cells[key].tat else now;
      && key in cells' && cells'[key].tat == start + step
      && now + twice + 1000.0 <= cells'[key].expiresAt < now + twice + 1001.0
      && forall k :: k != key ==> (k in cells' <==> k in cells && cells[k].expiresAt > now)
                                  && (k in cells' ==> cells'[k] == cells[k])
  {
    OneCell(cells, key, l, cost, now);
    TtlBounds(l, twice);
    CellSet(cells, Existing(cells, now), key, Cell(LaterOf(cells, key, now) + step, now + Ttl(l)), now);
  }
}
