/**
  The virtual-scheduling form of the Generic Cell Rate Algorithm (Annex A of ITU-T
  Recommendation I.371) as the rate limiters use it: one theoretical arrival time (tat) per key,
  times in milliseconds, exact reals.
 */
module Gcra {

  datatype Limit = Limit(rate: real, burst: real)

  /** One evaluation of the script: the keys with their limits, the cost, the server's time */
  datatype Call = Call(now: real, keys: seq<string>, limits: seq<Limit>, cost: real)

  datatype Decision = Decision(allowed: bool, retryAfterMs: int)

  function Max(a: real, b: real): real { if a < b then b else a }

  function Ceil(x: real): int { -((-x).Floor) }

  function Emission(l: Limit): real
    requires l.rate > 0.0
  {
    1000.0 / l.rate
  }

  predicate Rated(ls: seq<Limit>) { forall i :: 0 <= i < |ls| ==> ls[i].rate > 0.0 }

  /** A call as the limiters build it: one limit per key, no negative cost */
  predicate Proper(c: Call) { |c.keys| == |c.limits| && c.cost >= 0.0 }

  predicate DistinctKeys(ks: seq<string>) { forall i, j :: 0 <= i < j < |ks| ==> ks[i] != ks[j] }

  // ---------------------------------------------------------------- one key

  /** The stored tat, not before `now` */
  function Start(tats: map<string, real>, key: string, now: real): real {
    if key in tats then Max(tats[key], now) else now
  }

  function NextTat(tats: map<string, real>, key: string, l: Limit, cost: real, now: real): real
    requires l.rate > 0.0
  {
    Start(tats, key, now) + Emission(l) * cost
  }

  /** How long after `now` the key would admit the cost; positive means denied */
  function WaitFor(tats: map<string, real>, key: string, l: Limit, cost: real, now: real): real
    requires l.rate > 0.0
  {
    NextTat(tats, key, l, cost, now) - Emission(l) * l.burst - now
  }

  // ---------------------------------------------------------------- the script

  /** The largest positive wait of the first `n` keys, or 0 */
  function WorstWait(tats: map<string, real>, c: Call, n: nat): real
    requires Proper(c) && Rated(c.limits) && n <= |c.keys|
  {
    if n == 0 then 0.0
    else Max(WorstWait(tats, c, n - 1), WaitFor(tats, c.keys[n - 1], c.limits[n - 1], c.cost, c.now))
  }

  lemma {:induction false} WorstWaitIsMax(tats: map<string, real>, c: Call, n: nat)
    requires Proper(c) && Rated(c.limits) && n <= |c.keys|
    ensures var w := WorstWait(tats, c, n);
      && w >= 0.0
      && (forall i :: 0 <= i < n ==> WaitFor(tats, c.keys[i], c.limits[i], c.cost, c.now) <= w)
      && (w > 0.0 ==> exists i :: 0 <= i < n && WaitFor(tats, c.keys[i], c.limits[i], c.cost, c.now) == w)
  {
    if n > 0 { WorstWaitIsMax(tats, c, n - 1); }
  }

  /** The stored tats after the first `n` keys are written */
  function Written(tats: map<string, real>, c: Call, n: nat): map<string, real>
    requires Proper(c) && Rated(c.limits) && n <= |c.keys|
  {
    if n == 0 then tats
    else Written(tats, c, n - 1)[c.keys[n - 1] := NextTat(tats, c.keys[n - 1], c.limits[n - 1], c.cost, c.now)]
  }

  predicate Admits(tats: map<string, real>, c: Call)
    requires Proper(c)
  {
    Rated(c.limits) && WorstWait(tats, c, |c.keys|) == 0.0
  }

  /** The decision of the script on a store that never forgets */
  function Decide(tats: map<string, real>, c: Call): Decision
    requires Proper(c)
  {
    if !Rated(c.limits) then Decision(false, 0)
    else if WorstWait(tats, c, |c.keys|) > 0.0 then Decision(false, Ceil(WorstWait(tats, c, |c.keys|)))
    else Decision(true, 0)
  }

  function After(tats: map<string, real>, c: Call): map<string, real>
    requires Proper(c)
  {
    if Admits(tats, c) then Written(tats, c, |c.keys|) else tats
  }

  /** All or nothing: with distinct keys an admitted call sets every key's tat from the old
      store, a denied one sets none, and no other key changes. */
  lemma {:induction false} WrittenKeys(tats: map<string, real>, c: Call, n: nat)
    requires Proper(c) && Rated(c.limits) && n <= |c.keys| && DistinctKeys(c.keys)
    ensures forall i :: 0 <= i < n ==>
              && c.keys[i] in Written(tats, c, n)
              && Written(tats, c, n)[c.keys[i]] == NextTat(tats, c.keys[i], c.limits[i], c.cost, c.now)
    ensures forall k :: k !in c.keys[..n] ==>
              (k in Written(tats, c, n) <==> k in tats) && (k in tats ==> Written(tats, c, n)[k] == tats[k])
  {
    if n > 0 {
      WrittenKeys(tats, c, n - 1);
      assert c.keys[..n] == c.keys[..n - 1] + [c.keys[n - 1]];
      assert c.keys[n - 1] !in c.keys[..n - 1];
    }
  }

  /** An admitted call is one whose keys all fit. */
  lemma AllowedIff(tats: map<string, real>, c: Call)
    requires Proper(c)
    ensures Decide(tats, c).allowed <==> Admits(tats, c)
  {
    if Rated(c.limits) { WorstWaitIsMax(tats, c, |c.keys|); }
  }

  lemma Product(a: real, b: real)
    requires a >= 0.0 && b >= 0.0
    ensures a * b >= 0.0
  {
  }

  /** An admitted key's new tat is no earlier than now and within the burst tolerance. */
  lemma AdmittedTat(tats: map<string, real>, key: string, l: Limit, cost: real, now: real)
    requires l.rate > 0.0 && cost >= 0.0 && WaitFor(tats, key, l, cost, now) <= 0.0
    ensures now <= Start(tats, key, now) <= NextTat(tats, key, l, cost, now) <= now + Emission(l) * l.burst
  {
    Product(Emission(l), cost);
  }

  lemma AllOrNothing(tats: map<string, real>, c: Call)
    requires Proper(c) && DistinctKeys(c.keys)
    ensures Decide(tats, c).allowed ==> forall i :: 0 <= i < |c.keys| ==>
              && c.limits[i].rate > 0.0 && c.keys[i] in After(tats, c)
              && After(tats, c)[c.keys[i]] == NextTat(tats, c.keys[i], c.limits[i], c.cost, c.now)
              && WaitFor(tats, c.keys[i], c.limits[i], c.cost, c.now) <= 0.0
    ensures !Decide(tats, c).allowed ==> After(tats, c) == tats
    ensures forall k :: k !in c.keys ==>
              (k in After(tats, c) <==> k in tats) && (k in tats ==> After(tats, c)[k] == tats[k])
  {
    if Rated(c.limits) { WorstWaitIsMax(tats, c, |c.keys|); }
    if Admits(tats, c) {
      WrittenKeys(tats, c, |c.keys|);
      assert c.keys[..|c.keys|] == c.keys;
    }
  }

  // ---------------------------------------------------------------- retry-after

  /** The wait at a later time on an unchanged store */
  lemma WaitLater(tats: map<string, real>, key: string, l: Limit, cost: real, now: real, t: real)
    requires l.rate > 0.0 && now <= t
    ensures WaitFor(tats, key, l, cost, t) >= WaitFor(tats, key, l, cost, now) - (t - now)
    ensures cost <= l.burst ==>
              WaitFor(tats, key, l, cost, t) <= 0.0
              || WaitFor(tats, key, l, cost, t) == WaitFor(tats, key, l, cost, now) - (t - now)
    ensures cost > l.burst ==> WaitFor(tats, key, l, cost, t) > 0.0
  {
    var e := Emission(l);
    assert WaitFor(tats, key, l, cost, t) == Start(tats, key, t) - t + e * (cost - l.burst);
    assert WaitFor(tats, key, l, cost, now) == Start(tats, key, now) - now + e * (cost - l.burst);
    if cost <= l.burst { assert e * (cost - l.burst) <= 0.0; } else { assert e * (cost - l.burst) > 0.0; }
  }

  lemma CeilBounds(x: real)
    ensures x <= Ceil(x) as real < x + 1.0
  {
  }

  /** Retry-after is sound and tight. If nothing else is admitted after a denial, the call stays
      denied before the unrounded wait is over, and from `retryAfterMs` on it is admitted exactly
      when its cost fits every burst (otherwise never). */
  lemma RetryAfter(tats: map<string, real>, c: Call, t: real)
    requires Proper(c) && Rated(c.limits) && !Decide(tats, c).allowed && c.now <= t
    ensures t < c.now + WorstWait(tats, c, |c.keys|) ==> !Decide(tats, c.(now := t)).allowed
    ensures t >= c.now + Decide(tats, c).retryAfterMs as real ==>
              (Decide(tats, c.(now := t)).allowed <==> forall i :: 0 <= i < |c.limits| ==> c.cost <= c.limits[i].burst)
  {
    var w := WorstWait(tats, c, |c.keys|);
    var later := c.(now := t);
    WorstWaitIsMax(tats, c, |c.keys|);
    WorstWaitIsMax(tats, later, |c.keys|);
    CeilBounds(w);
    forall i | 0 <= i < |c.keys|
      ensures t < c.now + w && WaitFor(tats, c.keys[i], c.limits[i], c.cost, c.now) == w ==>
                WaitFor(tats, later.keys[i], later.limits[i], later.cost, later.now) > 0.0
      ensures t >= c.now + w && c.cost <= c.limits[i].burst ==>
                WaitFor(tats, later.keys[i], later.limits[i], later.cost, later.now) <= 0.0
      ensures c.cost > c.limits[i].burst ==>
                WaitFor(tats, later.keys[i], later.limits[i], later.cost, later.now) > 0.0
    {
      WaitLater(tats, c.keys[i], c.limits[i], c.cost, c.now, t);
    }
  }

  // ---------------------------------------------------------------- window bound

  /** What one call takes from the window */
  function Taken(tats: map<string, real>, c: Call, key: string, t1: real, t2: real): real
    requires Proper(c)
  {
    if Admits(tats, c) && key in c.keys && t1 <= c.now <= t2 then c.cost else 0.0
  }

  /** Total cost of the calls of a run that were admitted on `key` at times in [t1, t2] */
  function AdmittedCost(tats: map<string, real>, calls: seq<Call>, key: string, t1: real, t2: real): real
    requires forall c :: c in calls ==> Proper(c)
    decreases |calls|
  {
    if calls == [] then 0.0
    else
      var c := calls[0];
      Taken(tats, c, key, t1, t2) + AdmittedCost(After(tats, c), calls[1..], key, t1, t2)
  }

  /** Every call that uses `key` uses it once, with limit `l`. */
  predicate UsesLimit(c: Call, key: string, l: Limit) {
    && |c.keys| == |c.limits| && DistinctKeys(c.keys)
    && forall i :: 0 <= i < |c.keys| && c.keys[i] == key ==> c.limits[i] == l
  }

  /** What the window still has to give, in time: from the tat (or the window's start) to its
      end, with the burst tolerance added */
  function Room(tats: map<string, real>, key: string, tolerance: real, t1: real, t2: real): real {
    Max(0.0, t2 + tolerance - Start(tats, key, t1))
  }

  /** Writing an admitted tat uses up the room of its cost if it falls into the window. */
  lemma RoomAfterWrite(tats: map<string, real>, tats': map<string, real>, key: string, spent: real, tolerance: real,
                       now: real, t1: real, t2: real)
    requires spent >= 0.0 && key in tats' && tats'[key] == Start(tats, key, now) + spent
    requires now <= tats'[key] <= now + tolerance
    ensures (if t1 <= now <= t2 then spent else 0.0) + Room(tats', key, tolerance, t1, t2)
            <= Room(tats, key, tolerance, t1, t2)
  {
  }

  /** What an admitted call does to the tat of a key it uses */
  lemma KeyWritten(tats: map<string, real>, c: Call, key: string, l: Limit)
    requires Proper(c) && UsesLimit(c, key, l) && l.rate > 0.0 && Admits(tats, c) && key in c.keys
    ensures var tats' := After(tats, c);
      && key in tats' && tats'[key] == NextTat(tats, key, l, c.cost, c.now)
      && WaitFor(tats, key, l, c.cost, c.now) <= 0.0
  {
    AllOrNothing(tats, c);
    var i :| 0 <= i < |c.keys| && c.keys[i] == key;
    assert c.limits[i] == l;
  }

  lemma KeyAfter(tats: map<string, real>, c: Call, key: string, l: Limit, spent: real, tolerance: real)
    requires Proper(c) && UsesLimit(c, key, l) && l.rate > 0.0 && Admits(tats, c) && key in c.keys
    requires spent == Emission(l) * c.cost && tolerance == Emission(l) * l.burst
    ensures var tats' := After(tats, c);
      && spent >= 0.0 && key in tats' && tats'[key] == Start(tats, key, c.now) + spent
      && c.now <= tats'[key] <= c.now + tolerance
  {
    KeyWritten(tats, c, key, l);
    AdmittedTat(tats, key, l, c.cost, c.now);
    Product(Emission(l), c.cost);
  }

  lemma RoomShrinks(tats: map<string, real>, c: Call, key: string, l: Limit, e: real, t1: real, t2: real)
    requires Proper(c) && UsesLimit(c, key, l) && l.rate > 0.0 && e == Emission(l)
    ensures Times(e, Taken(tats, c, key, t1, t2)) + Room(After(tats, c), key, e * l.burst, t1, t2)
            <= Room(tats, key, e * l.burst, t1, t2)
  {
    if Admits(tats, c) && key in c.keys {
      KeyAfter(tats, c, key, l, e * c.cost, e * l.burst);
      RoomAfterWrite(tats, After(tats, c), key, e * c.cost, e * l.burst, c.now, t1, t2);
    } else {
      AllOrNothing(tats, c);
    }
  }

  /** The same in time: the sum of the emission intervals of the admitted costs */
  function AdmittedTime(tats: map<string, real>, calls: seq<Call>, key: string, e: real, t1: real, t2: real): real
    requires forall c :: c in calls ==> Proper(c)
    decreases |calls|
  {
    if calls == [] then 0.0
    else
      var c := calls[0];
      Times(e, Taken(tats, c, key, t1, t2)) + AdmittedTime(After(tats, c), calls[1..], key, e, t1, t2)
  }

  function Times(e: real, a: real): real { e * a }

  lemma {:induction false} TimeIsScaledCost(tats: map<string, real>, calls: seq<Call>, key: string, e: real,
                                            t1: real, t2: real) returns (cost: real)
    requires forall c :: c in calls ==> Proper(c)
    ensures cost == AdmittedCost(tats, calls, key, t1, t2)
    ensures AdmittedTime(tats, calls, key, e, t1, t2) == e * cost
    decreases |calls|
  {
    if calls == [] {
      cost := 0.0;
    } else {
      var rest := TimeIsScaledCost(After(tats, calls[0]), calls[1..], key, e, t1, t2);
      var taken := Taken(tats, calls[0], key, t1, t2);
      SumScaled(e, taken, rest, AdmittedTime(After(tats, calls[0]), calls[1..], key, e, t1, t2));
      cost := taken + rest;
    }
  }

  lemma SumScaled(e: real, taken: real, rest: real, restTime: real)
    requires restTime == e * rest
    ensures Times(e, taken) + restTime == e * (taken + rest)
  {
    Distribute(e, taken, rest);
  }

  lemma {:induction false} WindowRoom(tats: map<string, real>, calls: seq<Call>, key: string, l: Limit, e: real,
                                      t1: real, t2: real)
    requires forall c :: c in calls ==> Proper(c) && UsesLimit(c, key, l)
    requires l.rate > 0.0 && e == Emission(l)
    ensures AdmittedTime(tats, calls, key, e, t1, t2) <= Room(tats, key, e * l.burst, t1, t2)
    decreases |calls|
  {
    if calls != [] {
      RoomShrinks(tats, calls[0], key, l, e, t1, t2);
      WindowRoom(After(tats, calls[0]), calls[1..], key, l, e, t1, t2);
    }
  }

  lemma Distribute(e: real, a: real, b: real)
    ensures e * (a + b) == e * a + e * b
  {
  }

  /** Burst plus rate times a span of milliseconds */
  function Allowance(rate: real, burst: real, span: real): real { burst + rate * span / 1000.0 }

  /** The window bound: from any store, over any run and any interval, one key admits at most
      its burst plus its rate times the interval. The clock need not even be monotone. */
  lemma WindowBound(tats: map<string, real>, calls: seq<Call>, key: string, l: Limit, t1: real, t2: real)
    requires forall c :: c in calls ==> Proper(c) && UsesLimit(c, key, l)
    requires l.rate > 0.0 && l.burst >= 0.0 && t1 <= t2
    ensures AdmittedCost(tats, calls, key, t1, t2) <= Allowance(l.rate, l.burst, t2 - t1)
  {
    EmissionTimesRate(l);
    WindowScaled(tats, calls, key, l, Emission(l), t1, t2);
    ScaleBack(l.rate, Emission(l), AdmittedCost(tats, calls, key, t1, t2), l.burst, t2 - t1);
  }

  lemma WindowScaled(tats: map<string, real>, calls: seq<Call>, key: string, l: Limit, e: real, t1: real, t2: real)
    requires forall c :: c in calls ==> Proper(c) && UsesLimit(c, key, l)
    requires l.rate > 0.0 && l.burst >= 0.0 && t1 <= t2 && e == Emission(l) && e > 0.0
    ensures e * AdmittedCost(tats, calls, key, t1, t2) <= t2 - t1 + e * l.burst
  {
    WindowRoom(tats, calls, key, l, e, t1, t2);
    var _ := TimeIsScaledCost(tats, calls, key, e, t1, t2);
    Product(e, l.burst);
    RoomAtMost(tats, key, e * l.burst, t1, t2);
  }

  lemma RoomAtMost(tats: map<string, real>, key: string, tolerance: real, t1: real, t2: real)
    requires tolerance >= 0.0 && t1 <= t2
    ensures Room(tats, key, tolerance, t1, t2) <= t2 - t1 + tolerance
  {
  }

  lemma EmissionTimesRate(l: Limit)
    requires l.rate > 0.0
    ensures Emission(l) * l.rate == 1000.0 && Emission(l) > 0.0
  {
  }

  lemma ScaleBack(rate: real, e: real, a: real, burst: real, span: real)
    requires rate > 0.0 && e * rate == 1000.0 && e * a <= span + e * burst
    ensures a <= Allowance(rate, burst, span)
  {
    assert e * (a - burst) <= span;
    assert rate * (e * (a - burst)) <= rate * span;
    assert rate * (e * (a - burst)) == (e * rate) * (a - burst);
  }
}
