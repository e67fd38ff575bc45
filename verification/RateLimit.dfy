/** The per-client token bucket. Times are whole nanoseconds; tokens are reals. */
module RateLimit {
  import opened RaftTypes

  const SECOND := 1_000_000_000
  const MINUTE := 60 * SECOND

  datatype Bucket = Bucket(tokens: real, last: int)

  datatype Limits = Limits(rate: real, burst: real)

  datatype Request = Request(key: string, at: int)

  type Buckets = map<string, Bucket>

  /** What the flags' validation leaves: a positive rate and room for one token. */
  predicate Valid(l: Limits) { l.rate > 0.0 && l.burst >= 1.0 }

  // ---------- One request ----------

  /** Tokens that flow in between two times. */
  function Gain(l: Limits, from: int, to: int): real { l.rate * ((to - from) as real / SECOND as real) }

  function Lesser(a: real, b: real): real { if a < b then a else b }

  function Refilled(l: Limits, b: Bucket, now: int): real { Lesser(l.burst, b.tokens + Gain(l, b.last, now)) }

  /** The tokens a client has at a time; a client never seen has a full bucket. */
  function Level(l: Limits, buckets: Buckets, key: string, now: int): real {
    if key in buckets then Refilled(l, buckets[key], now) else l.burst
  }

  predicate Admits(l: Limits, buckets: Buckets, r: Request) { Level(l, buckets, r.key, r.at) >= 1.0 }

  /** A limiter that never forgets a client. */
  function Served(l: Limits, buckets: Buckets, r: Request): Buckets {
    var level := Level(l, buckets, r.key, r.at);
    buckets[r.key := Bucket(if level >= 1.0 then level - 1.0 else level, r.at)]
  }

  // ---------- Sweeping ----------

  /** The refill time as the limiter computes it: cut down to whole nanoseconds. */
  function RefillTime(l: Limits): int
    requires Valid(l)
  {
    (l.burst / l.rate * SECOND as real).Floor
  }

  function Kept(l: Limits, buckets: Buckets, now: int): Buckets
    requires Valid(l)
  {
    map k | k in buckets && now - buckets[k].last <= RefillTime(l) :: buckets[k]
  }

  datatype State = State(buckets: Buckets, lastSweep: int)

  function Swept(l: Limits, s: State, now: int): State
    requires Valid(l)
  {
    if now - s.lastSweep < MINUTE then s else State(Kept(l, s.buckets, now), now)
  }

  /** The limiter as it is, sweeps included. */
  function Step(l: Limits, s: State, r: Request): State
    requires Valid(l)
  {
    var s1 := Swept(l, s, r.at);
    s1.(buckets := Served(l, s1.buckets, r))
  }

  // ---------- Sequences of requests ----------

  /** The clock never goes back. */
  predicate InOrder(from: int, reqs: seq<Request>)
    decreases |reqs|
  {
    reqs == [] || (from <= reqs[0].at && InOrder(reqs[0].at, reqs[1..]))
  }

  function Decisions(l: Limits, s: State, reqs: seq<Request>): seq<bool>
    requires Valid(l)
    decreases |reqs|
  {
    if reqs == [] then []
    else [Admits(l, Swept(l, s, reqs[0].at).buckets, reqs[0])] + Decisions(l, Step(l, s, reqs[0]), reqs[1..])
  }

  function DecisionsUnswept(l: Limits, buckets: Buckets, reqs: seq<Request>): seq<bool>
    decreases |reqs|
  {
    if reqs == [] then []
    else [Admits(l, buckets, reqs[0])] + DecisionsUnswept(l, Served(l, buckets, reqs[0]), reqs[1..])
  }

  function AllServed(l: Limits, buckets: Buckets, reqs: seq<Request>): Buckets
    decreases |reqs|
  {
    if reqs == [] then buckets else AllServed(l, Served(l, buckets, reqs[0]), reqs[1..])
  }

  // ---------- Sound buckets ----------

  predicate BucketOk(l: Limits, buckets: Buckets, now: int, k: string) {
    k in buckets ==> 0.0 <= buckets[k].tokens <= l.burst && buckets[k].last <= now
  }

  ghost predicate BucketsOk(l: Limits, buckets: Buckets, now: int) {
    forall k {:trigger BucketOk(l, buckets, now, k)} :: BucketOk(l, buckets, now, k)
  }

  lemma Product(a: real, b: real)
    requires a >= 0.0 && b >= 0.0
    ensures a * b >= 0.0
  {
  }

  lemma GainGrows(l: Limits, from: int, to: int)
    requires l.rate >= 0.0 && from <= to
    ensures Gain(l, from, to) >= 0.0
  {
    Product(l.rate, (to - from) as real / SECOND as real);
  }

  lemma GainAdds(l: Limits, a: int, b: int, c: int)
    ensures Gain(l, a, b) + Gain(l, b, c) == Gain(l, a, c)
  {
    var x, y := (b - a) as real / SECOND as real, (c - b) as real / SECOND as real;
    assert (c - a) as real / SECOND as real == x + y;
    assert l.rate * (x + y) == l.rate * x + l.rate * y;
  }

  lemma LevelOk(l: Limits, buckets: Buckets, from: int, key: string, now: int)
    requires Valid(l) && BucketsOk(l, buckets, from) && from <= now
    ensures 0.0 <= Level(l, buckets, key, now) <= l.burst
  {
    assert BucketOk(l, buckets, from, key);
    if key in buckets { GainGrows(l, buckets[key].last, now); }
  }

  lemma ServedOk(l: Limits, buckets: Buckets, from: int, r: Request)
    requires Valid(l) && BucketsOk(l, buckets, from) && from <= r.at
    ensures BucketsOk(l, Served(l, buckets, r), r.at)
  {
    LevelOk(l, buckets, from, r.key, r.at);
    var after := Served(l, buckets, r);
    forall k ensures BucketOk(l, after, r.at, k) { assert BucketOk(l, buckets, from, k); }
  }

  // ---------- Sweeping changes nothing ----------

  /** Whoever is idle longer than the refill time has a full bucket again, even though the
      refill time was rounded down. */
  lemma IdleIsFull(l: Limits, from: int, to: int)
    requires Valid(l) && to - from > RefillTime(l)
    ensures Gain(l, from, to) >= l.burst
  {
    var full := l.burst / l.rate * SECOND as real;
    var idle := (to - from) as real;
    assert idle >= full;
    assert idle / SECOND as real >= l.burst / l.rate;
    Product(l.rate, idle / SECOND as real - l.burst / l.rate);
    assert l.rate * (l.burst / l.rate) == l.burst;
  }

  /** The swept limiter kept this client's bucket, or the client's bucket is full by now. */
  predicate SameClient(l: Limits, swept: Buckets, all: Buckets, now: int, k: string) {
    if k in swept then k in all && swept[k] == all[k]
    else k in all ==> all[k].tokens + Gain(l, all[k].last, now) >= l.burst
  }

  ghost predicate Same(l: Limits, swept: Buckets, all: Buckets, now: int) {
    forall k {:trigger SameClient(l, swept, all, now, k)} :: SameClient(l, swept, all, now, k)
  }

  lemma SameLater(l: Limits, swept: Buckets, all: Buckets, from: int, now: int)
    requires Valid(l) && Same(l, swept, all, from) && from <= now
    ensures Same(l, swept, all, now)
  {
    GainGrows(l, from, now);
    forall k ensures SameClient(l, swept, all, now, k) {
      assert SameClient(l, swept, all, from, k);
      if k in all { GainAdds(l, all[k].last, from, now); }
    }
  }

  lemma SweepSame(l: Limits, s: State, all: Buckets, from: int, now: int)
    requires Valid(l) && Same(l, s.buckets, all, now) && BucketsOk(l, all, from)
    ensures Same(l, Swept(l, s, now).buckets, all, now)
  {
    var after := Swept(l, s, now).buckets;
    forall k ensures SameClient(l, after, all, now, k) {
      assert SameClient(l, s.buckets, all, now, k) && BucketOk(l, all, from, k);
      if k in s.buckets && k !in after { IdleIsFull(l, all[k].last, now); }
    }
  }

  lemma ServeSame(l: Limits, swept: Buckets, all: Buckets, r: Request)
    requires Valid(l) && Same(l, swept, all, r.at)
    ensures Admits(l, swept, r) == Admits(l, all, r)
    ensures Same(l, Served(l, swept, r), Served(l, all, r), r.at)
  {
    assert SameClient(l, swept, all, r.at, r.key);
    assert Level(l, swept, r.key, r.at) == Level(l, all, r.key, r.at);
    var a, b := Served(l, swept, r), Served(l, all, r);
    forall k ensures SameClient(l, a, b, r.at, k) { assert SameClient(l, swept, all, r.at, k); }
  }

  lemma {:induction false} SweepIsInvisible(l: Limits, s: State, all: Buckets, from: int, reqs: seq<Request>)
    requires Valid(l) && InOrder(from, reqs) && Same(l, s.buckets, all, from) && BucketsOk(l, all, from)
    ensures Decisions(l, s, reqs) == DecisionsUnswept(l, all, reqs)
    decreases |reqs|
  {
    if reqs != [] {
      var r := reqs[0];
      SameLater(l, s.buckets, all, from, r.at);
      SweepSame(l, s, all, from, r.at);
      ServeSame(l, Swept(l, s, r.at).buckets, all, r);
      ServedOk(l, all, from, r);
      SweepIsInvisible(l, Step(l, s, r), Served(l, all, r), r.at, reqs[1..]);
    }
  }

  /** From the start on, sweeping idle buckets changes no decision. */
  lemma SweepingChangesNothing(l: Limits, start: int, reqs: seq<Request>)
    requires Valid(l) && InOrder(start, reqs)
    ensures Decisions(l, State(map[], start), reqs) == DecisionsUnswept(l, map[], reqs)
  {
    forall k ensures SameClient(l, map[], map[], start, k) && BucketOk(l, map[], start, k) {}
    SweepIsInvisible(l, State(map[], start), map[], start, reqs);
  }

  // ---------- How much gets through ----------

  /** How many of one client's requests were admitted. */
  function Admitted(key: string, reqs: seq<Request>, decisions: seq<bool>): nat
    requires |reqs| == |decisions|
    decreases |reqs|
  {
    if reqs == [] then 0
    else (if reqs[0].key == key && decisions[0] then 1 else 0) + Admitted(key, reqs[1..], decisions[1..])
  }

  lemma {:induction false} SameLength(l: Limits, buckets: Buckets, reqs: seq<Request>)
    ensures |DecisionsUnswept(l, buckets, reqs)| == |reqs|
    decreases |reqs|
  {
    if reqs != [] { SameLength(l, Served(l, buckets, reqs[0]), reqs[1..]); }
  }

  lemma LevelFlows(l: Limits, buckets: Buckets, key: string, t: int, u: int)
    requires Valid(l) && BucketsOk(l, buckets, t) && t <= u
    ensures Level(l, buckets, key, u) <= Level(l, buckets, key, t) + Gain(l, t, u)
  {
    GainGrows(l, t, u);
    if key in buckets { GainAdds(l, buckets[key].last, t, u); }
  }

  lemma NoGain(l: Limits, t: int)
    ensures Gain(l, t, t) == 0.0
  {
  }

  /** A request of another client does not touch this client's bucket; an admitted one of
      its own costs a token. */
  lemma ServedLevel(l: Limits, buckets: Buckets, from: int, r: Request, key: string)
    requires Valid(l) && BucketsOk(l, buckets, from) && from <= r.at
    ensures Level(l, Served(l, buckets, r), key, r.at) ==
            Level(l, buckets, key, r.at) - if r.key == key && Admits(l, buckets, r) then 1.0 else 0.0
  {
    NoGain(l, r.at);
    LevelOk(l, buckets, from, r.key, r.at);
  }

  /** Over a stretch of requests a client spends no more than it had and what flowed in. */
  lemma {:induction false} SpendsWhatItHas(l: Limits, buckets: Buckets, from: int, to: int, key: string, reqs: seq<Request>)
    requires Valid(l) && BucketsOk(l, buckets, from) && InOrder(from, reqs) && from <= to
    requires forall i :: 0 <= i < |reqs| ==> reqs[i].at <= to
    ensures |DecisionsUnswept(l, buckets, reqs)| == |reqs|
    ensures Admitted(key, reqs, DecisionsUnswept(l, buckets, reqs)) as real <= Level(l, buckets, key, from) + Gain(l, from, to)
    decreases |reqs|
  {
    SameLength(l, buckets, reqs);
    if reqs == [] {
      LevelOk(l, buckets, from, key, from);
      GainGrows(l, from, to);
    } else {
      var r := reqs[0];
      var after := Served(l, buckets, r);
      ServedOk(l, buckets, from, r);
      ServedLevel(l, buckets, from, r, key);
      LevelFlows(l, buckets, key, from, r.at);
      GainAdds(l, from, r.at, to);
      SpendsWhatItHas(l, after, r.at, to, key, reqs[1..]);
      assert DecisionsUnswept(l, buckets, reqs)[1..] == DecisionsUnswept(l, after, reqs[1..]);
    }
  }

  lemma {:induction false} AllServedOk(l: Limits, buckets: Buckets, from: int, reqs: seq<Request>)
    requires Valid(l) && BucketsOk(l, buckets, from) && InOrder(from, reqs)
    ensures BucketsOk(l, AllServed(l, buckets, reqs), if reqs == [] then from else reqs[|reqs| - 1].at)
    decreases |reqs|
  {
    if reqs != [] {
      ServedOk(l, buckets, from, reqs[0]);
      AllServedOk(l, Served(l, buckets, reqs[0]), reqs[0].at, reqs[1..]);
    }
  }

  lemma {:induction false} DecisionsSplit(l: Limits, buckets: Buckets, before: seq<Request>, window: seq<Request>)
    ensures DecisionsUnswept(l, buckets, before + window) ==
            DecisionsUnswept(l, buckets, before) + DecisionsUnswept(l, AllServed(l, buckets, before), window)
    decreases |before|
  {
    if before == [] {
      assert before + window == window;
    } else {
      assert (before + window)[1..] == before[1..] + window;
      DecisionsSplit(l, Served(l, buckets, before[0]), before[1..], window);
    }
  }

  lemma {:induction false} OrderSplit(from: int, before: seq<Request>, window: seq<Request>)
    requires InOrder(from, before + window)
    ensures InOrder(from, before) && InOrder(if before == [] then from else before[|before| - 1].at, window)
    decreases |before|
  {
    if before == [] {
      assert before + window == window;
    } else {
      assert (before + window)[1..] == before[1..] + window;
      OrderSplit(before[0].at, before[1..], window);
    }
  }

  lemma OrderLater(from: int, later: int, reqs: seq<Request>)
    requires InOrder(from, reqs) && (reqs != [] ==> later <= reqs[0].at)
    ensures InOrder(later, reqs)
  {
  }

  lemma LaterOk(l: Limits, buckets: Buckets, from: int, now: int)
    requires BucketsOk(l, buckets, from) && from <= now
    ensures BucketsOk(l, buckets, now)
  {
    forall k ensures BucketOk(l, buckets, now, k) { assert BucketOk(l, buckets, from, k); }
  }

  /** In any window of time a client gets through at most burst plus rate times its length,
      whatever came before and however many sweeps there were. */
  lemma WindowBound(l: Limits, start: int, before: seq<Request>, window: seq<Request>, key: string, open: int, close: int)
    requires Valid(l) && InOrder(start, before + window) && open <= close
    requires forall i :: 0 <= i < |window| ==> open <= window[i].at <= close
    ensures var all := Decisions(l, State(map[], start), before + window);
            |all| == |before| + |window| &&
            Admitted(key, window, all[|before|..]) as real <= l.burst + Gain(l, open, close)
  {
    SweepingChangesNothing(l, start, before + window);
    DecisionsSplit(l, map[], before, window);
    OrderSplit(start, before, window);
    SameLength(l, map[], before);
    var buckets := AllServed(l, map[], before);
    var last := if before == [] then start else before[|before| - 1].at;
    SameLength(l, buckets, window);
    assert Decisions(l, State(map[], start), before + window)[|before|..] == DecisionsUnswept(l, buckets, window);
    forall k ensures BucketOk(l, map[], start, k) {}
    AllServedOk(l, map[], start, before);
    GainGrows(l, open, close);
    if window != [] {
      var from := if open < last then last else open;
      assert from <= window[0].at <= close;
      OrderLater(last, from, window);
      LaterOk(l, buckets, last, from);
      SpendsWhatItHas(l, buckets, from, close, key, window);
      LevelOk(l, buckets, from, key, from);
      GainAdds(l, open, from, close);
      GainGrows(l, open, from);
    }
  }

  // ---------- Who is never refused ----------

  lemma {:induction false} LastRequest(l: Limits, buckets: Buckets, from: int, reqs: seq<Request>, key: string)
    requires Valid(l) && BucketsOk(l, buckets, from) && InOrder(from, reqs)
    ensures var after := AllServed(l, buckets, reqs);
            key in after ==> (key in buckets && after[key] == buckets[key]) ||
                             exists i :: 0 <= i < |reqs| && reqs[i].key == key && after[key].last == reqs[i].at
    decreases |reqs|
  {
    if reqs != [] {
      var b := Served(l, buckets, reqs[0]);
      ServedOk(l, buckets, from, reqs[0]);
      LastRequest(l, b, reqs[0].at, reqs[1..], key);
      var after := AllServed(l, buckets, reqs);
      if key in after && !(key in b && after[key] == b[key]) {
        var i :| 0 <= i < |reqs[1..]| && reqs[1..][i].key == key && after[key].last == reqs[1..][i].at;
        assert reqs[i + 1].key == key && after[key].last == reqs[i + 1].at;
      }
    }
  }

  /** One token's worth of time. */
  lemma OneToken(l: Limits, from: int, to: int)
    requires Valid(l) && (to - from) as real >= SECOND as real / l.rate
    ensures Gain(l, from, to) >= 1.0
  {
    var x := (to - from) as real / SECOND as real;
    assert x >= 1.0 / l.rate;
    Product(l.rate, x - 1.0 / l.rate);
    assert l.rate * (1.0 / l.rate) == 1.0;
  }

  /** A request is never refused when the client's earlier ones all came at least 1/rate
      before it. */
  lemma SpacedIsAdmitted(l: Limits, start: int, before: seq<Request>, r: Request)
    requires Valid(l) && InOrder(start, before + [r])
    requires forall i :: 0 <= i < |before| && before[i].key == r.key ==> (r.at - before[i].at) as real >= SECOND as real / l.rate
    ensures var all := Decisions(l, State(map[], start), before + [r]); |all| == |before| + 1 && all[|before|]
  {
    SweepingChangesNothing(l, start, before + [r]);
    DecisionsSplit(l, map[], before, [r]);
    SameLength(l, map[], before);
    OrderSplit(start, before, [r]);
    forall k ensures BucketOk(l, map[], start, k) {}
    LastRequest(l, map[], start, before, r.key);
    AllServedOk(l, map[], start, before);
    var buckets := AllServed(l, map[], before);
    if r.key in buckets {
      var last := if before == [] then start else before[|before| - 1].at;
      assert BucketOk(l, buckets, last, r.key);
      OneToken(l, buckets[r.key].last, r.at);
    }
    assert Admits(l, buckets, r);
    assert DecisionsUnswept(l, buckets, [r]) == [true] + DecisionsUnswept(l, Served(l, buckets, r), []);
  }

  // ---------- Exactly who is admitted ----------

  lemma {:induction false} AdmittedAppends(key: string, reqs: seq<Request>, decisions: seq<bool>, r: Request, d: bool)
    requires |reqs| == |decisions|
    ensures Admitted(key, reqs + [r], decisions + [d]) == Admitted(key, reqs, decisions) + if r.key == key && d then 1 else 0
    decreases |reqs|
  {
    if reqs == [] {
      assert reqs + [r] == [r] && decisions + [d] == [d];
    } else {
      assert (reqs + [r])[1..] == reqs[1..] + [r] && (decisions + [d])[1..] == decisions[1..] + [d];
      AdmittedAppends(key, reqs[1..], decisions[1..], r, d);
    }
  }

  lemma {:induction false} ServedAppends(l: Limits, buckets: Buckets, reqs: seq<Request>, r: Request)
    ensures AllServed(l, buckets, reqs + [r]) == Served(l, AllServed(l, buckets, reqs), r)
    ensures DecisionsUnswept(l, buckets, reqs + [r]) ==
            DecisionsUnswept(l, buckets, reqs) + [Admits(l, AllServed(l, buckets, reqs), r)]
    decreases |reqs|
  {
    if reqs == [] {
      assert reqs + [r] == [r] && [r][1..] == [];
    } else {
      assert (reqs + [r])[1..] == reqs[1..] + [r];
      ServedAppends(l, Served(l, buckets, reqs[0]), reqs[1..], r);
    }
  }

  /** What a full bucket at the j-th request would have left by time t. */
  function LeftSince(l: Limits, key: string, reqs: seq<Request>, decisions: seq<bool>, t: int, j: nat): real
    requires |reqs| == |decisions| && j <= |reqs|
  {
    if j == |reqs| then l.burst
    else l.burst + Gain(l, reqs[j].at, t) - Admitted(key, reqs[j..], decisions[j..]) as real
  }

  lemma LeftAppends(l: Limits, key: string, reqs: seq<Request>, decisions: seq<bool>, r: Request, d: bool, t: int, j: nat)
    requires |reqs| == |decisions| && j <= |reqs|
    ensures LeftSince(l, key, reqs + [r], decisions + [d], t, j) ==
            LeftSince(l, key, reqs, decisions, r.at, j) + Gain(l, r.at, t) - if r.key == key && d then 1.0 else 0.0
    ensures j < |reqs| && !(r.key == key && d) ==>
              LeftSince(l, key, reqs + [r], decisions + [d], t, j) == LeftSince(l, key, reqs, decisions, t, j)
  {
    if j < |reqs| {
      assert (reqs + [r])[j..] == reqs[j..] + [r] && (decisions + [d])[j..] == decisions[j..] + [d];
      AdmittedAppends(key, reqs[j..], decisions[j..], r, d);
      GainAdds(l, reqs[j].at, r.at, t);
    } else {
      assert (reqs + [r])[j..] == [] + [r] && (decisions + [d])[j..] == [] + [d];
      AdmittedAppends(key, [], [], r, d);
      NoGain(l, r.at);
    }
  }

  predicate AtMostLeft(l: Limits, key: string, reqs: seq<Request>, decisions: seq<bool>, t: int, level: real, j: nat) {
    |reqs| == |decisions| && j <= |reqs| ==> level <= LeftSince(l, key, reqs, decisions, t, j)
  }

  /** The level is the least of what is left since any earlier request. */
  ghost predicate LeastLeft(l: Limits, key: string, reqs: seq<Request>, decisions: seq<bool>, t: int, level: real, w: nat) {
    && |reqs| == |decisions| && w <= |reqs| && level == LeftSince(l, key, reqs, decisions, t, w)
    && forall j: nat {:trigger AtMostLeft(l, key, reqs, decisions, t, level, j)} :: AtMostLeft(l, key, reqs, decisions, t, level, j)
  }

  lemma LevelLater(l: Limits, buckets: Buckets, from: int, r: Request, key: string, t: int)
    requires Valid(l) && BucketsOk(l, buckets, from) && from <= r.at <= t
    ensures var level, after := Level(l, buckets, key, r.at), Level(l, Served(l, buckets, r), key, t);
            after == if r.key == key
                     then Lesser(l.burst, level - (if Admits(l, buckets, r) then 1.0 else 0.0) + Gain(l, r.at, t))
                     else Level(l, buckets, key, t)
  {
  }

  /** One more request of the same client. */
  lemma OwnLeast(l: Limits, reqs: seq<Request>, decisions: seq<bool>, r: Request, d: bool, t: int, level: real, w: nat) returns (w': nat)
    requires Valid(l) && LeastLeft(l, r.key, reqs, decisions, r.at, level, w) && r.at <= t
    ensures LeastLeft(l, r.key, reqs + [r], decisions + [d], t, Lesser(l.burst, level - (if d then 1.0 else 0.0) + Gain(l, r.at, t)), w')
  {
    var flown := level - (if d then 1.0 else 0.0) + Gain(l, r.at, t);
    var after := Lesser(l.burst, flown);
    w' := if after == l.burst then |reqs| + 1 else w;
    forall j: nat ensures AtMostLeft(l, r.key, reqs + [r], decisions + [d], t, after, j) {
      assert AtMostLeft(l, r.key, reqs, decisions, r.at, level, j);
      if j <= |reqs| { LeftAppends(l, r.key, reqs, decisions, r, d, t, j); }
    }
    LeftAppends(l, r.key, reqs, decisions, r, d, t, w);
  }

  /** One more request of another client. */
  lemma OtherLeast(l: Limits, key: string, reqs: seq<Request>, decisions: seq<bool>, r: Request, d: bool, t: int, level: real, w: nat)
      returns (w': nat)
    requires Valid(l) && LeastLeft(l, key, reqs, decisions, t, level, w) && r.at <= t && r.key != key
    ensures LeastLeft(l, key, reqs + [r], decisions + [d], t, level, w')
  {
    w' := if w == |reqs| then |reqs| + 1 else w;
    GainGrows(l, r.at, t);
    assert AtMostLeft(l, key, reqs, decisions, t, level, |reqs|);
    forall j: nat ensures AtMostLeft(l, key, reqs + [r], decisions + [d], t, level, j) {
      assert AtMostLeft(l, key, reqs, decisions, t, level, j);
      if j <= |reqs| { LeftAppends(l, key, reqs, decisions, r, d, t, j); }
    }
    if w < |reqs| { LeftAppends(l, key, reqs, decisions, r, d, t, w); }
  }

  function LastAt(start: int, reqs: seq<Request>): int {
    if reqs == [] then start else reqs[|reqs| - 1].at
  }

  /** What one more request does to the order, the decisions and the level. */
  lemma OneMore(l: Limits, start: int, before: seq<Request>, r: Request, key: string, t: int)
    requires Valid(l) && InOrder(start, before + [r]) && r.at <= t
    ensures InOrder(start, before) && LastAt(start, before) <= r.at
    ensures |DecisionsUnswept(l, map[], before)| == |before|
    ensures var buckets := AllServed(l, map[], before);
            var d := Admits(l, buckets, r);
            DecisionsUnswept(l, map[], before + [r]) == DecisionsUnswept(l, map[], before) + [d] &&
            Level(l, AllServed(l, map[], before + [r]), key, t) ==
              if r.key == key then Lesser(l.burst, Level(l, buckets, key, r.at) - (if d then 1.0 else 0.0) + Gain(l, r.at, t))
              else Level(l, buckets, key, t)
  {
    OrderSplit(start, before, [r]);
    ServedAppends(l, map[], before, r);
    SameLength(l, map[], before);
    forall k ensures BucketOk(l, map[], start, k) {}
    AllServedOk(l, map[], start, before);
    LevelLater(l, AllServed(l, map[], before), LastAt(start, before), r, key, t);
  }

  lemma NothingLeftYet(l: Limits, key: string, t: int)
    ensures LeastLeft(l, key, [], [], t, l.burst, 0)
  {
    forall j: nat ensures AtMostLeft(l, key, [], [], t, l.burst, j) {}
  }

  /** A client's level is the least of what is left since any earlier request of anyone, or full. */
  lemma {:induction false} LevelIsLeast(l: Limits, start: int, reqs: seq<Request>, key: string, t: int) returns (w: nat)
    requires Valid(l) && InOrder(start, reqs) && LastAt(start, reqs) <= t
    ensures LeastLeft(l, key, reqs, DecisionsUnswept(l, map[], reqs), t, Level(l, AllServed(l, map[], reqs), key, t), w)
    decreases |reqs|
  {
    if reqs == [] {
      w := 0;
      NothingLeftYet(l, key, t);
    } else {
      var before, r := reqs[..|reqs| - 1], reqs[|reqs| - 1];
      assert before + [r] == reqs;
      OneMore(l, start, before, r, key, t);
      var d, decisions := Admits(l, AllServed(l, map[], before), r), DecisionsUnswept(l, map[], before);
      if r.key == key {
        w := LevelIsLeast(l, start, before, key, r.at);
        w := OwnLeast(l, before, decisions, r, d, t, Level(l, AllServed(l, map[], before), key, r.at), w);
      } else {
        w := LevelIsLeast(l, start, before, key, t);
        w := OtherLeast(l, key, before, decisions, r, d, t, Level(l, AllServed(l, map[], before), key, t), w);
      }
    }
  }

  /** Request i and all that its client was granted from request j on fit into one burst and
      what flowed in since request j. */
  predicate FitsSince(l: Limits, reqs: seq<Request>, decisions: seq<bool>, i: nat, j: nat) {
    j <= i < |reqs| && |reqs| == |decisions| ==>
      (1 + Admitted(reqs[i].key, reqs[j..i], decisions[j..i])) as real <=
        l.burst + l.rate * ((reqs[i].at - reqs[j].at) as real / SECOND as real)
  }

  /** Fitting since request j is having a token left of a bucket that was full then. */
  lemma FitsIsLeft(l: Limits, reqs: seq<Request>, all: seq<bool>, i: nat, j: nat)
    requires j <= i < |reqs| == |all|
    ensures FitsSince(l, reqs, all, i, j) <==> 1.0 <= LeftSince(l, reqs[i].key, reqs[..i], all[..i], reqs[i].at, j)
  {
    assert reqs[j..i] == reqs[..i][j..] && all[j..i] == all[..i][j..];
    assert Gain(l, reqs[j].at, reqs[i].at) == l.rate * ((reqs[i].at - reqs[j].at) as real / SECOND as real);
    if j == i { NoGain(l, reqs[i].at); }
  }

  /** Of a least value, being at least 1 is being so for all. */
  lemma LeastAtLeastOne(l: Limits, key: string, reqs: seq<Request>, decisions: seq<bool>, t: int, level: real, w: nat)
    requires LeastLeft(l, key, reqs, decisions, t, level, w)
    ensures 1.0 <= level ==> forall j: nat :: j <= |reqs| ==> 1.0 <= LeftSince(l, key, reqs, decisions, t, j)
    ensures level < 1.0 ==> LeftSince(l, key, reqs, decisions, t, w) < 1.0
  {
    forall j: nat | 1.0 <= level && j <= |reqs| ensures 1.0 <= LeftSince(l, key, reqs, decisions, t, j) {
      assert AtMostLeft(l, key, reqs, decisions, t, level, j);
    }
  }

  /** A request is admitted exactly when, counted from every earlier request, it and what its
      client was granted since stay within burst plus rate times the time since. */
  lemma AdmittedExactly(l: Limits, start: int, reqs: seq<Request>, i: nat)
    requires Valid(l) && InOrder(start, reqs) && i < |reqs|
    ensures |Decisions(l, State(map[], start), reqs)| == |reqs|
    ensures var all := Decisions(l, State(map[], start), reqs);
            all[i] <==> forall j: nat {:trigger FitsSince(l, reqs, all, i, j)} :: j <= i ==> FitsSince(l, reqs, all, i, j)
  {
    var all, before, r := Decisions(l, State(map[], start), reqs), reqs[..i], reqs[i];
    SweepingChangesNothing(l, start, reqs);
    SameLength(l, map[], reqs);
    DecisionAt(l, reqs, i);
    assert before + reqs[i..] == reqs;
    OrderSplit(start, before, reqs[i..]);
    var level := Level(l, AllServed(l, map[], before), r.key, r.at);
    var w := LevelIsLeast(l, start, before, r.key, r.at);
    LeastAtLeastOne(l, r.key, before, all[..i], r.at, level, w);
    FitsIsLeft(l, reqs, all, i, w);
    forall j: nat | j <= i && all[i] ensures FitsSince(l, reqs, all, i, j) { FitsIsLeft(l, reqs, all, i, j); }
  }

  lemma DecisionAt(l: Limits, reqs: seq<Request>, i: nat)
    requires i < |reqs|
    ensures var all := DecisionsUnswept(l, map[], reqs);
            |all| == |reqs| && all[..i] == DecisionsUnswept(l, map[], reqs[..i]) &&
            all[i] == Admits(l, AllServed(l, map[], reqs[..i]), reqs[i])
  {
    assert reqs[..i] + reqs[i..] == reqs;
    SameLength(l, map[], reqs);
    SameLength(l, map[], reqs[..i]);
    DecisionsSplit(l, map[], reqs[..i], reqs[i..]);
  }

  /** How many requests a client made. */
  function Asked(key: string, reqs: seq<Request>): nat
    decreases |reqs|
  {
    if reqs == [] then 0 else (if reqs[0].key == key then 1 else 0) + Asked(key, reqs[1..])
  }

  lemma {:induction false} AdmittedAtMostAsked(key: string, reqs: seq<Request>, decisions: seq<bool>, j: nat)
    requires |reqs| == |decisions| && j <= |reqs|
    ensures Admitted(key, reqs[j..], decisions[j..]) <= Asked(key, reqs)
    decreases |reqs|
  {
    if reqs != [] {
      if j == 0 {
        assert reqs[0..] == reqs && decisions[0..] == decisions && reqs[1..][0..] == reqs[1..] && decisions[1..][0..] == decisions[1..];
        AdmittedAtMostAsked(key, reqs[1..], decisions[1..], 0);
      } else {
        assert reqs[j..] == reqs[1..][j - 1..] && decisions[j..] == decisions[1..][j - 1..];
        AdmittedAtMostAsked(key, reqs[1..], decisions[1..], j - 1);
      }
    }
  }

  /** The burst is really there: as long as a client has made no more requests than the burst,
      this one included, none is refused, however close together they come. */
  lemma BurstIsAdmitted(l: Limits, start: int, reqs: seq<Request>, i: nat)
    requires Valid(l) && InOrder(start, reqs) && i < |reqs| && (1 + Asked(reqs[i].key, reqs[..i])) as real <= l.burst
    ensures |Decisions(l, State(map[], start), reqs)| == |reqs| && Decisions(l, State(map[], start), reqs)[i]
  {
    AdmittedExactly(l, start, reqs, i);
    var all := Decisions(l, State(map[], start), reqs);
    forall j: nat | j <= i ensures FitsSince(l, reqs, all, i, j) {
      assert reqs[..i][j..] == reqs[j..i] && all[..i][j..] == all[j..i];
      AdmittedAtMostAsked(reqs[i].key, reqs[..i], all[..i], j);
      OrderedAt(start, reqs, j, i);
      GainGrows(l, reqs[j].at, reqs[i].at);
    }
  }

  lemma {:induction false} OrderedAt(start: int, reqs: seq<Request>, j: nat, i: nat)
    requires InOrder(start, reqs) && j <= i < |reqs|
    ensures start <= reqs[j].at <= reqs[i].at
    decreases |reqs|
  {
    if i > 0 {
      OrderedAt(reqs[0].at, reqs[1..], if j == 0 then 0 else j - 1, i - 1);
    }
  }

  function AfterAll(l: Limits, s: State, reqs: seq<Request>): State
    requires Valid(l)
    decreases |reqs|
  {
    if reqs == [] then s else AfterAll(l, Step(l, s, reqs[0]), reqs[1..])
  }

  lemma {:induction false} DecidesNext(l: Limits, s: State, reqs: seq<Request>, r: Request)
    requires Valid(l)
    ensures AfterAll(l, s, reqs + [r]) == Step(l, AfterAll(l, s, reqs), r)
    ensures Decisions(l, s, reqs + [r]) == Decisions(l, s, reqs) + [Admits(l, Swept(l, AfterAll(l, s, reqs), r.at).buckets, r)]
    decreases |reqs|
  {
    if reqs == [] {
      assert reqs + [r] == [r] && [r][1..] == [];
    } else {
      assert (reqs + [r])[1..] == reqs[1..] + [r];
      DecidesNext(l, Step(l, s, reqs[0]), reqs[1..], r);
    }
  }

  // ---------- The limiter object ----------

  /** The smallest whole number that is not below x. */
  function Ceil(x: real): int { -((-x).Floor) }

  class RateLimiter {
    const limits: Limits
    var buckets: Buckets
    var lastSweep: int

    /** When it was made, what it was asked since, and what it answered. */
    ghost var start: int
    ghost var past: seq<Request>
    ghost var answers: seq<bool>

    ghost function Abs(): State
      reads this
    {
      State(buckets, lastSweep)
    }

    /** Its state and its answers are those of the model after all it was asked. */
    ghost predicate Faithful()
      reads this
    {
      && Valid(limits)
      && Abs() == AfterAll(limits, State(map[], start), past)
      && answers == Decisions(limits, State(map[], start), past)
    }

    /** A burst of 0 or less stands for the rate, rounded up: at least one token. */
    constructor (rate: real, burst: int, now: int)
      requires rate > 0.0
      ensures Valid(limits) && limits.rate == rate
      ensures limits.burst == if burst > 0 then burst as real else Ceil(rate) as real
      ensures Faithful() && Abs() == State(map[], now) && start == now && past == [] && answers == []
    {
      var b := burst as real;
      if b <= 0.0 { b := Ceil(rate) as real; }
      limits := Limits(rate, b);
      buckets, lastSweep := map[], now;
      start, past, answers := now, [], [];
    }

    /** On a clock that never goes back the answer is yes exactly when, counted from every earlier
        request, this one and what its client was granted since stay within burst plus rate times
        the time since. */
    method Allow(key: string, now: int) returns (ok: bool)
      requires Faithful()
      modifies this
      ensures Faithful() && start == old(start) && past == old(past) + [Request(key, now)] && answers == old(answers) + [ok]
      ensures Abs() == Step(limits, old(Abs()), Request(key, now))
      ensures InOrder(start, past) ==>
                (ok <==> forall j: nat {:trigger FitsSince(limits, past, answers, |old(past)|, j)} ::
                           j <= |old(past)| ==> FitsSince(limits, past, answers, |old(past)|, j))
    {
      ok := Decide(key, now);
      DecidesNext(limits, State(map[], start), past, Request(key, now));
      past, answers := past + [Request(key, now)], answers + [ok];
      if InOrder(start, past) { AdmittedExactly(limits, start, past, |past| - 1); }
    }

    /** Sweep, refill, and spend a token if there is one. */
    method Decide(key: string, now: int) returns (ok: bool)
      requires Valid(limits)
      modifies this`buckets, this`lastSweep
      ensures ok == Admits(limits, Swept(limits, old(Abs()), now).buckets, Request(key, now))
      ensures Abs() == Step(limits, old(Abs()), Request(key, now))
    {
      Sweep(now);
      ghost var swept := Abs();
      assert swept == Swept(limits, old(Abs()), now);
      var b := if key in buckets then buckets[key] else Bucket(limits.burst, now);
      NoGain(limits, now);
      var elapsed := (now - b.last) as real / SECOND as real;
      var tokens := Lesser(limits.burst, b.tokens + limits.rate * elapsed);
      assert tokens == Level(limits, swept.buckets, key, now);
      if tokens < 1.0 {
        buckets := buckets[key := Bucket(tokens, now)];
        return false;
      }
      buckets := buckets[key := Bucket(tokens - 1.0, now)];
      ok := true;
    }

    /** At most once a minute, drop the buckets that are full again. */
    method Sweep(now: int)
      requires Valid(limits)
      modifies this`buckets, this`lastSweep
      ensures Abs() == Swept(limits, old(Abs()), now)
    {
      if now - lastSweep < MINUTE { return; }
      lastSweep := now;
      var refillTime := (limits.burst / limits.rate * SECOND as real).Floor;
      var rest := buckets.Keys;
      ghost var was := buckets;
      while rest != {}
        invariant rest <= was.Keys && lastSweep == now
        invariant buckets == map k | k in was && (k in rest || now - was[k].last <= refillTime) :: was[k]
        decreases |rest|
      {
        var k :| k in rest;
        rest := rest - {k};
        if now - buckets[k].last > refillTime { buckets := buckets - {k}; }
      }
    }
  }
}
