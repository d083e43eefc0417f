// Rate limiting (backend/internal/server/ratelimit.go): one token bucket, and buckets by key of
// which the idle ones are thrown away. Time counts whole ticks of the clock, as durations in Go
// are whole nanoseconds; tokens are real numbers.

module RateLimit {

  // Keys are only compared with each other; numbers stand for the client addresses.
  type Key = int

  datatype Bucket = Bucket(tokens: real, last: int)

  // Tokens earned per tick, the most a bucket holds, and the ticks (ten minutes of them) after
  // which an unused bucket may be thrown away.
  datatype Limits = Limits(rate: real, burst: int, idle: nat)

  const MAX_BUCKETS := 10000

  function Least(x: real, y: real): real { if x < y then x else y }

  // rate times ticks.
  function Earned(rate: real, ticks: int): real
    decreases if ticks < 0 then -ticks else ticks
  {
    if ticks == 0 then 0.0 else if ticks > 0 then Earned(rate, ticks - 1) + rate else Earned(rate, ticks + 1) - rate
  }

  lemma {:induction false} EarnedIsProduct(rate: real, ticks: nat)
    ensures Earned(rate, ticks) == rate * ticks as real
  {
    if ticks > 0 { EarnedIsProduct(rate, ticks - 1); }
  }

  lemma {:induction false} EarnedNext(rate: real, ticks: int)
    ensures Earned(rate, ticks + 1) == Earned(rate, ticks) + rate
  {
  }

  lemma {:induction false} EarnedSum(rate: real, a: int, b: nat)
    ensures Earned(rate, a + b) == Earned(rate, a) + Earned(rate, b)
  {
    if b > 0 {
      EarnedSum(rate, a, b - 1);
      EarnedNext(rate, a + b - 1);
    }
  }

  lemma {:induction false} EarnedBetween(rate: real, t: int, u: int)
    ensures Earned(rate, u - t) == Earned(rate, u) - Earned(rate, t)
  {
    if u >= t {
      EarnedSum(rate, t, u - t);
    } else {
      EarnedSum(rate, u, t - u);
      EarnedSum(rate, u - t, t - u);
    }
  }

  lemma {:induction false} EarnedGrows(rate: real, a: int, b: int)
    requires rate >= 0.0 && a <= b
    ensures Earned(rate, a) <= Earned(rate, b)
    decreases b - a
  {
    if a < b {
      EarnedGrows(rate, a, b - 1);
      EarnedNext(rate, b - 1);
    }
  }

  // The tokens at hand at time now.
  function Refilled(c: Limits, b: Bucket, now: int): real {
    Least(c.burst as real, b.tokens + Earned(c.rate, now - b.last))
  }

  predicate Admits(c: Limits, b: Bucket, now: int) { Refilled(c, b, now) >= 1.0 }

  // The bucket after a call.
  function Drawn(c: Limits, b: Bucket, now: int): Bucket {
    var tokens := Refilled(c, b, now);
    Bucket(if tokens < 1.0 then tokens else tokens - 1.0, now)
  }

  class RateBucket {
    const limits: Limits
    var tokens: real
    var last: int

    constructor (limits: Limits, now: int)
      ensures this.limits == limits && tokens == limits.burst as real && last == now
    {
      this.limits := limits;
      tokens, last := limits.burst as real, now;
    }

    method Allow(now: int) returns (ok: bool)
      modifies this
      ensures ok == Admits(limits, old(Bucket(tokens, last)), now)
      ensures Bucket(tokens, last) == Drawn(limits, old(Bucket(tokens, last)), now)
    {
      tokens := Least(limits.burst as real, tokens + Earned(limits.rate, now - last));
      last := now;
      if tokens < 1.0 {
        return false;
      }
      tokens := tokens - 1.0;
      ok := true;
    }
  }

  // ---- levels with a cap ----------------------------------------------------------------------------

  // A level that gains at each step and is capped, and what the steps since i alone make of a
  // full level.
  function Capped(cap: real, gains: seq<real>, j: nat): real
    requires j < |gains|
  {
    if j == 0 then cap else Least(cap, Capped(cap, gains, j - 1) + gains[j])
  }

  function Since(cap: real, gains: seq<real>, i: nat, j: nat): real
    requires i <= j < |gains|
  {
    if i == j then cap else Since(cap, gains, i, j - 1) + gains[j]
  }

  // The capped level is the least of them.
  lemma {:induction false} CappedIsLeast(cap: real, gains: seq<real>, j: nat) returns (i: nat)
    requires j < |gains|
    ensures i <= j && Capped(cap, gains, j) == Since(cap, gains, i, j)
    ensures forall k :: 0 <= k <= j ==> Capped(cap, gains, j) <= Since(cap, gains, k, j)
  {
    if j == 0 {
      i := 0;
    } else {
      var before := CappedIsLeast(cap, gains, j - 1);
      i := if Capped(cap, gains, j) == cap then j else before;
      forall k | 0 <= k <= j ensures Capped(cap, gains, j) <= Since(cap, gains, k, j) {
        if k < j { assert Capped(cap, gains, j - 1) <= Since(cap, gains, k, j - 1); }
      }
    }
  }

  // ---- one bucket over a sequence of calls -----------------------------------------------------

  // The bucket before call n, created full at the first call.
  function BucketAt(c: Limits, ts: seq<int>, n: nat): Bucket
    requires n <= |ts| && ts != []
  {
    if n == 0 then Bucket(c.burst as real, ts[0]) else Drawn(c, BucketAt(c, ts, n - 1), ts[n - 1])
  }

  predicate Accepted(c: Limits, ts: seq<int>, j: nat)
    requires j < |ts|
  {
    Admits(c, BucketAt(c, ts, j), ts[j])
  }

  // How many of the calls from i to before j are accepted.
  function Taken(c: Limits, ts: seq<int>, i: nat, j: nat): nat
    requires i <= j <= |ts|
  {
    if i == j then 0 else Taken(c, ts, i, j - 1) + if Accepted(c, ts, j - 1) then 1 else 0
  }

  // What the bucket gains from call j - 1 to call j.
  function Gain(c: Limits, ts: seq<int>, j: nat): real
    requires j < |ts|
  {
    if j == 0 then 0.0
    else Earned(c.rate, ts[j] - ts[j - 1]) - if Accepted(c, ts, j - 1) then 1.0 else 0.0
  }

  function Gains(c: Limits, ts: seq<int>): (r: seq<real>)
    ensures |r| == |ts|
  {
    seq(|ts|, j requires 0 <= j < |ts| => Gain(c, ts, j))
  }

  lemma {:induction false} TokensAreCapped(c: Limits, ts: seq<int>, j: nat)
    requires j < |ts|
    ensures Refilled(c, BucketAt(c, ts, j), ts[j]) == Capped(c.burst as real, Gains(c, ts), j)
  {
    if j > 0 { TokensAreCapped(c, ts, j - 1); }
  }

  lemma {:induction false} SinceIsRoom(c: Limits, ts: seq<int>, i: nat, j: nat)
    requires i <= j < |ts|
    ensures Since(c.burst as real, Gains(c, ts), i, j) ==
              c.burst as real + Earned(c.rate, ts[j] - ts[i]) - Taken(c, ts, i, j) as real
  {
    if i < j {
      SinceIsRoom(c, ts, i, j - 1);
      EarnedBetween(c.rate, ts[i], ts[j]);
      EarnedBetween(c.rate, ts[i], ts[j - 1]);
      EarnedBetween(c.rate, ts[j - 1], ts[j]);
    }
  }

  // One more call fits in the window from call i to call j.
  ghost predicate Fits(c: Limits, ts: seq<int>, i: nat, j: nat)
    requires i <= j < |ts|
  {
    (Taken(c, ts, i, j) + 1) as real <= c.burst as real + Earned(c.rate, ts[j] - ts[i])
  }

  // The bucket accepts exactly the calls that keep every window within burst + rate * length:
  // none more, and none less.
  lemma {:induction false} AcceptedIff(c: Limits, ts: seq<int>, j: nat)
    requires j < |ts|
    ensures Accepted(c, ts, j) <==> forall i :: 0 <= i <= j ==> Fits(c, ts, i, j)
  {
    var cap, gains := c.burst as real, Gains(c, ts);
    TokensAreCapped(c, ts, j);
    var i := CappedIsLeast(cap, gains, j);
    SinceIsRoom(c, ts, i, j);
    if Accepted(c, ts, j) {
      forall k | 0 <= k <= j ensures Fits(c, ts, k, j) {
        SinceIsRoom(c, ts, k, j);
        assert Capped(cap, gains, j) <= Since(cap, gains, k, j);
      }
    } else {
      assert !Fits(c, ts, i, j);
    }
  }

  ghost predicate Ordered(ts: seq<int>) { forall i, j :: 0 <= i < j < |ts| ==> ts[i] <= ts[j] }

  lemma {:induction false} WindowEarned(c: Limits, ts: seq<int>, i: nat, j: nat)
    requires i <= j < |ts| && Ordered(ts) && c.rate >= 0.0 && c.burst >= 0
    ensures Taken(c, ts, i, j + 1) as real <= c.burst as real + Earned(c.rate, ts[j] - ts[i])
  {
    if Accepted(c, ts, j) {
      AcceptedIff(c, ts, j);
      assert Fits(c, ts, i, j);
    } else if i < j {
      WindowEarned(c, ts, i, j - 1);
      EarnedGrows(c.rate, ts[j - 1] - ts[i], ts[j] - ts[i]);
    } else {
      assert Taken(c, ts, i, i) == 0;
    }
  }

  // Over any window of calls at most burst + rate * length are accepted.
  lemma {:induction false} WindowBound(c: Limits, ts: seq<int>, i: nat, j: nat)
    requires i <= j < |ts| && Ordered(ts) && c.rate >= 0.0 && c.burst >= 0
    ensures Taken(c, ts, i, j + 1) as real <= c.burst as real + c.rate * (ts[j] - ts[i]) as real
  {
    WindowEarned(c, ts, i, j);
    EarnedIsProduct(c.rate, ts[j] - ts[i]);
  }

  // ---- buckets by key ----------------------------------------------------------------------------

  function Idle(c: Limits, m: map<Key, Bucket>, now: int): set<Key> { set k | k in m && now - m[k].last > c.idle }

  function Swept(c: Limits, m: map<Key, Bucket>, now: int): map<Key, Bucket> { m - Idle(c, m, now) }

  // The table a new key finds: with too many buckets the idle ones go first.
  function Pruning(c: Limits, m: map<Key, Bucket>, key: Key, now: int, evict: bool): map<Key, Bucket> {
    if key !in m && evict && |m| > MAX_BUCKETS then Swept(c, m, now) else m
  }

  // The key's bucket, a full one if it has none.
  function Own(c: Limits, m: map<Key, Bucket>, key: Key, now: int): Bucket {
    if key in m then m[key] else Bucket(c.burst as real, now)
  }

  function AfterCall(c: Limits, m: map<Key, Bucket>, key: Key, now: int, evict: bool): map<Key, Bucket> {
    Pruning(c, m, key, now, evict)[key := Drawn(c, Own(c, m, key, now), now)]
  }

  predicate Answer(c: Limits, m: map<Key, Bucket>, key: Key, now: int) { Admits(c, Own(c, m, key, now), now) }

  class Limiter {
    const limits: Limits
    var bucket: map<Key, Bucket>

    constructor (limits: Limits)
      ensures this.limits == limits && bucket == map[]
    {
      this.limits := limits;
      bucket := map[];
    }

    method Allow(key: Key, now: int) returns (ok: bool)
      modifies this
      ensures ok == Answer(limits, old(bucket), key, now)
      ensures bucket == AfterCall(limits, old(bucket), key, now, true)
    {
      var b := Bucket(limits.burst as real, now);
      if key in bucket {
        b := bucket[key];
      } else if |bucket| > MAX_BUCKETS {
        Sweep(now);
      }
      b := Bucket(Least(limits.burst as real, b.tokens + Earned(limits.rate, now - b.last)), now);
      ok := b.tokens >= 1.0;
      if ok {
        b := b.(tokens := b.tokens - 1.0);
      }
      bucket := bucket[key := b];
    }

    // Deletes every bucket that was idle for too long.
    method Sweep(now: int)
      modifies this
      ensures bucket == Swept(limits, old(bucket), now)
    {
      var keys: set<Key> := bucket.Keys;
      var gone: set<Key> := {};
      while exists k :: k in keys
        invariant keys <= bucket.Keys && gone <= bucket.Keys
        invariant forall k :: k in bucket ==> (k in gone <==> k !in keys && now - bucket[k].last > limits.idle)
        decreases |keys|
      {
        var k :| k in keys;
        keys := keys - {k};
        if now - bucket[k].last > limits.idle {
          gone := gone + {k};
        }
      }
      forall k ensures k in gone <==> k in Idle(limits, bucket, now) { }
      bucket := bucket - gone;
    }
  }

  datatype Call = Call(key: Key, now: int)

  function Table(c: Limits, calls: seq<Call>, n: nat, evict: bool): map<Key, Bucket>
    requires n <= |calls|
  {
    if n == 0 then map[]
    else AfterCall(c, Table(c, calls, n - 1, evict), calls[n - 1].key, calls[n - 1].now, evict)
  }

  predicate Answered(c: Limits, calls: seq<Call>, j: nat, evict: bool)
    requires j < |calls|
  {
    Answer(c, Table(c, calls, j, evict), calls[j].key, calls[j].now)
  }

  // ---- without eviction each key has a bucket of its own --------------------------------------------

  // When the key was called, among the first n calls.
  function Times(calls: seq<Call>, key: Key, n: nat): seq<int>
    requires n <= |calls|
  {
    if n == 0 then []
    else Times(calls, key, n - 1) + if calls[n - 1].key == key then [calls[n - 1].now] else []
  }

  lemma {:induction false} BucketOfPrefix(c: Limits, ts: seq<int>, us: seq<int>, n: nat)
    requires ts != [] && ts <= us && n <= |ts|
    ensures BucketAt(c, ts, n) == BucketAt(c, us, n)
  {
    if n > 0 { BucketOfPrefix(c, ts, us, n - 1); }
  }

  lemma {:induction false} OneKey(c: Limits, calls: seq<Call>, key: Key, n: nat)
    requires n <= |calls|
    ensures var m := Table(c, calls, n, false); var ts := Times(calls, key, n);
            && (key in m <==> ts != [])
            && (ts != [] ==> m[key] == BucketAt(c, ts, |ts|))
  {
    if n > 0 {
      OneKey(c, calls, key, n - 1);
      var ts := Times(calls, key, n - 1);
      if calls[n - 1].key == key {
        var us := ts + [calls[n - 1].now];
        if ts != [] { BucketOfPrefix(c, ts, us, |ts|); }
        assert BucketAt(c, us, |us|) == Drawn(c, BucketAt(c, us, |ts|), calls[n - 1].now);
      } else {
        assert Times(calls, key, n) == ts;
      }
    }
  }

  // A call is answered as the key's own bucket answers it, whatever the other keys do.
  lemma {:induction false} AnsweredByOwnBucket(c: Limits, calls: seq<Call>, j: nat)
    requires j < |calls|
    ensures var ts := Times(calls, calls[j].key, j + 1);
            && |ts| > 0 && ts[|ts| - 1] == calls[j].now
            && (Answered(c, calls, j, false) <==> Accepted(c, ts, |ts| - 1))
  {
    var key := calls[j].key;
    var before, ts := Times(calls, key, j), Times(calls, key, j + 1);
    OneKey(c, calls, key, j);
    assert ts == before + [calls[j].now];
    if before != [] { BucketOfPrefix(c, before, ts, |before|); }
  }

  // ---- eviction --------------------------------------------------------------------------------------

  ghost predicate InOrder(calls: seq<Call>) {
    forall i, j :: 0 <= i < j < |calls| ==> calls[i].now <= calls[j].now
  }

  // No bucket is below zero, and none was used after now.
  ghost predicate Settled(m: map<Key, Bucket>, now: int) {
    forall k :: k in m ==> m[k].tokens >= 0.0 && m[k].last <= now
  }

  // An idle bucket would be full again.
  ghost predicate FullAgain(c: Limits, b: Bucket, now: int) {
    b.tokens + Earned(c.rate, now - b.last) >= c.burst as real
  }

  // Every bucket of the pruned table is the full table's, and those it lacks would be full again.
  ghost predicate Pruned(c: Limits, m: map<Key, Bucket>, f: map<Key, Bucket>, now: int) {
    && (forall k :: k in m ==> k in f && f[k] == m[k])
    && (forall k :: k in f && k !in m ==> FullAgain(c, f[k], now))
  }

  ghost predicate Sane(c: Limits) { c.rate >= 0.0 && c.burst >= 0 }

  // The shortest time after which a bucket may be thrown away fills it.
  ghost predicate Refills(c: Limits) { Earned(c.rate, c.idle + 1) >= c.burst as real }

  lemma {:induction false} PrunedLater(c: Limits, m: map<Key, Bucket>, f: map<Key, Bucket>, now: int, later: int)
    requires c.rate >= 0.0 && Pruned(c, m, f, now) && now <= later
    ensures Pruned(c, m, f, later)
  {
    forall k | k in f && k !in m ensures FullAgain(c, f[k], later) {
      EarnedGrows(c.rate, now - f[k].last, later - f[k].last);
    }
  }

  lemma {:induction false} SweptPruned(c: Limits, m: map<Key, Bucket>, f: map<Key, Bucket>, now: int)
    requires Sane(c) && Refills(c) && Pruned(c, m, f, now) && Settled(f, now)
    ensures Pruned(c, Swept(c, m, now), f, now)
  {
    forall k | k in f && k !in Swept(c, m, now) ensures FullAgain(c, f[k], now) {
      if k in m { EarnedGrows(c.rate, c.idle + 1, now - f[k].last); }
    }
  }

  lemma {:induction false} CallPruned(c: Limits, m: map<Key, Bucket>, f: map<Key, Bucket>, call: Call)
    requires Sane(c) && Refills(c) && Settled(f, call.now) && Pruned(c, m, f, call.now)
    ensures Answer(c, m, call.key, call.now) == Answer(c, f, call.key, call.now)
    ensures Pruned(c, AfterCall(c, m, call.key, call.now, true), AfterCall(c, f, call.key, call.now, false), call.now)
  {
    SweptPruned(c, m, f, call.now);
    assert Refilled(c, Own(c, m, call.key, call.now), call.now) == Refilled(c, Own(c, f, call.key, call.now), call.now);
  }

  lemma {:induction false} CallSettled(c: Limits, f: map<Key, Bucket>, call: Call)
    requires c.rate >= 0.0 && c.burst >= 0 && Settled(f, call.now)
    ensures Settled(AfterCall(c, f, call.key, call.now, false), call.now)
  {
    var b := Own(c, f, call.key, call.now);
    EarnedGrows(c.rate, 0, call.now - b.last);
  }

  lemma {:induction false} TablePruned(c: Limits, calls: seq<Call>, n: nat, now: int)
    requires Sane(c) && Refills(c) && InOrder(calls) && n <= |calls|
    requires n > 0 ==> calls[n - 1].now <= now
    ensures Settled(Table(c, calls, n, false), now)
      && Pruned(c, Table(c, calls, n, true), Table(c, calls, n, false), now)
  {
    if n > 0 {
      var m, f, call := Table(c, calls, n - 1, true), Table(c, calls, n - 1, false), calls[n - 1];
      TablePruned(c, calls, n - 1, call.now);
      CallPruned(c, m, f, call);
      CallSettled(c, f, call);
      PrunedLater(c, Table(c, calls, n, true), Table(c, calls, n, false), call.now, now);
    }
  }

  // When ten minutes fill a bucket, throwing idle buckets away changes no answer.
  lemma {:induction false} EvictionUnseen(c: Limits, calls: seq<Call>, j: nat)
    requires Sane(c) && Refills(c) && InOrder(calls) && j < |calls|
    ensures Answered(c, calls, j, true) == Answered(c, calls, j, false)
  {
    TablePruned(c, calls, j, calls[j].now);
    CallPruned(c, Table(c, calls, j, true), Table(c, calls, j, false), calls[j]);
  }

  // How many of the key's calls from number i to before number j are let through.
  function LetThrough(c: Limits, calls: seq<Call>, key: Key, i: nat, j: nat): nat
    requires i <= j <= |calls|
  {
    if i == j then 0
    else
      LetThrough(c, calls, key, i, j - 1) +
      if calls[j - 1].key == key && Answered(c, calls, j - 1, true) then 1 else 0
  }

  lemma {:induction false} TakenOfPrefix(c: Limits, ts: seq<int>, us: seq<int>, i: nat, j: nat)
    requires ts != [] && ts <= us && i <= j <= |ts|
    ensures Taken(c, ts, i, j) == Taken(c, us, i, j)
  {
    if i < j {
      TakenOfPrefix(c, ts, us, i, j - 1);
      BucketOfPrefix(c, ts, us, j - 1);
    }
  }

  lemma {:induction false} TimesGrow(calls: seq<Call>, key: Key, i: nat, j: nat)
    requires i <= j <= |calls|
    ensures Times(calls, key, i) <= Times(calls, key, j)
  {
    if i < j { TimesGrow(calls, key, i, j - 1); }
  }

  // The next call of the key is answered as its own bucket would.
  lemma {:induction false} OwnCall(c: Limits, calls: seq<Call>, key: Key, j: nat)
    requires Sane(c) && Refills(c) && InOrder(calls) && j < |calls| && calls[j].key == key
    ensures var us := Times(calls, key, j + 1);
            && |us| == |Times(calls, key, j)| + 1
            && (Answered(c, calls, j, true) <==> Accepted(c, us, |us| - 1))
  {
    EvictionUnseen(c, calls, j);
    AnsweredByOwnBucket(c, calls, j);
  }

  // They are the calls its own bucket, never thrown away, accepts.
  lemma {:induction false} LetThroughIsTaken(c: Limits, calls: seq<Call>, key: Key, i: nat, j: nat)
    requires Sane(c) && Refills(c) && InOrder(calls) && i <= j <= |calls|
    ensures |Times(calls, key, i)| <= |Times(calls, key, j)|
    ensures LetThrough(c, calls, key, i, j) ==
            Taken(c, Times(calls, key, j), |Times(calls, key, i)|, |Times(calls, key, j)|)
  {
    if i < j {
      var ts, us := Times(calls, key, j - 1), Times(calls, key, j);
      var from := |Times(calls, key, i)|;
      LetThroughIsTaken(c, calls, key, i, j - 1);
      TimesGrow(calls, key, j - 1, j);
      if calls[j - 1].key == key {
        OwnCall(c, calls, key, j - 1);
        if ts != [] { TakenOfPrefix(c, ts, us, from, |ts|); }
      } else {
        assert us == ts;
      }
    }
  }

  // The key's calls before number j were made in order, no later than call j - 1.
  lemma {:induction false} TimesInOrder(calls: seq<Call>, key: Key, j: nat)
    requires InOrder(calls) && j <= |calls|
    ensures Ordered(Times(calls, key, j))
    ensures forall x :: 0 <= x < |Times(calls, key, j)| ==> j > 0 && Times(calls, key, j)[x] <= calls[j - 1].now
  {
    if j > 0 { TimesInOrder(calls, key, j - 1); }
  }

  // Those from number i on no earlier than call i.
  lemma {:induction false} TimesSince(calls: seq<Call>, key: Key, i: nat, j: nat)
    requires InOrder(calls) && i < j <= |calls|
    ensures |Times(calls, key, i)| <= |Times(calls, key, j)|
    ensures forall x :: |Times(calls, key, i)| <= x < |Times(calls, key, j)| ==> calls[i].now <= Times(calls, key, j)[x]
  {
    if i < j - 1 { TimesSince(calls, key, i, j - 1); }
  }

  lemma {:induction false} LimiterEarned(c: Limits, calls: seq<Call>, key: Key, i: nat, j: nat)
    requires Sane(c) && Refills(c) && InOrder(calls) && i < j <= |calls|
    ensures LetThrough(c, calls, key, i, j) as real <= c.burst as real + Earned(c.rate, calls[j - 1].now - calls[i].now)
  {
    var ts := Times(calls, key, j);
    var from := |Times(calls, key, i)|;
    LetThroughIsTaken(c, calls, key, i, j);
    TimesInOrder(calls, key, j);
    TimesSince(calls, key, i, j);
    assert Earned(c.rate, 0) == 0.0;
    EarnedGrows(c.rate, 0, calls[j - 1].now - calls[i].now);
    if from < |ts| {
      WindowEarned(c, ts, from, |ts| - 1);
      EarnedGrows(c.rate, ts[|ts| - 1] - ts[from], calls[j - 1].now - calls[i].now);
    }
  }

  // When ten minutes fill a bucket, the limiter lets at most burst + rate * length of a key's
  // calls through in any window, however many other keys there are and however often it sweeps.
  lemma {:induction false} LimiterBound(c: Limits, calls: seq<Call>, key: Key, i: nat, j: nat)
    requires Sane(c) && Refills(c) && InOrder(calls) && i < j <= |calls|
    ensures LetThrough(c, calls, key, i, j) as real <=
            c.burst as real + c.rate * (calls[j - 1].now - calls[i].now) as real
  {
    LimiterEarned(c, calls, key, i, j);
    EarnedIsProduct(c.rate, calls[j - 1].now - calls[i].now);
  }

  // ---- a run in which eviction shows ---------------------------------------------------------------

  // One key uses up its bucket and many others fill the table; after the idle time a new key
  // prunes it, and the first key comes back.
  function Scenario(c: Limits): (calls: seq<Call>)
    requires c.burst >= 0
    ensures |calls| == 2 * c.burst + MAX_BUCKETS + 1
  {
    seq(2 * c.burst + MAX_BUCKETS + 1, i requires 0 <= i < 2 * c.burst + MAX_BUCKETS + 1 =>
      if i < c.burst then Call(0, 0)
      else if i < c.burst + MAX_BUCKETS then Call(i - c.burst + 1, 0)
      else if i == c.burst + MAX_BUCKETS then Call(-1, c.idle + 1)
      else Call(0, c.idle + 1))
  }

  lemma {:induction false} UsedUp(c: Limits, n: nat, evict: bool)
    requires c.burst >= 1 && n <= c.burst
    ensures var m := Table(c, Scenario(c), n, evict);
            if n == 0 then m == map[]
            else |m| == 1 && (forall k :: k in m <==> k == 0) && m[0] == Bucket((c.burst - n) as real, 0)
  {
    if n > 0 {
      UsedUp(c, n - 1, evict);
      assert Earned(c.rate, 0) == 0.0;
    }
  }

  lemma {:induction false} FilledUp(c: Limits, x: nat, evict: bool)
    requires c.burst >= 1 && x <= MAX_BUCKETS
    ensures var m := Table(c, Scenario(c), c.burst + x, evict);
            |m| == x + 1 && (forall k :: k in m <==> 0 <= k <= x) && m[0] == Bucket(0.0, 0)
  {
    if x == 0 { UsedUp(c, c.burst, evict); } else { FilledUp(c, x - 1, evict); }
  }

  // The tokens that the first key finds when it comes back for the k-th time.
  ghost function Found(c: Limits, k: nat, evict: bool): real
    requires c.burst >= 1 && k <= c.burst
  {
    Refilled(c, Own(c, Table(c, Scenario(c), c.burst + MAX_BUCKETS + 1 + k, evict), 0, c.idle + 1), c.idle + 1)
  }

  lemma {:induction false} FoundFirst(c: Limits)
    requires c.burst >= 1 && !Refills(c)
    ensures Found(c, 0, true) == c.burst as real && Found(c, 0, false) < c.burst as real
  {
    FilledUp(c, MAX_BUCKETS, true);
    FilledUp(c, MAX_BUCKETS, false);
    var m := Table(c, Scenario(c), c.burst + MAX_BUCKETS, true);
    assert 0 in Idle(c, m, c.idle + 1);
    assert Earned(c.rate, 0) == 0.0;
  }

  lemma {:induction false} FoundNext(c: Limits, k: nat, evict: bool)
    requires c.burst >= 1 && 0 < k <= c.burst
    ensures Found(c, k, evict) == Found(c, k - 1, evict) - if Found(c, k - 1, evict) >= 1.0 then 1.0 else 0.0
  {
    var n := c.burst + MAX_BUCKETS + k;
    var m := Table(c, Scenario(c), n, evict);
    assert Scenario(c)[n] == Call(0, c.idle + 1);
    assert Own(c, Table(c, Scenario(c), n + 1, evict), 0, c.idle + 1) == Drawn(c, Own(c, m, 0, c.idle + 1), c.idle + 1);
    assert Earned(c.rate, 0) == 0.0;
  }

  lemma {:induction false} FoundLater(c: Limits, k: nat)
    requires c.burst >= 1 && !Refills(c) && k < c.burst
    ensures Found(c, k, true) == (c.burst - k) as real && Found(c, k, false) < (c.burst - k) as real
  {
    if k == 0 {
      FoundFirst(c);
    } else {
      FoundLater(c, k - 1);
      FoundNext(c, k, true);
      FoundNext(c, k, false);
    }
  }

  ghost predicate SameAnswers(c: Limits, calls: seq<Call>) {
    forall j :: 0 <= j < |calls| ==> Answered(c, calls, j, true) == Answered(c, calls, j, false)
  }

  // Throwing idle buckets away goes unnoticed in every run exactly when the idle time fills
  // a bucket.
  lemma {:induction false} EvictionUnseenIff(c: Limits)
    requires Sane(c)
    ensures (forall calls :: InOrder(calls) ==> SameAnswers(c, calls)) <==> Refills(c)
  {
    if Refills(c) {
      forall calls | InOrder(calls) ensures SameAnswers(c, calls) {
        forall j | 0 <= j < |calls| ensures Answered(c, calls, j, true) == Answered(c, calls, j, false) {
          EvictionUnseen(c, calls, j);
        }
      }
    } else {
      EarnedGrows(c.rate, 0, c.idle + 1);
      assert c.burst >= 1;
      var calls, j := Scenario(c), 2 * c.burst + MAX_BUCKETS;
      FoundLater(c, c.burst - 1);
      assert calls[j] == Call(0, c.idle + 1);
      assert Answered(c, calls, j, true) != Answered(c, calls, j, false);
      assert InOrder(calls);
    }
  }
}
