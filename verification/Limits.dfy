/**
  The abuse limits (internal/relay/limits.go): the per-recipient token bucket with its
  eviction of idle buckets, and the per-Device session cap.  Floating-point tokens are
  modelled as reals; the clock is whatever the caller passes.
 */
module Limits {
  import opened Base

  const SOFT_CAP := 4096
  const IDLE_TTL := 600.0

  datatype Params = Params(rate: real, burst: real) {
    predicate Disabled() { rate <= 0.0 && burst <= 0.0 }
  }

  datatype Bucket = Bucket(tokens: real, last: real)

  type Buckets = map<Key, Bucket>

  /** The three clock readings one call takes, in the order it takes them. */
  datatype Clock = Clock(sweep: real, start: real, now: real) {
    predicate Ordered() { sweep <= start <= now }
  }

  datatype Call = Call(key: Key, clock: Clock)

  function Min(a: real, b: real): real { if a <= b then a else b }

  // ---------------------------------------------------------------- one call

  function Sweep(bs: Buckets, cutoff: real): Buckets {
    map k | k in bs && !(bs[k].last < cutoff) :: bs[k]
  }

  /** The tokens that waiting earns: rate times the time waited. */
  function Gain(p: Params, elapsed: real): real { elapsed * p.rate }

  function Refill(p: Params, b: Bucket, now: real): Bucket {
    if now - b.last > 0.0 then Bucket(Min(b.tokens + Gain(p, now - b.last), p.burst), now)
    else Bucket(b.tokens, now)
  }

  function Charge(b: Bucket): (bool, Bucket) {
    if b.tokens < 1.0 then (false, b) else (true, Bucket(b.tokens - 1.0, b.last))
  }

  function Swept(bs: Buckets, c: Clock, evicting: bool): Buckets {
    if evicting && |bs| > SOFT_CAP then Sweep(bs, c.sweep - IDLE_TTL) else bs
  }

  /** The key's bucket as the call finds it: a missing one starts full. */
  function Find(p: Params, bs: Buckets, k: Key, start: real): Bucket {
    if k in bs then bs[k] else Bucket(p.burst, start)
  }

  /** One call of allow.  `evicting` distinguishes the limiter from one that never evicts. */
  function Allow(p: Params, bs: Buckets, c: Call, evicting: bool): (bool, Buckets) {
    if p.Disabled() then (true, bs)
    else
      var kept := Swept(bs, c.clock, evicting);
      var (ok, b) := Charge(Refill(p, Find(p, kept, c.key, c.clock.start), c.clock.now));
      (ok, kept[c.key := b])
  }

  function Answers(p: Params, bs: Buckets, calls: seq<Call>, evicting: bool): (r: seq<bool>)
    ensures |r| == |calls|
    decreases |calls|
  {
    if calls == [] then []
    else
      var (ok, next) := Allow(p, bs, calls[0], evicting);
      [ok] + Answers(p, next, calls[1..], evicting)
  }

  /** A nondecreasing clock, not before `t`. */
  predicate Ordered(calls: seq<Call>, t: real)
    decreases |calls|
  {
    calls == [] ||
    (t <= calls[0].clock.sweep && calls[0].clock.Ordered() && Ordered(calls[1..], calls[0].clock.now))
  }

  /** A call on one key costs another key its bucket exactly when more than 4096 buckets are kept and
      that one has not been touched for over 600 seconds. */
  lemma EvictsExactly(p: Params, bs: Buckets, c: Call, k: Key)
    requires !p.Disabled() && k != c.key
    ensures k in Allow(p, bs, c, true).1 <==> k in bs && (|bs| <= 4096 || bs[k].last >= c.clock.sweep - 600.0)
    ensures k in Allow(p, bs, c, true).1 ==> Allow(p, bs, c, true).1[k] == bs[k]
  {
  }

  /** Rate and burst, neither of them positive, switch the limiter off: every call is allowed. */
  lemma {:induction false} OffAllowsAll(p: Params, bs: Buckets, calls: seq<Call>, evicting: bool)
    requires p.rate <= 0.0 && p.burst <= 0.0
    ensures forall i :: 0 <= i < |calls| ==> Answers(p, bs, calls, evicting)[i]
    decreases |calls|
  {
    if calls != [] {
      assert Allow(p, bs, calls[0], evicting) == (true, bs);
      OffAllowsAll(p, bs, calls[1..], evicting);
    }
  }

  /** In every other case a call leaves its key a bucket. */
  lemma OffExactly(p: Params, bs: Buckets, c: Call, evicting: bool)
    requires c.key !in bs
    ensures c.key !in Allow(p, bs, c, evicting).1 <==> p.rate <= 0.0 && p.burst <= 0.0
  {
  }

  /** Allowed or not, a call that the limiter counts dates its key's bucket to the moment it read,
      also when the clock has gone back; an allowed one takes one token. */
  lemma CallDatesBucket(p: Params, bs: Buckets, c: Call, evicting: bool)
    requires !(p.rate <= 0.0 && p.burst <= 0.0)
    ensures var (ok, next) := Allow(p, bs, c, evicting);
            && c.key in next && next[c.key].last == c.clock.now
            && (c.key in bs && !evicting && c.clock.now <= bs[c.key].last ==>
                  next[c.key].tokens == if ok then bs[c.key].tokens - 1.0 else bs[c.key].tokens)
  {
  }

  // ---------------------------------------------------------------- the bucket invariant

  predicate BucketOk(p: Params, b: Bucket, t: real) {
    b.tokens <= p.burst && (b.tokens >= 0.0 || b.tokens == p.burst) && b.last <= t
  }

  ghost predicate BucketsOk(p: Params, bs: Buckets, t: real) {
    forall k :: k in bs ==> BucketOk(p, bs[k], t)
  }

  lemma GainNonNegative(p: Params, elapsed: real)
    requires p.rate >= 0.0 && elapsed >= 0.0
    ensures Gain(p, elapsed) >= 0.0
  {
  }

  /** Waiting twice earns what one wait of both lengths does. */
  lemma GainAdds(p: Params, first: real, second: real, both: real)
    requires both == first + second
    ensures Gain(p, both) == Gain(p, first) + Gain(p, second)
  {
    assert both * p.rate == first * p.rate + second * p.rate;
  }

  lemma RefillOk(p: Params, b: Bucket, t: real, now: real)
    requires p.rate >= 0.0 && BucketOk(p, b, t) && t <= now
    ensures BucketOk(p, Refill(p, b, now), now) && Refill(p, b, now).last == now
    ensures Refill(p, b, now).tokens >= b.tokens
  {
    GainNonNegative(p, now - b.last);
  }

  lemma AllowOk(p: Params, bs: Buckets, c: Call, evicting: bool, t: real)
    requires p.rate >= 0.0 && BucketsOk(p, bs, t) && t <= c.clock.sweep && c.clock.Ordered()
    ensures BucketsOk(p, Allow(p, bs, c, evicting).1, c.clock.now)
  {
    var kept := Swept(bs, c.clock, evicting);
    var b := Find(p, kept, c.key, c.clock.start);
    assert BucketOk(p, b, c.clock.start);
    RefillOk(p, b, c.clock.start, c.clock.now);
  }

  // ---------------------------------------------------------------- spacing

  /** Whatever the history, a call at least 1/rate after every earlier call for its key is
      allowed, with or without eviction. */
  lemma {:induction false} SpacedIsAllowed(p: Params, bs: Buckets, calls: seq<Call>, j: nat, evicting: bool, t: real)
    requires p.rate > 0.0 && p.burst >= 1.0 && j < |calls|
    requires Ordered(calls, t) && BucketsOk(p, bs, t)
    requires calls[j].key in bs ==> bs[calls[j].key].last + 1.0 / p.rate <= calls[j].clock.now
    requires forall i :: 0 <= i < j && calls[i].key == calls[j].key ==>
                           calls[i].clock.now + 1.0 / p.rate <= calls[j].clock.now
    ensures Answers(p, bs, calls, evicting)[j]
    decreases j
  {
    var c := calls[0];
    if j == 0 {
      RestedIsAllowed(p, bs, c, evicting, t);
    } else {
      AllowOk(p, bs, c, evicting, t);
      var next := Allow(p, bs, c, evicting).1;
      assert c.key != calls[j].key && calls[j].key in next ==> next[calls[j].key] == bs[calls[j].key];
      assert forall i :: 0 <= i < j - 1 ==> calls[1..][i] == calls[i + 1];
      SpacedIsAllowed(p, next, calls[1..], j - 1, evicting, c.clock.now);
    }
  }

  /** A bucket untouched for 1/rate holds a token. */
  lemma RestedBucket(p: Params, b: Bucket, now: real)
    requires p.rate > 0.0 && p.burst >= 1.0 && b.tokens >= 0.0 && b.last + 1.0 / p.rate <= now
    ensures Refill(p, b, now).tokens >= 1.0
  {
    OneOverPositive(p.rate);
    RestedFor(p, b, now, 1.0 / p.rate);
  }

  lemma RestedFor(p: Params, b: Bucket, now: real, gap: real)
    requires p.rate > 0.0 && p.burst >= 1.0 && b.tokens >= 0.0
    requires gap > 0.0 && Gain(p, gap) == 1.0 && b.last + gap <= now
    ensures Refill(p, b, now).tokens >= 1.0
  {
    var elapsed := now - b.last;
    GainNonNegative(p, elapsed - gap);
    GainAdds(p, gap, elapsed - gap, elapsed);
  }

  lemma RestedIsAllowed(p: Params, bs: Buckets, c: Call, evicting: bool, t: real)
    requires p.rate > 0.0 && p.burst >= 1.0 && BucketsOk(p, bs, t)
    requires t <= c.clock.sweep && c.clock.Ordered()
    requires c.key in bs ==> bs[c.key].last + 1.0 / p.rate <= c.clock.now
    ensures Allow(p, bs, c, evicting).0
  {
    if c.key in Swept(bs, c.clock, evicting) {
      RestedBucket(p, bs[c.key], c.clock.now);
    } else {
      RefillOk(p, Bucket(p.burst, c.clock.start), c.clock.start, c.clock.now);
    }
  }

  lemma OneOverPositive(rate: real)
    requires rate > 0.0
    ensures 1.0 / rate > 0.0 && 1.0 / rate * rate == 1.0
  {
  }

  /** What is left of the burst: a key that n more calls cannot exhaust. */
  predicate Holds(p: Params, bs: Buckets, k: Key, n: nat) {
    if k in bs then n as real <= bs[k].tokens <= p.burst else n as real <= p.burst
  }

  lemma HoldsOne(p: Params, bs: Buckets, c: Call, k: Key, n: nat, t: real)
    requires p.rate > 0.0 && BucketsOk(p, bs, t) && t <= c.clock.sweep && c.clock.Ordered()
    requires Holds(p, bs, k, n) && n > 0
    ensures c.key == k ==> Allow(p, bs, c, true).0 && Holds(p, Allow(p, bs, c, true).1, k, n - 1)
    ensures c.key != k ==> Holds(p, Allow(p, bs, c, true).1, k, n)
  {
    if c.key == k {
      var kept := Swept(bs, c.clock, true);
      var b := Find(p, kept, k, c.clock.start);
      assert BucketOk(p, b, c.clock.start);
      RefillOk(p, b, c.clock.start, c.clock.now);
    }
  }

  /** A burst: whatever else is called in between, and whatever is evicted, the first calls for a
      key without a bucket are allowed, as many as the burst has whole tokens, however close. */
  lemma {:induction false} BurstIsAllowed(p: Params, bs: Buckets, calls: seq<Call>, k: Key, n: nat, j: nat, t: real)
    requires p.rate > 0.0 && Ordered(calls, t) && BucketsOk(p, bs, t) && Holds(p, bs, k, n)
    requires j < |calls| && calls[j].key == k && |CallsFor(calls[..j], k)| < n
    ensures Answers(p, bs, calls, true)[j]
    decreases j
  {
    var c := calls[0];
    HoldsOne(p, bs, c, k, n, t);
    if j > 0 {
      AllowOk(p, bs, c, true, t);
      var left := if c.key == k then n - 1 else n;
      CallsForFirst(calls[..j], k);
      assert calls[..j][1..] == calls[1..][..j - 1];
      BurstIsAllowed(p, Allow(p, bs, c, true).1, calls[1..], k, left, j - 1, c.clock.now);
    }
  }

  /** The calls for k among these. */
  function CallsFor(calls: seq<Call>, k: Key): seq<Call>
    decreases |calls|
  {
    if calls == [] then [] else (if calls[0].key == k then [calls[0]] else []) + CallsFor(calls[1..], k)
  }

  lemma CallsForFirst(calls: seq<Call>, k: Key)
    requires calls != []
    ensures |CallsFor(calls, k)| == |CallsFor(calls[1..], k)| + (if calls[0].key == k then 1 else 0)
  {
  }

  // ---------------------------------------------------------------- the window bound

  predicate InWindow(c: Call, k: Key, s: real, e: real) {
    c.key == k && s <= c.clock.now <= e
  }

  /** The number of allowed calls for k in the window [s, e]. */
  function Allowed(calls: seq<Call>, answers: seq<bool>, k: Key, s: real, e: real): nat
    requires |answers| == |calls|
  {
    if calls == [] then 0
    else (if answers[0] && InWindow(calls[0], k, s, e) then 1 else 0) + Allowed(calls[1..], answers[1..], k, s, e)
  }

  /** What k's bucket can give at time x without waiting: the potential. */
  function Available(p: Params, bs: Buckets, k: Key, x: real): real {
    if k in bs then Level(p, bs[k], x) else p.burst
  }

  function Level(p: Params, b: Bucket, x: real): real {
    Min(b.tokens + Gain(p, x - b.last), p.burst)
  }

  lemma {:induction false} LateIsEmpty(calls: seq<Call>, answers: seq<bool>, k: Key, s: real, e: real, t: real)
    requires |answers| == |calls| && Ordered(calls, t) && t > e
    ensures Allowed(calls, answers, k, s, e) == 0
    decreases |calls|
  {
    if calls != [] {
      LateIsEmpty(calls[1..], answers[1..], k, s, e, calls[0].clock.now);
    }
  }

  /** Waiting from x to y adds at most rate * (y - x). */
  lemma AvailableGrows(p: Params, bs: Buckets, k: Key, x: real, y: real)
    requires p.rate >= 0.0 && x <= y
    ensures Available(p, bs, k, x) <= Available(p, bs, k, y) <= Available(p, bs, k, x) + Gain(p, y - x)
  {
    GainNonNegative(p, y - x);
    if k in bs {
      var b := bs[k];
      GainAdds(p, x - b.last, y - x, y - b.last);
    }
  }

  lemma DrawBucket(p: Params, b: Bucket, n: real, x: real)
    requires p.rate >= 0.0 && b.tokens <= p.burst && b.last <= n <= x
    ensures var r := Refill(p, b, n);
            Level(p, r, x) <= Level(p, b, x)
  {
    GainNonNegative(p, x - n);
    GainAdds(p, n - b.last, x - n, x - b.last);
  }

  /** A call draws what it is allowed from the potential, at its own time and later. */
  lemma AllowDraws(p: Params, bs: Buckets, c: Call, t: real, k: Key, x: real)
    requires !p.Disabled() && p.rate >= 0.0 && BucketsOk(p, bs, t)
    requires t <= c.clock.sweep && c.clock.Ordered() && c.clock.now <= x
    ensures var (ok, next) := Allow(p, bs, c, false);
            Available(p, next, k, x) + (if ok && c.key == k && c.clock.now == x then 1.0 else 0.0)
              <= Available(p, bs, k, x)
  {
    if c.key == k {
      var b := Find(p, bs, k, c.clock.start);
      CallDraws(p, b, c.clock.now, x);
      assert Allow(p, bs, c, false).1[k] == Charge(Refill(p, b, c.clock.now)).1;
      assert k !in bs ==> Level(p, b, x) <= p.burst;
    }
  }

  lemma CallDraws(p: Params, b: Bucket, n: real, x: real)
    requires p.rate >= 0.0 && b.tokens <= p.burst && b.last <= n <= x
    ensures var (ok, after) := Charge(Refill(p, b, n));
            Level(p, after, x) + (if ok && n == x then 1.0 else 0.0) <= Level(p, b, x)
  {
    DrawBucket(p, b, n, x);
    GainNonNegative(p, n - b.last);
    ChargeDraws(p, Refill(p, b, n), x);
  }

  lemma ChargeDraws(p: Params, r: Bucket, x: real)
    requires p.rate >= 0.0 && r.last <= x && r.tokens <= p.burst
    ensures var (ok, b) := Charge(r);
            Level(p, b, x) + (if ok && r.last == x then 1.0 else 0.0) <= Level(p, r, x)
  {
    GainNonNegative(p, x - r.last);
  }

  /** x is the later of the window's start and the present. */
  predicate Later(s: real, t: real, x: real) {
    s <= x && t <= x && (x == s || x == t)
  }

  lemma {:induction false} WindowUnswept(p: Params, bs: Buckets, calls: seq<Call>, t: real,
                                         k: Key, s: real, e: real, x: real)
    requires !p.Disabled() && p.rate >= 0.0 && p.burst >= 0.0
    requires Ordered(calls, t) && BucketsOk(p, bs, t) && Later(s, t, x) && x <= e
    ensures Allowed(calls, Answers(p, bs, calls, false), k, s, e) as real
            <= Available(p, bs, k, x) + Gain(p, e - x)
    decreases |calls|
  {
    GainNonNegative(p, e - x);
    AvailableNonNegative(p, bs, t, k, x);
    var answers := Answers(p, bs, calls, false);
    if calls == [] {
      assert Allowed(calls, answers, k, s, e) as real == 0.0;
    } else {
      var c, n := calls[0], calls[0].clock.now;
      var (ok, next) := Allow(p, bs, c, false);
      var rest := Answers(p, next, calls[1..], false);
      assert answers[0] == ok && answers[1..] == rest;
      AllowOk(p, bs, c, false, t);
      if n > e {
        LateIsEmpty(calls[1..], rest, k, s, e, n);
        assert Allowed(calls, answers, k, s, e) as real == 0.0;
      } else {
        var y := if s >= n then s else n;
        WindowUnswept(p, next, calls[1..], n, k, s, e, y);
        WindowStep(p, bs, c, t, k, s, e, x, y);
      }
    }
  }

  /** One call: what it is allowed plus what is left to allow after it. */
  lemma WindowStep(p: Params, bs: Buckets, c: Call, t: real, k: Key, s: real, e: real, x: real, y: real)
    requires !p.Disabled() && p.rate >= 0.0 && BucketsOk(p, bs, t)
    requires t <= c.clock.sweep && c.clock.Ordered() && c.clock.now <= e
    requires Later(s, t, x) && Later(s, c.clock.now, y) && x <= e
    ensures var (ok, next) := Allow(p, bs, c, false);
            (if ok && InWindow(c, k, s, e) then 1.0 else 0.0) + Available(p, next, k, y) + Gain(p, e - y)
            <= Available(p, bs, k, x) + Gain(p, e - x)
  {
    AllowDraws(p, bs, c, t, k, y);
    AvailableGrows(p, bs, k, x, y);
    GainAdds(p, y - x, e - y, e - x);
  }

  lemma AvailableNonNegative(p: Params, bs: Buckets, t: real, k: Key, x: real)
    requires p.rate >= 0.0 && p.burst >= 0.0 && BucketsOk(p, bs, t) && t <= x
    ensures Available(p, bs, k, x) >= 0.0
  {
    if k in bs {
      GainNonNegative(p, x - bs[k].last);
    }
  }

  // ---------------------------------------------------------------- sweep transparency

  /** The evicting map is the other one without some buckets that are full again by t. */
  ghost predicate Agree(p: Params, a: Buckets, b: Buckets, t: real) {
    && (forall k :: k in a ==> k in b && a[k] == b[k])
    && (forall k :: k in b && k !in a ==> FullBy(p, b[k], t))
  }

  predicate FullBy(p: Params, b: Bucket, t: real) {
    b.last < t && b.tokens + Gain(p, t - b.last) >= p.burst
  }

  lemma FullStays(p: Params, b: Bucket, t: real, u: real)
    requires p.rate >= 0.0 && FullBy(p, b, t) && t <= u
    ensures FullBy(p, b, u)
  {
    GainNonNegative(p, u - t);
    GainAdds(p, t - b.last, u - t, u - b.last);
  }

  /** An idle bucket is full again, when the burst refills within the idle time. */
  lemma IdleIsFull(p: Params, b: Bucket, t: real)
    requires p.rate >= 0.0 && p.burst <= IDLE_TTL * p.rate && BucketOk(p, b, t) && b.last < t - IDLE_TTL
    ensures FullBy(p, b, t)
  {
    GainNonNegative(p, t - IDLE_TTL - b.last);
    GainAdds(p, IDLE_TTL, t - IDLE_TTL - b.last, t - b.last);
    GainNonNegative(p, t - b.last);
  }

  lemma SweepAgrees(p: Params, a: Buckets, b: Buckets, c: Clock, t: real)
    requires p.rate >= 0.0 && p.burst <= IDLE_TTL * p.rate
    requires Agree(p, a, b, t) && BucketsOk(p, b, t) && t <= c.sweep
    ensures Agree(p, Swept(a, c, true), b, c.sweep)
  {
    var kept := Swept(a, c, true);
    forall k | k in b && k !in kept ensures FullBy(p, b[k], c.sweep) {
      if k in a {
        IdleIsFull(p, b[k], c.sweep);
      } else {
        FullStays(p, b[k], t, c.sweep);
      }
    }
  }

  lemma FindAgrees(p: Params, a: Buckets, b: Buckets, c: Clock, k: Key)
    requires p.rate >= 0.0 && Agree(p, a, b, c.sweep) && c.Ordered()
    ensures Refill(p, Find(p, a, k, c.start), c.now) == Refill(p, Find(p, b, k, c.start), c.now)
  {
    if k !in a {
      GainNonNegative(p, c.now - c.start);
      if k in b {
        FullStays(p, b[k], c.sweep, c.now);
      }
    }
  }

  lemma AllowAgrees(p: Params, a: Buckets, b: Buckets, c: Call, t: real)
    requires p.rate >= 0.0 && p.burst <= IDLE_TTL * p.rate
    requires Agree(p, a, b, t) && BucketsOk(p, b, t) && t <= c.clock.sweep && c.clock.Ordered()
    ensures Allow(p, a, c, true).0 == Allow(p, b, c, false).0
    ensures Agree(p, Allow(p, a, c, true).1, Allow(p, b, c, false).1, c.clock.now)
  {
    SweepAgrees(p, a, b, c.clock, t);
    var kept := Swept(a, c.clock, true);
    FindAgrees(p, kept, b, c.clock, c.key);
    var a', b' := Allow(p, a, c, true).1, Allow(p, b, c, false).1;
    forall k | k in b' && k !in a' ensures FullBy(p, b'[k], c.clock.now) {
      if p.Disabled() {
        FullStays(p, b[k], t, c.clock.now);
      } else {
        FullStays(p, b[k], c.clock.sweep, c.clock.now);
      }
    }
  }

  lemma {:induction false} SweepTransparent(p: Params, a: Buckets, b: Buckets, calls: seq<Call>, t: real)
    requires p.rate >= 0.0 && p.burst <= IDLE_TTL * p.rate
    requires Agree(p, a, b, t) && BucketsOk(p, b, t) && Ordered(calls, t)
    ensures Answers(p, a, calls, true) == Answers(p, b, calls, false)
    decreases |calls|
  {
    if calls != [] {
      AllowAgrees(p, a, b, calls[0], t);
      AllowOk(p, b, calls[0], false, t);
      SweepTransparent(p, Allow(p, a, calls[0], true).1, Allow(p, b, calls[0], false).1,
        calls[1..], calls[0].clock.now);
    }
  }

  /** Below one token of burst nothing is ever allowed, evicting or not. */
  lemma {:induction false} SmallBurst(p: Params, a: Buckets, b: Buckets, calls: seq<Call>, t: real)
    requires p.rate >= 0.0 && p.burst < 1.0 && BucketsOk(p, a, t) && BucketsOk(p, b, t) && Ordered(calls, t)
    ensures Answers(p, a, calls, true) == Answers(p, b, calls, false)
    decreases |calls|
  {
    if calls != [] {
      var c := calls[0];
      AllowOk(p, a, c, true, t);
      AllowOk(p, b, c, false, t);
      NeverAllowed(p, a, c, true, t);
      NeverAllowed(p, b, c, false, t);
      SmallBurst(p, Allow(p, a, c, true).1, Allow(p, b, c, false).1, calls[1..], c.clock.now);
    }
  }

  lemma NeverAllowed(p: Params, bs: Buckets, c: Call, evicting: bool, t: real)
    requires p.rate >= 0.0 && p.burst < 1.0 && BucketsOk(p, bs, t) && t <= c.clock.sweep && c.clock.Ordered()
    ensures Allow(p, bs, c, evicting).0 == p.Disabled()
  {
    var b := Find(p, Swept(bs, c.clock, evicting), c.key, c.clock.start);
    assert BucketOk(p, b, c.clock.start);
    RefillOk(p, b, c.clock.start, c.clock.now);
  }

  /** The window bound with eviction: over any calls for any keys under a nondecreasing
      clock, at most burst + rate * (e - s) pushes to one key are allowed in [s, e]. */
  lemma WindowBound(p: Params, calls: seq<Call>, t: real, k: Key, s: real, e: real)
    requires !p.Disabled() && p.rate >= 0.0 && 0.0 <= p.burst <= IDLE_TTL * p.rate
    requires Ordered(calls, t) && s <= e
    ensures Allowed(calls, Answers(p, map[], calls, true), k, s, e) as real <= p.burst + Gain(p, e - s)
  {
    SweepTransparent(p, map[], map[], calls, t);
    WindowFromEmpty(p, calls, t, k, s, e);
  }

  lemma WindowFromEmpty(p: Params, calls: seq<Call>, t: real, k: Key, s: real, e: real)
    requires !p.Disabled() && p.rate >= 0.0 && p.burst >= 0.0 && Ordered(calls, t) && s <= e
    ensures Allowed(calls, Answers(p, map[], calls, false), k, s, e) as real <= p.burst + Gain(p, e - s)
  {
    var x := if s >= t then s else t;
    if x <= e {
      WindowUnswept(p, map[], calls, t, k, s, e, x);
      GainNonNegative(p, x - s);
      GainAdds(p, x - s, e - x, e - s);
    } else {
      LateIsEmpty(calls, Answers(p, map[], calls, false), k, s, e, t);
      GainNonNegative(p, e - s);
    }
  }

  // ---------------------------------------------------------------- the bound for any burst

  /** The call's sweep evicts k's bucket. */
  predicate Evicts(bs: Buckets, c: Call, k: Key) {
    k in bs && k !in Swept(bs, c.clock, true)
  }

  /** One burst for every call in [s, e] that evicts k's bucket. */
  function Refunds(p: Params, bs: Buckets, calls: seq<Call>, k: Key, s: real, e: real): real
    decreases |calls|
  {
    if calls == [] then 0.0
    else
      (if Evicts(bs, calls[0], k) && s <= calls[0].clock.now <= e then p.burst else 0.0)
      + Refunds(p, Allow(p, bs, calls[0], true).1, calls[1..], k, s, e)
  }

  lemma {:induction false} RefundsNonNegative(p: Params, bs: Buckets, calls: seq<Call>, k: Key, s: real, e: real)
    requires p.burst >= 0.0
    ensures Refunds(p, bs, calls, k, s, e) >= 0.0
    decreases |calls|
  {
    if calls != [] {
      RefundsNonNegative(p, Allow(p, bs, calls[0], true).1, calls[1..], k, s, e);
    }
  }

  lemma SweptAvailable(p: Params, bs: Buckets, c: Call, t: real, k: Key, x: real)
    requires p.rate >= 0.0 && p.burst >= 0.0 && BucketsOk(p, bs, t) && t <= x
    ensures Available(p, Swept(bs, c.clock, true), k, x)
            <= Available(p, bs, k, x) + (if Evicts(bs, c, k) then p.burst else 0.0)
  {
    AvailableNonNegative(p, bs, t, k, x);
  }

  /** One call of the evicting limiter, in the window: what it is allowed and what is left after
      it are covered by what was left before it, and a burst if it evicts the bucket. */
  lemma SweptStep(p: Params, bs: Buckets, c: Call, t: real, k: Key, s: real, e: real)
    requires !p.Disabled() && p.rate >= 0.0 && p.burst >= 0.0 && BucketsOk(p, bs, t)
    requires s <= t <= c.clock.sweep && c.clock.Ordered() && c.clock.now <= e
    ensures var (ok, next) := Allow(p, bs, c, true);
            (if ok && InWindow(c, k, s, e) then 1.0 else 0.0)
            + Available(p, next, k, c.clock.now) + Gain(p, e - c.clock.now)
            <= Available(p, bs, k, t) + Gain(p, e - t) + (if Evicts(bs, c, k) then p.burst else 0.0)
  {
    SweptAvailable(p, bs, c, t, k, t);
    WindowStep(p, Swept(bs, c.clock, true), c, t, k, s, e, t, c.clock.now);
  }

  lemma {:induction false} WindowSwept(p: Params, bs: Buckets, calls: seq<Call>, t: real, k: Key, s: real, e: real)
    requires !p.Disabled() && p.rate >= 0.0 && p.burst >= 0.0
    requires Ordered(calls, t) && BucketsOk(p, bs, t) && s <= t <= e
    ensures Allowed(calls, Answers(p, bs, calls, true), k, s, e) as real
            <= Available(p, bs, k, t) + Gain(p, e - t) + Refunds(p, bs, calls, k, s, e)
    decreases |calls|
  {
    GainNonNegative(p, e - t);
    AvailableNonNegative(p, bs, t, k, t);
    RefundsNonNegative(p, bs, calls, k, s, e);
    if calls == [] {
      assert Allowed(calls, Answers(p, bs, calls, true), k, s, e) as real == 0.0;
    } else {
      var c, n := calls[0], calls[0].clock.now;
      var (ok, next) := Allow(p, bs, c, true);
      var rest := Answers(p, next, calls[1..], true);
      assert Answers(p, bs, calls, true)[0] == ok && Answers(p, bs, calls, true)[1..] == rest;
      AllowOk(p, bs, c, true, t);
      if n > e {
        LateIsEmpty(calls[1..], rest, k, s, e, n);
        assert Allowed(calls, Answers(p, bs, calls, true), k, s, e) as real == 0.0;
      } else {
        WindowSwept(p, next, calls[1..], n, k, s, e);
        SweptStep(p, bs, c, t, k, s, e);
      }
    }
  }

  /** The first call in the window starts from at most a burst, whatever went before. */
  lemma FirstInWindow(p: Params, bs: Buckets, c: Call, t: real, k: Key, s: real, e: real)
    requires !p.Disabled() && p.rate >= 0.0 && p.burst >= 0.0 && BucketsOk(p, bs, t)
    requires t <= c.clock.sweep && c.clock.Ordered() && t <= s <= c.clock.now <= e
    ensures var (ok, next) := Allow(p, bs, c, true);
            (if ok && InWindow(c, k, s, e) then 1.0 else 0.0)
            + Available(p, next, k, c.clock.now) + Gain(p, e - c.clock.now)
            <= p.burst + Gain(p, e - s)
  {
    WindowStep(p, Swept(bs, c.clock, true), c, t, k, s, e, s, c.clock.now);
    assert Available(p, Swept(bs, c.clock, true), k, s) <= p.burst;
  }

  /** For any burst: at most burst + rate * (e - s) pushes to one key are allowed in [s, e], and
      one burst more for each time its bucket is evicted in [s, e]. */
  lemma {:induction false} EvictedBound(p: Params, bs: Buckets, calls: seq<Call>, t: real, k: Key, s: real, e: real)
    requires !p.Disabled() && p.rate >= 0.0 && p.burst >= 0.0
    requires Ordered(calls, t) && BucketsOk(p, bs, t) && t <= s <= e
    ensures Allowed(calls, Answers(p, bs, calls, true), k, s, e) as real
            <= p.burst + Gain(p, e - s) + Refunds(p, bs, calls, k, s, e)
    decreases |calls|
  {
    GainNonNegative(p, e - s);
    RefundsNonNegative(p, bs, calls, k, s, e);
    if calls == [] {
      assert Allowed(calls, Answers(p, bs, calls, true), k, s, e) as real == 0.0;
    } else {
      var c, n := calls[0], calls[0].clock.now;
      var (ok, next) := Allow(p, bs, c, true);
      var rest := Answers(p, next, calls[1..], true);
      assert Answers(p, bs, calls, true)[0] == ok && Answers(p, bs, calls, true)[1..] == rest;
      AllowOk(p, bs, c, true, t);
      if n > e {
        LateIsEmpty(calls[1..], rest, k, s, e, n);
        assert Allowed(calls, Answers(p, bs, calls, true), k, s, e) as real == 0.0;
      } else if n < s {
        EvictedBound(p, next, calls[1..], n, k, s, e);
      } else {
        WindowSwept(p, next, calls[1..], n, k, s, e);
        FirstInWindow(p, bs, c, t, k, s, e);
      }
    }
  }

  // ---------------------------------------------------------------- when eviction shows

  /** Some calls are answered differently from maps a (evicting) and b (never evicting). */
  predicate Differ(p: Params, a: Buckets, b: Buckets, calls: seq<Call>) {
    Answers(p, a, calls, true) != Answers(p, b, calls, false)
  }

  function At(k: Key, now: real): Call { Call(k, Clock(now, now, now)) }

  /** One more call in front keeps a difference. */
  lemma DifferCons(p: Params, a: Buckets, b: Buckets, c: Call, rest: seq<Call>)
    requires Differ(p, Allow(p, a, c, true).1, Allow(p, b, c, false).1, rest)
    ensures Differ(p, a, b, [c] + rest)
  {
    assert ([c] + rest)[1..] == rest;
    assert Answers(p, a, [c] + rest, true)[1..] == Answers(p, Allow(p, a, c, true).1, rest, true);
    assert Answers(p, b, [c] + rest, false)[1..] == Answers(p, Allow(p, b, c, false).1, rest, false);
  }

  lemma DifferNow(p: Params, a: Buckets, b: Buckets, c: Call)
    requires Allow(p, a, c, true).0 != Allow(p, b, c, false).0
    ensures Differ(p, a, b, [c])
  {
    assert Answers(p, a, [c], true)[0] != Answers(p, b, [c], false)[0];
  }

  /** Waiting (1 - x)/rate brings x tokens to exactly one. */
  lemma WaitForOne(rate: real, x: real)
    requires rate > 0.0 && x < 1.0
    ensures (1.0 - x) / rate > 0.0 && (1.0 - x) / rate * rate == 1.0 - x
  {
  }

  /** Two buckets with different levels can be told apart. */
  lemma {:induction false} TellApart(p: Params, k: Key, x: real, y: real, t: real, b: Buckets)
    returns (calls: seq<Call>)
    requires p.rate >= 0.0 && p.burst >= 1.0 && 0.0 <= y < x <= p.burst
    requires p.rate > 0.0 || y < 1.0 <= x
    requires k in b && b[k] == Bucket(y, t)
    ensures Ordered(calls, t) && Differ(p, map[k := Bucket(x, t)], b, calls)
    decreases y.Floor
  {
    var a := map[k := Bucket(x, t)];
    assert |a| == 1;
    if y >= 1.0 {
      var c := At(k, t);
      var a' := map[k := Bucket(x - 1.0, t)];
      assert Allow(p, a, c, true).1 == a';
      var b' := Allow(p, b, c, false).1;
      assert b'[k] == Bucket(y - 1.0, t);
      var rest := TellApart(p, k, x - 1.0, y - 1.0, t, b');
      DifferCons(p, a, b, c, rest);
      calls := [c] + rest;
    } else if x >= 1.0 {
      calls := [At(k, t)];
      DifferNow(p, a, b, calls[0]);
    } else {
      calls := TellApartLater(p, k, x, y, t, b);
    }
  }

  lemma TellApartLater(p: Params, k: Key, x: real, y: real, t: real, b: Buckets) returns (calls: seq<Call>)
    requires p.rate > 0.0 && p.burst >= 1.0 && 0.0 <= y < x < 1.0
    requires k in b && b[k] == Bucket(y, t)
    ensures Ordered(calls, t) && Differ(p, map[k := Bucket(x, t)], b, calls)
  {
    WaitForOne(p.rate, x);
    var a, d := map[k := Bucket(x, t)], (1.0 - x) / p.rate;
    calls := [At(k, t + d)];
    assert Refill(p, a[k], t + d).tokens == 1.0;
    assert Refill(p, b[k], t + d).tokens == y + (1.0 - x);
    assert |a| == 1;
    DifferNow(p, a, b, calls[0]);
  }

  /** A wait just over the idle time after which the bucket is still not full. */
  lemma JustOverIdle(p: Params, x: real) returns (d: real)
    requires p.rate >= 0.0 && x + IDLE_TTL * p.rate < p.burst
    ensures d > IDLE_TTL && x + d * p.rate < p.burst
  {
    var gap := p.burst - IDLE_TTL * p.rate - x;
    if p.rate == 0.0 {
      d := IDLE_TTL + 1.0;
    } else {
      var w := gap / (2.0 * p.rate);
      HalfGap(gap, p.rate);
      d := IDLE_TTL + w;
      assert d * p.rate == IDLE_TTL * p.rate + w * p.rate;
    }
  }

  lemma HalfGap(gap: real, rate: real)
    requires gap > 0.0 && rate > 0.0
    ensures gap / (2.0 * rate) > 0.0 && gap / (2.0 * rate) * rate < gap
  {
    assert gap / (2.0 * rate) * rate == gap / 2.0;
  }

  /** Evicting a bucket that is not full again hands out a full one in its place. */
  lemma EvictionShows(p: Params, k: Key, x: real, t: real, bs: Buckets) returns (calls: seq<Call>)
    requires p.rate >= 0.0 && p.burst >= 1.0 && x >= 0.0 && x + IDLE_TTL * p.rate < p.burst
    requires p.rate > 0.0 || x < 1.0
    requires (forall j :: j in bs ==> bs[j].last == t) && k in bs && bs[k].tokens == x && |bs| > SOFT_CAP
    ensures Ordered(calls, t) && Differ(p, bs, bs, calls)
  {
    var d := JustOverIdle(p, x);
    var c, u := At(k, t + d), x + d * p.rate;
    GainNonNegative(p, d);
    assert Swept(bs, c.clock, true) == map[];
    assert Allow(p, bs, c, true) == (true, map[k := Bucket(p.burst - 1.0, t + d)]);
    assert Refill(p, bs[k], t + d) == Bucket(u, t + d);
    if u < 1.0 {
      calls := [c];
      DifferNow(p, bs, bs, c);
    } else {
      var b' := Allow(p, bs, c, false).1;
      assert b'[k] == Bucket(u - 1.0, t + d);
      var rest := TellApart(p, k, p.burst - 1.0, u - 1.0, t + d, b');
      DifferCons(p, bs, bs, c, rest);
      calls := [c] + rest;
    }
  }

  /** Distinct keys to fill the map with. */
  function KeyOf(i: int): Key
    requires 0 <= i < 65536
  {
    [i / 256, i % 256] + seq(30, _ => 0)
  }

  lemma KeyOfInjective(i: int, j: int)
    requires 0 <= i < 65536 && 0 <= j < 65536 && KeyOf(i) == KeyOf(j)
    ensures i == j
  {
    assert KeyOf(i)[0] == i / 256 && KeyOf(i)[1] == i % 256;
    assert KeyOf(j)[0] == j / 256 && KeyOf(j)[1] == j % 256;
  }

  ghost predicate Filled(bs: Buckets, i: nat, t: real) {
    && i <= SOFT_CAP + 1
    && |bs| == i
    && (forall k :: k in bs ==> bs[k].last == t && exists j :: 0 <= j < i && k == KeyOf(j))
  }

  /** Other keys, one call each, push the map over the soft cap. */
  lemma {:induction false} FillUp(p: Params, x: real, t: real, bs: Buckets, i: nat) returns (calls: seq<Call>)
    requires p.rate >= 0.0 && p.burst >= 1.0 && x >= 0.0 && x + IDLE_TTL * p.rate < p.burst
    requires p.rate > 0.0 || x < 1.0
    requires Filled(bs, i, t) && i >= 1 && KeyOf(0) in bs && bs[KeyOf(0)].tokens == x
    ensures Ordered(calls, t) && Differ(p, bs, bs, calls)
    decreases SOFT_CAP + 1 - i
  {
    if i == SOFT_CAP + 1 {
      calls := EvictionShows(p, KeyOf(0), x, t, bs);
    } else {
      var c := At(KeyOf(i), t);
      var next := Allow(p, bs, c, true).1;
      FillOne(p, t, bs, i);
      var rest := FillUp(p, x, t, next, i + 1);
      DifferCons(p, bs, bs, c, rest);
      calls := [c] + rest;
    }
  }

  lemma FillOne(p: Params, t: real, bs: Buckets, i: nat)
    requires p.burst >= 1.0 && Filled(bs, i, t) && 1 <= i <= SOFT_CAP
    ensures var c := At(KeyOf(i), t);
            var next := Allow(p, bs, c, true).1;
            && next == Allow(p, bs, c, false).1
            && Filled(next, i + 1, t)
            && forall k :: k in bs ==> k in next && next[k] == bs[k]
  {
    var k := KeyOf(i);
    if k in bs {
      var j :| 0 <= j < i && k == KeyOf(j);
      KeyOfInjective(i, j);
      assert false;
    }
    var next := Allow(p, bs, At(k, t), true).1;
    assert next.Keys == bs.Keys + {k};
    assert |next.Keys| == i + 1;
  }

  /** Calls drain one key's bucket until eviction would show. */
  lemma {:induction false} Drain(p: Params, x: real, t: real) returns (calls: seq<Call>)
    requires p.rate >= 0.0 && p.burst >= 1.0 && p.burst > IDLE_TTL * p.rate && 0.0 <= x <= p.burst
    ensures var bs := map[KeyOf(0) := Bucket(x, t)]; Ordered(calls, t) && Differ(p, bs, bs, calls)
    decreases x.Floor
  {
    var k := KeyOf(0);
    var bs := map[k := Bucket(x, t)];
    assert |bs| == 1;
    if x >= 1.0 {
      calls := Drain(p, x - 1.0, t);
      DrainOne(p, x, t);
      DifferCons(p, bs, bs, At(k, t), calls);
      calls := [At(k, t)] + calls;
    } else if p.rate == 0.0 {
      calls := FillUp(p, x, t, bs, 1);
    } else {
      calls := DrainLast(p, x, t);
    }
  }

  lemma DrainOne(p: Params, x: real, t: real)
    requires p.burst >= 1.0 && 1.0 <= x <= p.burst
    ensures var bs, c, next := map[KeyOf(0) := Bucket(x, t)], At(KeyOf(0), t), map[KeyOf(0) := Bucket(x - 1.0, t)];
            Allow(p, bs, c, true).1 == next && Allow(p, bs, c, false).1 == next
  {
    assert |map[KeyOf(0) := Bucket(x, t)]| == 1;
  }

  lemma DrainLast(p: Params, x: real, t: real) returns (calls: seq<Call>)
    requires p.rate > 0.0 && p.burst >= 1.0 && p.burst > IDLE_TTL * p.rate && 0.0 <= x < 1.0
    ensures var bs := map[KeyOf(0) := Bucket(x, t)]; Ordered(calls, t) && Differ(p, bs, bs, calls)
  {
    WaitForOne(p.rate, x);
    var k, d := KeyOf(0), (1.0 - x) / p.rate;
    var bs, next, c := map[k := Bucket(x, t)], map[k := Bucket(0.0, t + d)], At(k, t + d);
    assert |bs| == 1 && |next| == 1;
    assert Refill(p, bs[k], t + d) == Bucket(1.0, t + d);
    assert Allow(p, bs, c, true).1 == next && Allow(p, bs, c, false).1 == next;
    var rest := FillUp(p, 0.0, t + d, next, 1);
    DifferCons(p, bs, bs, c, rest);
    calls := [c] + rest;
  }

  /** A call sequence that shows eviction, whenever one can. */
  lemma EvictionWitness(p: Params) returns (calls: seq<Call>)
    requires p.rate >= 0.0 && p.burst >= 1.0 && p.burst > IDLE_TTL * p.rate
    ensures Ordered(calls, 0.0) && Differ(p, map[], map[], calls)
  {
    var c, empty: Buckets := At(KeyOf(0), 0.0), map[];
    var rest := Drain(p, p.burst - 1.0, 0.0);
    var next := map[KeyOf(0) := Bucket(p.burst - 1.0, 0.0)];
    assert Allow(p, empty, c, true).1 == next && Allow(p, empty, c, false).1 == next;
    DifferCons(p, empty, empty, c, rest);
    calls := [c] + rest;
    assert calls[1..] == rest;
  }

  /** These calls, under a nondecreasing clock, are answered otherwise because of eviction. */
  predicate ShowsEviction(p: Params, calls: seq<Call>, t: real) {
    Ordered(calls, t) && Differ(p, map[], map[], calls)
  }

  /** Eviction is invisible to every call sequence under a nondecreasing clock exactly when
      the burst refills within the idle time, or nothing is ever allowed anyway. */
  lemma SweepTransparentExactly(p: Params)
    requires p.rate >= 0.0
    ensures (forall calls, t :: !ShowsEviction(p, calls, t))
            <==> p.burst <= IDLE_TTL * p.rate || p.burst < 1.0
  {
    if p.burst <= IDLE_TTL * p.rate {
      forall calls, t ensures !ShowsEviction(p, calls, t) {
        if Ordered(calls, t) { SweepTransparent(p, map[], map[], calls, t); }
      }
    } else if p.burst < 1.0 {
      forall calls, t ensures !ShowsEviction(p, calls, t) {
        if Ordered(calls, t) { SmallBurst(p, map[], map[], calls, t); }
      }
    } else {
      var calls := EvictionWitness(p);
      assert ShowsEviction(p, calls, 0.0);
    }
  }

  // ---------------------------------------------------------------- the limiter object

  class RateLimiter {
    const params: Params
    var buckets: Buckets

    constructor (p: Params)
      ensures params == p && buckets == map[]
    {
      params, buckets := p, map[];
    }

    /** allow: the sweep deletes idle buckets one by one, then the key's bucket is refilled
        and charged in place. */
    method AllowPush(k: Key, clock: Clock) returns (ok: bool)
      modifies this
      ensures (ok, buckets) == Allow(params, old(buckets), Call(k, clock), true)
    {
      if params.rate <= 0.0 && params.burst <= 0.0 {
        return true;
      }
      if |buckets| > SOFT_CAP {
        SweepIdle(clock.sweep - IDLE_TTL);
      }
      var b := if k in buckets then buckets[k] else Bucket(params.burst, clock.start);
      b := RefillBucket(b, clock.now);
      ok := b.tokens >= 1.0;
      if ok {
        b := b.(tokens := b.tokens - 1.0);
      }
      buckets := buckets[k := b];
    }

    method RefillBucket(b: Bucket, now: real) returns (r: Bucket)
      ensures r == Refill(params, b, now)
    {
      r := b;
      var elapsed := now - b.last;
      if elapsed > 0.0 {
        r := r.(tokens := r.tokens + elapsed * params.rate);
        if r.tokens > params.burst {
          r := r.(tokens := params.burst);
        }
      }
      r := r.(last := now);
    }

    method SweepIdle(cutoff: real)
      modifies this
      ensures buckets == Sweep(old(buckets), cutoff)
    {
      ghost var before := buckets;
      var todo := buckets.Keys;
      while todo != {}
        invariant todo <= buckets.Keys <= before.Keys
        invariant forall k :: k in buckets ==> buckets[k] == before[k]
        invariant forall k :: k in before && k !in todo ==> (k in buckets <==> !(before[k].last < cutoff))
        decreases todo
      {
        var k :| k in todo;
        todo := todo - {k};
        if buckets[k].last < cutoff {
          buckets := buckets - {k};
        }
      }
    }
  }
}

/** The per-Device cap on concurrent Receive Sessions (internal/relay/limits.go). */
module SessionCap {
  import opened Base

  type Active = map<Key, int>

  function Slots(active: Active, k: Key): int {
    if k in active then active[k] else 0
  }

  /** acquire; a cap of 0 disables the count. */
  function Acquire(max: int, active: Active, k: Key): (bool, Active) {
    if max <= 0 then (true, active)
    else if Slots(active, k) >= max then (false, active)
    else (true, active[k := Slots(active, k) + 1])
  }

  function Release(max: int, active: Active, k: Key): Active {
    if max <= 0 then active
    else if Slots(active, k) <= 1 then active - {k}
    else active[k := active[k] - 1]
  }

  /** A key without sessions is not in the map. */
  predicate Counts(active: Active) {
    forall k :: k in active ==> active[k] >= 1
  }

  /** Giving a slot back undoes taking it. */
  lemma ReleaseUndoesAcquire(max: int, active: Active, k: Key)
    requires Counts(active) && Acquire(max, active, k).0
    ensures Release(max, Acquire(max, active, k).1, k) == active
  {
    if max > 0 {
      assert Slots(active, k) == 0 ==> active[k := 1] - {k} == active;
      assert Slots(active, k) > 0 ==> active[k := active[k] + 1][k := active[k]] == active;
    }
  }

  class Cap {
    const max: int
    var active: Active

    constructor (n: int)
      ensures max == n && active == map[]
    {
      max, active := n, map[];
    }

    method TryAcquire(k: Key) returns (ok: bool)
      modifies this
      ensures (ok, active) == Acquire(max, old(active), k)
      ensures max > 0 ==> (ok <==> Slots(old(active), k) < max)
      ensures forall l :: l != k ==> Slots(active, l) == Slots(old(active), l)
    {
      if max <= 0 {
        return true;
      }
      var n := if k in active then active[k] else 0;
      if n >= max {
        return false;
      }
      active := active[k := n + 1];
      ok := true;
    }

    method GiveBack(k: Key)
      modifies this
      ensures active == Release(max, old(active), k)
      ensures forall l :: l != k ==> Slots(active, l) == Slots(old(active), l)
    {
      if max <= 0 {
        return;
      }
      var n := if k in active then active[k] else 0;
      if n <= 1 {
        active := active - {k};
      } else {
        active := active[k := n - 1];
      }
    }
  }
}
