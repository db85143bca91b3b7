/** The Redis limiter of src/state.rs: one counter per key and time bucket, with a time to live. */
module RedisLimit {
  import opened RateLimit

  const MILLIS: int := 1000

  /** The counter that INCR and EXPIRE keep; times are milliseconds since the epoch. */
  datatype Counter = Counter(count: nat, expires: int)

  type Store = map<(Key, int), Counter>

  /** A request: the clock reads `at` milliseconds, on the server and on Redis alike. */
  datatype Request = Request(key: Key, at: nat, window: int, limit: U32)

  /** `now / window_seconds.max(1)` with `now` in whole seconds. */
  function Bucket(r: Request): int {
    r.at / MILLIS / if r.window < 1 then 1 else r.window
  }

  /** INCR of a missing or expired counter starts at one. */
  function Incremented(store: Store, r: Request): nat {
    var k := (r.key, Bucket(r));
    if k in store && store[k].expires > r.at then store[k].count + 1 else 1
  }

  /** EXPIRE runs after the first INCR only; a window that is not positive deletes the key. */
  function Tick(store: Store, r: Request): (Store, bool) {
    var k, count := (r.key, Bucket(r)), Incremented(store, r);
    var after :=
      if count > 1 then store[k := store[k].(count := count)]
      else if r.window <= 0 then store - {k}
      else store[k := Counter(1, r.at + r.window * MILLIS)];
    (after, AsU32(count) <= r.limit)
  }

  /** The part of Redis that the limiter uses. */
  class RedisLimiter {
    var store: Store

    constructor ()
      ensures store == map[]
    {
      store := map[];
    }

    method Incr(k: (Key, int), at: nat) returns (count: nat)
      modifies this
      ensures count == if k in old(store) && old(store)[k].expires > at then old(store)[k].count + 1 else 1
      ensures k in store && store[k].count == count
      ensures store == old(store)[k := store[k]]
      ensures count > 1 ==> store[k].expires == old(store)[k].expires
    {
      if k in store && store[k].expires > at {
        count := store[k].count + 1;
        store := store[k := store[k].(count := count)];
      } else {
        count := 1;
        store := store[k := Counter(1, at)];
      }
    }

    method Expire(k: (Key, int), at: nat, seconds: int)
      requires k in store
      modifies this
      ensures store == if seconds <= 0 then old(store) - {k}
                       else old(store)[k := old(store)[k].(expires := at + seconds * MILLIS)]
    {
      if seconds <= 0 {
        store := store - {k};
      } else {
        store := store[k := store[k].(expires := at + seconds * MILLIS)];
      }
    }

    /** `allow_auth_request` with Redis. */
    method AllowAuthRequest(r: Request) returns (allowed: bool)
      modifies this
      ensures (store, allowed) == Tick(old(store), r)
    {
      var key := (r.key, Bucket(r));
      var count := Incr(key, r.at);
      if count == 1 {
        Expire(key, r.at, r.window);
        if r.window <= 0 {
          assert store == old(store) - {key};
        } else {
          assert store == old(store)[key := Counter(1, r.at + r.window * MILLIS)];
        }
      }
      return AsU32(count) <= r.limit;
    }
  }

  function StoreAfter(reqs: seq<Request>, n: nat): Store
    requires n <= |reqs|
  {
    if n == 0 then map[] else Tick(StoreAfter(reqs, n - 1), reqs[n - 1]).0
  }

  predicate Passed(reqs: seq<Request>, n: nat)
    requires n < |reqs|
  {
    Tick(StoreAfter(reqs, n), reqs[n]).1
  }

  ghost predicate ClockRuns(reqs: seq<Request>) {
    forall i, j | 0 <= i < j < |reqs| :: reqs[i].at <= reqs[j].at
  }

  /** The key is used with one window and one limit. */
  ghost predicate Uniform(reqs: seq<Request>, key: Key, window: int, limit: U32) {
    forall r | r in reqs && r.key == key :: r.window == window && r.limit == limit
  }

  /** Requests of one key and bucket among the first `n`. */
  function Seen(reqs: seq<Request>, n: nat, key: Key, bucket: int): nat
    requires n <= |reqs|
  {
    if n == 0 then 0
    else Seen(reqs, n - 1, key, bucket) + if reqs[n - 1].key == key && Bucket(reqs[n - 1]) == bucket then 1 else 0
  }

  /** Those of them that were let through. */
  function Through(reqs: seq<Request>, n: nat, key: Key, bucket: int): nat
    requires n <= |reqs|
  {
    if n == 0 then 0
    else Through(reqs, n - 1, key, bucket)
         + if reqs[n - 1].key == key && Bucket(reqs[n - 1]) == bucket && Passed(reqs, n - 1) then 1 else 0
  }

  /** A counter started inside a bucket outlives the bucket. */
  lemma OutlivesBucket(at: nat, later: nat, window: int)
    requires window >= 1 && at / MILLIS / window == later / MILLIS / window
    ensures at + window * MILLIS > later
  {
    var b := at / MILLIS / window;
    assert at / MILLIS >= b * window;
    assert later / MILLIS < b * window + window;
  }

  lemma {:induction false} SeenAtMost(reqs: seq<Request>, n: nat, key: Key, bucket: int)
    requires n <= |reqs|
    ensures Seen(reqs, n, key, bucket) <= n
  {
    if n > 0 {
      SeenAtMost(reqs, n - 1, key, bucket);
    }
  }

  /** The stored counter of a bucket counts its requests, and lasts as long as any later request
    * of the bucket can come. */
  lemma {:induction false} CounterCounts(reqs: seq<Request>, n: nat, key: Key, window: int, limit: U32, at: nat)
    requires n <= |reqs| && Uniform(reqs, key, window, limit) && window >= 1
    requires forall i | 0 <= i < n :: reqs[i].at <= at
    ensures var k := (key, at / MILLIS / window);
            var store, seen := StoreAfter(reqs, n), Seen(reqs, n, key, at / MILLIS / window);
            if seen == 0 then k !in store else k in store && store[k].count == seen && store[k].expires > at
  {
    if n > 0 {
      var r, bucket := reqs[n - 1], at / MILLIS / window;
      CounterCounts(reqs, n - 1, key, window, limit, at);
      if r.key == key {
        assert r in reqs;
        if Bucket(r) == bucket {
          OutlivesBucket(r.at, at, window);
        }
      }
    }
  }

  lemma SmallCast(n: nat)
    requires n < U32_RANGE
    ensures AsU32(n) == n
  {
  }

  /** With a positive window a request passes while its bucket has had fewer than `limit`. */
  lemma PassesByCount(reqs: seq<Request>, n: nat, window: int, limit: U32)
    requires n < |reqs| < U32_RANGE && ClockRuns(reqs) && window >= 1 && Uniform(reqs, reqs[n].key, window, limit)
    ensures Passed(reqs, n) <==> Seen(reqs, n, reqs[n].key, Bucket(reqs[n])) < limit
  {
    hide Seen, StoreAfter, AsU32;
    var r := reqs[n];
    assert r in reqs;
    CounterCounts(reqs, n, r.key, window, limit, r.at);
    SeenAtMost(reqs, n, r.key, Bucket(r));
    SmallCast(Seen(reqs, n, r.key, Bucket(r)) + 1);
  }

  /** Without a positive window EXPIRE deletes every counter at once. */
  lemma {:induction false} NothingStored(reqs: seq<Request>, n: nat, key: Key, window: int, limit: U32, bucket: int)
    requires n <= |reqs| && window <= 0 && Uniform(reqs, key, window, limit)
    ensures (key, bucket) !in StoreAfter(reqs, n)
  {
    if n > 0 {
      NothingStored(reqs, n - 1, key, window, limit, bucket);
      assert reqs[n - 1] in reqs;
    }
  }

  /** How many requests a bucket lets through: the first `limit` of them when the window is
    * positive; otherwise every one, unless the limit is zero. */
  lemma {:induction false} BucketAdmits(reqs: seq<Request>, n: nat, key: Key, window: int, limit: U32, bucket: int)
    requires n <= |reqs| < U32_RANGE && ClockRuns(reqs) && Uniform(reqs, key, window, limit)
    ensures var seen := Seen(reqs, n, key, bucket);
            Through(reqs, n, key, bucket)
            == if window >= 1 then (if seen <= limit then seen else limit) else if limit == 0 then 0 else seen
  {
    if n > 0 {
      BucketAdmits(reqs, n - 1, key, window, limit, bucket);
      hide StoreAfter, Tick;
      var r := reqs[n - 1];
      if r.key == key && Bucket(r) == bucket {
        if window >= 1 {
          hide Passed;
          PassesByCount(reqs, n - 1, window, limit);
        } else {
          NothingStored(reqs, n - 1, key, window, limit, bucket);
          FirstPasses(StoreAfter(reqs, n - 1), r);
        }
      }
    }
  }

  lemma FirstPasses(store: Store, r: Request)
    requires (r.key, Bucket(r)) !in store
    ensures Tick(store, r).1 <==> r.limit >= 1
  {
  }

  /** Requests of a key let through during the seconds `from` to `from + window - 1`. */
  function ThroughSeconds(reqs: seq<Request>, n: nat, key: Key, from: int, window: int): nat
    requires n <= |reqs|
  {
    if n == 0 then 0
    else ThroughSeconds(reqs, n - 1, key, from, window)
         + if reqs[n - 1].key == key && from <= reqs[n - 1].at / MILLIS < from + window && Passed(reqs, n - 1)
           then 1 else 0
  }

  lemma TwoBuckets(second: int, from: int, window: int)
    requires window >= 1 && from <= second < from + window
    ensures second / window == from / window || second / window == from / window + 1
  {
    var b := from / window;
    assert b * window <= from < b * window + window;
    if second < b * window + window {
      QuotientIs(second, window, b);
    } else {
      QuotientIs(second, window, b + 1);
    }
  }

  lemma MultipleIsWide(m: int, d: int)
    requires d >= 1
    ensures m >= 1 ==> m * d >= d
    ensures m <= -1 ==> m * d <= -d
  {
  }

  lemma QuotientIs(x: int, d: int, q: int)
    requires d >= 1 && q * d <= x < q * d + d
    ensures x / d == q
  {
    var k := x / d;
    assert k * d <= x < k * d + d;
    assert (k - q) * d == k * d - q * d;
    MultipleIsWide(k - q, d);
  }

  lemma {:induction false} SecondsSplit(reqs: seq<Request>, n: nat, key: Key, window: int, limit: U32, from: int)
    requires n <= |reqs| && window >= 1 && Uniform(reqs, key, window, limit)
    ensures ThroughSeconds(reqs, n, key, from, window)
            <= Through(reqs, n, key, from / window) + Through(reqs, n, key, from / window + 1)
  {
    if n > 0 {
      SecondsSplit(reqs, n - 1, key, window, limit, from);
      hide Passed;
      var r := reqs[n - 1];
      assert r in reqs;
      if r.key == key && from <= r.at / MILLIS < from + window {
        TwoBuckets(r.at / MILLIS, from, window);
      }
    }
  }

  /** Any `window` consecutive seconds let through at most twice the limit. */
  lemma TwiceTheLimit(reqs: seq<Request>, key: Key, window: int, limit: U32, from: int)
    requires |reqs| < U32_RANGE && ClockRuns(reqs) && window >= 1 && Uniform(reqs, key, window, limit)
    ensures ThroughSeconds(reqs, |reqs|, key, from, window) <= 2 * limit
  {
    hide Through, ThroughSeconds, Seen;
    SecondsSplit(reqs, |reqs|, key, window, limit, from);
    BucketAdmits(reqs, |reqs|, key, window, limit, from / window);
    BucketAdmits(reqs, |reqs|, key, window, limit, from / window + 1);
  }
}
