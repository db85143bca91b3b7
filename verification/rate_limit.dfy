/** The in-memory limiter of src/state.rs: a pruned log of admitted requests per key. */
module RateLimit {

  type Key = int

  /** `u32` and `i64` are the source's; a list length is cast down to `u32` before it is compared. */
  const U32_RANGE: int := 0x1_0000_0000

  type U32 = x: int | 0 <= x < U32_RANGE

  type Log = seq<int>
  type Limits = map<Key, Log>

  datatype Call = Call(key: Key, now: int, window: int, limit: U32)

  function Threshold(c: Call): int {
    c.now - c.window
  }

  /** `entries.retain(|ts| *ts > threshold)`. */
  function Retain(log: Log, threshold: int): Log {
    if log == [] then []
    else if log[|log| - 1] > threshold then Retain(log[..|log| - 1], threshold) + [log[|log| - 1]]
    else Retain(log[..|log| - 1], threshold)
  }

  function LogOf(limits: Limits, key: Key): Log {
    if key in limits then limits[key] else []
  }

  /** `len() as u32`. */
  function AsU32(n: nat): U32 {
    n % U32_RANGE
  }

  predicate Admits(log: Log, limit: U32) {
    AsU32(|log|) < limit
  }

  /** One call on the log of its key: the log stored afterwards and the answer. */
  function AllowOn(log: Log, c: Call): (Log, bool) {
    var kept := Retain(log, Threshold(c));
    if Admits(kept, c.limit) then (kept + [c.now], true) else (kept, false)
  }

  function Allow(limits: Limits, c: Call): (Limits, bool) {
    var after := AllowOn(LogOf(limits, c.key), c);
    (limits[c.key := after.0], after.1)
  }

  /** The limiter's state, as AppState holds it. */
  class Limiter {
    var limits: Limits

    constructor ()
      ensures limits == map[]
    {
      limits := map[];
    }

    /** `allow_auth_request` without Redis. */
    method AllowAuthRequest(c: Call) returns (allowed: bool)
      modifies this
      ensures (limits, allowed) == Allow(old(limits), c)
    {
      var entries := LogOf(limits, c.key);
      entries := Retain(entries, Threshold(c));
      limits := limits[c.key := entries];
      if AsU32(|entries|) >= c.limit {
        return false;
      }
      entries := entries + [c.now];
      limits := limits[c.key := entries];
      assert limits == old(limits)[c.key := entries];
      return true;
    }

    /** `allow_auth_request_pair`: both logs are updated whatever the first answer is, so the pair
      * is two calls in a row, even when both name one key. */
    method AllowAuthRequestPair(keyA: Key, limitA: U32, keyB: Key, limitB: U32, now: int, window: int)
      returns (allowed: bool)
      modifies this
      ensures var first := Allow(old(limits), Call(keyA, now, window, limitA));
              var second := Allow(first.0, Call(keyB, now, window, limitB));
              limits == second.0 && allowed == (first.1 && second.1)
    {
      hide AsU32, Retain;
      var threshold := now - window;
      var entriesA := Retain(LogOf(limits, keyA), threshold);
      var allowedA := AsU32(|entriesA|) < limitA;
      if allowedA {
        entriesA := entriesA + [now];
      }
      limits := limits[keyA := entriesA];
      var entriesB := Retain(LogOf(limits, keyB), threshold);
      var allowedB := AsU32(|entriesB|) < limitB;
      if allowedB {
        entriesB := entriesB + [now];
      }
      limits := limits[keyB := entriesB];
      return allowedA && allowedB;
    }
  }

  /** The stored logs after the first `n` calls. */
  function StateAfter(calls: seq<Call>, n: nat): Limits
    requires n <= |calls|
  {
    if n == 0 then map[] else Allow(StateAfter(calls, n - 1), calls[n - 1]).0
  }

  /** The answer to call `n`. */
  predicate Allowed(calls: seq<Call>, n: nat)
    requires n < |calls|
  {
    Allow(StateAfter(calls, n), calls[n]).1
  }

  /** Every request of a key admitted among the first `n` calls, never pruned. */
  function Admitted(calls: seq<Call>, n: nat, key: Key): Log
    requires n <= |calls|
  {
    if n == 0 then []
    else if calls[n - 1].key == key && Allowed(calls, n - 1) then Admitted(calls, n - 1, key) + [calls[n - 1].now]
    else Admitted(calls, n - 1, key)
  }

  /** The window of a key never reaches further back than it did before. With one window per key
    * this says that the clock does not run backwards. */
  ghost predicate NeverLooksFurtherBack(calls: seq<Call>, key: Key) {
    forall i, j | 0 <= i < j < |calls| && calls[i].key == key && calls[j].key == key ::
      Threshold(calls[i]) <= Threshold(calls[j])
  }

  lemma {:induction false} RetainAppend(a: Log, b: Log, threshold: int)
    ensures Retain(a + b, threshold) == Retain(a, threshold) + Retain(b, threshold)
  {
    if b == [] {
      assert a + b == a;
    } else {
      assert (a + b)[..|a + b| - 1] == a + b[..|b| - 1];
      RetainAppend(a, b[..|b| - 1], threshold);
    }
  }

  lemma {:induction false} RetainTwice(log: Log, threshold: int, later: int)
    requires threshold <= later
    ensures Retain(Retain(log, threshold), later) == Retain(log, later)
  {
    if log != [] {
      var init, last := log[..|log| - 1], log[|log| - 1];
      RetainTwice(init, threshold, later);
      if last > threshold {
        RetainAppend(Retain(init, threshold), [last], later);
      }
    }
  }

  lemma {:induction false} RetainShrinks(log: Log, threshold: int)
    ensures |Retain(log, threshold)| <= |log|
  {
    if log != [] {
      RetainShrinks(log[..|log| - 1], threshold);
    }
  }

  lemma StoredLog(calls: seq<Call>, n: nat, key: Key)
    requires n < |calls|
    ensures var before := LogOf(StateAfter(calls, n), key);
            LogOf(StateAfter(calls, n + 1), key) == if calls[n].key == key then AllowOn(before, calls[n]).0 else before
  {
    hide AllowOn;
  }

  lemma AllowedOn(calls: seq<Call>, n: nat)
    requires n < |calls|
    ensures Allowed(calls, n) == AllowOn(LogOf(StateAfter(calls, n), calls[n].key), calls[n]).1
  {
  }

  /** A pruned log that is shorter than a `u32` is wide stays so, and the cast loses nothing. */
  lemma CastIsExact(log: Log, c: Call)
    requires |log| < U32_RANGE
    ensures AllowOn(log, c).1 <==> |Retain(log, Threshold(c))| < c.limit
    ensures |AllowOn(log, c).0| < U32_RANGE
  {
    RetainShrinks(log, Threshold(c));
  }

  lemma {:induction false} CastNeverTruncates(calls: seq<Call>, n: nat, key: Key)
    requires n <= |calls|
    ensures |LogOf(StateAfter(calls, n), key)| < U32_RANGE
  {
    if n > 0 {
      CastNeverTruncates(calls, n - 1, key);
      hide StateAfter, AllowOn;
      StoredLog(calls, n - 1, key);
      CastIsExact(LogOf(StateAfter(calls, n - 1), key), calls[n - 1]);
    }
  }

  lemma PruningStep(pruned: Log, full: Log, c: Call, threshold: int)
    requires Threshold(c) <= threshold && Retain(pruned, threshold) == Retain(full, threshold)
    ensures Retain(AllowOn(pruned, c).0, threshold)
            == Retain(if AllowOn(pruned, c).1 then full + [c.now] else full, threshold)
  {
    hide Retain, Admits;
    RetainTwice(pruned, Threshold(c), threshold);
    RetainAppend(Retain(pruned, Threshold(c)), [c.now], threshold);
    RetainAppend(full, [c.now], threshold);
  }

  /** Pruned and full log look the same from every threshold the key can still use. */
  lemma {:induction false} PrunedMatchesFull(calls: seq<Call>, n: nat, key: Key, threshold: int)
    requires n <= |calls|
    requires forall i | 0 <= i < n && calls[i].key == key :: Threshold(calls[i]) <= threshold
    ensures Retain(LogOf(StateAfter(calls, n), key), threshold) == Retain(Admitted(calls, n, key), threshold)
  {
    if n > 0 {
      PrunedMatchesFull(calls, n - 1, key, threshold);
      hide StateAfter, Allowed, AllowOn, Retain;
      StoredLog(calls, n - 1, key);
      AllowedOn(calls, n - 1);
      if calls[n - 1].key == key {
        PruningStep(LogOf(StateAfter(calls, n - 1), key), Admitted(calls, n - 1, key), calls[n - 1], threshold);
      }
    }
  }

  /** The limiter answers every call as the full history of admitted requests would. */
  lemma DecidesByFullHistory(calls: seq<Call>, n: nat)
    requires n < |calls| && NeverLooksFurtherBack(calls, calls[n].key)
    ensures Allowed(calls, n)
            <==> |Retain(Admitted(calls, n, calls[n].key), Threshold(calls[n]))| < calls[n].limit
  {
    hide StateAfter, Allowed, AllowOn, Retain, Admitted;
    var c := calls[n];
    PrunedMatchesFull(calls, n, c.key, Threshold(c));
    CastNeverTruncates(calls, n, c.key);
    AllowedOn(calls, n);
    CastIsExact(LogOf(StateAfter(calls, n), c.key), c);
  }

  /** Entries of a log in the half-open interval `(x, y]`. */
  function Between(log: Log, x: int, y: int): nat {
    if log == [] then 0
    else Between(log[..|log| - 1], x, y) + if x < log[|log| - 1] <= y then 1 else 0
  }

  lemma {:induction false} BetweenAtMostRetained(log: Log, x: int, y: int, threshold: int)
    requires threshold <= x
    ensures Between(log, x, y) <= |Retain(log, threshold)|
  {
    if log != [] {
      BetweenAtMostRetained(log[..|log| - 1], x, y, threshold);
    }
  }

  /** A key used with one window and one limit has at most `limit` admitted requests in every
    * interval as long as the window. */
  lemma {:induction false} WindowBound(calls: seq<Call>, n: nat, key: Key, window: int, limit: U32, x: int)
    requires n <= |calls| && NeverLooksFurtherBack(calls, key)
    requires forall c | c in calls && c.key == key :: c.window == window && c.limit == limit
    ensures Between(Admitted(calls, n, key), x, x + window) <= limit
  {
    if n > 0 {
      WindowBound(calls, n - 1, key, window, limit, x);
      hide Allowed, Retain;
      var c := calls[n - 1];
      if c.key == key && Allowed(calls, n - 1) && x < c.now <= x + window {
        assert c in calls;
        DecidesByFullHistory(calls, n - 1);
        BetweenAtMostRetained(Admitted(calls, n - 1, key), x, x + window, Threshold(c));
      }
    }
  }
}
