/** The gateway's fixed-window rate limiter: one counter per client key, reset when its window is over. */
module RateLimiter {
  import opened Common

  /** Instants are positive; ZERO_TIME is Go's zero `time.Time`, which `IsZero` recognises. */
  const ZERO_TIME: int := 0

  datatype Bucket = Bucket(count: int, windowEnd: int, lastSeenAt: int)

  datatype Call = Call(key: string, now: int)

  function BucketOf(requests: map<string, Bucket>, key: string): (bucket: Bucket) {
    if key in requests then requests[key] else Bucket(0, ZERO_TIME, ZERO_TIME)
  }

  function NextBucket(current: Bucket, now: int, window: int): (bucket: Bucket) {
    var open := if current.windowEnd == ZERO_TIME || now >= current.windowEnd
                then Bucket(0, now + window, current.lastSeenAt)
                else current;
    Bucket(open.count + 1, open.windowEnd, now)
  }

  class Limiter {
    const limit: int
    const window: int
    var requests: map<string, Bucket>

    constructor (limit: int, window: int)
      ensures this.limit == limit && this.window == window && requests == map[]
    {
      this.limit, this.window := limit, window;
      requests := map[];
    }

    /** One request, under the limiter's mutex. */
    method Allow(key: string, now: int) returns (ok: bool)
      modifies this
      ensures requests == old(requests)[key := NextBucket(BucketOf(old(requests), key), now, window)]
      ensures old(key !in requests || now >= requests[key].windowEnd) ==> requests[key] == Bucket(1, now + window, now)
      ensures old(key in requests && 0 != requests[key].windowEnd > now) ==>
        requests[key] == old(requests[key]).(count := old(requests[key].count) + 1, lastSeenAt := now)
      ensures ok <==> requests[key].count <= limit
    {
      var current := if key in requests then requests[key] else Bucket(0, ZERO_TIME, ZERO_TIME);
      if current.windowEnd == ZERO_TIME || !(now < current.windowEnd) {
        current := Bucket(0, now + window, ZERO_TIME);
      }
      current := current.(count := current.count + 1);
      current := current.(lastSeenAt := now);
      requests := requests[key := current];
      return current.count <= limit;
    }

    /** Feeding a whole trace through the limiter yields the decisions of the trace semantics. */
    method AllowAll(calls: seq<Call>) returns (decisions: seq<bool>)
      requires requests == map[]
      modifies this
      ensures requests == Table(calls, window)
      ensures |decisions| == |calls|
      ensures forall i :: 0 <= i < |calls| ==> decisions[i] == Allowed(calls, i, limit, window)
    {
      decisions := [];
      for i := 0 to |calls|
        invariant requests == Table(calls[..i], window)
        invariant |decisions| == i
        invariant forall j :: 0 <= j < i ==> decisions[j] == Allowed(calls, j, limit, window)
      {
        assert calls[..i + 1][..i] == calls[..i];
        TableAt(calls[..i], calls[i].key, window);
        TableAt(calls[..i + 1], calls[i].key, window);
        var ok := Allow(calls[i].key, calls[i].now);
        decisions := decisions + [ok];
      }
      assert calls[..|calls|] == calls;
    }
  }

  /** The whole table after a trace. */
  function Table(calls: seq<Call>, window: int): (requests: map<string, Bucket>) {
    if calls == [] then map[]
    else
      var before := Table(calls[..|calls| - 1], window);
      var call := calls[|calls| - 1];
      before[call.key := NextBucket(BucketOf(before, call.key), call.now, window)]
  }

  /** One key's bucket after a trace. */
  function After(calls: seq<Call>, key: string, window: int): (bucket: Bucket) {
    if calls == [] then Bucket(0, ZERO_TIME, ZERO_TIME)
    else
      var before := After(calls[..|calls| - 1], key, window);
      var call := calls[|calls| - 1];
      if call.key == key then NextBucket(before, call.now, window) else before
  }

  lemma {:induction false} TableAt(calls: seq<Call>, key: string, window: int)
    ensures BucketOf(Table(calls, window), key) == After(calls, key, window)
  {
    if calls != [] {
      TableAt(calls[..|calls| - 1], key, window);
      TableAt(calls[..|calls| - 1], calls[|calls| - 1].key, window);
    }
  }

  /** The answer the i-th call of the trace gets. */
  predicate Allowed(calls: seq<Call>, i: nat, limit: int, window: int)
    requires i < |calls|
  {
    After(calls[..i + 1], calls[i].key, window).count <= limit
  }

  // ----- calls on other keys have no effect

  function OfKey(calls: seq<Call>, key: string): (mine: seq<Call>) {
    if calls == [] then []
    else
      var rest := OfKey(calls[..|calls| - 1], key);
      if calls[|calls| - 1].key == key then rest + [calls[|calls| - 1]] else rest
  }

  /** A key's bucket depends on that key's own calls only. */
  lemma {:induction false} KeysAreIndependent(calls: seq<Call>, key: string, window: int)
    ensures After(calls, key, window) == After(OfKey(calls, key), key, window)
  {
    if calls != [] {
      KeysAreIndependent(calls[..|calls| - 1], key, window);
      var rest := OfKey(calls[..|calls| - 1], key);
      if calls[|calls| - 1].key == key {
        assert OfKey(calls, key)[..|rest|] == rest;
      }
    }
  }

  // ----- the window a call falls into, defined without the counter

  ghost predicate Clocked(calls: seq<Call>) {
    && (forall i :: 0 <= i < |calls| ==> calls[i].now > ZERO_TIME)
    && (forall i, j :: 0 <= i < j < |calls| ==> calls[i].now <= calls[j].now)
  }

  /** Index of the call that opened the key's current window: the key's first call,
      or the first call no earlier than `window` after the previous opening. */
  function Opening(calls: seq<Call>, key: string, window: int): (r: int)
    ensures -1 <= r < |calls|
    ensures r >= 0 ==> calls[r].key == key
  {
    if calls == [] then -1
    else
      var n := |calls| - 1;
      var before := Opening(calls[..n], key, window);
      if calls[n].key != key then before
      else if before < 0 || calls[n].now >= calls[before].now + window then n
      else before
  }

  /** The opening, in terms of the clock: every later call of the key comes less than `window` after it, and it comes at
      least `window` after the opening before it, if there is one. */
  lemma {:induction false} OpeningMeans(calls: seq<Call>, key: string, window: int)
    requires window > 0
    ensures var o := Opening(calls, key, window);
      if o < 0 then forall j :: 0 <= j < |calls| ==> calls[j].key != key
      else
        && (forall j :: o <= j < |calls| && calls[j].key == key ==> calls[j].now < calls[o].now + window)
        && var before := Opening(calls[..o], key, window);
           before < 0 || calls[o].now >= calls[before].now + window
  {
    if calls != [] {
      var n := |calls| - 1;
      var o := Opening(calls[..n], key, window);
      OpeningMeans(calls[..n], key, window);
      if 0 <= o == Opening(calls, key, window) { assert calls[..n][..o] == calls[..o]; }
      if 0 <= o < n == Opening(calls, key, window) { assert calls[..n][o] == calls[o]; }
    }
  }

  function CountKey(calls: seq<Call>, key: string): (n: nat) { |OfKey(calls, key)| }

  lemma CountSnoc(calls: seq<Call>, o: nat, key: string)
    requires o < |calls|
    ensures CountKey(calls[o..], key) ==
            CountKey(calls[..|calls| - 1][o..], key) + (if calls[|calls| - 1].key == key then 1 else 0)
  {
    assert calls[o..][..|calls[o..]| - 1] == calls[..|calls| - 1][o..];
  }

  ghost predicate CounterMeans(calls: seq<Call>, key: string, window: int) {
    var o := Opening(calls, key, window);
    var b := After(calls, key, window);
    if o < 0 then b == Bucket(0, ZERO_TIME, ZERO_TIME)
    else b.windowEnd == calls[o].now + window && b.count == CountKey(calls[o..], key)
  }

  /** The counter is the number of the key's calls since its window opened. */
  lemma {:induction false} CounterMeaning(calls: seq<Call>, key: string, window: int)
    requires window > 0 && forall i :: 0 <= i < |calls| ==> calls[i].now > ZERO_TIME
    ensures CounterMeans(calls, key, window)
  {
    if calls != [] {
      var n := |calls| - 1;
      CounterMeaning(calls[..n], key, window);
      var o := Opening(calls[..n], key, window);
      assert o >= 0 ==> calls[..n][o] == calls[o] && After(calls[..n], key, window).windowEnd > ZERO_TIME;
      if Opening(calls, key, window) == n {
        CountSnoc(calls, n, key);
        assert calls[..n][n..] == [];
        assert After(calls, key, window).count == 1;
      } else if o >= 0 {
        CountSnoc(calls, o, key);
      }
    }
  }

  /** A call is allowed exactly when it is among the first `limit` calls of its key's window;
      in particular the first `limit` calls of every window are always allowed. */
  lemma FirstCallsOfWindowAllowed(calls: seq<Call>, i: nat, limit: int, window: int)
    requires window > 0 && Clocked(calls) && i < |calls|
    ensures Opening(calls[..i + 1], calls[i].key, window) >= 0
    ensures Allowed(calls, i, limit, window) <==>
            CountKey(calls[Opening(calls[..i + 1], calls[i].key, window)..i + 1], calls[i].key) <= limit
  {
    var p := calls[..i + 1];
    CounterMeaning(p, calls[i].key, window);
    var o := Opening(p, calls[i].key, window);
    assert p[o..] == calls[o..i + 1];
  }

  // ----- the sliding-window bound

  /** Number of allowed calls of `key` among the first n calls with instants in [from, until). */
  function AllowedIn(calls: seq<Call>, n: nat, key: string, from: int, until: int, limit: int, window: int): (r: nat)
    requires n <= |calls|
  {
    if n == 0 then 0
    else
      AllowedIn(calls, n - 1, key, from, until, limit, window) +
      (if calls[n - 1].key == key && from <= calls[n - 1].now < until && Allowed(calls, n - 1, limit, window)
       then 1 else 0)
  }

  /** `f` full windows fit between `from` and `start`. */
  ghost predicate Fits(f: nat, start: int, from: int, window: int) {
    f * window <= start - from
  }

  /** What f + 1 windows opened inside the interval and the one before it can have allowed,
      the newest window having seen `count` calls. */
  ghost predicate Spent(allowed: nat, f: nat, count: int, limit: int) {
    allowed <= (f + 1) * limit + Min(count, limit)
  }

  ghost predicate SpentSince(allowed: nat, start: int, count: int, from: int, k: nat, limit: int, window: int) {
    exists f: nat :: f < k && Fits(f, start, from, window) && Spent(allowed, f, count, limit)
  }

  /** What is known of the number of allowed calls so far, given the key's current bucket. */
  ghost predicate Budget(allowed: nat, b: Bucket, from: int, k: nat, limit: int, window: int) {
    var start := b.windowEnd - window;
    && allowed <= (k + 1) * limit
    && (b.windowEnd == ZERO_TIME || b.lastSeenAt < from ==> allowed == 0)
    && (b.windowEnd != ZERO_TIME && start < from ==> allowed <= Min(b.count, limit))
    && (b.windowEnd != ZERO_TIME && from <= start < from + k * window ==>
          SpentSince(allowed, start, b.count, from, k, limit, window))
  }

  lemma FewerThan(f: nat, k: nat, d: int, window: int)
    requires window > 0 && f * window <= d < k * window
    ensures f < k
  {
  }

  lemma SinceIntro(f: nat, allowed: nat, start: int, count: int, from: int, k: nat, limit: int, window: int)
    requires f < k && Fits(f, start, from, window) && Spent(allowed, f, count, limit)
    ensures SpentSince(allowed, start, count, from, k, limit, window)
  {
  }

  /** A call inside the interval opens the interval's first window. */
  lemma FirstWindow(now: int, from: int, k: nat, limit: int, window: int, allowed: nat)
    requires window > 0 && limit > 0 && from <= now < from + k * window && allowed <= limit
    ensures SpentSince(allowed + 1, now, 1, from, k, limit, window)
    ensures allowed + 1 <= (k + 1) * limit
  {
    FewerThan(0, k, now - from, window);
    SinceIntro(0, allowed + 1, now, 1, from, k, limit, window);
    MulMono(2, k + 1, limit);
  }

  /** A call inside the interval opens a further window, at least `window` after the previous opening. */
  lemma NextWindow(now: int, start: int, count: int, from: int, k: nat, limit: int, window: int, allowed: nat)
    requires window > 0 && limit > 0 && start + window <= now < from + k * window
    requires SpentSince(allowed, start, count, from, k, limit, window)
    ensures SpentSince(allowed + 1, now, 1, from, k, limit, window)
    ensures allowed + 1 <= (k + 1) * limit
  {
    var f: nat :| f < k && Fits(f, start, from, window) && Spent(allowed, f, count, limit);
    var g: nat := f + 1;
    assert g * window == f * window + window;
    FewerThan(g, k, now - from, window);
    assert (g + 1) * limit == (f + 1) * limit + limit;
    assert Fits(g, now, from, window) && Spent(allowed + 1, g, 1, limit);
    MulMono(g + 1, k, limit);
    assert (k + 1) * limit == k * limit + limit;
  }

  /** A call inside a window opened in the interval. */
  lemma SameWindow(start: int, count: int, from: int, k: nat, limit: int, window: int, allowed: nat)
    requires limit > 0 && count >= 0
    requires SpentSince(allowed, start, count, from, k, limit, window)
    ensures SpentSince(allowed, start, count + 1, from, k, limit, window)
    ensures count + 1 <= limit ==> SpentSince(allowed + 1, start, count + 1, from, k, limit, window)
    ensures count + 1 <= limit ==> allowed + 1 <= (k + 1) * limit
  {
    var f: nat :| f < k && Fits(f, start, from, window) && Spent(allowed, f, count, limit);
    assert Spent(allowed, f, count + 1, limit);
    if count + 1 <= limit {
      assert Spent(allowed + 1, f, count + 1, limit);
      MulMono(f + 1, k, limit);
      assert (k + 1) * limit == k * limit + limit;
    }
  }

  lemma {:induction false} BudgetHolds(calls: seq<Call>, n: nat, key: string, from: int, k: nat, limit: int,
        window: int)
    requires window > 0 && limit > 0 && Clocked(calls) && n <= |calls|
    ensures Budget(AllowedIn(calls, n, key, from, from + k * window, limit, window), After(calls[..n], key, window),
      from, k, limit, window)
    ensures After(calls[..n], key, window).count >= 0
    ensures After(calls[..n], key, window).windowEnd != ZERO_TIME ==>
      var b := After(calls[..n], key, window);
      n > 0 && window < b.windowEnd <= b.lastSeenAt + window && b.lastSeenAt <= calls[n - 1].now
  {
    if n > 0 {
      BudgetHolds(calls, n - 1, key, from, k, limit, window);
      assert calls[..n][..n - 1] == calls[..n - 1];
      var b := After(calls[..n - 1], key, window);
      var call := calls[n - 1];
      if call.key == key {
        BudgetStep(AllowedIn(calls, n - 1, key, from, from + k * window, limit, window), b, call.now, from, k, limit,
          window);
      }
    }
  }

  /** One more call of the key keeps the budget, whether or not it falls into the interval. */
  lemma BudgetStep(allowed: nat, b: Bucket, now: int, from: int, k: nat, limit: int, window: int)
    requires window > 0 && limit > 0 && now > ZERO_TIME && b.count >= 0
    requires b.windowEnd != ZERO_TIME ==> window < b.windowEnd <= b.lastSeenAt + window && b.lastSeenAt <= now
    requires Budget(allowed, b, from, k, limit, window)
    ensures var b' := NextBucket(b, now, window);
      var more := if from <= now < from + k * window && b'.count <= limit then 1 else 0;
      Budget(allowed + more, b', from, k, limit, window)
  {
    var start := b.windowEnd - window;
    var reopen := b.windowEnd == ZERO_TIME || now >= b.windowEnd;
    var inside := from <= now < from + k * window;
    MulMono(1, k + 1, limit);
    if reopen && inside {
      if b.windowEnd == ZERO_TIME || start < from {
        FirstWindow(now, from, k, limit, window, allowed);
      } else {
        NextWindow(now, start, b.count, from, k, limit, window, allowed);
      }
    } else if !reopen && from <= start < from + k * window {
      SameWindow(start, b.count, from, k, limit, window, allowed);
    }
  }

  /** On any trace with a nondecreasing clock, a key gets at most (k + 1) * limit allowed calls
      in any half-open interval of k windows; so at most 2 * limit in any interval of one window. */
  lemma SlidingWindowBound(calls: seq<Call>, key: string, from: int, k: nat, limit: int, window: int)
    requires window > 0 && limit > 0 && Clocked(calls)
    ensures AllowedIn(calls, |calls|, key, from, from + k * window, limit, window) <= (k + 1) * limit
  {
    BudgetHolds(calls, |calls|, key, from, k, limit, window);
  }
}
