/** The waits of the consumer's retry loop: exponential backoff in wrapping int64 arithmetic. The loop itself,
    `ConsumerProgram.HandleWithRetry`, waits `Backoff(k, ...)` after its k-th failed attempt. */
module RetryLoop {
  import opened Common

  /** `backoff` after one more doubling, capped. */
  function NextBackoff(backoff: int, max: int): (next: int) {
    var doubled := Wrap64(backoff * 2);
    if doubled > max then max else doubled
  }

  /** The wait after the k-th failed attempt. */
  function Backoff(k: nat, initial: int, max: int): (wait: int) {
    if k <= 1 then initial else NextBackoff(Backoff(k - 1, initial, max), max)
  }

  // ----- closed form

  function Pow2(n: nat): (p: nat)
    ensures p >= 1
  {
    if n == 0 then 1 else 2 * Pow2(n - 1)
  }

  lemma PowStep(initial: int, n: nat)
    requires initial >= 1
    ensures initial * Pow2(n) >= Pow2(n)
    ensures initial * Pow2(n + 1) == 2 * (initial * Pow2(n))
  {
  }

  /** The wait a reader of the configuration expects after the k-th failure. */
  function Expected(k: nat, initial: int, max: int): (wait: int)
    requires k >= 1
  {
    Min(max, initial * Pow2(k - 1))
  }

  /** The configuration check: the initial backoff is positive and at most the maximum. */
  predicate ValidBackoffs(initial: int, max: int) { 1 <= initial <= max <= MAX_INT64 }

  /** The largest maximum whose double is still an int64. */
  const SAFE_MAX: int := 0x3FFF_FFFF_FFFF_FFFF

  /** One doubling step of the closed form. */
  lemma ExpectedStep(k: nat, initial: int, max: int)
    requires k >= 1 && ValidBackoffs(initial, max)
    ensures 1 <= Expected(k, initial, max) <= max
    ensures Expected(k + 1, initial, max) == Min(max, 2 * Expected(k, initial, max))
  {
  }

  lemma {:induction false} ClosedForm(k: nat, initial: int, max: int)
    requires k >= 1 && ValidBackoffs(initial, max) && max <= SAFE_MAX
    ensures Backoff(k, initial, max) == Expected(k, initial, max)
  {
    if k > 1 {
      ClosedForm(k - 1, initial, max);
      ExpectedStep(k - 1, initial, max);
      WrapIdentity(Backoff(k - 1, initial, max) * 2);
    } else {
      assert Pow2(0) == 1;
    }
  }

  /** A configuration the check accepts but the arithmetic does not survive: the second wait is negative. */
  lemma OverflowExample()
    ensures var initial, max := SAFE_MAX + 1, MAX_INT64;
      ValidBackoffs(initial, max) && Backoff(2, initial, max) == MIN_INT64 && Expected(2, initial, max) == MAX_INT64
  {
  }

  lemma {:induction false} PowerExceeds(n: nat)
    ensures Pow2(n) > n
  {
    if n > 0 { PowerExceeds(n - 1); }
  }

  /** Above SAFE_MAX every accepted configuration goes wrong, if the loop runs long enough. */
  lemma {:induction false} BreaksAbove(k: nat, initial: int, max: int) returns (bad: nat)
    requires k >= 1 && ValidBackoffs(initial, max) && max > SAFE_MAX
    requires forall j :: 1 <= j <= k ==> Backoff(j, initial, max) == Expected(j, initial, max)
    ensures bad > k && Backoff(bad, initial, max) != Expected(bad, initial, max)
    decreases max - k
  {
    var b := Backoff(k, initial, max);
    ExpectedStep(k, initial, max);
    if b > SAFE_MAX {
      assert Wrap64(b * 2) < 0;
      bad := k + 1;
    } else {
      WrapIdentity(b * 2);
      assert Backoff(k + 1, initial, max) == Expected(k + 1, initial, max);
      PowerExceeds(k - 1);
      PowStep(initial, k - 1);
      bad := BreaksAbove(k + 1, initial, max);
    }
  }

  /** The waits follow the closed form at every attempt exactly when the maximum can be doubled. */
  lemma ClosedFormExactly(initial: int, max: int)
    requires ValidBackoffs(initial, max)
    ensures (forall k: nat :: k >= 1 ==> Backoff(k, initial, max) == Expected(k, initial, max)) <==> max <= SAFE_MAX
  {
    if max <= SAFE_MAX {
      forall k: nat | k >= 1 ensures Backoff(k, initial, max) == Expected(k, initial, max) {
        ClosedForm(k, initial, max);
      }
    } else {
      assert Expected(1, initial, max) == Min(max, initial * Pow2(0));
      var bad := BreaksAbove(1, initial, max);
    }
  }

  function Sum(waits: seq<int>): (total: int) {
    if waits == [] then 0 else Sum(waits[..|waits| - 1]) + waits[|waits| - 1]
  }

  lemma SumStep(initial: int, max: int, n: nat)
    ensures (n + 1) * max == n * max + max
    ensures initial * (Pow2(n) - 1) == initial * Pow2(n) - initial
    ensures initial * (Pow2(n + 1) - 1) == initial * Pow2(n + 1) - initial
  {
  }

  /** Total wait of a run: bounded by waits * max and by the geometric sum. */
  lemma {:induction false} TotalWait(waits: seq<int>, initial: int, max: int)
    requires ValidBackoffs(initial, max) && max <= SAFE_MAX
    requires forall k :: 0 <= k < |waits| ==> waits[k] == Backoff(k + 1, initial, max)
    ensures 0 <= Sum(waits) <= Min(|waits| * max, initial * (Pow2(|waits|) - 1))
  {
    if waits != [] {
      var n := |waits| - 1;
      TotalWait(waits[..n], initial, max);
      ClosedForm(n + 1, initial, max);
      PowStep(initial, n);
      SumStep(initial, max, n);
    }
  }
}
