/** What the API routes share: HTTP success and the exponential wait between upstream attempts. */
module Http {
  /** `response.ok`. */
  predicate IsOk(status: nat) {
    200 <= status <= 299
  }

  /** The routes give the upstream at most three attempts. */
  const MaxAttempts: nat := 3

  function Pow2(n: nat): (r: nat)
    ensures r >= 1
  {
    if n == 0 then 1 else 2 * Pow2(n - 1)
  }

  /** `Math.pow(2, attempt + 1) * unit` milliseconds. */
  function Backoff(unit: nat, attempt: nat): nat {
    Pow2(attempt + 1) * unit
  }

  /** The waits recorded after the first `n` attempts were retried. */
  function Waits(unit: nat, n: nat): (r: seq<nat>)
    ensures |r| == n && forall k :: 0 <= k < n ==> r[k] == Backoff(unit, k)
  {
    seq(n, k requires 0 <= k => Backoff(unit, k))
  }

  /** Each wait doubles the one before it. */
  lemma BackoffDoubles(unit: nat, attempt: nat)
    ensures Backoff(unit, attempt + 1) == 2 * Backoff(unit, attempt)
  {
  }

  /** With a positive unit the waits strictly increase. */
  lemma {:induction false} BackoffIncreasing(unit: nat, a: nat, b: nat)
    requires unit > 0 && a < b
    ensures Backoff(unit, a) < Backoff(unit, b)
    decreases b - a
  {
    BackoffDoubles(unit, a);
    if a + 1 < b {
      BackoffIncreasing(unit, a + 1, b);
    }
  }

  /** The search routes wait 4, 8 and 16 seconds; the model route waits 60, 120 and 240 seconds. */
  lemma Schedules()
    ensures Waits(2000, MaxAttempts) == [4000, 8000, 16000]
    ensures Waits(30000, MaxAttempts) == [60000, 120000, 240000]
  {
    assert Pow2(1) == 2 && Pow2(2) == 4 && Pow2(3) == 8;
  }
}
