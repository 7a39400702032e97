/**
 * `withRetry` (utils/retry.ts): call an operation, and while it throws a rate-limit
 * `ProviderError` (code 429) and retries remain, sleep and call it again.
 *
 * The operation is an oracle `fn`: `fn(i)` is what its i-th invocation yields.
 * The sleeps are recorded rather than performed.
 */
module Retry {
  import opened Wrappers

  const DefaultRetries: nat := 3
  const DefaultBackoffMs: int := 500
  const RateLimitCode: int := 429

  /** One execution of `withRetry`: the settled outcome, the number of calls and the sleeps between them. */
  datatype Run<T> = Run(result: Result<T>, calls: nat, waits: seq<int>)

  /** The outcome is a thrown rate-limit error, the only kind that is retried. */
  predicate IsRateLimited<T>(o: Result<T>) {
    o.Err? && o.error.ProviderError? && o.error.code == RateLimitCode
  }

  /** `err.retryAfterMs ?? 500`. */
  function Backoff(e: Error): int {
    if e.ProviderError? && e.retryAfterMs.Some? then e.retryAfterMs.value else DefaultBackoffMs
  }

  /** The operation seen from its second invocation on. */
  function Shift<T>(fn: nat -> Result<T>): nat -> Result<T> {
    (i: nat) => fn(i + 1)
  }

  /**
   * `withRetry(fn, retries)`. It makes at most `retries + 1` calls, every call but the
   * last was rate limited and was followed by its back-off sleep, and the settled
   * outcome is exactly the last call's: a success, a non-429 error rethrown as is, or a
   * 429 once the retries are spent.
   */
  function WithRetry<T>(fn: nat -> Result<T>, retries: nat): (r: Run<T>)
    decreases retries
    ensures 1 <= r.calls <= retries + 1
    ensures |r.waits| == r.calls - 1
    ensures r.result == fn(r.calls - 1)
    ensures forall i :: 0 <= i < r.calls - 1 ==> IsRateLimited(fn(i)) && r.waits[i] == Backoff(fn(i).error)
    ensures IsRateLimited(r.result) ==> r.calls == retries + 1
  {
    var out := fn(0);
    if IsRateLimited(out) && retries > 0 then
      var rest := WithRetry(Shift(fn), retries - 1);
      var waits := [Backoff(out.error)] + rest.waits;
      assert rest.result == fn(rest.calls) by {
        assert Shift(fn)(rest.calls - 1) == fn(rest.calls);
      }
      assert forall i :: 1 <= i < rest.calls ==> IsRateLimited(fn(i)) && waits[i] == Backoff(fn(i).error) by {
        forall i | 1 <= i < rest.calls ensures IsRateLimited(fn(i)) && waits[i] == Backoff(fn(i).error) {
          assert Shift(fn)(i - 1) == fn(i);
          assert waits[i] == rest.waits[i - 1];
        }
      }
      Run(rest.result, rest.calls + 1, waits)
    else
      Run(out, 1, [])
  }

  /**
   * If the k-th call is the first that is not rate limited and it is within the
   * budget, `withRetry` settles on exactly that call.
   */
  lemma {:induction false} SettlesOnFirstNonRateLimited<T>(fn: nat -> Result<T>, retries: nat, k: nat)
    requires k <= retries
    requires !IsRateLimited(fn(k))
    requires forall j :: 0 <= j < k ==> IsRateLimited(fn(j))
    ensures WithRetry(fn, retries).calls == k + 1
    ensures WithRetry(fn, retries).result == fn(k)
    decreases k
  {
    if k > 0 {
      var g := Shift(fn);
      forall j | 0 <= j < k - 1 ensures IsRateLimited(g(j)) {
        assert g(j) == fn(j + 1);
      }
      assert g(k - 1) == fn(k);
      SettlesOnFirstNonRateLimited(g, retries - 1, k - 1);
      assert IsRateLimited(fn(0));
    }
  }

  /** A first call that succeeds or fails with anything but a 429 is final. */
  lemma FirstCallFinal<T>(fn: nat -> Result<T>, retries: nat)
    requires !IsRateLimited(fn(0))
    ensures WithRetry(fn, retries) == Run(fn(0), 1, [])
  {
  }

  /** With the default budget of 3 retries, at most four calls are made. */
  lemma DefaultBudget<T>(fn: nat -> Result<T>)
    ensures WithRetry(fn, DefaultRetries).calls <= 4
  {
  }
}
