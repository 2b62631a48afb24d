/** `fetchWithRetry` (redux/slices/cryptoSlice.js): a request is attempted up to
    `retries + 1` times; only HTTP 429 Too Many Requests (section 4 of RFC 6585)
    and 503 Service Unavailable (section 15.6.4 of RFC 9110) are retried, after a
    wait of `initialDelay * 2^attempt` milliseconds. The outcome of each attempt
    is an input: `outcome(k)` is what attempt number `k` (from 0) returns. */
module Retry {
  import opened Common

  const MaxRetries: nat := 4
  const InitialDelay: nat := 5000

  /** What one `axios.get` call produces: a response, or an error whose
      `response.status` may be absent (a network error has no response). */
  datatype Attempt<R> = Response(body: R) | HttpFailure(status: Option<int>, message: string)

  /** The two statuses the loop retries. */
  predicate Transient<R>(a: Attempt<R>)
  {
    a.HttpFailure? && (a.status == Some(429) || a.status == Some(503))
  }

  /** A finished call: the attempt whose outcome was returned or rethrown, and
      the waits slept before the attempts that followed a failure. */
  datatype Run<R> = Run(result: Attempt<R>, waits: seq<nat>)

  function Pow2(k: nat): (r: nat)
    ensures r >= 1
  {
    if k == 0 then 1 else 2 * Pow2(k - 1)
  }

  /** The wait after failed attempt `k`. */
  function Delay(initialDelay: nat, k: nat): nat
  {
    initialDelay * Pow2(k)
  }

  /** The loop from attempt number `attempt` on. */
  function RetryFrom<R>(outcome: nat -> Attempt<R>, retries: nat, initialDelay: nat, attempt: nat): Run<R>
    requires attempt <= retries
    decreases retries - attempt
  {
    var a := outcome(attempt);
    if a.Response? || attempt >= retries || !Transient(a) then Run(a, [])
    else
      var rest := RetryFrom(outcome, retries, initialDelay, attempt + 1);
      Run(rest.result, [Delay(initialDelay, attempt)] + rest.waits)
  }

  function RetryRun<R>(outcome: nat -> Attempt<R>, retries: nat, initialDelay: nat): Run<R>
  {
    RetryFrom(outcome, retries, initialDelay, 0)
  }

  lemma {:induction false} RetryFromShape<R>(outcome: nat -> Attempt<R>, retries: nat, initialDelay: nat, attempt: nat)
    requires attempt <= retries
    ensures var run := RetryFrom(outcome, retries, initialDelay, attempt);
      var last := attempt + |run.waits|;
      && last <= retries
      && run.result == outcome(last)
      && (forall k :: attempt <= k < last ==> Transient(outcome(k)))
      && (forall k :: attempt <= k < last ==> run.waits[k - attempt] == Delay(initialDelay, k))
      && (run.result.Response? || !Transient(run.result) || last == retries)
    decreases retries - attempt
  {
    var a := outcome(attempt);
    if !(a.Response? || attempt >= retries || !Transient(a)) {
      RetryFromShape(outcome, retries, initialDelay, attempt + 1);
    }
  }

  /** The whole behaviour of the loop in closed form. With `n` the number of
      waits: attempts 0 .. n-1 all failed with 429 or 503 and each was followed
      by a wait of `initialDelay * 2^k`; attempt `n` is what the call returns or
      rethrows, and it is either a response, a failure of any other kind, or the
      last attempt allowed (`n == retries`), which is rethrown without a wait. */
  lemma RetryShape<R>(outcome: nat -> Attempt<R>, retries: nat, initialDelay: nat)
    ensures var run := RetryRun(outcome, retries, initialDelay);
      var n := |run.waits|;
      && n <= retries
      && run.result == outcome(n)
      && (forall k :: 0 <= k < n ==> Transient(outcome(k)))
      && (forall k :: 0 <= k < n ==> run.waits[k] == initialDelay * Pow2(k))
      && (run.result.Response? || !Transient(run.result) || n == retries)
  {
    RetryFromShape(outcome, retries, initialDelay, 0);
    var run := RetryRun(outcome, retries, initialDelay);
    forall k | 0 <= k < |run.waits| ensures run.waits[k] == initialDelay * Pow2(k) {
      assert run.waits[k - 0] == Delay(initialDelay, k);
    }
  }

  /** A request that fails with 429 or 503 `r` times and then answers is
      answered after exactly `r` waits when `r <= retries`; otherwise the
      `retries`-th transient failure is rethrown after `retries` waits. */
  lemma TransientThenSuccess<R>(outcome: nat -> Attempt<R>, retries: nat, initialDelay: nat, r: nat)
    requires forall k :: 0 <= k < r ==> Transient(outcome(k))
    requires outcome(r).Response?
    ensures var run := RetryRun(outcome, retries, initialDelay);
      if r <= retries then run.result == outcome(r) && |run.waits| == r
      else run.result == outcome(retries) && Transient(run.result) && |run.waits| == retries
  {
    RetryShape(outcome, retries, initialDelay);
  }

  /** A failure other than 429 or 503 is rethrown at once: no wait follows it
      and no further attempt is made. */
  lemma OtherFailureRethrown<R>(outcome: nat -> Attempt<R>, retries: nat, initialDelay: nat, f: nat)
    requires f <= retries
    requires forall k :: 0 <= k < f ==> Transient(outcome(k))
    requires outcome(f).HttpFailure? && !Transient(outcome(f))
    ensures RetryRun(outcome, retries, initialDelay) == Run(outcome(f), RetryRun(outcome, retries, initialDelay).waits)
    ensures |RetryRun(outcome, retries, initialDelay).waits| == f
  {
    RetryShape(outcome, retries, initialDelay);
  }

  /** With the configured defaults the waits are 5000, 10000, 20000 and 40000 ms
      at most, in that order: the longest wait is 40000 ms, since no wait follows
      the fifth and final attempt. */
  lemma DefaultSchedule<R>(outcome: nat -> Attempt<R>)
    ensures var waits := RetryRun(outcome, MaxRetries, InitialDelay).waits;
      && |waits| <= 4
      && waits == [5000, 10000, 20000, 40000][..|waits|]
      && forall k :: 0 <= k < |waits| ==> waits[k] <= 40000
  {
    RetryShape(outcome, MaxRetries, InitialDelay);
    var waits := RetryRun(outcome, MaxRetries, InitialDelay).waits;
    assert Pow2(1) == 2 && Pow2(2) == 4 && Pow2(3) == 8;
    assert forall k :: 0 <= k < |waits| ==> waits[k] == [5000, 10000, 20000, 40000][k];
  }

  /** The `while (attempt <= retries)` loop of lines 36-61. */
  method FetchWithRetry<R>(outcome: nat -> Attempt<R>, retries: nat, initialDelay: nat)
    returns (result: Attempt<R>, waits: seq<nat>)
    ensures Run(result, waits) == RetryRun(outcome, retries, initialDelay)
  {
    var attempt: nat := 0;
    waits := [];
    result := outcome(0);
    while attempt <= retries
      invariant attempt <= retries
      invariant RetryRun(outcome, retries, initialDelay) ==
        var rest := RetryFrom(outcome, retries, initialDelay, attempt);
        Run(rest.result, waits + rest.waits)
      decreases retries - attempt
    {
      var a := outcome(attempt);
      if a.Response? {
        return a, waits;
      }
      if attempt >= retries || !Transient(a) {
        return a, waits;
      }
      var delay := Delay(initialDelay, attempt);
      waits := waits + [delay];
      attempt := attempt + 1;
    }
  }
}
