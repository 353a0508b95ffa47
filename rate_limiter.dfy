/** utils/rate_limiter.py: the limiter's configuration check and the
    `async_retry` wrapper, run over the outcome of each attempt. */
module RateLimiter {
  import opened Wrappers
  import opened Payload

  /** A validated `AsyncRateLimiter`: `rate` permits, each handed back `per`
      seconds after it was granted. The permits themselves are not modelled. */
  datatype Limiter = Limiter(rate: nat, per: real)

  /** `AsyncRateLimiter(rate=..., per=...)`: the constructor refuses a
      non-positive rate first, then a non-positive period. */
  function NewRateLimiter(rate: int, per: real): (r: Result<Limiter, string>)
    ensures r.Ok? <==> rate > 0 && per > 0.0
    ensures r.Ok? ==> r.value.rate == rate && r.value.per == per
    ensures rate <= 0 ==> r == Err("rate must be positive")
    ensures rate > 0 && per <= 0.0 ==> r == Err("per must be positive")
  {
    if rate <= 0 then Err("rate must be positive")
    else if per <= 0.0 then Err("per must be positive")
    else Ok(Limiter(rate, per))
  }

  /** What a caller of a rate-limited, retried operation observes, in order. */
  datatype Step = Acquire | Call | Sleep(seconds: real)

  /** How the wrapper ends: the wrapped function's value, an exception that
      escapes (the last retryable one, or the first one outside
      `exceptions`), or the `RuntimeError` raised when the attempt loop never
      runs. */
  datatype RetryResult<+T, +E> = Succeeded(value: T) | Propagated(error: E) | GaveUp

  function Pow2(n: nat): (p: nat)
    ensures p >= 1
  {
    if n == 0 then 1 else 2 * Pow2(n - 1)
  }

  /** The wrapper from attempt number `attempt` (1-based) on, with the
      current `delay`. `outcome(k)` is what the k-th call does and
      `retryable(e)` is `isinstance(e, exceptions)`. */
  function RetryFrom<T, E>(attempt: nat, attempts: int, delay: real,
                           outcome: nat -> Attempt<T, E>, retryable: E -> bool)
    : (RetryResult<T, E>, seq<Step>)
    decreases attempts - attempt
  {
    if attempt > attempts then (GaveUp, [])
    else match outcome(attempt)
      case Returned(v) => (Succeeded(v), [Call])
      case Threw(e) =>
        if !retryable(e) || attempt == attempts then (Propagated(e), [Call])
        else
          var rest := RetryFrom(attempt + 1, attempts, delay * 2.0, outcome, retryable);
          (rest.0, [Call, Sleep(delay)] + rest.1)
  }

  /** `async_retry(attempts=..., base_delay=..., exceptions=...)(func)()`:
      call, and after a retryable failure that is not the last attempt
      sleep `delay` and double it. */
  method Retry<T, E>(attempts: int, baseDelay: real, outcome: nat -> Attempt<T, E>, retryable: E -> bool)
    returns (r: RetryResult<T, E>, steps: seq<Step>)
    ensures (r, steps) == RetryFrom(1, attempts, baseDelay, outcome, retryable)
    ensures attempts <= 0 ==> r == GaveUp && steps == []
  {
    var delay := baseDelay;
    var attempt := 1;
    steps := [];
    assert steps + RetryFrom(1, attempts, baseDelay, outcome, retryable).1
        == RetryFrom(1, attempts, baseDelay, outcome, retryable).1;
    while attempt <= attempts
      invariant 1 <= attempt
      invariant RetryFrom(1, attempts, baseDelay, outcome, retryable).0
             == RetryFrom(attempt, attempts, delay, outcome, retryable).0
      invariant RetryFrom(1, attempts, baseDelay, outcome, retryable).1
             == steps + RetryFrom(attempt, attempts, delay, outcome, retryable).1
      decreases attempts - attempt
    {
      steps := steps + [Call];
      match outcome(attempt)
      case Returned(v) =>
        assert RetryFrom(attempt, attempts, delay, outcome, retryable) == (Succeeded(v), [Call]);
        assert steps[..|steps| - 1] + [Call] == steps;
        return Succeeded(v), steps;
      case Threw(e) =>
        if !retryable(e) || attempt == attempts {
          assert RetryFrom(attempt, attempts, delay, outcome, retryable) == (Propagated(e), [Call]);
          assert steps[..|steps| - 1] + [Call] == steps;
          return Propagated(e), steps;
        }
        ghost var rest := RetryFrom(attempt + 1, attempts, delay * 2.0, outcome, retryable).1;
        assert (steps + [Sleep(delay)]) + rest == (steps[..|steps| - 1]) + ([Call, Sleep(delay)] + rest);
        steps := steps + [Sleep(delay)];
        delay := delay * 2.0;
      attempt := attempt + 1;
    }
    assert steps + [] == steps;
    r := GaveUp;
  }

  function Last<T>(s: seq<T>): T
    requires s != []
  {
    s[|s| - 1]
  }

  /** Number of calls in a trace. */
  function CallsOf(steps: seq<Step>): nat {
    if steps == [] then 0 else CallsOf(steps[..|steps| - 1]) + (if steps[|steps| - 1] == Call then 1 else 0)
  }

  /** The sleep durations of a trace, in order. */
  function SleepsOf(steps: seq<Step>): seq<real> {
    if steps == [] then []
    else SleepsOf(steps[..|steps| - 1]) + (if steps[|steps| - 1].Sleep? then [steps[|steps| - 1].seconds] else [])
  }

  lemma {:induction false} TraceAppend(a: seq<Step>, b: seq<Step>)
    ensures CallsOf(a + b) == CallsOf(a) + CallsOf(b)
    ensures SleepsOf(a + b) == SleepsOf(a) + SleepsOf(b)
    decreases |b|
  {
    if b == [] {
      assert a + b == a;
    } else {
      TraceAppend(a, b[..|b| - 1]);
      assert (a + b)[..|a + b| - 1] == a + b[..|b| - 1];
    }
  }

  lemma RetryPrefix(delay: real, rest: seq<Step>)
    ensures CallsOf([Call, Sleep(delay)] + rest) == 1 + CallsOf(rest)
    ensures SleepsOf([Call, Sleep(delay)] + rest) == [delay] + SleepsOf(rest)
  {
    TraceAppend([Call, Sleep(delay)], rest);
    assert [Call, Sleep(delay)][..1] == [Call];
    assert [Call][..0] == [];
    assert CallsOf([Call, Sleep(delay)]) == 1;
    assert SleepsOf([Call, Sleep(delay)]) == [delay];
  }

  /** One attempt that does not end the wrapper is a call, then a sleep of
      the current delay, then the rest of the wrapper with the delay doubled. */
  lemma RetryUnfold<T, E>(attempt: nat, attempts: int, delay: real,
                          outcome: nat -> Attempt<T, E>, retryable: E -> bool)
    requires attempt <= attempts
    ensures var steps := RetryFrom(attempt, attempts, delay, outcome, retryable).1;
      || steps == [Call]
      || (attempt < attempts
          && steps == [Call, Sleep(delay)] + RetryFrom(attempt + 1, attempts, delay * 2.0, outcome, retryable).1)
  {
  }

  /** Whenever at least one attempt is allowed, the trace starts and ends
      with a call. */
  lemma {:induction false} RetryEndsWithCalls<T, E>(attempt: nat, attempts: int, delay: real,
                                                    outcome: nat -> Attempt<T, E>, retryable: E -> bool)
    requires attempt <= attempts
    ensures RetryFrom(attempt, attempts, delay, outcome, retryable).1 != []
    ensures RetryFrom(attempt, attempts, delay, outcome, retryable).1[0] == Call
    ensures Last(RetryFrom(attempt, attempts, delay, outcome, retryable).1) == Call
    decreases attempts - attempt
  {
    var steps := RetryFrom(attempt, attempts, delay, outcome, retryable).1;
    RetryUnfold(attempt, attempts, delay, outcome, retryable);
    if steps != [Call] {
      var rest := RetryFrom(attempt + 1, attempts, delay * 2.0, outcome, retryable).1;
      RetryEndsWithCalls(attempt + 1, attempts, delay * 2.0, outcome, retryable);
      assert Last(steps) == Last(rest);
    }
  }

  /** At most `attempts` calls, and exactly one sleep between consecutive
      calls. */
  lemma {:induction false} RetryCallCount<T, E>(attempt: nat, attempts: int, delay: real,
                                                outcome: nat -> Attempt<T, E>, retryable: E -> bool)
    requires attempt <= attempts
    ensures 1 <= CallsOf(RetryFrom(attempt, attempts, delay, outcome, retryable).1) <= attempts - attempt + 1
    ensures |SleepsOf(RetryFrom(attempt, attempts, delay, outcome, retryable).1)|
         == CallsOf(RetryFrom(attempt, attempts, delay, outcome, retryable).1) - 1
    decreases attempts - attempt
  {
    var steps := RetryFrom(attempt, attempts, delay, outcome, retryable).1;
    RetryUnfold(attempt, attempts, delay, outcome, retryable);
    if steps == [Call] {
      assert CallsOf([Call]) == 1;
    } else {
      var rest := RetryFrom(attempt + 1, attempts, delay * 2.0, outcome, retryable).1;
      RetryCallCount(attempt + 1, attempts, delay * 2.0, outcome, retryable);
      RetryPrefix(delay, rest);
    }
  }

  /** `n` sleeps starting at `delay`, each twice the one before. */
  function Backoff(delay: real, n: nat): (r: seq<real>)
    ensures |r| == n
    decreases n
  {
    if n == 0 then [] else [delay] + Backoff(delay * 2.0, n - 1)
  }

  /** The k-th entry (from 0) of the backoff sequence is `delay * 2^k`. */
  lemma {:induction false} BackoffAt(delay: real, n: nat, k: nat)
    requires k < n
    ensures Backoff(delay, n)[k] == delay * Pow2(k) as real
    decreases k
  {
    if k > 0 {
      BackoffAt(delay * 2.0, n - 1, k - 1);
      var p := Pow2(k - 1) as real;
      assert Pow2(k) as real == 2.0 * p;
      assert delay * 2.0 * p == delay * (2.0 * p);
    }
  }

  /** The sleeps of the wrapper double from `delay` on. */
  lemma {:induction false} RetryBackoff<T, E>(attempt: nat, attempts: int, delay: real,
                                              outcome: nat -> Attempt<T, E>, retryable: E -> bool)
    requires attempt <= attempts
    ensures SleepsOf(RetryFrom(attempt, attempts, delay, outcome, retryable).1)
         == Backoff(delay, |SleepsOf(RetryFrom(attempt, attempts, delay, outcome, retryable).1)|)
    decreases attempts - attempt
  {
    var steps := RetryFrom(attempt, attempts, delay, outcome, retryable).1;
    RetryUnfold(attempt, attempts, delay, outcome, retryable);
    if steps == [Call] {
      assert SleepsOf([Call]) == [];
    } else {
      var rest := RetryFrom(attempt + 1, attempts, delay * 2.0, outcome, retryable).1;
      RetryBackoff(attempt + 1, attempts, delay * 2.0, outcome, retryable);
      RetryPrefix(delay, rest);
    }
  }

  /** The k-th sleep (from 0) lasts `delay * 2^k`. */
  lemma RetrySleeps<T, E>(attempt: nat, attempts: int, delay: real,
                          outcome: nat -> Attempt<T, E>, retryable: E -> bool)
    requires attempt <= attempts
    ensures forall k :: 0 <= k < |SleepsOf(RetryFrom(attempt, attempts, delay, outcome, retryable).1)| ==>
              SleepsOf(RetryFrom(attempt, attempts, delay, outcome, retryable).1)[k] == delay * Pow2(k) as real
  {
    var sleeps := SleepsOf(RetryFrom(attempt, attempts, delay, outcome, retryable).1);
    RetryBackoff(attempt, attempts, delay, outcome, retryable);
    forall k | 0 <= k < |sleeps| ensures sleeps[k] == delay * Pow2(k) as real {
      BackoffAt(delay, |sleeps|, k);
    }
  }

  /** An operation that fails with a retryable error on every attempt is
      called exactly `attempts` times, and the last error propagates. */
  lemma {:induction false} AlwaysFailing<T, E>(attempt: nat, attempts: int, delay: real,
                                               outcome: nat -> Attempt<T, E>, retryable: E -> bool)
    requires 1 <= attempt <= attempts
    requires forall k :: attempt <= k <= attempts ==> outcome(k).Threw? && retryable(outcome(k).error)
    ensures var (r, steps) := RetryFrom(attempt, attempts, delay, outcome, retryable);
      r == Propagated(outcome(attempts).error) && CallsOf(steps) == attempts - attempt + 1
    decreases attempts - attempt
  {
    if attempt < attempts {
      var rest := RetryFrom(attempt + 1, attempts, delay * 2.0, outcome, retryable).1;
      AlwaysFailing(attempt + 1, attempts, delay * 2.0, outcome, retryable);
      TraceAppend([Call, Sleep(delay)], rest);
      assert [Call, Sleep(delay)][..1] == [Call];
    } else {
      assert CallsOf([Call]) == 1;
    }
  }

  /** The first attempt that returns ends the wrapper with its value, and
      no later attempt is made; likewise the first exception outside
      `exceptions` escapes at once. */
  lemma {:induction false} StopsAtFirstDecisive<T, E>(attempt: nat, attempts: int, delay: real,
                                                     outcome: nat -> Attempt<T, E>, retryable: E -> bool, n: nat)
    requires attempt <= n <= attempts
    requires forall k :: attempt <= k < n ==> outcome(k).Threw? && retryable(outcome(k).error)
    requires outcome(n).Returned? || !retryable(outcome(n).error)
    ensures var (r, steps) := RetryFrom(attempt, attempts, delay, outcome, retryable);
      && (outcome(n).Returned? ==> r == Succeeded(outcome(n).value))
      && (outcome(n).Threw? ==> r == Propagated(outcome(n).error))
      && CallsOf(steps) == n - attempt + 1
    decreases n - attempt
  {
    if attempt < n {
      var rest := RetryFrom(attempt + 1, attempts, delay * 2.0, outcome, retryable).1;
      StopsAtFirstDecisive(attempt + 1, attempts, delay * 2.0, outcome, retryable, n);
      TraceAppend([Call, Sleep(delay)], rest);
      assert [Call, Sleep(delay)][..1] == [Call];
    } else {
      assert CallsOf([Call]) == 1;
    }
  }
}
