/** The two backoff ladders: the jittered one around every AWS call, and the
    exact one a worker climbs at startup. Try number `k` is `tries(k)`, counted
    from 1. */
module Retry {
  import opened Wrappers

  /** What a boto3 call may raise; `httpStatus` is 0 when the response has none. */
  datatype Fault = ClientError(code: string, httpStatus: int) | BotoCoreError(name: string) | OtherError

  datatype Try<+T> = Returned(value: T) | Raised(fault: Fault)

  /** Swallowed is the answer `None`; Exhausted is TransientDependencyError. */
  datatype Answer<+T> = Value(value: T) | Swallowed | Reraised(fault: Fault) | Exhausted(last: Option<Fault>)

  datatype RetryPolicy = RetryPolicy(attempts: int, baseDelay: real, maxDelay: real)

  const DEFAULT_POLICY := RetryPolicy(4, 0.2, 5.0)
  const STARTUP_WAIT := RetryPolicy(10, 0.5, 15.0)

  const TRANSIENT_ERROR_CODES: set<string> := {
    "InternalError", "InternalFailure", "InternalServerError", "ProvisionedThroughputExceededException",
    "RequestLimitExceeded", "RequestThrottled", "RequestThrottledException", "RequestTimeout",
    "RequestTimeoutException", "ServiceUnavailable", "SlowDown", "ThrottledException", "Throttling",
    "ThrottlingException", "TooManyRequestsException", "TransactionInProgressException", "503", "500"
  }

  const TRANSIENT_BOTOCORE_ERRORS: set<string> := {
    "ConnectionClosedError", "ConnectTimeoutError", "EndpointConnectionError", "IncompleteReadError",
    "ReadTimeoutError", "ResponseStreamingError"
  }

  predicate IsTransient(f: Fault) {
    match f
    case ClientError(code, status) => code in TRANSIENT_ERROR_CODES || status >= 500 || status == 429
    case BotoCoreError(name) => name in TRANSIENT_BOTOCORE_ERRORS
    case OtherError => false
  }

  /** A try that ends the ladder: a success, a code to swallow, or an error that
      no retry can cure. */
  predicate Settles<T>(t: Try<T>, swallow: set<string>) {
    t.Returned? || IsSwallowed(t.fault, swallow) || !IsTransient(t.fault)
  }

  /** A code the caller takes for a success. */
  predicate IsSwallowed(f: Fault, swallow: set<string>) {
    f.ClientError? && f.code in swallow
  }

  /** Throttling, failures of the service and connectivity errors are retried,
      whatever else the response says; nothing that is not one of these is. */
  lemma TransientIff(f: Fault)
    ensures IsTransient(f) <==>
      || (f.ClientError? && (f.httpStatus == 429 || f.httpStatus >= 500))
      || (f.ClientError? && f.code in {"RequestLimitExceeded", "RequestThrottled", "RequestThrottledException",
            "ThrottledException", "Throttling", "ThrottlingException", "TooManyRequestsException", "SlowDown",
            "ProvisionedThroughputExceededException"})
      || (f.ClientError? && f.code in {"InternalError", "InternalFailure", "InternalServerError", "ServiceUnavailable",
            "RequestTimeout", "RequestTimeoutException", "TransactionInProgressException", "500", "503"})
      || (f.BotoCoreError? && f.name in {"ConnectionClosedError", "ConnectTimeoutError", "EndpointConnectionError",
            "IncompleteReadError", "ReadTimeoutError", "ResponseStreamingError"})
  {
  }

  function Settled<T>(t: Try<T>, swallow: set<string>): Answer<T>
    requires Settles(t, swallow)
  {
    match t
    case Returned(v) => Value(v)
    case Raised(f) => if IsSwallowed(f, swallow) then Swallowed else Reraised(f)
  }

  /** Only a transient error the caller does not swallow leads to another try. */
  lemma RetriesIff<T>(t: Try<T>, swallow: set<string>)
    ensures !Settles(t, swallow) <==>
      t.Raised? && IsTransient(t.fault) && (t.fault.ClientError? ==> t.fault.code !in swallow)
  {
  }

  /** The errors the program calls permanent end the ladder at once, unless the
      response itself says that the service failed or throttled. */
  lemma PermanentErrorsSettle<T>(code: string, status: int)
    requires code in {"AccessDenied", "ValidationException", "NoSuchKey", "ConditionalCheckFailedException"}
    ensures Settles<T>(Raised(ClientError(code, status)), {}) <==> status < 500 && status != 429
  {
  }

  // -- delays --------------------------------------------------------------------

  function Min(a: real, b: real): real {
    if a <= b then a else b
  }

  function Pow2(n: nat): (r: nat)
    ensures r >= 1
  {
    if n == 0 then 1 else 2 * Pow2(n - 1)
  }

  /** `base` doubled `n` times, and `n` times the same delay. */
  function Doubled(base: real, n: nat): real {
    if n == 0 then base else 2.0 * Doubled(base, n - 1)
  }

  function Repeated(delay: real, n: nat): real {
    if n == 0 then 0.0 else Repeated(delay, n - 1) + delay
  }

  lemma {:induction false} DoubledIs(base: real, n: nat)
    ensures Doubled(base, n) == base * Pow2(n) as real
  {
    if n > 0 {
      DoubledIs(base, n - 1);
      var k := Pow2(n - 1) as real;
      assert 2.0 * (base * k) == base * (2.0 * k);
    }
  }

  lemma {:induction false} RepeatedIs(delay: real, n: nat)
    ensures Repeated(delay, n) == n as real * delay
  {
    if n > 0 {
      RepeatedIs(delay, n - 1);
      assert n as real * delay == ((n - 1) as real + 1.0) * delay;
    }
  }

  /** The longest sleep after a failed try; a draw picks a fraction of it. */
  function Ceiling(p: RetryPolicy, attempt: nat): real
    requires attempt >= 1
  {
    Min(p.maxDelay, Doubled(p.baseDelay, attempt - 1))
  }

  type Fraction = x: real | 0.0 <= x <= 1.0

  /** A draw between zero and `limit`. */
  function Uniform(draw: Fraction, limit: real): (r: real)
    ensures limit >= 0.0 ==> 0.0 <= r <= limit
  {
    assert limit - draw * limit == (1.0 - draw) * limit;
    draw * limit
  }

  /** From zero to the limit, in proportion to the draw. */
  lemma UniformSpans(x: Fraction, y: Fraction, limit: real)
    ensures Uniform(0.0, limit) == 0.0 && Uniform(1.0, limit) == limit
    ensures x + y <= 1.0 ==> Uniform(x + y, limit) == Uniform(x, limit) + Uniform(y, limit)
  {
  }

  function Total(s: seq<real>): real {
    if s == [] then 0.0 else Total(s[..|s| - 1]) + s[|s| - 1]
  }

  lemma TotalSnoc(s: seq<real>, x: real)
    ensures Total(s + [x]) == Total(s) + x
  {
    assert (s + [x])[..|s|] == s;
  }

  /** The sum of the first `n` ceilings. */
  function Ladder(p: RetryPolicy, n: nat): real {
    if n == 0 then 0.0 else Ladder(p, n - 1) + Ceiling(p, n)
  }

  ghost predicate Sane(p: RetryPolicy) {
    p.baseDelay >= 0.0 && p.maxDelay >= 0.0
  }

  lemma {:induction false} DoubledGrows(base: real, m: nat, n: nat)
    requires base >= 0.0 && m <= n
    ensures base <= Doubled(base, m) <= Doubled(base, n)
    decreases n
  {
    if m < n {
      DoubledGrows(base, m, n - 1);
    } else if n > 0 {
      DoubledGrows(base, n - 1, n - 1);
    }
  }

  lemma CeilingNonNegative(p: RetryPolicy, n: nat)
    requires Sane(p) && n >= 1
    ensures Ceiling(p, n) >= 0.0
  {
    DoubledGrows(p.baseDelay, n - 1, n - 1);
  }

  lemma {:induction false} LadderBounded(p: RetryPolicy, n: nat)
    requires Sane(p)
    ensures 0.0 <= Ladder(p, n) <= Min(Repeated(p.maxDelay, n), Doubled(p.baseDelay, n) - p.baseDelay)
  {
    if n > 0 {
      LadderBounded(p, n - 1);
      CeilingNonNegative(p, n);
    }
  }

  lemma {:induction false} LadderGrows(p: RetryPolicy, m: nat, n: nat)
    requires Sane(p) && m <= n
    ensures Ladder(p, m) <= Ladder(p, n)
    decreases n - m
  {
    if m < n {
      CeilingNonNegative(p, m + 1);
      LadderGrows(p, m + 1, n);
    }
  }

  /** If exactly the first `m` of `n` delays lie below the cap, the whole ladder
      is the base doubled `m` times, less the base, and the cap for each of the
      rest. */
  lemma {:induction false} LadderIs(p: RetryPolicy, m: nat, n: nat)
    requires Sane(p) && m <= n
    requires m > 0 ==> Doubled(p.baseDelay, m - 1) <= p.maxDelay
    requires m < n ==> p.maxDelay <= Doubled(p.baseDelay, m)
    ensures Ladder(p, n) == Doubled(p.baseDelay, m) - p.baseDelay + Repeated(p.maxDelay, n - m)
    decreases n
  {
    if m < n {
      LadderIs(p, m, n - 1);
      DoubledGrows(p.baseDelay, m, n - 1);
    } else if n > 0 {
      if m > 1 { DoubledGrows(p.baseDelay, m - 2, m - 1); }
      LadderIs(p, m - 1, n - 1);
    }
  }

  lemma LessBase(base: real, k: nat)
    requires k >= 1
    ensures base * (k - 1) as real == base * k as real - base
  {
    assert (k - 1) as real == k as real - 1.0;
  }

  /** The longest a whole call can sleep. */
  function SleepBound(p: RetryPolicy): real
    requires p.attempts > 0
  {
    Min((p.attempts - 1) as real * p.maxDelay, p.baseDelay * (Pow2(p.attempts - 1) - 1) as real)
  }

  lemma SleepBoundIs(p: RetryPolicy)
    requires p.attempts > 0
    ensures SleepBound(p)
         == Min(Repeated(p.maxDelay, p.attempts - 1), Doubled(p.baseDelay, p.attempts - 1) - p.baseDelay)
  {
    RepeatedIs(p.maxDelay, p.attempts - 1);
    DoubledIs(p.baseDelay, p.attempts - 1);
    LessBase(p.baseDelay, Pow2(p.attempts - 1));
  }

  /** However many of its tries a call makes, the sleeps between them stay within
      the bound. */
  lemma LadderWithin(p: RetryPolicy, n: nat)
    requires Sane(p) && n < p.attempts
    ensures Ladder(p, n) <= SleepBound(p)
  {
    LadderGrows(p, n, p.attempts - 1);
    LadderBounded(p, p.attempts - 1);
    SleepBoundIs(p);
  }

  // -- the two ladders -------------------------------------------------------------

  /** `made` counts the tries, `sleeps` the time slept between them. All tries
      but the last were transient failures; the last one settles the answer, or
      is the last allowed. */
  method CallWithRetry<T>(p: RetryPolicy, swallow: set<string>, tries: nat -> Try<T>, draws: nat -> Fraction)
    returns (answer: Answer<T>, made: nat, sleeps: seq<real>)
    ensures forall k :: 1 <= k < made ==> !Settles(tries(k), swallow)
    ensures made == 0 ==> p.attempts <= 0 && answer == Exhausted(None)
    ensures made <= p.attempts || made == 0
    ensures made > 0 && tries(made).Returned? ==> answer == Value(tries(made).value)
    ensures made > 0 && tries(made).Raised? ==>
      var fault := tries(made).fault;
      if fault.ClientError? && fault.code in swallow then answer == Swallowed
      else if !IsTransient(fault) then answer == Reraised(fault)
      else made == p.attempts && answer == Exhausted(Some(fault))
    ensures |sleeps| == if made == 0 then 0 else made - 1
    ensures forall k :: 1 <= k < made ==> sleeps[k - 1] == Uniform(draws(k), Ceiling(p, k))
    ensures Sane(p) ==> Total(sleeps) <= Ladder(p, |sleeps|)
  {
    var last: Option<Fault> := None;
    sleeps, made := [], 0;
    while made < p.attempts
      invariant 0 <= made && (made <= p.attempts || made == 0)
      invariant forall k :: 1 <= k <= made ==> !Settles(tries(k), swallow)
      invariant last == if made == 0 then None else Some(tries(made).fault)
      invariant |sleeps| == if made == 0 then 0 else if made == p.attempts then made - 1 else made
      invariant forall k :: 1 <= k <= |sleeps| ==> sleeps[k - 1] == Uniform(draws(k), Ceiling(p, k))
      invariant Sane(p) ==> Total(sleeps) <= Ladder(p, |sleeps|)
    {
      made := made + 1;
      var t := tries(made);
      if Settles(t, swallow) {
        return Settled(t, swallow), made, sleeps;
      }
      last := Some(t.fault);
      if made < p.attempts {
        var delay := Uniform(draws(made), Ceiling(p, made));
        if Sane(p) { CeilingNonNegative(p, made); }
        TotalSnoc(sleeps, delay);
        sleeps := sleeps + [delay];
      }
    }
    answer := Exhausted(last);
  }

  /** Waiting for the dependencies: the first round in which all answer ends it,
      and every wait has its exact length. */
  method WaitForDependencies(p: RetryPolicy, ready: nat -> bool) returns (ok: bool, rounds: nat, waits: seq<real>)
    ensures ok <==> exists k :: 1 <= k <= p.attempts && ready(k)
    ensures forall k :: 1 <= k < rounds ==> !ready(k)
    ensures ok ==> 1 <= rounds <= p.attempts && ready(rounds)
    ensures !ok ==> rounds == if p.attempts > 0 then p.attempts else 0
    ensures |waits| == if rounds == 0 then 0 else rounds - 1
    ensures forall k :: 1 <= k < rounds ==> waits[k - 1] == Ceiling(p, k)
    ensures Total(waits) == Ladder(p, |waits|)
  {
    ok, rounds, waits := false, 0, [];
    while rounds < p.attempts
      invariant 0 <= rounds && (rounds <= p.attempts || rounds == 0)
      invariant forall k :: 1 <= k <= rounds ==> !ready(k)
      invariant |waits| == if rounds == 0 then 0 else if rounds == p.attempts then rounds - 1 else rounds
      invariant forall k :: 1 <= k <= |waits| ==> waits[k - 1] == Ceiling(p, k)
      invariant Total(waits) == Ladder(p, |waits|)
    {
      rounds := rounds + 1;
      if ready(rounds) { return true, rounds, waits; }
      if rounds < p.attempts {
        TotalSnoc(waits, Ceiling(p, rounds));
        waits := waits + [Ceiling(p, rounds)];
      }
    }
  }

  /** With the shipped settings a worker that never finds its dependencies waits
      75.5 seconds, and one AWS call sleeps at most 1.4. */
  lemma ShippedLadders()
    ensures Ladder(STARTUP_WAIT, STARTUP_WAIT.attempts - 1) == 75.5
    ensures Ladder(DEFAULT_POLICY, DEFAULT_POLICY.attempts - 1) == 1.4
  {
    assert Doubled(0.5, 4) == 8.0 && Doubled(0.5, 5) == 16.0 && Doubled(0.2, 3) == 1.6;
    LadderIs(STARTUP_WAIT, 5, 9);
    LadderIs(DEFAULT_POLICY, 3, 3);
  }
}
