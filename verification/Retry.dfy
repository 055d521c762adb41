/**
 The retry loops: TransactionService's loop and the Retry decorator, which count attempts at
 different places and wait by different formulas. They make the same attempts, return the same
 result and, as long as the cap does not bite, wait the same time.
 */
module Retry {
  import opened ErrorHandler

  /** The outcome of one attempt, the n-th attempt being number n counted from 0. */
  datatype Attempt = Succeeds(value: int) | Fails(error: RawError)

  datatype Result<E> = Returned(value: int) | Threw(error: E) | AfterLoop

  function Pow2(n: nat): nat {
    if n == 0 then 1 else 2 * Pow2(n - 1)
  }

  /** k is the last attempt: it succeeds, or may not be followed by another, and every earlier one failed and may. */
  ghost predicate LastAttempt(env: nat -> Attempt, again: (RawError, nat) -> bool, maxRetries: int, k: nat) {
    && k <= maxRetries
    && (env(k).Succeeds? || k == maxRetries || !again(env(k).error, k + 1))
    && forall i: nat :: i < k ==> env(i).Fails? && again(env(i).error, i + 1)
  }

  /** The delays before the attempts 1, ..., n. */
  function Delays(delay: nat -> nat, n: nat): seq<nat> {
    if n == 0 then [] else Delays(delay, n - 1) + [delay(n)]
  }

  function Total(delays: seq<nat>): nat {
    if delays == [] then 0 else Total(delays[..|delays| - 1]) + delays[|delays| - 1]
  }

  /** The service's wait after the n-th attempt. */
  function BackoffAfter(retryDelay: nat, n: nat): nat {
    if n == 0 then retryDelay else retryDelay * Pow2(n - 1)
  }

  function Backoff(retryDelay: nat): nat -> nat {
    (n: nat) => BackoffAfter(retryDelay, n)
  }

  datatype RetryOptions = RetryOptions(
    maxRetries: int,
    retryDelay: nat,
    exponentialBackoff: bool,
    maxDelay: nat,
    excluded: RawError -> bool,
    shouldRetry: (RawError, nat) -> bool)

  /** The decorator's wait after the n-th attempt. */
  function CappedAfter(opts: RetryOptions, n: nat): nat {
    if !opts.exponentialBackoff then opts.retryDelay
    else if BackoffAfter(opts.retryDelay, n) <= opts.maxDelay then BackoffAfter(opts.retryDelay, n)
    else opts.maxDelay
  }

  function CappedBackoff(opts: RetryOptions): nat -> nat {
    (n: nat) => CappedAfter(opts, n)
  }

  function ServiceAgain(): (RawError, nat) -> bool {
    (e: RawError, n: nat) => IsRetryable(Classify(e))
  }

  function DecoratorAgain(opts: RetryOptions): (RawError, nat) -> bool {
    (e: RawError, n: nat) => !opts.excluded(e) && opts.shouldRetry(e, n)
  }

  /** The decorator goes on iff the error is not excluded and the test wants it. */
  lemma DecoratorDecides(opts: RetryOptions, e: RawError, n: nat)
    ensures opts.excluded(e) ==> !DecoratorAgain(opts)(e, n)
    ensures !opts.excluded(e) ==> DecoratorAgain(opts)(e, n) == opts.shouldRetry(e, n)
  {
  }

  /** A run of a loop: attempts up to the last one, whose outcome is the result, with the given wait after each
      earlier one. A negative retry limit makes no attempt at all. */
  ghost predicate Obeys<E>(env: nat -> Attempt, again: (RawError, nat) -> bool, maxRetries: int, delay: nat -> nat,
                           wrap: RawError -> E, r: Result<E>, attempts: nat, waits: seq<nat>)
  {
    if maxRetries < 0 then r == AfterLoop && attempts == 0 && waits == []
    else
      && attempts > 0 && LastAttempt(env, again, maxRetries, attempts - 1)
      && r == (match env(attempts - 1) case Succeeds(v) => Returned(v) case Fails(e) => Threw(wrap(e)))
      && waits == Delays(delay, attempts - 1)
  }

  /** After an error that is worth it, and with attempts left, there is another attempt, and after any other error there
      never is; the result is that of the last attempt. */
  ghost predicate RetriesWhatIsWorthIt(env: nat -> Attempt, maxRetries: int, r: Result<BlockchainError>, attempts: nat)
  {
    && (forall i: nat :: i + 1 < attempts ==> env(i).Fails? && WorthRetrying(env(i).error))
    && (maxRetries >= 0 ==> attempts > 0)
    && (attempts > 0 ==>
          var last := env(attempts - 1);
          && (r.Returned? <==> last.Succeeds?) && (r.Threw? <==> last.Fails?)
          && (last.Succeeds? ==> r.value == last.value)
          && (last.Fails? ==> attempts == maxRetries + 1 || !WorthRetrying(last.error)))
  }

  lemma ServiceRetries(env: nat -> Attempt, maxRetries: int, retryDelay: nat, r: Result<BlockchainError>, attempts: nat,
                       waits: seq<nat>)
    requires Obeys(env, ServiceAgain(), maxRetries, Backoff(retryDelay), Classify, r, attempts, waits)
    ensures RetriesWhatIsWorthIt(env, maxRetries, r, attempts)
  {
    if attempts > 0 {
      forall i: nat | i < attempts && env(i).Fails?
        ensures ServiceAgain()(env(i).error, i + 1) <==> WorthRetrying(env(i).error)
      {
        RetryableIff(env(i).error);
      }
    }
  }

  lemma {:induction false} WaitsDouble(retryDelay: nat, n: nat)
    ensures |Delays(Backoff(retryDelay), n)| == n
    ensures forall i: nat :: i < n ==> Delays(Backoff(retryDelay), n)[i] == retryDelay * Pow2(i)
  {
    if n > 0 { WaitsDouble(retryDelay, n - 1); }
  }

  /** `executeCall`: attempts are counted before they are made. */
  method ExecuteCall(env: nat -> Attempt, maxRetries: int, retryDelay: nat)
    returns (r: Result<BlockchainError>, attempts: nat, waits: seq<nat>)
    ensures Obeys(env, ServiceAgain(), maxRetries, Backoff(retryDelay), Classify, r, attempts, waits)
    ensures attempts <= if maxRetries < 0 then 0 else maxRetries + 1
    ensures r.AfterLoop? <==> maxRetries < 0
    ensures RetriesWhatIsWorthIt(env, maxRetries, r, attempts)
  {
    attempts, waits := 0, [];
    while attempts <= maxRetries
      invariant maxRetries >= 0 ==> attempts <= maxRetries
      invariant maxRetries < 0 ==> attempts == 0
      invariant forall i: nat :: i < attempts ==> env(i).Fails? && ServiceAgain()(env(i).error, i + 1)
      invariant waits == Delays(Backoff(retryDelay), attempts)
      decreases maxRetries - attempts
    {
      attempts := attempts + 1;
      match env(attempts - 1) {
        case Succeeds(value) =>
          r := Returned(value);
          ServiceRetries(env, maxRetries, retryDelay, r, attempts, waits);
          return;
        case Fails(error) =>
          var blockchainError := HandleBlockchainError(error);
          var shouldRetry := attempts <= maxRetries && IsRetryable(blockchainError);
          if shouldRetry {
            var delay := retryDelay * Pow2(attempts - 1);
            waits := waits + [delay];
          } else {
            r := Threw(blockchainError);
            ServiceRetries(env, maxRetries, retryDelay, r, attempts, waits);
            return;
          }
      }
    }
    r := AfterLoop;
  }

  /** `executeTransaction` around the same loop: a failed simulation, unless it is skipped, ends it before any
      attempt. */
  method ExecuteTransaction(env: nat -> Attempt, simulation: Attempt, skipSimulation: bool, maxRetries: int,
                            retryDelay: nat)
    returns (r: Result<BlockchainError>, attempts: nat, waits: seq<nat>)
    ensures !skipSimulation && simulation.Fails? ==>
      r == Threw(Classify(simulation.error)) && attempts == 0 && waits == []
    ensures skipSimulation || simulation.Succeeds? ==>
              Obeys(env, ServiceAgain(), maxRetries, Backoff(retryDelay), Classify, r, attempts, waits)
              && RetriesWhatIsWorthIt(env, maxRetries, r, attempts)
  {
    if !skipSimulation && simulation.Fails? {
      var blockchainError := HandleBlockchainError(simulation.error);
      return Threw(blockchainError), 0, [];
    }
    r, attempts, waits := ExecuteCall(env, maxRetries, retryDelay);
  }

  /** The Retry decorator: attempts are counted after they failed. */
  method RetryDecorated(env: nat -> Attempt, opts: RetryOptions)
    returns (r: Result<RawError>, attempts: nat, waits: seq<nat>)
    ensures Obeys(env, DecoratorAgain(opts), opts.maxRetries, CappedBackoff(opts), e => e, r, attempts, waits)
    ensures attempts <= if opts.maxRetries < 0 then 0 else opts.maxRetries + 1
    ensures r.AfterLoop? <==> opts.maxRetries < 0
    ensures forall i: nat :: i + 1 < attempts ==>
      env(i).Fails? && !opts.excluded(env(i).error) && opts.shouldRetry(env(i).error, i + 1)
    ensures r.Returned? ==> attempts > 0 && env(attempts - 1) == Succeeds(r.value)
    ensures r.Threw? ==>
      && attempts > 0 && env(attempts - 1) == Fails(r.error)
      && (attempts == opts.maxRetries + 1 || opts.excluded(r.error) || !opts.shouldRetry(r.error, attempts))
  {
    var attempt := 0;
    waits := [];
    while attempt <= opts.maxRetries
      invariant opts.maxRetries >= 0 ==> attempt <= opts.maxRetries
      invariant opts.maxRetries < 0 ==> attempt == 0
      invariant forall i: nat :: i < attempt ==> env(i).Fails? && DecoratorAgain(opts)(env(i).error, i + 1)
      invariant waits == Delays(CappedBackoff(opts), attempt)
      decreases opts.maxRetries - attempt
    {
      match env(attempt) {
        case Succeeds(value) => return Returned(value), attempt + 1, waits;
        case Fails(error) =>
          attempt := attempt + 1;
          if attempt > opts.maxRetries {
            return Threw(error), attempt, waits;
          }
          if opts.excluded(error) || !opts.shouldRetry(error, attempt) {
            return Threw(error), attempt, waits;
          }
          var delay := opts.retryDelay;
          if opts.exponentialBackoff {
            delay := opts.retryDelay * Pow2(attempt - 1);
            if delay > opts.maxDelay { delay := opts.maxDelay; }
          }
          waits := waits + [delay];
      }
    }
    r, attempts := AfterLoop, 0;
  }

  // -------------------------------------------------------- what the loops share

  lemma LastAttemptIsUnique(env: nat -> Attempt, again: (RawError, nat) -> bool, other: (RawError, nat) -> bool,
                            maxRetries: int, j: nat, k: nat)
    requires LastAttempt(env, again, maxRetries, j) && LastAttempt(env, other, maxRetries, k)
    requires forall e: RawError, n: nat :: again(e, n) == other(e, n)
    ensures j == k
  {
  }

  lemma {:induction false} DelaysAgreeIff(f: nat -> nat, g: nat -> nat, n: nat)
    ensures Delays(f, n) == Delays(g, n) <==> forall i: nat :: 1 <= i <= n ==> f(i) == g(i)
  {
    if n > 0 {
      DelaysAgreeIff(f, g, n - 1);
      DelaysLength(f, n - 1);
      DelaysLength(g, n - 1);
      assert Delays(f, n)[..n - 1] == Delays(f, n - 1) && Delays(f, n)[n - 1] == f(n);
      assert Delays(g, n)[..n - 1] == Delays(g, n - 1) && Delays(g, n)[n - 1] == g(n);
    }
  }

  lemma {:induction false} DelaysLength(f: nat -> nat, n: nat)
    ensures |Delays(f, n)| == n
  {
    if n > 0 { DelaysLength(f, n - 1); }
  }

  /** For every sequence of outcomes, the service and an exponential decorator that retries exactly what is retryable
      make the same attempts and come to the same end, the service reporting the classified error. They also wait
      the same exactly if no wait of the service exceeds the decorator's cap. */
  lemma LoopsAgree(env: nat -> Attempt, opts: RetryOptions,
                   r: Result<BlockchainError>, n: nat, waits: seq<nat>,
                   r': Result<RawError>, n': nat, waits': seq<nat>)
    requires Obeys(env, ServiceAgain(), opts.maxRetries, Backoff(opts.retryDelay), Classify, r, n, waits)
    requires Obeys(env, DecoratorAgain(opts), opts.maxRetries, CappedBackoff(opts), e => e, r', n', waits')
    requires opts.exponentialBackoff
    requires forall e: RawError :: !opts.excluded(e)
    requires forall e: RawError, k: nat :: opts.shouldRetry(e, k) == IsRetryable(Classify(e))
    ensures n == n'
    ensures r == match r'
                 case Returned(v) => Returned(v)
                 case Threw(e) => Threw(Classify(e))
                 case AfterLoop => AfterLoop
    ensures waits == waits' <==> forall i: nat :: 1 <= i < n ==> BackoffAfter(opts.retryDelay, i) <= opts.maxDelay
  {
    if opts.maxRetries >= 0 {
      forall e: RawError, k: nat ensures ServiceAgain()(e, k) == DecoratorAgain(opts)(e, k) {
        assert !opts.excluded(e);
        assert opts.shouldRetry(e, k) == IsRetryable(Classify(e));
      }
      LastAttemptIsUnique(env, ServiceAgain(), DecoratorAgain(opts), opts.maxRetries, n - 1, n' - 1);
      DelaysAgreeIff(Backoff(opts.retryDelay), CappedBackoff(opts), n - 1);
      forall i: nat | 1 <= i < n
        ensures Backoff(opts.retryDelay)(i) == CappedBackoff(opts)(i) <==>
          BackoffAfter(opts.retryDelay, i) <= opts.maxDelay
      {
      }
    }
  }

  lemma PowerStep(d: nat, p: nat)
    requires p > 0
    ensures d * (p - 1) + d * p == d * (2 * p - 1)
  {
  }

  lemma {:induction false} Pow2Positive(n: nat)
    ensures Pow2(n) > 0
  {
    if n > 0 { Pow2Positive(n - 1); }
  }

  /** After n failed attempts the service has waited the first delay times 2^n - 1. */
  lemma {:induction false} TotalBackoff(retryDelay: nat, n: nat)
    ensures Total(Delays(Backoff(retryDelay), n)) == retryDelay * (Pow2(n) - 1)
  {
    if n > 0 {
      TotalBackoff(retryDelay, n - 1);
      var before := Delays(Backoff(retryDelay), n - 1);
      assert Delays(Backoff(retryDelay), n) == before + [Backoff(retryDelay)(n)];
      assert Delays(Backoff(retryDelay), n)[..|before|] == before;
      Pow2Positive(n - 1);
      PowerStep(retryDelay, Pow2(n - 1));
    }
  }

  /** With exponential backoff n waits of the decorator never take more than n times the cap, nor more than the
      uncapped waits; without it they take exactly n times the delay. */
  lemma {:induction false} TotalCapped(opts: RetryOptions, n: nat)
    ensures var total := Total(Delays(CappedBackoff(opts), n));
      if opts.exponentialBackoff then
        total <= n * opts.maxDelay && total <= Total(Delays(Backoff(opts.retryDelay), n))
      else total == n * opts.retryDelay
  {
    if n > 0 {
      TotalCapped(opts, n - 1);
      var before, plain := Delays(CappedBackoff(opts), n - 1), Delays(Backoff(opts.retryDelay), n - 1);
      assert Delays(CappedBackoff(opts), n)[..|before|] == before;
      assert Delays(Backoff(opts.retryDelay), n)[..|plain|] == plain;
      assert (n - 1) * opts.maxDelay + opts.maxDelay == n * opts.maxDelay;
      assert (n - 1) * opts.retryDelay + opts.retryDelay == n * opts.retryDelay;
    }
  }

  lemma {:induction false} PowersGrow(j: nat, k: nat)
    requires j <= k
    ensures Pow2(j) <= Pow2(k)
  {
    if j < k { PowersGrow(j, k - 1); }
  }

  lemma TotalStep(delay: nat -> nat, n: nat)
    ensures Total(Delays(delay, n + 1)) == Total(Delays(delay, n)) + delay(n + 1)
  {
    var before := Delays(delay, n);
    assert Delays(delay, n + 1) == before + [delay(n + 1)];
    assert (before + [delay(n + 1)])[..|before|] == before;
  }

  lemma OneTimeMore(n: nat, x: nat)
    ensures n * x + x == (n + 1) * x
  {
  }

  lemma BackoffGrows(retryDelay: nat, i: nat, k: nat)
    requires 1 <= i <= k
    ensures BackoffAfter(retryDelay, i) <= BackoffAfter(retryDelay, k)
  {
    PowersGrow(i - 1, k - 1);
    Grows(retryDelay, Pow2(i - 1), Pow2(k - 1));
  }

  lemma Grows(x: nat, y: nat, z: nat)
    requires y <= z
    ensures x * y <= x * z
  {
  }

  /** The sum of n equal waits. */
  function Times(n: nat, x: nat): nat {
    if n == 0 then 0 else Times(n - 1, x) + x
  }

  lemma {:induction false} TimesIsProduct(n: nat, x: nat)
    ensures Times(n, x) == n * x
  {
    if n > 0 {
      TimesIsProduct(n - 1, x);
      OneTimeMore(n - 1, x);
    }
  }

  predicate IsAt(delay: nat -> nat, i: nat, x: nat) {
    delay(i) == x
  }

  /** A delay that is the same from some wait on. */
  lemma {:induction false} ConstantTail(delay: nat -> nat, k: nat, more: nat, x: nat)
    requires forall i: nat :: k < i <= k + more ==> IsAt(delay, i, x)
    ensures Total(Delays(delay, k + more)) == Total(Delays(delay, k)) + Times(more, x)
    decreases more
  {
    if more > 0 {
      ConstantTail(delay, k, more - 1, x);
      TotalStep(delay, k + (more - 1));
      assert IsAt(delay, k + more, x);
    }
  }

  /** Once a wait exceeds the cap every later one takes exactly the cap. */
  lemma StaysCapped(opts: RetryOptions, k: nat, i: nat)
    requires opts.exponentialBackoff && k < i && BackoffAfter(opts.retryDelay, k + 1) > opts.maxDelay
    ensures IsAt(CappedBackoff(opts), i, opts.maxDelay)
  {
    BackoffGrows(opts.retryDelay, k + 1, i);
  }

  /** Before that every wait is the service's. */
  lemma NotYetCapped(opts: RetryOptions, k: nat, i: nat)
    requires opts.exponentialBackoff && 1 <= i <= k && BackoffAfter(opts.retryDelay, k) <= opts.maxDelay
    ensures CappedBackoff(opts)(i) == Backoff(opts.retryDelay)(i)
  {
    BackoffGrows(opts.retryDelay, i, k);
  }

  lemma CappedHead(opts: RetryOptions, k: nat)
    requires opts.exponentialBackoff && (k > 0 ==> BackoffAfter(opts.retryDelay, k) <= opts.maxDelay)
    ensures Total(Delays(CappedBackoff(opts), k)) == opts.retryDelay * (Pow2(k) - 1)
  {
    forall i: nat | 1 <= i <= k ensures CappedBackoff(opts)(i) == Backoff(opts.retryDelay)(i) {
      NotYetCapped(opts, k, i);
    }
    DelaysAgreeIff(CappedBackoff(opts), Backoff(opts.retryDelay), k);
    TotalBackoff(opts.retryDelay, k);
  }

  lemma CappedTail(opts: RetryOptions, k: nat, more: nat)
    requires opts.exponentialBackoff && (more > 0 ==> BackoffAfter(opts.retryDelay, k + 1) > opts.maxDelay)
    ensures Total(Delays(CappedBackoff(opts), k + more))
         == Total(Delays(CappedBackoff(opts), k)) + Times(more, opts.maxDelay)
  {
    forall i: nat | k < i <= k + more ensures IsAt(CappedBackoff(opts), i, opts.maxDelay) { StaysCapped(opts, k, i); }
    ConstantTail(CappedBackoff(opts), k, more, opts.maxDelay);
  }

  /** The exact total of capped waits: k of them double from the first delay on, and from the first one that would
      exceed the cap on each takes exactly the cap. */
  lemma TotalCappedExactly(opts: RetryOptions, k: nat, more: nat)
    requires opts.exponentialBackoff
    requires k > 0 ==> BackoffAfter(opts.retryDelay, k) <= opts.maxDelay
    requires more > 0 ==> BackoffAfter(opts.retryDelay, k + 1) > opts.maxDelay
    ensures Total(Delays(CappedBackoff(opts), k + more)) == opts.retryDelay * (Pow2(k) - 1) + more * opts.maxDelay
  {
    CappedHead(opts, k);
    CappedTail(opts, k, more);
    TimesIsProduct(more, opts.maxDelay);
  }
}
