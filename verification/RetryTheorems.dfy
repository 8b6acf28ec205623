/** What a retry trace says about the call that produced it. */
module RetryTheorems {
  import opened JobTypes
  import opened ErrorChains
  import opened Backoff
  import opened Retrier

  /**
   A valid configuration has positive times, grows its waits, and fits one interval per retry, and at least one interval,
   into the timeout. Every refusal is an invalid-retrier error.
   */
  lemma ValidIff(c: Config)
    ensures Validate(c).None? <==>
      c.maxRetries >= 0 && c.jitter > 0 && c.factor > 1.0 && 0 < c.interval * Max(c.maxRetries, 1) < c.timeout
    ensures Validate(c).Some? ==> Is(Validate(c).value, ERR_INVALID_RETRIER)
  {
    if c.maxRetries > 0 && c.interval > 0 {
      assert c.interval <= c.interval * c.maxRetries;
    }
  }

  /** How many attempts of this call failed: all of them, or all but a final success or interruption. */
  function FailureCount(p: Policy, o: Oracle): nat
    requires p.config.maxRetries >= 0
  {
    var n := FinalAttempt(p, o, 0);
    if Fails(o, n) then n + 1 else n
  }

  /** Every allowed attempt failed retryably, and every wait between them ran out. */
  ghost predicate Exhausted(p: Policy, o: Oracle) {
    && (forall k :: 0 <= k <= p.config.maxRetries ==> FailsRetryably(p, o, k))
    && (forall k :: 0 <= k < p.config.maxRetries ==> o.waits(k).Elapsed?)
  }

  /**
   At most MaxRetries + 1 calls; Attempts starts with this call's failures in order and has at most one more entry;
   OnRetry sees 0, 1, 2, ... with the failures; every notification is followed by one scheduled wait; Last is nil
   exactly when the final call succeeded.
   */
  lemma RetryTraceExact(p: Policy, o: Oracle)
    requires Validate(p.config).None?
    ensures var t := Expected(p, o);
            var f := FailureCount(p, o);
            && 1 <= t.calls <= p.config.maxRetries + 1
            && t.calls - 1 <= f <= t.calls
            && f <= |t.attempts| <= f + 1
            && (forall k :: 0 <= k < f ==> Fails(o, k) && t.attempts[k] == Failure(o, k))
            && t.calls - 1 <= |t.hooks| <= t.calls
            && (forall k :: 0 <= k < |t.hooks| ==> Fails(o, k) && t.hooks[k] == (k, Failure(o, k)))
            && |t.delays| == |t.hooks|
            && (t.last.None? <==> o.attempts(t.calls - 1) == Returned(None))
  {
  }

  /** The retryable failure of attempt `n` was followed by a wait that was cut short. */
  predicate CutAfter(p: Policy, o: Oracle, n: nat) {
    FailsRetryably(p, o, n) && n < p.config.maxRetries && o.waits(n).Cut?
  }

  /**
   The final attempt is the first one that is not a retryable failure with budget left and its wait run out. If it failed,
   Last is its failure, whatever failed before it, unless the wait after it was cut short; OnRetry and the wait come after
   every attempt but the final one, and after that exactly if its wait was cut short.
   */
  lemma FinalAttemptDecides(p: Policy, o: Oracle)
    requires Validate(p.config).None?
    ensures var t := Expected(p, o);
            var n := t.calls - 1;
            && 0 <= n <= p.config.maxRetries
            && (forall k :: 0 <= k < n ==> FailsRetryably(p, o, k) && o.waits(k).Elapsed?)
            && !(FailsRetryably(p, o, n) && n < p.config.maxRetries && o.waits(n).Elapsed?)
            && (Fails(o, n) && !CutAfter(p, o, n) ==> t.last == Some(Failure(o, n)))
            && |t.hooks| == |t.delays| == (if CutAfter(p, o, n) then t.calls else t.calls - 1)
  {
    var n := FinalAttempt(p, o, 0);
    forall k | 0 <= k < n
      ensures FailsRetryably(p, o, k) && o.waits(k).Elapsed?
    {
      assert Continues(p, o, k);
    }
  }

  /** Each scheduled wait is the interval times the factor's power, truncated, plus the jitter drawn for it. */
  lemma ScheduledWaitIs(p: Policy, o: Oracle, k: nat)
    requires Validate(p.config).None? && k < |Expected(p, o).delays|
    ensures var base := (Expected(p, o).delays[k] - o.draws(k)) as real;
            base <= p.config.interval as real * Pow(p.config.factor, k) < base + 1.0
  {
    FinalAttemptDecides(p, o);
    DelayIs(p.config.interval, p.config.factor, o.draws, |Expected(p, o).delays|, k);
  }

  lemma {:induction false} DelayIs(interval: int, f: real, draws: nat -> int, n: nat, k: nat)
    requires k < n
    ensures |Delays(interval, f, draws, n)| == n
    ensures var base := (Delays(interval, f, draws, n)[k] - draws(k)) as real;
            base <= interval as real * Pow(f, k) < base + 1.0
  {
    if k < n - 1 {
      DelayIs(interval, f, draws, n - 1, k);
    }
  }

  /**
   An explicit list decides alone, and the registry without one decides alone; with neither every failure is retried.
   */
  lemma ListDecidesAlone(config: Config, temporary: seq<Err>, registered: seq<Err>, err: Err)
    ensures ShouldRetry(Policy(config, temporary, registered), err) <==>
      if temporary != [] then exists i :: 0 <= i < |temporary| && temporary[i] in Chain(err)
      else registered == [] || exists i :: 0 <= i < |registered| && registered[i] in Chain(err)
  {
    forall e: Err {
      IsIffInChain(err, e);
    }
  }

  lemma ExhaustedRunsAll(p: Policy, o: Oracle)
    requires p.config.maxRetries >= 0 && Exhausted(p, o)
    ensures FinalAttempt(p, o, 0) == p.config.maxRetries
    ensures FailsRetryably(p, o, p.config.maxRetries)
  {
    var n := FinalAttempt(p, o, 0);
    assert FailsRetryably(p, o, n);
  }

  /** The extra entry is there exactly when every allowed attempt failed retryably, and it wraps the last failure. */
  lemma WrapperIffExhausted(p: Policy, o: Oracle)
    requires Validate(p.config).None?
    ensures |Expected(p, o).attempts| == FailureCount(p, o) + 1 <==> Exhausted(p, o)
    ensures Exhausted(p, o) ==>
      && Expected(p, o).calls == p.config.maxRetries + 1
      && Expected(p, o).attempts[p.config.maxRetries + 1] ==
         Wrapped(MaxRetriesReached, Failure(o, p.config.maxRetries))
      && Expected(p, o).last == Some(Failure(o, p.config.maxRetries))
  {
    if Exhausted(p, o) {
      ExhaustedRunsAll(p, o);
    }
    var n := FinalAttempt(p, o, 0);
    if |Expected(p, o).attempts| == FailureCount(p, o) + 1 {
      assert n == p.config.maxRetries && FailsRetryably(p, o, n);
      forall k | 0 <= k < n
        ensures FailsRetryably(p, o, k) && o.waits(k).Elapsed?
      {
        assert Continues(p, o, k);
      }
    }
  }

  /** The two oracles agree on everything the first call gets to see. */
  ghost predicate AgreeUpTo(p: Policy, o: Oracle, o': Oracle)
    requires p.config.maxRetries >= 0
  {
    && (forall k: nat :: k <= FinalAttempt(p, o, 0) ==>
         o'.attempts(k) == o.attempts(k) && o'.waits(k) == o.waits(k) && o'.draws(k) == o.draws(k))
  }

  /**
   For the same call results and wait outcomes, and no attempt interrupted, `Do` and `DoWithContext` leave the same
   trace: both produce `Expected`, which looks no further than the final attempt.
   */
  lemma LoopsAgree(p: Policy, o: Oracle, o': Oracle)
    requires Validate(p.config).None? && AgreeUpTo(p, o, o')
    ensures Expected(p, o') == Expected(p, o)
  {
    var n := FinalAttempt(p, o, 0);
    SameFinal(p, o, o');
    SamePrefix(p, o, o', n);
    if Fails(o, n) {
      SamePrefix(p, o, o', n + 1);
    }
  }

  lemma SameFinal(p: Policy, o: Oracle, o': Oracle)
    requires p.config.maxRetries >= 0 && AgreeUpTo(p, o, o')
    ensures FinalAttempt(p, o', 0) == FinalAttempt(p, o, 0)
  {
    var n := FinalAttempt(p, o, 0);
    forall k | 0 <= k <= n
      ensures Fails(o', k) == Fails(o, k) && Continues(p, o', k) == Continues(p, o, k)
    {
      assert o'.attempts(k) == o.attempts(k);
    }
    FinalIs(p, o', n);
  }

  lemma SamePrefix(p: Policy, o: Oracle, o': Oracle, m: nat)
    requires p.config.maxRetries >= 0 && AgreeUpTo(p, o, o') && m <= FinalAttempt(p, o, 0) + 1 && AllFail(o, m)
    ensures AllFail(o', m)
    ensures Failures(o', m) == Failures(o, m) && Hooks(o', m) == Hooks(o, m) && Waits(p, o', m) == Waits(p, o, m)
  {
    forall k | 0 <= k < m
      ensures Fails(o', k) && Failure(o', k) == Failure(o, k) && o'.draws(k) == o.draws(k)
    {
      assert Fails(o, k);
      assert o'.attempts(k) == o.attempts(k);
    }
  }

  /**
   An interruption during attempt k leaves the k failures before it, and Last wraps the interrupting cause; a cause that is a
   timeout itself is reported as the timeout of that attempt.
   */
  lemma InterruptionKeepsPrefix(p: Policy, o: Oracle, k: nat)
    requires Validate(p.config).None? && ReachesAttempt(p, o, k) && o.attempts(k).Interrupted?
    ensures Expected(p, o) ==
      Trace(Failures(o, k), Some(InterruptError(o.attempts(k).why, k)), k + 1, Hooks(o, k), Waits(p, o, k))
    ensures var timedOut := Wrapped(TimedOutAt(k), ERR_TIMEOUT_REACHED);
            Expected(p, o).last == Some(match o.attempts(k).why
              case TimedOut => timedOut
              case CallerDone(cause) => if ERR_TIMEOUT_REACHED in Chain(cause) then timedOut else Wrapped(ContextDone, cause)
              case RetrierDone(cause) =>
                if ERR_TIMEOUT_REACHED in Chain(cause) then timedOut else Wrapped(RetrierContextDone, cause))
  {
    FinalIs(p, o, k);
    forall e: Err {
      IsIffInChain(e, ERR_TIMEOUT_REACHED);
    }
  }

  /** A wait cut short after attempt k leaves k + 1 failures, and Last wraps the interrupting cause. */
  lemma CutWaitKeepsPrefix(p: Policy, o: Oracle, k: nat)
    requires Validate(p.config).None? && ReachesAttempt(p, o, k)
    requires FailsRetryably(p, o, k) && k < p.config.maxRetries && o.waits(k).Cut?
    ensures AllFail(o, k + 1)
    ensures Expected(p, o) ==
      Trace(Failures(o, k + 1), WaitError(o.waits(k), k, Failure(o, k)), k + 1, Hooks(o, k + 1), Waits(p, o, k + 1))
    ensures Expected(p, o).last == Some(match o.waits(k).why
              case TimedOut => Wrapped(TimedOutAfter(k, Failure(o, k)), ERR_TIMEOUT_REACHED)
              case CallerDone(cause) => Wrapped(ContextDone, cause)
              case RetrierDone(cause) => Wrapped(RetrierContextDone, cause))
  {
    FinalIs(p, o, k);
  }

  /** The waits a valid retrier schedules in one call obey the geometric bound. */
  lemma ScheduledWaitsBound(p: Policy, o: Oracle)
    requires Validate(p.config).None? && DrawsBelow(o.draws, p.config.jitter)
    requires |Expected(p, o).delays| >= 1
    ensures var c := p.config;
            var k := |Expected(p, o).delays|;
            var total := Sum(Expected(p, o).delays);
            && ClosedSum(c.interval, Pow(c.factor, k), c.factor) - k as real < total as real
            && total as real < ClosedSum(c.interval, Pow(c.factor, k), c.factor) + (k * c.jitter) as real
            && total >= k * c.interval
  {
    var c := p.config;
    var k := |Expected(p, o).delays|;
    RetryTraceExact(p, o);
    assert Expected(p, o).delays == Delays(c.interval, c.factor, o.draws, k);
    BackoffSumBound(c.interval, c.factor, o.draws, c.jitter, k);
  }

  /** A valid configuration can schedule more than its timeout: three retries of 2ns, doubled each time, within 10ns. */
  lemma ValidMayNotFit()
    ensures var c := Config(3, 1, 2.0, 2, 10);
            Validate(c).None? && !AlwaysFits(c.interval, c.factor, c.jitter, c.maxRetries, c.timeout)
  {
    assert Pow(2.0, 0) == 1.0 && Pow(2.0, 1) == 2.0 && Pow(2.0, 2) == 4.0;
    assert TotalBase(2, 2.0, 3) == 14;
    AlwaysFitsIff(2, 2.0, 1, 3, 10);
  }

  // ---- The two loops side by side ----

  ghost predicate NothingInterrupts(o: Oracle) {
    forall k :: o.attempts(k).Returned?
  }

  /**
   Runs the same call through both loops, each with its own pooled object and its own oracle, where the oracles agree on
   everything the first loop gets to see.
   */
  method RunBoth(r: Retrier, o: Oracle, o': Oracle, temporary: seq<Err>, pooled: Errors?, pooled': Errors?)
    returns (plain: Trace, withContext: Trace)
    requires Validate(r.config).None? && NothingInterrupts(o)
    requires AgreeUpTo(Policy(r.config, temporary, r.registry.storage), o, o')
    modifies pooled, pooled'
    ensures plain == withContext == Expected(Policy(r.config, temporary, r.registry.storage), o)
  {
    ghost var p := Policy(r.config, temporary, r.registry.storage);
    var errs, calls, hooks, delays := r.Do(o, false, temporary, pooled);
    plain := Trace(errs.attempts, errs.last, calls, hooks, delays);
    errs, calls, hooks, delays := r.DoWithContext(o', false, temporary, pooled');
    withContext := Trace(errs.attempts, errs.last, calls, hooks, delays);
    LoopsAgree(p, o, o');
  }
}
