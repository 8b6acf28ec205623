/**
 The two retry loops, `Do` and `DoWithContext`, run against an oracle that decides what each call returns and how each
 wait ends. Both are proved against closed forms built from the first attempt that ends the loop.
 */
module Retrier {
  import opened JobTypes
  import opened ErrorChains
  import opened Registry
  import opened Backoff

  // ---- Configuration ----

  datatype Config = Config(maxRetries: int, jitter: int, factor: real, interval: int, timeout: int)

  /** Why a configuration is invalid; the tests are made in this order. The product is taken without overflow. */
  function Validate(c: Config): Option<Err> {
    if c.maxRetries < 0 then Some(Invalid("max retries"))
    else if c.interval <= 0 then Some(Invalid("interval"))
    else if c.jitter <= 0 then Some(Invalid("jitter"))
    else if c.timeout <= 0 then Some(Invalid("timeout"))
    else if c.interval >= c.timeout then Some(Invalid("interval against timeout"))
    else if c.interval * c.maxRetries >= c.timeout then Some(Invalid("total interval"))
    else if c.factor <= 1.0 then Some(Invalid("backoff factor"))
    else None
  }

  function Invalid(field: string): Err {
    Wrapped(InvalidBecause(field), ERR_INVALID_RETRIER)
  }

  // ---- The oracle ----

  /** What can cut a wait or an attempt short. */
  datatype Interruption = CallerDone(cause: Err) | RetrierDone(cause: Err) | TimedOut

  /** How the select that ends a wait comes out. */
  datatype WaitOutcome = Elapsed | Cut(why: Interruption)

  /** How the select on a running attempt comes out. */
  datatype AttemptOutcome = Returned(result: Option<Err>) | Interrupted(why: Interruption)

  /** Everything a call meets from outside: attempt outcomes, wait outcomes, jitter draws. */
  datatype Oracle = Oracle(attempts: nat -> AttemptOutcome, waits: nat -> WaitOutcome, draws: nat -> int)

  /** What decides retryability, and how often. */
  datatype Policy = Policy(config: Config, temporary: seq<Err>, registered: seq<Err>)

  predicate ShouldRetry(p: Policy, err: Err) {
    if |p.temporary| == 0 then |p.registered| == 0 || Matches(err, p.registered)
    else Matches(err, p.temporary)
  }

  /** The error of an interrupted wait. */
  function WaitError(w: WaitOutcome, attempt: nat, err: Err): Option<Err> {
    match w
    case Elapsed => None
    case Cut(CallerDone(cause)) => Some(Wrapped(ContextDone, cause))
    case Cut(RetrierDone(cause)) => Some(Wrapped(RetrierContextDone, cause))
    case Cut(TimedOut) => Some(Wrapped(TimedOutAfter(attempt, err), ERR_TIMEOUT_REACHED))
  }

  /** The error of an interrupted attempt, before and after the loop relabels timeouts. */
  function TerminalError(why: Interruption): Err {
    match why
    case CallerDone(cause) => Wrapped(ContextDone, cause)
    case RetrierDone(cause) => Wrapped(RetrierContextDone, cause)
    case TimedOut => ERR_TIMEOUT_REACHED
  }

  function InterruptError(why: Interruption, attempt: nat): Err {
    var terminal := TerminalError(why);
    if Is(terminal, ERR_TIMEOUT_REACHED) then Wrapped(TimedOutAt(attempt), ERR_TIMEOUT_REACHED) else terminal
  }

  // ---- The closed form ----

  /** What a call leaves behind: the error trace, the calls made, the OnRetry notifications and the scheduled waits. */
  datatype Trace = Trace(attempts: seq<Err>, last: Option<Err>, calls: nat, hooks: seq<(nat, Err)>, delays: seq<int>)

  predicate Fails(o: Oracle, k: nat) {
    o.attempts(k).Returned? && o.attempts(k).result.Some?
  }

  function Failure(o: Oracle, k: nat): Err
    requires Fails(o, k)
  {
    o.attempts(k).result.value
  }

  predicate FailsRetryably(p: Policy, o: Oracle, k: nat) {
    Fails(o, k) && ShouldRetry(p, Failure(o, k))
  }

  /** Attempt `k` is followed by attempt `k + 1`. */
  predicate Continues(p: Policy, o: Oracle, k: nat) {
    FailsRetryably(p, o, k) && k < p.config.maxRetries && o.waits(k).Elapsed?
  }

  /** The first attempt from `k` on that is not followed by another. */
  function FinalAttempt(p: Policy, o: Oracle, k: nat): (n: nat)
    requires k <= p.config.maxRetries
    ensures k <= n <= p.config.maxRetries && !Continues(p, o, n)
    ensures forall j :: k <= j < n ==> Continues(p, o, j)
    ensures forall j :: k <= j < n ==> Fails(o, j)
    decreases p.config.maxRetries - k
  {
    if Continues(p, o, k) then FinalAttempt(p, o, k + 1) else k
  }

  ghost predicate AllFail(o: Oracle, n: nat) {
    forall k :: 0 <= k < n ==> Fails(o, k)
  }

  /** The failures of the first `n` attempts, in order. */
  function Failures(o: Oracle, n: nat): (r: seq<Err>)
    requires AllFail(o, n)
    ensures |r| == n && forall k :: 0 <= k < n ==> r[k] == Failure(o, k)
  {
    seq(n, k requires 0 <= k < n => Failure(o, k))
  }

  function Hooks(o: Oracle, n: nat): (r: seq<(nat, Err)>)
    requires AllFail(o, n)
    ensures |r| == n && forall k :: 0 <= k < n ==> r[k] == (k, Failure(o, k))
  {
    seq(n, k requires 0 <= k < n => (k, Failure(o, k)))
  }

  function Waits(p: Policy, o: Oracle, n: nat): seq<int> {
    Delays(p.config.interval, p.config.factor, o.draws, n)
  }

  /** The outcome, from the final attempt alone. */
  function Expected(p: Policy, o: Oracle): Trace
    requires p.config.maxRetries >= 0
  {
    EndsAt(p, o, FinalAttempt(p, o, 0))
  }

  /** What a call leaves behind whose final attempt is the one numbered `n`. */
  function EndsAt(p: Policy, o: Oracle, n: nat): Trace
    requires AllFail(o, n)
  {
    match o.attempts(n)
    case Interrupted(why) => Trace(Failures(o, n), Some(InterruptError(why, n)), n + 1, Hooks(o, n), Waits(p, o, n))
    case Returned(None) => Trace(Failures(o, n), None, n + 1, Hooks(o, n), Waits(p, o, n))
    case Returned(Some(err)) =>
      if !ShouldRetry(p, err) then
        Trace(Failures(o, n + 1), Some(err), n + 1, Hooks(o, n), Waits(p, o, n))
      else if n == p.config.maxRetries then
        Trace(Failures(o, n + 1) + [Wrapped(MaxRetriesReached, err)], Some(err), n + 1, Hooks(o, n), Waits(p, o, n))
      else
        Trace(Failures(o, n + 1), WaitError(o.waits(n), n, err), n + 1, Hooks(o, n + 1), Waits(p, o, n + 1))
  }

  /** All attempts before `n` were followed by another. */
  ghost predicate ReachesAttempt(p: Policy, o: Oracle, n: nat) {
    n <= p.config.maxRetries && AllFail(o, n) && forall j :: 0 <= j < n ==> Continues(p, o, j)
  }

  lemma FinalIs(p: Policy, o: Oracle, n: nat)
    requires p.config.maxRetries >= 0 && ReachesAttempt(p, o, n) && !Continues(p, o, n)
    ensures FinalAttempt(p, o, 0) == n && Expected(p, o) == EndsAt(p, o, n)
  {
  }

  lemma OneMoreFailure(p: Policy, o: Oracle, n: nat)
    requires AllFail(o, n) && Fails(o, n)
    ensures AllFail(o, n + 1)
    ensures Failures(o, n + 1) == Failures(o, n) + [Failure(o, n)]
    ensures Hooks(o, n + 1) == Hooks(o, n) + [(n, Failure(o, n))]
    ensures Waits(p, o, n + 1) == Waits(p, o, n) + [BaseDelay(p.config.interval, p.config.factor, n) + o.draws(n)]
  {
  }

  // ---- The objects ----

  class Errors {
    var attempts: seq<Err>
    var last: Option<Err>

    constructor ()
      ensures attempts == [] && last == None
    {
      attempts, last := [], None;
    }

    method Reset()
      modifies this
      ensures attempts == [] && last == None
    {
      attempts, last := [], None;
    }
  }

  datatype Outcome = AttemptContinue | AttemptStop | AttemptMaxRetries

  class Retrier {
    const config: Config
    const registry: Registry

    constructor (config: Config, registry: Registry)
      ensures this.config == config && this.registry == registry
    {
      this.config, this.registry := config, registry;
    }

    method CheckRetry(err: Err, temporary: seq<Err>) returns (r: bool)
      ensures r == ShouldRetry(Policy(config, temporary, registry.storage), err)
    {
      if |temporary| == 0 {
        if |registry.storage| == 0 {
          return true;
        }
        r := registry.IsTemporaryError(err, [], true);
      } else {
        r := registry.IsTemporaryError(err, temporary, false);
      }
    }

    /** An Errors object from the pool, cleared, or a new one. */
    method TakeErrors(pooled: Errors?) returns (errs: Errors)
      modifies pooled
      ensures errs.attempts == [] && errs.last == None
      ensures if pooled != null then errs == pooled else fresh(errs)
    {
      if pooled != null {
        errs := pooled;
        errs.Reset();
      } else {
        errs := new Errors();
      }
    }

    /** Computes the wait before the next attempt and waits it out. */
    method WaitRetry(o: Oracle, attempt: nat, err: Err) returns (waitErr: Option<Err>, delay: int)
      ensures waitErr == WaitError(o.waits(attempt), attempt, err)
      ensures delay == BaseDelay(config.interval, config.factor, attempt) + o.draws(attempt)
    {
      var backoff := Truncated(config.interval, Pow(config.factor, attempt));
      delay := backoff + o.draws(attempt);
      waitErr := WaitError(o.waits(attempt), attempt, err);
    }

    /**
     Retries a function that cannot be interrupted. The trace is exactly the expected one, whatever the pooled object
     held before.
     */
    method Do(o: Oracle, isNil: bool, temporary: seq<Err>, pooled: Errors?)
      returns (errs: Errors, calls: nat, hooks: seq<(nat, Err)>, delays: seq<int>)
      requires forall k :: o.attempts(k).Returned?
      modifies pooled
      ensures if pooled != null then errs == pooled else fresh(errs)
      ensures Validate(config).Some? ==> errs.attempts == [] && errs.last == Validate(config) && calls == 0
      ensures Validate(config).None? && isNil ==> errs.attempts == [] && errs.last == Some(ERR_NIL_FUNC) && calls == 0
      ensures Validate(config).None? && !isNil ==>
        Trace(errs.attempts, errs.last, calls, hooks, delays) == Expected(Policy(config, temporary, registry.storage), o)
    {
      errs := TakeErrors(pooled);
      calls, hooks, delays := 0, [], [];
      if Validate(config).Some? {
        errs.last := Validate(config);
        return;
      }
      if isNil {
        errs.last := Some(ERR_NIL_FUNC);
        return;
      }
      ghost var p := Policy(config, temporary, registry.storage);
      var attempt := 0;
      while attempt <= config.maxRetries
        invariant 0 <= attempt && ReachesAttempt(p, o, attempt)
        invariant errs.attempts == Failures(o, attempt)
        invariant calls == attempt && hooks == Hooks(o, attempt) && delays == Waits(p, o, attempt)
        invariant if pooled != null then errs == pooled else fresh(errs)
        decreases config.maxRetries - attempt
      {
        var result := o.attempts(attempt).result;
        calls := calls + 1;
        if !Continues(p, o, attempt) {
          FinalIs(p, o, attempt);
        }
        if Fails(o, attempt) {
          OneMoreFailure(p, o, attempt);
        }
        if result == None {
          errs.last := None;
          return;
        }
        var err := result.value;
        errs.attempts := errs.attempts + [err];
        var retry := CheckRetry(err, temporary);
        if !retry {
          errs.last := Some(err);
          return;
        }
        if attempt == config.maxRetries {
          errs.last := Some(err);
          break;
        }
        hooks := hooks + [(attempt, err)];
        var waitErr, delay := WaitRetry(o, attempt, err);
        delays := delays + [delay];
        if waitErr != None {
          errs.last := waitErr;
          return;
        }
        errs.last := Some(err);
        attempt := attempt + 1;
      }
      errs.attempts := errs.attempts + [Wrapped(MaxRetriesReached, errs.last.value)];
    }

    /** Records a failure and decides whether the loop goes on. */
    method HandleAttemptError(o: Oracle, attempt: nat, err: Err, errs: Errors, temporary: seq<Err>)
      returns (outcome: Outcome, hooks: seq<(nat, Err)>, delays: seq<int>)
      requires attempt <= config.maxRetries
      modifies errs
      ensures errs.attempts == old(errs.attempts) + [err]
      ensures var retry := ShouldRetry(Policy(config, temporary, registry.storage), err);
        if !retry then outcome.AttemptStop? && errs.last == Some(err) && hooks == [] && delays == []
        else if attempt == config.maxRetries then outcome.AttemptMaxRetries? && errs.last == Some(err) && hooks == [] && delays == []
        else
          && hooks == [(attempt, err)]
          && delays == [BaseDelay(config.interval, config.factor, attempt) + o.draws(attempt)]
          && (if o.waits(attempt).Elapsed? then outcome.AttemptContinue? && errs.last == Some(err)
              else outcome.AttemptStop? && errs.last == WaitError(o.waits(attempt), attempt, err))
    {
      errs.attempts := errs.attempts + [err];
      hooks, delays := [], [];
      var retry := CheckRetry(err, temporary);
      if !retry {
        errs.last := Some(err);
        return AttemptStop, hooks, delays;
      }
      if attempt == config.maxRetries {
        errs.last := Some(err);
        return AttemptMaxRetries, hooks, delays;
      }
      hooks := [(attempt, err)];
      var waitErr, delay := WaitRetry(o, attempt, err);
      delays := [delay];
      if waitErr != None {
        errs.last := waitErr;
        return AttemptStop, hooks, delays;
      }
      errs.last := Some(err);
      outcome := AttemptContinue;
    }

    /** Runs one attempt next to the contexts and the timeout: its result, or what interrupted it. */
    method RunAttemptWithContext(o: Oracle, attempt: nat) returns (attemptErr: Option<Err>, terminalErr: Option<Err>)
      ensures match o.attempts(attempt)
              case Returned(result) => attemptErr == result && terminalErr == None
              case Interrupted(why) => terminalErr == Some(TerminalError(why))
    {
      attemptErr, terminalErr := None, None;
      match o.attempts(attempt)
      case Returned(result) => attemptErr := result;
      case Interrupted(CallerDone(cause)) => terminalErr := Some(Wrapped(ContextDone, cause));
      case Interrupted(RetrierDone(cause)) => terminalErr := Some(Wrapped(RetrierContextDone, cause));
      case Interrupted(TimedOut) => terminalErr := Some(ERR_TIMEOUT_REACHED);
    }

    /** Retries a function that observes its context; an attempt can be interrupted. */
    method DoWithContext(o: Oracle, isNil: bool, temporary: seq<Err>, pooled: Errors?)
      returns (errs: Errors, calls: nat, hooks: seq<(nat, Err)>, delays: seq<int>)
      modifies pooled
      ensures if pooled != null then errs == pooled else fresh(errs)
      ensures Validate(config).Some? ==> errs.attempts == [] && errs.last == Validate(config) && calls == 0
      ensures Validate(config).None? && isNil ==> errs.attempts == [] && errs.last == Some(ERR_NIL_FUNC) && calls == 0
      ensures Validate(config).None? && !isNil ==>
        Trace(errs.attempts, errs.last, calls, hooks, delays) == Expected(Policy(config, temporary, registry.storage), o)
    {
      errs := TakeErrors(pooled);
      calls, hooks, delays := 0, [], [];
      if Validate(config).Some? {
        errs.last := Validate(config);
        return;
      }
      if isNil {
        errs.last := Some(ERR_NIL_FUNC);
        return;
      }
      ghost var p := Policy(config, temporary, registry.storage);
      var attempt := 0;
      while attempt <= config.maxRetries
        invariant 0 <= attempt && ReachesAttempt(p, o, attempt)
        invariant errs.attempts == Failures(o, attempt)
        invariant calls == attempt && hooks == Hooks(o, attempt) && delays == Waits(p, o, attempt)
        invariant if pooled != null then errs == pooled else fresh(errs)
        decreases config.maxRetries - attempt
      {
        var attemptErr, terminalErr := RunAttemptWithContext(o, attempt);
        calls := calls + 1;
        if !Continues(p, o, attempt) {
          FinalIs(p, o, attempt);
        }
        if Fails(o, attempt) {
          OneMoreFailure(p, o, attempt);
        }
        if terminalErr != None {
          errs.last := if Is(terminalErr.value, ERR_TIMEOUT_REACHED)
                       then Some(Wrapped(TimedOutAt(attempt), ERR_TIMEOUT_REACHED)) else terminalErr;
          return;
        }
        if attemptErr == None {
          errs.last := None;
          return;
        }
        var outcome, hook, delay := HandleAttemptError(o, attempt, attemptErr.value, errs, temporary);
        hooks, delays := hooks + hook, delays + delay;
        if outcome.AttemptStop? {
          return;
        }
        if outcome.AttemptMaxRetries? {
          break;
        }
        attempt := attempt + 1;
      }
      errs.attempts := errs.attempts + [Wrapped(MaxRetriesReached, errs.last.value)];
    }
  }
}
