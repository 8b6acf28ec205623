/** Errors and the chains that wrapping builds. */
module ErrorChains {

  /** The texts that the retrier and the scheduler put around an error. */
  datatype Message =
    | InvalidBecause(field: string)
    | ContextDone
    | RetrierContextDone
    | TimedOutAt(attempt: nat)
    | TimedOutAfter(attempt: nat, error: Err)
    | MaxRetriesReached
    | RequestFailed
    | Status(code: int)

  /** An error is a plain value, a status report, or a message around another error. */
  datatype Err =
    | Plain(name: string)
    | StatusError(code: int)
    | Wrapped(message: Message, inner: Err)

  const ERR_INVALID_RETRIER := Plain("invalid retrier")
  const ERR_TIMEOUT_REACHED := Plain("operation timeout reached")
  const ERR_NIL_FUNC := Plain("failed to invoke the function. It appears to be nil")
  const ERR_RETRYABLE_STATUS := Plain("retryable status")

  /** `target` is in the chain of `err`. */
  predicate Is(err: Err, target: Err) {
    err == target || (err.Wrapped? && Is(err.inner, target))
  }

  /** The error and everything it wraps, outermost first. */
  function Chain(err: Err): seq<Err> {
    [err] + if err.Wrapped? then Chain(err.inner) else []
  }

  /** A target is matched at any depth of wrapping, and only there. */
  lemma {:induction false} IsIffInChain(err: Err, target: Err)
    ensures Is(err, target) <==> target in Chain(err)
  {
    if err.Wrapped? {
      IsIffInChain(err.inner, target);
    }
  }

  /** Wrapping hides nothing. */
  lemma WrappingKeeps(message: Message, err: Err, target: Err)
    requires Is(err, target)
    ensures Is(Wrapped(message, err), target)
  {
  }

  /** What an error has in its chain brings its own chain along. */
  lemma {:induction false} IsIsTransitive(a: Err, b: Err, c: Err)
    requires Is(a, b) && Is(b, c)
    ensures Is(a, c)
  {
    if a != b {
      IsIsTransitive(a.inner, b, c);
    }
  }

  /** `err` has one of the listed errors in its chain. */
  predicate Matches(err: Err, list: seq<Err>) {
    exists i :: 0 <= i < |list| && Is(err, list[i])
  }
}
