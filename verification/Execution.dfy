/** One scheduled execution: an HTTP attempt retried under the job's policy, and the payload it reports. */
module Execution {
  import opened JobTypes
  import opened ErrorChains
  import opened Retrier
  import opened RetryTheorems

  /** What an attempt gets back: a response with a status, or an error before any response. */
  datatype Response = Answer(status: int) | NoResponse(err: Err)

  /** A success status, section 15.3 of RFC 9110. */
  predicate IsSuccess(status: int) {
    200 <= status < 300
  }

  /** The error of an attempt: listed statuses are marked retryable, other failures report their status. */
  function AttemptError(codes: seq<int>, r: Response): Option<Err> {
    match r
    case NoResponse(err) => Some(Wrapped(RequestFailed, err))
    case Answer(status) =>
      if IsSuccess(status) then None
      else if status in codes then Some(Wrapped(Status(status), ERR_RETRYABLE_STATUS))
      else Some(StatusError(status))
  }

  /**
   What an attempt's error says: none for a 2xx status; the request's own error in the chain when there was no response; the
   mark of a listed status; and the bare status otherwise.
   */
  lemma AttemptErrorMeans(codes: seq<int>, r: Response)
    ensures AttemptError(codes, r).None? <==> r.Answer? && 200 <= r.status <= 299
    ensures r.NoResponse? ==>
      AttemptError(codes, r) == Some(Wrapped(RequestFailed, r.err)) && Is(AttemptError(codes, r).value, r.err)
    ensures r.Answer? && !(200 <= r.status <= 299) ==>
      && (Is(AttemptError(codes, r).value, ERR_RETRYABLE_STATUS) <==> r.status in codes)
      && AttemptError(codes, r) ==
         Some(if r.status in codes then Wrapped(Status(r.status), ERR_RETRYABLE_STATUS) else StatusError(r.status))
  {
    if r.NoResponse? {
      WrappingKeeps(RequestFailed, r.err, r.err);
    }
  }

  /** The filter handed to the retrier. */
  function TemporaryErrors(codes: seq<int>, listed: seq<Err>, registered: seq<Err>): seq<Err> {
    var marked := if |codes| > 0 then [ERR_RETRYABLE_STATUS] else [];
    var temp := marked + listed;
    if |temp| > 0 && |registered| > 0 then temp + registered else temp
  }

  /** Every source a failure can match, whichever way it reaches the retrier. */
  function Sources(codes: seq<int>, listed: seq<Err>, registered: seq<Err>): seq<Err> {
    (if |codes| > 0 then [ERR_RETRYABLE_STATUS] else []) + listed + registered
  }

  function PolicyFor(config: Config, codes: seq<int>, listed: seq<Err>, registered: seq<Err>): Policy {
    Policy(config, TemporaryErrors(codes, listed, registered), registered)
  }

  /** A failure is retried exactly if no filter is given at all, or some source matches it. */
  lemma RetriedIffMatched(config: Config, codes: seq<int>, listed: seq<Err>, registered: seq<Err>, err: Err)
    ensures ShouldRetry(PolicyFor(config, codes, listed, registered), err) <==>
      Sources(codes, listed, registered) == [] || Matches(err, Sources(codes, listed, registered))
  {
    var temp := TemporaryErrors(codes, listed, registered);
    var sources := Sources(codes, listed, registered);
    if |temp| == 0 {
      assert sources == registered;
    } else {
      assert temp == sources;
    }
  }

  // ---- What an execution meets ----

  /** Responses by attempt, interruptions by attempt, and the retrier's own waits and draws. */
  datatype World = World(
    responses: nat -> Response,
    cuts: nat -> Option<Interruption>,
    waits: nat -> WaitOutcome,
    draws: nat -> int)

  function OracleOf(codes: seq<int>, w: World): Oracle {
    Oracle((k: nat) => if w.cuts(k).Some? then Interrupted(w.cuts(k).value) else Returned(AttemptError(codes, w.responses(k))),
           w.waits, w.draws)
  }

  /** The status of the latest of the first `n` attempts that got a response; zero if none did. */
  function LastStatus(w: World, n: nat): int {
    if n == 0 then 0
    else if w.responses(n - 1).Answer? then w.responses(n - 1).status
    else LastStatus(w, n - 1)
  }

  /** `status` is that of the latest of the first `n` attempts that got a response, or zero if none did. */
  ghost predicate IsLatestStatus(w: World, n: nat, status: int) {
    || ((forall k :: 0 <= k < n ==> !w.responses(k).Answer?) && status == 0)
    || (exists k :: 0 <= k < n && w.responses(k) == Answer(status) && forall l :: k < l < n ==> !w.responses(l).Answer?)
  }

  lemma {:induction false} LastStatusIsLatest(w: World, n: nat)
    ensures IsLatestStatus(w, n, LastStatus(w, n))
  {
    if n > 0 && !w.responses(n - 1).Answer? {
      LastStatusIsLatest(w, n - 1);
    }
  }

  /** A listed failure status is followed by another attempt while budget remains and nothing interrupts. */
  lemma ListedStatusIsRetried(config: Config, codes: seq<int>, listed: seq<Err>, registered: seq<Err>, w: World, k: nat)
    requires w.responses(k).Answer? && w.responses(k).status in codes && !IsSuccess(w.responses(k).status)
    requires w.cuts(k).None? && w.waits(k).Elapsed? && k < config.maxRetries
    ensures Continues(PolicyFor(config, codes, listed, registered), OracleOf(codes, w), k)
  {
    var err := Wrapped(Status(w.responses(k).status), ERR_RETRYABLE_STATUS);
    var sources := Sources(codes, listed, registered);
    assert Is(err, ERR_RETRYABLE_STATUS);
    assert sources[0] == ERR_RETRYABLE_STATUS && Is(err, sources[0]);
    RetriedIffMatched(config, codes, listed, registered, err);
  }

  /** An unlisted failure status is final if there is any filter and none of it matches the status error. */
  lemma UnlistedStatusIsFinal(config: Config, codes: seq<int>, listed: seq<Err>, registered: seq<Err>, w: World, k: nat)
    requires w.responses(k).Answer? && w.responses(k).status !in codes && !IsSuccess(w.responses(k).status)
    requires Sources(codes, listed, registered) != []
    requires !Matches(StatusError(w.responses(k).status), listed + registered)
    ensures !Continues(PolicyFor(config, codes, listed, registered), OracleOf(codes, w), k)
  {
    var err := StatusError(w.responses(k).status);
    var sources := Sources(codes, listed, registered);
    var marked := if |codes| > 0 then [ERR_RETRYABLE_STATUS] else [];
    assert sources == marked + (listed + registered);
    forall i | 0 <= i < |sources| ensures !Is(err, sources[i]) {
      if i >= |marked| {
        assert sources[i] == (listed + registered)[i - |marked|];
      }
    }
    RetriedIffMatched(config, codes, listed, registered, err);
  }

  /** With every filter empty, every failure is retried while budget remains and nothing interrupts. */
  lemma NoFilterRetriesAll(config: Config, w: World, k: nat)
    requires w.cuts(k).None? && AttemptError([], w.responses(k)).Some? && w.waits(k).Elapsed? && k < config.maxRetries
    ensures Continues(PolicyFor(config, [], [], []), OracleOf([], w), k)
  {
    RetriedIffMatched(config, [], [], [], AttemptError([], w.responses(k)).value);
  }

  // ---- The payload ----

  /** The part of a payload that reports the outcome. */
  datatype Report = Report(success: bool, attempts: nat, statusCode: int, error: Option<Err>)

  /** How many attempts have counted themselves: an interrupted one may have been abandoned before it did. */
  function Counted(w: World, calls: nat, late: bool): nat {
    if calls > 0 && w.cuts(calls - 1).Some? && !late then calls - 1 else calls
  }

  /**
   Runs the retrier and reports, whatever the outcome: the attempts that counted themselves, the status of the latest one
   of them that was answered, and the trace's last error. A report of success carries a 2xx status and one attempt more than
   the failures before it, all of which were retryable. `late` says whether an abandoned attempt had already counted itself.
   */
  method Execute(r: Retrier, codes: seq<int>, listed: seq<Err>, w: World, late: bool) returns (report: Report)
    ensures report.success <==> report.error.None?
    ensures Validate(r.config).None? ==>
      var t := Expected(PolicyFor(r.config, codes, listed, r.registry.storage), OracleOf(codes, w));
      && t.calls >= 1
      && report.attempts == t.calls - (if w.cuts(t.calls - 1).Some? && !late then 1 else 0)
      && report.error == t.last
      && IsLatestStatus(w, report.attempts, report.statusCode)
    ensures Validate(r.config).None? && report.success ==>
      && 200 <= report.statusCode <= 299
      && report.attempts >= 1
      && forall k :: 0 <= k < report.attempts - 1 ==>
           FailsRetryably(PolicyFor(r.config, codes, listed, r.registry.storage), OracleOf(codes, w), k)
    ensures Validate(r.config).None? && report.success ==>
      |Expected(PolicyFor(r.config, codes, listed, r.registry.storage), OracleOf(codes, w)).attempts| + 1 == report.attempts
    ensures Validate(r.config).Some? ==> report == Report(false, 0, 0, Validate(r.config))
  {
    var registered := r.registry.ListTemporaryErrors();
    var temporary := TemporaryErrors(codes, listed, registered);
    var o := OracleOf(codes, w);
    var errs, calls, _, _ := r.DoWithContext(o, false, temporary, null);
    var counted := Counted(w, calls, late);
    report := Report(errs.last.None?, counted, LastStatus(w, counted), errs.last);
    LastStatusIsLatest(w, counted);
    if Validate(r.config).None? {
      RetryTraceExact(PolicyFor(r.config, codes, listed, r.registry.storage), o);
      if report.success {
        SuccessfulTrace(PolicyFor(r.config, codes, listed, r.registry.storage), codes, w);
      }
    }
  }

  /** A trace without a last error ends in a success response, after failures that were all retryable. */
  lemma SuccessfulTrace(p: Policy, codes: seq<int>, w: World)
    requires Validate(p.config).None? && Expected(p, OracleOf(codes, w)).last.None?
    ensures var t := Expected(p, OracleOf(codes, w));
            && t.calls >= 1 && w.cuts(t.calls - 1).None?
            && w.responses(t.calls - 1).Answer? && IsSuccess(w.responses(t.calls - 1).status)
            && |t.attempts| + 1 == t.calls
            && forall k :: 0 <= k < t.calls - 1 ==> FailsRetryably(p, OracleOf(codes, w), k)
  {
    var o := OracleOf(codes, w);
    var t := Expected(p, o);
    RetryTraceExact(p, o);
    forall k | 0 <= k < t.calls - 1
      ensures FailsRetryably(p, o, k)
    {
      assert Continues(p, o, k);
    }
  }
}
