/** The records that the scheduler, its storages and its queries share. */
module JobTypes {

  datatype Option<+T> = None | Some(value: T)

  /** The lifecycle states a job status can show. */
  datatype JobState = Scheduled | Running | Completed | Canceled | Removed | Stopped

  /** A wall-clock instant; `Zero` is Go's zero time, which is not a Unix time. */
  datatype Time = Zero | At(unixNano: int)

  /** When a job runs. Only whether a start or end time exists matters here; clock readings are choices of the steps. */
  datatype Schedule = Schedule(hasStart: bool, hasEnd: bool, maxRuns: nat)

  datatype Job = Job(id: string, schedule: Schedule)

  /** The result of one execution. */
  datatype Payload = Payload(
    jobId: string,
    scheduledAt: Time,
    startedAt: Time,
    finishedAt: Time,
    attempts: nat,
    success: bool,
    statusCode: int,
    error: string,
    responseBody: string)

  /** One retained execution. */
  datatype JobRun = JobRun(sequence: int, payload: Payload)

  /** A status snapshot. */
  datatype JobStatus = JobStatus(
    jobId: string,
    state: JobState,
    createdAt: int,
    updatedAt: int,
    runs: int,
    activeRuns: int,
    lastRun: Option<Payload>)

  /** States that a finished registration shows. */
  predicate IsFinal(state: JobState) {
    state.Completed? || state.Canceled? || state.Removed? || state.Stopped?
  }

  lemma SomeElement<T>(s: set<T>) returns (x: T)
    requires s != {}
    ensures x in s
  {
    EmptyOrInhabited(s);
    x :| x in s;
  }

  lemma EmptyOrInhabited<T>(s: set<T>)
    ensures s == {} || exists x :: x in s
  {
    if forall x :: x !in s {
      assert s == {};
    }
  }

  lemma SubsetSize<T>(a: set<T>, b: set<T>)
    requires a <= b
    ensures |a| <= |b|
    ensures |b - a| == |b| - |a|
  {
    assert b == a + (b - a);
  }

  /** The last `n` elements of `s`, or all of it when it is shorter. */
  function LastN<T>(s: seq<T>, n: nat): seq<T> {
    if |s| > n then s[|s| - n..] else s
  }

  function Min(a: int, b: int): int {
    if a <= b then a else b
  }

  function Max(a: int, b: int): int {
    if a >= b then a else b
  }
}
