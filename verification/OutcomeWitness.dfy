/** Runs in which a report and completion disagree, either way. */
module OutcomeWitness {
  import opened JobTypes
  import opened MemoryStorage
  import opened SchedulerModel
  import opened SchedulerOutcomes

  // One job with a run budget makes one run and is cancelled.

  const PAYLOAD := Payload("a", Zero, Zero, Zero, 1, true, 200, "", "")

  function TheJob(maxRuns: nat): Job {
    Job("a", Schedule(false, false, maxRuns))
  }

  /** The store with the job registered, its execution started, and its result recorded. */
  function Stored(job: Job): Store {
    Apply(Apply(EMPTY, Save(job)), UpsertStatus(job.id, Scheduled, 0))
  }

  function StartedStore(job: Job): Store {
    Apply(Stored(job), MarkExecutionStart(job.id, 0))
  }

  function RecordedStore(job: Job): Store {
    Apply(StartedStore(job), RecordExecutionResult(job.id, PAYLOAD, 20, 0))
  }

  function Fresh(): State {
    State(Config(None, 20), false, Free, map[], EMPTY, 0, 0, [], [], [], map[], {})
  }

  function OneLoop(store: Store, wg: int, l: Loop, execs: seq<Exec>, log: map<string, seq<Payload>>): State {
    State(Config(None, 20), false, Free, map[l.job.id := 0], store, 0, wg, [l], execs, [], log, {})
  }

  function Quiet(job: Job, pc: LoopPc, runs: nat): State {
    OneLoop(Stored(job), 1, Loop(job, pc, runs, false, Completed, 0), [], map[])
  }

  /** The execution has got this far, and the job is cancelled or not. */
  function Running(job: Job, store: Store, cancelled: bool, pc: ExecPc, log: map<string, seq<Payload>>): State {
    OneLoop(store, 2, Loop(job, AwaitTick, 1, cancelled, Completed, 1), [Exec(0, job.id, pc)], log)
  }

  /** The execution has run to its end and its result is recorded. */
  function Ran(job: Job, pc: LoopPc): State {
    OneLoop(RecordedStore(job), 2, Loop(job, pc, 1, true, Completed, 0), [Exec(0, job.id, RunDone)],
            map[job.id := [PAYLOAD]])
  }

  lemma SavedReachable(job: Job)
    ensures Reachable(Fresh().(lock := Scheduling(job, false), store := Apply(EMPTY, Save(job))))
  {
    var s := Fresh();
    assert IsRun([s], []) && [s][|[s]| - 1] == s;
    Follow(s, ScheduleBegin(job), s.(lock := Scheduling(job, false), store := Apply(EMPTY, Save(job))));
  }

  lemma UpsertedReachable(job: Job)
    ensures Reachable(Fresh().(lock := Scheduling(job, true), store := Stored(job)))
  {
    SavedReachable(job);
    Follow(Fresh().(lock := Scheduling(job, false), store := Apply(EMPTY, Save(job))), ScheduleUpsert(0),
           Fresh().(lock := Scheduling(job, true), store := Stored(job)));
  }

  lemma RegisteredReachable(job: Job)
    ensures Reachable(Quiet(job, StartWait, 0))
  {
    UpsertedReachable(job);
    Follow(Fresh().(lock := Scheduling(job, true), store := Stored(job)), ScheduleSpawn, Quiet(job, StartWait, 0));
  }

  lemma CheckingReachable(job: Job)
    ensures Reachable(Quiet(job, Check, 0))
  {
    RegisteredReachable(job);
    Follow(Quiet(job, StartWait, 0), LoopStart(0, true), Quiet(job, Check, 0));
  }

  lemma AcquiringReachable(job: Job)
    ensures Reachable(Quiet(job, AcquireSlot, 1))
  {
    CheckingReachable(job);
    Follow(Quiet(job, Check, 0), LoopCheck(0, false), Quiet(job, AcquireSlot, 1));
  }

  lemma AboutToSpawnReachable(job: Job)
    ensures Reachable(Quiet(job, SpawnRun, 1))
  {
    AcquiringReachable(job);
    Follow(Quiet(job, AcquireSlot, 1), LoopAcquire(0), Quiet(job, SpawnRun, 1));
  }

  lemma SpawnedReachable(job: Job)
    ensures Reachable(Running(job, Stored(job), false, Spawned, map[]))
  {
    AboutToSpawnReachable(job);
    Follow(Quiet(job, SpawnRun, 1), LoopSpawn(0), Running(job, Stored(job), false, Spawned, map[]));
  }

  lemma CancelledReachable(job: Job)
    ensures Reachable(Running(job, Stored(job), true, Spawned, map[]))
  {
    SpawnedReachable(job);
    Follow(Running(job, Stored(job), false, Spawned, map[]), CancelContext(0),
           Running(job, Stored(job), true, Spawned, map[]));
  }

  lemma StartedReachable(job: Job)
    ensures Reachable(Running(job, StartedStore(job), true, Started, map[]))
  {
    CancelledReachable(job);
    Follow(Running(job, Stored(job), true, Spawned, map[]), ExecStart(0, 0),
           Running(job, StartedStore(job), true, Started, map[]));
  }

  lemma RecordedReachable(job: Job)
    ensures Reachable(Running(job, RecordedStore(job), true, Recorded, map[job.id := [PAYLOAD]]))
  {
    StartedReachable(job);
    var s := Running(job, StartedStore(job), true, Started, map[]);
    assert LogOf(s, job.id) + [PAYLOAD] == [PAYLOAD];
    assert s.log[job.id := [PAYLOAD]] == map[job.id := [PAYLOAD]];
    Follow(s, ExecRecord(0, PAYLOAD, 0), Running(job, RecordedStore(job), true, Recorded, map[job.id := [PAYLOAD]]));
  }

  lemma ReleasedReachable(job: Job)
    ensures Reachable(Running(job, RecordedStore(job), true, Released, map[job.id := [PAYLOAD]]))
  {
    RecordedReachable(job);
    Follow(Running(job, RecordedStore(job), true, Recorded, map[job.id := [PAYLOAD]]), ExecRelease(0),
           Running(job, RecordedStore(job), true, Released, map[job.id := [PAYLOAD]]));
  }

  lemma RanReachable(job: Job)
    ensures Reachable(Ran(job, AwaitTick))
  {
    ReleasedReachable(job);
    Follow(Running(job, RecordedStore(job), true, Released, map[job.id := [PAYLOAD]]), ExecRunDone(0), Ran(job, AwaitTick));
  }

  /** The loop has closed the status with this state. */
  function Shown(job: Job, s: State, state: JobState): State {
    s.(store := Apply(RecordedStore(job), MarkTerminal(job.id, state, 0)))
  }

  /** The status is open, with one run recorded, and takes the state. */
  lemma MarkShows(job: Job, state: JobState)
    ensures var store := Apply(RecordedStore(job), MarkTerminal(job.id, state, 0));
      job.id in store.status && store.status[job.id].status.state == state && store.status[job.id].status.runs == 1
  {
  }

  lemma CutReachable(job: Job)
    ensures Reachable(Ran(job, WaitRuns))
  {
    RanReachable(job);
    Follow(Ran(job, AwaitTick), LoopSelect(0, false), Ran(job, WaitRuns));
  }

  lemma CutFinalizingReachable(job: Job)
    ensures Reachable(Ran(job, Finalize))
  {
    CutReachable(job);
    Follow(Ran(job, WaitRuns), LoopWait(0), Ran(job, Finalize));
  }

  lemma CutShownReachable(job: Job)
    ensures Reachable(Shown(job, Ran(job, Cleanup), Completed))
  {
    CutFinalizingReachable(job);
    Follow(Ran(job, Finalize), LoopFinalize(0, 0), Shown(job, Ran(job, Cleanup), Completed));
  }

  /** Cancelled after one of five runs, and noticed in the select, the job shows Completed. */
  lemma CompletedWithoutCompletion() returns (s: State)
    ensures Reachable(s) && |s.loops| == 1 && s.loops[0].cancelled && s.loops[0].job == TheJob(5)
    ensures "a" in s.store.status && s.store.status["a"].status.state.Completed?
    ensures s.store.status["a"].status.runs == s.loops[0].runs == 1
  {
    var job := TheJob(5);
    CutShownReachable(job);
    MarkShows(job, Completed);
    s := Shown(job, Ran(job, Cleanup), Completed);
  }

  // The other way round: all runs made, the ticker wins the select, and the loop's top asks about its context first.

  lemma TickedReachable(job: Job)
    ensures Reachable(Ran(job, Check))
  {
    RanReachable(job);
    Follow(Ran(job, AwaitTick), LoopSelect(0, true), Ran(job, Check));
  }

  lemma NoticedReachable(job: Job)
    ensures Reachable(Ran(job, ReadStopped))
  {
    TickedReachable(job);
    Follow(Ran(job, Check), LoopCheck(0, false), Ran(job, ReadStopped));
  }

  lemma AskingReachable(job: Job)
    ensures Reachable(Ran(job, ReadState(false)))
  {
    NoticedReachable(job);
    Follow(Ran(job, ReadStopped), LoopReadStopped(0), Ran(job, ReadState(false)));
  }

  /** The loop has decided on Canceled. */
  function Decided(job: Job, pc: LoopPc): State {
    Ran(job, pc).(loops := [Loop(job, pc, 1, true, Canceled, 0)])
  }

  lemma DecidedReachable(job: Job)
    ensures Reachable(Decided(job, WaitRuns))
  {
    AskingReachable(job);
    Follow(Ran(job, ReadState(false)), LoopReadState(0), Decided(job, WaitRuns));
  }

  lemma FinalizingReachable(job: Job)
    ensures Reachable(Decided(job, Finalize))
  {
    DecidedReachable(job);
    Follow(Decided(job, WaitRuns), LoopWait(0), Decided(job, Finalize));
  }

  lemma DecidedShownReachable(job: Job)
    ensures Reachable(Shown(job, Decided(job, Cleanup), Canceled))
  {
    FinalizingReachable(job);
    Follow(Decided(job, Finalize), LoopFinalize(0, 0), Shown(job, Decided(job, Cleanup), Canceled));
  }

  /** With its only run made and recorded before the loop noticed the cancellation, the job shows Canceled. */
  lemma CanceledAfterCompletion() returns (s: State)
    ensures Reachable(s) && |s.loops| == 1 && s.loops[0].job == TheJob(1)
    ensures "a" in s.store.status && s.store.status["a"].status.state.Canceled?
    ensures s.store.status["a"].status.runs == s.loops[0].runs == s.loops[0].job.schedule.maxRuns
  {
    var job := TheJob(1);
    DecidedShownReachable(job);
    MarkShows(job, Canceled);
    s := Shown(job, Decided(job, Cleanup), Canceled);
  }
}
