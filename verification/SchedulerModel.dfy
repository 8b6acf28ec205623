/**
 The scheduler as a step machine. Every job loop, execution and client call has a program counter, and one action is
 one step of one of them. Sections that hold the scheduler's mutex are split into their storage calls, because the
 loops and executions reach the storage without that mutex.
 */
module SchedulerModel {
  import opened JobTypes
  import opened MemoryStorage

  /** Where a job's schedule loop is. */
  datatype LoopPc =
    | StartWait                      // waiting for the start time
    | Check                          // top of the loop
    | AcquireSlot                    // blocked on the semaphore
    | SpawnRun                       // slot held, execution not yet spawned
    | AwaitTick                      // select on cancellation and ticker
    | ReadStopped                    // cancellation seen, about to read `stopped`
    | ReadState(sawStopped: bool)    // about to read the stored state
    | WaitRuns                       // waiting for its own executions
    | Finalize                       // about to mark the status terminal
    | Cleanup                        // about to unregister
    | DeleteJob                      // unregistered, about to delete the stored job
    | Leave                          // about to sign off the wait group
    | Exited

  /** One registration: its job, its loop and its two pieces of shared state. */
  datatype Loop = Loop(job: Job, pc: LoopPc, runs: nat, cancelled: bool, outcome: JobState, runsWg: int)

  /** Where an execution is. `Recorded` covers the callback. */
  datatype ExecPc = Spawned | Started | Recorded | Released | RunDone | Gone

  datatype Exec = Exec(entry: nat, id: string, pc: ExecPc)

  datatype StopCall = Entering | Marking | Waiting | Returned

  datatype RemovePhase = Cancelling | Unregistering | Deleting | MarkingRemoved

  datatype StopPhase = Picking | StopDeleting(id: string) | StopMarking(id: string)

  /** Who holds the scheduler's mutex, and how far it got. */
  datatype Lock =
    | Free
    | Scheduling(job: Job, upserted: bool)
    | Removing(id: string, entry: nat, phase: RemovePhase)
    | Stopping(call: nat, todo: set<string>, at: StopPhase)
    | Cleaning(entry: nat)

  /** `limit` is the semaphore's capacity, when there is one. */
  datatype Config = Config(limit: Option<nat>, historyLimit: nat)

  /**
   The shared state. Registrations and executions are numbered and never forgotten; `log` (all results ever recorded)
   and `reused` (ids registered more than once) only remember what happened.
   */
  datatype State = State(
    config: Config,
    stopped: bool,
    lock: Lock,
    jobs: map<string, nat>,
    store: Store,
    tokens: int,
    wg: int,
    loops: seq<Loop>,
    execs: seq<Exec>,
    stops: seq<StopCall>,
    log: map<string, seq<Payload>>,
    reused: set<string>)

  datatype Action =
    // Schedule
    | ScheduleBegin(job: Job)
    | ScheduleUpsert(now: int)
    | ScheduleSpawn
    // Remove
    | RemoveBegin(id: string)
    | RemoveCancel
    | RemoveUnregister
    | RemoveDelete
    | RemoveMark(now: int)
    // Stop
    | StopBegin
    | StopEnter(call: nat)
    | StopCancel(id: string)
    | StopDelete
    | StopMark(now: int)
    | StopUnlock
    | StopReturn(call: nat)
    // The context that the caller of Schedule passed
    | CancelContext(entry: nat)
    // The schedule loop
    | LoopStart(entry: nat, elapsed: bool)
    | LoopCheck(entry: nat, pastEnd: bool)
    | LoopAcquire(entry: nat)
    | LoopSpawn(entry: nat)
    | LoopSelect(entry: nat, tick: bool)
    | LoopReadStopped(entry: nat)
    | LoopReadState(entry: nat)
    | LoopWait(entry: nat)
    | LoopFinalize(entry: nat, now: int)
    | LoopCleanup(entry: nat)
    | LoopDelete(entry: nat)
    | LoopLeave(entry: nat)
    // An execution
    | ExecStart(exec: nat, now: int)
    | ExecRecord(exec: nat, payload: Payload, now: int)
    | ExecRelease(exec: nat)
    | ExecRunDone(exec: nat)
    | ExecGone(exec: nat)

  ghost predicate Init(s: State) {
    && s == State(s.config, false, Free, map[], EMPTY, 0, 0, [], [], [], map[], {})
    && (s.config.limit.Some? ==> s.config.limit.value > 0)
    && s.config.historyLimit > 0
  }

  predicate LoopAt(s: State, entry: nat, pc: LoopPc) {
    entry < |s.loops| && s.loops[entry].pc == pc
  }

  predicate ExecAt(s: State, exec: nat, pc: ExecPc) {
    exec < |s.execs| && s.execs[exec].pc == pc
  }

  /** Which steps are possible. A step that would block is not. */
  predicate Enabled(s: State, a: Action) {
    match a
    case ScheduleBegin(_) => s.lock.Free?
    case ScheduleUpsert(_) => s.lock.Scheduling? && !s.lock.upserted
    case ScheduleSpawn => s.lock.Scheduling? && s.lock.upserted
    case RemoveBegin(_) => s.lock.Free?
    case RemoveCancel => s.lock.Removing? && s.lock.phase.Cancelling? && s.lock.entry < |s.loops|
    case RemoveUnregister => s.lock.Removing? && s.lock.phase.Unregistering?
    case RemoveDelete => s.lock.Removing? && s.lock.phase.Deleting?
    case RemoveMark(_) => s.lock.Removing? && s.lock.phase.MarkingRemoved?
    case StopBegin => true
    case StopEnter(c) => s.lock.Free? && c < |s.stops| && s.stops[c].Entering?
    case StopCancel(id) =>
      s.lock.Stopping? && s.lock.at.Picking? && id in s.lock.todo && id in s.jobs && s.jobs[id] < |s.loops|
    case StopDelete => s.lock.Stopping? && s.lock.at.StopDeleting?
    case StopMark(_) => s.lock.Stopping? && s.lock.at.StopMarking?
    case StopUnlock => s.lock.Stopping? && s.lock.at.Picking? && s.lock.todo == {} && s.lock.call < |s.stops|
    case StopReturn(c) => c < |s.stops| && s.stops[c].Waiting? && s.wg == 0
    case CancelContext(e) => e < |s.loops|
    case LoopStart(e, elapsed) =>
      LoopAt(s, e, StartWait) && (!elapsed ==> s.loops[e].job.schedule.hasStart && s.loops[e].cancelled)
    case LoopCheck(e, pastEnd) => LoopAt(s, e, Check) && (pastEnd ==> s.loops[e].job.schedule.hasEnd)
    case LoopAcquire(e) => LoopAt(s, e, AcquireSlot) && (s.config.limit.Some? ==> s.tokens < s.config.limit.value)
    case LoopSpawn(e) => LoopAt(s, e, SpawnRun)
    case LoopSelect(e, tick) => LoopAt(s, e, AwaitTick) && (!tick ==> s.loops[e].cancelled)
    case LoopReadStopped(e) => LoopAt(s, e, ReadStopped) && s.lock.Free?
    case LoopReadState(e) => e < |s.loops| && s.loops[e].pc.ReadState?
    case LoopWait(e) => LoopAt(s, e, WaitRuns) && s.loops[e].runsWg == 0
    case LoopFinalize(e, _) => LoopAt(s, e, Finalize)
    case LoopCleanup(e) => LoopAt(s, e, Cleanup) && s.lock.Free?
    case LoopDelete(e) => LoopAt(s, e, DeleteJob) && s.lock == Cleaning(e)
    case LoopLeave(e) => LoopAt(s, e, Leave)
    case ExecStart(x, _) => ExecAt(s, x, Spawned)
    case ExecRecord(x, _, _) => ExecAt(s, x, Started)
    case ExecRelease(x) => ExecAt(s, x, Recorded) && (s.config.limit.Some? ==> s.tokens > 0)
    case ExecRunDone(x) => ExecAt(s, x, Released) && s.execs[x].entry < |s.loops|
    case ExecGone(x) => ExecAt(s, x, RunDone)
  }

  // ---- Effects ----

  function LogOf(s: State, id: string): seq<Payload> {
    if id in s.log then s.log[id] else []
  }

  function WithLoop(s: State, e: nat, l: Loop): State
    requires e < |s.loops|
  {
    s.(loops := s.loops[e := l])
  }

  function MoveLoop(s: State, e: nat, pc: LoopPc): State
    requires e < |s.loops|
  {
    WithLoop(s, e, s.loops[e].(pc := pc))
  }

  function MoveExec(s: State, x: nat, pc: ExecPc): State
    requires x < |s.execs|
  {
    s.(execs := s.execs[x := s.execs[x].(pc := pc)])
  }

  function Cancel(s: State, e: nat): State
    requires e < |s.loops|
  {
    WithLoop(s, e, s.loops[e].(cancelled := true))
  }

  function Write(s: State, op: Op): State {
    s.(store := Apply(s.store, op))
  }

  /** Rejects after Stop and for a registered or stored id; otherwise saves the job. */
  function BeginSchedule(s: State, job: Job): State {
    if s.stopped || job.id in s.jobs || !Accepts(s.store, Save(job)) then s
    else Write(s, Save(job)).(lock := Scheduling(job, false))
  }

  /** The loop's tests at its top, in order, and the run it starts. */
  function TopOfLoop(l: Loop, pastEnd: bool): Loop {
    if l.cancelled then l.(pc := ReadStopped)
    else if l.job.schedule.maxRuns > 0 && l.runs >= l.job.schedule.maxRuns then l.(pc := WaitRuns)
    else if pastEnd then l.(pc := WaitRuns)
    else l.(pc := AcquireSlot, runs := l.runs + 1)
  }

  /** What a cancelled loop reports: Removed if the status says so, else by whether the scheduler stopped. */
  function ContextOutcome(store: Store, id: string, sawStopped: bool): JobState {
    if id in store.status && store.status[id].status.state.Removed? then Removed
    else if sawStopped then Stopped
    else Canceled
  }

  /** Schedule writes the status of its job. */
  function UpsertFor(s: State, job: Job, now: int): State {
    Write(s, UpsertStatus(job.id, Scheduled, now)).(
      lock := Scheduling(job, true),
      reused := if job.id in s.store.status then s.reused + {job.id} else s.reused)
  }

  /** An execution's result is recorded. */
  function RecordFor(s: State, x: nat, payload: Payload, now: int): State
    requires x < |s.execs|
  {
    var id := s.execs[x].id;
    Write(MoveExec(s, x, Recorded), RecordExecutionResult(id, payload, s.config.historyLimit, now)).(
      log := s.log[id := LogOf(s, id) + [payload]])
  }

  /** The first Stop call takes all registered jobs; later ones only wait. */
  function EnterStop(s: State, c: nat): State
    requires c < |s.stops|
  {
    if s.stopped then s.(stops := s.stops[c := Waiting])
    else s.(stopped := true, lock := Stopping(c, s.jobs.Keys, Picking), stops := s.stops[c := Marking])
  }

  /** The loop starts an execution with the slot it holds. */
  function SpawnFrom(s: State, e: nat): State
    requires e < |s.loops|
  {
    WithLoop(s, e, s.loops[e].(pc := AwaitTick, runsWg := s.loops[e].runsWg + 1)).(
      wg := s.wg + 1,
      execs := s.execs + [Exec(e, s.loops[e].job.id, Spawned)])
  }

  /** A loop takes its id out of the job map only if the map still names it. */
  function Unregister(s: State, e: nat): State
    requires e < |s.loops|
  {
    var id := s.loops[e].job.id;
    if id in s.jobs && s.jobs[id] == e then MoveLoop(s, e, DeleteJob).(jobs := s.jobs - {id}, lock := Cleaning(e))
    else MoveLoop(s, e, Leave)
  }

  /** A cancelled loop settles on what to report. */
  function AskContext(s: State, e: nat): State
    requires e < |s.loops| && s.loops[e].pc.ReadState?
  {
    var l := s.loops[e];
    WithLoop(s, e, l.(pc := WaitRuns, outcome := ContextOutcome(s.store, l.job.id, l.pc.sawStopped)))
  }

  /** An execution leaves its registration's wait group. */
  function SignOff(s: State, x: nat): State
    requires x < |s.execs| && s.execs[x].entry < |s.loops|
  {
    var e := s.execs[x].entry;
    WithLoop(MoveExec(s, x, RunDone), e, s.loops[e].(runsWg := s.loops[e].runsWg - 1))
  }

  function Take(s: State, a: Action): State
    requires Enabled(s, a)
  {
    match a
    case ScheduleBegin(job) => BeginSchedule(s, job)
    case ScheduleUpsert(now) =>
      UpsertFor(s, s.lock.job, now)
    case ScheduleSpawn =>
      s.(lock := Free,
         jobs := s.jobs[s.lock.job.id := |s.loops|],
         wg := s.wg + 1,
         loops := s.loops + [Loop(s.lock.job, StartWait, 0, false, Completed, 0)])
    case RemoveBegin(id) =>
      if id !in s.jobs then s else s.(lock := Removing(id, s.jobs[id], Cancelling))
    case RemoveCancel =>
      Cancel(s, s.lock.entry).(lock := s.lock.(phase := Unregistering))
    case RemoveUnregister =>
      s.(jobs := s.jobs - {s.lock.id}, lock := s.lock.(phase := Deleting))
    case RemoveDelete =>
      Write(s, Delete(s.lock.id)).(lock := s.lock.(phase := MarkingRemoved))
    case RemoveMark(now) =>
      Write(s, MarkRemoved(s.lock.id, now)).(lock := Free)
    case StopBegin =>
      s.(stops := s.stops + [Entering])
    case StopEnter(c) =>
      EnterStop(s, c)
    case StopCancel(id) =>
      Cancel(s, s.jobs[id]).(lock := s.lock.(at := StopDeleting(id)))
    case StopDelete =>
      Write(s, Delete(s.lock.at.id)).(lock := s.lock.(at := StopMarking(s.lock.at.id)))
    case StopMark(now) =>
      Write(s, MarkTerminal(s.lock.at.id, Stopped, now)).(
        lock := s.lock.(todo := s.lock.todo - {s.lock.at.id}, at := Picking))
    case StopUnlock =>
      s.(jobs := map[], lock := Free, stops := s.stops[s.lock.call := Waiting])
    case StopReturn(c) =>
      s.(stops := s.stops[c := Returned])
    case CancelContext(e) =>
      Cancel(s, e)
    case LoopStart(e, elapsed) =>
      MoveLoop(s, e, if elapsed then Check else ReadStopped)
    case LoopCheck(e, pastEnd) =>
      WithLoop(s, e, TopOfLoop(s.loops[e], pastEnd))
    case LoopAcquire(e) =>
      MoveLoop(s, e, SpawnRun).(tokens := if s.config.limit.Some? then s.tokens + 1 else s.tokens)
    case LoopSpawn(e) =>
      SpawnFrom(s, e)
    case LoopSelect(e, tick) =>
      MoveLoop(s, e, if tick then Check else WaitRuns)
    case LoopReadStopped(e) =>
      MoveLoop(s, e, ReadState(s.stopped))
    case LoopReadState(e) =>
      AskContext(s, e)
    case LoopWait(e) =>
      MoveLoop(s, e, Finalize)
    case LoopFinalize(e, now) =>
      Write(MoveLoop(s, e, Cleanup), MarkTerminal(s.loops[e].job.id, s.loops[e].outcome, now))
    case LoopCleanup(e) =>
      Unregister(s, e)
    case LoopDelete(e) =>
      Write(MoveLoop(s, e, Leave), Delete(s.loops[e].job.id)).(lock := Free)
    case LoopLeave(e) =>
      WithLoop(s, e, s.loops[e].(pc := Exited, cancelled := true)).(wg := s.wg - 1)
    case ExecStart(x, now) =>
      Write(MoveExec(s, x, Started), MarkExecutionStart(s.execs[x].id, now))
    case ExecRecord(x, payload, now) =>
      RecordFor(s, x, payload, now)
    case ExecRelease(x) =>
      MoveExec(s, x, Released).(tokens := if s.config.limit.Some? then s.tokens - 1 else s.tokens)
    case ExecRunDone(x) =>
      SignOff(s, x)
    case ExecGone(x) =>
      MoveExec(s, x, Gone).(wg := s.wg - 1)
  }

  // ---- Runs ----

  /** States `run[0], run[1], ...` where each follows from the one before by the action of the same index. */
  ghost predicate IsPath(run: seq<State>, actions: seq<Action>) {
    && |run| == |actions| + 1
    && forall i :: 0 <= i < |actions| ==> Enabled(run[i], actions[i]) && run[i + 1] == Take(run[i], actions[i])
  }

  /** A path from a fresh scheduler. */
  ghost predicate IsRun(run: seq<State>, actions: seq<Action>) {
    IsPath(run, actions) && Init(run[0])
  }

  ghost predicate Reachable(s: State) {
    exists run, actions :: IsRun(run, actions) && run[|run| - 1] == s
  }
}
