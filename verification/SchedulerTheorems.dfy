/** What holds in every run of the scheduler, whatever the interleaving. */
module SchedulerTheorems {
  import opened JobTypes
  import opened MemoryStorage
  import opened SchedulerModel
  import opened SchedulerCounts
  import opened SchedulerInvariants
  import opened SchedulerRegistration
  import opened SchedulerCounters
  import opened SchedulerLedger
  import opened SchedulerLifecycle
  import opened SchedulerBudget

  /** No Stop call has returned while something is alive. */
  ghost predicate RestOk(s: State) {
    forall c :: 0 <= c < |s.stops| && s.stops[c].Returned? ==> s.wg == 0
  }

  ghost predicate Inv(s: State) {
    && Shape(s)
    && RegistrationOk(s)
    && CountersOk(s)
    && LedgerOk(s)
    && LifecycleOk(s)
    && BudgetsOk(s)
    && RestOk(s)
  }

  lemma InitInv(s: State)
    requires Init(s)
    ensures Inv(s)
  {
  }

  /** Everything has ended. */
  ghost predicate AllGone(s: State) {
    && (forall e :: 0 <= e < |s.loops| ==> s.loops[e].pc.Exited?)
    && (forall x :: 0 <= x < |s.execs| ==> s.execs[x].pc.Gone?)
  }

  lemma ZeroMeansGone(s: State)
    requires WgOk(s)
    ensures s.wg >= 0
    ensures s.wg == 0 <==> AllGone(s)
  {
    CountLoopsZero(s.loops, LiveLoop);
    CountExecsZero(s.execs, Live);
    if s.wg == 0 {
      assert forall e :: 0 <= e < |s.loops| ==> !IsLoop(s.loops[e], LiveLoop);
      assert forall x :: 0 <= x < |s.execs| ==> !IsExec(s.execs[x], Live);
    }
  }

  /** A stopped scheduler at rest stays so: nothing can be spawned. */
  lemma RestStays(s: State, a: Action)
    requires LockOk(s) && WgOk(s) && s.stopped && s.wg == 0 && Enabled(s, a)
    ensures Take(s, a).wg == 0 && Take(s, a).stopped
    ensures |Take(s, a).loops| == |s.loops| && |Take(s, a).execs| == |s.execs|
  {
    ZeroMeansGone(s);
    if a.CancelContext? {
    } else {
      OnlyCallsRemain(s, a);
      CallsSpawnNothing(s, a);
    }
  }

  lemma OnlyCallsRemain(s: State, a: Action)
    requires AllGone(s) && Enabled(s, a) && !a.CancelContext?
    ensures IsScheduleStep(a) || IsRemoveStep(a) || IsStopStep(a)
  {
  }

  lemma CallsSpawnNothing(s: State, a: Action)
    requires LockOk(s) && s.stopped && Enabled(s, a) && (IsScheduleStep(a) || IsRemoveStep(a) || IsStopStep(a))
    ensures Take(s, a).wg == s.wg && Take(s, a).stopped
    ensures |Take(s, a).loops| == |s.loops| && |Take(s, a).execs| == |s.execs|
  {
  }

  /** A call that has returned stays so, and a new one returns only when the wait group is empty. */
  lemma ReturnedSteps(s: State, a: Action, c: nat)
    requires LockOk(s) && Enabled(s, a)
    ensures c < |s.stops| && s.stops[c].Returned? ==> c < |Take(s, a).stops| && Take(s, a).stops[c].Returned?
    ensures c < |Take(s, a).stops| && Take(s, a).stops[c].Returned? ==>
      (c < |s.stops| && s.stops[c].Returned?) || (a == StopReturn(c) && s.wg == 0 && Take(s, a).wg == 0)
  {
    if IsStopStep(a) {
      StopFrame(s, a);
      StopMovesCalls(s, a, c);
    } else {
      OnlyStopMovesCalls(s, a);
    }
  }

  lemma StopMovesCalls(s: State, a: Action, c: nat)
    requires LockOk(s) && Enabled(s, a) && IsStopStep(a)
    ensures c < |s.stops| && s.stops[c].Returned? ==> c < |Take(s, a).stops| && Take(s, a).stops[c].Returned?
    ensures c < |Take(s, a).stops| && Take(s, a).stops[c].Returned? ==>
      (c < |s.stops| && s.stops[c].Returned?) || (a == StopReturn(c) && s.wg == 0)
  {
  }

  lemma OnlyStopMovesCalls(s: State, a: Action)
    requires Enabled(s, a) && !IsStopStep(a)
    ensures Take(s, a).stops == s.stops
  {
    if IsExecStep(a) {
      ExecFrame(s, a);
    } else if IsEarlyLoopStep(a) {
      EarlyFrame(s, a);
    } else if IsCleanupStep(a) {
      CleanupFrame(s, a);
    } else if IsScheduleStep(a) {
      ScheduleFrame(s, a);
    } else {
      RemoveFrame(s, a);
    }
  }

  lemma KeepsRest(s: State, a: Action)
    requires Shape(s) && WgOk(s) && RestOk(s) && Enabled(s, a)
    ensures RestOk(Take(s, a))
  {
    forall c | 0 <= c < |Take(s, a).stops| && Take(s, a).stops[c].Returned?
      ensures Take(s, a).wg == 0
    {
      ReturnedSteps(s, a, c);
      if a != StopReturn(c) {
        RestStays(s, a);
      }
    }
  }

  lemma KeepsInv(s: State, a: Action)
    requires Inv(s) && Enabled(s, a)
    ensures Inv(Take(s, a))
  {
    KeepsShape(s, a);
    KeepsRegistration(s, a);
    KeepsCounters(s, a);
    KeepsLedger(s, a);
    KeepsLifecycle(s, a);
    KeepsBudget(s, a);
    KeepsRest(s, a);
  }

  lemma PathStep(run: seq<State>, actions: seq<Action>, k: nat)
    requires IsPath(run, actions) && k < |actions|
    ensures Enabled(run[k], actions[k]) && run[k + 1] == Take(run[k], actions[k])
  {
  }

  lemma {:induction false} InvAlong(run: seq<State>, actions: seq<Action>, i: nat)
    requires IsRun(run, actions) && i < |run|
    ensures Inv(run[i])
  {
    if i == 0 {
      InitInv(run[0]);
    } else {
      InvAlong(run, actions, i - 1);
      PathStep(run, actions, i - 1);
      KeepsInv(run[i - 1], actions[i - 1]);
    }
  }

  lemma ReachableInv(s: State)
    requires Reachable(s)
    ensures Inv(s)
  {
    var run, actions :| IsRun(run, actions) && run[|run| - 1] == s;
    InvAlong(run, actions, |run| - 1);
  }

  // ---- Stop ----

  /** No loop or execution is alive, and every status is closed with no active run. */
  ghost predicate Quiescent(s: State) {
    && s.stopped && AllGone(s)
    && (forall id :: id in s.store.status ==>
         s.store.status[id].terminal && s.store.status[id].activeRuns == 0 && s.store.status[id].status.activeRuns == 0)
  }

  lemma RestIsQuiescent(s: State)
    requires Inv(s) && s.stopped && !s.lock.Stopping? && s.wg == 0
    ensures Quiescent(s)
  {
    ZeroMeansGone(s);
    forall id | id in s.store.status
      ensures s.store.status[id].terminal && s.store.status[id].activeRuns == 0 && s.store.status[id].status.activeRuns == 0
    {
      assert s.store.status[id].terminal || Owned(s, id);
      assert EntryLedger(id, s.store.status[id], s.execs, LogOf(s, id), s.config.historyLimit);
      CountExecsZero(s.execs, ActiveOf(id));
      assert EntryOk(id, s.store.status[id]);
    }
  }

  /** Once at rest, the next state is at rest with nothing new. */
  ghost predicate RestsOn(run: seq<State>, k: nat)
    requires k + 1 < |run|
  {
    run[k].stopped && run[k].wg == 0 ==>
      && run[k + 1].stopped && run[k + 1].wg == 0
      && |run[k + 1].loops| == |run[k].loops| && |run[k + 1].execs| == |run[k].execs|
  }

  lemma RestStep(run: seq<State>, actions: seq<Action>, k: nat)
    requires IsRun(run, actions) && k < |actions|
    ensures RestsOn(run, k)
  {
    InvAlong(run, actions, k);
    PathStep(run, actions, k);
    if run[k].stopped && run[k].wg == 0 {
      RestStays(run[k], actions[k]);
    }
  }

  lemma {:induction false} RestBetween(run: seq<State>, i: nat, j: nat)
    requires i <= j < |run| && run[i].stopped && run[i].wg == 0
    requires forall k: nat :: k + 1 < |run| ==> RestsOn(run, k)
    ensures run[j].stopped && run[j].wg == 0
    ensures |run[j].loops| == |run[i].loops| && |run[j].execs| == |run[i].execs|
  {
    if i < j {
      RestBetween(run, i, j - 1);
      assert RestsOn(run, j - 1);
    }
  }

  lemma RestAlong(run: seq<State>, actions: seq<Action>, i: nat, j: nat)
    requires IsRun(run, actions) && i <= j < |run|
    requires run[i].stopped && run[i].wg == 0
    ensures run[j].stopped && run[j].wg == 0
    ensures |run[j].loops| == |run[i].loops| && |run[j].execs| == |run[i].execs|
  {
    forall k: nat | k + 1 < |run|
      ensures RestsOn(run, k)
    {
      RestStep(run, actions, k);
    }
    RestBetween(run, i, j);
  }

  lemma ReturnedStep(run: seq<State>, actions: seq<Action>, k: nat, call: nat)
    requires IsRun(run, actions) && k < |actions| && call < |run[k].stops| && run[k].stops[call].Returned?
    ensures call < |run[k + 1].stops| && run[k + 1].stops[call].Returned?
  {
    InvAlong(run, actions, k);
    PathStep(run, actions, k);
    ReturnedSteps(run[k], actions[k], call);
  }

  lemma {:induction false} ReturnedStays(run: seq<State>, actions: seq<Action>, i: nat, j: nat, call: nat)
    requires IsRun(run, actions) && i <= j < |run|
    requires call < |run[i].stops| && run[i].stops[call].Returned?
    ensures call < |run[j].stops| && run[j].stops[call].Returned?
  {
    if i < j {
      ReturnedStays(run, actions, i, j - 1, call);
      ReturnedStep(run, actions, j - 1, call);
    }
  }

  /**
   Once any Stop call has returned, in every later state no loop and no execution is alive, none was started since,
   and every status is closed with no active run.
   */
  lemma StopQuiescence(run: seq<State>, actions: seq<Action>, i: nat, j: nat, call: nat)
    requires IsRun(run, actions) && i <= j < |run|
    requires call < |run[i].stops| && run[i].stops[call].Returned?
    ensures Quiescent(run[j])
    ensures |run[j].loops| == |run[i].loops| && |run[j].execs| == |run[i].execs|
  {
    InvAlong(run, actions, i);
    RestAlong(run, actions, i, j);
    ReturnedStays(run, actions, i, j, call);
    InvAlong(run, actions, j);
    RestIsQuiescent(run[j]);
  }

  // ---- Conservation ----

  /** Executions of `id` that have marked their start, whether or not they have recorded a result. */
  predicate HasStarted(x: Exec, id: string) {
    x.id == id && !x.pc.Spawned?
  }

  function CountStarted(xs: seq<Exec>, id: string): nat {
    if xs == [] then 0
    else CountStarted(xs[..|xs| - 1], id) + if HasStarted(xs[|xs| - 1], id) then 1 else 0
  }

  lemma {:induction false} StartedIsActiveOrRecorded(xs: seq<Exec>, id: string)
    ensures CountStarted(xs, id) == CountExecs(xs, ActiveOf(id)) + CountExecs(xs, RecordedOf(id))
  {
    if xs != [] {
      StartedIsActiveOrRecorded(xs[..|xs| - 1], id);
    }
  }

  /**
   In every reachable state, for each id: ActiveRuns counts the executions started and not recorded, Runs counts the
   recorded ones, their sum is the number started, and the history is the last recorded results, numbered.
   */
  lemma RunConservation(s: State, id: string)
    requires Reachable(s) && id in s.store.status
    ensures var e := s.store.status[id];
            && e.status.activeRuns == e.activeRuns == CountExecs(s.execs, ActiveOf(id))
            && e.status.runs == CountExecs(s.execs, RecordedOf(id)) == |LogOf(s, id)|
            && CountStarted(s.execs, id) == e.status.runs + e.status.activeRuns
            && e.history == LastN(Numbered(LogOf(s, id)), s.config.historyLimit)
  {
    ReachableInv(s);
    EntrySummary(s, id);
    StartedIsActiveOrRecorded(s.execs, id);
  }

  /** Recording a result always takes away exactly one active run: the guard in the storage never suppresses it. */
  lemma RecordAlwaysDecrements(s: State, x: nat, payload: Payload, now: int)
    requires Reachable(s) && Enabled(s, ExecRecord(x, payload, now))
    ensures var id := s.execs[x].id;
            var s' := Take(s, ExecRecord(x, payload, now));
            && id in s.store.status && id in s'.store.status
            && s.store.status[id].activeRuns > 0
            && s'.store.status[id].activeRuns == s.store.status[id].activeRuns - 1
  {
    ReachableInv(s);
    var id := s.execs[x].id;
    assert s.loops[s.execs[x].entry].job.id in s.store.status;
    assert EntryLedger(id, s.store.status[id], s.execs, LogOf(s, id), s.config.historyLimit);
    RecordCounts(id, s.execs, x);
    ExecEffects(s, ExecRecord(x, payload, now));
  }

  // ---- Remove ----

  ghost predicate ShowsRemoved(s: State, id: string) {
    TerminalIn(s, id) && s.store.status[id].status.state.Removed?
  }

  lemma RemovedSticks(s: State, a: Action, id: string)
    requires Enabled(s, a) && ShowsRemoved(s, id)
    requires !(a.ScheduleUpsert? && s.lock.job.id == id)
    ensures ShowsRemoved(Take(s, a), id)
  {
    StoreAfter(s, a);
  }

  lemma RemoveMarks(s: State, now: int)
    requires Shape(s) && KnownIds(s) && Enabled(s, RemoveMark(now))
    ensures ShowsRemoved(Take(s, RemoveMark(now)), s.lock.id)
  {
    assert s.loops[s.lock.entry].job.id in s.store.status;
  }

  /**
   A Remove that returns true leaves the state Removed, and no finalizer, execution or Stop changes it, until the id is
   registered again.
   */
  lemma {:induction false} RemoveWinsEveryRace(run: seq<State>, actions: seq<Action>, i: nat, j: nat, id: string)
    requires IsRun(run, actions) && i < j < |run|
    requires actions[i].RemoveMark? && run[i].lock.Removing? && run[i].lock.id == id
    requires forall k :: i < k < j ==> !(actions[k].ScheduleUpsert? && run[k].lock.Scheduling? && run[k].lock.job.id == id)
    ensures ShowsRemoved(run[j], id)
  {
    if j == i + 1 {
      InvAlong(run, actions, i);
      RemoveMarks(run[i], actions[i].now);
    } else {
      RemoveWinsEveryRace(run, actions, i, j - 1, id);
      RemovedSticks(run[j - 1], actions[j - 1], id);
    }
  }

  // ---- Registration ----

  /** Whenever the mutex is free, the scheduler and the storage register the same ids. */
  lemma RegistrationAgreement(s: State)
    requires Reachable(s) && s.lock.Free?
    ensures s.jobs.Keys == s.store.jobs.Keys
  {
    ReachableInv(s);
  }

  /** An id that the scheduler does not know is never refused by the storage as a duplicate. */
  lemma SaveNeverFindsDuplicate(s: State, job: Job)
    requires Reachable(s) && Enabled(s, ScheduleBegin(job)) && !s.stopped && job.id !in s.jobs
    ensures Accepts(s.store, Save(job))
    ensures Take(s, ScheduleBegin(job)).lock == Scheduling(job, false)
  {
    ReachableInv(s);
  }

  /** The loop of an old registration, cleaning up included, never takes a later registration of its id with it. */
  lemma CleanupSparesReplacement(s: State, a: Action, id: string)
    requires Reachable(s) && Enabled(s, a)
    requires (IsEarlyLoopStep(a) && !a.CancelContext?) || IsCleanupStep(a)
    requires id in s.jobs && s.jobs[id] != a.entry
    ensures id in Take(s, a).jobs && Take(s, a).jobs[id] == s.jobs[id]
    ensures Take(s, a).lock.Free? ==> id in Take(s, a).store.jobs
  {
    ReachableInv(s);
    LoopStepSparesOthers(s, a, id);
    KeepsRegistration(s, a);
  }

  // ---- Run budget ----

  ghost predicate OnlyRegistration(s: State, e: nat) {
    e < |s.loops| && forall d :: 0 <= d < |s.loops| && s.loops[d].job.id == s.loops[e].job.id ==> d == e
  }

  /** The results of an id used once all come from its one registration. */
  lemma RecordedBySoleLoop(s: State, e: nat)
    requires ExecsOk(s) && OnlyRegistration(s, e)
    ensures CountExecs(s.execs, RecordedOf(s.loops[e].job.id)) <= CountExecs(s.execs, SpawnedBy(e))
    ensures CountExecs(s.execs, RunOf(e)) == 0 ==>
      CountExecs(s.execs, RecordedOf(s.loops[e].job.id)) == CountExecs(s.execs, SpawnedBy(e))
  {
    var id := s.loops[e].job.id;
    CountExecsBelow(s.execs, RecordedOf(id), SpawnedBy(e));
    if CountExecs(s.execs, RunOf(e)) == 0 {
      CountExecsZero(s.execs, RunOf(e));
      CountExecsSame(s.execs, RecordedOf(id), SpawnedBy(e));
    }
  }

  /** With MaxRuns set and the id used once, no more than MaxRuns results are ever recorded. */
  lemma RunBudget(s: State, e: nat)
    requires Reachable(s) && OnlyRegistration(s, e) && s.loops[e].job.schedule.maxRuns > 0
    ensures s.loops[e].job.id in s.store.status
    ensures s.store.status[s.loops[e].job.id].status.runs <= s.loops[e].job.schedule.maxRuns
  {
    ReachableInv(s);
    var id := s.loops[e].job.id;
    RecordedBySoleLoop(s, e);
    assert BudgetOk(s.loops[e], CountExecs(s.execs, SpawnedBy(e)));
    assert EntryLedger(id, s.store.status[id], s.execs, LogOf(s, id), s.config.historyLimit);
  }

  /**
   A loop that ends without being cancelled and without an end time has, when it finalizes, recorded exactly MaxRuns
   results, has no active run, and its history is the last of them, at most the limit.
   */
  lemma NaturalEndIsComplete(s: State, e: nat)
    requires Reachable(s) && OnlyRegistration(s, e)
    requires s.loops[e].pc.Finalize? && !s.loops[e].cancelled && !s.loops[e].job.schedule.hasEnd
    ensures var id := s.loops[e].job.id;
            && id in s.store.status
            && s.store.status[id].status.runs == s.loops[e].job.schedule.maxRuns > 0
            && s.store.status[id].status.activeRuns == 0
            && |LogOf(s, id)| == s.loops[e].job.schedule.maxRuns
            && s.store.status[id].history == LastN(Numbered(LogOf(s, id)), s.config.historyLimit)
            && |s.store.status[id].history| == Min(s.loops[e].job.schedule.maxRuns, s.config.historyLimit)
  {
    ReachableInv(s);
    var id := s.loops[e].job.id;
    assert BudgetOk(s.loops[e], CountExecs(s.execs, SpawnedBy(e)));
    assert s.loops[e].runsWg == CountExecs(s.execs, RunOf(e));
    RecordedBySoleLoop(s, e);
    NoneActiveAfterWait(s, e);
    EntrySummary(s, id);
  }

  lemma NoneActiveAfterWait(s: State, e: nat)
    requires ExecsOk(s) && OnlyRegistration(s, e) && CountExecs(s.execs, RunOf(e)) == 0
    ensures CountExecs(s.execs, ActiveOf(s.loops[e].job.id)) == 0
  {
    CountExecsZero(s.execs, RunOf(e));
    CountExecsZero(s.execs, ActiveOf(s.loops[e].job.id));
  }

  lemma EntrySummary(s: State, id: string)
    requires LedgerOk(s) && id in s.store.status
    ensures var e := s.store.status[id];
            && e.status.activeRuns == e.activeRuns == CountExecs(s.execs, ActiveOf(id))
            && e.status.runs == CountExecs(s.execs, RecordedOf(id)) == |LogOf(s, id)|
            && e.history == LastN(Numbered(LogOf(s, id)), s.config.historyLimit)
  {
    assert EntryLedger(id, s.store.status[id], s.execs, LogOf(s, id), s.config.historyLimit);
    assert EntryOk(id, s.store.status[id]);
  }

  // ---- Concurrency limit ----

  /**
   With a limit n, the tokens taken are exactly the slots held, so at most n executions are between spawn and release,
   callback included, and releasing a held slot never blocks.
   */
  lemma ConcurrencyLimit(s: State)
    requires Reachable(s) && s.config.limit.Some?
    ensures s.tokens == CountLoops(s.loops, Token) + CountExecs(s.execs, Slot)
    ensures CountExecs(s.execs, Slot) <= s.config.limit.value
    ensures forall x :: 0 <= x < |s.execs| && s.execs[x].pc.Recorded? ==> Enabled(s, ExecRelease(x))
  {
    ReachableInv(s);
    forall x | 0 <= x < |s.execs| && s.execs[x].pc.Recorded?
      ensures Enabled(s, ExecRelease(x))
    {
      ReleaseEnabled(s, x);
    }
  }

  lemma ReleaseEnabled(s: State, x: nat)
    requires TokensOk(s) && ExecAt(s, x, Recorded)
    ensures Enabled(s, ExecRelease(x))
  {
    CountExecsZero(s.execs, Slot);
    assert IsExec(s.execs[x], Slot);
  }

  /** Once everything has ended, every slot that was taken has been given back. */
  lemma EverySlotReturned(s: State)
    requires Reachable(s) && s.config.limit.Some? && s.wg == 0
    ensures s.tokens == 0
  {
    ReachableInv(s);
    ZeroMeansGone(s);
    CountLoopsZero(s.loops, Token);
    CountExecsZero(s.execs, Slot);
  }

  // ---- States ----

  /**
   An id registered once shows Running exactly while it has active runs, Scheduled otherwise, and a final state exactly
   once closed. An id registered again never leaves Scheduled except to Removed.
   */
  lemma StateMeaning(s: State, id: string)
    requires Reachable(s) && id in s.store.status
    ensures var e := s.store.status[id];
      if id in s.reused then e.terminal && (e.status.state.Scheduled? || e.status.state.Removed?)
      else (e.terminal <==> IsFinal(e.status.state)) &&
           (!e.terminal ==> e.status.state == if e.status.activeRuns > 0 then Running else Scheduled)
  {
    ReachableInv(s);
    assert EntryOk(id, s.store.status[id]);
  }
}
