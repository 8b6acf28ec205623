/** What the storage holds, in terms of the steps of a run: the jobs that were scheduled and the results that were recorded. */
module SchedulerRecords {
  import opened JobTypes
  import opened MemoryStorage
  import opened SchedulerModel
  import opened SchedulerCounts
  import opened SchedulerInvariants
  import opened SchedulerLedger
  import opened SchedulerTheorems
  import opened SchedulerReasons

  // ---- Results ----

  /** An execution of `id` records its result. */
  predicate RecordsAt(s: State, a: Action, id: string) {
    a.ExecRecord? && a.exec < |s.execs| && s.execs[a.exec].id == id
  }

  /** The results that executions of `id` recorded before `j`, in order. */
  function ResultsOf(run: seq<State>, actions: seq<Action>, id: string, j: nat): seq<Payload>
    requires j <= |actions| < |run|
  {
    if j == 0 then []
    else
      ResultsOf(run, actions, id, j - 1) +
      if RecordsAt(run[j - 1], actions[j - 1], id) then [actions[j - 1].payload] else []
  }

  lemma LogStep(s: State, a: Action, id: string)
    requires Enabled(s, a)
    ensures LogOf(Take(s, a), id) == LogOf(s, id) + if RecordsAt(s, a, id) then [a.payload] else []
  {
    if a.ExecRecord? {
      RecordedLog(s, a);
    } else {
      RestAfter(s, a);
    }
  }

  lemma RecordedLog(s: State, a: Action)
    requires Enabled(s, a) && a.ExecRecord?
    ensures a.exec < |s.execs|
    ensures Take(s, a).log == s.log[s.execs[a.exec].id := LogOf(s, s.execs[a.exec].id) + [a.payload]]
  {
  }

  lemma {:induction false} LogIsResults(run: seq<State>, actions: seq<Action>, j: nat, id: string)
    requires IsRun(run, actions) && j < |run|
    ensures LogOf(run[j], id) == ResultsOf(run, actions, id, j)
  {
    if j > 0 {
      LogIsResults(run, actions, j - 1, id);
      PathStep(run, actions, j - 1);
      LogStep(run[j - 1], actions[j - 1], id);
    }
  }

  /**
   In every run, for each id: Runs counts the results its executions recorded, the history is the last of those results in
   order and numbered from one, as many as the limit, and LastRun is the last one.
   */
  lemma HistoryIsResults(run: seq<State>, actions: seq<Action>, j: nat, id: string)
    requires IsRun(run, actions) && j < |run| && id in run[j].store.status
    ensures EntryHolds(run[j].store.status[id], ResultsOf(run, actions, id, j), run[j].config.historyLimit)
  {
    InvAlong(run, actions, j);
    LogIsResults(run, actions, j, id);
    LedgerHolds(run[j], id);
  }

  /** The entry counts these results and holds the last of them, numbered from one, as many as the limit. */
  ghost predicate EntryHolds(e: StatusEntry, results: seq<Payload>, limit: nat) {
    && e.status.runs == |results|
    && |e.history| == Min(|results|, limit)
    && (forall i :: 0 <= i < |e.history| ==>
         var q := |results| - |e.history| + 1 + i;
         e.history[i] == JobRun(q, results[q - 1]))
    && e.status.lastRun == if results == [] then None else Some(results[|results| - 1])
  }

  lemma LedgerHolds(s: State, id: string)
    requires LedgerOk(s) && id in s.store.status
    ensures EntryHolds(s.store.status[id], LogOf(s, id), s.config.historyLimit)
  {
    EntrySummary(s, id);
    EntryShows(id, s.store.status[id], LogOf(s, id), s.config.historyLimit);
  }

  lemma EntryShows(id: string, e: StatusEntry, results: seq<Payload>, limit: nat)
    requires EntryOk(id, e) && limit > 0
    requires e.status.runs == |results| && e.history == LastN(Numbered(results), limit)
    ensures EntryHolds(e, results, limit)
  {
  }

  // ---- Jobs ----

  /** The stored job of a registered id is the one its loop runs; that of an id being scheduled is the one it will run. */
  ghost predicate StoredAt(s: State, id: string) {
    id in s.store.jobs ==>
      && (id in s.jobs && s.jobs[id] < |s.loops| ==> s.store.jobs[id] == s.loops[s.jobs[id]].job)
      && (s.lock.Scheduling? && s.lock.job.id == id ==> s.store.jobs[id] == s.lock.job)
  }

  lemma JobsWritten(s: State, a: Action, id: string)
    requires Enabled(s, a) && id in Take(s, a).store.jobs
    ensures (id in s.store.jobs && Take(s, a).store.jobs[id] == s.store.jobs[id]) ||
      (a.ScheduleBegin? && a.job.id == id && !s.stopped && id !in s.jobs && Take(s, a).store.jobs[id] == a.job)
  {
    StoreAfter(s, a);
  }

  /** Registrations do not move, and Schedule's lock keeps its job. */
  lemma JobsMove(s: State, a: Action, id: string)
    requires Shape(s) && Enabled(s, a)
    ensures id in Take(s, a).jobs ==>
      || (id in s.jobs && Take(s, a).jobs[id] == s.jobs[id])
      || (a.ScheduleSpawn? && s.lock.Scheduling? && s.lock.job.id == id && Take(s, a).jobs[id] == |s.loops|)
    ensures Take(s, a).lock.Scheduling? ==>
      || (s.lock.Scheduling? && Take(s, a).lock.job == s.lock.job)
      || (a.ScheduleBegin? && Take(s, a).lock.job == a.job && a.job.id !in s.store.jobs)
  {
    if IsExecStep(a) {
      ExecFrame(s, a);
    } else if IsEarlyLoopStep(a) {
      EarlyFrame(s, a);
    } else {
      CallsMoveJobs(s, a, id);
    }
  }

  lemma CallsMoveJobs(s: State, a: Action, id: string)
    requires Shape(s) && Enabled(s, a) && !IsExecStep(a) && !IsEarlyLoopStep(a)
    ensures id in Take(s, a).jobs ==>
      || (id in s.jobs && Take(s, a).jobs[id] == s.jobs[id])
      || (a.ScheduleSpawn? && s.lock.Scheduling? && s.lock.job.id == id && Take(s, a).jobs[id] == |s.loops|)
    ensures Take(s, a).lock.Scheduling? ==>
      || (s.lock.Scheduling? && Take(s, a).lock.job == s.lock.job)
      || (a.ScheduleBegin? && Take(s, a).lock.job == a.job && a.job.id !in s.store.jobs)
  {
  }

  lemma StoredStep(s: State, a: Action, id: string)
    requires Inv(s) && Enabled(s, a) && StoredAt(s, id)
    ensures StoredAt(Take(s, a), id)
  {
    if id in Take(s, a).store.jobs {
      JobsWritten(s, a, id);
      JobsMove(s, a, id);
      JobsOfLoops(s, a);
      if a.ScheduleBegin? {
        BeginStores(s, a, id);
      }
    }
  }

  lemma BeginStores(s: State, a: Action, id: string)
    requires Inv(s) && Enabled(s, a) && a.ScheduleBegin? && StoredAt(s, id)
    ensures StoredAt(Take(s, a), id)
  {
  }

  ghost predicate StoredStays(run: seq<State>, k: nat, id: string)
    requires k + 1 < |run|
  {
    StoredAt(run[k], id) ==> StoredAt(run[k + 1], id)
  }

  lemma StoredStaysAt(run: seq<State>, actions: seq<Action>, k: nat, id: string)
    requires IsRun(run, actions) && k < |actions|
    ensures StoredStays(run, k, id)
  {
    InvAlong(run, actions, k);
    PathStep(run, actions, k);
    if StoredAt(run[k], id) {
      StoredStep(run[k], actions[k], id);
    }
  }

  lemma {:induction false} StoredThroughout(run: seq<State>, j: nat, id: string)
    requires j < |run| && StoredAt(run[0], id)
    requires forall k: nat :: k + 1 < |run| ==> StoredStays(run, k, id)
    ensures StoredAt(run[j], id)
  {
    if j > 0 {
      StoredThroughout(run, j - 1, id);
      assert StoredStays(run, j - 1, id);
    }
  }

  lemma StoredAlong(run: seq<State>, actions: seq<Action>, j: nat, id: string)
    requires IsRun(run, actions) && j < |run|
    ensures StoredAt(run[j], id)
  {
    forall k: nat | k + 1 < |run|
      ensures StoredStays(run, k, id)
    {
      StoredStaysAt(run, actions, k, id);
    }
    StoredThroughout(run, j, id);
  }

  /** Whenever the mutex is free, the storage holds, for each registered id and no other, the very job its loop runs. */
  lemma StoredJobsAreRun(run: seq<State>, actions: seq<Action>, j: nat)
    requires IsRun(run, actions) && j < |run| && run[j].lock.Free?
    ensures run[j].store.jobs.Keys == run[j].jobs.Keys
    ensures forall id :: id in run[j].jobs ==>
      run[j].jobs[id] < |run[j].loops| && run[j].store.jobs[id] == run[j].loops[run[j].jobs[id]].job
  {
    InvAlong(run, actions, j);
    forall id | id in run[j].jobs
      ensures run[j].jobs[id] < |run[j].loops| && run[j].store.jobs[id] == run[j].loops[run[j].jobs[id]].job
    {
      StoredAlong(run, actions, j, id);
    }
  }
}
