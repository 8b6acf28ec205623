/** The stored counters and histories are an exact account of the executions. */
module SchedulerLedger {
  import opened JobTypes
  import opened MemoryStorage
  import opened SchedulerModel
  import opened SchedulerCounts
  import opened SchedulerInvariants
  import opened SchedulerCounters

  /** All results of a job, numbered from one in the order they were recorded. */
  function Numbered(log: seq<Payload>): seq<JobRun> {
    seq(|log|, i requires 0 <= i < |log| => JobRun(i + 1, log[i]))
  }

  /** The entry of `id` counts its executions and retains its latest results. */
  ghost predicate EntryLedger(id: string, e: StatusEntry, execs: seq<Exec>, log: seq<Payload>, limit: nat) {
    && limit > 0
    && e.activeRuns == CountExecs(execs, ActiveOf(id))
    && e.lastSequence == CountExecs(execs, RecordedOf(id))
    && e.lastSequence == |log|
    && e.history == LastN(Numbered(log), limit)
  }

  /** Every id that the scheduler works on has a status. */
  ghost predicate KnownIds(s: State) {
    && s.config.historyLimit > 0
    && (s.config.limit.Some? ==> s.config.limit.value > 0)
    && StoreOk(s.store)
    && (forall e :: 0 <= e < |s.loops| ==> s.loops[e].job.id in s.store.status)
    && (s.lock.Scheduling? && s.lock.upserted ==> s.lock.job.id in s.store.status)
    && (forall id :: id in s.log ==> id in s.store.status)
  }

  ghost predicate EntriesOk(s: State) {
    forall id :: id in s.store.status ==>
      EntryLedger(id, s.store.status[id], s.execs, LogOf(s, id), s.config.historyLimit)
  }

  ghost predicate LedgerOk(s: State) {
    KnownIds(s) && EntriesOk(s)
  }

  // ---- Steps that neither start nor record an execution ----

  predicate TouchesLedger(a: Action) {
    a.ExecStart? || a.ExecRecord? || a.ScheduleUpsert?
  }

  ghost predicate SameLedger(e: StatusEntry, e': StatusEntry) {
    e'.activeRuns == e.activeRuns && e'.lastSequence == e.lastSequence && e'.history == e.history
  }

  /** A storage write other than a start or a record keeps the account of every entry. */
  lemma WriteKeepsAccount(store: Store, op: Op)
    requires op.Save? || op.Delete? || op.MarkRemoved? || op.MarkTerminal?
    ensures Apply(store, op).status.Keys == store.status.Keys
    ensures forall id :: id in store.status ==> SameLedger(store.status[id], Apply(store, op).status[id])
  {
  }

  /** The one storage write of a step, if it makes one. */
  function WriteOf(s: State, a: Action): Option<Op>
    requires Enabled(s, a)
  {
    match a
    case ScheduleBegin(job) => if s.stopped || job.id in s.jobs then None else Some(Save(job))
    case ScheduleUpsert(now) => Some(UpsertStatus(s.lock.job.id, Scheduled, now))
    case RemoveDelete => Some(Delete(s.lock.id))
    case RemoveMark(now) => Some(MarkRemoved(s.lock.id, now))
    case StopDelete => Some(Delete(s.lock.at.id))
    case StopMark(now) => Some(MarkTerminal(s.lock.at.id, Stopped, now))
    case LoopFinalize(e, now) => Some(MarkTerminal(s.loops[e].job.id, s.loops[e].outcome, now))
    case LoopDelete(e) => Some(Delete(s.loops[e].job.id))
    case ExecStart(x, now) => Some(MarkExecutionStart(s.execs[x].id, now))
    case ExecRecord(x, payload, now) => Some(RecordExecutionResult(s.execs[x].id, payload, s.config.historyLimit, now))
    case _ => None
  }

  lemma StoreAfter(s: State, a: Action)
    requires Enabled(s, a)
    ensures Take(s, a).store == if WriteOf(s, a).Some? then Apply(s.store, WriteOf(s, a).value) else s.store
  {
    if IsExecStep(a) || IsEarlyLoopStep(a) || IsCleanupStep(a) {
      WorkStoreAfter(s, a);
    }
  }

  lemma WorkStoreAfter(s: State, a: Action)
    requires Enabled(s, a) && (IsExecStep(a) || IsEarlyLoopStep(a) || IsCleanupStep(a))
    ensures Take(s, a).store == if WriteOf(s, a).Some? then Apply(s.store, WriteOf(s, a).value) else s.store
  {
    if IsExecStep(a) {
      ExecStoreAfter(s, a);
    } else if IsCleanupStep(a) {
      CleanupStoreAfter(s, a);
    } else {
      EarlyStoreAfter(s, a);
    }
  }

  lemma ExecStoreAfter(s: State, a: Action)
    requires Enabled(s, a) && IsExecStep(a)
    ensures Take(s, a).store == if WriteOf(s, a).Some? then Apply(s.store, WriteOf(s, a).value) else s.store
  {
  }

  lemma CleanupStoreAfter(s: State, a: Action)
    requires Enabled(s, a) && IsCleanupStep(a)
    ensures Take(s, a).store == if WriteOf(s, a).Some? then Apply(s.store, WriteOf(s, a).value) else s.store
  {
  }

  lemma EarlyStoreAfter(s: State, a: Action)
    requires Enabled(s, a) && IsEarlyLoopStep(a)
    ensures Take(s, a).store == if WriteOf(s, a).Some? then Apply(s.store, WriteOf(s, a).value) else s.store
  {
  }

  lemma RestAfter(s: State, a: Action)
    requires Enabled(s, a) && !a.ExecRecord?
    ensures Take(s, a).log == s.log && Take(s, a).config == s.config
  {
    if IsExecStep(a) {
      ExecStepMoves(s, a);
      ExecFrame(s, a);
    } else {
      CallsRestAfter(s, a);
    }
  }

  /** Outside starts and records, no execution changes its place in a job's counters. */
  lemma CountsUnchanged(s: State, a: Action, id: string)
    requires Enabled(s, a) && !TouchesLedger(a)
    ensures CountExecs(Take(s, a).execs, ActiveOf(id)) == CountExecs(s.execs, ActiveOf(id))
    ensures CountExecs(Take(s, a).execs, RecordedOf(id)) == CountExecs(s.execs, RecordedOf(id))
  {
    if IsExecStep(a) {
      ExecStepMoves(s, a);
      StepsCountAlike(s, a);
      AdvanceUncounted(s.execs, a.exec, id);
    } else if a.LoopSpawn? {
      EarlyFrame(s, a);
      CountExecsAppend(s.execs, Exec(a.entry, s.loops[a.entry].job.id, Spawned), ActiveOf(id));
      CountExecsAppend(s.execs, Exec(a.entry, s.loops[a.entry].job.id, Spawned), RecordedOf(id));
    } else {
      CallsRestAfter(s, a);
    }
  }

  lemma StepsCountAlike(s: State, a: Action)
    requires Enabled(s, a) && IsExecStep(a) && !TouchesLedger(a)
    ensures a.exec < |s.execs| && !s.execs[a.exec].pc.Spawned? && !s.execs[a.exec].pc.Started?
  {
  }

  lemma AdvanceUncounted(xs: seq<Exec>, i: nat, id: string)
    requires i < |xs| && !xs[i].pc.Spawned? && !xs[i].pc.Started?
    ensures var xs' := xs[i := xs[i].(pc := NextExecPc(xs[i].pc))];
            && CountExecs(xs', ActiveOf(id)) == CountExecs(xs, ActiveOf(id))
            && CountExecs(xs', RecordedOf(id)) == CountExecs(xs, RecordedOf(id))
  {
    CountExecsUpdate(xs, i, xs[i].(pc := NextExecPc(xs[i].pc)), ActiveOf(id));
    CountExecsUpdate(xs, i, xs[i].(pc := NextExecPc(xs[i].pc)), RecordedOf(id));
  }

  lemma AccountUnchanged(s: State, a: Action)
    requires Enabled(s, a) && !TouchesLedger(a) && StoreOk(s.store)
    ensures Take(s, a).store.status.Keys == s.store.status.Keys
    ensures forall id :: id in s.store.status ==> SameLedger(s.store.status[id], Take(s, a).store.status[id])
    ensures StoreOk(Take(s, a).store)
  {
    StoreAfter(s, a);
    if WriteOf(s, a).Some? {
      WriteKeepsAccount(s.store, WriteOf(s, a).value);
      ApplyKeepsStoreOk(s.store, WriteOf(s, a).value);
    }
  }

  /** Registrations keep their jobs; a new one comes from the Schedule call that holds the mutex. */
  lemma JobsOfLoops(s: State, a: Action)
    requires Enabled(s, a) && Shape(s)
    ensures |s.loops| <= |Take(s, a).loops| <= |s.loops| + 1
    ensures forall e :: 0 <= e < |s.loops| ==> Take(s, a).loops[e].job == s.loops[e].job
    ensures |Take(s, a).loops| > |s.loops| ==>
      a.ScheduleSpawn? && Take(s, a).loops[|s.loops|] == Loop(s.lock.job, StartWait, 0, false, Completed, 0)
  {
    if IsExecStep(a) {
      ExecStepIsQuiet(s, a);
    } else if IsEarlyLoopStep(a) {
      LoopStepIsQuiet(s, a);
    }
  }

  lemma SchedulingAfter(s: State, a: Action)
    requires Enabled(s, a) && Take(s, a).lock.Scheduling? && Take(s, a).lock.upserted
    ensures Take(s, a).lock == s.lock || (a.ScheduleUpsert? && Take(s, a).lock == Scheduling(s.lock.job, true))
  {
    if IsExecStep(a) {
      ExecFrame(s, a);
    } else if IsEarlyLoopStep(a) {
      EarlyFrame(s, a);
    } else if IsStopStep(a) {
      StopSchedulesNothing(s, a);
    } else if IsRemoveStep(a) {
      RemoveSchedulesNothing(s, a);
    }
  }

  lemma StopSchedulesNothing(s: State, a: Action)
    requires Enabled(s, a) && IsStopStep(a)
    ensures Take(s, a).lock.Scheduling? ==> Take(s, a).lock == s.lock
  {
  }

  lemma RemoveSchedulesNothing(s: State, a: Action)
    requires Enabled(s, a) && IsRemoveStep(a)
    ensures !Take(s, a).lock.Scheduling?
  {
  }

  lemma EntriesCarryOver(s: State, s': State)
    requires EntriesOk(s)
    requires s'.store.status.Keys == s.store.status.Keys && s'.log == s.log && s'.config == s.config
    requires forall id :: id in s.store.status ==> SameLedger(s.store.status[id], s'.store.status[id])
    requires forall id :: CountExecs(s'.execs, ActiveOf(id)) == CountExecs(s.execs, ActiveOf(id))
    requires forall id :: CountExecs(s'.execs, RecordedOf(id)) == CountExecs(s.execs, RecordedOf(id))
    ensures EntriesOk(s')
  {
    forall id | id in s'.store.status
      ensures EntryLedger(id, s'.store.status[id], s'.execs, LogOf(s', id), s'.config.historyLimit)
    {
      assert EntryLedger(id, s.store.status[id], s.execs, LogOf(s, id), s.config.historyLimit);
      assert SameLedger(s.store.status[id], s'.store.status[id]);
    }
  }

  lemma OthersKeepEntries(s: State, a: Action)
    requires KnownIds(s) && EntriesOk(s) && Enabled(s, a) && !TouchesLedger(a)
    ensures EntriesOk(Take(s, a))
  {
    var s' := Take(s, a);
    AccountUnchanged(s, a);
    RestAfter(s, a);
    forall id
      ensures CountExecs(s'.execs, ActiveOf(id)) == CountExecs(s.execs, ActiveOf(id))
      ensures CountExecs(s'.execs, RecordedOf(id)) == CountExecs(s.execs, RecordedOf(id))
    {
      CountsUnchanged(s, a, id);
    }
    EntriesCarryOver(s, s');
  }

  /** Ids stay known when statuses are only added. */
  lemma KnownCarriesOver(s: State, s': State, a: Action)
    requires Shape(s) && KnownIds(s) && Enabled(s, a) && s' == Take(s, a)
    requires StoreOk(s'.store) && s.store.status.Keys <= s'.store.status.Keys && s'.config == s.config
    requires forall id :: id in s'.log ==> id in s'.store.status
    requires a.ScheduleUpsert? ==> s.lock.job.id in s'.store.status
    ensures KnownIds(s')
  {
    JobsOfLoops(s, a);
    if s'.lock.Scheduling? && s'.lock.upserted {
      SchedulingAfter(s, a);
    }
  }

  lemma OthersKeepLedger(s: State, a: Action)
    requires Shape(s) && LedgerOk(s) && Enabled(s, a) && !TouchesLedger(a)
    ensures LedgerOk(Take(s, a))
  {
    OthersKeepEntries(s, a);
    AccountUnchanged(s, a);
    RestAfter(s, a);
    KnownCarriesOver(s, Take(s, a), a);
  }

  // ---- Starts, records and first registrations ----

  /** The executions of a job that has no status yet: none. */
  lemma UnknownHasNoExecs(s: State, id: string)
    requires ExecsOk(s) && KnownIds(s) && id !in s.store.status
    ensures CountExecs(s.execs, ActiveOf(id)) == 0 && CountExecs(s.execs, RecordedOf(id)) == 0
  {
    CountExecsZero(s.execs, ActiveOf(id));
    CountExecsZero(s.execs, RecordedOf(id));
  }

  lemma UpsertOnEntry(store: Store, id: string, now: int, other: string)
    requires other in Apply(store, UpsertStatus(id, Scheduled, now)).status
    ensures var e := Apply(store, UpsertStatus(id, Scheduled, now)).status[other];
            if other in store.status then SameLedger(store.status[other], e)
            else e.activeRuns == 0 && e.lastSequence == 0 && e.history == []
  {
  }

  lemma UpsertEntries(s: State, s': State, id: string, now: int)
    requires ExecsOk(s) && LedgerOk(s)
    requires s'.execs == s.execs && s'.log == s.log && s'.config == s.config
    requires s'.store == Apply(s.store, UpsertStatus(id, Scheduled, now))
    ensures EntriesOk(s')
  {
    forall other | other in s'.store.status
      ensures EntryLedger(other, s'.store.status[other], s'.execs, LogOf(s', other), s'.config.historyLimit)
    {
      UpsertOnEntry(s.store, id, now, other);
      if other in s.store.status {
        assert EntryLedger(other, s.store.status[other], s.execs, LogOf(s, other), s.config.historyLimit);
      } else {
        UnknownHasNoExecs(s, other);
        assert Numbered([]) == [];
      }
    }
  }

  lemma UpsertKeepsLedger(s: State, a: Action)
    requires Shape(s) && LedgerOk(s) && Enabled(s, a) && a.ScheduleUpsert?
    ensures LedgerOk(Take(s, a))
  {
    ApplyKeepsStoreOk(s.store, UpsertStatus(s.lock.job.id, Scheduled, a.now));
    KnownCarriesOver(s, Take(s, a), a);
    UpsertEntries(s, Take(s, a), s.lock.job.id, a.now);
  }

  lemma StartEntry(id: string, e: StatusEntry, execs: seq<Exec>, x: nat, log: seq<Payload>, limit: nat, now: int)
    requires EntryLedger(id, e, execs, log, limit) && x < |execs| && execs[x].id == id && execs[x].pc.Spawned?
    ensures EntryLedger(id, Start(e, now), execs[x := execs[x].(pc := Started)], log, limit)
  {
    CountExecsUpdate(execs, x, execs[x].(pc := Started), ActiveOf(id));
    CountExecsUpdate(execs, x, execs[x].(pc := Started), RecordedOf(id));
  }

  lemma RetainOneMore(log: seq<Payload>, payload: Payload, limit: nat)
    requires limit > 0
    ensures LastN(LastN(Numbered(log), limit) + [JobRun(|log| + 1, payload)], limit)
         == LastN(Numbered(log + [payload]), limit)
  {
    assert Numbered(log + [payload]) == Numbered(log) + [JobRun(|log| + 1, payload)];
    LastNAppend(Numbered(log), JobRun(|log| + 1, payload), limit);
  }

  lemma LastNAppend<T>(s: seq<T>, x: T, n: nat)
    requires n > 0
    ensures LastN(LastN(s, n) + [x], n) == LastN(s + [x], n)
  {
    if |s| > n {
      assert (s[|s| - n..] + [x])[1..] == s[|s| - n + 1..] + [x];
      assert (s + [x])[|s| + 1 - n..] == s[|s| - n + 1..] + [x];
    } else if |s| == n {
      assert LastN(s, n) == s;
    }
  }

  lemma RecordEntry(id: string, e: StatusEntry, execs: seq<Exec>, x: nat, log: seq<Payload>, limit: nat,
                    payload: Payload, now: int)
    requires EntryLedger(id, e, execs, log, limit) && x < |execs| && execs[x].id == id && execs[x].pc.Started?
    requires limit > 0
    ensures e.activeRuns > 0
    ensures EntryLedger(id, Record(e, payload, limit, now), execs[x := execs[x].(pc := Recorded)], log + [payload], limit)
  {
    RecordCounts(id, execs, x);
    RetainOneMore(log, payload, limit);
  }

  lemma RecordCounts(id: string, execs: seq<Exec>, x: nat)
    requires x < |execs| && execs[x].id == id && execs[x].pc.Started?
    ensures var after := execs[x := execs[x].(pc := Recorded)];
            && CountExecs(execs, ActiveOf(id)) > 0
            && CountExecs(after, ActiveOf(id)) == CountExecs(execs, ActiveOf(id)) - 1
            && CountExecs(after, RecordedOf(id)) == CountExecs(execs, RecordedOf(id)) + 1
  {
    CountExecsUpdate(execs, x, execs[x].(pc := Recorded), ActiveOf(id));
    CountExecsUpdate(execs, x, execs[x].(pc := Recorded), RecordedOf(id));
  }

  lemma OtherEntry(id: string, e: StatusEntry, execs: seq<Exec>, x: nat, pc: ExecPc, log: seq<Payload>, limit: nat)
    requires EntryLedger(id, e, execs, log, limit) && x < |execs| && execs[x].id != id
    ensures EntryLedger(id, e, execs[x := execs[x].(pc := pc)], log, limit)
  {
    CountExecsUpdate(execs, x, execs[x].(pc := pc), ActiveOf(id));
    CountExecsUpdate(execs, x, execs[x].(pc := pc), RecordedOf(id));
  }

  /** One entry, its executions and its log move together; the others stay. */
  lemma ReplaceEntry(s: State, s': State, id: string, e: StatusEntry, x: nat, pc: ExecPc)
    requires EntriesOk(s) && id in s.store.status && x < |s.execs| && s.execs[x].id == id
    requires s'.store.status == s.store.status[id := e] && s'.config == s.config
    requires s'.execs == s.execs[x := s.execs[x].(pc := pc)]
    requires forall other :: other != id ==> LogOf(s', other) == LogOf(s, other)
    requires EntryLedger(id, e, s'.execs, LogOf(s', id), s.config.historyLimit)
    ensures EntriesOk(s')
  {
    forall other | other in s.store.status && other != id
      ensures EntryLedger(other, s'.store.status[other], s'.execs, LogOf(s', other), s'.config.historyLimit)
    {
      assert EntryLedger(other, s.store.status[other], s.execs, LogOf(s, other), s.config.historyLimit);
      OtherEntry(other, s.store.status[other], s.execs, x, pc, LogOf(s, other), s.config.historyLimit);
    }
  }

  lemma StartKeepsEntries(s: State, s': State, x: nat, now: int)
    requires EntriesOk(s) && x < |s.execs| && s.execs[x].pc.Spawned? && s.execs[x].id in s.store.status
    requires s'.store.status == s.store.status[s.execs[x].id := Start(s.store.status[s.execs[x].id], now)]
    requires s'.execs == s.execs[x := s.execs[x].(pc := Started)] && s'.config == s.config && s'.log == s.log
    ensures EntriesOk(s')
  {
    var id := s.execs[x].id;
    StartEntry(id, s.store.status[id], s.execs, x, LogOf(s, id), s.config.historyLimit, now);
    ReplaceEntry(s, s', id, Start(s.store.status[id], now), x, Started);
  }

  lemma RecordKeepsEntries(s: State, s': State, x: nat, payload: Payload, now: int)
    requires EntriesOk(s) && x < |s.execs| && s.execs[x].pc.Started? && s.execs[x].id in s.store.status
    requires s.config.historyLimit > 0
    requires s'.store.status ==
      s.store.status[s.execs[x].id := Record(s.store.status[s.execs[x].id], payload, s.config.historyLimit, now)]
    requires s'.execs == s.execs[x := s.execs[x].(pc := Recorded)] && s'.config == s.config
    requires s'.log == s.log[s.execs[x].id := LogOf(s, s.execs[x].id) + [payload]]
    ensures EntriesOk(s')
  {
    var id := s.execs[x].id;
    RecordEntry(id, s.store.status[id], s.execs, x, LogOf(s, id), s.config.historyLimit, payload, now);
    ReplaceEntry(s, s', id, Record(s.store.status[id], payload, s.config.historyLimit, now), x, Recorded);
  }

  lemma ExecKeepsKnown(s: State, a: Action)
    requires Shape(s) && KnownIds(s) && Enabled(s, a) && (a.ExecStart? || a.ExecRecord?)
    ensures KnownIds(Take(s, a))
    ensures s.execs[a.exec].id in s.store.status
  {
    assert s.loops[s.execs[a.exec].entry].job.id in s.store.status;
    ExecEffects(s, a);
    StoreAfter(s, a);
    ApplyKeepsStoreOk(s.store, WriteOf(s, a).value);
    KnownCarriesOver(s, Take(s, a), a);
  }

  lemma ExecEffects(s: State, a: Action)
    requires Enabled(s, a) && (a.ExecStart? || a.ExecRecord?)
    requires s.execs[a.exec].id in s.store.status && s.config.historyLimit > 0
    ensures var s', id := Take(s, a), s.execs[a.exec].id;
            && s'.config == s.config
            && s'.execs == s.execs[a.exec := s.execs[a.exec].(pc := if a.ExecStart? then Started else Recorded)]
            && s'.log == (if a.ExecStart? then s.log else s.log[id := LogOf(s, id) + [a.payload]])
            && s'.store.status == s.store.status[
                 id := if a.ExecStart? then Start(s.store.status[id], a.now)
                       else Record(s.store.status[id], a.payload, s.config.historyLimit, a.now)]
  {
  }

  lemma ExecKeepsLedger(s: State, a: Action)
    requires Shape(s) && LedgerOk(s) && Enabled(s, a) && (a.ExecStart? || a.ExecRecord?)
    ensures LedgerOk(Take(s, a))
  {
    ExecKeepsKnown(s, a);
    if a.ExecStart? {
      StartKeepsLedger(s, a);
    } else {
      RecordKeepsLedger(s, a);
    }
  }

  lemma StartKeepsLedger(s: State, a: Action)
    requires Shape(s) && LedgerOk(s) && Enabled(s, a) && a.ExecStart?
    ensures EntriesOk(Take(s, a))
  {
    KnownExec(s, a.exec);
    ExecEffects(s, a);
    StartKeepsEntries(s, Take(s, a), a.exec, a.now);
  }

  lemma RecordKeepsLedger(s: State, a: Action)
    requires Shape(s) && LedgerOk(s) && Enabled(s, a) && a.ExecRecord?
    ensures EntriesOk(Take(s, a))
  {
    KnownExec(s, a.exec);
    ExecEffects(s, a);
    RecordKeepsEntries(s, Take(s, a), a.exec, a.payload, a.now);
  }

  lemma KnownExec(s: State, x: nat)
    requires ExecsOk(s) && KnownIds(s) && x < |s.execs|
    ensures s.execs[x].id in s.store.status
  {
    assert s.loops[s.execs[x].entry].job.id in s.store.status;
  }

  lemma KeepsLedger(s: State, a: Action)
    requires Shape(s) && LedgerOk(s) && Enabled(s, a)
    ensures LedgerOk(Take(s, a))
  {
    if a.ScheduleUpsert? {
      UpsertKeepsLedger(s, a);
    } else if a.ExecStart? || a.ExecRecord? {
      ExecKeepsLedger(s, a);
    } else {
      OthersKeepLedger(s, a);
    }
  }
}
