/** Which state a status can show, and when its terminal flag must be set. */
module SchedulerLifecycle {
  import opened JobTypes
  import opened MemoryStorage
  import opened SchedulerModel
  import opened SchedulerInvariants
  import opened SchedulerLedger
  import opened SchedulerCounters

  /**
   A first registration shows Running or Scheduled by its active runs until it ends, and a final state afterwards.
   A later registration of the same id finds the terminal flag set, so it shows Scheduled or, once removed, Removed.
   */
  ghost predicate StateOk(e: StatusEntry, again: bool) {
    if again then e.terminal && (e.status.state.Scheduled? || e.status.state.Removed?)
    else if e.terminal then IsFinal(e.status.state)
    else e.status.state == if e.activeRuns > 0 then Running else Scheduled
  }

  ghost predicate StatesOk(s: State) {
    && s.reused <= s.store.status.Keys
    && (forall id :: id in s.store.status ==> StateOk(s.store.status[id], id in s.reused))
    && (forall e :: 0 <= e < |s.loops| ==> IsFinal(s.loops[e].outcome))
  }

  predicate Finished(pc: LoopPc) {
    pc.Cleanup? || pc.DeleteJob? || pc.Leave? || pc.Exited?
  }

  predicate TerminalIn(s: State, id: string) {
    id in s.store.status && s.store.status[id].terminal
  }

  ghost predicate FinishedOk(s: State) {
    forall e :: 0 <= e < |s.loops| && Finished(s.loops[e].pc) ==> TerminalIn(s, s.loops[e].job.id)
  }

  /** Someone is still responsible for ending the registration of `id`. */
  ghost predicate Owned(s: State, id: string) {
    || id in s.jobs
    || (s.lock.Scheduling? && s.lock.upserted && s.lock.job.id == id)
    || (s.lock.Removing? && s.lock.id == id && (s.lock.phase.Deleting? || s.lock.phase.MarkingRemoved?))
  }

  ghost predicate OpenOk(s: State) {
    && (forall id :: id in s.store.status ==> s.store.status[id].terminal || Owned(s, id))
    && (s.lock.Stopping? ==> forall id :: id in s.jobs && id !in s.lock.todo ==> TerminalIn(s, id))
  }

  ghost predicate LifecycleOk(s: State) {
    StatesOk(s) && FinishedOk(s) && OpenOk(s)
  }

  // ---- One entry ----

  lemma TouchKeepsState(id: string, e: StatusEntry, again: bool, op: Op)
    requires EntryOk(id, e) && StateOk(e, again)
    requires !op.Save? && !op.Delete?
    requires op.MarkTerminal? ==> IsFinal(op.state)
    requires op.UpsertStatus? ==> e.terminal && op.state.Scheduled?
    ensures StateOk(Touch(e, op), again || op.UpsertStatus?)
    ensures e.terminal || op.MarkTerminal? || op.MarkRemoved? ==> Touch(e, op).terminal
  {
  }

  ghost predicate StatusesOk(store: Store, reused: set<string>) {
    && reused <= store.status.Keys
    && (forall id :: id in store.status ==> StateOk(store.status[id], id in reused))
  }

  lemma WriteKeepsStatuses(store: Store, reused: set<string>, op: Op)
    requires StoreOk(store) && StatusesOk(store, reused)
    requires op.MarkTerminal? ==> IsFinal(op.state)
    requires op.UpsertStatus? ==> op.state.Scheduled? && (op.id in store.status ==> store.status[op.id].terminal)
    ensures StatusesOk(Apply(store, op), if op.UpsertStatus? && op.id in store.status then reused + {op.id} else reused)
    ensures store.status.Keys <= Apply(store, op).status.Keys
    ensures forall id :: id in store.status && store.status[id].terminal ==> Apply(store, op).status[id].terminal
    ensures (op.MarkTerminal? || op.MarkRemoved?) && op.id in store.status ==> Apply(store, op).status[op.id].terminal
    ensures forall id :: id in Apply(store, op).status && id !in store.status ==> op.UpsertStatus? && op.id == id
  {
    if !op.Save? && !op.Delete? && op.id in store.status {
      TouchKeepsState(op.id, store.status[op.id], op.id in reused, op);
    }
  }

  // ---- One step ----

  lemma UpsertFindsTerminal(s: State)
    requires Shape(s) && OpenOk(s) && s.lock.Scheduling? && !s.lock.upserted
    ensures s.lock.job.id in s.store.status ==> s.store.status[s.lock.job.id].terminal
  {
  }

  lemma ReusedAfter(s: State, a: Action)
    requires Enabled(s, a)
    ensures Take(s, a).reused ==
      if a.ScheduleUpsert? && s.lock.job.id in s.store.status then s.reused + {s.lock.job.id} else s.reused
  {
    if IsExecStep(a) {
      ExecFrame(s, a);
    } else if IsEarlyLoopStep(a) {
      EarlyFrame(s, a);
    } else if IsCleanupStep(a) {
      CleanupFrame(s, a);
    } else if IsScheduleStep(a) {
      ScheduleFrame(s, a);
    } else if IsRemoveStep(a) {
      RemoveFrame(s, a);
    } else {
      StopFrame(s, a);
    }
  }

  /** What a step does to the statuses: they stay well formed, none disappears, and none loses its terminal flag. */
  lemma StepOnStatuses(s: State, a: Action)
    requires Shape(s) && StoreOk(s.store) && StatesOk(s) && OpenOk(s) && Enabled(s, a)
    ensures StatusesOk(Take(s, a).store, Take(s, a).reused)
    ensures s.store.status.Keys <= Take(s, a).store.status.Keys
    ensures forall id :: TerminalIn(s, id) ==> TerminalIn(Take(s, a), id)
    ensures forall id :: id in Take(s, a).store.status && id !in s.store.status ==> a.ScheduleUpsert? && s.lock.job.id == id
  {
    StoreAfter(s, a);
    ReusedAfter(s, a);
    if a.ScheduleUpsert? {
      UpsertFindsTerminal(s);
    }
    if WriteOf(s, a).Some? {
      WriteKeepsStatuses(s.store, s.reused, WriteOf(s, a).value);
    }
  }

  lemma MarksAreTerminal(s: State, a: Action)
    requires Shape(s) && KnownIds(s) && StatesOk(s) && OpenOk(s) && Enabled(s, a)
    ensures a.LoopFinalize? ==> TerminalIn(Take(s, a), s.loops[a.entry].job.id)
    ensures a.RemoveMark? ==> TerminalIn(Take(s, a), s.lock.id)
    ensures a.StopMark? ==> TerminalIn(Take(s, a), s.lock.at.id)
  {
    if a.LoopFinalize? || a.RemoveMark? || a.StopMark? {
      StoreAfter(s, a);
      var op := WriteOf(s, a).value;
      WriteKeepsStatuses(s.store, s.reused, op);
      if a.StopMark? {
        assert s.loops[s.jobs[s.lock.at.id]].job.id in s.store.status;
      }
    }
  }

  lemma OutcomesFinal(s: State, a: Action)
    requires Shape(s) && StatesOk(s) && Enabled(s, a)
    ensures forall e :: 0 <= e < |Take(s, a).loops| ==> IsFinal(Take(s, a).loops[e].outcome)
  {
    var s' := Take(s, a);
    JobsOfLoops(s, a);
    forall e | 0 <= e < |s.loops|
      ensures IsFinal(s'.loops[e].outcome)
    {
      OutcomeChanges(s, a, e);
    }
  }

  lemma OutcomeChanges(s: State, a: Action, e: nat)
    requires Enabled(s, a) && e < |s.loops|
    ensures e < |Take(s, a).loops|
    ensures Take(s, a).loops[e].outcome == s.loops[e].outcome ||
      (a == LoopReadState(e) && IsFinal(Take(s, a).loops[e].outcome))
  {
    if IsExecStep(a) {
      ExecStepMoves(s, a);
    } else if IsEarlyLoopStep(a) {
      EarlyFrame(s, a);
      if a.entry == e {
        OwnOutcome(s, a);
      }
    } else {
      CallsKeepOutcome(s, a, e);
    }
  }

  lemma CallsKeepOutcome(s: State, a: Action, e: nat)
    requires Enabled(s, a) && e < |s.loops| && !IsExecStep(a) && !IsEarlyLoopStep(a)
    ensures e < |Take(s, a).loops| && Take(s, a).loops[e].outcome == s.loops[e].outcome
  {
    if IsCleanupStep(a) {
      CleanupFrame(s, a);
      CleanupKeepsOutcome(s, a);
    } else if IsScheduleStep(a) {
      ScheduleFrame(s, a);
    } else if IsRemoveStep(a) {
      RemoveFrame(s, a);
    } else {
      StopFrame(s, a);
    }
  }

  lemma CleanupKeepsOutcome(s: State, a: Action)
    requires Enabled(s, a) && IsCleanupStep(a)
    ensures a.entry < |s.loops| == |Take(s, a).loops|
    ensures Take(s, a).loops[a.entry].outcome == s.loops[a.entry].outcome
  {
  }

  lemma OwnOutcome(s: State, a: Action)
    requires Enabled(s, a) && IsEarlyLoopStep(a)
    ensures a.entry < |s.loops| == |Take(s, a).loops|
    ensures Take(s, a).loops[a.entry].outcome == s.loops[a.entry].outcome ||
      (a.LoopReadState? && IsFinal(Take(s, a).loops[a.entry].outcome))
  {
  }

  lemma FinishedComesFrom(s: State, a: Action, e: nat)
    requires Shape(s) && Enabled(s, a) && e < |Take(s, a).loops| && Finished(Take(s, a).loops[e].pc)
    ensures e < |s.loops|
    ensures Finished(s.loops[e].pc) || (a.LoopFinalize? && a.entry == e)
  {
    if IsExecStep(a) {
      ExecStepMoves(s, a);
    } else if IsEarlyLoopStep(a) {
      EarlyStepFinishes(s, a, e);
    } else if IsCleanupStep(a) {
      LoopStepMoves(s, a);
      CleanupStartsFinished(s, a);
    } else {
      CallsMoveNoLoop(s, a, e);
    }
  }

  lemma EarlyStepFinishes(s: State, a: Action, e: nat)
    requires Enabled(s, a) && IsEarlyLoopStep(a) && e < |Take(s, a).loops| && Finished(Take(s, a).loops[e].pc)
    ensures e < |s.loops|
    ensures Finished(s.loops[e].pc) || (a.LoopFinalize? && a.entry == e)
  {
    EarlyFrame(s, a);
    if a.entry == e {
      OwnStepFinishes(s, a);
    }
  }

  lemma OwnStepFinishes(s: State, a: Action)
    requires Enabled(s, a) && IsEarlyLoopStep(a)
    ensures a.entry < |s.loops| == |Take(s, a).loops|
    ensures Finished(Take(s, a).loops[a.entry].pc) ==> Finished(s.loops[a.entry].pc) || a.LoopFinalize?
  {
    if IsTopStep(a) || IsRunStep(a) {
      RunStepFinishesNothing(s, a);
    }
  }

  lemma RunStepFinishesNothing(s: State, a: Action)
    requires Enabled(s, a) && (IsTopStep(a) || IsRunStep(a))
    ensures a.entry < |s.loops| == |Take(s, a).loops|
    ensures Finished(Take(s, a).loops[a.entry].pc) ==> Finished(s.loops[a.entry].pc)
  {
  }

  lemma CleanupStartsFinished(s: State, a: Action)
    requires Enabled(s, a) && IsCleanupStep(a)
    ensures a.entry < |s.loops| && Finished(s.loops[a.entry].pc)
  {
  }

  lemma CallsMoveNoLoop(s: State, a: Action, e: nat)
    requires Enabled(s, a) && (IsScheduleStep(a) || IsRemoveStep(a) || IsStopStep(a)) && e < |Take(s, a).loops|
    ensures (e < |s.loops| && Take(s, a).loops[e].pc == s.loops[e].pc) || Take(s, a).loops[e].pc.StartWait?
  {
  }

  lemma KeepsFinished(s: State, a: Action)
    requires Shape(s) && KnownIds(s) && LifecycleOk(s) && Enabled(s, a)
    ensures FinishedOk(Take(s, a))
  {
    var s' := Take(s, a);
    JobsOfLoops(s, a);
    StepOnStatuses(s, a);
    MarksAreTerminal(s, a);
    forall e | 0 <= e < |s'.loops| && Finished(s'.loops[e].pc)
      ensures TerminalIn(s', s'.loops[e].job.id)
    {
      FinishedComesFrom(s, a, e);
    }
  }

  /** Ownership of a registration ends only with its terminal mark. */
  lemma OwnedUntilTerminal(s: State, a: Action, id: string)
    requires Shape(s) && KnownIds(s) && LifecycleOk(s) && Enabled(s, a)
    requires id in s.store.status && Owned(s, id)
    ensures Owned(Take(s, a), id) || TerminalIn(s, id) ||
      (a.RemoveMark? && s.lock.id == id)
  {
    if IsExecStep(a) || IsEarlyLoopStep(a) {
      WorkKeepsOwned(s, a, id);
    } else if IsCleanupStep(a) {
      CleanupKeepsOwned(s, a, id);
    } else {
      CallsKeepOwned(s, a, id);
    }
  }

  lemma WorkKeepsOwned(s: State, a: Action, id: string)
    requires Enabled(s, a) && (IsExecStep(a) || IsEarlyLoopStep(a)) && Owned(s, id)
    ensures Owned(Take(s, a), id)
  {
    if IsExecStep(a) {
      ExecFrame(s, a);
    } else {
      EarlyFrame(s, a);
    }
  }

  lemma CleanupKeepsOwned(s: State, a: Action, id: string)
    requires Shape(s) && FinishedOk(s) && Enabled(s, a) && IsCleanupStep(a) && Owned(s, id)
    ensures Owned(Take(s, a), id) || TerminalIn(s, id)
  {
    CleanupUnregistersOwn(s, a, id);
    if a.LoopCleanup? && id in s.jobs && s.jobs[id] == a.entry {
      assert TerminalIn(s, s.loops[a.entry].job.id);
    }
  }

  lemma CleanupUnregistersOwn(s: State, a: Action, id: string)
    requires Shape(s) && Enabled(s, a) && IsCleanupStep(a) && Owned(s, id)
    ensures Owned(Take(s, a), id) || (a.LoopCleanup? && id in s.jobs && s.jobs[id] == a.entry)
  {
  }

  lemma CallsKeepOwned(s: State, a: Action, id: string)
    requires Shape(s) && OpenOk(s) && Enabled(s, a) && Owned(s, id)
    requires IsScheduleStep(a) || IsRemoveStep(a) || IsStopStep(a)
    ensures Owned(Take(s, a), id) || TerminalIn(s, id) || (a.RemoveMark? && s.lock.id == id)
  {
    if IsStopStep(a) {
      StopKeepsOwned(s, a, id);
    } else if IsRemoveStep(a) {
      RemoveKeepsOwned(s, a, id);
    }
  }

  lemma StopKeepsOwned(s: State, a: Action, id: string)
    requires Shape(s) && OpenOk(s) && Enabled(s, a) && Owned(s, id) && IsStopStep(a)
    ensures Owned(Take(s, a), id) || TerminalIn(s, id)
  {
  }

  lemma RemoveKeepsOwned(s: State, a: Action, id: string)
    requires Shape(s) && Enabled(s, a) && Owned(s, id) && IsRemoveStep(a)
    ensures Owned(Take(s, a), id) || (a.RemoveMark? && s.lock.id == id)
  {
  }

  lemma StoppingAfter(s: State, a: Action, id: string)
    requires Shape(s) && LifecycleOk(s) && Enabled(s, a)
    requires Take(s, a).lock.Stopping? && id in Take(s, a).jobs && id !in Take(s, a).lock.todo
    ensures TerminalIn(s, id) || (a.StopMark? && s.lock.at.id == id)
  {
    if IsExecStep(a) {
      ExecStepIsQuiet(s, a);
    } else if IsEarlyLoopStep(a) {
      LoopStepIsQuiet(s, a);
    } else {
      StoppingAfterCall(s, a, id);
    }
  }

  lemma StoppingAfterCall(s: State, a: Action, id: string)
    requires Shape(s) && OpenOk(s) && Enabled(s, a) && !IsExecStep(a) && !IsEarlyLoopStep(a)
    requires Take(s, a).lock.Stopping? && id in Take(s, a).jobs && id !in Take(s, a).lock.todo
    ensures TerminalIn(s, id) || (a.StopMark? && s.lock.at.id == id)
  {
  }

  lemma KeepsOwned(s: State, a: Action, id: string)
    requires Shape(s) && KnownIds(s) && LifecycleOk(s) && Enabled(s, a)
    requires id in Take(s, a).store.status
    ensures TerminalIn(Take(s, a), id) || Owned(Take(s, a), id)
  {
    StepOnStatuses(s, a);
    MarksAreTerminal(s, a);
    if id in s.store.status {
      if !s.store.status[id].terminal {
        OwnedUntilTerminal(s, a, id);
      }
    } else {
      assert Take(s, a).lock == Scheduling(s.lock.job, true);
    }
  }

  lemma KeepsStopping(s: State, a: Action, id: string)
    requires Shape(s) && KnownIds(s) && LifecycleOk(s) && Enabled(s, a)
    requires Take(s, a).lock.Stopping? && id in Take(s, a).jobs && id !in Take(s, a).lock.todo
    ensures TerminalIn(Take(s, a), id)
  {
    StepOnStatuses(s, a);
    MarksAreTerminal(s, a);
    StoppingAfter(s, a, id);
  }

  lemma KeepsOpen(s: State, a: Action)
    requires Shape(s) && KnownIds(s) && LifecycleOk(s) && Enabled(s, a)
    ensures OpenOk(Take(s, a))
  {
    var s' := Take(s, a);
    forall id | id in s'.store.status
      ensures s'.store.status[id].terminal || Owned(s', id)
    {
      KeepsOwned(s, a, id);
    }
    if s'.lock.Stopping? {
      forall id | id in s'.jobs && id !in s'.lock.todo
        ensures TerminalIn(s', id)
      {
        KeepsStopping(s, a, id);
      }
    }
  }

  lemma KeepsLifecycle(s: State, a: Action)
    requires Shape(s) && KnownIds(s) && LifecycleOk(s) && Enabled(s, a)
    ensures LifecycleOk(Take(s, a))
  {
    StepOnStatuses(s, a);
    OutcomesFinal(s, a);
    KeepsFinished(s, a);
    KeepsOpen(s, a);
  }
}
