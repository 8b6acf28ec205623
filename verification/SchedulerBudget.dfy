/** How many executions a registration starts. */
module SchedulerBudget {
  import opened JobTypes
  import opened SchedulerModel
  import opened SchedulerCounts
  import opened SchedulerInvariants
  import opened SchedulerCounters

  /** A run is counted before its slot is acquired, so one may still be on its way. */
  predicate RunPending(pc: LoopPc) {
    pc.AcquireSlot? || pc.SpawnRun?
  }

  /** The loop has left its ticking part. */
  predicate Leaving(pc: LoopPc) {
    pc.WaitRuns? || Ended(pc)
  }

  /** The loop has also waited for its executions. */
  predicate Ended(pc: LoopPc) {
    pc.Finalize? || pc.Cleanup? || pc.DeleteJob? || pc.Leave? || pc.Exited?
  }

  ghost predicate BudgetOk(l: Loop, spawned: nat) {
    && l.runs == spawned + (if RunPending(l.pc) then 1 else 0)
    && (l.job.schedule.maxRuns > 0 ==> l.runs <= l.job.schedule.maxRuns)
    && (l.pc.ReadStopped? || l.pc.ReadState? ==> l.cancelled)
    && (Leaving(l.pc) && !l.cancelled ==>
         l.job.schedule.hasEnd || (l.job.schedule.maxRuns > 0 && l.runs == l.job.schedule.maxRuns))
    && (Ended(l.pc) ==> l.runsWg == 0)
  }

  ghost predicate BudgetsOk(s: State) {
    forall e :: 0 <= e < |s.loops| ==> BudgetOk(s.loops[e], CountExecs(s.execs, SpawnedBy(e)))
  }

  lemma SpawnedAfter(s: State, a: Action, e: nat)
    requires Enabled(s, a)
    ensures CountExecs(Take(s, a).execs, SpawnedBy(e)) ==
      CountExecs(s.execs, SpawnedBy(e)) + if a == LoopSpawn(e) then 1 else 0
  {
    if IsExecStep(a) {
      ExecStepMoves(s, a);
      var x := s.execs[a.exec];
      CountExecsUpdate(s.execs, a.exec, x.(pc := NextExecPc(x.pc)), SpawnedBy(e));
    } else if a.LoopSpawn? {
      EarlyFrame(s, a);
      CountExecsAppend(s.execs, Exec(a.entry, s.loops[a.entry].job.id, Spawned), SpawnedBy(e));
    } else {
      CallsRestAfter(s, a);
    }
  }

  /** The loop that takes the step, as it is afterwards. */
  function OwnLoopAfter(s: State, a: Action): Loop
    requires Enabled(s, a) && (IsEarlyLoopStep(a) || IsCleanupStep(a))
  {
    var l := s.loops[a.entry];
    match a
    case CancelContext(_) => l.(cancelled := true)
    case LoopStart(_, elapsed) => l.(pc := if elapsed then Check else ReadStopped)
    case LoopCheck(_, pastEnd) => TopOfLoop(l, pastEnd)
    case LoopAcquire(_) => l.(pc := SpawnRun)
    case LoopSpawn(_) => l.(pc := AwaitTick, runsWg := l.runsWg + 1)
    case LoopSelect(_, tick) => l.(pc := if tick then Check else WaitRuns)
    case LoopReadStopped(_) => l.(pc := ReadState(s.stopped))
    case LoopReadState(_) => l.(pc := WaitRuns, outcome := ContextOutcome(s.store, l.job.id, l.pc.sawStopped))
    case LoopWait(_) => l.(pc := Finalize)
    case LoopFinalize(_, _) => l.(pc := Cleanup)
    case LoopCleanup(_) => l.(pc := if l.job.id in s.jobs && s.jobs[l.job.id] == a.entry then DeleteJob else Leave)
    case LoopDelete(_) => l.(pc := Leave)
    case LoopLeave(_) => l.(pc := Exited, cancelled := true)
  }

  lemma OwnLoopIs(s: State, a: Action)
    requires Enabled(s, a) && (IsEarlyLoopStep(a) || IsCleanupStep(a))
    ensures a.entry < |s.loops| == |Take(s, a).loops|
    ensures Take(s, a).loops[a.entry] == OwnLoopAfter(s, a)
  {
    if IsEarlyLoopStep(a) {
      OwnEarlyLoopIs(s, a);
    }
  }

  lemma OwnEarlyLoopIs(s: State, a: Action)
    requires Enabled(s, a) && IsEarlyLoopStep(a)
    ensures a.entry < |s.loops| == |Take(s, a).loops|
    ensures Take(s, a).loops[a.entry] == OwnLoopAfter(s, a)
  {
  }

  lemma OwnStepKeepsBudget(s: State, a: Action, spawned: nat)
    requires Enabled(s, a) && (IsEarlyLoopStep(a) || IsCleanupStep(a))
    requires BudgetOk(s.loops[a.entry], spawned)
    ensures BudgetOk(OwnLoopAfter(s, a), spawned + if a.LoopSpawn? then 1 else 0)
  {
    if IsTopStep(a) || IsRunStep(a) {
      RunStepKeepsBudget(s, a, spawned);
    } else {
      LateStepKeepsBudget(s, a, spawned);
    }
  }

  lemma RunStepKeepsBudget(s: State, a: Action, spawned: nat)
    requires Enabled(s, a) && (IsTopStep(a) || IsRunStep(a)) && BudgetOk(s.loops[a.entry], spawned)
    ensures BudgetOk(OwnLoopAfter(s, a), spawned + if a.LoopSpawn? then 1 else 0)
  {
  }

  lemma LateStepKeepsBudget(s: State, a: Action, spawned: nat)
    requires Enabled(s, a) && (IsAskStep(a) || IsEndStep(a) || IsCleanupStep(a)) && BudgetOk(s.loops[a.entry], spawned)
    ensures BudgetOk(OwnLoopAfter(s, a), spawned)
  {
    if IsCleanupStep(a) {
      CleanupKeepsBudget(s, a, spawned);
    } else {
      EndStepKeepsBudget(s, a, spawned);
    }
  }

  lemma CleanupKeepsBudget(s: State, a: Action, spawned: nat)
    requires Enabled(s, a) && IsCleanupStep(a) && BudgetOk(s.loops[a.entry], spawned)
    ensures BudgetOk(OwnLoopAfter(s, a), spawned)
  {
  }

  lemma EndStepKeepsBudget(s: State, a: Action, spawned: nat)
    requires Enabled(s, a) && (IsAskStep(a) || IsEndStep(a)) && BudgetOk(s.loops[a.entry], spawned)
    ensures BudgetOk(OwnLoopAfter(s, a), spawned)
  {
  }

  /** Another party can cancel a loop or finish one of its executions, and nothing else. */
  lemma OthersLeaveLoop(s: State, a: Action, e: nat)
    requires CountersOk(s) && ExecsOk(s) && BudgetsOk(s) && Enabled(s, a) && e < |s.loops|
    requires (IsEarlyLoopStep(a) || IsCleanupStep(a)) ==> a.entry != e
    ensures e < |Take(s, a).loops|
    ensures var l, l' := s.loops[e], Take(s, a).loops[e];
            l' == l || l' == l.(cancelled := true) || (l' == l.(runsWg := l.runsWg - 1) && l.runsWg > 0)
  {
    if IsExecStep(a) {
      ExecStepMoves(s, a);
      CountExecsZero(s.execs, RunOf(e));
      if s.execs[a.exec].pc.Released? && s.execs[a.exec].entry == e {
        assert IsExec(s.execs[a.exec], RunOf(e));
      }
    } else if IsEarlyLoopStep(a) {
      EarlyFrame(s, a);
    } else {
      CallsLeaveLoop(s, a, e);
    }
  }

  lemma CallsLeaveLoop(s: State, a: Action, e: nat)
    requires Enabled(s, a) && e < |s.loops| && !IsExecStep(a) && !IsEarlyLoopStep(a)
    requires IsCleanupStep(a) ==> a.entry != e
    ensures e < |Take(s, a).loops|
    ensures Take(s, a).loops[e] == s.loops[e] || Take(s, a).loops[e] == s.loops[e].(cancelled := true)
  {
    if IsCleanupStep(a) {
      CleanupFrame(s, a);
    } else if IsScheduleStep(a) {
      ScheduleFrame(s, a);
    } else if IsRemoveStep(a) {
      RemoveFrame(s, a);
    } else {
      StopFrame(s, a);
    }
  }

  lemma KeepsBudget(s: State, a: Action)
    requires Shape(s) && CountersOk(s) && BudgetsOk(s) && Enabled(s, a)
    ensures BudgetsOk(Take(s, a))
  {
    var s' := Take(s, a);
    forall e | 0 <= e < |s'.loops|
      ensures BudgetOk(s'.loops[e], CountExecs(s'.execs, SpawnedBy(e)))
    {
      KeepsBudgetAt(s, a, e);
    }
  }

  lemma NewLoop(s: State, a: Action)
    requires Enabled(s, a) && |Take(s, a).loops| > |s.loops|
    ensures a.ScheduleSpawn? && |Take(s, a).loops| == |s.loops| + 1
    ensures Take(s, a).loops[|s.loops|] == Loop(s.lock.job, StartWait, 0, false, Completed, 0)
  {
    if IsExecStep(a) {
      ExecStepMoves(s, a);
    } else if IsEarlyLoopStep(a) {
      EarlyFrame(s, a);
    } else if IsCleanupStep(a) {
      CleanupFrame(s, a);
    } else if IsScheduleStep(a) {
      ScheduleFrame(s, a);
    } else if IsRemoveStep(a) {
      RemoveFrame(s, a);
    } else {
      StopFrame(s, a);
    }
  }

  lemma OwnBudgetAt(s: State, a: Action)
    requires BudgetsOk(s) && Enabled(s, a) && (IsEarlyLoopStep(a) || IsCleanupStep(a))
    ensures a.entry < |s.loops| == |Take(s, a).loops|
    ensures BudgetOk(Take(s, a).loops[a.entry], CountExecs(Take(s, a).execs, SpawnedBy(a.entry)))
  {
    SpawnedAfter(s, a, a.entry);
    OwnLoopIs(s, a);
    OwnStepKeepsBudget(s, a, CountExecs(s.execs, SpawnedBy(a.entry)));
  }

  lemma OtherBudgetAt(s: State, a: Action, e: nat)
    requires CountersOk(s) && ExecsOk(s) && BudgetsOk(s) && Enabled(s, a) && e < |s.loops|
    requires (IsEarlyLoopStep(a) || IsCleanupStep(a)) ==> a.entry != e
    ensures e < |Take(s, a).loops|
    ensures BudgetOk(Take(s, a).loops[e], CountExecs(Take(s, a).execs, SpawnedBy(e)))
  {
    SpawnedAfter(s, a, e);
    OthersLeaveLoop(s, a, e);
    assert BudgetOk(s.loops[e], CountExecs(s.execs, SpawnedBy(e)));
  }

  lemma NewBudgetAt(s: State, a: Action, e: nat)
    requires ExecsOk(s) && Enabled(s, a) && |s.loops| <= e < |Take(s, a).loops|
    ensures BudgetOk(Take(s, a).loops[e], CountExecs(Take(s, a).execs, SpawnedBy(e)))
  {
    SpawnedAfter(s, a, e);
    NewLoop(s, a);
    CountExecsZero(s.execs, SpawnedBy(e));
  }

  lemma KeepsBudgetAt(s: State, a: Action, e: nat)
    requires Shape(s) && CountersOk(s) && BudgetsOk(s) && Enabled(s, a) && e < |Take(s, a).loops|
    ensures BudgetOk(Take(s, a).loops[e], CountExecs(Take(s, a).execs, SpawnedBy(e)))
  {
    if e >= |s.loops| {
      NewBudgetAt(s, a, e);
    } else if (IsEarlyLoopStep(a) || IsCleanupStep(a)) && a.entry == e {
      OwnBudgetAt(s, a);
    } else {
      OtherBudgetAt(s, a, e);
    }
  }

  /** Once cancelled, a loop counts no further run. */
  lemma CancelledRunsFrozen(s: State, a: Action, e: nat)
    requires CountersOk(s) && ExecsOk(s) && BudgetsOk(s) && Enabled(s, a)
    requires e < |s.loops| && s.loops[e].cancelled
    ensures e < |Take(s, a).loops| && Take(s, a).loops[e].cancelled && Take(s, a).loops[e].runs == s.loops[e].runs
  {
    if (IsEarlyLoopStep(a) || IsCleanupStep(a)) && a.entry == e {
      OwnLoopIs(s, a);
      OwnRunsFrozen(s, a);
    } else {
      OthersLeaveLoop(s, a, e);
    }
  }

  lemma OwnRunsFrozen(s: State, a: Action)
    requires Enabled(s, a) && (IsEarlyLoopStep(a) || IsCleanupStep(a)) && s.loops[a.entry].cancelled
    ensures OwnLoopAfter(s, a).cancelled && OwnLoopAfter(s, a).runs == s.loops[a.entry].runs
  {
  }
}
