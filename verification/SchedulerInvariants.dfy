/** What every step of the scheduler keeps. */
module SchedulerInvariants {
  import opened JobTypes
  import opened SchedulerModel

  // ---- Registrations, locks and calls ----

  /** The loop has not yet passed its own clean-up. */
  predicate Early(pc: LoopPc) {
    !pc.DeleteJob? && !pc.Leave? && !pc.Exited?
  }

  /** The job map names live registrations under their own ids. */
  ghost predicate JobsOk(s: State) {
    forall id :: id in s.jobs ==>
      s.jobs[id] < |s.loops| && s.loops[s.jobs[id]].job.id == id && Early(s.loops[s.jobs[id]].pc)
  }

  ghost predicate RemovingOk(s: State, id: string, e: nat, phase: RemovePhase) {
    && e < |s.loops| && s.loops[e].job.id == id
    && (phase.Cancelling? || phase.Unregistering? ==> id in s.jobs && s.jobs[id] == e)
    && (phase.Deleting? || phase.MarkingRemoved? ==> id !in s.jobs)
    && (!phase.Cancelling? ==> s.loops[e].cancelled)
  }

  ghost predicate StoppingOk(s: State, call: nat, todo: set<string>, at: StopPhase) {
    && s.stopped && call < |s.stops| && s.stops[call].Marking?
    && todo <= s.jobs.Keys
    && (!at.Picking? ==> at.id in todo && s.jobs[at.id] < |s.loops| && s.loops[s.jobs[at.id]].cancelled)
    && (forall id :: id in s.jobs && id !in todo ==> s.jobs[id] < |s.loops| && s.loops[s.jobs[id]].cancelled)
  }

  ghost predicate LockOk(s: State) {
    match s.lock
    case Free => true
    case Scheduling(job, _) => !s.stopped && job.id !in s.jobs
    case Removing(id, e, phase) => !s.stopped && RemovingOk(s, id, e, phase)
    case Stopping(call, todo, at) => StoppingOk(s, call, todo, at)
    case Cleaning(e) => !s.stopped && LoopAt(s, e, DeleteJob) && s.loops[e].job.id !in s.jobs
  }

  /** A loop that is no longer registered has been cancelled or is past its clean-up. */
  ghost predicate LoopsOk(s: State) {
    forall e :: 0 <= e < |s.loops| ==>
      && (Early(s.loops[e].pc) ==>
           s.loops[e].cancelled || (s.loops[e].job.id in s.jobs && s.jobs[s.loops[e].job.id] == e))
      && (s.loops[e].pc.DeleteJob? ==> s.lock == Cleaning(e))
  }

  ghost predicate ExecsOk(s: State) {
    forall x :: 0 <= x < |s.execs| ==>
      s.execs[x].entry < |s.loops| && s.execs[x].id == s.loops[s.execs[x].entry].job.id
  }

  ghost predicate StopsOk(s: State) {
    && (forall c :: 0 <= c < |s.stops| ==>
         && (s.stops[c].Marking? ==> s.lock.Stopping? && s.lock.call == c)
         && (s.stops[c].Waiting? || s.stops[c].Returned? ==> s.stopped && !s.lock.Stopping?))
    && (s.stopped && !s.lock.Stopping? ==> s.jobs == map[])
  }

  ghost predicate Shape(s: State) {
    JobsOk(s) && LockOk(s) && LoopsOk(s) && ExecsOk(s) && StopsOk(s)
  }

  // Steps that leave the mutex, the job map and the calls alone.

  predicate IsExecStep(a: Action) {
    a.ExecStart? || a.ExecRecord? || a.ExecRelease? || a.ExecRunDone? || a.ExecGone?
  }

  predicate IsEarlyLoopStep(a: Action) {
    || a.CancelContext? || a.LoopStart? || a.LoopCheck? || a.LoopAcquire? || a.LoopSpawn? || a.LoopSelect?
    || a.LoopReadStopped? || a.LoopReadState? || a.LoopWait? || a.LoopFinalize?
  }

  predicate IsCleanupStep(a: Action) {
    a.LoopCleanup? || a.LoopDelete? || a.LoopLeave?
  }

  predicate IsScheduleStep(a: Action) {
    a.ScheduleBegin? || a.ScheduleUpsert? || a.ScheduleSpawn?
  }

  predicate IsRemoveStep(a: Action) {
    a.RemoveBegin? || a.RemoveCancel? || a.RemoveUnregister? || a.RemoveDelete? || a.RemoveMark?
  }

  predicate IsStopStep(a: Action) {
    || a.StopBegin? || a.StopEnter? || a.StopCancel? || a.StopDelete? || a.StopMark? || a.StopUnlock? || a.StopReturn?
  }

  // What a step leaves alone, group by group.

  /** Neither the limits nor the record of results changes. */
  predicate SameRecord(s: State, s': State) {
    s'.config == s.config && s'.log == s.log && s'.reused == s.reused
  }

  /** Nothing that only client calls change does. */
  predicate SameCalls(s: State, s': State) {
    s'.stopped == s.stopped && s'.lock == s.lock && s'.jobs == s.jobs && s'.stops == s.stops && s'.reused == s.reused
  }

  /** Neither executions nor the semaphore change. */
  predicate SameWork(s: State, s': State) {
    s'.execs == s.execs && s'.tokens == s.tokens
  }

  lemma ScheduleFrame(s: State, a: Action)
    requires Enabled(s, a) && IsScheduleStep(a)
    ensures var s' := Take(s, a);
            && s'.config == s.config && s'.log == s.log && SameWork(s, s')
            && s'.stopped == s.stopped && s'.stops == s.stops
            && s'.loops == (if a.ScheduleSpawn? then s.loops + [Loop(s.lock.job, StartWait, 0, false, Completed, 0)]
                            else s.loops)
            && s'.wg == s.wg + (if a.ScheduleSpawn? then 1 else 0)
            && s'.reused == (if a.ScheduleUpsert? && s.lock.job.id in s.store.status then s.reused + {s.lock.job.id}
                             else s.reused)
  {
  }

  lemma RemoveFrame(s: State, a: Action)
    requires Enabled(s, a) && IsRemoveStep(a)
    ensures var s' := Take(s, a);
            && SameRecord(s, s') && SameWork(s, s') && s'.wg == s.wg
            && s'.stopped == s.stopped && s'.stops == s.stops
            && s'.loops == (if a.RemoveCancel? then s.loops[s.lock.entry := s.loops[s.lock.entry].(cancelled := true)]
                            else s.loops)
  {
  }

  lemma StopFrame(s: State, a: Action)
    requires Enabled(s, a) && IsStopStep(a)
    ensures var s' := Take(s, a);
            && SameRecord(s, s') && SameWork(s, s') && s'.wg == s.wg
            && s'.loops == (if a.StopCancel? then s.loops[s.jobs[a.id] := s.loops[s.jobs[a.id]].(cancelled := true)]
                            else s.loops)
  {
  }

  lemma CleanupFrame(s: State, a: Action)
    requires Enabled(s, a) && IsCleanupStep(a)
    ensures a.entry < |s.loops|
    ensures var s' := Take(s, a);
            && SameRecord(s, s') && SameWork(s, s')
            && s'.stopped == s.stopped && s'.stops == s.stops
            && |s'.loops| == |s.loops| && s'.loops == s.loops[a.entry := s'.loops[a.entry]]
            && s'.wg == s.wg - (if a.LoopLeave? then 1 else 0)
  {
  }

  /** An early step changes its own loop only, and spawns at most one execution, its own. */
  ghost predicate EarlyEffect(s: State, s': State, a: Action)
    requires IsEarlyLoopStep(a) && a.entry < |s.loops|
  {
    && SameCalls(s, s') && s'.config == s.config && s'.log == s.log && s'.store.jobs == s.store.jobs
    && |s'.loops| == |s.loops| && s'.loops == s.loops[a.entry := s'.loops[a.entry]]
    && SameOutside(s.loops[a.entry], s'.loops[a.entry])
    && s'.execs == (if a.LoopSpawn? then s.execs + [Exec(a.entry, s.loops[a.entry].job.id, Spawned)] else s.execs)
    && s'.wg == s.wg + (if a.LoopSpawn? then 1 else 0)
    && s'.tokens == s.tokens + (if a.LoopAcquire? && s.config.limit.Some? then 1 else 0)
  }

  /** Early steps, in the order of a loop's life. */
  predicate IsTopStep(a: Action) {
    a.CancelContext? || a.LoopStart? || a.LoopCheck?
  }

  predicate IsRunStep(a: Action) {
    a.LoopAcquire? || a.LoopSpawn? || a.LoopSelect?
  }

  predicate IsAskStep(a: Action) {
    a.LoopReadStopped? || a.LoopReadState?
  }

  predicate IsEndStep(a: Action) {
    a.LoopWait? || a.LoopFinalize?
  }

  lemma TopFrame(s: State, a: Action)
    requires Enabled(s, a) && IsTopStep(a)
    ensures a.entry < |s.loops| && EarlyEffect(s, Take(s, a), a)
  {
  }

  lemma RunFrame(s: State, a: Action)
    requires Enabled(s, a) && IsRunStep(a)
    ensures a.entry < |s.loops| && EarlyEffect(s, Take(s, a), a)
  {
  }

  lemma AskFrame(s: State, a: Action)
    requires Enabled(s, a) && IsAskStep(a)
    ensures a.entry < |s.loops| && EarlyEffect(s, Take(s, a), a)
  {
  }

  lemma EndFrame(s: State, a: Action)
    requires Enabled(s, a) && IsEndStep(a)
    ensures a.entry < |s.loops| && EarlyEffect(s, Take(s, a), a)
  {
  }

  lemma EarlyFrame(s: State, a: Action)
    requires Enabled(s, a) && IsEarlyLoopStep(a)
    ensures a.entry < |s.loops| && EarlyEffect(s, Take(s, a), a)
  {
    if IsTopStep(a) {
      TopFrame(s, a);
    } else if IsRunStep(a) {
      RunFrame(s, a);
    } else if IsAskStep(a) {
      AskFrame(s, a);
    } else {
      EndFrame(s, a);
    }
  }

  /** What only executions change. */
  lemma CallsRestAfter(s: State, a: Action)
    requires Enabled(s, a) && !IsExecStep(a)
    ensures Take(s, a).log == s.log && Take(s, a).config == s.config
    ensures !a.LoopSpawn? ==> Take(s, a).execs == s.execs
  {
    if IsEarlyLoopStep(a) {
      EarlyFrame(s, a);
    } else if IsCleanupStep(a) {
      CleanupFrame(s, a);
    } else if IsScheduleStep(a) {
      ScheduleFrame(s, a);
    } else if IsRemoveStep(a) {
      RemoveFrame(s, a);
    } else {
      StopFrame(s, a);
    }
  }

  function NextExecPc(pc: ExecPc): ExecPc {
    match pc
    case Spawned => Started
    case Started => Recorded
    case Recorded => Released
    case Released => RunDone
    case RunDone => Gone
    case Gone => Gone
  }

  /** An execution step advances one execution; only the matching counter follows. */
  ghost predicate ExecEffect(s: State, s': State, i: nat)
    requires i < |s.execs|
  {
    var x := s.execs[i];
    && !x.pc.Gone?
    && s'.execs == s.execs[i := x.(pc := NextExecPc(x.pc))]
    && s'.config == s.config
    && s'.wg == s.wg - (if x.pc.RunDone? then 1 else 0)
    && s'.tokens == s.tokens - (if x.pc.Recorded? && s.config.limit.Some? then 1 else 0)
    && |s'.loops| == |s.loops|
    && (forall e :: 0 <= e < |s.loops| ==>
         s'.loops[e] == if x.pc.Released? && x.entry == e then s.loops[e].(runsWg := s.loops[e].runsWg - 1) else s.loops[e])
  }

  lemma ExecFrame(s: State, a: Action)
    requires Enabled(s, a) && IsExecStep(a)
    ensures SameCalls(s, Take(s, a)) && Take(s, a).store.jobs == s.store.jobs
    ensures !a.ExecRecord? ==> Take(s, a).log == s.log
  {
    if a.ExecStart? || a.ExecRecord? {
      WritingExecFrame(s, a);
    } else {
      EndingExecFrame(s, a);
    }
  }

  lemma WritingExecFrame(s: State, a: Action)
    requires Enabled(s, a) && (a.ExecStart? || a.ExecRecord?)
    ensures SameCalls(s, Take(s, a)) && Take(s, a).store.jobs == s.store.jobs
    ensures !a.ExecRecord? ==> Take(s, a).log == s.log
  {
  }

  lemma EndingExecFrame(s: State, a: Action)
    requires Enabled(s, a) && (a.ExecRelease? || a.ExecRunDone? || a.ExecGone?)
    ensures SameCalls(s, Take(s, a)) && Take(s, a).store == s.store && Take(s, a).log == s.log
  {
  }

  /** Every execution step advances one execution; only the matching counter follows. */
  lemma ExecStepMoves(s: State, a: Action)
    requires Enabled(s, a) && IsExecStep(a)
    ensures a.exec < |s.execs| && ExecEffect(s, Take(s, a), a.exec)
  {
    if a.ExecStart? || a.ExecRecord? {
      WritingExecMoves(s, a);
    } else {
      EndingExecMoves(s, a);
    }
  }

  lemma WritingExecMoves(s: State, a: Action)
    requires Enabled(s, a) && (a.ExecStart? || a.ExecRecord?)
    ensures a.exec < |s.execs| && ExecEffect(s, Take(s, a), a.exec)
  {
  }

  lemma EndingExecMoves(s: State, a: Action)
    requires Enabled(s, a) && (a.ExecRelease? || a.ExecRunDone? || a.ExecGone?)
    ensures a.exec < |s.execs| && ExecEffect(s, Take(s, a), a.exec)
  {
  }

  // ---- Shape ----

  /** The same registration, seen from outside its loop. */
  ghost predicate SameOutside(l: Loop, l': Loop) {
    l'.job == l.job && (l.cancelled ==> l'.cancelled) && Early(l'.pc) == Early(l.pc) && l'.pc.DeleteJob? == l.pc.DeleteJob?
  }

  /** Outside its mutex, its calls and its job map nothing changes but loops, seen from outside, and new executions. */
  ghost predicate Quiet(s: State, s': State) {
    && s'.stopped == s.stopped && s'.lock == s.lock && s'.jobs == s.jobs && s'.stops == s.stops
    && |s'.loops| == |s.loops|
    && (forall e :: 0 <= e < |s.loops| ==> SameOutside(s.loops[e], s'.loops[e]))
    && |s.execs| <= |s'.execs|
    && (forall x :: 0 <= x < |s.execs| ==> s'.execs[x].entry == s.execs[x].entry && s'.execs[x].id == s.execs[x].id)
    && (forall x :: |s.execs| <= x < |s'.execs| ==>
         s'.execs[x].entry < |s.loops| && s'.execs[x].id == s.loops[s'.execs[x].entry].job.id)
  }

  lemma ExecStepIsQuiet(s: State, a: Action)
    requires Enabled(s, a) && IsExecStep(a)
    ensures Quiet(s, Take(s, a))
  {
    ExecStepMoves(s, a);
    ExecFrame(s, a);
    AdvanceIsQuiet(s, Take(s, a), a.exec);
  }

  lemma AdvanceIsQuiet(s: State, s': State, i: nat)
    requires i < |s.execs| && ExecEffect(s, s', i) && SameCalls(s, s')
    ensures Quiet(s, s')
  {
  }

  lemma LoopStepIsQuiet(s: State, a: Action)
    requires Enabled(s, a) && IsEarlyLoopStep(a)
    ensures Quiet(s, Take(s, a))
  {
    EarlyFrame(s, a);
    OneLoopIsQuiet(s, Take(s, a), a.entry);
  }

  lemma OneLoopIsQuiet(s: State, s': State, e: nat)
    requires s'.stopped == s.stopped && s'.lock == s.lock && s'.jobs == s.jobs && s'.stops == s.stops
    requires e < |s.loops| == |s'.loops| && SameOutside(s.loops[e], s'.loops[e])
    requires forall d :: 0 <= d < |s.loops| && d != e ==> s'.loops[d] == s.loops[d]
    requires s'.execs == s.execs || s'.execs == s.execs + [Exec(e, s.loops[e].job.id, Spawned)]
    ensures Quiet(s, s')
  {
  }

  lemma QuietKeepsShape(s: State, s': State)
    requires Shape(s) && Quiet(s, s')
    ensures Shape(s')
  {
    assert forall e :: 0 <= e < |s.loops| ==> SameOutside(s.loops[e], s'.loops[e]);
    assert LockOk(s') by {
      match s.lock
      case Removing(id, e, phase) => assert RemovingOk(s, id, e, phase);
      case Stopping(call, todo, at) => assert StoppingOk(s, call, todo, at);
      case _ =>
    }
  }

  lemma ScheduleKeepsShape(s: State, a: Action)
    requires Shape(s) && Enabled(s, a) && IsScheduleStep(a)
    ensures Shape(Take(s, a))
  {
  }

  lemma RemoveKeepsShape(s: State, a: Action)
    requires Shape(s) && Enabled(s, a) && IsRemoveStep(a)
    ensures Shape(Take(s, a))
  {
    if a.RemoveBegin? || a.RemoveCancel? {
      RemoveStartKeepsShape(s, a);
    } else {
      RemoveEndKeepsShape(s, a);
    }
  }

  lemma RemoveStartKeepsShape(s: State, a: Action)
    requires Shape(s) && Enabled(s, a) && (a.RemoveBegin? || a.RemoveCancel?)
    ensures Shape(Take(s, a))
  {
  }

  lemma RemoveEndKeepsShape(s: State, a: Action)
    requires Shape(s) && Enabled(s, a) && (a.RemoveUnregister? || a.RemoveDelete? || a.RemoveMark?)
    ensures Shape(Take(s, a))
  {
  }

  lemma StopKeepsShape(s: State, a: Action)
    requires Shape(s) && Enabled(s, a) && IsStopStep(a)
    ensures Shape(Take(s, a))
  {
    if a.StopCancel? || a.StopDelete? || a.StopMark? {
      StopMarkingKeepsShape(s, a);
    } else {
      StopCallKeepsShape(s, a);
    }
  }

  lemma StopMarkingKeepsShape(s: State, a: Action)
    requires Shape(s) && Enabled(s, a) && (a.StopCancel? || a.StopDelete? || a.StopMark?)
    ensures Shape(Take(s, a))
  {
    if a.StopCancel? {
      StopCancelKeepsShape(s, a.id);
    } else {
      StopWriteKeepsShape(s, a);
    }
  }

  lemma StopCancelKeepsShape(s: State, id: string)
    requires Shape(s) && Enabled(s, StopCancel(id))
    ensures Shape(Take(s, StopCancel(id)))
  {
  }

  lemma StopWriteKeepsShape(s: State, a: Action)
    requires Shape(s) && Enabled(s, a) && (a.StopDelete? || a.StopMark?)
    ensures Shape(Take(s, a))
  {
  }

  lemma StopCallKeepsShape(s: State, a: Action)
    requires Shape(s) && Enabled(s, a) && (a.StopBegin? || a.StopEnter? || a.StopUnlock? || a.StopReturn?)
    ensures Shape(Take(s, a))
  {
    if a.StopBegin? || a.StopReturn? {
      StopEdgeKeepsShape(s, a);
    } else {
      StopLockKeepsShape(s, a);
    }
  }

  lemma StopEdgeKeepsShape(s: State, a: Action)
    requires Shape(s) && Enabled(s, a) && (a.StopBegin? || a.StopReturn?)
    ensures Shape(Take(s, a))
  {
  }

  lemma StopLockKeepsShape(s: State, a: Action)
    requires Shape(s) && Enabled(s, a) && (a.StopEnter? || a.StopUnlock?)
    ensures Shape(Take(s, a))
  {
  }

  lemma CleanupKeepsShape(s: State, a: Action)
    requires Shape(s) && Enabled(s, a) && IsCleanupStep(a)
    ensures Shape(Take(s, a))
  {
    if a.LoopCleanup? {
      UnregisterKeepsShape(s, a.entry);
    } else if a.LoopDelete? {
      DeleteKeepsShape(s, a.entry);
    } else {
      LeaveKeepsShape(s, a.entry);
    }
  }

  lemma UnregisterKeepsShape(s: State, e: nat)
    requires Shape(s) && Enabled(s, LoopCleanup(e))
    ensures Shape(Take(s, LoopCleanup(e)))
  {
    var id := s.loops[e].job.id;
    if id in s.jobs && s.jobs[id] == e {
      OwnUnregisterKeepsShape(s, MoveLoop(s, e, DeleteJob).(jobs := s.jobs - {id}, lock := Cleaning(e)), e);
    } else {
      SkippedKeepsShape(s, MoveLoop(s, e, Leave), e);
    }
  }

  lemma OwnUnregisterKeepsShape(s: State, s': State, e: nat)
    requires Shape(s) && LoopAt(s, e, Cleanup) && s.lock.Free?
    requires s.loops[e].job.id in s.jobs && s.jobs[s.loops[e].job.id] == e
    requires s' == MoveLoop(s, e, DeleteJob).(jobs := s.jobs - {s.loops[e].job.id}, lock := Cleaning(e))
    ensures Shape(s')
  {
  }

  /** The loop finds its id unregistered or registered by another loop. */
  lemma SkippedKeepsShape(s: State, s': State, e: nat)
    requires Shape(s) && LoopAt(s, e, Cleanup) && s.lock.Free?
    requires !(s.loops[e].job.id in s.jobs && s.jobs[s.loops[e].job.id] == e)
    requires s' == MoveLoop(s, e, Leave)
    ensures Shape(s')
  {
  }

  lemma DeleteKeepsShape(s: State, e: nat)
    requires Shape(s) && Enabled(s, LoopDelete(e))
    ensures Shape(Take(s, LoopDelete(e)))
  {
  }

  lemma LeaveKeepsShape(s: State, e: nat)
    requires Shape(s) && Enabled(s, LoopLeave(e))
    ensures Shape(Take(s, LoopLeave(e)))
  {
    var s' := WithLoop(s, e, s.loops[e].(pc := Exited, cancelled := true)).(wg := s.wg - 1);
    OneLoopIsQuiet(s, s', e);
    QuietKeepsShape(s, s');
  }

  lemma KeepsShape(s: State, a: Action)
    requires Shape(s) && Enabled(s, a)
    ensures Shape(Take(s, a))
  {
    if IsExecStep(a) {
      ExecStepIsQuiet(s, a);
      QuietKeepsShape(s, Take(s, a));
    } else if IsEarlyLoopStep(a) {
      LoopStepIsQuiet(s, a);
      QuietKeepsShape(s, Take(s, a));
    } else if IsScheduleStep(a) {
      ScheduleKeepsShape(s, a);
    } else if IsRemoveStep(a) {
      RemoveKeepsShape(s, a);
    } else if IsStopStep(a) {
      StopKeepsShape(s, a);
    } else {
      CleanupKeepsShape(s, a);
    }
  }
}
