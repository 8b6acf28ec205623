/** The wait groups and the semaphore count exactly what is alive. */
module SchedulerCounters {
  import opened JobTypes
  import opened SchedulerModel
  import opened SchedulerCounts
  import opened SchedulerInvariants

  /** The scheduler's wait group counts live loops and live executions. */
  ghost predicate WgOk(s: State) {
    s.wg == CountLoops(s.loops, LiveLoop) + CountExecs(s.execs, Live)
  }

  /** The semaphore counts the slots that loops and executions hold, within its capacity. */
  ghost predicate TokensOk(s: State) {
    s.config.limit.Some? ==> s.tokens == CountLoops(s.loops, Token) + CountExecs(s.execs, Slot) <= s.config.limit.value
  }

  /** A registration's own wait group counts its unfinished executions. */
  ghost predicate RunsOk(s: State) {
    forall e :: 0 <= e < |s.loops| ==> s.loops[e].runsWg == CountExecs(s.execs, RunOf(e))
  }

  ghost predicate CountersOk(s: State) {
    WgOk(s) && TokensOk(s) && RunsOk(s)
  }

  lemma {:induction false} CountLoopsIgnoresRuns(ls: seq<Loop>, ls': seq<Loop>, k: LoopKind)
    requires |ls| == |ls'|
    requires forall e :: 0 <= e < |ls| ==> ls'[e].pc == ls[e].pc
    ensures CountLoops(ls', k) == CountLoops(ls, k)
  {
    if ls != [] {
      CountLoopsIgnoresRuns(ls[..|ls| - 1], ls'[..|ls| - 1], k);
    }
  }

  lemma ExecKeepsCounters(s: State, a: Action)
    requires CountersOk(s) && Enabled(s, a) && IsExecStep(a)
    ensures CountersOk(Take(s, a))
  {
    ExecStepMoves(s, a);
    AdvanceKeepsCounters(s, Take(s, a), a.exec);
  }

  lemma AdvanceKeepsCounters(s: State, s': State, i: nat)
    requires CountersOk(s) && i < |s.execs| && ExecEffect(s, s', i)
    ensures CountersOk(s')
  {
    var x := s.execs[i];
    var x' := x.(pc := NextExecPc(x.pc));
    CountLoopsIgnoresRuns(s.loops, s'.loops, LiveLoop);
    CountLoopsIgnoresRuns(s.loops, s'.loops, Token);
    CountExecsUpdate(s.execs, i, x', Live);
    CountExecsUpdate(s.execs, i, x', Slot);
    forall e | 0 <= e < |s.loops|
      ensures s'.loops[e].runsWg == CountExecs(s'.execs, RunOf(e))
    {
      CountExecsUpdate(s.execs, i, x', RunOf(e));
    }
  }

  lemma SpawnKeepsCounters(s: State, e: nat)
    requires CountersOk(s) && Enabled(s, LoopSpawn(e))
    ensures CountersOk(Take(s, LoopSpawn(e)))
  {
    AppendKeepsCounters(s, Take(s, LoopSpawn(e)), e);
  }

  /** A loop that holds a slot hands it to a new execution. */
  lemma AppendKeepsCounters(s: State, s': State, e: nat)
    requires CountersOk(s) && LoopAt(s, e, SpawnRun)
    requires s'.loops == s.loops[e := s.loops[e].(pc := AwaitTick, runsWg := s.loops[e].runsWg + 1)]
    requires s'.execs == s.execs + [Exec(e, s.loops[e].job.id, Spawned)]
    requires s'.config == s.config && s'.wg == s.wg + 1 && s'.tokens == s.tokens
    ensures CountersOk(s')
  {
    var x := Exec(e, s.loops[e].job.id, Spawned);
    CountLoopsUpdate(s.loops, e, s'.loops[e], LiveLoop);
    CountLoopsUpdate(s.loops, e, s'.loops[e], Token);
    CountExecsAppend(s.execs, x, Live);
    CountExecsAppend(s.execs, x, Slot);
    forall d | 0 <= d < |s.loops|
      ensures s'.loops[d].runsWg == CountExecs(s'.execs, RunOf(d))
    {
      CountExecsAppend(s.execs, x, RunOf(d));
    }
  }

  /** A step that changes one loop and no execution. */
  lemma MoveKeepsCounters(s: State, s': State, e: nat, l: Loop)
    requires CountersOk(s) && e < |s.loops|
    requires s'.loops == s.loops[e := l] && s'.execs == s.execs && s'.config == s.config
    requires l.runsWg == s.loops[e].runsWg
    requires s'.wg == s.wg - if !s.loops[e].pc.Exited? && l.pc.Exited? then 1 else 0
    requires s.loops[e].pc.Exited? ==> l.pc.Exited?
    requires !s.loops[e].pc.SpawnRun? || l.pc.SpawnRun?
    requires s.config.limit.Some? ==>
      if l.pc.SpawnRun? && !s.loops[e].pc.SpawnRun? then s'.tokens == s.tokens + 1 <= s.config.limit.value
      else s'.tokens == s.tokens
    ensures CountersOk(s')
  {
    CountLoopsUpdate(s.loops, e, l, LiveLoop);
    CountLoopsUpdate(s.loops, e, l, Token);
  }

  /** The loop step is of the kind that `MoveKeepsCounters` covers. */
  lemma LoopStepMoves(s: State, a: Action)
    requires Enabled(s, a) && (IsEarlyLoopStep(a) || IsCleanupStep(a)) && !a.LoopSpawn?
    ensures a.entry < |s.loops|
    ensures var s' := Take(s, a);
            && |s'.loops| == |s.loops| && s'.loops == s.loops[a.entry := s'.loops[a.entry]]
            && s'.execs == s.execs && s'.config == s.config
            && s'.wg == s.wg - (if a.LoopLeave? then 1 else 0)
            && s'.tokens == (if a.LoopAcquire? && s.config.limit.Some? then s.tokens + 1 else s.tokens)
  {
    if IsEarlyLoopStep(a) {
      EarlyFrame(s, a);
    } else {
      CleanupFrame(s, a);
    }
  }

  /** How a loop's step that spawns nothing moves its program counter, as far as the counters care. */
  predicate PcsMatch(before: Loop, after: Loop, a: Action) {
    && after.runsWg == before.runsWg
    && (before.pc.Exited? ==> after.pc.Exited?)
    && (!before.pc.Exited? && after.pc.Exited? <==> a.LoopLeave?)
    && (before.pc.SpawnRun? ==> after.pc.SpawnRun?)
    && (after.pc.SpawnRun? && !before.pc.SpawnRun? <==> a.LoopAcquire?)
  }

  lemma EarlyPcs(s: State, a: Action)
    requires Enabled(s, a) && IsEarlyLoopStep(a) && !a.LoopSpawn?
    ensures a.entry < |s.loops| == |Take(s, a).loops| && PcsMatch(s.loops[a.entry], Take(s, a).loops[a.entry], a)
  {
  }

  lemma CleanupPcs(s: State, a: Action)
    requires Enabled(s, a) && IsCleanupStep(a)
    ensures a.entry < |s.loops| == |Take(s, a).loops| && PcsMatch(s.loops[a.entry], Take(s, a).loops[a.entry], a)
  {
  }

  lemma LoopKeepsCounters(s: State, a: Action)
    requires CountersOk(s) && Enabled(s, a) && (IsEarlyLoopStep(a) || IsCleanupStep(a)) && !a.LoopSpawn?
    ensures CountersOk(Take(s, a))
  {
    LoopStepMoves(s, a);
    if IsEarlyLoopStep(a) {
      EarlyPcs(s, a);
    } else {
      CleanupPcs(s, a);
    }
    ShiftKeepsCounters(s, Take(s, a), a);
  }

  lemma ShiftKeepsCounters(s: State, s': State, a: Action)
    requires CountersOk(s) && Enabled(s, a) && (IsEarlyLoopStep(a) || IsCleanupStep(a)) && !a.LoopSpawn?
    requires a.entry < |s.loops| == |s'.loops| && s'.loops == s.loops[a.entry := s'.loops[a.entry]]
    requires s'.execs == s.execs && s'.config == s.config
    requires s'.wg == s.wg - (if a.LoopLeave? then 1 else 0)
    requires s'.tokens == if a.LoopAcquire? && s.config.limit.Some? then s.tokens + 1 else s.tokens
    requires PcsMatch(s.loops[a.entry], s'.loops[a.entry], a)
    ensures CountersOk(s')
  {
    MoveKeepsCounters(s, s', a.entry, s'.loops[a.entry]);
  }

  lemma CallKeepsCounters(s: State, a: Action)
    requires ExecsOk(s) && CountersOk(s) && Enabled(s, a)
    requires IsScheduleStep(a) || IsRemoveStep(a) || IsStopStep(a)
    ensures CountersOk(Take(s, a))
  {
    if a.ScheduleSpawn? {
      ScheduleSpawnKeepsCounters(s);
    } else if a.RemoveCancel? || a.StopCancel? {
      var e := if a.RemoveCancel? then s.lock.entry else s.jobs[a.id];
      MoveKeepsCounters(s, Take(s, a), e, s.loops[e].(cancelled := true));
    } else {
      OtherCallsCountNothing(s, a);
    }
  }

  lemma ScheduleSpawnKeepsCounters(s: State)
    requires ExecsOk(s) && CountersOk(s) && Enabled(s, ScheduleSpawn)
    ensures CountersOk(Take(s, ScheduleSpawn))
  {
    NewLoopKeepsCounters(s, Take(s, ScheduleSpawn), Loop(s.lock.job, StartWait, 0, false, Completed, 0));
  }

  lemma NewLoopKeepsCounters(s: State, s': State, l: Loop)
    requires ExecsOk(s) && CountersOk(s)
    requires s'.loops == s.loops + [l] && s'.execs == s.execs && s'.config == s.config
    requires l.pc.StartWait? && l.runsWg == 0 && s'.wg == s.wg + 1 && s'.tokens == s.tokens
    ensures CountersOk(s')
  {
    CountLoopsAppend(s.loops, l, LiveLoop);
    CountLoopsAppend(s.loops, l, Token);
    CountExecsZero(s.execs, RunOf(|s.loops|));
  }

  lemma OtherCallsCountNothing(s: State, a: Action)
    requires Enabled(s, a) && (IsScheduleStep(a) || IsRemoveStep(a) || IsStopStep(a))
    requires !a.ScheduleSpawn? && !a.RemoveCancel? && !a.StopCancel?
    ensures var s' := Take(s, a);
            s'.loops == s.loops && s'.execs == s.execs && s'.wg == s.wg && s'.tokens == s.tokens && s'.config == s.config
  {
    if IsScheduleStep(a) {
      ScheduleFrame(s, a);
    } else if IsRemoveStep(a) {
      RemoveFrame(s, a);
    } else {
      StopFrame(s, a);
    }
  }

  lemma KeepsCounters(s: State, a: Action)
    requires Shape(s) && CountersOk(s) && Enabled(s, a)
    ensures CountersOk(Take(s, a))
  {
    if IsExecStep(a) {
      ExecKeepsCounters(s, a);
    } else if a.LoopSpawn? {
      SpawnKeepsCounters(s, a.entry);
    } else if IsEarlyLoopStep(a) || IsCleanupStep(a) {
      LoopKeepsCounters(s, a);
    } else {
      CallKeepsCounters(s, a);
    }
  }
}
