/**
 Stop's wait ends provided every call on a retrier returns: nothing else deadlocks, and after the jobs are cancelled every
 step brings the end closer. In this machine a started execution may record at any time, which is that assumption;
 SharedTermination makes the calls explicit and says when it fails.
 */
module StopTermination {
  import opened JobTypes
  import opened SchedulerModel
  import opened SchedulerCounts
  import opened SchedulerInvariants
  import opened SchedulerCounters
  import opened SchedulerLedger
  import opened SchedulerBudget
  import opened SchedulerTheorems

  /** A step of a loop or of an execution, as opposed to a client's. */
  predicate IsWork(a: Action) {
    (IsEarlyLoopStep(a) && !a.CancelContext?) || IsCleanupStep(a) || IsExecStep(a)
  }

  /** A step of the call that holds the mutex. */
  predicate IsHolderStep(a: Action) {
    || a.ScheduleUpsert? || a.ScheduleSpawn? || a.RemoveCancel? || a.RemoveUnregister? || a.RemoveDelete? || a.RemoveMark?
    || a.StopCancel? || a.StopDelete? || a.StopMark? || a.StopUnlock?
  }

  // ---- No deadlock ----

  lemma HolderCanStep(s: State) returns (a: Action)
    requires LockOk(s) && JobsOk(s) && !s.lock.Free?
    ensures Enabled(s, a) && (IsHolderStep(a) || a.LoopDelete?)
  {
    match s.lock
    case Scheduling(_, upserted) => a := if upserted then ScheduleSpawn else ScheduleUpsert(0);
    case Removing(_, _, phase) =>
      a := match phase
           case Cancelling => RemoveCancel
           case Unregistering => RemoveUnregister
           case Deleting => RemoveDelete
           case MarkingRemoved => RemoveMark(0);
    case Stopping(_, todo, at) =>
      if at.StopDeleting? {
        a := StopDelete;
      } else if at.StopMarking? {
        a := StopMark(0);
      } else if todo == {} {
        a := StopUnlock;
      } else {
        var id := SomeElement(todo);
        a := StopCancel(id);
      }
    case Cleaning(e) => a := LoopDelete(e);
  }

  /**
   A live execution whose call on its retrier returns can always take its next step: recording, releasing and signing off
   never block.
   */
  lemma ExecCanStep(s: State, x: nat, payload: Payload) returns (a: Action)
    requires ExecsOk(s) && TokensOk(s) && x < |s.execs| && !s.execs[x].pc.Gone?
    ensures Enabled(s, a) && IsExecStep(a) && a.exec == x
  {
    CountExecsZero(s.execs, Slot);
    assert s.execs[x].pc.Recorded? ==> IsExec(s.execs[x], Slot);
    a := match s.execs[x].pc
         case Spawned => ExecStart(x, 0)
         case Started => ExecRecord(x, payload, 0)
         case Recorded => ExecRelease(x)
         case Released => ExecRunDone(x)
         case RunDone => ExecGone(x);
  }

  /** A loop that needs a slot can have one, or another loop is about to use the slot it holds. */
  lemma SlotCanMove(s: State, e: nat) returns (a: Action)
    requires TokensOk(s) && KnownIds(s) && LoopAt(s, e, AcquireSlot)
    requires forall x :: 0 <= x < |s.execs| ==> s.execs[x].pc.Gone?
    ensures Enabled(s, a) && IsWork(a)
  {
    if s.config.limit.None? || s.tokens < s.config.limit.value {
      a := LoopAcquire(e);
    } else {
      CountExecsZero(s.execs, Slot);
      CountLoopsZero(s.loops, Token);
      var d :| 0 <= d < |s.loops| && IsLoop(s.loops[d], Token);
      a := LoopSpawn(d);
    }
  }

  lemma LoopCanStep(s: State, e: nat) returns (a: Action)
    requires LoopsOk(s) && CountersOk(s) && KnownIds(s) && s.lock.Free?
    requires e < |s.loops| && !s.loops[e].pc.Exited?
    requires forall x :: 0 <= x < |s.execs| ==> s.execs[x].pc.Gone?
    ensures Enabled(s, a) && IsWork(a)
  {
    if s.loops[e].pc.AcquireSlot? {
      a := SlotCanMove(s, e);
    } else {
      CountExecsZero(s.execs, RunOf(e));
      assert s.loops[e].runsWg == CountExecs(s.execs, RunOf(e));
      a := match s.loops[e].pc
           case StartWait => LoopStart(e, true)
           case Check => LoopCheck(e, false)
           case SpawnRun => LoopSpawn(e)
           case AwaitTick => LoopSelect(e, true)
           case ReadStopped => LoopReadStopped(e)
           case ReadState(_) => LoopReadState(e)
           case WaitRuns => LoopWait(e)
           case Finalize => LoopFinalize(e, 0)
           case Cleanup => LoopCleanup(e)
           case Leave => LoopLeave(e);
    }
  }

  /**
   In every reachable state with a mutex holder or anything alive, a loop, an execution whose retrier call returns, or the
   mutex holder can step: neither the semaphore nor the mutex nor a wait group can deadlock the scheduler.
   */
  lemma NoDeadlock(s: State, payload: Payload) returns (a: Action)
    requires Reachable(s) && (!s.lock.Free? || s.wg > 0)
    ensures Enabled(s, a) && (IsHolderStep(a) || IsWork(a))
    ensures s.lock.Free? ==> IsWork(a)
  {
    ReachableInv(s);
    a := CanStep(s, payload);
  }

  lemma CanStep(s: State, payload: Payload) returns (a: Action)
    requires Inv(s) && (!s.lock.Free? || s.wg > 0)
    ensures Enabled(s, a) && (IsHolderStep(a) || IsWork(a))
    ensures s.lock.Free? ==> IsWork(a)
  {
    if !s.lock.Free? {
      a := HolderCanStep(s);
    } else if exists x :: 0 <= x < |s.execs| && !s.execs[x].pc.Gone? {
      var x :| 0 <= x < |s.execs| && !s.execs[x].pc.Gone?;
      a := ExecCanStep(s, x, payload);
    } else {
      ZeroMeansGone(s);
      var e :| 0 <= e < |s.loops| && !s.loops[e].pc.Exited?;
      a := LoopCanStep(s, e);
    }
  }

  // ---- The measure ----

  /** How far a cancelled loop is from its end; a pending run outweighs the execution it spawns. */
  function LoopRank(l: Loop): nat {
    match l.pc
    case Exited => 0
    case Leave => 1
    case DeleteJob => 2
    case Cleanup => 3
    case Finalize => 4
    case WaitRuns => 5
    case ReadState(_) => 6
    case ReadStopped => 7
    case Check => 8
    case AwaitTick => 9
    case StartWait => 9
    case SpawnRun => 16
    case AcquireSlot => 17
  }

  function ExecRank(x: Exec): nat {
    match x.pc
    case Gone => 0
    case RunDone => 1
    case Released => 2
    case Recorded => 3
    case Started => 4
    case Spawned => 5
  }

  function SumLoops(ls: seq<Loop>): nat {
    if ls == [] then 0 else SumLoops(ls[..|ls| - 1]) + LoopRank(ls[|ls| - 1])
  }

  function SumExecs(xs: seq<Exec>): nat {
    if xs == [] then 0 else SumExecs(xs[..|xs| - 1]) + ExecRank(xs[|xs| - 1])
  }

  function Measure(s: State): nat {
    SumLoops(s.loops) + SumExecs(s.execs)
  }

  lemma {:induction false} SumLoopsUpdate(ls: seq<Loop>, i: nat, l: Loop)
    requires i < |ls|
    ensures SumLoops(ls[i := l]) == SumLoops(ls) - LoopRank(ls[i]) + LoopRank(l)
  {
    var n := |ls| - 1;
    if i == n {
      assert ls[i := l][..n] == ls[..n];
    } else {
      SumLoopsUpdate(ls[..n], i, l);
      assert ls[i := l][..n] == ls[..n][i := l];
    }
  }

  lemma {:induction false} SumLoopsByPc(ls: seq<Loop>, ls': seq<Loop>)
    requires |ls| == |ls'| && forall e :: 0 <= e < |ls| ==> ls'[e].pc == ls[e].pc
    ensures SumLoops(ls') == SumLoops(ls)
  {
    if ls != [] {
      SumLoopsByPc(ls[..|ls| - 1], ls'[..|ls| - 1]);
    }
  }

  lemma {:induction false} SumExecsUpdate(xs: seq<Exec>, i: nat, x: Exec)
    requires i < |xs|
    ensures SumExecs(xs[i := x]) == SumExecs(xs) - ExecRank(xs[i]) + ExecRank(x)
  {
    var n := |xs| - 1;
    if i == n {
      assert xs[i := x][..n] == xs[..n];
    } else {
      SumExecsUpdate(xs[..n], i, x);
      assert xs[i := x][..n] == xs[..n][i := x];
    }
  }

  lemma SumExecsAppend(xs: seq<Exec>, x: Exec)
    ensures SumExecs(xs + [x]) == SumExecs(xs) + ExecRank(x)
  {
    assert (xs + [x])[..|xs|] == xs;
  }

  // ---- Draining ----

  /** Stop has cancelled every job and released the mutex. */
  ghost predicate Draining(s: State) {
    Inv(s) && s.stopped && !s.lock.Stopping?
  }

  /** A waiting or returned Stop call means the scheduler drains, with a free mutex and every running loop cancelled. */
  lemma WaitingMeansDraining(s: State, call: nat)
    requires Inv(s) && call < |s.stops| && (s.stops[call].Waiting? || s.stops[call].Returned?)
    ensures Draining(s)
  {
  }

  ghost predicate AllCancelled(s: State) {
    && s.stopped && s.lock.Free? && s.jobs == map[]
    && forall e :: 0 <= e < |s.loops| && Early(s.loops[e].pc) ==> s.loops[e].cancelled
  }

  lemma DrainingIsCancelled(s: State)
    requires Draining(s)
    ensures AllCancelled(s)
  {
  }

  lemma DrainingStays(s: State, a: Action)
    requires Draining(s) && Enabled(s, a)
    ensures Draining(Take(s, a))
  {
    KeepsInv(s, a);
    assert s.lock.Free?;
    NoNewStop(s, a);
  }

  lemma NoNewStop(s: State, a: Action)
    requires s.stopped && s.lock.Free? && Enabled(s, a)
    ensures Take(s, a).stopped && !Take(s, a).lock.Stopping?
  {
    if IsExecStep(a) {
      ExecFrame(s, a);
    } else if IsEarlyLoopStep(a) {
      EarlyFrame(s, a);
    } else if IsStopStep(a) {
      StopIsOver(s, a);
    }
  }

  lemma StopIsOver(s: State, a: Action)
    requires s.stopped && s.lock.Free? && Enabled(s, a) && IsStopStep(a)
    ensures Take(s, a).stopped && Take(s, a).lock.Free?
  {
  }

  lemma ExecStepDecreases(s: State, a: Action)
    requires Enabled(s, a) && IsExecStep(a)
    ensures Measure(Take(s, a)) < Measure(s)
  {
    ExecStepMoves(s, a);
    var x := s.execs[a.exec];
    SumExecsUpdate(s.execs, a.exec, x.(pc := NextExecPc(x.pc)));
    SumLoopsByPc(s.loops, Take(s, a).loops);
  }

  /** A step of a cancelled loop lowers its rank by more than the execution it may spawn. */
  lemma OwnRankDrops(s: State, a: Action)
    requires Enabled(s, a) && IsWork(a) && !IsExecStep(a)
    requires Early(s.loops[a.entry].pc) ==> s.loops[a.entry].cancelled
    ensures LoopRank(OwnLoopAfter(s, a)) + (if a.LoopSpawn? then 5 else 0) < LoopRank(s.loops[a.entry])
  {
  }

  lemma LoopStepDecreases(s: State, a: Action)
    requires Enabled(s, a) && IsWork(a) && !IsExecStep(a)
    requires Early(s.loops[a.entry].pc) ==> s.loops[a.entry].cancelled
    ensures Measure(Take(s, a)) < Measure(s)
  {
    var e := a.entry;
    OwnRankDrops(s, a);
    OwnLoopIs(s, a);
    SumLoopsUpdate(s.loops, e, OwnLoopAfter(s, a));
    if a.LoopSpawn? {
      SumExecsAppend(s.execs, Exec(e, s.loops[e].job.id, Spawned));
      assert Take(s, a).loops == s.loops[e := OwnLoopAfter(s, a)];
    } else {
      LoopStepMoves(s, a);
    }
  }

  /** While draining, every step of a loop or execution lowers the measure. */
  lemma WorkDecreases(s: State, a: Action)
    requires AllCancelled(s) && Enabled(s, a) && IsWork(a)
    ensures Measure(Take(s, a)) < Measure(s)
  {
    if IsExecStep(a) {
      ExecStepDecreases(s, a);
    } else {
      LoopStepDecreases(s, a);
    }
  }

  /** While draining, client calls do not move the measure. */
  lemma CallsKeepMeasure(s: State, a: Action)
    requires AllCancelled(s) && Enabled(s, a) && !IsWork(a)
    ensures Measure(Take(s, a)) == Measure(s)
  {
    if a.CancelContext? {
      SumLoopsByPc(s.loops, Take(s, a).loops);
    } else {
      FreeCallsMoveNothing(s, a);
    }
  }

  lemma AliveOrNot(s: State)
    requires Inv(s)
    ensures s.wg >= 0
  {
    ZeroMeansGone(s);
  }

  lemma ConfigStays(s: State, a: Action)
    requires Enabled(s, a)
    ensures Take(s, a).config == s.config
  {
    if !a.ExecRecord? {
      RestAfter(s, a);
    }
  }

  lemma FreeCallsMoveNothing(s: State, a: Action)
    requires s.lock.Free? && s.stopped && s.jobs == map[] && Enabled(s, a) && !IsWork(a) && !a.CancelContext?
    ensures Take(s, a).loops == s.loops && Take(s, a).execs == s.execs
  {
  }

  function WorkSteps(actions: seq<Action>): nat {
    if actions == [] then 0 else WorkSteps(actions[..|actions| - 1]) + if IsWork(actions[|actions| - 1]) then 1 else 0
  }

  lemma DrainStep(s: State, a: Action)
    requires Draining(s) && Enabled(s, a)
    ensures Draining(Take(s, a))
    ensures (if IsWork(a) then 1 else 0) + Measure(Take(s, a)) <= Measure(s)
  {
    DrainingStays(s, a);
    DrainingIsCancelled(s);
    if IsWork(a) {
      WorkDecreases(s, a);
    } else {
      CallsKeepMeasure(s, a);
    }
  }

  lemma {:induction false} DrainingAlong(run: seq<State>, actions: seq<Action>, n: nat)
    requires IsPath(run, actions) && n <= |actions| && Draining(run[0])
    ensures Draining(run[n])
  {
    if n > 0 {
      DrainingAlong(run, actions, n - 1);
      DrainingStays(run[n - 1], actions[n - 1]);
    }
  }

  ghost predicate Descends(run: seq<State>, actions: seq<Action>, k: nat)
    requires |run| == |actions| + 1 && k < |actions|
  {
    (if IsWork(actions[k]) then 1 else 0) + Measure(run[k + 1]) <= Measure(run[k])
  }

  lemma {:induction false} WorkIsBounded(run: seq<State>, actions: seq<Action>, n: nat)
    requires |run| == |actions| + 1 && n <= |actions|
    requires forall k :: 0 <= k < |actions| ==> Descends(run, actions, k)
    ensures WorkSteps(actions[..n]) + Measure(run[n]) <= Measure(run[0])
  {
    if n > 0 {
      WorkIsBounded(run, actions, n - 1);
      assert Descends(run, actions, n - 1);
      assert actions[..n][..n - 1] == actions[..n - 1];
    }
  }

  lemma DrainBound(run: seq<State>, actions: seq<Action>)
    requires IsPath(run, actions) && Draining(run[0])
    ensures WorkSteps(actions) <= Measure(run[0])
  {
    forall k | 0 <= k < |actions|
      ensures Descends(run, actions, k)
    {
      DrainingAlong(run, actions, k);
      DrainStep(run[k], actions[k]);
    }
    WorkIsBounded(run, actions, |actions|);
    assert actions[..|actions|] == actions;
  }

  /**
   From any reachable state in which a Stop call waits, whatever the clients do, loops and executions take at most
   Measure steps; and while the wait is not over one of them can step, provided the calls on retriers return. So if they
   keep stepping, the wait ends.
   */
  lemma StopWaitEnds(run: seq<State>, actions: seq<Action>, call: nat, payload: Payload)
    requires IsPath(run, actions) && Reachable(run[0])
    requires call < |run[0].stops| && run[0].stops[call].Waiting?
    ensures WorkSteps(actions) <= Measure(run[0])
    ensures var last := run[|run| - 1];
            last.wg == 0 || exists a :: IsWork(a) && Enabled(last, a)
  {
    ReachableInv(run[0]);
    WaitingMeansDraining(run[0], call);
    DrainBound(run, actions);
    DrainingAlong(run, actions, |actions|);
    DrainingIsCancelled(run[|actions|]);
    var last := run[|run| - 1];
    ZeroMeansGone(last);
    if last.wg != 0 {
      var a := CanStep(last, payload);
    }
  }

  predicate FrozenSince(l: Loop, l': Loop) {
    l.cancelled ==> l'.cancelled && l'.runs == l.runs
  }

  lemma FrozenStep(run: seq<State>, actions: seq<Action>, k: nat, e: nat)
    requires IsRun(run, actions) && k < |actions| && e < |run[k].loops|
    ensures e < |run[k + 1].loops| && FrozenSince(run[k].loops[e], run[k + 1].loops[e])
  {
    InvAlong(run, actions, k);
    PathStep(run, actions, k);
    if run[k].loops[e].cancelled {
      CancelledRunsFrozen(run[k], actions[k], e);
    } else {
      JobsOfLoops(run[k], actions[k]);
    }
  }

  lemma {:induction false} FrozenAlong(run: seq<State>, actions: seq<Action>, i: nat, j: nat, e: nat)
    requires IsRun(run, actions) && i <= j < |run|
    requires e < |run[i].loops| && run[i].loops[e].cancelled
    ensures e < |run[j].loops| && run[j].loops[e].cancelled && run[j].loops[e].runs == run[i].loops[e].runs
  {
    if i < j {
      FrozenAlong(run, actions, i, j - 1, e);
      FrozenStep(run, actions, j - 1, e);
    }
  }

  /** After its context is cancelled, a loop spawns at most one further execution, and only one already pending. */
  lemma AtMostOneMoreRun(run: seq<State>, actions: seq<Action>, i: nat, j: nat, e: nat)
    requires IsRun(run, actions) && i <= j < |run|
    requires e < |run[i].loops| && run[i].loops[e].cancelled
    ensures CountExecs(run[j].execs, SpawnedBy(e)) <=
      CountExecs(run[i].execs, SpawnedBy(e)) + if RunPending(run[i].loops[e].pc) then 1 else 0
  {
    FrozenAlong(run, actions, i, j, e);
    InvAlong(run, actions, i);
    InvAlong(run, actions, j);
    assert BudgetOk(run[i].loops[e], CountExecs(run[i].execs, SpawnedBy(e)));
    assert BudgetOk(run[j].loops[e], CountExecs(run[j].execs, SpawnedBy(e)));
  }
}
