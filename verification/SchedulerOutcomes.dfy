/**
 Which final state a loop reports, against what it has done. `Completed` is documented as natural completion and `Canceled`
 as cancellation before it. A loop that notices its cancellation in the select reports Completed whatever its runs, and one
 that notices it at its top reports something else even when its last run is made.
 */
module SchedulerOutcomes {
  import opened MemoryStorage
  import opened SchedulerModel
  import opened SchedulerCounts
  import opened SchedulerInvariants
  import opened SchedulerCounters
  import opened SchedulerBudget
  import opened SchedulerTheorems

  predicate IsOwnStep(a: Action, e: nat) {
    (IsEarlyLoopStep(a) || IsCleanupStep(a)) && a.entry == e
  }

  /** What others can do to a loop. */
  predicate Nudged(l: Loop, l': Loop) {
    l'.job == l.job && l'.pc == l.pc && l'.runs == l.runs && l'.outcome == l.outcome && (l.cancelled ==> l'.cancelled)
  }

  lemma LoopAfter(s: State, a: Action, e: nat)
    requires Inv(s) && Enabled(s, a) && e < |s.loops|
    ensures e < |Take(s, a).loops|
    ensures if IsOwnStep(a, e) then Take(s, a).loops[e] == OwnLoopAfter(s, a) else Nudged(s.loops[e], Take(s, a).loops[e])
  {
    if IsOwnStep(a, e) {
      OwnLoopIs(s, a);
    } else {
      OthersLeaveLoop(s, a, e);
    }
  }

  // ---- The ways out of the ticking part ----

  /** How a loop leaves: at its natural end, cut short in the select, or after asking for its context's state. */
  datatype Way = Naturally | InSelect | Asking

  /** The loop has made all the runs it may make. */
  predicate BudgetUsed(l: Loop) {
    l.job.schedule.maxRuns > 0 && l.runs >= l.job.schedule.maxRuns
  }

  /** The loop's top finds it uncancelled, and its run budget used up or its end time passed. */
  predicate EndsNaturally(l: Loop, pastEnd: bool) {
    !l.cancelled && (BudgetUsed(l) || pastEnd)
  }

  /** By this step loop `e` leaves this way. */
  predicate LeavesBy(s: State, a: Action, e: nat, way: Way) {
    match way
    case Naturally => a.LoopCheck? && a.entry == e && e < |s.loops| && EndsNaturally(s.loops[e], a.pastEnd)
    case InSelect => a == LoopSelect(e, false)
    case Asking => a == LoopReadState(e)
  }

  /** Loop `e` left this way before `j`. */
  ghost predicate Left(run: seq<State>, actions: seq<Action>, e: nat, j: nat, way: Way)
    requires j <= |actions| < |run|
  {
    exists i :: 0 <= i < j && LeavesBy(run[i], actions[i], e, way)
  }

  lemma LeftOneMore(run: seq<State>, actions: seq<Action>, e: nat, j: nat, way: Way)
    requires 0 < j <= |actions| < |run|
    ensures Left(run, actions, e, j, way) <==>
      Left(run, actions, e, j - 1, way) || LeavesBy(run[j - 1], actions[j - 1], e, way)
  {
  }

  /**
   The ways a loop has left, set against where it is: past its ticking part exactly if it left, at most one way, and with
   the outcome Completed unless it left asking.
   */
  predicate WaysOk(l: Loop, naturally: bool, inSelect: bool, asking: bool) {
    && (Leaving(l.pc) <==> naturally || inSelect || asking)
    && !(naturally && inSelect) && !(naturally && asking) && !(inSelect && asking)
    && (l.outcome.Completed? <==> !asking)
  }

  lemma OwnExit(s: State, a: Action, e: nat, naturally: bool, inSelect: bool, asking: bool)
    requires Enabled(s, a) && IsOwnStep(a, e) && e < |s.loops| && WaysOk(s.loops[e], naturally, inSelect, asking)
    ensures WaysOk(OwnLoopAfter(s, a), naturally || LeavesBy(s, a, e, Naturally), inSelect || LeavesBy(s, a, e, InSelect),
                   asking || LeavesBy(s, a, e, Asking))
  {
  }

  lemma ExitStep(s: State, a: Action, e: nat, naturally: bool, inSelect: bool, asking: bool)
    requires Inv(s) && Enabled(s, a) && e < |s.loops| && WaysOk(s.loops[e], naturally, inSelect, asking)
    ensures e < |Take(s, a).loops|
    ensures WaysOk(Take(s, a).loops[e], naturally || LeavesBy(s, a, e, Naturally),
                   inSelect || LeavesBy(s, a, e, InSelect), asking || LeavesBy(s, a, e, Asking))
  {
    LoopAfter(s, a, e);
    if IsOwnStep(a, e) {
      OwnExit(s, a, e, naturally, inSelect, asking);
    } else {
      OthersNeverLeave(s, a, e);
      OthersLeaveWays(s.loops[e], Take(s, a).loops[e], naturally, inSelect, asking);
    }
  }

  lemma OthersNeverLeave(s: State, a: Action, e: nat)
    requires !IsOwnStep(a, e)
    ensures forall way :: !LeavesBy(s, a, e, way)
  {
  }

  lemma OthersLeaveWays(l: Loop, l': Loop, naturally: bool, inSelect: bool, asking: bool)
    requires Nudged(l, l') && WaysOk(l, naturally, inSelect, asking)
    ensures WaysOk(l', naturally, inSelect, asking)
  {
  }

  /**
   In every run, a loop past its ticking part has left it exactly once and in exactly one way, and its outcome is Completed
   unless it left asking for its context's state.
   */
  lemma {:induction false} WaysOut(run: seq<State>, actions: seq<Action>, j: nat, e: nat)
    requires IsRun(run, actions) && j < |run| && e < |run[j].loops|
    ensures WaysAt(run, actions, j, e)
  {
    if j > 0 {
      if e < |run[j - 1].loops| {
        WaysOut(run, actions, j - 1, e);
        WaysStep(run, actions, j, e);
      } else {
        PathStep(run, actions, j - 1);
        NewLoop(run[j - 1], actions[j - 1]);
        NotYetLeft(run, actions, j, e);
      }
    }
  }

  ghost predicate WaysAt(run: seq<State>, actions: seq<Action>, j: nat, e: nat)
    requires j <= |actions| < |run| && e < |run[j].loops|
  {
    WaysOk(run[j].loops[e], Left(run, actions, e, j, Naturally), Left(run, actions, e, j, InSelect),
           Left(run, actions, e, j, Asking))
  }

  lemma WaysStep(run: seq<State>, actions: seq<Action>, j: nat, e: nat)
    requires IsRun(run, actions) && 0 < j < |run| && e < |run[j - 1].loops| && WaysAt(run, actions, j - 1, e)
    ensures e < |run[j].loops| && WaysAt(run, actions, j, e)
  {
    PathStep(run, actions, j - 1);
    InvAlong(run, actions, j - 1);
    LeftOneMore(run, actions, e, j, Naturally);
    LeftOneMore(run, actions, e, j, InSelect);
    LeftOneMore(run, actions, e, j, Asking);
    ExitStep(run[j - 1], actions[j - 1], e, Left(run, actions, e, j - 1, Naturally),
             Left(run, actions, e, j - 1, InSelect), Left(run, actions, e, j - 1, Asking));
  }

  // ---- Completion and what is reported ----

  /** The uncancelled loop saw at its top that its end time had passed. */
  predicate SeesEnd(s: State, a: Action, e: nat) {
    a == LoopCheck(e, true) && e < |s.loops| && !s.loops[e].cancelled
  }

  ghost predicate SawEnd(run: seq<State>, actions: seq<Action>, e: nat, j: nat)
    requires j <= |actions| < |run|
  {
    exists i :: 0 <= i < j && SeesEnd(run[i], actions[i], e)
  }

  /** The job is complete: all its runs are made, or its loop has seen its end time pass. */
  ghost predicate Complete(run: seq<State>, actions: seq<Action>, e: nat, j: nat)
    requires j <= |actions| < |run| && e < |run[j].loops|
  {
    BudgetUsed(run[j].loops[e]) || SawEnd(run, actions, e, j)
  }

  /** Registrations stay, keep their job, and never count a run back. */
  ghost predicate RunsGrowAt(run: seq<State>, k: nat)
    requires k + 1 < |run|
  {
    forall e :: 0 <= e < |run[k].loops| ==> e < |run[k + 1].loops| && RunsGrow(run[k].loops[e], run[k + 1].loops[e])
  }

  predicate RunsGrow(l: Loop, l': Loop) {
    l'.job == l.job && l.runs <= l'.runs
  }

  lemma OwnRunsGrow(s: State, a: Action, e: nat)
    requires Enabled(s, a) && IsOwnStep(a, e) && e < |s.loops|
    ensures RunsGrow(s.loops[e], OwnLoopAfter(s, a))
  {
  }

  lemma RunsGrowStep(run: seq<State>, actions: seq<Action>, k: nat)
    requires IsRun(run, actions) && k < |actions|
    ensures RunsGrowAt(run, k)
  {
    InvAlong(run, actions, k);
    PathStep(run, actions, k);
    forall e | 0 <= e < |run[k].loops|
      ensures e < |run[k + 1].loops| && RunsGrow(run[k].loops[e], run[k + 1].loops[e])
    {
      LoopAfter(run[k], actions[k], e);
      if IsOwnStep(actions[k], e) {
        OwnRunsGrow(run[k], actions[k], e);
      }
    }
  }

  lemma {:induction false} RunsGrowBetween(run: seq<State>, i: nat, j: nat, e: nat)
    requires i <= j < |run| && e < |run[i].loops|
    requires forall k: nat :: k + 1 < |run| ==> RunsGrowAt(run, k)
    ensures e < |run[j].loops| && RunsGrow(run[i].loops[e], run[j].loops[e])
  {
    if i < j {
      RunsGrowBetween(run, i, j - 1, e);
      assert RunsGrowAt(run, j - 1);
    }
  }

  /** What a loop had used up when it left naturally is used up for good. */
  lemma NaturalIsComplete(run: seq<State>, actions: seq<Action>, j: nat, e: nat)
    requires IsRun(run, actions) && j < |run| && e < |run[j].loops| && Left(run, actions, e, j, Naturally)
    ensures Complete(run, actions, e, j)
  {
    var i :| 0 <= i < j && LeavesBy(run[i], actions[i], e, Naturally);
    if actions[i].pastEnd {
      assert SeesEnd(run[i], actions[i], e);
    } else {
      forall k: nat | k + 1 < |run|
        ensures RunsGrowAt(run, k)
      {
        RunsGrowStep(run, actions, k);
      }
      RunsGrowBetween(run, i, j, e);
    }
  }

  lemma SeeingEndIsNatural(run: seq<State>, actions: seq<Action>, j: nat, e: nat)
    requires j <= |actions| < |run| && SawEnd(run, actions, e, j)
    ensures Left(run, actions, e, j, Naturally)
  {
    var i :| 0 <= i < j && SeesEnd(run[i], actions[i], e);
    assert LeavesBy(run[i], actions[i], e, Naturally);
  }

  /**
   When reports and completion disagree, for every loop past its ticking part. Completed is reported of a job that is not
   complete exactly if the loop was cut short in the select with runs left to make; a complete job is reported as something
   else exactly if the loop noticed its cancellation at its top with all its runs made.
   */
  lemma ReportedWronglyIff(run: seq<State>, actions: seq<Action>, j: nat, e: nat)
    requires IsRun(run, actions) && j < |run| && e < |run[j].loops| && Leaving(run[j].loops[e].pc)
    ensures run[j].loops[e].outcome.Completed? && !Complete(run, actions, e, j) <==>
      Left(run, actions, e, j, InSelect) && !BudgetUsed(run[j].loops[e])
    ensures !run[j].loops[e].outcome.Completed? && Complete(run, actions, e, j) <==>
      Left(run, actions, e, j, Asking) && BudgetUsed(run[j].loops[e])
  {
    WaysOut(run, actions, j, e);
    if Left(run, actions, e, j, Naturally) {
      NaturalIsComplete(run, actions, j, e);
    }
    if SawEnd(run, actions, e, j) {
      SeeingEndIsNatural(run, actions, j, e);
    }
  }

  /** Without an end time no loop sees one pass. */
  lemma NoEndToSee(run: seq<State>, actions: seq<Action>, j: nat, e: nat)
    requires IsRun(run, actions) && j < |run| && e < |run[j].loops| && !run[j].loops[e].job.schedule.hasEnd
    ensures !SawEnd(run, actions, e, j)
  {
    if SawEnd(run, actions, e, j) {
      var i :| 0 <= i < j && SeesEnd(run[i], actions[i], e);
      PathStep(run, actions, i);
      forall k: nat | k + 1 < |run|
        ensures RunsGrowAt(run, k)
      {
        RunsGrowStep(run, actions, k);
      }
      RunsGrowBetween(run, i, j, e);
    }
  }

  /** Once the sole registration of an id has waited for its executions, the status has recorded every run it counted. */
  lemma AllRunsRecorded(s: State, e: nat)
    requires Reachable(s) && OnlyRegistration(s, e) && Ended(s.loops[e].pc)
    ensures s.loops[e].job.id in s.store.status
    ensures s.store.status[s.loops[e].job.id].status.runs == s.loops[e].runs
  {
    ReachableInv(s);
    assert BudgetOk(s.loops[e], CountExecs(s.execs, SpawnedBy(e)));
    assert s.loops[e].runsWg == CountExecs(s.execs, RunOf(e));
    RecordedBySoleLoop(s, e);
    EntrySummary(s, s.loops[e].job.id);
  }

  /** The status of `id` has recorded all runs of the schedule. */
  predicate RecordedAll(s: State, e: nat)
    requires e < |s.loops| && s.loops[e].job.id in s.store.status
  {
    0 < s.loops[e].job.schedule.maxRuns == s.store.status[s.loops[e].job.id].status.runs
  }

  /**
   The same in terms of the recorded runs, for an id registered once and without an end time, when its loop finalizes and
   ever after.
   */
  lemma ReportedWronglyByRecord(run: seq<State>, actions: seq<Action>, j: nat, e: nat)
    requires IsRun(run, actions) && j < |run| && OnlyRegistration(run[j], e) && Ended(run[j].loops[e].pc)
    requires !run[j].loops[e].job.schedule.hasEnd
    ensures run[j].loops[e].job.id in run[j].store.status
    ensures run[j].loops[e].outcome.Completed? && !RecordedAll(run[j], e) <==>
      Left(run, actions, e, j, InSelect) && !RecordedAll(run[j], e)
    ensures !run[j].loops[e].outcome.Completed? && RecordedAll(run[j], e) <==>
      Left(run, actions, e, j, Asking) && RecordedAll(run[j], e)
  {
    PrefixReachable(run, actions, j);
    AllRunsRecorded(run[j], e);
    UsedIsRecorded(run[j], e);
    ReportedWronglyIff(run, actions, j, e);
    NoEndToSee(run, actions, j, e);
  }

  lemma UsedIsRecorded(s: State, e: nat)
    requires BudgetsOk(s) && e < |s.loops| && s.loops[e].job.id in s.store.status
    requires s.store.status[s.loops[e].job.id].status.runs == s.loops[e].runs
    ensures BudgetUsed(s.loops[e]) <==> RecordedAll(s, e)
  {
    assert BudgetOk(s.loops[e], CountExecs(s.execs, SpawnedBy(e)));
  }

  lemma PrefixReachable(run: seq<State>, actions: seq<Action>, j: nat)
    requires IsRun(run, actions) && j < |run|
    ensures Reachable(run[j]) && Inv(run[j])
  {
    InvAlong(run, actions, j);
    var run', actions' := run[..j + 1], actions[..j];
    assert IsRun(run', actions') && run'[|run'| - 1] == run[j];
  }

  ghost predicate GrowsAt(run: seq<State>, k: nat)
    requires k + 1 < |run|
  {
    |run[k].loops| <= |run[k + 1].loops|
  }

  lemma {:induction false} GrowsBetween(run: seq<State>, i: nat, j: nat)
    requires i <= j < |run|
    requires forall k: nat :: k + 1 < |run| ==> GrowsAt(run, k)
    ensures |run[i].loops| <= |run[j].loops|
  {
    if i < j {
      GrowsBetween(run, i, j - 1);
      assert GrowsAt(run, j - 1);
    }
  }

  lemma LoopsOnlyGrow(run: seq<State>, actions: seq<Action>, i: nat, j: nat)
    requires IsPath(run, actions) && i <= j < |run|
    ensures |run[i].loops| <= |run[j].loops|
  {
    forall k: nat | k + 1 < |run|
      ensures GrowsAt(run, k)
    {
      PathStep(run, actions, k);
      MoreLoops(run[k], actions[k]);
    }
    GrowsBetween(run, i, j);
  }

  lemma MoreLoops(s: State, a: Action)
    requires Enabled(s, a)
    ensures |s.loops| <= |Take(s, a).loops|
  {
    if IsExecStep(a) {
      ExecStepMoves(s, a);
    } else if IsEarlyLoopStep(a) {
      EarlyFrame(s, a);
    }
  }

  /** A registration takes no step before it exists. */
  lemma NotYetLeft(run: seq<State>, actions: seq<Action>, j: nat, e: nat)
    requires IsRun(run, actions) && 0 < j < |run| && e >= |run[j - 1].loops|
    ensures forall way :: !Left(run, actions, e, j, way)
  {
    forall i, way | 0 <= i < j
      ensures !LeavesBy(run[i], actions[i], e, way)
    {
      LoopsOnlyGrow(run, actions, i, j - 1);
    }
  }

  lemma ReachableStep(s: State, a: Action)
    requires Reachable(s) && Enabled(s, a)
    ensures Reachable(Take(s, a))
  {
    var run, actions :| IsRun(run, actions) && run[|run| - 1] == s;
    ExtendRun(run, actions, a, Take(s, a));
  }

  lemma ExtendRun(run: seq<State>, actions: seq<Action>, a: Action, s': State)
    requires IsRun(run, actions) && Enabled(run[|run| - 1], a) && s' == Take(run[|run| - 1], a)
    ensures Reachable(s')
  {
    var run', actions' := run + [s'], actions + [a];
    assert IsRun(run', actions') && run'[|run'| - 1] == s';
  }

  /** These actions lead from `s` to `s'`. */
  ghost predicate Leads(s: State, actions: seq<Action>, s': State)
    decreases |actions|
  {
    if actions == [] then s' == s else Enabled(s, actions[0]) && Leads(Take(s, actions[0]), actions[1..], s')
  }

  lemma {:induction false} LeadsReachable(s: State, actions: seq<Action>, s': State)
    requires Reachable(s) && Leads(s, actions, s')
    ensures Reachable(s')
    decreases |actions|
  {
    if actions != [] {
      ReachableStep(s, actions[0]);
      LeadsReachable(Take(s, actions[0]), actions[1..], s');
    }
  }

  lemma LeadsBy(s: State, a: Action, t: State, rest: seq<Action>, s': State)
    requires Enabled(s, a) && Take(s, a) == t && Leads(t, rest, s')
    ensures Leads(s, [a] + rest, s')
  {
    assert ([a] + rest)[1..] == rest;
  }

  lemma CutLeads(s: State, e: nat, rest: seq<Action>, s': State)
    requires LoopAt(s, e, AwaitTick) && s.loops[e].cancelled && Leads(MoveLoop(s, e, WaitRuns), rest, s')
    ensures Leads(s, [LoopSelect(e, false)] + rest, s')
  {
    LeadsBy(s, LoopSelect(e, false), MoveLoop(s, e, WaitRuns), rest, s');
  }

  lemma WaitLeads(s: State, e: nat, rest: seq<Action>, s': State)
    requires LoopAt(s, e, WaitRuns) && s.loops[e].runsWg == 0 && Leads(MoveLoop(s, e, Finalize), rest, s')
    ensures Leads(s, [LoopWait(e)] + rest, s')
  {
    LeadsBy(s, LoopWait(e), MoveLoop(s, e, Finalize), rest, s');
  }

  lemma FinalizeLeads(s: State, e: nat, now: int) returns (s': State)
    requires LoopAt(s, e, Finalize) && s.loops[e].outcome.Completed?
    requires s.loops[e].job.id in s.store.status && !s.store.status[s.loops[e].job.id].terminal
    ensures Leads(s, [LoopFinalize(e, now)], s')
    ensures s.loops[e].job.id in s'.store.status && s'.store.status[s.loops[e].job.id].status.state.Completed?
    ensures e < |s'.loops| && s'.loops[e].runs == s.loops[e].runs
  {
    s' := AfterFinalize(s, e, now);
    assert [LoopFinalize(e, now)] + [] == [LoopFinalize(e, now)];
    LeadsBy(s, LoopFinalize(e, now), s', [], s');
  }

  function AfterFinalize(s: State, e: nat, now: int): State
    requires e < |s.loops|
  {
    Write(MoveLoop(s, e, Cleanup), MarkTerminal(s.loops[e].job.id, s.loops[e].outcome, now))
  }

  /**
   From every reachable state in which a cancelled loop sits in the select with its executions finished and its status
   open, three steps of that loop alone close the status as Completed, however few of its runs were made.
   */
  lemma CancelledInSelectShowsCompleted(s: State, e: nat, now: int) returns (s': State)
    requires Reachable(s) && LoopAt(s, e, AwaitTick) && s.loops[e].cancelled && s.loops[e].runsWg == 0
    requires s.loops[e].job.id in s.store.status && !s.store.status[s.loops[e].job.id].terminal
    ensures Leads(s, [LoopSelect(e, false), LoopWait(e), LoopFinalize(e, now)], s') && Reachable(s')
    ensures s.loops[e].job.id in s'.store.status && s'.store.status[s.loops[e].job.id].status.state.Completed?
    ensures e < |s'.loops| && s'.loops[e].runs == s.loops[e].runs
  {
    TickingIsCompleted(s, e);
    s' := FinalizeLeads(MoveLoop(s, e, Finalize), e, now);
    assert MoveLoop(MoveLoop(s, e, WaitRuns), e, Finalize) == MoveLoop(s, e, Finalize);
    WaitLeads(MoveLoop(s, e, WaitRuns), e, [LoopFinalize(e, now)], s');
    CutLeads(s, e, [LoopWait(e)] + [LoopFinalize(e, now)], s');
    assert [LoopSelect(e, false)] + ([LoopWait(e)] + [LoopFinalize(e, now)])
        == [LoopSelect(e, false), LoopWait(e), LoopFinalize(e, now)];
    LeadsReachable(s, [LoopSelect(e, false), LoopWait(e), LoopFinalize(e, now)], s');
  }

  lemma Follow(s: State, a: Action, s': State)
    requires Reachable(s) && Enabled(s, a) && Take(s, a) == s'
    ensures Reachable(s')
  {
    ReachableStep(s, a);
  }

  lemma TickingIsCompleted(s: State, e: nat)
    requires Reachable(s) && LoopAt(s, e, AwaitTick)
    ensures s.loops[e].outcome.Completed?
  {
    var run, actions :| IsRun(run, actions) && run[|run| - 1] == s;
    WaysOut(run, actions, |run| - 1, e);
  }
}
