/** Stop's wait with the executions on their retriers: it ends, unless a retrier blocks. */
module SharedTermination {
  import opened JobTypes
  import opened SharedRetriers
  import opened StopHangs
  import Ledger = SchedulerLedger
  import S = SchedulerModel
  import T = TimerAllocation

  // ---- How much is left to do on the retriers ----

  /** How many steps a call can still take. */
  function CallRank(c: T.Call, maxRetries: nat): int {
    match c.pc
    case WantTimeout => 3 * maxRetries + 3
    case Working => 3 * (maxRetries - c.attempt) + 2
    case WantDelay => 3 * (maxRetries - c.attempt) + 1
    case Delaying => 3 * (maxRetries - c.attempt)
    case Returning => 1
    case Done => 0
  }

  function CallsRank(calls: seq<T.Call>, maxRetries: nat): int {
    if calls == [] then 0 else CallsRank(calls[..|calls| - 1], maxRetries) + CallRank(calls[|calls| - 1], maxRetries)
  }

  function PoolsRank(retriers: seq<Shared>): int {
    if retriers == [] then 0
    else
      var pool := retriers[|retriers| - 1].pool;
      PoolsRank(retriers[..|retriers| - 1]) + CallsRank(pool.calls, pool.maxRetries)
  }

  lemma {:induction false} CallsRankUpdate(calls: seq<T.Call>, i: nat, c: T.Call, maxRetries: nat)
    requires i < |calls|
    ensures CallsRank(calls[i := c], maxRetries)
         == CallsRank(calls, maxRetries) - CallRank(calls[i], maxRetries) + CallRank(c, maxRetries)
  {
    var n := |calls| - 1;
    if i == n {
      assert calls[i := c][..n] == calls[..n];
    } else {
      CallsRankUpdate(calls[..n], i, c, maxRetries);
      assert calls[i := c][..n] == calls[..n][i := c];
    }
  }

  lemma {:induction false} PoolsRankUpdate(retriers: seq<Shared>, r: nat, sh: Shared)
    requires r < |retriers|
    ensures PoolsRank(retriers[r := sh]) == PoolsRank(retriers) + CallsRank(sh.pool.calls, sh.pool.maxRetries)
         - CallsRank(retriers[r].pool.calls, retriers[r].pool.maxRetries)
  {
    var n := |retriers| - 1;
    if r == n {
      assert retriers[r := sh][..n] == retriers[..n];
    } else {
      PoolsRankUpdate(retriers[..n], r, sh);
      assert retriers[r := sh][..n] == retriers[..n][r := sh];
    }
  }

  lemma {:induction false} CallsRankNotNegative(calls: seq<T.Call>, maxRetries: nat)
    requires forall c :: 0 <= c < |calls| ==> T.CallOk(calls[c], maxRetries)
    ensures CallsRank(calls, maxRetries) >= 0
  {
    if calls != [] {
      CallsRankNotNegative(calls[..|calls| - 1], maxRetries);
    }
  }

  lemma {:induction false} PoolsRankNotNegative(retriers: seq<Shared>)
    requires forall r :: 0 <= r < |retriers| ==> T.Inv(retriers[r].pool)
    ensures PoolsRank(retriers) >= 0
  {
    if retriers != [] {
      var pool := retriers[|retriers| - 1].pool;
      PoolsRankNotNegative(retriers[..|retriers| - 1]);
      CallsRankNotNegative(pool.calls, pool.maxRetries);
    }
  }

  /** Every step of a call lowers its rank. */
  lemma CallRankDrops(pool: T.State, move: T.Action)
    requires T.Inv(pool) && T.Enabled(pool, move) && !move.Arrive?
    ensures CallsRank(T.Take(pool, move).calls, pool.maxRetries) < CallsRank(pool.calls, pool.maxRetries)
  {
    assert T.CallOk(pool.calls[move.call], pool.maxRetries);
    CallsRankUpdate(pool.calls, move.call, T.Take(pool, move).calls[move.call], pool.maxRetries);
  }

  lemma ArrivalRank(pool: T.State)
    ensures CallsRank(T.Take(pool, T.Arrive).calls, pool.maxRetries)
         == CallsRank(pool.calls, pool.maxRetries) + 3 * pool.maxRetries + 3
  {
    assert T.Take(pool, T.Arrive).calls[..|pool.calls|] == pool.calls;
  }

  // ---- The measure of the whole ----

  ghost predicate BudgetsWithin(w: World, budget: nat) {
    forall r :: 0 <= r < |w.retriers| ==> w.retriers[r].pool.maxRetries <= budget
  }

  /** A scheduler step outweighs all steps of the call it may start. */
  function Weighted(m: int, budget: nat): int {
    m * (3 * budget + 4)
  }

  function Measure(w: World, budget: nat): int {
    Weighted(StopTermination.Measure(w.sched), budget) + PoolsRank(w.retriers)
  }

  lemma WeightedStep(m: int, m': int, budget: nat)
    requires m' < m
    ensures Weighted(m', budget) + 3 * budget + 4 <= Weighted(m, budget)
  {
    assert (m - m' - 1) * (3 * budget + 4) >= 0;
  }

  lemma MeasureNotNegative(w: World, budget: nat)
    requires Inv(w)
    ensures Measure(w, budget) >= 0
  {
    WeightedNotNegative(StopTermination.Measure(w.sched), budget);
    PoolsNotNegative(w);
  }

  lemma WeightedNotNegative(m: nat, budget: nat)
    ensures Weighted(m, budget) >= 0
  {
  }

  lemma PoolsNotNegative(w: World)
    requires Inv(w)
    ensures PoolsRank(w.retriers) >= 0
  {
    forall r | 0 <= r < |w.retriers|
      ensures T.Inv(w.retriers[r].pool)
    {
      PoolInv(w, r);
    }
    PoolsRankNotNegative(w.retriers);
  }

  ghost predicate Draining(w: World, budget: nat) {
    Inv(w) && StopTermination.Draining(w.sched) && BudgetsWithin(w, budget)
  }

  /** While draining nothing registers, so the retriers stay the same and only executions join them. */
  lemma DrainingStays(w: World, a: Action, budget: nat)
    requires Draining(w, budget) && Enabled(w, a)
    ensures Draining(Take(w, a), budget)
  {
    KeepsInv(w, a);
    StopTermination.DrainingIsCancelled(w.sched);
    if SchedStep(a).Some? {
      StopTermination.DrainingStays(w.sched, SchedStep(a).value);
    }
    BudgetsStay(w, a, budget);
  }

  lemma BudgetsStay(w: World, a: Action, budget: nat)
    requires BudgetsWithin(w, budget) && w.sched.lock.Free? && Enabled(w, a)
    ensures BudgetsWithin(Take(w, a), budget)
  {
  }

  lemma CallStepDrops(w: World, r: nat, move: T.Action, budget: nat)
    requires Inv(w) && Enabled(w, Call(r, move))
    ensures Measure(Take(w, Call(r, move)), budget) < Measure(w, budget)
  {
    PoolInv(w, r);
    CallRankDrops(w.retriers[r].pool, move);
    PoolsRankUpdate(w.retriers, r, Take(w, Call(r, move)).retriers[r]);
  }

  lemma StartRank(w: World, a: S.Action, budget: nat)
    requires Enabled(w, Step(a)) && a.ExecStart? && BudgetsWithin(w, budget)
    ensures PoolsRank(Take(w, Step(a)).retriers) <= PoolsRank(w.retriers) + 3 * budget + 3
  {
    var r := RetrierOf(w, a.exec);
    if w.retriers[r].valid {
      ArrivalRank(w.retriers[r].pool);
    }
    PoolsRankUpdate(w.retriers, r, Joined(w.retriers[r], a.exec));
  }

  /** While draining, every step of a loop, an execution or a call lowers the measure, and no client step raises it. */
  lemma DrainStep(w: World, a: Action, budget: nat)
    requires Draining(w, budget) && Enabled(w, a)
    ensures (if IsProgress(a) then 1 else 0) + Measure(Take(w, a), budget) <= Measure(w, budget)
  {
    StopTermination.DrainingIsCancelled(w.sched);
    match a
    case Call(r, move) => CallStepDrops(w, r, move, budget);
    case Step(step) =>
      if StopTermination.IsWork(step) {
        StopTermination.WorkDecreases(w.sched, step);
        WeightedStep(StopTermination.Measure(w.sched), StopTermination.Measure(S.Take(w.sched, step)), budget);
        if step.ExecStart? {
          StartRank(w, step, budget);
        }
      } else {
        StopTermination.CallsKeepMeasure(w.sched, step);
      }
    case Register(_, _, _) =>
  }

  lemma {:induction false} DrainingAlong(run: seq<World>, actions: seq<Action>, n: nat, budget: nat)
    requires IsPath(run, actions) && n <= |actions| && Draining(run[0], budget)
    ensures Draining(run[n], budget)
  {
    if n > 0 {
      DrainingAlong(run, actions, n - 1, budget);
      PathStep(run, actions, n - 1);
      DrainingStays(run[n - 1], actions[n - 1], budget);
    }
  }

  function ProgressSteps(actions: seq<Action>): nat {
    if actions == [] then 0
    else ProgressSteps(actions[..|actions| - 1]) + if IsProgress(actions[|actions| - 1]) then 1 else 0
  }

  ghost predicate Descends(run: seq<World>, actions: seq<Action>, budget: nat, k: nat)
    requires |run| == |actions| + 1 && k < |actions|
  {
    (if IsProgress(actions[k]) then 1 else 0) + Measure(run[k + 1], budget) <= Measure(run[k], budget)
  }

  lemma {:induction false} ProgressIsBounded(run: seq<World>, actions: seq<Action>, n: nat, budget: nat)
    requires |run| == |actions| + 1 && n <= |actions|
    requires forall k :: 0 <= k < |actions| ==> Descends(run, actions, budget, k)
    ensures ProgressSteps(actions[..n]) + Measure(run[n], budget) <= Measure(run[0], budget)
  {
    if n > 0 {
      ProgressIsBounded(run, actions, n - 1, budget);
      assert Descends(run, actions, budget, n - 1);
      assert actions[..n][..n - 1] == actions[..n - 1];
    }
  }

  lemma DrainBound(run: seq<World>, actions: seq<Action>, budget: nat)
    requires IsPath(run, actions) && Draining(run[0], budget)
    ensures ProgressSteps(actions) <= Measure(run[0], budget)
    ensures Draining(run[|actions|], budget)
  {
    forall k | 0 <= k < |actions|
      ensures Descends(run, actions, budget, k)
    {
      DrainingAlong(run, actions, k, budget);
      DrainStep(run[k], actions[k], budget);
    }
    ProgressIsBounded(run, actions, |actions|, budget);
    assert actions[..|actions|] == actions;
    DrainingAlong(run, actions, |actions|, budget);
    MeasureNotNegative(run[|actions|], budget);
  }

  /**
   From any reachable state in which a Stop call waits, whatever the clients do, loops, executions and calls on retriers
   take a bounded number of steps; and while the wait is not over one of them can step, or a retrier that the limit
   and the run budgets let block has all of its calls blocked.
   */
  lemma StopWaitEndsOrBlocks(run: seq<World>, actions: seq<Action>, call: nat, budget: nat, payload: Payload)
    requires IsPath(run, actions) && Reachable(run[0]) && BudgetsWithin(run[0], budget)
    requires call < |run[0].sched.stops| && run[0].sched.stops[call].Waiting?
    ensures ProgressSteps(actions) <= Measure(run[0], budget)
    ensures var last := run[|run| - 1];
            || last.sched.wg == 0
            || (exists a :: IsProgress(a) && Enabled(last, a))
            || (exists r :: 0 <= r < |last.retriers| && T.AllBlocked(last.retriers[r].pool) && Cloggable(last, r))
  {
    ReachableInv(run[0]);
    StopTermination.WaitingMeansDraining(run[0].sched, call);
    DrainBound(run, actions, budget);
    BlockedOrNot(run[|actions|], budget, payload);
  }

  lemma BlockedOrNot(w: World, budget: nat, payload: Payload)
    requires Draining(w, budget)
    ensures || w.sched.wg == 0
            || (exists a :: IsProgress(a) && Enabled(w, a))
            || (exists r :: 0 <= r < |w.retriers| && T.AllBlocked(w.retriers[r].pool) && Cloggable(w, r))
  {
    StopTermination.DrainingIsCancelled(w.sched);
    StopTermination.AliveOrNot(w.sched);
    if w.sched.wg > 0 && forall a :: IsProgress(a) ==> !Enabled(w, a) {
      var r := StuckIsBlocked(w, payload);
      BlockedMeansClog(w, r);
    }
  }

  /** No retrier has retries that the concurrency limit and the run budgets of its registrations both exceed. */
  ghost predicate NothingClogs(w: World) {
    forall r :: 0 <= r < |w.retriers| ==> !Cloggable(w, r)
  }

  lemma {:induction false} SameJobsSameDemand(loops: seq<S.Loop>, loops': seq<S.Loop>, uses: seq<nat>, r: nat, n: nat)
    requires n <= |loops| == |loops'| == |uses|
    requires forall e :: 0 <= e < |loops| ==> loops'[e].job == loops[e].job
    ensures Demand(loops', uses, r, n) == Demand(loops, uses, r, n)
  {
    if n > 0 {
      SameJobsSameDemand(loops, loops', uses, r, n - 1);
    }
  }

  /** While draining, neither the limit nor a retrier's retries nor the run budgets change. */
  lemma DemandStays(w: World, a: Action, budget: nat, r: nat)
    requires Draining(w, budget) && Enabled(w, a) && r < |w.retriers| && Cloggable(Take(w, a), r)
    ensures Cloggable(w, r)
  {
    StopTermination.DrainingIsCancelled(w.sched);
    RetriesStay(w, a, r);
    if SchedStep(a).Some? {
      StopTermination.ConfigStays(w.sched, SchedStep(a).value);
      JobsStay(w.sched, SchedStep(a).value);
      SameJobsSameDemand(w.sched.loops, Take(w, a).sched.loops, w.uses, r, |w.uses|);
    }
  }

  lemma RetriesStay(w: World, a: Action, r: nat)
    requires Enabled(w, a) && w.sched.lock.Free? && r < |w.retriers|
    ensures Take(w, a).uses == w.uses && r < |Take(w, a).retriers|
    ensures Take(w, a).retriers[r].pool.maxRetries == w.retriers[r].pool.maxRetries
    ensures Take(w, a).sched == if SchedStep(a).Some? then S.Take(w.sched, SchedStep(a).value) else w.sched
  {
  }

  lemma JobsStay(s: S.State, a: S.Action)
    requires Theorems.Inv(s) && s.lock.Free? && S.Enabled(s, a)
    ensures |S.Take(s, a).loops| == |s.loops|
    ensures forall e :: 0 <= e < |s.loops| ==> S.Take(s, a).loops[e].job == s.loops[e].job
  {
    Ledger.JobsOfLoops(s, a);
  }

  lemma NothingClogsStays(w: World, a: Action, budget: nat)
    requires Draining(w, budget) && NothingClogs(w) && Enabled(w, a)
    ensures NothingClogs(Take(w, a))
  {
    StopTermination.DrainingIsCancelled(w.sched);
    SameRetriers(w, a);
    forall r | 0 <= r < |Take(w, a).retriers|
      ensures !Cloggable(Take(w, a), r)
    {
      if Cloggable(Take(w, a), r) {
        DemandStays(w, a, budget, r);
      }
    }
  }

  lemma SameRetriers(w: World, a: Action)
    requires Enabled(w, a) && w.sched.lock.Free?
    ensures |Take(w, a).retriers| == |w.retriers|
  {
  }

  ghost predicate StaysClogFree(run: seq<World>, k: nat)
    requires k + 1 < |run|
  {
    NothingClogs(run[k]) ==> NothingClogs(run[k + 1])
  }

  lemma {:induction false} ClogFreeThroughout(run: seq<World>, n: nat)
    requires n < |run| && NothingClogs(run[0])
    requires forall k: nat :: k + 1 < |run| ==> StaysClogFree(run, k)
    ensures NothingClogs(run[n])
  {
    if n > 0 {
      ClogFreeThroughout(run, n - 1);
      assert StaysClogFree(run, n - 1);
    }
  }

  lemma NothingClogsAlong(run: seq<World>, actions: seq<Action>, n: nat, budget: nat)
    requires IsPath(run, actions) && n <= |actions| && Draining(run[0], budget) && NothingClogs(run[0])
    ensures NothingClogs(run[n])
  {
    forall k: nat | k + 1 < |run|
      ensures StaysClogFree(run, k)
    {
      ClogStep(run, actions, k, budget);
    }
    ClogFreeThroughout(run, n);
  }

  lemma ClogStep(run: seq<World>, actions: seq<Action>, k: nat, budget: nat)
    requires IsPath(run, actions) && k < |actions| && Draining(run[0], budget)
    ensures StaysClogFree(run, k)
  {
    DrainingAlong(run, actions, k, budget);
    PathStep(run, actions, k);
    if NothingClogs(run[k]) {
      NothingClogsStays(run[k], actions[k], budget);
    }
  }

  /**
   If every retrier has no retries, or at least as many as the concurrency limit or as its registrations' run budgets add up
   to, Stop's wait ends outright: a bounded number of steps, and one is always possible until the wait group is zero.
   */
  lemma StopWaitEndsOutright(run: seq<World>, actions: seq<Action>, call: nat, budget: nat, payload: Payload)
    requires IsPath(run, actions) && Reachable(run[0]) && BudgetsWithin(run[0], budget) && NothingClogs(run[0])
    requires call < |run[0].sched.stops| && run[0].sched.stops[call].Waiting?
    ensures ProgressSteps(actions) <= Measure(run[0], budget)
    ensures var last := run[|run| - 1];
            last.sched.wg == 0 || exists a :: IsProgress(a) && Enabled(last, a)
  {
    StopWaitEndsOrBlocks(run, actions, call, budget, payload);
    ReachableInv(run[0]);
    StopTermination.WaitingMeansDraining(run[0].sched, call);
    NothingClogsAlong(run, actions, |actions|, budget);
  }
}
