/**
 Whether Stop's wait ends when the executions run on their retriers. The timer pool of a retrier can block all of its
 calls for good, and Stop waits for the executions behind them. This says exactly when that can happen, that it is the only
 thing that can go wrong, and that the wait ends otherwise.
 */
module StopHangs {
  import opened JobTypes
  import opened SchedulerCounts
  import opened SchedulerBudget
  import opened SharedRetriers
  import opened StopTermination
  import S = SchedulerModel
  import T = TimerAllocation

  /** A step of a loop, of an execution or of a call on a retrier, as opposed to a client's. */
  predicate IsProgress(a: Action) {
    a.Call? || (a.Step? && IsWork(a.step))
  }

  /** Something is alive, the mutex is free, and neither a loop nor an execution nor a call on a retrier can step. */
  ghost predicate Stuck(w: World) {
    w.sched.wg > 0 && w.sched.lock.Free? && forall a :: IsProgress(a) ==> !Enabled(w, a)
  }

  // ---- Only a blocked retrier stops everything ----

  /** A call that is under way can step, unless it waits for a timer of an empty pool. */
  lemma CallCanStep(pool: T.State, c: nat) returns (move: T.Action)
    requires T.Inv(pool) && c < |pool.calls| && !pool.calls[c].pc.Done?
    requires pool.pool != [] || !T.Wants(pool.calls[c])
    ensures !move.Arrive? && T.Enabled(pool, move)
  {
    assert T.CallOk(pool.calls[c], pool.maxRetries);
    move := match pool.calls[c].pc
            case WantTimeout => T.GetTimeout(c)
            case Working => T.Conclude(c)
            case WantDelay => T.GetDelay(c)
            case Delaying => T.PutDelay(c, false)
            case Returning => T.PutTimeout(c);
  }

  lemma {:induction false} SomeLive(calls: seq<T.Call>, c: nat)
    requires c < |calls| && !calls[c].pc.Done?
    ensures T.LiveCalls(calls) > 0
  {
    if c < |calls| - 1 {
      SomeLive(calls[..|calls| - 1], c);
    }
  }

  lemma PoolIsBlocked(pool: T.State, c: nat)
    requires T.Inv(pool) && c < |pool.calls| && !pool.calls[c].pc.Done?
    requires forall move: T.Action :: !move.Arrive? ==> !T.Enabled(pool, move)
    ensures T.AllBlocked(pool)
  {
    SomeLive(pool.calls, c);
    forall d | 0 <= d < |pool.calls| && !pool.calls[d].pc.Done?
      ensures pool.pool == [] && T.Wants(pool.calls[d])
    {
      if pool.pool != [] || !T.Wants(pool.calls[d]) {
        var move := CallCanStep(pool, d);
      }
    }
  }

  lemma PoolInv(w: World, r: nat)
    requires Inv(w) && r < |w.retriers|
    ensures T.Inv(w.retriers[r].pool)
  {
    assert SharedOk(w, r);
    var run, actions :| T.IsPath(run, actions) && T.Init(run[0]) && run[|run| - 1] == w.retriers[r].pool;
    T.InvAlong(run, actions, |run| - 1);
  }

  lemma ExecHasRetrier(w: World, x: nat)
    requires Inv(w) && x < |w.sched.execs|
    ensures HasRetrier(w, x)
  {
    assert w.sched.execs[x].entry < |w.sched.loops|;
  }

  /** A live execution that can neither step nor have its call step is blocked with all calls of its retrier. */
  lemma LiveExecBlocked(w: World, x: nat, payload: Payload) returns (r: nat)
    requires Inv(w) && x < |w.sched.execs| && !w.sched.execs[x].pc.Gone?
    requires forall a :: IsProgress(a) ==> !Enabled(w, a)
    ensures r < |w.retriers| && T.AllBlocked(w.retriers[r].pool)
  {
    ExecHasRetrier(w, x);
    r := RetrierOf(w, x);
    var step := ExecCanStep(w.sched, x, payload);
    assert IsProgress(Step(step));
    assert !Returned(w.retriers[r], x);
    PoolCannotStep(w, r);
    PoolInv(w, r);
    UnreturnedBlocked(w.retriers[r], x);
  }

  lemma PoolCannotStep(w: World, r: nat)
    requires r < |w.retriers| && forall a :: IsProgress(a) ==> !Enabled(w, a)
    ensures forall move: T.Action :: !move.Arrive? ==> !T.Enabled(w.retriers[r].pool, move)
  {
    forall move: T.Action | !move.Arrive?
      ensures !T.Enabled(w.retriers[r].pool, move)
    {
      assert IsProgress(Call(r, move));
    }
  }

  lemma UnreturnedBlocked(sh: Shared, x: nat)
    requires T.Inv(sh.pool) && !Returned(sh, x)
    requires forall move: T.Action :: !move.Arrive? ==> !T.Enabled(sh.pool, move)
    ensures T.AllBlocked(sh.pool)
  {
    var c :| 0 <= c < |sh.owners| && c < |sh.pool.calls| && sh.owners[c] == x && !sh.pool.calls[c].pc.Done?;
    PoolIsBlocked(sh.pool, c);
  }

  lemma LoopsAloneCanStep(w: World) returns (a: Action)
    requires Inv(w) && w.sched.wg > 0 && w.sched.lock.Free?
    requires forall x :: 0 <= x < |w.sched.execs| ==> w.sched.execs[x].pc.Gone?
    ensures IsProgress(a) && Enabled(w, a)
  {
    Theorems.ZeroMeansGone(w.sched);
    var e :| 0 <= e < |w.sched.loops| && !w.sched.loops[e].pc.Exited?;
    var step := LoopCanStep(w.sched, e);
    a := Step(step);
  }

  lemma StuckHasLiveExec(w: World)
    requires Inv(w) && Stuck(w)
    ensures exists x :: 0 <= x < |w.sched.execs| && !w.sched.execs[x].pc.Gone?
  {
    if forall x :: 0 <= x < |w.sched.execs| ==> w.sched.execs[x].pc.Gone? {
      var a := LoopsAloneCanStep(w);
    }
  }

  /** If nothing can step, some retrier has all of its calls blocked. */
  lemma StuckIsBlocked(w: World, payload: Payload) returns (r: nat)
    requires Inv(w) && Stuck(w)
    ensures r < |w.retriers| && T.AllBlocked(w.retriers[r].pool)
  {
    StuckHasLiveExec(w);
    var x :| 0 <= x < |w.sched.execs| && !w.sched.execs[x].pc.Gone?;
    r := LiveExecBlocked(w, x, payload);
  }

  // ---- Blocked calls hold slots ----

  /** The executions behind the live ones among the first `n` calls. */
  function LiveOwners(sh: Shared, n: nat): set<nat>
    requires n <= |sh.owners| == |sh.pool.calls|
  {
    if n == 0 then {}
    else LiveOwners(sh, n - 1) + if sh.pool.calls[n - 1].pc.Done? then {} else {sh.owners[n - 1]}
  }

  lemma {:induction false} LiveOwnersAre(sh: Shared, n: nat, x: nat)
    requires n <= |sh.owners| == |sh.pool.calls| && x in LiveOwners(sh, n)
    ensures exists c :: 0 <= c < n && sh.owners[c] == x && !sh.pool.calls[c].pc.Done?
  {
    if x in LiveOwners(sh, n - 1) {
      LiveOwnersAre(sh, n - 1, x);
    }
  }

  lemma {:induction false} LiveOwnersCount(sh: Shared, n: nat)
    requires n <= |sh.owners| == |sh.pool.calls|
    requires forall c, d :: 0 <= c < d < |sh.owners| ==> sh.owners[c] != sh.owners[d]
    ensures |LiveOwners(sh, n)| == T.LiveCalls(sh.pool.calls[..n])
  {
    if n > 0 {
      LiveOwnersCount(sh, n - 1);
      assert sh.pool.calls[..n][..n - 1] == sh.pool.calls[..n - 1];
      if sh.owners[n - 1] in LiveOwners(sh, n - 1) {
        LiveOwnersAre(sh, n - 1, sh.owners[n - 1]);
      }
    }
  }

  /** The executions of a kind. */
  function Members(xs: seq<S.Exec>, k: ExecKind): set<nat> {
    if xs == [] then {}
    else Members(xs[..|xs| - 1], k) + if IsExec(xs[|xs| - 1], k) then {|xs| - 1} else {}
  }

  lemma {:induction false} MembersAre(xs: seq<S.Exec>, k: ExecKind, x: nat)
    ensures x in Members(xs, k) <==> x < |xs| && IsExec(xs[x], k)
  {
    if xs != [] {
      MembersAre(xs[..|xs| - 1], k, x);
    }
  }

  lemma {:induction false} MembersCount(xs: seq<S.Exec>, k: ExecKind)
    ensures |Members(xs, k)| == CountExecs(xs, k)
  {
    if xs != [] {
      MembersCount(xs[..|xs| - 1], k);
      MembersAre(xs[..|xs| - 1], k, |xs| - 1);
    }
  }

  /** The calls under way on a retrier are no more than the executions of a kind that includes all behind them. */
  lemma CallsAreWithin(sh: Shared, execs: seq<S.Exec>, uses: seq<nat>, r: nat, k: ExecKind)
    requires OwnersOk(sh, execs, uses, r)
    requires forall x :: 0 <= x < |execs| && execs[x].entry < |uses| && uses[execs[x].entry] == r && execs[x].pc.Started? ==>
      IsExec(execs[x], k)
    ensures T.LiveCalls(sh.pool.calls) <= CountExecs(execs, k)
  {
    var n := |sh.owners|;
    MembersCount(execs, k);
    forall x: nat | x in LiveOwners(sh, n)
      ensures x in Members(execs, k)
    {
      LiveOwnersAre(sh, n, x);
      var c :| 0 <= c < n && sh.owners[c] == x && !sh.pool.calls[c].pc.Done?;
      assert OwnerOk(sh.pool.calls[c], x, execs, uses, r);
      MembersAre(execs, k, x);
    }
    LiveOwnersCount(sh, n);
    assert sh.pool.calls[..n] == sh.pool.calls;
    SubsetSize(LiveOwners(sh, n), Members(execs, k));
  }

  /** The calls under way on a retrier never outnumber the slots taken. */
  lemma CallsHoldSlots(w: World, r: nat)
    requires Inv(w) && r < |w.retriers|
    ensures T.LiveCalls(w.retriers[r].pool.calls) <= CountExecs(w.sched.execs, Slot)
  {
    assert SharedOk(w, r);
    CallsAreWithin(w.retriers[r], w.sched.execs, w.uses, r, Slot);
  }

  // ---- Blocked calls use up run budgets ----

  /** The first `n` registrations on retrier `r`. */
  function EntriesOn(uses: seq<nat>, r: nat, n: nat): set<nat>
    requires n <= |uses|
  {
    set e: nat | e < n && uses[e] == r
  }

  /** How many runs the first `n` registrations may ask of retrier `r` in all, if every one of them has a run budget. */
  function Demand(loops: seq<S.Loop>, uses: seq<nat>, r: nat, n: nat): Option<nat>
    requires n <= |loops| == |uses|
  {
    if n == 0 then Some(0)
    else if uses[n - 1] != r then Demand(loops, uses, r, n - 1)
    else Plus(Demand(loops, uses, r, n - 1), loops[n - 1].job.schedule.maxRuns)
  }

  /** A budget of zero means no bound. */
  function Plus(demand: Option<nat>, maxRuns: nat): Option<nat> {
    if demand.None? || maxRuns == 0 then None else Some(demand.value + maxRuns)
  }

  lemma {:induction false} AmongMore(xs: seq<S.Exec>, entries: set<nat>, e: nat)
    requires e !in entries
    ensures CountExecs(xs, Among(entries + {e})) == CountExecs(xs, Among(entries)) + CountExecs(xs, SpawnedBy(e))
  {
    if xs != [] {
      AmongMore(xs[..|xs| - 1], entries, e);
    }
  }

  lemma {:induction false} AmongNone(xs: seq<S.Exec>)
    ensures CountExecs(xs, Among({})) == 0
  {
    if xs != [] {
      AmongNone(xs[..|xs| - 1]);
    }
  }

  /** Registrations with run budgets never start more executions than their budgets add up to. */
  lemma {:induction false} StartsWithinDemand(s: S.State, uses: seq<nat>, r: nat, n: nat)
    requires BudgetsOk(s) && n <= |s.loops| == |uses| && Demand(s.loops, uses, r, n).Some?
    ensures CountExecs(s.execs, Among(EntriesOn(uses, r, n))) <= Demand(s.loops, uses, r, n).value
  {
    if n == 0 {
      AmongNone(s.execs);
      assert EntriesOn(uses, r, 0) == {};
    } else {
      StartsWithinDemand(s, uses, r, n - 1);
      if uses[n - 1] == r {
        AmongMore(s.execs, EntriesOn(uses, r, n - 1), n - 1);
        assert EntriesOn(uses, r, n) == EntriesOn(uses, r, n - 1) + {n - 1};
        assert BudgetOk(s.loops[n - 1], CountExecs(s.execs, SpawnedBy(n - 1)));
      } else {
        assert EntriesOn(uses, r, n) == EntriesOn(uses, r, n - 1);
      }
    }
  }

  function DemandOn(w: World, r: nat): Option<nat>
    requires |w.sched.loops| == |w.uses|
  {
    Demand(w.sched.loops, w.uses, r, |w.uses|)
  }

  /** The calls under way on a retrier never outnumber the run budgets of its registrations. */
  lemma CallsWithinDemand(w: World, r: nat)
    requires Inv(w) && r < |w.retriers| && DemandOn(w, r).Some?
    ensures T.LiveCalls(w.retriers[r].pool.calls) <= DemandOn(w, r).value
  {
    assert SharedOk(w, r);
    CallsAmong(w.retriers[r], w.sched.execs, w.uses, r);
    StartsWithinDemand(w.sched, w.uses, r, |w.uses|);
  }

  lemma CallsAmong(sh: Shared, execs: seq<S.Exec>, uses: seq<nat>, r: nat)
    requires OwnersOk(sh, execs, uses, r)
    ensures T.LiveCalls(sh.pool.calls) <= CountExecs(execs, Among(EntriesOn(uses, r, |uses|)))
  {
    CallsAreWithin(sh, execs, uses, r, Among(EntriesOn(uses, r, |uses|)));
  }

  predicate Exceeds(bound: Option<nat>, n: nat) {
    bound.Some? ==> bound.value > n
  }

  /** Enough calls to block a retrier fit under the concurrency limit and under the run budgets of its registrations. */
  predicate CanClog(limit: Option<nat>, demand: Option<nat>, maxRetries: nat) {
    maxRetries >= 1 && Exceeds(limit, maxRetries) && Exceeds(demand, maxRetries)
  }

  predicate Cloggable(w: World, r: nat) {
    && r < |w.retriers| && |w.sched.loops| == |w.uses|
    && CanClog(w.sched.config.limit, DemandOn(w, r), w.retriers[r].pool.maxRetries)
  }

  lemma BlockedMeansClog(w: World, r: nat)
    requires Inv(w) && r < |w.retriers| && T.AllBlocked(w.retriers[r].pool)
    ensures Cloggable(w, r)
  {
    assert SharedOk(w, r);
    T.BlockNeedsManyCalls(w.retriers[r].pool);
    CallsHoldSlots(w, r);
    if DemandOn(w, r).Some? {
      CallsWithinDemand(w, r);
    }
  }

  /**
   In every reachable state in which something is alive but nothing can step, some retrier has all of its calls blocked; it
   has a retry budget, and both the concurrency limit and the run budgets of its registrations, where there are any, exceed
   it.
   */
  lemma StuckNeedsClog(w: World, payload: Payload) returns (r: nat)
    requires Reachable(w) && Stuck(w)
    ensures r < |w.retriers| && T.AllBlocked(w.retriers[r].pool)
    ensures Cloggable(w, r)
  {
    ReachableInv(w);
    r := StuckIsBlocked(w, payload);
    BlockedMeansClog(w, r);
  }

  predicate IsHolder(a: Action) {
    a.Register? || (a.Step? && IsHolderStep(a.step))
  }

  lemma HolderSteps(w: World) returns (a: Action)
    requires Inv(w) && !w.sched.lock.Free?
    ensures Enabled(w, a) && (IsHolder(a) || IsProgress(a))
  {
    var step := HolderCanStep(w.sched);
    a := if step.ScheduleSpawn? then Register(0, 0, true) else Step(step);
  }

  /**
   In every reachable state with a mutex holder or anything alive, the holder, a loop, an execution or a call can step,
   unless a retrier that the limit and the run budgets let block has all of its calls blocked.
   */
  lemma NoDeadlockUnlessBlocked(w: World, payload: Payload)
    requires Reachable(w) && (!w.sched.lock.Free? || w.sched.wg > 0)
    ensures || (exists a :: Enabled(w, a) && (IsHolder(a) || IsProgress(a)))
            || (exists r :: 0 <= r < |w.retriers| && T.AllBlocked(w.retriers[r].pool) && Cloggable(w, r))
  {
    ReachableInv(w);
    if !w.sched.lock.Free? {
      var a := HolderSteps(w);
    } else if forall a :: IsProgress(a) ==> !Enabled(w, a) {
      var r := StuckNeedsClog(w, payload);
    }
  }

  // ---- A blocked retrier holds Stop for good ----

  lemma {:induction false} LiveCallExists(calls: seq<T.Call>) returns (c: nat)
    requires T.LiveCalls(calls) > 0
    ensures c < |calls| && !calls[c].pc.Done?
  {
    if calls[|calls| - 1].pc.Done? {
      c := LiveCallExists(calls[..|calls| - 1]);
    } else {
      c := |calls| - 1;
    }
  }

  lemma BlockedIsAlive(w: World, r: nat)
    requires Inv(w) && r < |w.retriers| && T.AllBlocked(w.retriers[r].pool)
    ensures w.sched.wg > 0
  {
    var sh := w.retriers[r];
    assert SharedOk(w, r);
    var c := LiveCallExists(sh.pool.calls);
    assert OwnerOk(sh.pool.calls[c], sh.owners[c], w.sched.execs, w.uses, r);
    Theorems.ZeroMeansGone(w.sched);
  }

  lemma BlockedStays(w: World, a: Action, r: nat)
    requires r < |w.retriers| && T.AllBlocked(w.retriers[r].pool) && Enabled(w, a)
    ensures r < |Take(w, a).retriers| && T.AllBlocked(Take(w, a).retriers[r].pool)
    ensures Take(w, a).retriers[r].pool.maxRetries == w.retriers[r].pool.maxRetries
  {
    if a.Call? && a.retrier == r {
      T.BlockIsPermanent(w.retriers[r].pool, a.move);
    }
    if a.Step? && a.step.ExecStart? && RetrierOf(w, a.step.exec) == r {
      T.BlockIsPermanent(w.retriers[r].pool, T.Arrive);
    }
  }

  lemma {:induction false} BlockedAlong(run: seq<World>, actions: seq<Action>, j: nat, r: nat)
    requires IsPath(run, actions) && j < |run|
    requires r < |run[0].retriers| && T.AllBlocked(run[0].retriers[r].pool)
    ensures r < |run[j].retriers| && T.AllBlocked(run[j].retriers[r].pool)
  {
    if j > 0 {
      BlockedAlong(run, actions, j - 1, r);
      PathStep(run, actions, j - 1);
      BlockedStays(run[j - 1], actions[j - 1], r);
    }
  }

  /** Once all calls on a retrier are blocked, the wait group never empties again and no Stop call ever returns. */
  lemma BlockedRetrierHoldsStop(run: seq<World>, actions: seq<Action>, j: nat, r: nat)
    requires IsPath(run, actions) && Reachable(run[0]) && j < |run|
    requires r < |run[0].retriers| && T.AllBlocked(run[0].retriers[r].pool)
    ensures r < |run[j].retriers| && T.AllBlocked(run[j].retriers[r].pool)
    ensures run[j].sched.wg > 0
    ensures forall call :: 0 <= call < |run[j].sched.stops| ==> !run[j].sched.stops[call].Returned?
  {
    ReachableInv(run[0]);
    InvAlong(run, actions, j);
    BlockedAlong(run, actions, j, r);
    BlockedIsAlive(run[j], r);
  }
}
