/** A run in which Stop never returns, for every limit and all budgets that allow one, and the exact condition. */
module HangWitness {
  import opened JobTypes
  import opened MemoryStorage
  import opened SharedRetriers
  import opened StopHangs
  import S = SchedulerModel
  import T = TimerAllocation

  // One job is started again and again until its executions block each other.

  datatype Setup = Setup(limit: Option<nat>, job: Job, maxRetries: nat)

  /** The limit and the run budget leave room for one call more than there are retries. */
  predicate HasRoom(c: Setup) {
    && CanClog(c.limit, if c.job.schedule.maxRuns == 0 then None else Some(c.job.schedule.maxRuns), c.maxRetries)
    && !c.job.schedule.hasEnd
  }

  /** The store once `k` executions have started. */
  function StoreAt(job: Job, k: nat): Store {
    if k == 0 then Apply(Apply(EMPTY, Save(job)), UpsertStatus(job.id, Scheduled, 0))
    else Apply(StoreAt(job, k - 1), MarkExecutionStart(job.id, 0))
  }

  function Started(job: Job, k: nat): seq<S.Exec> {
    seq(k, i requires 0 <= i < k => S.Exec(0, job.id, S.Started))
  }

  function Empty(c: Setup): S.State {
    S.State(S.Config(c.limit, 20), false, S.Free, map[], EMPTY, 0, 0, [], [], [], map[], {})
  }

  /** A running scheduler with one registration, whose store shows `started` starts. */
  function Sched(c: Setup, slots: nat, pc: S.LoopPc, runs: nat, spawned: nat, execs: seq<S.Exec>, started: nat): S.State {
    S.State(S.Config(c.limit, 20), false, S.Free, map[c.job.id := 0], StoreAt(c.job, started),
            if c.limit.Some? then slots else 0, 1 + |execs|, [S.Loop(c.job, pc, runs, false, Completed, spawned)], execs, [],
            map[], {})
  }

  /** `n` calls have arrived, the first `k` hold a timer and want another. */
  function Calls(maxRetries: nat, n: nat, k: nat): Shared
    requires k <= maxRetries + 1
  {
    Shared(true, T.Stage(maxRetries, n, k), T.Upto(n))
  }

  /** `k` executions have started, each holding a timer and wanting another, and the loop has got this far. */
  function Before(c: Setup, k: nat, pc: S.LoopPc, runs: nat, slots: nat): World
    requires k <= c.maxRetries + 1
  {
    World(Sched(c, slots, pc, runs, k, Started(c.job, k), k), [Calls(c.maxRetries, k, k)], [0])
  }

  function Stage(c: Setup, k: nat): World
    requires k <= c.maxRetries + 1
  {
    Before(c, k, S.Check, k, k)
  }

  /** The next execution is spawned. */
  function Spawned(c: Setup, k: nat, pc: S.LoopPc): World
    requires k <= c.maxRetries
  {
    World(Sched(c, k + 1, pc, k + 1, k + 1, Started(c.job, k) + [S.Exec(0, c.job.id, S.Spawned)], k),
          [Calls(c.maxRetries, k, k)], [0])
  }

  /** It has started and its call is on the retrier. */
  function Called(c: Setup, k: nat, sh: Shared): World {
    World(Sched(c, k + 1, S.Check, k + 1, k + 1, Started(c.job, k + 1), k + 1), [sh], [0])
  }

  lemma Follow(w: World, a: Action, w': World)
    requires Reachable(w) && Enabled(w, a) && Take(w, a) == w'
    ensures Reachable(w')
  {
    ReachableStep(w, a);
  }

  lemma FollowSched(w: World, a: S.Action, s': S.State)
    requires Reachable(w) && Enabled(w, Step(a)) && !a.ExecStart? && S.Take(w.sched, a) == s'
    ensures Reachable(w.(sched := s'))
  {
    ReachableStep(w, Step(a));
  }

  // ---- The job is registered ----

  lemma SavedReachable(c: Setup)
    requires c.limit.Some? ==> c.limit.value > 0
    ensures Reachable(World(Empty(c).(lock := S.Scheduling(c.job, false), store := Apply(EMPTY, Save(c.job))), [], []))
  {
    var w := World(Empty(c), [], []);
    assert IsPath([w], []) && Init([w][0]) && [w][|[w]| - 1] == w;
    FollowSched(w, S.ScheduleBegin(c.job),
                Empty(c).(lock := S.Scheduling(c.job, false), store := Apply(EMPTY, Save(c.job))));
  }

  lemma UpsertedReachable(c: Setup)
    requires c.limit.Some? ==> c.limit.value > 0
    ensures Reachable(World(Empty(c).(lock := S.Scheduling(c.job, true), store := StoreAt(c.job, 0)), [], []))
  {
    SavedReachable(c);
    FollowSched(World(Empty(c).(lock := S.Scheduling(c.job, false), store := Apply(EMPTY, Save(c.job))), [], []),
                S.ScheduleUpsert(0), Empty(c).(lock := S.Scheduling(c.job, true), store := StoreAt(c.job, 0)));
  }

  lemma NoCallsYet(maxRetries: nat)
    ensures Calls(maxRetries, 0, 0) == Shared(true, T.Fresh(maxRetries), [])
  {
    assert T.Stage(maxRetries, 0, 0) == T.Fresh(maxRetries);
  }

  lemma RegisteredReachable(c: Setup)
    requires c.limit.Some? ==> c.limit.value > 0
    ensures Reachable(Before(c, 0, S.StartWait, 0, 0))
  {
    UpsertedReachable(c);
    NoCallsYet(c.maxRetries);
    Follow(World(Empty(c).(lock := S.Scheduling(c.job, true), store := StoreAt(c.job, 0)), [], []),
           Register(0, c.maxRetries, true), Before(c, 0, S.StartWait, 0, 0));
  }

  lemma StartReachable(c: Setup)
    requires c.limit.Some? ==> c.limit.value > 0
    ensures Reachable(Stage(c, 0))
  {
    RegisteredReachable(c);
    StartedReachable(c);
  }

  lemma StartedReachable(c: Setup)
    requires Reachable(Before(c, 0, S.StartWait, 0, 0))
    ensures Reachable(Stage(c, 0))
  {
    FollowSched(Before(c, 0, S.StartWait, 0, 0), S.LoopStart(0, true), Stage(c, 0).sched);
  }

  // ---- It starts one more execution ----

  lemma CheckedReachable(c: Setup, k: nat)
    requires HasRoom(c) && k <= c.maxRetries && Reachable(Stage(c, k))
    ensures Reachable(Before(c, k, S.AcquireSlot, k + 1, k))
  {
    FollowSched(Stage(c, k), S.LoopCheck(0, false), Before(c, k, S.AcquireSlot, k + 1, k).sched);
  }

  lemma AcquiredReachable(c: Setup, k: nat)
    requires HasRoom(c) && k <= c.maxRetries && Reachable(Before(c, k, S.AcquireSlot, k + 1, k))
    ensures Reachable(Before(c, k, S.SpawnRun, k + 1, k + 1))
  {
    FollowSched(Before(c, k, S.AcquireSlot, k + 1, k), S.LoopAcquire(0), Before(c, k, S.SpawnRun, k + 1, k + 1).sched);
  }

  lemma SpawnedReachable(c: Setup, k: nat)
    requires k <= c.maxRetries && Reachable(Before(c, k, S.SpawnRun, k + 1, k + 1))
    ensures Reachable(Spawned(c, k, S.AwaitTick))
  {
    FollowSched(Before(c, k, S.SpawnRun, k + 1, k + 1), S.LoopSpawn(0), Spawned(c, k, S.AwaitTick).sched);
  }

  lemma TickedReachable(c: Setup, k: nat)
    requires k <= c.maxRetries && Reachable(Spawned(c, k, S.AwaitTick))
    ensures Reachable(Spawned(c, k, S.Check))
  {
    FollowSched(Spawned(c, k, S.AwaitTick), S.LoopSelect(0, true), Spawned(c, k, S.Check).sched);
  }

  lemma JoinedCalls(maxRetries: nat, k: nat)
    requires k <= maxRetries
    ensures Joined(Calls(maxRetries, k, k), k) == Calls(maxRetries, k + 1, k)
  {
  }

  lemma CalledReachable(c: Setup, k: nat)
    requires k <= c.maxRetries && Reachable(Spawned(c, k, S.Check))
    ensures Reachable(Called(c, k, Calls(c.maxRetries, k + 1, k)))
  {
    assert (Started(c.job, k) + [S.Exec(0, c.job.id, S.Spawned)])[k := S.Exec(0, c.job.id, S.Started)]
        == Started(c.job, k + 1);
    JoinedCalls(c.maxRetries, k);
    Follow(Spawned(c, k, S.Check), Step(S.ExecStart(k, 0)), Called(c, k, Calls(c.maxRetries, k + 1, k)));
  }

  /** The new call has its first timer. */
  function Timed(maxRetries: nat, k: nat): Shared
    requires k <= maxRetries
  {
    Calls(maxRetries, k + 1, k).(pool := T.Take(T.Stage(maxRetries, k + 1, k), T.GetTimeout(k)))
  }

  lemma TimedReachable(c: Setup, k: nat)
    requires k <= c.maxRetries && Reachable(Called(c, k, Calls(c.maxRetries, k + 1, k)))
    ensures Reachable(Called(c, k, Timed(c.maxRetries, k)))
  {
    Follow(Called(c, k, Calls(c.maxRetries, k + 1, k)), Call(0, T.GetTimeout(k)), Called(c, k, Timed(c.maxRetries, k)));
  }

  lemma FailedCall(maxRetries: nat, k: nat)
    requires k <= maxRetries && maxRetries >= 1
    ensures T.Enabled(Timed(maxRetries, k).pool, T.Fail(k))
    ensures T.Take(Timed(maxRetries, k).pool, T.Fail(k)) == T.Stage(maxRetries, k + 1, k + 1)
  {
  }

  lemma FailedReachable(c: Setup, k: nat)
    requires k <= c.maxRetries && c.maxRetries >= 1 && Reachable(Called(c, k, Timed(c.maxRetries, k)))
    ensures Reachable(Stage(c, k + 1))
  {
    FailedCall(c.maxRetries, k);
    Follow(Called(c, k, Timed(c.maxRetries, k)), Call(0, T.Fail(k)), Stage(c, k + 1));
  }

  lemma NextSpawned(c: Setup, k: nat)
    requires HasRoom(c) && k <= c.maxRetries && Reachable(Stage(c, k))
    ensures Reachable(Spawned(c, k, S.Check))
  {
    CheckedReachable(c, k);
    AcquiredReachable(c, k);
    SpawnedReachable(c, k);
    TickedReachable(c, k);
  }

  lemma NextStage(c: Setup, k: nat)
    requires HasRoom(c) && k <= c.maxRetries && Reachable(Spawned(c, k, S.Check))
    ensures Reachable(Stage(c, k + 1))
  {
    CalledReachable(c, k);
    TimedReachable(c, k);
    FailedReachable(c, k);
  }

  lemma {:induction false} StageReachable(c: Setup, k: nat)
    requires HasRoom(c) && k <= c.maxRetries + 1
    ensures Reachable(Stage(c, k))
  {
    if k == 0 {
      StartReachable(c);
    } else {
      StageReachable(c, k - 1);
      NextSpawned(c, k - 1);
      NextStage(c, k - 1);
    }
  }

  // ---- Then Stop is called ----

  /** The scheduler with the mutex, its one loop and the one Stop call as given. */
  function Stopping(s: S.State, lock: S.Lock, l: S.Loop, call: S.StopCall): S.State {
    s.(stopped := true, lock := lock, loops := [l], stops := [call])
  }

  lemma EnteringReachable(w: World)
    requires Reachable(w) && w.sched.stops == []
    ensures Reachable(w.(sched := w.sched.(stops := [S.Entering])))
  {
    FollowSched(w, S.StopBegin, w.sched.(stops := [S.Entering]));
  }

  lemma EnteredReachable(w: World, id: string)
    requires Reachable(w) && w.sched.lock.Free? && !w.sched.stopped && w.sched.stops == [S.Entering]
    requires w.sched.jobs == map[id := 0] && |w.sched.loops| == 1
    ensures Reachable(w.(sched := Stopping(w.sched, S.Stopping(0, {id}, S.Picking), w.sched.loops[0], S.Marking)))
  {
    assert w.sched.jobs.Keys == {id};
    FollowSched(w, S.StopEnter(0), Stopping(w.sched, S.Stopping(0, {id}, S.Picking), w.sched.loops[0], S.Marking));
  }

  lemma CancelledReachable(w: World, id: string)
    requires Reachable(w) && w.sched.lock == S.Stopping(0, {id}, S.Picking) && w.sched.stopped
    requires w.sched.jobs == map[id := 0] && |w.sched.loops| == 1 && w.sched.stops == [S.Marking]
    ensures Reachable(w.(sched := Stopping(w.sched, S.Stopping(0, {id}, S.StopDeleting(id)),
                                           w.sched.loops[0].(cancelled := true), S.Marking)))
  {
    FollowSched(w, S.StopCancel(id), Stopping(w.sched, S.Stopping(0, {id}, S.StopDeleting(id)),
                                              w.sched.loops[0].(cancelled := true), S.Marking));
  }

  lemma DeletedReachable(w: World, id: string)
    requires Reachable(w) && w.sched.lock == S.Stopping(0, {id}, S.StopDeleting(id))
    ensures Reachable(w.(sched := w.sched.(lock := S.Stopping(0, {id}, S.StopMarking(id)),
                                           store := Apply(w.sched.store, Delete(id)))))
  {
    FollowSched(w, S.StopDelete, w.sched.(lock := S.Stopping(0, {id}, S.StopMarking(id)),
                                          store := Apply(w.sched.store, Delete(id))));
  }

  lemma MarkedReachable(w: World, id: string)
    requires Reachable(w) && w.sched.lock == S.Stopping(0, {id}, S.StopMarking(id))
    ensures Reachable(w.(sched := w.sched.(lock := S.Stopping(0, {}, S.Picking),
                                           store := Apply(w.sched.store, MarkTerminal(id, Stopped, 0)))))
  {
    assert {id} - {id} == {};
    FollowSched(w, S.StopMark(0), w.sched.(lock := S.Stopping(0, {}, S.Picking),
                                           store := Apply(w.sched.store, MarkTerminal(id, Stopped, 0))));
  }

  lemma UnlockedReachable(w: World)
    requires Reachable(w) && w.sched.lock == S.Stopping(0, {}, S.Picking) && |w.sched.stops| == 1
    ensures Reachable(w.(sched := w.sched.(lock := S.Free, jobs := map[], stops := [S.Waiting])))
  {
    FollowSched(w, S.StopUnlock, w.sched.(lock := S.Free, jobs := map[], stops := [S.Waiting]));
  }

  /** The scheduler with its one loop as given. */
  function WithLoop(w: World, l: S.Loop): World {
    w.(sched := w.sched.(loops := [l]))
  }

  lemma NoticedReachable(w: World)
    requires Reachable(w) && |w.sched.loops| == 1 && w.sched.loops[0].pc.Check? && w.sched.loops[0].cancelled
    ensures Reachable(WithLoop(w, w.sched.loops[0].(pc := S.ReadStopped)))
  {
    FollowSched(w, S.LoopCheck(0, false), WithLoop(w, w.sched.loops[0].(pc := S.ReadStopped)).sched);
  }

  lemma AskingReachable(w: World)
    requires Reachable(w) && |w.sched.loops| == 1 && w.sched.loops[0].pc.ReadStopped? && w.sched.lock.Free?
    ensures Reachable(WithLoop(w, w.sched.loops[0].(pc := S.ReadState(w.sched.stopped))))
  {
    FollowSched(w, S.LoopReadStopped(0), WithLoop(w, w.sched.loops[0].(pc := S.ReadState(w.sched.stopped))).sched);
  }

  function Decided(w: World): S.Loop
    requires |w.sched.loops| == 1 && w.sched.loops[0].pc.ReadState?
  {
    var l := w.sched.loops[0];
    l.(pc := S.WaitRuns, outcome := S.ContextOutcome(w.sched.store, l.job.id, l.pc.sawStopped))
  }

  lemma DecidedReachable(w: World)
    requires Reachable(w) && |w.sched.loops| == 1 && w.sched.loops[0].pc.ReadState?
    ensures Reachable(WithLoop(w, Decided(w)))
  {
    FollowSched(w, S.LoopReadState(0), WithLoop(w, Decided(w)).sched);
  }

  /** Stop closes and deletes the one registered job, and waits. */
  lemma StopReachable(w: World, id: string) returns (w': World)
    requires Reachable(w) && w.sched.lock.Free? && !w.sched.stopped && w.sched.stops == []
    requires w.sched.jobs == map[id := 0] && |w.sched.loops| == 1
    ensures Reachable(w') && w' == w.(sched := w'.sched)
    ensures w'.sched == Stopping(w.sched, S.Free, w.sched.loops[0].(cancelled := true), S.Waiting).(
                          jobs := map[], store := w'.sched.store)
  {
    EnteringReachable(w);
    w' := w.(sched := w.sched.(stops := [S.Entering]));
    EnteredReachable(w', id);
    w' := w'.(sched := Stopping(w'.sched, S.Stopping(0, {id}, S.Picking), w'.sched.loops[0], S.Marking));
    CancelledReachable(w', id);
    w' := w'.(sched := Stopping(w'.sched, S.Stopping(0, {id}, S.StopDeleting(id)),
                                w'.sched.loops[0].(cancelled := true), S.Marking));
    DeletedReachable(w', id);
    w' := w'.(sched := w'.sched.(lock := S.Stopping(0, {id}, S.StopMarking(id)),
                                 store := Apply(w'.sched.store, Delete(id))));
    MarkedReachable(w', id);
    w' := w'.(sched := w'.sched.(lock := S.Stopping(0, {}, S.Picking),
                                 store := Apply(w'.sched.store, MarkTerminal(id, Stopped, 0))));
    UnlockedReachable(w');
    w' := w'.(sched := w'.sched.(lock := S.Free, jobs := map[], stops := [S.Waiting]));
  }

  /** The cancelled loop leaves and waits for its executions. */
  lemma LoopLeaves(w: World) returns (w': World)
    requires Reachable(w) && w.sched.lock.Free? && |w.sched.loops| == 1
    requires w.sched.loops[0].pc.Check? && w.sched.loops[0].cancelled
    ensures Reachable(w') && |w'.sched.loops| == 1 && w' == WithLoop(w, w'.sched.loops[0])
    ensures w'.sched.loops[0].pc.WaitRuns? && w'.sched.loops[0].runsWg == w.sched.loops[0].runsWg
    ensures w'.sched.loops[0].job == w.sched.loops[0].job
  {
    NoticedReachable(w);
    w' := WithLoop(w, w.sched.loops[0].(pc := S.ReadStopped));
    AskingReachable(w');
    w' := WithLoop(w', w'.sched.loops[0].(pc := S.ReadState(w'.sched.stopped)));
    DecidedReachable(w');
    w' := WithLoop(w', Decided(w'));
  }

  /** Nothing can step once the only loop waits for executions that wait for each other. */
  lemma NothingSteps(w: World, c: Setup, a: Action)
    requires w.sched.execs == Started(c.job, c.maxRetries + 1) && w.uses == [0]
    requires w.retriers == [Calls(c.maxRetries, c.maxRetries + 1, c.maxRetries + 1)]
    requires |w.sched.loops| == 1 && w.sched.loops[0].pc.WaitRuns? && w.sched.loops[0].runsWg == c.maxRetries + 1
    requires IsProgress(a)
    ensures !Enabled(w, a)
  {
    if a.Step? && a.step.ExecRecord? && a.step.exec < c.maxRetries + 1 {
      var x := a.step.exec;
      assert T.Upto(c.maxRetries + 1)[x] == x;
      assert !w.retriers[0].pool.calls[x].pc.Done?;
    }
  }

  lemma HangReachable(c: Setup) returns (w: World)
    requires HasRoom(c)
    ensures Reachable(w) && Stuck(w) && w.sched.config.limit == c.limit && w.sched.stops == [S.Waiting]
    ensures |w.retriers| == 1 && w.retriers[0].pool.maxRetries == c.maxRetries
    ensures w.uses == [0] && |w.sched.loops| == 1 && w.sched.loops[0].job == c.job
  {
    StageReachable(c, c.maxRetries + 1);
    w := StopReachable(Stage(c, c.maxRetries + 1), c.job.id);
    w := LoopLeaves(w);
    forall a | IsProgress(a)
      ensures !Enabled(w, a)
    {
      NothingSteps(w, c, a);
    }
  }

  // ---- The exact condition ----

  /**
   Some run ends with a Stop call waiting and nothing able to step, in which all retriers have this many retries and the
   registrations on each ask for no more runs than `demand`, where it is given.
   */
  ghost predicate StopCanHang(limit: Option<nat>, demand: Option<nat>, maxRetries: nat) {
    exists w :: Reachable(w) && Stuck(w) && w.sched.config.limit == limit && HasWaiter(w) && AllWithin(w, demand, maxRetries)
  }

  ghost predicate HasWaiter(w: World) {
    exists c :: 0 <= c < |w.sched.stops| && w.sched.stops[c].Waiting?
  }

  ghost predicate AllWithin(w: World, demand: Option<nat>, maxRetries: nat) {
    && |w.sched.loops| == |w.uses|
    && forall r :: 0 <= r < |w.retriers| ==>
         && w.retriers[r].pool.maxRetries == maxRetries
         && (demand.Some? ==> DemandOn(w, r).Some? && DemandOn(w, r).value <= demand.value)
  }

  lemma HangIsWithin(limit: Option<nat>, demand: Option<nat>, maxRetries: nat)
    requires CanClog(limit, demand, maxRetries)
    ensures StopCanHang(limit, demand, maxRetries)
  {
    var job := Job("a", Schedule(false, false, if demand.Some? then demand.value else 0));
    var w := HangReachable(Setup(limit, job, maxRetries));
    assert w.sched.stops[0].Waiting?;
    assert HasWaiter(w);
    assert Demand(w.sched.loops, w.uses, 0, 0) == Some(0);
    assert AllWithin(w, demand, maxRetries);
  }

  /**
   Stop can hang exactly if there is a retry at all, and the concurrency limit and the runs asked of a retrier, where there
   are bounds on them, exceed its retries. One job is enough.
   */
  lemma StopCanHangIff(limit: Option<nat>, demand: Option<nat>, maxRetries: nat, payload: Payload)
    ensures StopCanHang(limit, demand, maxRetries) <==>
      && maxRetries >= 1
      && (limit.None? || limit.value > maxRetries)
      && (demand.None? || demand.value > maxRetries)
  {
    if StopCanHang(limit, demand, maxRetries) {
      var w :| Reachable(w) && Stuck(w) && w.sched.config.limit == limit && HasWaiter(w) &&
        AllWithin(w, demand, maxRetries);
      var r := StuckNeedsClog(w, payload);
    }
    if CanClog(limit, demand, maxRetries) {
      HangIsWithin(limit, demand, maxRetries);
    }
  }
}
