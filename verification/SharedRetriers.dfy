/**
 The scheduler together with the retriers of its jobs. A job brings a retrier or gets a fresh one, several jobs may share
 one, and all executions of a job use its retrier. A started execution is a call on that retrier and can record its result
 only once the call has returned, so the timer pools decide whether executions finish.
 */
module SharedRetriers {
  import opened JobTypes
  import opened SchedulerInvariants
  import opened SchedulerCounters
  import opened SchedulerLedger
  import S = SchedulerModel
  import T = TimerAllocation
  import Theorems = SchedulerTheorems
  import Outcomes = SchedulerOutcomes

  /**
   A retrier: whether its configuration is valid, its timer pool with the calls on it, and the execution behind each call.
   A retrier with an invalid configuration answers at once and never takes a timer.
   */
  datatype Shared = Shared(valid: bool, pool: T.State, owners: seq<nat>)

  /** `uses` names the retrier of each registration. */
  datatype World = World(sched: S.State, retriers: seq<Shared>, uses: seq<nat>)

  datatype Action =
    | Step(step: S.Action)
    // The last step of Schedule: with a known retrier, or else a new one
    | Register(retrier: nat, maxRetries: nat, valid: bool)
    | Call(retrier: nat, move: T.Action)

  ghost predicate Init(w: World) {
    S.Init(w.sched) && w.retriers == [] && w.uses == []
  }

  predicate HasRetrier(w: World, x: nat) {
    x < |w.sched.execs| && w.sched.execs[x].entry < |w.uses| && w.uses[w.sched.execs[x].entry] < |w.retriers|
  }

  function RetrierOf(w: World, x: nat): nat
    requires HasRetrier(w, x)
  {
    w.uses[w.sched.execs[x].entry]
  }

  /** No call of execution `x` is still under way. */
  predicate Returned(sh: Shared, x: nat) {
    forall c :: 0 <= c < |sh.owners| && c < |sh.pool.calls| && sh.owners[c] == x ==> sh.pool.calls[c].pc.Done?
  }

  predicate Enabled(w: World, a: Action) {
    match a
    case Step(step) =>
      && S.Enabled(w.sched, step) && !step.ScheduleSpawn?
      && (step.ExecStart? ==> HasRetrier(w, step.exec))
      && (step.ExecRecord? ==> HasRetrier(w, step.exec) && Returned(w.retriers[RetrierOf(w, step.exec)], step.exec))
    case Register(r, _, _) => S.Enabled(w.sched, S.ScheduleSpawn) && r <= |w.retriers|
    case Call(r, step) => r < |w.retriers| && !step.Arrive? && T.Enabled(w.retriers[r].pool, step)
  }

  /** Execution `x` calls the retrier. */
  function Joined(sh: Shared, x: nat): Shared {
    if sh.valid then sh.(pool := T.Take(sh.pool, T.Arrive), owners := sh.owners + [x]) else sh
  }

  function Take(w: World, a: Action): World
    requires Enabled(w, a)
  {
    match a
    case Step(step) =>
      if step.ExecStart? then
        var r := RetrierOf(w, step.exec);
        w.(sched := S.Take(w.sched, step), retriers := w.retriers[r := Joined(w.retriers[r], step.exec)])
      else w.(sched := S.Take(w.sched, step))
    case Register(r, maxRetries, valid) =>
      World(S.Take(w.sched, S.ScheduleSpawn),
            if r < |w.retriers| then w.retriers else w.retriers + [Shared(valid, T.Fresh(maxRetries), [])],
            w.uses + [r])
    case Call(r, step) =>
      w.(retriers := w.retriers[r := w.retriers[r].(pool := T.Take(w.retriers[r].pool, step))])
  }

  ghost predicate IsPath(run: seq<World>, actions: seq<Action>) {
    && |run| == |actions| + 1
    && forall i :: 0 <= i < |actions| ==> Enabled(run[i], actions[i]) && run[i + 1] == Take(run[i], actions[i])
  }

  ghost predicate Reachable(w: World) {
    exists run, actions :: IsPath(run, actions) && Init(run[0]) && run[|run| - 1] == w
  }

  lemma PathStep(run: seq<World>, actions: seq<Action>, k: nat)
    requires IsPath(run, actions) && k < |actions|
    ensures Enabled(run[k], actions[k]) && run[k + 1] == Take(run[k], actions[k])
  {
  }

  lemma ReachableStep(w: World, a: Action)
    requires Reachable(w) && Enabled(w, a)
    ensures Reachable(Take(w, a))
  {
    var run, actions :| IsPath(run, actions) && Init(run[0]) && run[|run| - 1] == w;
    ExtendRun(run, actions, a, Take(w, a));
  }

  lemma ExtendRun(run: seq<World>, actions: seq<Action>, a: Action, w': World)
    requires IsPath(run, actions) && Init(run[0]) && Enabled(run[|run| - 1], a) && w' == Take(run[|run| - 1], a)
    ensures Reachable(w')
  {
    var run', actions' := run + [w'], actions + [a];
    assert IsPath(run', actions') && run'[|run'| - 1] == w';
  }

  /** A registration uses the retrier it names, as it is when the retrier is known, and otherwise a new one. */
  lemma RegisterUses(w: World, known: nat, maxRetries: nat, valid: bool)
    requires Enabled(w, Register(known, maxRetries, valid))
    ensures var w' := Take(w, Register(known, maxRetries, valid));
            && w'.uses == w.uses + [known] && known < |w'.retriers|
            && (known < |w.retriers| ==> w'.retriers == w.retriers)
            && (known == |w.retriers| ==> w'.retriers == w.retriers + [Shared(valid, T.Fresh(maxRetries), [])])
  {
  }

  // ---- Executions and their calls ----

  /** A call belongs to an execution of this retrier that has started, and not recorded while the call lasts. */
  ghost predicate OwnerOk(c: T.Call, x: nat, execs: seq<S.Exec>, uses: seq<nat>, r: nat) {
    && x < |execs| && execs[x].entry < |uses| && uses[execs[x].entry] == r
    && !execs[x].pc.Spawned?
    && (!c.pc.Done? ==> execs[x].pc.Started?)
  }

  ghost predicate OwnersOk(sh: Shared, execs: seq<S.Exec>, uses: seq<nat>, r: nat) {
    && |sh.owners| == |sh.pool.calls|
    && (forall c, d :: 0 <= c < d < |sh.owners| ==> sh.owners[c] != sh.owners[d])
    && (forall c :: 0 <= c < |sh.owners| ==> OwnerOk(sh.pool.calls[c], sh.owners[c], execs, uses, r))
  }

  ghost predicate SharedOk(w: World, r: nat) {
    r < |w.retriers| ==> OwnersOk(w.retriers[r], w.sched.execs, w.uses, r) && T.Reachable(w.retriers[r].pool)
  }

  ghost predicate LinksOk(w: World) {
    && |w.uses| == |w.sched.loops|
    && (forall e :: 0 <= e < |w.uses| ==> w.uses[e] < |w.retriers|)
    && (forall r: nat :: SharedOk(w, r))
  }

  ghost predicate Inv(w: World) {
    Theorems.Inv(w.sched) && LinksOk(w)
  }

  /** Executions keep their registration, and advance only by their own steps. */
  lemma ExecsAfter(s: S.State, a: S.Action, x: nat)
    requires S.Enabled(s, a) && x < |s.execs|
    ensures x < |S.Take(s, a).execs|
    ensures S.Take(s, a).execs[x] ==
      if IsExecStep(a) && a.exec == x then s.execs[x].(pc := NextExecPc(s.execs[x].pc)) else s.execs[x]
  {
    if IsExecStep(a) {
      ExecStepMoves(s, a);
    } else if !a.LoopSpawn? {
      CallsRestAfter(s, a);
    }
  }

  lemma LoopsAfter(s: S.State, a: S.Action)
    requires Shape(s) && S.Enabled(s, a)
    ensures |S.Take(s, a).loops| == |s.loops| + if a.ScheduleSpawn? then 1 else 0
  {
    JobsOfLoops(s, a);
  }

  /** A scheduler step leaves the owner of a call as it should be, if its own recording waits for the call. */
  lemma OwnerStays(c: T.Call, x: nat, s: S.State, a: S.Action, uses: seq<nat>, uses': seq<nat>, r: nat)
    requires S.Enabled(s, a) && OwnerOk(c, x, s.execs, uses, r)
    requires a.ExecRecord? && a.exec == x ==> c.pc.Done?
    requires uses <= uses'
    ensures OwnerOk(c, x, S.Take(s, a).execs, uses', r)
  {
    ExecsAfter(s, a, x);
  }

  lemma StepKeepsOwners(w: World, a: S.Action, r: nat)
    requires LinksOk(w) && Enabled(w, Step(a)) && r < |w.retriers|
    ensures OwnersOk(w.retriers[r], S.Take(w.sched, a).execs, w.uses, r)
  {
    var sh := w.retriers[r];
    assert SharedOk(w, r);
    forall c | 0 <= c < |sh.owners|
      ensures OwnerOk(sh.pool.calls[c], sh.owners[c], S.Take(w.sched, a).execs, w.uses, r)
    {
      assert OwnerOk(sh.pool.calls[c], sh.owners[c], w.sched.execs, w.uses, r);
      OwnerStays(sh.pool.calls[c], sh.owners[c], w.sched, a, w.uses, w.uses, r);
    }
  }

  lemma JoinKeepsOwners(sh: Shared, x: nat, execs: seq<S.Exec>, execs': seq<S.Exec>, uses: seq<nat>, r: nat)
    requires OwnersOk(sh, execs, uses, r) && OwnersOk(sh, execs', uses, r)
    requires x < |execs| && execs[x].pc.Spawned?
    requires x < |execs'| && execs'[x].pc.Started? && execs'[x].entry < |uses| && uses[execs'[x].entry] == r
    ensures OwnersOk(Joined(sh, x), execs', uses, r)
  {
    forall c | 0 <= c < |sh.owners|
      ensures sh.owners[c] != x
    {
      assert OwnerOk(sh.pool.calls[c], sh.owners[c], execs, uses, r);
    }
  }

  lemma StepKeepsShared(w: World, a: S.Action, r: nat)
    requires Inv(w) && Enabled(w, Step(a)) && r < |w.retriers|
    ensures SharedOk(Take(w, Step(a)), r)
  {
    assert SharedOk(w, r);
    StepKeepsOwners(w, a, r);
    StepOnRetrier(w, a, r);
    if a.ExecStart? && RetrierOf(w, a.exec) == r {
      StartKeepsShared(w, a, r);
    }
  }

  lemma StepOnRetrier(w: World, a: S.Action, r: nat)
    requires Enabled(w, Step(a)) && r < |w.retriers|
    ensures var w' := Take(w, Step(a));
      && w'.sched == S.Take(w.sched, a) && w'.uses == w.uses && |w'.retriers| == |w.retriers|
      && w'.retriers[r] == if a.ExecStart? && RetrierOf(w, a.exec) == r then Joined(w.retriers[r], a.exec) else w.retriers[r]
  {
  }

  lemma StartKeepsShared(w: World, a: S.Action, r: nat)
    requires Enabled(w, Step(a)) && a.ExecStart? && r < |w.retriers| && RetrierOf(w, a.exec) == r && SharedOk(w, r)
    requires OwnersOk(w.retriers[r], S.Take(w.sched, a).execs, w.uses, r)
    ensures OwnersOk(Joined(w.retriers[r], a.exec), S.Take(w.sched, a).execs, w.uses, r)
    ensures T.Reachable(Joined(w.retriers[r], a.exec).pool)
  {
    ExecsAfter(w.sched, a, a.exec);
    JoinKeepsOwners(w.retriers[r], a.exec, w.sched.execs, S.Take(w.sched, a).execs, w.uses, r);
    T.ReachableStep(w.retriers[r].pool, T.Arrive);
  }

  lemma RegisterKeepsShared(w: World, known: nat, maxRetries: nat, valid: bool, r: nat)
    requires Inv(w) && Enabled(w, Register(known, maxRetries, valid))
    ensures SharedOk(Take(w, Register(known, maxRetries, valid)), r)
  {
    CallsRestAfter(w.sched, S.ScheduleSpawn);
    if r < |w.retriers| {
      assert SharedOk(w, r);
      MoreUsesKeepOwners(w.retriers[r], w.sched.execs, w.uses, known, r);
    } else if r < |Take(w, Register(known, maxRetries, valid)).retriers| {
      T.FreshReachable(maxRetries);
    }
  }

  lemma MoreUsesKeepOwners(sh: Shared, execs: seq<S.Exec>, uses: seq<nat>, known: nat, r: nat)
    requires OwnersOk(sh, execs, uses, r)
    ensures OwnersOk(sh, execs, uses + [known], r)
  {
    forall c | 0 <= c < |sh.owners|
      ensures OwnerOk(sh.pool.calls[c], sh.owners[c], execs, uses + [known], r)
    {
      assert OwnerOk(sh.pool.calls[c], sh.owners[c], execs, uses, r);
    }
  }

  /** A step on the pool advances one call, and no finished call comes back. */
  lemma CallsAfter(pool: T.State, step: T.Action)
    requires T.Enabled(pool, step) && !step.Arrive?
    ensures |T.Take(pool, step).calls| == |pool.calls|
    ensures forall c :: 0 <= c < |pool.calls| && pool.calls[c].pc.Done? ==> T.Take(pool, step).calls[c].pc.Done?
  {
  }

  lemma CallKeepsShared(w: World, r: nat, step: T.Action)
    requires Inv(w) && Enabled(w, Call(r, step))
    ensures SharedOk(Take(w, Call(r, step)), r)
  {
    assert SharedOk(w, r);
    var sh := w.retriers[r];
    var pool' := T.Take(sh.pool, step);
    T.ReachableStep(sh.pool, step);
    CallsAfter(sh.pool, step);
    forall c | 0 <= c < |sh.owners|
      ensures c < |pool'.calls| && OwnerOk(pool'.calls[c], sh.owners[c], w.sched.execs, w.uses, r)
    {
      assert OwnerOk(sh.pool.calls[c], sh.owners[c], w.sched.execs, w.uses, r);
    }
  }

  lemma KeepsShared(w: World, a: Action, r: nat)
    requires Inv(w) && Enabled(w, a)
    ensures SharedOk(Take(w, a), r)
  {
    match a
    case Step(step) =>
      if r < |w.retriers| {
        StepKeepsShared(w, step, r);
      }
    case Register(known, maxRetries, valid) => RegisterKeepsShared(w, known, maxRetries, valid, r);
    case Call(called, step) =>
      if r == called {
        CallKeepsShared(w, r, step);
      } else {
        assert SharedOk(w, r);
      }
  }

  /** What the scheduler does in a step of the whole, if anything. */
  function SchedStep(a: Action): Option<S.Action> {
    match a
    case Step(step) => Some(step)
    case Register(_, _, _) => Some(S.ScheduleSpawn)
    case Call(_, _) => None
  }

  lemma KeepsSched(w: World, a: Action)
    requires Inv(w) && Enabled(w, a)
    ensures Theorems.Inv(Take(w, a).sched)
  {
    if SchedStep(a).Some? {
      Theorems.KeepsInv(w.sched, SchedStep(a).value);
    }
  }

  lemma KeepsUses(w: World, a: Action)
    requires Inv(w) && Enabled(w, a)
    ensures |Take(w, a).uses| == |Take(w, a).sched.loops|
    ensures forall e :: 0 <= e < |Take(w, a).uses| ==> Take(w, a).uses[e] < |Take(w, a).retriers|
  {
    if SchedStep(a).Some? {
      LoopsAfter(w.sched, SchedStep(a).value);
    }
    UsesNamed(w, a);
  }

  lemma UsesNamed(w: World, a: Action)
    requires Enabled(w, a) && forall e :: 0 <= e < |w.uses| ==> w.uses[e] < |w.retriers|
    ensures |Take(w, a).uses| == |w.uses| + if a.Register? then 1 else 0
    ensures forall e :: 0 <= e < |Take(w, a).uses| ==> Take(w, a).uses[e] < |Take(w, a).retriers|
  {
  }

  lemma KeepsInv(w: World, a: Action)
    requires Inv(w) && Enabled(w, a)
    ensures Inv(Take(w, a))
  {
    KeepsSched(w, a);
    KeepsUses(w, a);
    forall r: nat
      ensures SharedOk(Take(w, a), r)
    {
      KeepsShared(w, a, r);
    }
  }

  lemma InitInv(w: World)
    requires Init(w)
    ensures Inv(w)
  {
    Theorems.InitInv(w.sched);
  }

  lemma InvStep(run: seq<World>, actions: seq<Action>, k: nat)
    requires IsPath(run, actions) && k < |actions| && Inv(run[k])
    ensures Inv(run[k + 1])
  {
    PathStep(run, actions, k);
    KeepsInv(run[k], actions[k]);
  }

  lemma {:induction false} InvAlong(run: seq<World>, actions: seq<Action>, i: nat)
    requires IsPath(run, actions) && Inv(run[0]) && i < |run|
    ensures Inv(run[i])
  {
    if i > 0 {
      InvAlong(run, actions, i - 1);
      InvStep(run, actions, i - 1);
    }
  }

  lemma ReachableInv(w: World)
    requires Reachable(w)
    ensures Inv(w)
  {
    var run, actions :| IsPath(run, actions) && Init(run[0]) && run[|run| - 1] == w;
    InitInv(run[0]);
    InvAlong(run, actions, |run| - 1);
  }

  lemma {:induction false} SchedReachableAlong(run: seq<World>, actions: seq<Action>, i: nat)
    requires IsPath(run, actions) && Init(run[0]) && i < |run|
    ensures S.Reachable(run[i].sched)
  {
    if i == 0 {
      var s := run[0].sched;
      assert S.IsRun([s], []) && [s][|[s]| - 1] == s;
    } else {
      SchedReachableAlong(run, actions, i - 1);
      var a := SchedStep(actions[i - 1]);
      if a.Some? {
        Outcomes.ReachableStep(run[i - 1].sched, a.value);
      }
    }
  }

  /** Every reachable state of the whole consists of a reachable scheduler and reachable timer pools. */
  lemma PartsReachable(w: World)
    requires Reachable(w)
    ensures S.Reachable(w.sched)
    ensures forall r :: 0 <= r < |w.retriers| ==> T.Reachable(w.retriers[r].pool)
  {
    var run, actions :| IsPath(run, actions) && Init(run[0]) && run[|run| - 1] == w;
    SchedReachableAlong(run, actions, |run| - 1);
    ReachableInv(w);
    forall r | 0 <= r < |w.retriers|
      ensures T.Reachable(w.retriers[r].pool)
    {
      assert SharedOk(w, r);
    }
  }
}
