/** Counting loops and executions by what they hold. */
module SchedulerCounts {
  import opened SchedulerModel

  /** What an execution can hold: a place in a wait group, a semaphore slot, an entry in a job's counters. */
  datatype ExecKind =
    | Live                     // in the scheduler's wait group
    | Slot                     // a semaphore token
    | RunOf(entry: nat)        // in the registration's wait group
    | SpawnedBy(entry: nat)    // ever started by the registration
    | ActiveOf(id: string)     // started, result not recorded
    | RecordedOf(id: string)   // result recorded
    | Among(entries: set<nat>) // ever started by one of the registrations

  predicate IsExec(x: Exec, k: ExecKind) {
    match k
    case Live => !x.pc.Gone?
    case Slot => x.pc.Spawned? || x.pc.Started? || x.pc.Recorded?
    case RunOf(e) => x.entry == e && !x.pc.RunDone? && !x.pc.Gone?
    case SpawnedBy(e) => x.entry == e
    case ActiveOf(id) => x.id == id && x.pc.Started?
    case RecordedOf(id) => x.id == id && !x.pc.Spawned? && !x.pc.Started?
    case Among(entries) => x.entry in entries
  }

  function CountExecs(xs: seq<Exec>, k: ExecKind): nat {
    if xs == [] then 0
    else CountExecs(xs[..|xs| - 1], k) + if IsExec(xs[|xs| - 1], k) then 1 else 0
  }

  lemma {:induction false} CountExecsUpdate(xs: seq<Exec>, i: nat, x: Exec, k: ExecKind)
    requires i < |xs|
    ensures CountExecs(xs[i := x], k) ==
      CountExecs(xs, k) - (if IsExec(xs[i], k) then 1 else 0) + if IsExec(x, k) then 1 else 0
  {
    var n := |xs| - 1;
    if i == n {
      assert xs[i := x][..n] == xs[..n];
    } else {
      CountExecsUpdate(xs[..n], i, x, k);
      assert xs[i := x][..n] == xs[..n][i := x];
    }
  }

  lemma CountExecsAppend(xs: seq<Exec>, x: Exec, k: ExecKind)
    ensures CountExecs(xs + [x], k) == CountExecs(xs, k) + if IsExec(x, k) then 1 else 0
  {
    assert (xs + [x])[..|xs|] == xs;
  }

  lemma {:induction false} CountExecsZero(xs: seq<Exec>, k: ExecKind)
    ensures CountExecs(xs, k) == 0 <==> forall i :: 0 <= i < |xs| ==> !IsExec(xs[i], k)
  {
    if xs != [] {
      CountExecsZero(xs[..|xs| - 1], k);
    }
  }

  /** Kinds that agree on every element have equal counts. */
  lemma {:induction false} CountExecsSame(xs: seq<Exec>, k: ExecKind, j: ExecKind)
    requires forall i :: 0 <= i < |xs| ==> IsExec(xs[i], k) == IsExec(xs[i], j)
    ensures CountExecs(xs, k) == CountExecs(xs, j)
  {
    if xs != [] {
      CountExecsSame(xs[..|xs| - 1], k, j);
    }
  }

  lemma {:induction false} CountExecsBelow(xs: seq<Exec>, k: ExecKind, j: ExecKind)
    requires forall i :: 0 <= i < |xs| && IsExec(xs[i], k) ==> IsExec(xs[i], j)
    ensures CountExecs(xs, k) <= CountExecs(xs, j)
  {
    if xs != [] {
      CountExecsBelow(xs[..|xs| - 1], k, j);
    }
  }

  /** What a loop can hold. */
  datatype LoopKind = LiveLoop | Token

  predicate IsLoop(l: Loop, k: LoopKind) {
    match k
    case LiveLoop => !l.pc.Exited?
    case Token => l.pc.SpawnRun?
  }

  function CountLoops(ls: seq<Loop>, k: LoopKind): nat {
    if ls == [] then 0
    else CountLoops(ls[..|ls| - 1], k) + if IsLoop(ls[|ls| - 1], k) then 1 else 0
  }

  lemma {:induction false} CountLoopsUpdate(ls: seq<Loop>, i: nat, l: Loop, k: LoopKind)
    requires i < |ls|
    ensures CountLoops(ls[i := l], k) ==
      CountLoops(ls, k) - (if IsLoop(ls[i], k) then 1 else 0) + if IsLoop(l, k) then 1 else 0
  {
    var n := |ls| - 1;
    if i == n {
      assert ls[i := l][..n] == ls[..n];
    } else {
      CountLoopsUpdate(ls[..n], i, l, k);
      assert ls[i := l][..n] == ls[..n][i := l];
    }
  }

  lemma CountLoopsAppend(ls: seq<Loop>, l: Loop, k: LoopKind)
    ensures CountLoops(ls + [l], k) == CountLoops(ls, k) + if IsLoop(l, k) then 1 else 0
  {
    assert (ls + [l])[..|ls|] == ls;
  }

  lemma {:induction false} CountLoopsZero(ls: seq<Loop>, k: LoopKind)
    ensures CountLoops(ls, k) == 0 <==> forall i :: 0 <= i < |ls| ==> !IsLoop(ls[i], k)
  {
    if ls != [] {
      CountLoopsZero(ls[..|ls| - 1], k);
    }
  }
}
