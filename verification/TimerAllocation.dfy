/**
 All calls on one retrier share a pool of MaxRetries + 1 timers. A call holds one timer throughout and takes a second one
 during each wait. This is when that allocation can and cannot block for good.
 */
module TimerAllocation {

  /** Where a `Do` or `DoWithContext` call is with respect to the pool. */
  datatype CallPc =
    | WantTimeout    // blocked taking its timeout timer
    | Working        // running an attempt
    | WantDelay      // blocked taking a delay timer
    | Delaying       // waiting for the retry interval
    | Returning      // about to give its timeout timer back
    | Done

  datatype Call = Call(pc: CallPc, attempt: nat, held: seq<nat>)

  /** `pool` is the channel of idle timers, oldest first. */
  datatype State = State(maxRetries: nat, pool: seq<nat>, calls: seq<Call>)

  datatype Action =
    | Arrive
    | GetTimeout(call: nat)
    | Fail(call: nat)                   // a retryable failure with budget left
    | GetDelay(call: nat)
    | PutDelay(call: nat, again: bool)  // the wait elapsed, or was interrupted
    | Conclude(call: nat)               // success, a permanent failure or an exhausted budget
    | PutTimeout(call: nat)

  function Upto(n: nat): seq<nat> {
    seq(n, i requires 0 <= i < n => i)
  }

  function Fresh(maxRetries: nat): State {
    State(maxRetries, Upto(maxRetries + 1), [])
  }

  ghost predicate Init(s: State) {
    s == Fresh(s.maxRetries)
  }

  predicate CallAt(s: State, c: nat, pc: CallPc) {
    c < |s.calls| && s.calls[c].pc == pc
  }

  /** Taking from an empty pool blocks. */
  predicate Enabled(s: State, a: Action) {
    match a
    case Arrive => true
    case GetTimeout(c) => CallAt(s, c, WantTimeout) && s.pool != []
    case Fail(c) => CallAt(s, c, Working) && s.calls[c].attempt < s.maxRetries
    case GetDelay(c) => CallAt(s, c, WantDelay) && s.pool != []
    case PutDelay(c, _) => CallAt(s, c, Delaying) && |s.calls[c].held| == 2
    case Conclude(c) => CallAt(s, c, Working)
    case PutTimeout(c) => CallAt(s, c, Returning) && |s.calls[c].held| == 1
  }

  /** A full pool discards the timer. */
  function Put(s: State, t: nat): seq<nat> {
    if |s.pool| < s.maxRetries + 1 then s.pool + [t] else s.pool
  }

  function Take(s: State, a: Action): State
    requires Enabled(s, a)
  {
    match a
    case Arrive => s.(calls := s.calls + [Call(WantTimeout, 0, [])])
    case GetTimeout(c) => s.(pool := s.pool[1..], calls := s.calls[c := Call(Working, 0, [s.pool[0]])])
    case Fail(c) => s.(calls := s.calls[c := s.calls[c].(pc := WantDelay)])
    case GetDelay(c) =>
      s.(pool := s.pool[1..], calls := s.calls[c := s.calls[c].(pc := Delaying, held := s.calls[c].held + [s.pool[0]])])
    case PutDelay(c, again) =>
      var call := s.calls[c];
      s.(pool := Put(s, call.held[1]),
         calls := s.calls[c := if again then Call(Working, call.attempt + 1, [call.held[0]])
                               else Call(Returning, call.attempt, [call.held[0]])])
    case Conclude(c) => s.(calls := s.calls[c := s.calls[c].(pc := Returning)])
    case PutTimeout(c) =>
      s.(pool := Put(s, s.calls[c].held[0]), calls := s.calls[c := Call(Done, s.calls[c].attempt, [])])
  }

  ghost predicate IsPath(run: seq<State>, actions: seq<Action>) {
    && |run| == |actions| + 1
    && forall i :: 0 <= i < |actions| ==> Enabled(run[i], actions[i]) && run[i + 1] == Take(run[i], actions[i])
  }

  ghost predicate Reachable(s: State) {
    exists run, actions :: IsPath(run, actions) && Init(run[0]) && run[|run| - 1] == s
  }

  lemma ReachableStep(s: State, a: Action)
    requires Reachable(s) && Enabled(s, a)
    ensures Reachable(Take(s, a))
  {
    var run, actions :| IsPath(run, actions) && Init(run[0]) && run[|run| - 1] == s;
    var run', actions' := run + [Take(s, a)], actions + [a];
    assert IsPath(run', actions') && run'[|run'| - 1] == Take(s, a);
  }

  lemma FreshReachable(maxRetries: nat)
    ensures Reachable(Fresh(maxRetries))
  {
    var s := Fresh(maxRetries);
    assert IsPath([s], []) && [s][|[s]| - 1] == s;
  }

  // ---- Conservation ----

  function Occurrences(ts: seq<nat>, t: nat): nat {
    if ts == [] then 0 else Occurrences(ts[..|ts| - 1], t) + if ts[|ts| - 1] == t then 1 else 0
  }

  lemma OccurrencesAppend(ts: seq<nat>, x: nat, t: nat)
    ensures Occurrences(ts + [x], t) == Occurrences(ts, t) + if x == t then 1 else 0
  {
    assert (ts + [x])[..|ts|] == ts;
  }

  lemma {:induction false} OccurrencesHead(ts: seq<nat>, t: nat)
    requires ts != []
    ensures Occurrences(ts, t) == (if ts[0] == t then 1 else 0) + Occurrences(ts[1..], t)
  {
    var n := |ts| - 1;
    if n > 0 {
      OccurrencesHead(ts[..n], t);
      assert ts[..n][1..] == ts[1..][..n - 1];
    }
  }

  /** How often timer `t` is held by the calls. */
  function HeldTimes(calls: seq<Call>, t: nat): nat {
    if calls == [] then 0 else HeldTimes(calls[..|calls| - 1], t) + Occurrences(calls[|calls| - 1].held, t)
  }

  /** How many timers the calls hold. */
  function HeldCount(calls: seq<Call>): nat {
    if calls == [] then 0 else HeldCount(calls[..|calls| - 1]) + |calls[|calls| - 1].held|
  }

  lemma {:induction false} HeldUpdate(calls: seq<Call>, i: nat, c: Call, t: nat)
    requires i < |calls|
    ensures HeldTimes(calls[i := c], t) == HeldTimes(calls, t) - Occurrences(calls[i].held, t) + Occurrences(c.held, t)
    ensures HeldCount(calls[i := c]) == HeldCount(calls) - |calls[i].held| + |c.held|
  {
    var n := |calls| - 1;
    if i == n {
      assert calls[i := c][..n] == calls[..n];
    } else {
      HeldUpdate(calls[..n], i, c, t);
      assert calls[i := c][..n] == calls[..n][i := c];
    }
  }

  lemma {:induction false} HeldAtLeast(calls: seq<Call>, i: nat)
    requires i < |calls|
    ensures |calls[i].held| <= HeldCount(calls)
  {
    if i < |calls| - 1 {
      HeldAtLeast(calls[..|calls| - 1], i);
    }
  }

  ghost predicate CallOk(c: Call, maxRetries: nat) {
    && |c.held| == (match c.pc
                    case WantTimeout => 0
                    case Working => 1
                    case WantDelay => 1
                    case Delaying => 2
                    case Returning => 1
                    case Done => 0)
    && c.attempt <= maxRetries
    && (c.pc.WantDelay? || c.pc.Delaying? ==> c.attempt < maxRetries)
  }

  /** Timer `t` is in the pool or with a call exactly once if it is one of the initial timers. */
  ghost predicate Conserved(s: State, t: nat) {
    Occurrences(s.pool, t) + HeldTimes(s.calls, t) == if t <= s.maxRetries then 1 else 0
  }

  ghost predicate Inv(s: State) {
    && (forall c :: 0 <= c < |s.calls| ==> CallOk(s.calls[c], s.maxRetries))
    && |s.pool| + HeldCount(s.calls) == s.maxRetries + 1
    && forall t :: Conserved(s, t)
  }

  lemma {:induction false} UptoOccurrences(n: nat, t: nat)
    ensures Occurrences(Upto(n), t) == if t < n then 1 else 0
  {
    if n > 0 {
      UptoOccurrences(n - 1, t);
      assert Upto(n)[..n - 1] == Upto(n - 1);
    }
  }

  lemma InitInv(s: State)
    requires Init(s)
    ensures Inv(s)
  {
    forall t ensures Conserved(s, t) {
      UptoOccurrences(s.maxRetries + 1, t);
    }
  }

  /** A call that puts a timer back holds it, so the pool has room. */
  lemma PutHasRoom(s: State, c: nat)
    requires Inv(s) && c < |s.calls| && |s.calls[c].held| > 0
    ensures |s.pool| < s.maxRetries + 1
  {
    HeldAtLeast(s.calls, c);
  }

  /** Timer by timer, a step moves at most one timer between the pool and the call that takes the step. */
  lemma StepConserves(s: State, a: Action, t: nat)
    requires Inv(s) && Enabled(s, a)
    ensures Conserved(Take(s, a), t)
    ensures |Take(s, a).pool| + HeldCount(Take(s, a).calls) == s.maxRetries + 1
  {
    assert Conserved(s, t);
    if a.Arrive? {
      assert Take(s, Arrive).calls[..|s.calls|] == s.calls;
    } else {
      assert CallOk(s.calls[a.call], s.maxRetries);
      if a.GetTimeout? || a.GetDelay? {
        GetConserves(s, a, t);
      } else if a.PutDelay? || a.PutTimeout? {
        PutConserves(s, a, t);
      } else {
        HeldUpdate(s.calls, a.call, Take(s, a).calls[a.call], t);
      }
    }
  }

  lemma GetConserves(s: State, a: Action, t: nat)
    requires Conserved(s, t) && |s.pool| + HeldCount(s.calls) == s.maxRetries + 1
    requires Enabled(s, a) && (a.GetTimeout? || a.GetDelay?) && CallOk(s.calls[a.call], s.maxRetries)
    ensures Conserved(Take(s, a), t)
    ensures |Take(s, a).pool| + HeldCount(Take(s, a).calls) == s.maxRetries + 1
  {
    var c, s' := a.call, Take(s, a);
    assert s'.calls[c].held == s.calls[c].held + [s.pool[0]];
    HeldUpdate(s.calls, c, s'.calls[c], t);
    OccurrencesHead(s.pool, t);
    OccurrencesAppend(s.calls[c].held, s.pool[0], t);
  }

  lemma PutConserves(s: State, a: Action, t: nat)
    requires Inv(s) && Conserved(s, t)
    requires Enabled(s, a) && (a.PutDelay? || a.PutTimeout?)
    ensures Conserved(Take(s, a), t)
    ensures |Take(s, a).pool| + HeldCount(Take(s, a).calls) == s.maxRetries + 1
  {
    var c, s' := a.call, Take(s, a);
    var back := s.calls[c].held[|s.calls[c].held| - 1];
    assert s.calls[c].held == s'.calls[c].held + [back];
    PutHasRoom(s, c);
    HeldUpdate(s.calls, c, s'.calls[c], t);
    OccurrencesAppend(s.pool, back, t);
    OccurrencesAppend(s'.calls[c].held, back, t);
  }

  lemma KeepsInv(s: State, a: Action)
    requires Inv(s) && Enabled(s, a)
    ensures Inv(Take(s, a))
  {
    forall t ensures Conserved(Take(s, a), t) {
      StepConserves(s, a, t);
    }
    StepConserves(s, a, 0);
  }

  lemma {:induction false} InvAlong(run: seq<State>, actions: seq<Action>, i: nat)
    requires IsPath(run, actions) && Init(run[0]) && i < |run|
    ensures Inv(run[i]) && run[i].maxRetries == run[0].maxRetries
  {
    if i == 0 {
      InitInv(run[0]);
    } else {
      InvAlong(run, actions, i - 1);
      KeepsInv(run[i - 1], actions[i - 1]);
    }
  }

  /**
   In every reachable state the pooled and held timers are the initial ones, each exactly once, and a timer that is put
   back always finds room: the discarding branch is never taken.
   */
  lemma TimersPartition(s: State)
    requires Reachable(s)
    ensures forall t: nat :: Occurrences(s.pool, t) + HeldTimes(s.calls, t) == if t <= s.maxRetries then 1 else 0
    ensures forall c :: 0 <= c < |s.calls| && s.calls[c].held != [] ==> |s.pool| < s.maxRetries + 1
  {
    var run, actions :| IsPath(run, actions) && Init(run[0]) && run[|run| - 1] == s;
    InvAlong(run, actions, |run| - 1);
    forall t: nat ensures Occurrences(s.pool, t) + HeldTimes(s.calls, t) == if t <= s.maxRetries then 1 else 0 {
      assert Conserved(s, t);
    }
    forall c | 0 <= c < |s.calls| && s.calls[c].held != []
      ensures |s.pool| < s.maxRetries + 1
    {
      PutHasRoom(s, c);
    }
  }

  // ---- Blocking ----

  function LiveCalls(calls: seq<Call>): nat {
    if calls == [] then 0 else LiveCalls(calls[..|calls| - 1]) + if calls[|calls| - 1].pc.Done? then 0 else 1
  }

  /** The call waits for a timer. */
  predicate Wants(c: Call) {
    c.pc.WantTimeout? || c.pc.WantDelay?
  }

  /** Calls are live and every one of them is blocked taking a timer. */
  ghost predicate AllBlocked(s: State) {
    && LiveCalls(s.calls) > 0
    && s.pool == []
    && forall c :: 0 <= c < |s.calls| && !s.calls[c].pc.Done? ==> Wants(s.calls[c])
  }

  lemma {:induction false} WaitersHoldOneEach(calls: seq<Call>, maxRetries: nat)
    requires forall c :: 0 <= c < |calls| ==> CallOk(calls[c], maxRetries) && (calls[c].pc.Done? || Wants(calls[c]))
    ensures HeldCount(calls) <= LiveCalls(calls)
    ensures maxRetries == 0 ==> HeldCount(calls) == 0
  {
    if calls != [] {
      WaitersHoldOneEach(calls[..|calls| - 1], maxRetries);
    }
  }

  /** A full block needs a retry budget and more calls than retries. */
  lemma BlockNeedsManyCalls(s: State)
    requires Reachable(s) && AllBlocked(s)
    ensures s.maxRetries >= 1 && LiveCalls(s.calls) >= s.maxRetries + 1
  {
    var run, actions :| IsPath(run, actions) && Init(run[0]) && run[|run| - 1] == s;
    InvAlong(run, actions, |run| - 1);
    WaitersHoldOneEach(s.calls, s.maxRetries);
  }

  // ---- The blocked state is reachable ----

  function Waiter(i: nat, k: nat): Call {
    if i < k then Call(WantDelay, 0, [i]) else Call(WantTimeout, 0, [])
  }

  /** `n` calls have arrived and the first `k` hold a timer and want another. */
  function Stage(maxRetries: nat, n: nat, k: nat): State
    requires k <= maxRetries + 1
  {
    State(maxRetries, Upto(maxRetries + 1)[k..], seq(n, i requires 0 <= i < n => Waiter(i, k)))
  }

  lemma {:induction false} ArrivalsReachable(maxRetries: nat, n: nat)
    ensures Reachable(Stage(maxRetries, n, 0))
  {
    if n == 0 {
      FreshReachable(maxRetries);
      assert Stage(maxRetries, 0, 0) == Fresh(maxRetries);
    } else {
      ArrivalsReachable(maxRetries, n - 1);
      ReachableStep(Stage(maxRetries, n - 1, 0), Arrive);
      assert Take(Stage(maxRetries, n - 1, 0), Arrive) == Stage(maxRetries, n, 0);
    }
  }

  lemma {:induction false} StageReachable(maxRetries: nat, n: nat, k: nat)
    requires maxRetries >= 1 && k <= maxRetries + 1 && k <= n
    ensures Reachable(Stage(maxRetries, n, k))
  {
    if k == 0 {
      ArrivalsReachable(maxRetries, n);
    } else {
      StageReachable(maxRetries, n, k - 1);
      var s := Stage(maxRetries, n, k - 1);
      ReachableStep(s, GetTimeout(k - 1));
      var t := Take(s, GetTimeout(k - 1));
      ReachableStep(t, Fail(k - 1));
      assert Take(t, Fail(k - 1)) == Stage(maxRetries, n, k);
    }
  }

  lemma {:induction false} AllWaitersLive(calls: seq<Call>)
    requires forall c :: 0 <= c < |calls| ==> !calls[c].pc.Done?
    ensures LiveCalls(calls) == |calls|
  {
    if calls != [] {
      AllWaitersLive(calls[..|calls| - 1]);
    }
  }

  ghost predicate CanBlock(maxRetries: nat, n: nat) {
    exists s :: Reachable(s) && s.maxRetries == maxRetries && AllBlocked(s) && LiveCalls(s.calls) == n
  }

  /** `n` live calls can all block each other exactly if MaxRetries is at least one and `n` exceeds it. */
  lemma FullBlockIff(maxRetries: nat, n: nat)
    ensures CanBlock(maxRetries, n) <==> maxRetries >= 1 && n >= maxRetries + 1
  {
    if CanBlock(maxRetries, n) {
      var s :| Reachable(s) && s.maxRetries == maxRetries && AllBlocked(s) && LiveCalls(s.calls) == n;
      BlockNeedsManyCalls(s);
    }
    if maxRetries >= 1 && n >= maxRetries + 1 {
      var s := Stage(maxRetries, n, maxRetries + 1);
      StageReachable(maxRetries, n, maxRetries + 1);
      AllWaitersLive(s.calls);
      assert AllBlocked(s);
    }
  }

  /** A full block is permanent: only arrivals are possible, and they join it. */
  lemma BlockIsPermanent(s: State, a: Action)
    requires AllBlocked(s) && Enabled(s, a)
    ensures a.Arrive? && AllBlocked(Take(s, a))
  {
    assert Take(s, Arrive).calls[..|s.calls|] == s.calls;
  }

  // ---- A call's course ----

  /** A call that concludes, or whose wait is cut short, only gives its timeout timer back, and that is always possible. */
  lemma CallEnds(s: State, a: Action) returns (s': State)
    requires Reachable(s) && Enabled(s, a) && (a.Conclude? || (a.PutDelay? && !a.again))
    ensures Enabled(Take(s, a), PutTimeout(a.call)) && s' == Take(Take(s, a), PutTimeout(a.call))
    ensures a.call < |s'.calls| && s'.calls[a.call].pc.Done? && s'.calls[a.call].held == []
    ensures |s'.pool| == |s.pool| + |s.calls[a.call].held|
  {
    var run, actions :| IsPath(run, actions) && Init(run[0]) && run[|run| - 1] == s;
    InvAlong(run, actions, |run| - 1);
    assert CallOk(s.calls[a.call], s.maxRetries);
    PutHasRoom(s, a.call);
    KeepsInv(s, a);
    PutHasRoom(Take(s, a), a.call);
    s' := Take(Take(s, a), PutTimeout(a.call));
  }

  /** With retries to make, a call alone gets through to each of its attempts. */
  lemma {:induction false} AttemptsReachable(maxRetries: nat, k: nat) returns (s: State)
    requires 1 <= maxRetries && k <= maxRetries
    ensures Reachable(s) && s.maxRetries == maxRetries && |s.calls| == 1
    ensures s.calls[0].pc.Working? && s.calls[0].attempt == k
  {
    if k == 0 {
      FreshReachable(maxRetries);
      s := Fresh(maxRetries);
      ReachableStep(s, Arrive);
      s := Take(s, Arrive);
      ReachableStep(s, GetTimeout(0));
      s := Take(s, GetTimeout(0));
    } else {
      s := AttemptsReachable(maxRetries, k - 1);
      s := NextAttempt(s);
    }
  }

  lemma NextAttempt(s: State) returns (s': State)
    requires Reachable(s) && |s.calls| == 1 && s.calls[0].pc.Working? && s.calls[0].attempt < s.maxRetries
    ensures Reachable(s') && s'.maxRetries == s.maxRetries && |s'.calls| == 1
    ensures s'.calls[0].pc.Working? && s'.calls[0].attempt == s.calls[0].attempt + 1
  {
    var run, actions :| IsPath(run, actions) && Init(run[0]) && run[|run| - 1] == s;
    InvAlong(run, actions, |run| - 1);
    LoneCallLeavesTimers(s);
    ReachableStep(s, Fail(0));
    var s1 := Take(s, Fail(0));
    ReachableStep(s1, GetDelay(0));
    var s2 := Take(s1, GetDelay(0));
    ReachableStep(s2, PutDelay(0, true));
    s' := Take(s2, PutDelay(0, true));
  }

  lemma LoneCallLeavesTimers(s: State)
    requires Inv(s) && |s.calls| == 1 && s.calls[0].pc.Working? && s.maxRetries >= 1
    ensures s.pool != [] && |s.calls[0].held| == 1
  {
    assert CallOk(s.calls[0], s.maxRetries);
    assert s.calls[..0] == [];
    assert HeldCount(s.calls) == |s.calls[0].held|;
  }
}
