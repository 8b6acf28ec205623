/** Why a final state is shown: each one is the work of a particular party. */
module SchedulerReasons {
  import opened JobTypes
  import opened MemoryStorage
  import opened SchedulerModel
  import opened SchedulerInvariants
  import opened SchedulerLedger
  import opened SchedulerLifecycle
  import opened SchedulerBudget
  import opened SchedulerTheorems
  import opened SchedulerOutcomes

  /**
   A loop that asks for its context's state, or reports anything but Completed, is cancelled; it reports Stopped only
   after Stop and Removed only when its status is closed.
   */
  ghost predicate LoopReason(l: Loop, stopped: bool, closed: bool) {
    && (l.pc.ReadStopped? || l.pc.ReadState? || !l.outcome.Completed? ==> l.cancelled)
    && (l.pc == ReadState(true) || l.outcome.Stopped? ==> stopped)
    && (l.outcome.Removed? ==> closed)
  }

  ghost predicate LoopReasonAt(s: State, e: nat) {
    e < |s.loops| ==> LoopReason(s.loops[e], s.stopped, TerminalIn(s, s.loops[e].job.id))
  }

  /** Loop `e` has closed a registration of `id` with this outcome. */
  predicate EndedAs(s: State, e: nat, id: string, outcome: JobState) {
    e < |s.loops| && s.loops[e].job.id == id && Finished(s.loops[e].pc) && s.loops[e].outcome == outcome
  }

  ghost predicate SomeEndedAs(s: State, id: string, outcome: JobState) {
    exists e: nat :: EndedAs(s, e, id, outcome)
  }

  ghost predicate StatusReason(s: State, id: string) {
    id in s.store.status ==>
      var state := s.store.status[id].status.state;
      && (state.Stopped? ==> s.stopped)
      && (state.Canceled? || state.Completed? ==> SomeEndedAs(s, id, state))
  }

  ghost predicate ReasonsOk(s: State) {
    && (forall e: nat :: LoopReasonAt(s, e))
    && (forall id :: StatusReason(s, id))
  }

  // ---- Loops ----

  lemma StoppedStays(s: State, a: Action)
    requires Shape(s) && Enabled(s, a) && s.stopped
    ensures Take(s, a).stopped
  {
    if IsExecStep(a) {
      ExecStepIsQuiet(s, a);
    } else if IsEarlyLoopStep(a) {
      LoopStepIsQuiet(s, a);
    }
  }

  /** A status that shows Removed is closed. */
  lemma RemovedIsClosed(s: State, id: string)
    requires StatesOk(s) && id in s.store.status && s.store.status[id].status.state.Removed?
    ensures TerminalIn(s, id)
  {
    assert StateOk(s.store.status[id], id in s.reused);
  }

  lemma OwnReason(s: State, a: Action, e: nat)
    requires Enabled(s, a) && IsOwnStep(a, e) && e < |s.loops|
    requires StatesOk(s) && LoopReasonAt(s, e)
    ensures LoopReason(OwnLoopAfter(s, a), s.stopped, TerminalIn(s, s.loops[e].job.id))
  {
    var id := s.loops[e].job.id;
    if a.LoopReadState? && id in s.store.status && s.store.status[id].status.state.Removed? {
      RemovedIsClosed(s, id);
    }
  }

  lemma ReasonsPersist(l: Loop, l': Loop, stopped: bool, closed: bool)
    requires LoopReason(l, stopped, closed) && Nudged(l, l')
    ensures LoopReason(l', stopped, closed)
  {
  }

  lemma KnownLoopReason(s: State, a: Action, e: nat)
    requires Inv(s) && Enabled(s, a) && e < |s.loops| && LoopReasonAt(s, e)
    ensures e < |Take(s, a).loops|
    ensures LoopReason(Take(s, a).loops[e], s.stopped, TerminalIn(s, s.loops[e].job.id))
    ensures Take(s, a).loops[e].job == s.loops[e].job
  {
    SameJob(s, a, e);
    LoopAfter(s, a, e);
    if IsOwnStep(a, e) {
      OwnReason(s, a, e);
    } else {
      ReasonsPersist(s.loops[e], Take(s, a).loops[e], s.stopped, TerminalIn(s, s.loops[e].job.id));
    }
  }

  lemma KeepsLoopReason(s: State, a: Action, e: nat)
    requires Inv(s) && Enabled(s, a) && LoopReasonAt(s, e)
    ensures LoopReasonAt(Take(s, a), e)
  {
    if e < |s.loops| {
      KnownLoopReason(s, a, e);
      ClosedStays(s, a, s.loops[e].job.id);
    } else if e < |Take(s, a).loops| {
      NewLoopReason(s, a, e);
    }
  }

  lemma NewLoopReason(s: State, a: Action, e: nat)
    requires Enabled(s, a) && |s.loops| <= e < |Take(s, a).loops|
    ensures LoopReasonAt(Take(s, a), e)
  {
    NewLoop(s, a);
  }

  lemma SameJob(s: State, a: Action, e: nat)
    requires Inv(s) && Enabled(s, a) && e < |s.loops|
    ensures e < |Take(s, a).loops| && Take(s, a).loops[e].job == s.loops[e].job
  {
    JobsOfLoops(s, a);
  }

  lemma ClosedStays(s: State, a: Action, id: string)
    requires Inv(s) && Enabled(s, a)
    ensures s.stopped ==> Take(s, a).stopped
    ensures TerminalIn(s, id) ==> TerminalIn(Take(s, a), id)
  {
    StepOnStatuses(s, a);
    if s.stopped {
      StoppedStays(s, a);
    }
  }

  /** A registration stays closed with the outcome it was closed with. */
  lemma EndedStays(s: State, a: Action, e: nat, id: string, outcome: JobState)
    requires Inv(s) && Enabled(s, a) && EndedAs(s, e, id, outcome)
    ensures EndedAs(Take(s, a), e, id, outcome)
  {
    LoopAfter(s, a, e);
    if IsOwnStep(a, e) {
      OwnEndedStays(s, a, e);
    }
  }

  lemma OwnEndedStays(s: State, a: Action, e: nat)
    requires Enabled(s, a) && IsOwnStep(a, e) && e < |s.loops| && Finished(s.loops[e].pc)
    ensures Finished(OwnLoopAfter(s, a).pc) && OwnLoopAfter(s, a).outcome == s.loops[e].outcome
    ensures OwnLoopAfter(s, a).job == s.loops[e].job
  {
  }

  lemma SomeEndedStays(s: State, a: Action, id: string, outcome: JobState)
    requires Inv(s) && Enabled(s, a) && SomeEndedAs(s, id, outcome)
    ensures SomeEndedAs(Take(s, a), id, outcome)
  {
    var e: nat :| EndedAs(s, e, id, outcome);
    EndedStays(s, a, e, id, outcome);
  }

  // ---- Statuses ----

  /** The final state that a step writes to the status of `id`, if any. */
  function Closes(s: State, a: Action, id: string): Option<JobState>
    requires Enabled(s, a)
  {
    match a
    case RemoveMark(_) => if s.lock.id == id then Some(Removed) else None
    case StopMark(_) => if s.lock.at.id == id && !TerminalIn(s, id) then Some(Stopped) else None
    case LoopFinalize(e, _) => if s.loops[e].job.id == id && !TerminalIn(s, id) then Some(s.loops[e].outcome) else None
    case _ => None
  }

  lemma TouchedState(e: StatusEntry, op: Op)
    requires !op.Save? && !op.Delete?
    requires op.UpsertStatus? ==> op.state.Scheduled?
    ensures var state := Touch(e, op).status.state;
      if op.MarkRemoved? then state.Removed?
      else if op.MarkTerminal? then state == if e.terminal then e.status.state else op.state
      else state == e.status.state || !IsFinal(state)
  {
  }

  /** A step changes the visible state to a final one only by closing it. */
  lemma StateAfter(s: State, a: Action, id: string)
    requires Enabled(s, a) && id in Take(s, a).store.status
    ensures var state := Take(s, a).store.status[id].status.state;
      || (Closes(s, a, id).Some? && state == Closes(s, a, id).value)
      || (id in s.store.status && state == s.store.status[id].status.state)
      || !IsFinal(state)
  {
    StoreAfter(s, a);
    if WriteOf(s, a).Some? {
      var op := WriteOf(s, a).value;
      WriteAt(s.store, op, id);
      if !op.Save? && !op.Delete? && op.id == id && id in s.store.status {
        TouchedState(s.store.status[id], op);
      }
    }
  }

  lemma WriteAt(store: Store, op: Op, id: string)
    requires id in Apply(store, op).status
    ensures if id !in store.status then op.UpsertStatus? && Apply(store, op).status[id].status.state == op.state
            else if op.Save? || op.Delete? || op.id != id then Apply(store, op).status[id] == store.status[id]
            else Apply(store, op).status[id] == Touch(store.status[id], op)
  {
  }

  lemma FinalizeEnds(s: State, a: Action, id: string)
    requires Enabled(s, a) && a.LoopFinalize? && Closes(s, a, id).Some?
    ensures EndedAs(Take(s, a), a.entry, id, Closes(s, a, id).value)
  {
    OwnLoopIs(s, a);
    JobOfOwnLoop(s, a);
  }

  lemma JobOfOwnLoop(s: State, a: Action)
    requires Enabled(s, a) && (IsEarlyLoopStep(a) || IsCleanupStep(a))
    ensures OwnLoopAfter(s, a).job == s.loops[a.entry].job
  {
  }

  lemma KeepsStatusReason(s: State, a: Action, id: string)
    requires Inv(s) && Enabled(s, a) && ReasonsOk(s)
    ensures StatusReason(Take(s, a), id)
  {
    if id in Take(s, a).store.status {
      var state := Take(s, a).store.status[id].status.state;
      StateAfter(s, a, id);
      ClosedStays(s, a, id);
      if Closes(s, a, id).Some? {
        ClosingHasReason(s, a, id);
      }
      if IsFinal(state) && Closes(s, a, id) != Some(state) {
        OldReasonStays(s, a, id);
      }
    }
  }

  lemma OldReasonStays(s: State, a: Action, id: string)
    requires Inv(s) && Enabled(s, a) && StatusReason(s, id) && id in s.store.status
    ensures var state := s.store.status[id].status.state;
      state.Canceled? || state.Completed? ==> SomeEndedAs(Take(s, a), id, state)
  {
    var state := s.store.status[id].status.state;
    if state.Canceled? || state.Completed? {
      SomeEndedStays(s, a, id, state);
    }
  }

  /** Stop closes as Stopped, and a loop as Stopped only after Stop; a loop's other outcomes name the loop. */
  lemma ClosingHasReason(s: State, a: Action, id: string)
    requires Inv(s) && Enabled(s, a) && ReasonsOk(s) && Closes(s, a, id).Some?
    ensures Closes(s, a, id).value.Stopped? ==> s.stopped
    ensures Closes(s, a, id).value.Removed? ==> a.RemoveMark?
    ensures var state := Closes(s, a, id).value;
            state.Canceled? || state.Completed? ==> SomeEndedAs(Take(s, a), id, state)
  {
    if a.LoopFinalize? {
      assert LoopReasonAt(s, a.entry);
      FinalizeEnds(s, a, id);
    }
  }

  lemma KeepsReasons(s: State, a: Action)
    requires Inv(s) && Enabled(s, a) && ReasonsOk(s)
    ensures ReasonsOk(Take(s, a))
  {
    forall e: nat
      ensures LoopReasonAt(Take(s, a), e)
    {
      KeepsLoopReason(s, a, e);
    }
    forall id
      ensures StatusReason(Take(s, a), id)
    {
      KeepsStatusReason(s, a, id);
    }
  }

  lemma {:induction false} ReasonsAlong(run: seq<State>, actions: seq<Action>, j: nat)
    requires IsRun(run, actions) && j < |run|
    ensures ReasonsOk(run[j])
  {
    if j > 0 {
      ReasonsAlong(run, actions, j - 1);
      InvAlong(run, actions, j - 1);
      PathStep(run, actions, j - 1);
      KeepsReasons(run[j - 1], actions[j - 1]);
    }
  }

  // ---- What happened before ----

  /** Loop `e` read `stopped` while the scheduler was not stopped. */
  ghost predicate ReadBeforeStop(run: seq<State>, actions: seq<Action>, e: nat, j: nat)
    requires j <= |actions| < |run|
  {
    exists i :: 0 <= i < j && actions[i] == LoopReadStopped(e) && !run[i].stopped
  }

  /** A registration of `id` writes its status. */
  predicate RegistersAt(s: State, a: Action, id: string) {
    a.ScheduleUpsert? && s.lock.Scheduling? && s.lock.job.id == id
  }

  /** A Remove marks the status of `id`. */
  predicate RemovesAt(s: State, a: Action, id: string) {
    a.RemoveMark? && s.lock.Removing? && s.lock.id == id
  }

  /** Stop's mark finds the status of `id` open. */
  predicate StopsAt(s: State, a: Action, id: string) {
    a.StopMark? && s.lock.Stopping? && s.lock.at.StopMarking? && s.lock.at.id == id && !TerminalIn(s, id)
  }

  ghost predicate NotRegisteredBetween(run: seq<State>, actions: seq<Action>, id: string, i: nat, j: nat)
    requires j <= |actions| < |run|
  {
    forall k :: i < k < j ==> !RegistersAt(run[k], actions[k], id)
  }

  /** A Remove marked the status of `id`, and the id was not registered since. */
  ghost predicate RemovedLast(run: seq<State>, actions: seq<Action>, id: string, j: nat)
    requires j <= |actions| < |run|
  {
    exists i: nat :: i < j && RemovesAt(run[i], actions[i], id) && NotRegisteredBetween(run, actions, id, i, j)
  }

  /** Stop closed the open status of `id`. */
  ghost predicate StoppedOpen(run: seq<State>, actions: seq<Action>, id: string, j: nat)
    requires j <= |actions| < |run|
  {
    exists i :: 0 <= i < j && StopsAt(run[i], actions[i], id)
  }

  /** A loop on its way to Canceled, or there. */
  predicate HeadsForCanceled(l: Loop) {
    l.pc == ReadState(false) || l.outcome.Canceled?
  }

  lemma HeadsForCanceledSince(s: State, a: Action, e: nat)
    requires Inv(s) && Enabled(s, a) && e < |Take(s, a).loops| && HeadsForCanceled(Take(s, a).loops[e])
    ensures (e < |s.loops| && HeadsForCanceled(s.loops[e])) || (a == LoopReadStopped(e) && !s.stopped)
  {
    if e < |s.loops| {
      LoopAfter(s, a, e);
      if IsOwnStep(a, e) {
        OwnHeadsForCanceled(s, a, e);
      }
    } else {
      NewLoop(s, a);
    }
  }

  lemma OwnHeadsForCanceled(s: State, a: Action, e: nat)
    requires Enabled(s, a) && IsOwnStep(a, e) && e < |s.loops| && HeadsForCanceled(OwnLoopAfter(s, a))
    ensures HeadsForCanceled(s.loops[e]) || (a.LoopReadStopped? && !s.stopped)
  {
  }

  lemma HeadingStep(run: seq<State>, actions: seq<Action>, k: nat, e: nat)
    requires IsRun(run, actions) && k < |actions| && e < |run[k + 1].loops| && HeadsForCanceled(run[k + 1].loops[e])
    ensures (e < |run[k].loops| && HeadsForCanceled(run[k].loops[e])) ||
      (actions[k] == LoopReadStopped(e) && !run[k].stopped)
  {
    InvAlong(run, actions, k);
    PathStep(run, actions, k);
    HeadsForCanceledSince(run[k], actions[k], e);
  }

  lemma ReadOneMore(run: seq<State>, actions: seq<Action>, e: nat, j: nat)
    requires 0 < j <= |actions| < |run|
    requires ReadBeforeStop(run, actions, e, j - 1) || (actions[j - 1] == LoopReadStopped(e) && !run[j - 1].stopped)
    ensures ReadBeforeStop(run, actions, e, j)
  {
  }

  lemma {:induction false} CanceledReadBeforeStop(run: seq<State>, actions: seq<Action>, j: nat, e: nat)
    requires IsRun(run, actions) && j < |run| && e < |run[j].loops| && HeadsForCanceled(run[j].loops[e])
    ensures ReadBeforeStop(run, actions, e, j)
  {
    if j > 0 {
      HeadingStep(run, actions, j - 1, e);
      if e < |run[j - 1].loops| && HeadsForCanceled(run[j - 1].loops[e]) {
        CanceledReadBeforeStop(run, actions, j - 1, e);
      }
      ReadOneMore(run, actions, e, j);
    }
  }

  lemma RegisteringShowsScheduled(s: State, a: Action, id: string)
    requires Enabled(s, a) && RegistersAt(s, a, id)
    ensures id in Take(s, a).store.status && Take(s, a).store.status[id].status.state.Scheduled?
  {
  }

  /** A status shows Removed after a step that marks it, and otherwise only if it did before and was not registered. */
  lemma RemovedSince(s: State, a: Action, id: string)
    requires Inv(s) && ReasonsOk(s) && Enabled(s, a)
    requires id in Take(s, a).store.status && Take(s, a).store.status[id].status.state.Removed?
    ensures RemovesAt(s, a, id) ||
      (id in s.store.status && s.store.status[id].status.state.Removed? && !RegistersAt(s, a, id))
  {
    StateAfter(s, a, id);
    if RegistersAt(s, a, id) {
      RegisteringShowsScheduled(s, a, id);
    }
    if Closes(s, a, id) == Some(Removed) {
      ClosingHasReason(s, a, id);
    }
  }

  lemma RemovedStep(run: seq<State>, actions: seq<Action>, k: nat, id: string)
    requires IsRun(run, actions) && k < |actions|
    requires id in run[k + 1].store.status && run[k + 1].store.status[id].status.state.Removed?
    ensures RemovesAt(run[k], actions[k], id) ||
      (id in run[k].store.status && run[k].store.status[id].status.state.Removed? && !RegistersAt(run[k], actions[k], id))
  {
    InvAlong(run, actions, k);
    ReasonsAlong(run, actions, k);
    PathStep(run, actions, k);
    RemovedSince(run[k], actions[k], id);
  }

  lemma {:induction false} RemovedWasMarked(run: seq<State>, actions: seq<Action>, j: nat, id: string)
    requires IsRun(run, actions) && j < |run|
    requires id in run[j].store.status && run[j].store.status[id].status.state.Removed?
    ensures RemovedLast(run, actions, id, j)
  {
    if j > 0 {
      RemovedStep(run, actions, j - 1, id);
      if RemovesAt(run[j - 1], actions[j - 1], id) {
        assert NotRegisteredBetween(run, actions, id, j - 1, j);
      } else {
        RemovedWasMarked(run, actions, j - 1, id);
        RemovedLastOneMore(run, actions, id, j);
      }
    }
  }

  lemma RemovedLastOneMore(run: seq<State>, actions: seq<Action>, id: string, j: nat)
    requires 0 < j <= |actions| < |run| && RemovedLast(run, actions, id, j - 1)
    requires !RegistersAt(run[j - 1], actions[j - 1], id)
    ensures RemovedLast(run, actions, id, j)
  {
    var i: nat :| i < j - 1 && RemovesAt(run[i], actions[i], id) && NotRegisteredBetween(run, actions, id, i, j - 1);
    assert NotRegisteredBetween(run, actions, id, i, j);
  }

  /** In every run a status shows Removed exactly if a Remove marked it and the id was not registered since. */
  lemma RemovedIff(run: seq<State>, actions: seq<Action>, j: nat, id: string)
    requires IsRun(run, actions) && j < |run| && id in run[j].store.status
    ensures run[j].store.status[id].status.state.Removed? <==> RemovedLast(run, actions, id, j)
  {
    if run[j].store.status[id].status.state.Removed? {
      RemovedWasMarked(run, actions, j, id);
    }
    if RemovedLast(run, actions, id, j) {
      var i: nat :| i < j && RemovesAt(run[i], actions[i], id) && NotRegisteredBetween(run, actions, id, i, j);
      forall k | i < k < j
        ensures !(actions[k].ScheduleUpsert? && run[k].lock.Scheduling? && run[k].lock.job.id == id)
      {
        assert !RegistersAt(run[k], actions[k], id);
      }
      RemoveWinsEveryRace(run, actions, i, j, id);
    }
  }

  lemma StoppedSince(s: State, a: Action, id: string)
    requires Inv(s) && Enabled(s, a)
    requires id in Take(s, a).store.status && Take(s, a).store.status[id].status.state.Stopped?
    ensures StopsAt(s, a, id) || SomeEndedAs(Take(s, a), id, Stopped) ||
      (id in s.store.status && s.store.status[id].status.state.Stopped?)
  {
    StateAfter(s, a, id);
    if Closes(s, a, id) == Some(Stopped) {
      StoppedNow(s, a, id);
    }
  }

  lemma {:induction false} StoppedWasMarked(run: seq<State>, actions: seq<Action>, j: nat, id: string)
    requires IsRun(run, actions) && j < |run|
    requires id in run[j].store.status && run[j].store.status[id].status.state.Stopped?
    ensures StoppedOpen(run, actions, id, j) || SomeEndedAs(run[j], id, Stopped)
  {
    if j > 0 {
      InvAlong(run, actions, j - 1);
      PathStep(run, actions, j - 1);
      StoppedSince(run[j - 1], actions[j - 1], id);
      if !StopsAt(run[j - 1], actions[j - 1], id) && !SomeEndedAs(run[j], id, Stopped) {
        StoppedWasMarked(run, actions, j - 1, id);
        if SomeEndedAs(run[j - 1], id, Stopped) {
          SomeEndedStays(run[j - 1], actions[j - 1], id, Stopped);
        }
      }
    }
  }

  lemma StoppedNow(s: State, a: Action, id: string)
    requires Enabled(s, a) && Closes(s, a, id) == Some(Stopped)
    ensures StopsAt(s, a, id) || SomeEndedAs(Take(s, a), id, Stopped)
  {
    if a.LoopFinalize? {
      FinalizeEnds(s, a, id);
    }
  }

  /**
   In every run each final state has its reason: Removed, a Remove of that id and no registration since; Stopped, a Stop
   that found the status open, or a loop of that id that ended after Stop; Canceled, a loop of that id that found itself
   cancelled and the scheduler not stopped; Completed, a loop of that id that ended naturally or was cut short in the
   select.
   */
  lemma FinalStateReasons(run: seq<State>, actions: seq<Action>, j: nat, id: string)
    requires IsRun(run, actions) && j < |run| && id in run[j].store.status
    ensures match run[j].store.status[id].status.state
      case Removed => RemovedLast(run, actions, id, j)
      case Stopped => run[j].stopped && (StoppedOpen(run, actions, id, j) || SomeEndedAs(run[j], id, Stopped))
      case Canceled => exists e: nat :: EndedAs(run[j], e, id, Canceled) && run[j].loops[e].cancelled &&
                                        ReadBeforeStop(run, actions, e, j)
      case Completed => exists e: nat :: EndedAs(run[j], e, id, Completed) &&
                                         (Left(run, actions, e, j, Naturally) || Left(run, actions, e, j, InSelect))
      case _ => true
  {
    ReasonsAlong(run, actions, j);
    assert StatusReason(run[j], id);
    match run[j].store.status[id].status.state
    case Removed => RemovedWasMarked(run, actions, j, id);
    case Stopped => StoppedWasMarked(run, actions, j, id);
    case Canceled =>
      var e: nat :| EndedAs(run[j], e, id, Canceled);
      assert LoopReasonAt(run[j], e);
      CanceledReadBeforeStop(run, actions, j, e);
    case Completed =>
      var e: nat :| EndedAs(run[j], e, id, Completed);
      WaysOut(run, actions, j, e);
    case _ =>
  }

  // ---- What a cancelled loop settles on ----

  /** Loop `e` asked about its context at a step at which its id was removed, or not, as its outcome says. */
  ghost predicate SettledBy(run: seq<State>, actions: seq<Action>, e: nat, j: nat, l: Loop)
    requires j <= |actions| < |run|
  {
    exists i: nat :: i < j && AsksRightly(run, actions, e, i, l)
  }

  ghost predicate AsksRightly(run: seq<State>, actions: seq<Action>, e: nat, i: nat, l: Loop)
    requires i < |actions| < |run|
  {
    actions[i] == LoopReadState(e) && (l.outcome.Removed? <==> RemovedLast(run, actions, l.job.id, i))
  }

  lemma OwnOutcomeSettles(s: State, a: Action, e: nat)
    requires KnownIds(s) && Enabled(s, a) && IsOwnStep(a, e) && e < |s.loops|
    ensures OwnLoopAfter(s, a).job == s.loops[e].job
    ensures s.loops[e].job.id in s.store.status
    ensures if a == LoopReadState(e)
            then OwnLoopAfter(s, a).outcome.Removed? <==> s.store.status[s.loops[e].job.id].status.state.Removed?
            else OwnLoopAfter(s, a).outcome == s.loops[e].outcome
  {
  }

  lemma OutcomeStep(s: State, a: Action, e: nat)
    requires Inv(s) && Enabled(s, a) && e < |s.loops|
    ensures e < |Take(s, a).loops| && Take(s, a).loops[e].job == s.loops[e].job
    ensures s.loops[e].job.id in s.store.status
    ensures if a == LoopReadState(e)
            then Take(s, a).loops[e].outcome.Removed? <==> s.store.status[s.loops[e].job.id].status.state.Removed?
            else Take(s, a).loops[e].outcome == s.loops[e].outcome
  {
    LoopAfter(s, a, e);
    if IsOwnStep(a, e) {
      OwnOutcomeSettles(s, a, e);
    }
  }

  lemma SettlesAt(run: seq<State>, actions: seq<Action>, k: nat, e: nat)
    requires IsRun(run, actions) && k < |actions| && e < |run[k].loops|
    ensures e < |run[k + 1].loops| && run[k + 1].loops[e].job == run[k].loops[e].job
    ensures if actions[k] == LoopReadState(e) then AsksRightly(run, actions, e, k, run[k + 1].loops[e])
            else run[k + 1].loops[e].outcome == run[k].loops[e].outcome
  {
    InvAlong(run, actions, k);
    PathStep(run, actions, k);
    OutcomeStep(run[k], actions[k], e);
    RemovedIff(run, actions, k, run[k].loops[e].job.id);
  }

  lemma SettledOneMore(run: seq<State>, actions: seq<Action>, e: nat, j: nat, l: Loop, l': Loop)
    requires 0 < j <= |actions| < |run| && SettledBy(run, actions, e, j - 1, l)
    requires l'.job == l.job && l'.outcome == l.outcome
    ensures SettledBy(run, actions, e, j, l')
  {
    var i: nat :| i < j - 1 && AsksRightly(run, actions, e, i, l);
    assert AsksRightly(run, actions, e, i, l');
  }

  /**
   In every run, a loop whose outcome is not Completed has asked about its context, and settled on Removed exactly if at that
   step its id was removed and not registered since.
   */
  lemma {:induction false} OutcomeIsSettled(run: seq<State>, actions: seq<Action>, j: nat, e: nat)
    requires IsRun(run, actions) && j < |run| && e < |run[j].loops| && !run[j].loops[e].outcome.Completed?
    ensures SettledBy(run, actions, e, j, run[j].loops[e])
  {
    if j > 0 {
      if e < |run[j - 1].loops| {
        SettlesAt(run, actions, j - 1, e);
        if actions[j - 1] == LoopReadState(e) {
          assert AsksRightly(run, actions, e, j - 1, run[j].loops[e]);
        } else {
          OutcomeIsSettled(run, actions, j - 1, e);
          SettledOneMore(run, actions, e, j, run[j - 1].loops[e], run[j].loops[e]);
        }
      } else {
        NewIsCompleted(run, actions, j, e);
      }
    }
  }

  lemma NewIsCompleted(run: seq<State>, actions: seq<Action>, j: nat, e: nat)
    requires IsRun(run, actions) && 0 < j < |run| && |run[j - 1].loops| <= e < |run[j].loops|
    ensures run[j].loops[e].outcome.Completed?
  {
    PathStep(run, actions, j - 1);
    NewLoop(run[j - 1], actions[j - 1]);
  }

  // ---- Ids registered again ----

  /** How often `id` was registered before `j`. */
  function Registrations(run: seq<State>, actions: seq<Action>, id: string, j: nat): nat
    requires j <= |actions| < |run|
  {
    if j == 0 then 0
    else Registrations(run, actions, id, j - 1) + if RegistersAt(run[j - 1], actions[j - 1], id) then 1 else 0
  }

  lemma RegistrationStep(s: State, a: Action, id: string)
    requires Inv(s) && Enabled(s, a)
    ensures id in Take(s, a).store.status <==> id in s.store.status || RegistersAt(s, a, id)
  {
    StepOnStatuses(s, a);
    if RegistersAt(s, a, id) {
      RegisteringShowsScheduled(s, a, id);
    }
  }

  lemma ReuseStep(s: State, a: Action, id: string)
    requires Enabled(s, a)
    ensures id in Take(s, a).reused <==> id in s.reused || (RegistersAt(s, a, id) && id in s.store.status)
  {
    ReusedAfter(s, a);
  }

  /** A status exists from the first registration on, and its terminal flag is out of date from the second on. */
  /** The state agrees with the number of registrations so far. */
  ghost predicate CountsAt(run: seq<State>, actions: seq<Action>, j: nat, id: string)
    requires j <= |actions| < |run|
  {
    && (id in run[j].store.status <==> Registrations(run, actions, id, j) >= 1)
    && (id in run[j].reused <==> Registrations(run, actions, id, j) >= 2)
  }

  lemma CountsStep(run: seq<State>, actions: seq<Action>, k: nat, id: string)
    requires IsRun(run, actions) && k < |actions| && CountsAt(run, actions, k, id)
    ensures CountsAt(run, actions, k + 1, id)
  {
    InvAlong(run, actions, k);
    PathStep(run, actions, k);
    RegistrationStep(run[k], actions[k], id);
    ReuseStep(run[k], actions[k], id);
  }

  lemma {:induction false} RegistrationsCount(run: seq<State>, actions: seq<Action>, j: nat, id: string)
    requires IsRun(run, actions) && j < |run|
    ensures id in run[j].store.status <==> Registrations(run, actions, id, j) >= 1
    ensures id in run[j].reused <==> Registrations(run, actions, id, j) >= 2
  {
    if j > 0 {
      RegistrationsCount(run, actions, j - 1, id);
      CountsStep(run, actions, j - 1, id);
    }
  }

  /**
   After Stop has returned, a status shows a final state exactly if its id was registered once, or was removed and not
   registered since.
   */
  lemma StoppedStatesFinalIff(run: seq<State>, actions: seq<Action>, j: nat, call: nat, id: string)
    requires IsRun(run, actions) && j < |run| && id in run[j].store.status
    requires call < |run[j].stops| && run[j].stops[call].Returned?
    ensures IsFinal(run[j].store.status[id].status.state) <==>
      Registrations(run, actions, id, j) <= 1 || RemovedLast(run, actions, id, j)
  {
    InvAlong(run, actions, j);
    RestIsQuiescent(run[j]);
    RegistrationsCount(run, actions, j, id);
    RemovedIff(run, actions, j, id);
    assert StateOk(run[j].store.status[id], id in run[j].reused);
  }

  /** An id that shows Removed is not registered. */
  ghost predicate AwayAt(s: State, id: string) {
    id in s.store.status && s.store.status[id].status.state.Removed? ==>
      id !in s.jobs && !(s.lock.Scheduling? && s.lock.upserted && s.lock.job.id == id)
  }

  lemma RegisteredSince(s: State, a: Action, id: string)
    requires Shape(s) && Enabled(s, a)
    ensures id in Take(s, a).jobs ==> id in s.jobs || (a.ScheduleSpawn? && s.lock.job.id == id)
    ensures var lock := Take(s, a).lock;
      lock.Scheduling? && lock.upserted && lock.job.id == id ==> s.lock == lock || RegistersAt(s, a, id)
  {
    if IsExecStep(a) {
      ExecStepIsQuiet(s, a);
    } else if IsEarlyLoopStep(a) {
      LoopStepIsQuiet(s, a);
    }
  }

  lemma KeepsAway(s: State, a: Action, id: string)
    requires Inv(s) && ReasonsOk(s) && AwayAt(s, id) && Enabled(s, a)
    ensures AwayAt(Take(s, a), id)
  {
    if id in Take(s, a).store.status && Take(s, a).store.status[id].status.state.Removed? {
      RemovedSince(s, a, id);
      if RemovesAt(s, a, id) {
        MarkingLeavesAway(s, a, id);
      } else {
        RegisteredSince(s, a, id);
      }
    }
  }

  lemma MarkingLeavesAway(s: State, a: Action, id: string)
    requires Shape(s) && Enabled(s, a) && RemovesAt(s, a, id)
    ensures id !in Take(s, a).jobs && Take(s, a).lock.Free?
  {
  }

  ghost predicate StaysAway(run: seq<State>, k: nat, id: string)
    requires k + 1 < |run|
  {
    AwayAt(run[k], id) ==> AwayAt(run[k + 1], id)
  }

  lemma {:induction false} AwayThroughout(run: seq<State>, j: nat, id: string)
    requires j < |run| && AwayAt(run[0], id)
    requires forall k: nat :: k + 1 < |run| ==> StaysAway(run, k, id)
    ensures AwayAt(run[j], id)
  {
    if j > 0 {
      AwayThroughout(run, j - 1, id);
      assert StaysAway(run, j - 1, id);
    }
  }

  lemma AwayStep(run: seq<State>, actions: seq<Action>, k: nat, id: string)
    requires IsRun(run, actions) && k < |actions|
    ensures StaysAway(run, k, id)
  {
    InvAlong(run, actions, k);
    ReasonsAlong(run, actions, k);
    PathStep(run, actions, k);
    if AwayAt(run[k], id) {
      KeepsAway(run[k], actions[k], id);
    }
  }

  lemma AwayAlong(run: seq<State>, actions: seq<Action>, j: nat, id: string)
    requires IsRun(run, actions) && j < |run|
    ensures AwayAt(run[j], id)
  {
    forall k: nat | k + 1 < |run|
      ensures StaysAway(run, k, id)
    {
      AwayStep(run, actions, k, id);
    }
    AwayThroughout(run, j, id);
  }

  /** A registered id shows an active state though it is closed exactly if it was registered before. */
  lemma RegisteredShows(run: seq<State>, actions: seq<Action>, j: nat, id: string)
    requires IsRun(run, actions) && j < |run| && id in run[j].jobs
    ensures id in run[j].store.status
    ensures var e := run[j].store.status[id];
      if Registrations(run, actions, id, j) >= 2 then e.terminal && e.status.state.Scheduled?
      else e.terminal <==> IsFinal(e.status.state)
  {
    InvAlong(run, actions, j);
    RegistrationsCount(run, actions, j, id);
    AwayAlong(run, actions, j, id);
    RegisteredState(run[j], id);
  }

  lemma RegisteredState(s: State, id: string)
    requires JobsOk(s) && KnownIds(s) && StatesOk(s) && AwayAt(s, id) && id in s.jobs
    ensures id in s.store.status
    ensures var e := s.store.status[id];
      if id in s.reused then e.terminal && e.status.state.Scheduled? else e.terminal <==> IsFinal(e.status.state)
  {
    assert s.loops[s.jobs[id]].job.id in s.store.status;
    assert StateOk(s.store.status[id], id in s.reused);
  }
}
