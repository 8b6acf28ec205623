/**
 What the client calls do: a Schedule that is accepted registers, a Remove of a registered id removes, a Stop stops every job,
 and each of them gets through to its end. Run alone they are paths; among other steps they stay on their course.
 */
module SchedulerCalls {
  import opened JobTypes
  import opened MemoryStorage
  import opened SchedulerModel
  import opened SchedulerInvariants
  import opened SchedulerRegistration
  import opened SchedulerLedger
  import opened SchedulerLifecycle
  import opened SchedulerTheorems
  import opened SchedulerOutcomes
  import opened SchedulerReasons

  lemma {:induction false} LeadsOn(s: State, first: seq<Action>, t: State, rest: seq<Action>, s': State)
    requires Leads(s, first, t) && Leads(t, rest, s')
    ensures Leads(s, first + rest, s')
    decreases |first|
  {
    if first == [] {
      assert first + rest == rest;
    } else {
      LeadsOn(Take(s, first[0]), first[1..], t, rest, s');
      assert first + rest == [first[0]] + (first[1..] + rest);
      LeadsBy(s, first[0], Take(s, first[0]), first[1..] + rest, s');
    }
  }

  lemma LeadsOnce(s: State, a: Action, s': State)
    requires Enabled(s, a) && Take(s, a) == s'
    ensures Leads(s, [a], s')
  {
    assert [a] + [] == [a];
    LeadsBy(s, a, s', [], s');
  }

  // ---- Remove ----

  /** Remove holds the mutex and has got this far. */
  function RemovingAt(s: State, id: string, phase: RemovePhase): State
    requires id in s.jobs
  {
    s.(lock := Removing(id, s.jobs[id], phase))
  }

  function Unregistered(s: State, id: string): State
    requires id in s.jobs && s.jobs[id] < |s.loops|
  {
    Cancel(s, s.jobs[id]).(jobs := s.jobs - {id})
  }

  /** The state a Remove leaves behind. */
  function Removed(s: State, id: string, now: int): State
    requires id in s.jobs && s.jobs[id] < |s.loops|
  {
    Unregistered(s, id).(store := Apply(Apply(s.store, Delete(id)), MarkRemoved(id, now)), lock := Free)
  }

  lemma RemoveBegins(s: State, id: string)
    requires s.lock.Free? && id in s.jobs
    ensures Leads(s, [RemoveBegin(id)], RemovingAt(s, id, Cancelling))
  {
    LeadsOnce(s, RemoveBegin(id), RemovingAt(s, id, Cancelling));
  }

  lemma RemoveCancels(s: State, id: string)
    requires id in s.jobs && s.jobs[id] < |s.loops|
    ensures Leads(RemovingAt(s, id, Cancelling), [RemoveCancel], Cancel(RemovingAt(s, id, Unregistering), s.jobs[id]))
  {
    LeadsOnce(RemovingAt(s, id, Cancelling), RemoveCancel, Cancel(RemovingAt(s, id, Unregistering), s.jobs[id]));
  }

  lemma RemoveUnregisters(s: State, id: string)
    requires id in s.jobs && s.jobs[id] < |s.loops|
    ensures Leads(Cancel(RemovingAt(s, id, Unregistering), s.jobs[id]), [RemoveUnregister],
                  Unregistered(s, id).(lock := Removing(id, s.jobs[id], Deleting)))
  {
    LeadsOnce(Cancel(RemovingAt(s, id, Unregistering), s.jobs[id]), RemoveUnregister,
              Unregistered(s, id).(lock := Removing(id, s.jobs[id], Deleting)));
  }

  lemma RemoveDeletes(s: State, id: string)
    requires id in s.jobs && s.jobs[id] < |s.loops|
    ensures Leads(Unregistered(s, id).(lock := Removing(id, s.jobs[id], Deleting)), [RemoveDelete],
                  Unregistered(s, id).(store := Apply(s.store, Delete(id)),
                                       lock := Removing(id, s.jobs[id], MarkingRemoved)))
  {
    LeadsOnce(Unregistered(s, id).(lock := Removing(id, s.jobs[id], Deleting)), RemoveDelete,
              Unregistered(s, id).(store := Apply(s.store, Delete(id)),
                                   lock := Removing(id, s.jobs[id], MarkingRemoved)));
  }

  lemma RemoveMarksIt(s: State, id: string, now: int)
    requires id in s.jobs && s.jobs[id] < |s.loops|
    ensures Leads(Unregistered(s, id).(store := Apply(s.store, Delete(id)),
                                       lock := Removing(id, s.jobs[id], MarkingRemoved)), [RemoveMark(now)],
                  Removed(s, id, now))
  {
    LeadsOnce(Unregistered(s, id).(store := Apply(s.store, Delete(id)),
                                   lock := Removing(id, s.jobs[id], MarkingRemoved)), RemoveMark(now),
              Removed(s, id, now));
  }

  lemma RemoveSteps(s: State, id: string, now: int)
    requires s.lock.Free? && id in s.jobs && s.jobs[id] < |s.loops|
    ensures Leads(s, [RemoveBegin(id)] + ([RemoveCancel] + ([RemoveUnregister] + ([RemoveDelete] + [RemoveMark(now)]))),
                  Removed(s, id, now))
  {
    var s1 := RemovingAt(s, id, Cancelling);
    var s2 := Cancel(RemovingAt(s, id, Unregistering), s.jobs[id]);
    var s3 := Unregistered(s, id).(lock := Removing(id, s.jobs[id], Deleting));
    var s4 := Unregistered(s, id).(store := Apply(s.store, Delete(id)), lock := Removing(id, s.jobs[id], MarkingRemoved));
    var s5 := Removed(s, id, now);
    RemoveBegins(s, id);
    RemoveCancels(s, id);
    RemoveUnregisters(s, id);
    RemoveDeletes(s, id);
    RemoveMarksIt(s, id, now);
    LeadsOn(s3, [RemoveDelete], s4, [RemoveMark(now)], s5);
    LeadsOn(s2, [RemoveUnregister], s3, [RemoveDelete] + [RemoveMark(now)], s5);
    LeadsOn(s1, [RemoveCancel], s2, [RemoveUnregister] + ([RemoveDelete] + [RemoveMark(now)]), s5);
    LeadsOn(s, [RemoveBegin(id)], s1, [RemoveCancel] + ([RemoveUnregister] + ([RemoveDelete] + [RemoveMark(now)])), s5);
  }

  /** The id is gone from both maps, its status is closed as Removed, and its loop is cancelled. */
  ghost predicate IsRemoved(s: State, id: string, entry: nat) {
    && id !in s.jobs && id !in s.store.jobs
    && ShowsRemoved(s, id)
    && entry < |s.loops| && s.loops[entry].cancelled && s.loops[entry].job.id == id
  }

  /**
   From every reachable state with a free mutex, the steps of a Remove of a registered id are possible one after the other,
   and at the end the mutex is free, the id is removed, and the other registrations and statuses are untouched.
   */
  lemma RemoveRemoves(s: State, id: string, now: int) returns (s': State)
    requires Reachable(s) && s.lock.Free? && id in s.jobs
    ensures Leads(s, [RemoveBegin(id), RemoveCancel, RemoveUnregister, RemoveDelete, RemoveMark(now)], s') && Reachable(s')
    ensures s'.lock.Free? && IsRemoved(s', id, s.jobs[id])
    ensures s'.jobs == s.jobs - {id} && s'.store.jobs == s.store.jobs - {id}
    ensures forall other :: other != id && other in s.store.status ==>
      other in s'.store.status && s'.store.status[other] == s.store.status[other]
  {
    ReachableInv(s);
    s' := Removed(s, id, now);
    RemoveLeads(s, id, now);
    RemovedIs(s, id, now);
  }

  lemma RemoveLeads(s: State, id: string, now: int)
    requires Reachable(s) && s.lock.Free? && id in s.jobs && s.jobs[id] < |s.loops|
    ensures Leads(s, [RemoveBegin(id), RemoveCancel, RemoveUnregister, RemoveDelete, RemoveMark(now)], Removed(s, id, now))
    ensures Reachable(Removed(s, id, now))
  {
    RemoveSteps(s, id, now);
    var actions := [RemoveBegin(id), RemoveCancel, RemoveUnregister, RemoveDelete, RemoveMark(now)];
    assert [RemoveBegin(id)] + ([RemoveCancel] + ([RemoveUnregister] + ([RemoveDelete] + [RemoveMark(now)]))) == actions;
    LeadsReachable(s, actions, Removed(s, id, now));
  }

  lemma RemovedIs(s: State, id: string, now: int)
    requires JobsOk(s) && KnownIds(s) && id in s.jobs
    ensures var s' := Removed(s, id, now);
      && s'.lock.Free? && IsRemoved(s', id, s.jobs[id])
      && s'.jobs == s.jobs - {id} && s'.store.jobs == s.store.jobs - {id}
      && (forall other :: other != id && other in s.store.status ==>
           other in s'.store.status && s'.store.status[other] == s.store.status[other])
  {
    assert s.loops[s.jobs[id]].job.id in s.store.status;
  }

  /** A Remove of an id that is not registered changes nothing. */
  lemma RemoveOfUnknown(s: State, id: string)
    requires s.lock.Free? && id !in s.jobs
    ensures Enabled(s, RemoveBegin(id)) && Take(s, RemoveBegin(id)) == s
  {
  }

  /** The Remove of `id` holds the mutex. */
  predicate InRemove(s: State, id: string, entry: nat) {
    s.lock.Removing? && s.lock.id == id && s.lock.entry == entry
  }

  lemma RemoveCourse(s: State, a: Action, id: string, entry: nat)
    requires Inv(s) && Enabled(s, a) && InRemove(s, id, entry)
    ensures InRemove(Take(s, a), id, entry) || RemovesAt(s, a, id)
  {
    if IsExecStep(a) {
      ExecFrame(s, a);
    } else if IsEarlyLoopStep(a) {
      EarlyFrame(s, a);
    } else if IsRemoveStep(a) {
      OwnRemoveCourse(s, a, id, entry);
    } else {
      OthersLeaveRemove(s, a);
    }
  }

  lemma OwnRemoveCourse(s: State, a: Action, id: string, entry: nat)
    requires Enabled(s, a) && InRemove(s, id, entry) && IsRemoveStep(a)
    ensures InRemove(Take(s, a), id, entry) || RemovesAt(s, a, id)
  {
  }

  /** While a Remove holds the mutex, other calls and clean-ups can at most enter or return from Stop. */
  lemma OthersLeaveRemove(s: State, a: Action)
    requires s.lock.Removing? && Enabled(s, a) && !IsExecStep(a) && !IsEarlyLoopStep(a) && !IsRemoveStep(a)
    ensures Take(s, a).lock == s.lock
  {
    if IsCleanupStep(a) {
      CleanupLeavesRemove(s, a);
    }
  }

  lemma CleanupLeavesRemove(s: State, a: Action)
    requires s.lock.Removing? && Enabled(s, a) && IsCleanupStep(a)
    ensures Take(s, a).lock == s.lock
  {
  }

  lemma RemoveEnds(s: State, a: Action, id: string, entry: nat)
    requires Inv(s) && Enabled(s, a) && InRemove(s, id, entry) && RemovesAt(s, a, id)
    ensures Take(s, a).lock.Free? && IsRemoved(Take(s, a), id, entry)
  {
    RemoveMarks(s, a.now);
    RemoveFrame(s, a);
    KeepsRegistration(s, a);
    MarkFreesLock(s, a.now);
  }

  lemma MarkFreesLock(s: State, now: int)
    requires Enabled(s, RemoveMark(now))
    ensures Take(s, RemoveMark(now)).lock.Free? && Take(s, RemoveMark(now)).jobs == s.jobs
  {
  }

  /** The Remove is still under way at `j`, or it ended before, with the id removed. */
  ghost predicate RemoveOnCourse(run: seq<State>, actions: seq<Action>, i: nat, j: nat, id: string, entry: nat)
    requires i < j <= |actions| < |run|
  {
    || InRemove(run[j], id, entry)
    || exists k :: i < k < j && RemovesAt(run[k], actions[k], id) && IsRemoved(run[k + 1], id, entry)
  }

  lemma RemoveStarts(run: seq<State>, actions: seq<Action>, i: nat, id: string)
    requires IsRun(run, actions) && i < |actions| && actions[i] == RemoveBegin(id) && id in run[i].jobs
    ensures InRemove(run[i + 1], id, run[i].jobs[id])
  {
    PathStep(run, actions, i);
  }

  lemma OneStepOnCourse(run: seq<State>, actions: seq<Action>, k: nat, id: string, entry: nat)
    requires IsRun(run, actions) && k < |actions| && InRemove(run[k], id, entry)
    ensures InRemove(run[k + 1], id, entry) || (RemovesAt(run[k], actions[k], id) && IsRemoved(run[k + 1], id, entry))
  {
    InvAlong(run, actions, k);
    PathStep(run, actions, k);
    RemoveCourse(run[k], actions[k], id, entry);
    if RemovesAt(run[k], actions[k], id) {
      RemoveEnds(run[k], actions[k], id, entry);
    }
  }

  /**
   In every run, whatever interleaves, a Remove of a registered id keeps the mutex until it has removed the id; no other
   step ends it.
   */
  lemma {:induction false} RemoveStaysOnCourse(run: seq<State>, actions: seq<Action>, i: nat, j: nat, id: string)
    requires IsRun(run, actions) && i < j < |run|
    requires actions[i] == RemoveBegin(id) && id in run[i].jobs
    ensures RemoveOnCourse(run, actions, i, j, id, run[i].jobs[id])
  {
    if j == i + 1 {
      RemoveStarts(run, actions, i, id);
    } else {
      RemoveStaysOnCourse(run, actions, i, j - 1, id);
      if InRemove(run[j - 1], id, run[i].jobs[id]) {
        OneStepOnCourse(run, actions, j - 1, id, run[i].jobs[id]);
      }
    }
  }

  // ---- Schedule ----

  function Saved(s: State, job: Job, upserted: bool, now: int): State {
    var stored := Apply(s.store, Save(job));
    if upserted then UpsertFor(s.(store := stored), job, now) else s.(store := stored, lock := Scheduling(job, false))
  }

  /** The state an accepted Schedule leaves behind. */
  function Scheduled(s: State, job: Job, now: int): State {
    Saved(s, job, true, now).(
      lock := Free,
      jobs := s.jobs[job.id := |s.loops|],
      wg := s.wg + 1,
      loops := s.loops + [Loop(job, StartWait, 0, false, Completed, 0)])
  }

  lemma ScheduleSaves(s: State, job: Job, now: int)
    requires s.lock.Free? && !s.stopped && job.id !in s.jobs && job.id !in s.store.jobs
    ensures Leads(s, [ScheduleBegin(job)], Saved(s, job, false, now))
  {
    LeadsOnce(s, ScheduleBegin(job), Saved(s, job, false, now));
  }

  lemma ScheduleUpserts(s: State, job: Job, now: int)
    ensures Leads(Saved(s, job, false, now), [ScheduleUpsert(now)], Saved(s, job, true, now))
  {
    LeadsOnce(Saved(s, job, false, now), ScheduleUpsert(now), Saved(s, job, true, now));
  }

  lemma ScheduleSpawns(s: State, job: Job, now: int)
    ensures Leads(Saved(s, job, true, now), [ScheduleSpawn], Scheduled(s, job, now))
  {
    LeadsOnce(Saved(s, job, true, now), ScheduleSpawn, Scheduled(s, job, now));
  }

  /**
   From every reachable state with a free mutex, unless the scheduler has stopped or the id is registered, the steps of
   Schedule are possible one after the other, and at the end the job is registered with an uncancelled loop of its own,
   stored, and shows Scheduled; other registrations and statuses are untouched.
   */
  lemma ScheduleRegisters(s: State, job: Job, now: int) returns (s': State)
    requires Reachable(s) && s.lock.Free? && !s.stopped && job.id !in s.jobs
    ensures Leads(s, [ScheduleBegin(job), ScheduleUpsert(now), ScheduleSpawn], s') && Reachable(s')
    ensures s'.lock.Free? && s'.jobs == s.jobs[job.id := |s.loops|]
    ensures s'.loops == s.loops + [Loop(job, StartWait, 0, false, Completed, 0)]
    ensures s'.store.jobs == s.store.jobs[job.id := job]
    ensures job.id in s'.store.status && s'.store.status[job.id].status.state == JobState.Scheduled
    ensures forall other :: other != job.id && other in s.store.status ==>
      other in s'.store.status && s'.store.status[other] == s.store.status[other]
  {
    RegistrationAgreement(s);
    s' := Scheduled(s, job, now);
    ScheduleSaves(s, job, now);
    ScheduleUpserts(s, job, now);
    ScheduleSpawns(s, job, now);
    LeadsOn(Saved(s, job, false, now), [ScheduleUpsert(now)], Saved(s, job, true, now), [ScheduleSpawn], s');
    LeadsOn(s, [ScheduleBegin(job)], Saved(s, job, false, now), [ScheduleUpsert(now)] + [ScheduleSpawn], s');
    var actions := [ScheduleBegin(job), ScheduleUpsert(now), ScheduleSpawn];
    assert [ScheduleBegin(job)] + ([ScheduleUpsert(now)] + [ScheduleSpawn]) == actions;
    LeadsReachable(s, actions, s');
  }

  /** A Schedule after Stop, or of a registered id, changes nothing. */
  lemma ScheduleRefused(s: State, job: Job)
    requires s.lock.Free? && (s.stopped || job.id in s.jobs)
    ensures Enabled(s, ScheduleBegin(job)) && Take(s, ScheduleBegin(job)) == s
  {
  }

  // ---- Stop ----

  /** One registered job is cancelled, deleted and marked. */
  function StoppedOne(s: State, id: string, now: int): State
    requires s.lock.Stopping? && id in s.jobs && s.jobs[id] < |s.loops|
  {
    Cancel(s, s.jobs[id]).(
      store := Apply(Apply(s.store, Delete(id)), MarkTerminal(id, Stopped, now)),
      lock := s.lock.(todo := s.lock.todo - {id}, at := Picking))
  }

  function StopCancelled(s: State, id: string): State
    requires s.lock.Stopping? && id in s.jobs && s.jobs[id] < |s.loops|
  {
    Cancel(s, s.jobs[id]).(lock := s.lock.(at := StopDeleting(id)))
  }

  function StopDeleted(s: State, id: string): State
    requires s.lock.Stopping? && id in s.jobs && s.jobs[id] < |s.loops|
  {
    Cancel(s, s.jobs[id]).(store := Apply(s.store, Delete(id)), lock := s.lock.(at := StopMarking(id)))
  }

  /** Stop is about to pick `id`. */
  predicate CanPick(s: State, id: string) {
    s.lock.Stopping? && s.lock.at.Picking? && id in s.lock.todo && id in s.jobs && s.jobs[id] < |s.loops|
  }

  lemma StopCancels(s: State, id: string)
    requires CanPick(s, id)
    ensures Leads(s, [StopCancel(id)], StopCancelled(s, id))
  {
    LeadsOnce(s, StopCancel(id), StopCancelled(s, id));
  }

  lemma StopDeletes(s: State, id: string)
    requires CanPick(s, id)
    ensures Leads(StopCancelled(s, id), [StopDelete], StopDeleted(s, id))
  {
    LeadsOnce(StopCancelled(s, id), StopDelete, StopDeleted(s, id));
  }

  lemma StopMarksIt(s: State, id: string, now: int)
    requires CanPick(s, id)
    ensures Leads(StopDeleted(s, id), [StopMark(now)], StoppedOne(s, id, now))
  {
    LeadsOnce(StopDeleted(s, id), StopMark(now), StoppedOne(s, id, now));
  }

  lemma StopsOne(s: State, id: string, now: int)
    requires CanPick(s, id)
    ensures Leads(s, [StopCancel(id)] + ([StopDelete] + [StopMark(now)]), StoppedOne(s, id, now))
  {
    StopCancels(s, id);
    StopDeletes(s, id);
    StopMarksIt(s, id, now);
    LeadsOn(StopCancelled(s, id), [StopDelete], StopDeleted(s, id), [StopMark(now)], StoppedOne(s, id, now));
    LeadsOn(s, [StopCancel(id)], StopCancelled(s, id), [StopDelete] + [StopMark(now)], StoppedOne(s, id, now));
  }

  /** What Stop does to the status of `id`: an open one is closed as Stopped. */
  ghost predicate StatusStopped(e: StatusEntry, e': StatusEntry) {
    e'.terminal && e'.status.state == if e.terminal then e.status.state else Stopped
  }

  /** What Stop does to the jobs in `ids`: their loops are cancelled, they are deleted, and their statuses closed. */
  ghost predicate AllStopped(s: State, s': State, ids: set<string>) {
    && s'.jobs == s.jobs && |s'.loops| == |s.loops|
    && s'.store.jobs == s.store.jobs - ids
    && s'.store.status.Keys == s.store.status.Keys
    && (forall id :: id in ids && id in s.jobs && s.jobs[id] < |s.loops| ==> s'.loops[s.jobs[id]].cancelled)
    && (forall id :: id in s.store.status ==>
         if id in ids then StatusStopped(s.store.status[id], s'.store.status[id])
         else s'.store.status[id] == s.store.status[id])
  }

  lemma OneIsStopped(s: State, id: string, now: int)
    requires CanPick(s, id)
    ensures AllStopped(s, StoppedOne(s, id, now), {id})
  {
  }

  /** Loops stay cancelled, also through the rounds for other jobs. */
  ghost predicate KeepsCancelled(s: State, s': State) {
    |s'.loops| == |s.loops| && forall e :: 0 <= e < |s.loops| && s.loops[e].cancelled ==> s'.loops[e].cancelled
  }

  lemma RoundsAddUp(s: State, t: State, s': State, id: string, rest: set<string>)
    requires AllStopped(s, t, {id}) && AllStopped(t, s', rest) && id !in rest && KeepsCancelled(t, s')
    ensures AllStopped(s, s', rest + {id})
  {
  }

  /** Round by round, Stop works off its set. */
  lemma {:induction false} StopRounds(s: State, now: int) returns (actions: seq<Action>, s': State)
    requires s.lock.Stopping? && s.lock.at.Picking?
    requires forall id :: id in s.lock.todo ==> id in s.jobs && s.jobs[id] < |s.loops|
    ensures Leads(s, actions, s') && AllStopped(s, s', s.lock.todo) && KeepsCancelled(s, s')
    ensures s'.lock == s.lock.(todo := {}, at := Picking)
    ensures s'.stops == s.stops && s'.stopped == s.stopped
    decreases |s.lock.todo|
  {
    if s.lock.todo == {} {
      actions, s' := [], s;
    } else {
      var id := SomeElement(s.lock.todo);
      var t := StoppedOne(s, id, now);
      OneIsStopped(s, id, now);
      var rest;
      rest, s' := StopRounds(t, now);
      actions := [StopCancel(id)] + ([StopDelete] + [StopMark(now)]) + rest;
      RoundLeads(s, id, now, rest, s');
      RoundsAddUp(s, t, s', id, t.lock.todo);
      assert t.lock.todo + {id} == s.lock.todo;
    }
  }

  lemma RoundLeads(s: State, id: string, now: int, rest: seq<Action>, s': State)
    requires CanPick(s, id) && Leads(StoppedOne(s, id, now), rest, s')
    ensures Leads(s, [StopCancel(id)] + ([StopDelete] + [StopMark(now)]) + rest, s')
  {
    StopsOne(s, id, now);
    LeadsOn(s, [StopCancel(id)] + ([StopDelete] + [StopMark(now)]), StoppedOne(s, id, now), rest, s');
  }

  lemma StopEnters(s: State, c: nat)
    requires s.lock.Free? && !s.stopped && c < |s.stops| && s.stops[c].Entering?
    ensures Leads(s, [StopEnter(c)], EnterStop(s, c))
  {
    LeadsOnce(s, StopEnter(c), EnterStop(s, c));
  }

  lemma StopUnlocks(s: State)
    requires s.lock.Stopping? && s.lock.at.Picking? && s.lock.todo == {} && s.lock.call < |s.stops|
    ensures Leads(s, [StopUnlock], s.(jobs := map[], lock := Free, stops := s.stops[s.lock.call := Waiting]))
  {
    LeadsOnce(s, StopUnlock, s.(jobs := map[], lock := Free, stops := s.stops[s.lock.call := Waiting]));
  }

  /**
   From every reachable state with a free mutex and a Stop call entering, if the scheduler has not stopped yet, the steps of
   Stop are possible one after the other. At the end the call waits, the mutex is free, nothing is registered or stored,
   every registered loop is cancelled, every registered id is closed, as Stopped if it was open, and other statuses are
   untouched.
   */
  lemma StopStopsAll(s: State, c: nat, now: int) returns (actions: seq<Action>, s': State)
    requires Reachable(s) && s.lock.Free? && !s.stopped && c < |s.stops| && s.stops[c].Entering?
    ensures Leads(s, actions, s') && Reachable(s')
    ensures s'.stopped && s'.lock.Free? && s'.jobs == map[] && s'.store.jobs == map[]
    ensures c < |s'.stops| && s'.stops[c].Waiting?
    ensures forall id :: id in s.jobs ==> s.jobs[id] < |s'.loops| && s'.loops[s.jobs[id]].cancelled
    ensures s'.store.status.Keys == s.store.status.Keys
    ensures forall id :: id in s.store.status ==>
      if id in s.jobs then StatusStopped(s.store.status[id], s'.store.status[id])
      else s'.store.status[id] == s.store.status[id]
  {
    ReachableInv(s);
    RegistrationAgreement(s);
    var rounds, s2 := StopRounds(EnterStop(s, c), now);
    s' := s2.(jobs := map[], lock := Free, stops := s2.stops[c := Waiting]);
    actions := [StopEnter(c)] + (rounds + [StopUnlock]);
    StopLeads(s, c, rounds, s2);
    LeadsReachable(s, actions, s');
    StopLeaves(s, s2);
  }

  lemma StopLeads(s: State, c: nat, rounds: seq<Action>, s2: State)
    requires s.lock.Free? && !s.stopped && c < |s.stops| && s.stops[c].Entering?
    requires Leads(EnterStop(s, c), rounds, s2) && s2.lock == Stopping(c, {}, Picking) && |s2.stops| == |s.stops|
    ensures Leads(s, [StopEnter(c)] + (rounds + [StopUnlock]),
                  s2.(jobs := map[], lock := Free, stops := s2.stops[c := Waiting]))
  {
    var s' := s2.(jobs := map[], lock := Free, stops := s2.stops[c := Waiting]);
    StopEnters(s, c);
    StopUnlocks(s2);
    LeadsOn(EnterStop(s, c), rounds, s2, [StopUnlock], s');
    LeadsOn(s, [StopEnter(c)], EnterStop(s, c), rounds + [StopUnlock], s');
  }

  lemma StopLeaves(s: State, s2: State)
    requires JobsOk(s) && s.jobs.Keys == s.store.jobs.Keys && AllStopped(s, s2, s.jobs.Keys)
    ensures s2.store.jobs == map[]
    ensures forall id :: id in s.jobs ==> s.jobs[id] < |s2.loops| && s2.loops[s.jobs[id]].cancelled
  {
  }

  /** A later Stop call only waits. */
  lemma LaterStopWaits(s: State, c: nat)
    requires s.lock.Free? && s.stopped && c < |s.stops| && s.stops[c].Entering?
    ensures Enabled(s, StopEnter(c)) && Take(s, StopEnter(c)) == s.(stops := s.stops[c := Waiting])
  {
  }
}
