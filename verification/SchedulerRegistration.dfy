/** The scheduler's job map and the storage's jobs agree, up to the one id that a mutex holder is working on. */
module SchedulerRegistration {
  import opened SchedulerModel
  import opened SchedulerInvariants

  /** The ids the storage must hold, given how far the mutex holder got. */
  function StoredIds(s: State): set<string> {
    match s.lock
    case Free => s.jobs.Keys
    case Scheduling(job, _) => s.jobs.Keys + {job.id}
    case Removing(id, _, phase) => if phase.Deleting? then s.jobs.Keys + {id} else s.jobs.Keys
    case Stopping(_, todo, at) => if at.StopMarking? then todo - {at.id} else todo
    case Cleaning(e) => if e < |s.loops| then s.jobs.Keys + {s.loops[e].job.id} else s.jobs.Keys
  }

  ghost predicate RegistrationOk(s: State) {
    s.store.jobs.Keys == StoredIds(s)
  }

  lemma QuietKeepsRegistration(s: State, a: Action)
    requires Shape(s) && RegistrationOk(s) && Enabled(s, a) && (IsExecStep(a) || IsEarlyLoopStep(a))
    ensures RegistrationOk(Take(s, a))
  {
    if IsExecStep(a) {
      ExecStepIsQuiet(s, a);
    } else {
      LoopStepIsQuiet(s, a);
    }
    StoreJobsUntouched(s, a);
    var s' := Take(s, a);
    if s.lock.Cleaning? {
      assert SameOutside(s.loops[s.lock.entry], s'.loops[s.lock.entry]);
    }
  }

  lemma StoreJobsUntouched(s: State, a: Action)
    requires Enabled(s, a) && (IsExecStep(a) || IsEarlyLoopStep(a))
    ensures Take(s, a).store.jobs == s.store.jobs
  {
    if IsExecStep(a) {
      ExecFrame(s, a);
    } else {
      EarlyFrame(s, a);
    }
  }

  lemma CallKeepsRegistration(s: State, a: Action)
    requires Shape(s) && RegistrationOk(s) && Enabled(s, a)
    requires IsScheduleStep(a) || IsCleanupStep(a)
    ensures RegistrationOk(Take(s, a))
  {
    if IsScheduleStep(a) {
      ScheduleKeepsRegistration(s, a);
    } else {
      CleanupKeepsRegistration(s, a);
    }
  }

  lemma ScheduleKeepsRegistration(s: State, a: Action)
    requires Shape(s) && RegistrationOk(s) && Enabled(s, a) && IsScheduleStep(a)
    ensures RegistrationOk(Take(s, a))
  {
  }

  lemma CleanupKeepsRegistration(s: State, a: Action)
    requires Shape(s) && RegistrationOk(s) && Enabled(s, a) && IsCleanupStep(a)
    ensures RegistrationOk(Take(s, a))
  {
    if a.LoopLeave? {
      LeaveKeepsRegistration(s, a.entry);
    } else {
      UnregisterKeepsRegistration(s, a);
    }
  }

  lemma LeaveKeepsRegistration(s: State, e: nat)
    requires Shape(s) && RegistrationOk(s) && Enabled(s, LoopLeave(e))
    ensures RegistrationOk(Take(s, LoopLeave(e)))
  {
  }

  lemma UnregisterKeepsRegistration(s: State, a: Action)
    requires Shape(s) && RegistrationOk(s) && Enabled(s, a) && (a.LoopCleanup? || a.LoopDelete?)
    ensures RegistrationOk(Take(s, a))
  {
  }

  lemma RemoveKeepsRegistration(s: State, a: Action)
    requires Shape(s) && RegistrationOk(s) && Enabled(s, a) && IsRemoveStep(a)
    ensures RegistrationOk(Take(s, a))
  {
  }

  lemma StopKeepsRegistration(s: State, a: Action)
    requires Shape(s) && RegistrationOk(s) && Enabled(s, a) && IsStopStep(a)
    ensures RegistrationOk(Take(s, a))
  {
  }

  lemma KeepsRegistration(s: State, a: Action)
    requires Shape(s) && RegistrationOk(s) && Enabled(s, a)
    ensures RegistrationOk(Take(s, a))
  {
    if IsExecStep(a) || IsEarlyLoopStep(a) {
      QuietKeepsRegistration(s, a);
    } else if IsStopStep(a) {
      StopKeepsRegistration(s, a);
    } else if IsRemoveStep(a) {
      RemoveKeepsRegistration(s, a);
    } else {
      CallKeepsRegistration(s, a);
    }
  }

  /** A step of one registration's loop never unregisters or deletes another, even one that reuses its id. */
  lemma LoopStepSparesOthers(s: State, a: Action, id: string)
    requires Shape(s) && RegistrationOk(s) && Enabled(s, a)
    requires (IsEarlyLoopStep(a) && !a.CancelContext?) || IsCleanupStep(a)
    requires id in s.jobs && s.jobs[id] != a.entry
    ensures id in Take(s, a).jobs && Take(s, a).jobs[id] == s.jobs[id]
    ensures id in s.store.jobs ==> id in Take(s, a).store.jobs
  {
    if IsEarlyLoopStep(a) {
      EarlyFrame(s, a);
      StoreJobsUntouched(s, a);
    } else {
      CleanupSparesOthers(s, a, id);
    }
  }

  lemma CleanupSparesOthers(s: State, a: Action, id: string)
    requires Shape(s) && RegistrationOk(s) && Enabled(s, a) && IsCleanupStep(a)
    requires id in s.jobs && s.jobs[id] != a.entry
    ensures id in Take(s, a).jobs && Take(s, a).jobs[id] == s.jobs[id]
    ensures id in s.store.jobs ==> id in Take(s, a).store.jobs
  {
    if a.LoopCleanup? {
      UnregisterSparesOthers(s, a.entry, id);
    } else if a.LoopDelete? {
      DeleteSparesOthers(s, a.entry, id);
    }
  }

  lemma UnregisterSparesOthers(s: State, e: nat, id: string)
    requires Shape(s) && Enabled(s, LoopCleanup(e)) && id in s.jobs && s.jobs[id] != e
    ensures id in Take(s, LoopCleanup(e)).jobs && Take(s, LoopCleanup(e)).jobs[id] == s.jobs[id]
    ensures Take(s, LoopCleanup(e)).store == s.store
  {
  }

  lemma DeleteSparesOthers(s: State, e: nat, id: string)
    requires Shape(s) && Enabled(s, LoopDelete(e)) && id in s.jobs && s.jobs[id] != e
    ensures Take(s, LoopDelete(e)).jobs == s.jobs
    ensures id in s.store.jobs ==> id in Take(s, LoopDelete(e)).store.jobs
  {
  }
}
