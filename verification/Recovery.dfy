/** What a new scheduler does with jobs it finds in its storage. */
module Recovery {
  import opened JobTypes
  import opened MemoryStorage
  import opened SchedulerModel
  import opened SchedulerLifecycle
  import opened SchedulerTheorems
  import opened SchedulerReasons

  predicate IsActive(state: JobState) {
    state.Scheduled? || state.Running?
  }

  /** The status of a recovered job: an active one is closed as Canceled, unless it is already closed. */
  function Reconciled(e: StatusEntry, now: int): StatusEntry {
    if IsActive(e.status.state) && !e.terminal then Close(e, Canceled, now) else e
  }

  /** Closes and deletes every stored job. */
  method ReconcileRecoveredState(storage: InMemoryJobsStorage, now: int)
    modifies storage
    ensures storage.jobs == map[]
    ensures storage.status.Keys == old(storage.status).Keys
    ensures forall id :: id in old(storage.status) ==>
      storage.status[id] ==
      if id in old(storage.jobs) then Reconciled(old(storage.status)[id], now) else old(storage.status)[id]
  {
    ghost var status0, jobs0 := storage.status, storage.jobs;
    var ids := storage.jobs.Keys;
    while ids != {}
      invariant storage.jobs.Keys == ids && ids <= jobs0.Keys
      invariant storage.status.Keys == status0.Keys
      invariant forall id :: id in status0 ==>
        storage.status[id] == if id in jobs0 && id !in ids then Reconciled(status0[id], now) else status0[id]
      decreases |ids|
    {
      ghost var some := SomeElement(ids);
      var id :| id in ids;
      if id in storage.status && IsActive(storage.status[id].status.state) {
        storage.MarkTerminal(id, Canceled, now);
      }
      var _ := storage.Delete(id);
      ids := ids - {id};
    }
  }

  /**
   A scheduler is left behind at any point of any run and another one recovers its jobs: a job keeps an active state exactly
   if its id had been registered before and was not removed since its last registration.
   */
  lemma LeftActiveIff(run: seq<State>, actions: seq<Action>, j: nat, id: string, now: int)
    requires IsRun(run, actions) && j < |run| && id in run[j].store.status
    ensures IsActive(Reconciled(run[j].store.status[id], now).status.state) <==>
      Registrations(run, actions, id, j) >= 2 && !RemovedLast(run, actions, id, j)
  {
    InvAlong(run, actions, j);
    RegistrationsCount(run, actions, j, id);
    RemovedIff(run, actions, j, id);
    ReconciledActiveIff(run[j], id, now);
  }

  lemma ReconciledActiveIff(s: State, id: string, now: int)
    requires StatesOk(s) && id in s.store.status
    ensures IsActive(Reconciled(s.store.status[id], now).status.state) <==>
      id in s.reused && !s.store.status[id].status.state.Removed?
  {
    assert StateOk(s.store.status[id], id in s.reused);
  }

  /**
   What recovery makes of a status: one that showed a final state, or whose id had been registered before, stays as it is;
   any other is closed as Canceled at the time of recovery, with its runs, its active runs and its history.
   */
  lemma RecoveredAs(run: seq<State>, actions: seq<Action>, j: nat, id: string, now: int)
    requires IsRun(run, actions) && j < |run| && id in run[j].store.status
    ensures var e := run[j].store.status[id];
            var e' := Reconciled(e, now);
            if IsFinal(e.status.state) || Registrations(run, actions, id, j) >= 2 then e' == e
            else e'.terminal && e'.status.state.Canceled? && e'.status.updatedAt == now &&
                 e'.status.runs == e.status.runs && e'.activeRuns == e.activeRuns && e'.history == e.history &&
                 e'.status.lastRun == e.status.lastRun && e'.status.createdAt == e.status.createdAt
  {
    InvAlong(run, actions, j);
    RegistrationsCount(run, actions, j, id);
    assert StateOk(run[j].store.status[id], id in run[j].reused);
  }

  /** Left behind with its mutex free, it hands over only registered jobs, and for those the registrations decide alone. */
  lemma LeftActiveWhenFree(run: seq<State>, actions: seq<Action>, j: nat, id: string, now: int)
    requires IsRun(run, actions) && j < |run| && run[j].lock.Free? && id in run[j].store.jobs
    ensures id in run[j].store.status
    ensures IsActive(Reconciled(run[j].store.status[id], now).status.state) <==> Registrations(run, actions, id, j) >= 2
  {
    InvAlong(run, actions, j);
    RegisteredShows(run, actions, j, id);
    LeftActiveIff(run, actions, j, id, now);
    RemovedIff(run, actions, j, id);
  }

  lemma RunOneMore(ops: seq<Op>, op: Op)
    ensures Run(EMPTY, ops + [op]) == Apply(Run(EMPTY, ops), op)
  {
    assert (ops + [op])[..|ops|] == ops;
  }

  /** Such a job exists: removed once and registered again, its state stays Scheduled through recovery. */
  lemma ReRegisteredStaysScheduled(job: Job, now: int)
    ensures var ops := [Save(job), UpsertStatus(job.id, Scheduled, now), Delete(job.id), MarkRemoved(job.id, now),
                        Save(job), UpsertStatus(job.id, Scheduled, now)];
            var s := Run(EMPTY, ops);
            && job.id in s.jobs && job.id in s.status
            && s.status[job.id].status.state.Scheduled?
            && Reconciled(s.status[job.id], now).status.state.Scheduled?
  {
    var a: seq<Op> := [] + [Save(job)];
    var b := a + [UpsertStatus(job.id, Scheduled, now)];
    var c := b + [Delete(job.id)];
    var d := c + [MarkRemoved(job.id, now)];
    var e := d + [Save(job)];
    var f := e + [UpsertStatus(job.id, Scheduled, now)];
    RunOneMore([], Save(job));
    RunOneMore(a, UpsertStatus(job.id, Scheduled, now));
    RunOneMore(b, Delete(job.id));
    RunOneMore(c, MarkRemoved(job.id, now));
    RunOneMore(d, Save(job));
    RunOneMore(e, UpsertStatus(job.id, Scheduled, now));
    assert f == [Save(job), UpsertStatus(job.id, Scheduled, now), Delete(job.id), MarkRemoved(job.id, now), Save(job),
                 UpsertStatus(job.id, Scheduled, now)];
  }
}
