/**
 The default storage. `Store` is its contents as a value, with one function per operation;
 `InMemoryJobsStorage` is the object whose methods update the two maps in place, and is proved
 to follow those functions.
 */
module MemoryStorage {
  import opened JobTypes

  const DEFAULT_HISTORY_LIMIT := 20

  datatype StatusEntry = StatusEntry(
    status: JobStatus,
    history: seq<JobRun>,
    activeRuns: int,
    terminal: bool,
    lastSequence: int)

  datatype Store = Store(jobs: map<string, Job>, status: map<string, StatusEntry>)

  /** A write that a storage accepts. `now` is the clock reading the operation makes. */
  datatype Op =
    | Save(job: Job)
    | Delete(id: string)
    | UpsertStatus(id: string, state: JobState, now: int)
    | MarkRemoved(id: string, now: int)
    | MarkTerminal(id: string, state: JobState, now: int)
    | MarkExecutionStart(id: string, now: int)
    | RecordExecutionResult(id: string, payload: Payload, historyLimit: int, now: int)

  const EMPTY := Store(map[], map[])

  function EffectiveLimit(historyLimit: int): (r: int)
    ensures r > 0
  {
    if historyLimit <= 0 then DEFAULT_HISTORY_LIMIT else historyLimit
  }

  function NewEntry(id: string, state: JobState, now: int): StatusEntry {
    StatusEntry(JobStatus(id, state, now, now, 0, 0, None), [], 0, false, 0)
  }

  /** Closing an entry copies the live run counter into the visible status. */
  function Close(e: StatusEntry, state: JobState, now: int): StatusEntry {
    e.(terminal := true, status := e.status.(state := state, activeRuns := e.activeRuns, updatedAt := now))
  }

  function Start(e: StatusEntry, now: int): StatusEntry {
    var state := if e.terminal then e.status.state else Running;
    e.(activeRuns := e.activeRuns + 1,
       status := e.status.(state := state, activeRuns := e.activeRuns + 1, updatedAt := now))
  }

  function Record(e: StatusEntry, payload: Payload, limit: nat, now: int): StatusEntry {
    var sequence := e.lastSequence + 1;
    var active := if e.activeRuns > 0 then e.activeRuns - 1 else e.activeRuns;
    var state := if e.terminal then e.status.state else if active > 0 then Running else Scheduled;
    StatusEntry(
      e.status.(state := state, updatedAt := now, runs := sequence, activeRuns := active, lastRun := Some(payload)),
      LastN(e.history + [JobRun(sequence, payload)], limit),
      active,
      e.terminal,
      sequence)
  }

  /** How a status write changes the entry it finds. */
  function Touch(e: StatusEntry, op: Op): StatusEntry
    requires !op.Save? && !op.Delete?
  {
    match op
    case UpsertStatus(_, state, now) => e.(status := e.status.(state := state, updatedAt := now))
    case MarkRemoved(_, now) => Close(e, Removed, now)
    case MarkTerminal(_, state, now) => if e.terminal then e else Close(e, state, now)
    case MarkExecutionStart(_, now) => Start(e, now)
    case RecordExecutionResult(_, payload, limit, now) => Record(e, payload, EffectiveLimit(limit), now)
  }

  /** The contents after `op`. A failed `Save` and a write to an unknown id change nothing. */
  function Apply(s: Store, op: Op): Store {
    match op
    case Save(job) =>
      if job.id in s.jobs then s else s.(jobs := s.jobs[job.id := job])
    case Delete(id) =>
      s.(jobs := s.jobs - {id})
    case _ =>
      if op.id in s.status then s.(status := s.status[op.id := Touch(s.status[op.id], op)])
      else if op.UpsertStatus? then s.(status := s.status[op.id := NewEntry(op.id, op.state, op.now)])
      else s
  }

  /** What the operation answers: whether a `Save` or `Delete` took effect; other writes always succeed. */
  predicate Accepts(s: Store, op: Op) {
    match op
    case Save(job) => job.id !in s.jobs
    case Delete(id) => id in s.jobs
    case _ => true
  }

  function Run(s: Store, ops: seq<Op>): Store {
    if ops == [] then s else Apply(Run(s, ops[..|ops| - 1]), ops[|ops| - 1])
  }

  function ReadStatus(s: Store, id: string): Option<JobStatus> {
    if id in s.status then Some(s.status[id].status) else None
  }

  function ReadHistory(s: Store, id: string): Option<seq<JobRun>> {
    if id in s.status then Some(s.status[id].history) else None
  }

  /** The retained history is the contiguous run of sequences that ends at the run count. */
  ghost predicate Contiguous(e: StatusEntry) {
    && 0 <= |e.history| <= e.lastSequence
    && (e.lastSequence > 0 ==> |e.history| > 0)
    && forall i :: 0 <= i < |e.history| ==> e.history[i].sequence == e.lastSequence - |e.history| + 1 + i
  }

  /** Visible counters agree with the internal ones, and the last run is the last history row. */
  ghost predicate EntryOk(id: string, e: StatusEntry) {
    && Contiguous(e)
    && e.status.jobId == id
    && e.status.runs == e.lastSequence
    && e.status.activeRuns == e.activeRuns
    && 0 <= e.activeRuns
    && e.status.lastRun == if e.history == [] then None else Some(e.history[|e.history| - 1].payload)
  }

  ghost predicate StoreOk(s: Store) {
    && (forall id :: id in s.status ==> EntryOk(id, s.status[id]))
    && (forall id :: id in s.jobs ==> s.jobs[id].id == id)
  }

  lemma RecordKeepsEntryOk(id: string, e: StatusEntry, payload: Payload, limit: nat, now: int)
    requires EntryOk(id, e) && limit > 0
    ensures EntryOk(id, Record(e, payload, limit, now))
  {
    var e' := Record(e, payload, limit, now);
    var all := e.history + [JobRun(e.lastSequence + 1, payload)];
    assert forall i :: 0 <= i < |all| ==> all[i].sequence == e'.lastSequence - |all| + 1 + i;
  }

  lemma ApplyKeepsStoreOk(s: Store, op: Op)
    requires StoreOk(s)
    ensures StoreOk(Apply(s, op))
  {
    match op
    case RecordExecutionResult(id, payload, limit, now) =>
      if id in s.status {
        RecordKeepsEntryOk(id, s.status[id], payload, EffectiveLimit(limit), now);
      }
    case _ =>
  }

  /** After any sequence of writes, with any history limits, every entry is contiguous and its counters agree. */
  lemma {:induction false} RunKeepsStoreOk(ops: seq<Op>)
    ensures StoreOk(Run(EMPTY, ops))
  {
    if ops != [] {
      RunKeepsStoreOk(ops[..|ops| - 1]);
      ApplyKeepsStoreOk(Run(EMPTY, ops[..|ops| - 1]), ops[|ops| - 1]);
    }
  }

  /** The storage object: two maps, updated in place. */
  class InMemoryJobsStorage {
    var jobs: map<string, Job>
    var status: map<string, StatusEntry>

    ghost function View(): Store
      reads this
    {
      Store(jobs, status)
    }

    constructor ()
      ensures View() == EMPTY
    {
      jobs, status := map[], map[];
    }

    method Save(job: Job) returns (ok: bool)
      modifies this
      ensures ok == Accepts(old(View()), Op.Save(job))
      ensures View() == Apply(old(View()), Op.Save(job))
    {
      if job.id in jobs {
        return false;
      }
      jobs := jobs[job.id := job];
      ok := true;
    }

    method Delete(id: string) returns (ok: bool)
      modifies this
      ensures ok == Accepts(old(View()), Op.Delete(id))
      ensures View() == Apply(old(View()), Op.Delete(id))
    {
      if id !in jobs {
        assert jobs - {id} == jobs;
        return false;
      }
      jobs := jobs - {id};
      ok := true;
    }

    method UpsertStatus(id: string, state: JobState, now: int)
      modifies this
      ensures View() == Apply(old(View()), Op.UpsertStatus(id, state, now))
    {
      if id !in status {
        status := status[id := StatusEntry(JobStatus(id, Scheduled, now, 0, 0, 0, None), [], 0, false, 0)];
      }
      status := status[id := status[id].(status := status[id].status.(state := state))];
      status := status[id := status[id].(status := status[id].status.(updatedAt := now))];
    }

    method MarkRemoved(id: string, now: int)
      modifies this
      ensures View() == Apply(old(View()), Op.MarkRemoved(id, now))
    {
      if id !in status {
        return;
      }
      var entry := status[id];
      entry := entry.(terminal := true);
      entry := entry.(status := entry.status.(state := Removed));
      entry := entry.(status := entry.status.(activeRuns := entry.activeRuns, updatedAt := now));
      status := status[id := entry];
    }

    method MarkTerminal(id: string, state: JobState, now: int)
      modifies this
      ensures View() == Apply(old(View()), Op.MarkTerminal(id, state, now))
    {
      if id !in status || status[id].terminal {
        assert id in status ==> status[id := status[id]] == status;
        return;
      }
      var entry := status[id];
      entry := entry.(terminal := true);
      entry := entry.(status := entry.status.(state := state));
      entry := entry.(status := entry.status.(activeRuns := entry.activeRuns, updatedAt := now));
      status := status[id := entry];
    }

    method MarkExecutionStart(id: string, now: int)
      modifies this
      ensures View() == Apply(old(View()), Op.MarkExecutionStart(id, now))
    {
      if id !in status {
        return;
      }
      var entry := status[id];
      entry := entry.(activeRuns := entry.activeRuns + 1);
      entry := entry.(status := entry.status.(activeRuns := entry.activeRuns, updatedAt := now));
      if !entry.terminal {
        entry := entry.(status := entry.status.(state := Running));
      }
      status := status[id := entry];
    }

    method RecordExecutionResult(id: string, payload: Payload, historyLimit: int, now: int)
      modifies this
      ensures View() == Apply(old(View()), Op.RecordExecutionResult(id, payload, historyLimit, now))
    {
      if id !in status {
        return;
      }
      var limit := historyLimit;
      if limit <= 0 {
        limit := DEFAULT_HISTORY_LIMIT;
      }
      var entry := status[id];
      entry := entry.(lastSequence := entry.lastSequence + 1);
      entry := entry.(history := entry.history + [JobRun(entry.lastSequence, payload)]);
      if |entry.history| > limit {
        entry := entry.(history := entry.history[|entry.history| - limit..]);
      }
      entry := entry.(status := entry.status.(runs := entry.lastSequence, lastRun := Some(payload)));
      if entry.activeRuns > 0 {
        entry := entry.(activeRuns := entry.activeRuns - 1);
      }
      entry := entry.(status := entry.status.(activeRuns := entry.activeRuns, updatedAt := now));
      if !entry.terminal {
        var state := if entry.activeRuns > 0 then Running else Scheduled;
        entry := entry.(status := entry.status.(state := state));
      }
      status := status[id := entry];
    }

    method Status(id: string) returns (r: Option<JobStatus>)
      ensures r == ReadStatus(View(), id)
    {
      if id !in status {
        return None;
      }
      r := Some(status[id].status);
    }

    /** Copies the retained rows one by one. */
    method History(id: string) returns (r: Option<seq<JobRun>>)
      ensures r == ReadHistory(View(), id)
    {
      if id !in status {
        return None;
      }
      var rows := status[id].history;
      var copy := [];
      for i := 0 to |rows|
        invariant copy == rows[..i]
      {
        copy := copy + [rows[i]];
      }
      assert copy == rows;
      r := Some(copy);
    }
  }
}
