/**
 The SQLite storage. Tables are maps and a transaction is one atomic change of the tables: `Db` holds the
 tables as a value, with one function per operation, and `SQLiteJobsStorage` is the object that follows them.
 */
module SqliteStorage {
  import opened JobTypes
  import opened OrderedRows
  import opened MemoryStorage

  /** The JSON document stored in a status row. */
  datatype StatusData = StatusData(
    jobId: string,
    state: JobState,
    createdAt: int,
    updatedAt: int,
    runs: int,
    activeRuns: int,
    lastRun: Option<Payload>)

  datatype StatusRow = StatusRow(data: StatusData, activeRuns: int, terminal: int, lastSequence: int)

  /** The primary key of the history table. */
  datatype Key = Key(id: string, sequence: int)

  datatype HistoryRow = HistoryRow(payload: Payload, finishedAtUnixNano: int)

  type HistoryTable = map<Key, HistoryRow>

  datatype Db = Db(jobs: map<string, string>, status: map<string, StatusRow>, history: HistoryTable)

  /** Values that are not positive switch a rule off. */
  datatype Retention = Retention(maxAge: int, maxRowsPerJob: int)

  /** A status row as the transactions work on it. */
  datatype StatusRecord = StatusRecord(status: StatusData, activeRuns: int, terminal: bool, lastSequence: int)

  const EMPTY_DB := Db(map[], map[], map[])

  function ToJobStatus(data: StatusData, activeRuns: int): JobStatus {
    JobStatus(data.jobId, data.state, data.createdAt, data.updatedAt, data.runs, activeRuns, data.lastRun)
  }

  function FromJobStatus(status: JobStatus): StatusData {
    StatusData(status.jobId, status.state, status.createdAt, status.updatedAt, status.runs, status.activeRuns,
               status.lastRun)
  }

  function LoadRecord(db: Db, id: string): Option<StatusRecord> {
    if id !in db.status then None
    else
      var row := db.status[id];
      var status := ToJobStatus(row.data, row.activeRuns);
      Some(StatusRecord(FromJobStatus(status), row.activeRuns, row.terminal == 1, row.lastSequence))
  }

  function RowOf(id: string, r: StatusRecord): StatusRow {
    StatusRow(r.status.(jobId := id, activeRuns := r.activeRuns), r.activeRuns, if r.terminal then 1 else 0,
              r.lastSequence)
  }

  function UpsertRecord(db: Db, id: string, r: StatusRecord): Db {
    db.(status := db.status[id := RowOf(id, r)])
  }

  function MergeHistoryLimit(historyLimit: int, maxRowsPerJob: int): int {
    if maxRowsPerJob <= 0 then historyLimit
    else if historyLimit <= 0 then maxRowsPerJob
    else Min(historyLimit, maxRowsPerJob)
  }

  function FinishedAtUnixNano(payload: Payload): int {
    match payload.finishedAt
    case Zero => 0
    case At(ns) => ns
  }

  /** Deletes the rows of `id` up to the sequence that the limit puts out of reach. */
  function TrimHistory(h: HistoryTable, id: string, sequence: int, limit: int): HistoryTable {
    var trimBefore := sequence - limit;
    if trimBefore <= 0 then h
    else map k | k in h && !(k.id == id && k.sequence <= trimBefore) :: h[k]
  }

  /** A row without a finish time never expires. */
  predicate Expired(finishedAtUnixNano: int, cutoff: int) {
    0 < finishedAtUnixNano < cutoff
  }

  function PruneJobOlderThan(h: HistoryTable, id: string, cutoff: int): HistoryTable {
    map k | k in h && !(k.id == id && Expired(h[k].finishedAtUnixNano, cutoff)) :: h[k]
  }

  function PruneOlderThan(h: HistoryTable, cutoff: int): HistoryTable {
    map k | k in h && !Expired(h[k].finishedAtUnixNano, cutoff) :: h[k]
  }

  /** The sequences stored for one job. */
  function RowsOf(h: HistoryTable, id: string): set<int> {
    set k | k in h && k.id == id :: k.sequence
  }

  /** A row's number within its job, counting from the highest sequence. */
  function RowNumber(h: HistoryTable, key: Key): nat {
    1 + |Above(RowsOf(h, key.id), key.sequence)|
  }

  function PruneMaxRows(h: HistoryTable, maxRows: int): HistoryTable {
    map k | k in h && !(RowNumber(h, k) > maxRows) :: h[k]
  }

  function ApplyExecutionResult(r: StatusRecord, payload: Payload, now: int): StatusRecord {
    var active := if r.activeRuns > 0 then r.activeRuns - 1 else r.activeRuns;
    var state := if r.terminal then r.status.state else if active > 0 then Running else Scheduled;
    r.(activeRuns := active,
       status := r.status.(runs := r.lastSequence, lastRun := Some(payload), activeRuns := active,
                           updatedAt := now, state := state))
  }

  /** The history table after a result with this sequence is inserted, trimmed and pruned by age. */
  function RecordTable(h: HistoryTable, id: string, sequence: int, payload: Payload, limit: int, maxAge: int, now: int):
    HistoryTable
  {
    var inserted := h[Key(id, sequence) := HistoryRow(payload, FinishedAtUnixNano(payload))];
    var trimmed := TrimHistory(inserted, id, sequence, limit);
    if maxAge > 0 then PruneJobOlderThan(trimmed, id, now - maxAge) else trimmed
  }

  /** The tables after a result is recorded, unless the history insert violates the primary key. */
  function RecordTx(db: Db, ret: Retention, id: string, payload: Payload, historyLimit: int, now: int): Option<Db> {
    match LoadRecord(db, id)
    case None => Some(db)
    case Some(r0) =>
      var limit := MergeHistoryLimit(EffectiveLimit(historyLimit), ret.maxRowsPerJob);
      var r := r0.(lastSequence := r0.lastSequence + 1);
      var key := Key(id, r.lastSequence);
      if key in db.history then None
      else
        var table := RecordTable(db.history, id, r.lastSequence, payload, limit, ret.maxAge, now);
        Some(UpsertRecord(db.(history := table), id, ApplyExecutionResult(r, payload, now)))
  }

  function CloseRecord(r: StatusRecord, state: JobState, now: int): StatusRecord {
    r.(terminal := true, status := r.status.(state := state, activeRuns := r.activeRuns, updatedAt := now))
  }

  /** How a status transaction changes the record it loads. */
  function TouchRecord(r: StatusRecord, op: Op): StatusRecord
    requires op.UpsertStatus? || op.MarkRemoved? || op.MarkTerminal? || op.MarkExecutionStart?
  {
    match op
    case UpsertStatus(_, state, now) => r.(status := r.status.(state := state, updatedAt := now))
    case MarkRemoved(_, now) => CloseRecord(r, Removed, now)
    case MarkTerminal(_, state, now) => CloseRecord(r, state, now)
    case MarkExecutionStart(_, now) =>
      var state := if r.terminal then r.status.state else Running;
      r.(activeRuns := r.activeRuns + 1,
         status := r.status.(activeRuns := r.activeRuns + 1, updatedAt := now, state := state))
  }

  function NewRecord(id: string, state: JobState, now: int): StatusRecord {
    StatusRecord(StatusData(id, state, now, now, 0, 0, None), 0, false, 0)
  }

  /** The tables after `op`; a rejected or rolled-back operation changes nothing. */
  function ApplyDb(db: Db, ret: Retention, op: Op): Db {
    match op
    case Save(job) =>
      if job.id in db.jobs then db else db.(jobs := db.jobs[job.id := job.id])
    case Delete(id) =>
      db.(jobs := db.jobs - {id})
    case RecordExecutionResult(id, payload, limit, now) =>
      (match RecordTx(db, ret, id, payload, limit, now)
       case None => db
       case Some(db') => db')
    case _ =>
      match LoadRecord(db, op.id)
      case None => if op.UpsertStatus? then UpsertRecord(db, op.id, NewRecord(op.id, op.state, op.now)) else db
      case Some(r) => if op.MarkTerminal? && r.terminal then db else UpsertRecord(db, op.id, TouchRecord(r, op))
  }

  predicate AcceptsDb(db: Db, ret: Retention, op: Op) {
    match op
    case Save(job) => job.id !in db.jobs
    case Delete(id) => id in db.jobs
    case RecordExecutionResult(id, payload, limit, now) => RecordTx(db, ret, id, payload, limit, now).Some?
    case _ => true
  }

  function RunDb(db: Db, ret: Retention, ops: seq<Op>): Db {
    if ops == [] then db else ApplyDb(RunDb(db, ret, ops[..|ops| - 1]), ret, ops[|ops| - 1])
  }

  function ReadStatusDb(db: Db, id: string): Option<JobStatus> {
    match LoadRecord(db, id)
    case None => None
    case Some(r) => Some(ToJobStatus(r.status, r.activeRuns))
  }

  /** The rows of one job in ascending sequence order. */
  ghost function RunsOf(h: HistoryTable, id: string): (r: seq<JobRun>)
    ensures |r| == |Ascending(RowsOf(h, id))|
    ensures forall i :: 0 <= i < |r| ==>
      r[i].sequence == Ascending(RowsOf(h, id))[i] && Key(id, r[i].sequence) in h &&
      r[i].payload == h[Key(id, r[i].sequence)].payload
  {
    var order := Ascending(RowsOf(h, id));
    assert forall i :: 0 <= i < |order| ==> order[i] in RowsOf(h, id);
    seq(|order|, i requires 0 <= i < |order| => JobRun(order[i], h[Key(id, order[i])].payload))
  }

  ghost function ReadHistoryDb(db: Db, id: string): Option<seq<JobRun>> {
    if RowsOf(db.history, id) == {} then (if id in db.status then Some([]) else None)
    else Some(RunsOf(db.history, id))
  }

  /** An ascending walk over all rows of a job lists its runs. */
  lemma CursorListsRuns(h: HistoryTable, id: string, runs: seq<JobRun>, order: seq<int>)
    requires StrictlyAscending(order) && forall x :: x in RowsOf(h, id) <==> x in order
    requires |runs| == |order|
    requires forall i :: 0 <= i < |runs| ==>
      runs[i].sequence == order[i] && Key(id, order[i]) in h && runs[i].payload == h[Key(id, order[i])].payload
    ensures runs == RunsOf(h, id)
    ensures |runs| == 0 <==> RowsOf(h, id) == {}
  {
    AscendingUnique(order, Ascending(RowsOf(h, id)));
    if |runs| > 0 {
      assert order[0] in RowsOf(h, id);
    } else {
      EmptyOrInhabited(RowsOf(h, id));
    }
  }

  /** The storage object. Each method commits its new tables at the end, or leaves them as they were. */
  class SQLiteJobsStorage {
    var jobs: map<string, string>
    var status: map<string, StatusRow>
    var history: HistoryTable
    const retention: Retention

    ghost function View(): Db
      reads this
    {
      Db(jobs, status, history)
    }

    constructor (retention: Retention)
      ensures View() == EMPTY_DB && this.retention == retention
    {
      this.retention := retention;
      jobs, status, history := map[], map[], map[];
    }

    method Save(job: Job) returns (ok: bool)
      modifies this
      ensures ok == AcceptsDb(old(View()), retention, Op.Save(job))
      ensures View() == ApplyDb(old(View()), retention, Op.Save(job))
    {
      if job.id in jobs {
        return false;
      }
      jobs := jobs[job.id := job.id];
      ok := true;
    }

    method Delete(id: string) returns (ok: bool)
      modifies this
      ensures ok == AcceptsDb(old(View()), retention, Op.Delete(id))
      ensures View() == ApplyDb(old(View()), retention, Op.Delete(id))
    {
      ok := id in jobs;
      jobs := jobs - {id};
    }

    method UpsertStatus(id: string, state: JobState, now: int)
      modifies this
      ensures View() == ApplyDb(old(View()), retention, Op.UpsertStatus(id, state, now))
    {
      var loaded := LoadRecord(Db(jobs, status, history), id);
      var record := if loaded.Some? then loaded.value
                    else StatusRecord(StatusData(id, Scheduled, now, 0, 0, 0, None), 0, false, 0);
      record := record.(status := record.status.(state := state));
      record := record.(status := record.status.(updatedAt := now));
      status := status[id := RowOf(id, record)];
    }

    method MarkRemoved(id: string, now: int)
      modifies this
      ensures View() == ApplyDb(old(View()), retention, Op.MarkRemoved(id, now))
    {
      var loaded := LoadRecord(Db(jobs, status, history), id);
      if loaded == None {
        return;
      }
      var record := loaded.value;
      record := record.(terminal := true);
      record := record.(status := record.status.(state := Removed, activeRuns := record.activeRuns));
      record := record.(status := record.status.(updatedAt := now));
      status := status[id := RowOf(id, record)];
    }

    method MarkExecutionStart(id: string, now: int)
      modifies this
      ensures View() == ApplyDb(old(View()), retention, Op.MarkExecutionStart(id, now))
    {
      var loaded := LoadRecord(Db(jobs, status, history), id);
      if loaded == None {
        return;
      }
      var record := loaded.value;
      record := record.(activeRuns := record.activeRuns + 1);
      record := record.(status := record.status.(activeRuns := record.activeRuns, updatedAt := now));
      if !record.terminal {
        record := record.(status := record.status.(state := Running));
      }
      status := status[id := RowOf(id, record)];
    }

    method MarkTerminal(id: string, state: JobState, now: int)
      modifies this
      ensures View() == ApplyDb(old(View()), retention, Op.MarkTerminal(id, state, now))
    {
      var loaded := LoadRecord(Db(jobs, status, history), id);
      if loaded == None || loaded.value.terminal {
        return;
      }
      var record := loaded.value;
      record := record.(terminal := true);
      record := record.(status := record.status.(state := state, activeRuns := record.activeRuns));
      record := record.(status := record.status.(updatedAt := now));
      status := status[id := RowOf(id, record)];
    }

    /** Inserts, trims by sequence, prunes by age and updates the counters, all or nothing. */
    method RecordExecutionResult(id: string, payload: Payload, historyLimit: int, now: int) returns (ok: bool)
      modifies this
      ensures ok == AcceptsDb(old(View()), retention, Op.RecordExecutionResult(id, payload, historyLimit, now))
      ensures View() == ApplyDb(old(View()), retention, Op.RecordExecutionResult(id, payload, historyLimit, now))
    {
      var loaded := LoadRecord(Db(jobs, status, history), id);
      if loaded == None {
        return true;
      }
      var record := loaded.value;
      var limit := historyLimit;
      if limit <= 0 {
        limit := DEFAULT_HISTORY_LIMIT;
      }
      var effective := MergeHistoryLimit(limit, retention.maxRowsPerJob);
      record := record.(lastSequence := record.lastSequence + 1);
      if Key(id, record.lastSequence) in history {
        return false;
      }
      var table := InsertTrimPrune(history, id, record.lastSequence, payload, effective, now);
      record := ApplyExecutionResult(record, payload, now);
      history := table;
      status := status[id := RowOf(id, record)];
      ok := true;
    }

    /** The history statements of the transaction, in order. */
    method InsertTrimPrune(h: HistoryTable, id: string, sequence: int, payload: Payload, limit: int, now: int)
      returns (table: HistoryTable)
      ensures table == RecordTable(h, id, sequence, payload, limit, retention.maxAge, now)
    {
      table := h[Key(id, sequence) := HistoryRow(payload, FinishedAtUnixNano(payload))];
      table := TrimHistory(table, id, sequence, limit);
      if retention.maxAge > 0 {
        table := PruneJobOlderThan(table, id, now - retention.maxAge);
      }
    }

    method Status(id: string) returns (r: Option<JobStatus>)
      ensures r == ReadStatusDb(View(), id)
    {
      var loaded := LoadRecord(Db(jobs, status, history), id);
      if loaded == None {
        return None;
      }
      r := Some(ToJobStatus(loaded.value.status, loaded.value.activeRuns));
    }

    /** Reads the rows of one job with a cursor that yields ascending sequences. */
    method History(id: string) returns (r: Option<seq<JobRun>>)
      ensures r == ReadHistoryDb(View(), id)
    {
      var rows := RowsOf(history, id);
      var remaining := rows;
      var runs: seq<JobRun> := [];
      ghost var order: seq<int> := [];
      while remaining != {}
        invariant remaining <= rows
        invariant StrictlyAscending(order)
        invariant forall x :: x in rows <==> x in remaining || x in order
        invariant forall x, y :: x in order && y in remaining ==> x < y
        invariant |runs| == |order|
        invariant forall i :: 0 <= i < |runs| ==>
          runs[i].sequence == order[i] && Key(id, order[i]) in history && runs[i].payload == history[Key(id, order[i])].payload
        decreases |remaining|
      {
        assert exists m :: IsMin(m, remaining) by { var m := MinExists(remaining); }
        var sequence :| IsMin(sequence, remaining);
        assert forall i :: 0 <= i < |order| ==> order[i] in order;
        runs := runs + [JobRun(sequence, history[Key(id, sequence)].payload)];
        order := order + [sequence];
        remaining := remaining - {sequence};
      }
      CursorListsRuns(history, id, runs, order);
      if |runs| == 0 {
        return if id in status then Some([]) else None;
      }
      r := Some(runs);
    }

    /** Applies one-off retention rules and counts the deleted rows. */
    method PruneHistoryWithRetention(ret: Retention, now: int) returns (deleted: nat)
      modifies this
      ensures jobs == old(jobs) && status == old(status)
      ensures history == Prune(old(history), ret, now)
      ensures deleted == |old(history)| - |history|
    {
      if ret.maxAge <= 0 && ret.maxRowsPerJob <= 0 {
        return 0;
      }
      history, deleted := DeletePruned(history, ret, now);
    }
  }

  /** The rows that the age rule spares; all of them when the rule is off. */
  function AgeSurvivors(h: HistoryTable, ret: Retention, now: int): HistoryTable {
    if ret.maxAge > 0 then PruneOlderThan(h, now - ret.maxAge) else h
  }

  /** Age first, then rank. */
  function Prune(h: HistoryTable, ret: Retention, now: int): HistoryTable {
    var young := AgeSurvivors(h, ret, now);
    if ret.maxRowsPerJob > 0 then PruneMaxRows(young, ret.maxRowsPerJob) else young
  }

  /** The transaction of a prune: both deletions, with their row counts added up. */
  method DeletePruned(h: HistoryTable, ret: Retention, now: int) returns (kept: HistoryTable, affected: nat)
    ensures kept == Prune(h, ret, now) && affected == |h| - |kept|
  {
    var young, byAge := DeleteByAge(h, ret, now);
    kept, affected := young, byAge;
    if ret.maxRowsPerJob > 0 {
      var byRank;
      kept, byRank := DeleteBeyondRank(young, ret.maxRowsPerJob);
      affected := byAge + byRank;
    }
  }

  method DeleteByAge(h: HistoryTable, ret: Retention, now: int) returns (kept: HistoryTable, affected: nat)
    ensures kept == AgeSurvivors(h, ret, now) && affected == |h| - |kept|
  {
    kept, affected := h, 0;
    if ret.maxAge > 0 {
      kept, affected := DeleteOlderThan(h, now - ret.maxAge);
    }
  }

  method DeleteOlderThan(h: HistoryTable, cutoff: int) returns (kept: HistoryTable, affected: nat)
    ensures kept == PruneOlderThan(h, cutoff) && affected == |h| - |kept|
  {
    kept := PruneOlderThan(h, cutoff);
    affected := RowsAffected(h, kept);
  }

  method DeleteBeyondRank(h: HistoryTable, maxRows: nat) returns (kept: HistoryTable, affected: nat)
    ensures kept == PruneMaxRows(h, maxRows) && affected == |h| - |kept|
  {
    kept := PruneMaxRows(h, maxRows);
    affected := RowsAffected(h, kept);
  }

  /** How many rows a DELETE that leaves `kept` of `h` touched. */
  method RowsAffected(h: HistoryTable, kept: HistoryTable) returns (n: nat)
    requires kept.Keys <= h.Keys
    ensures n == |h| - |kept|
  {
    n := |h.Keys - kept.Keys|;
    assert h.Keys == kept.Keys + (h.Keys - kept.Keys);
  }
}
