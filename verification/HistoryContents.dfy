/**
 What the histories hold, in terms of the writes alone: the results recorded for a known job, numbered from one, cut to the
 limits, and without the results that the age rule has expired.
 */
module HistoryContents {
  import opened JobTypes
  import opened OrderedRows
  import opened MemoryStorage
  import opened SqliteStorage
  import opened StorageRefinement
  import opened HistoryPruning

  /** A registration has written the status of `id`. */
  predicate Known(ops: seq<Op>, id: string) {
    exists i :: 0 <= i < |ops| && ops[i].UpsertStatus? && ops[i].id == id
  }

  /** The results recorded for `id` since it is known, in order. */
  function Results(ops: seq<Op>, id: string): seq<Payload> {
    if ops == [] then []
    else
      var before, op := ops[..|ops| - 1], ops[|ops| - 1];
      if op.RecordExecutionResult? && op.id == id && Known(before, id) then Results(before, id) + [op.payload]
      else Results(before, id)
  }

  /** The limit a caller asks for, or 20 when it asks for none. */
  function Asked(historyLimit: int): (r: nat)
    ensures r > 0
  {
    if historyLimit > 0 then historyLimit else 20
  }

  /** The rows of the last `n` results, or of all when there are fewer, with their numbers. */
  ghost predicate IsTail(results: seq<Payload>, n: int, rows: seq<JobRun>) {
    && |rows| == Min(|results|, n)
    && forall i :: 0 <= i < |rows| ==>
         var q := |results| - |rows| + 1 + i;
         rows[i].sequence == q && rows[i].payload == results[q - 1]
  }

  // ---- In memory ----

  lemma {:induction false} KnownIff(ops: seq<Op>, id: string)
    ensures id in Run(EMPTY, ops).status <==> Known(ops, id)
  {
    if ops != [] {
      var n := |ops| - 1;
      KnownIff(ops[..n], id);
      KnownOneMore(ops, id);
    }
  }

  lemma KnownOneMore(ops: seq<Op>, id: string)
    requires ops != []
    ensures var n := |ops| - 1; Known(ops, id) <==> Known(ops[..n], id) || (ops[n].UpsertStatus? && ops[n].id == id)
  {
    var n := |ops| - 1;
    if Known(ops[..n], id) {
      var i :| 0 <= i < n && ops[..n][i].UpsertStatus? && ops[..n][i].id == id;
      assert ops[i].UpsertStatus? && ops[i].id == id;
    }
    if Known(ops, id) && !(ops[n].UpsertStatus? && ops[n].id == id) {
      var i :| 0 <= i < |ops| && ops[i].UpsertStatus? && ops[i].id == id;
      assert ops[..n][i] == ops[i];
    }
  }

  lemma {:induction false} UnknownHasNoResults(ops: seq<Op>, id: string)
    requires !Known(ops, id)
    ensures Results(ops, id) == []
  {
    if ops != [] {
      KnownOneMore(ops, id);
      UnknownHasNoResults(ops[..|ops| - 1], id);
    }
  }

  /** The entry counts the results, and its history is the tail of them that it has room for. */
  ghost predicate EntryHolds(e: StatusEntry, results: seq<Payload>) {
    e.lastSequence == |results| && IsTail(results, |e.history|, e.history)
  }

  lemma RecordHolds(e: StatusEntry, results: seq<Payload>, payload: Payload, limit: nat, now: int)
    requires EntryHolds(e, results) && limit > 0
    ensures EntryHolds(Record(e, payload, limit, now), results + [payload])
    ensures |Record(e, payload, limit, now).history| == Min(|e.history| + 1, limit)
  {
  }

  lemma OtherHolds(s: Store, op: Op, id: string)
    requires id in Apply(s, op).status && !(op.RecordExecutionResult? && op.id == id)
    ensures var e := Apply(s, op).status[id];
            if id in s.status then e.history == s.status[id].history && e.lastSequence == s.status[id].lastSequence
            else e.history == [] && e.lastSequence == 0
  {
  }

  /** After any writes a history is the tail of the results recorded for its job, numbered. */
  lemma {:induction false} MemoryHistoryHolds(ops: seq<Op>, id: string)
    requires id in Run(EMPTY, ops).status
    ensures EntryHolds(Run(EMPTY, ops).status[id], Results(ops, id))
  {
    var n := |ops| - 1;
    var before, op := ops[..n], ops[n];
    var s := Run(EMPTY, before);
    KnownIff(before, id);
    if id !in s.status {
      UnknownHasNoResults(before, id);
    } else {
      MemoryHistoryHolds(before, id);
    }
    if op.RecordExecutionResult? && op.id == id {
      RecordHolds(s.status[id], Results(before, id), op.payload, EffectiveLimit(op.historyLimit), op.now);
    } else {
      OtherHolds(s, op, id);
    }
  }

  /** All results of `id` are recorded with this limit. */
  ghost predicate CommonLimit(ops: seq<Op>, id: string, limit: int) {
    forall i :: 0 <= i < |ops| && ops[i].RecordExecutionResult? && ops[i].id == id ==> ops[i].historyLimit == limit
  }

  lemma CommonBefore(ops: seq<Op>, id: string, limit: int)
    requires ops != [] && CommonLimit(ops, id, limit)
    ensures CommonLimit(ops[..|ops| - 1], id, limit)
  {
    var before := ops[..|ops| - 1];
    forall i | 0 <= i < |before| && before[i].RecordExecutionResult? && before[i].id == id
      ensures before[i].historyLimit == limit
    {
      assert before[i] == ops[i];
    }
  }

  lemma {:induction false} MemoryHistorySize(ops: seq<Op>, id: string, limit: int)
    requires id in Run(EMPTY, ops).status && CommonLimit(ops, id, limit)
    ensures |Run(EMPTY, ops).status[id].history| == Min(|Results(ops, id)|, Asked(limit))
  {
    var n := |ops| - 1;
    var before, op := ops[..n], ops[n];
    var s := Run(EMPTY, before);
    KnownIff(before, id);
    CommonBefore(ops, id, limit);
    if id !in s.status {
      UnknownHasNoResults(before, id);
    } else {
      MemoryHistorySize(before, id, limit);
      MemoryHistoryHolds(before, id);
    }
    if op.RecordExecutionResult? && op.id == id {
      RecordHolds(s.status[id], Results(before, id), op.payload, EffectiveLimit(op.historyLimit), op.now);
    } else {
      OtherHolds(s, op, id);
    }
  }

  /**
   In memory, with one limit for all results of a job: its run count is the number of its results, and its history is
   exactly the last of them, as many as the limit allows, or 20 without one.
   */
  lemma MemoryHistoryIs(ops: seq<Op>, id: string, limit: int)
    requires Known(ops, id) && CommonLimit(ops, id, limit)
    ensures id in Run(EMPTY, ops).status
    ensures Run(EMPTY, ops).status[id].status.runs == |Results(ops, id)|
    ensures IsTail(Results(ops, id), Asked(limit), Run(EMPTY, ops).status[id].history)
  {
    KnownIff(ops, id);
    RunKeepsStoreOk(ops);
    assert EntryOk(id, Run(EMPTY, ops).status[id]);
    MemoryHistoryHolds(ops, id);
    MemoryHistorySize(ops, id, limit);
  }

  // ---- SQLite ----

  /** Capping limits changes neither what is known nor what is recorded. */
  lemma {:induction false} CapKeepsResults(ops: seq<Op>, maxRows: int, id: string)
    ensures Known(CapAll(ops, maxRows), id) <==> Known(ops, id)
    ensures Results(CapAll(ops, maxRows), id) == Results(ops, id)
  {
    KnownThroughCap(ops, maxRows, id);
    if ops != [] {
      var n := |ops| - 1;
      assert CapAll(ops, maxRows)[..n] == CapAll(ops[..n], maxRows);
      CapKeepsResults(ops[..n], maxRows, id);
    }
  }

  lemma KnownThroughCap(ops: seq<Op>, maxRows: int, id: string)
    ensures Known(CapAll(ops, maxRows), id) <==> Known(ops, id)
  {
    var capped := CapAll(ops, maxRows);
    if Known(ops, id) {
      var i :| 0 <= i < |ops| && ops[i].UpsertStatus? && ops[i].id == id;
      assert capped[i] == ops[i];
    }
    if Known(capped, id) {
      var i :| 0 <= i < |capped| && capped[i].UpsertStatus? && capped[i].id == id;
      assert capped[i] == Cap(ops[i], maxRows);
    }
  }

  /** How many rows both the asked limit and the row cap allow. */
  function Allowed(historyLimit: int, maxRows: int): (r: nat)
    ensures r > 0
  {
    if 0 < maxRows < Asked(historyLimit) then maxRows else Asked(historyLimit)
  }

  lemma CapIsCommon(ops: seq<Op>, ret: Retention, id: string, limit: int)
    requires CommonLimit(ops, id, limit)
    ensures CommonLimit(CapAll(ops, ret.maxRowsPerJob), id, Allowed(limit, ret.maxRowsPerJob))
  {
    var capped := CapAll(ops, ret.maxRowsPerJob);
    forall i | 0 <= i < |capped| && capped[i].RecordExecutionResult? && capped[i].id == id
      ensures capped[i].historyLimit == Allowed(limit, ret.maxRowsPerJob)
    {
      assert capped[i] == Cap(ops[i], ret.maxRowsPerJob);
      assert ops[i].historyLimit == limit;
    }
  }

  lemma CappedHistoryIs(ret: Retention, ops: seq<Op>, id: string, limit: int)
    requires Known(ops, id) && CommonLimit(ops, id, limit)
    ensures var memory := Run(EMPTY, CapAll(ops, ret.maxRowsPerJob));
            && id in memory.status && memory.status[id].status.runs == |Results(ops, id)|
            && IsTail(Results(ops, id), Allowed(limit, ret.maxRowsPerJob), memory.status[id].history)
  {
    CapKeepsResults(ops, ret.maxRowsPerJob, id);
    CapIsCommon(ops, ret, id, limit);
    MemoryHistoryIs(CapAll(ops, ret.maxRowsPerJob), id, Allowed(limit, ret.maxRowsPerJob));
  }

  /**
   SQLite without an age rule: the history of a job is exactly the last of its results, as many as the asked limit and the
   row cap both allow.
   */
  lemma SqliteHistoryIs(ret: Retention, ops: seq<Op>, id: string, limit: int, next: Op)
    requires ret.maxAge <= 0 && Known(ops, id) && CommonLimit(ops, id, limit)
    ensures var read := ReadHistoryDb(RunDb(EMPTY_DB, ret, ops), id);
            read.Some? && IsTail(Results(ops, id), Allowed(limit, ret.maxRowsPerJob), read.value)
    ensures var read := ReadStatusDb(RunDb(EMPTY_DB, ret, ops), id);
            read.Some? && read.value.runs == |Results(ops, id)|
  {
    CappedHistoryIs(ret, ops, id, limit);
    SqliteRefinesMemory(ret, ops, id, next);
  }

  /** The payload has a finish time, positive and before the cutoff. */
  predicate FinishedBefore(payload: Payload, cutoff: int) {
    payload.finishedAt.At? && 0 < payload.finishedAt.unixNano < cutoff
  }

  /**
   SQLite with an age rule and a clock that does not go back within a job: the history is, in order, those of the last
   results that the limits allow whose finish time is missing, not positive, or not before the cutoff of the job's last
   recorded result.
   */
  lemma SqliteHistoryWithAgeIs(ret: Retention, ops: seq<Op>, id: string, limit: int)
    requires ret.maxAge > 0 && ClockAdvances(ops) && Known(ops, id) && CommonLimit(ops, id, limit)
    ensures var read := ReadHistoryDb(RunDb(EMPTY_DB, ret, ops), id);
            read.Some? && IsUnexpiredTail(Results(ops, id), Allowed(limit, ret.maxRowsPerJob), CutoffOf(ret, ops, id), read.value)
  {
    var retained := CappedTail(ret, ops, id, limit);
    UnexpiredTail(Results(ops, id), Allowed(limit, ret.maxRowsPerJob), retained, CutoffOf(ret, ops, id));
  }

  /** The row-limited in-memory history that the SQLite history is read off. */
  lemma CappedTail(ret: Retention, ops: seq<Op>, id: string, limit: int) returns (retained: seq<JobRun>)
    requires ret.maxAge > 0 && ClockAdvances(ops) && Known(ops, id) && CommonLimit(ops, id, limit)
    ensures IsTail(Results(ops, id), Allowed(limit, ret.maxRowsPerJob), retained)
    ensures ReadHistoryDb(RunDb(EMPTY_DB, ret, ops), id) == Some(Unexpired(retained, CutoffOf(ret, ops, id)))
  {
    retained := CappedHistory(ret, ops, id, limit);
    AgeRead(ret, ops, id, retained);
  }

  ghost predicate IsCappedHistory(ret: Retention, ops: seq<Op>, id: string, retained: seq<JobRun>) {
    ReadHistory(Run(EMPTY, CapAll(ops, ret.maxRowsPerJob)), id) == Some(retained)
  }

  lemma CappedHistory(ret: Retention, ops: seq<Op>, id: string, limit: int) returns (retained: seq<JobRun>)
    requires Known(ops, id) && CommonLimit(ops, id, limit)
    ensures IsTail(Results(ops, id), Allowed(limit, ret.maxRowsPerJob), retained)
    ensures IsCappedHistory(ret, ops, id, retained)
  {
    CappedHistoryIs(ret, ops, id, limit);
    retained := Run(EMPTY, CapAll(ops, ret.maxRowsPerJob)).status[id].history;
  }

  lemma AgeRead(ret: Retention, ops: seq<Op>, id: string, retained: seq<JobRun>)
    requires ret.maxAge > 0 && ClockAdvances(ops) && IsCappedHistory(ret, ops, id, retained)
    ensures ReadHistoryDb(RunDb(EMPTY_DB, ret, ops), id) == Some(Unexpired(retained, CutoffOf(ret, ops, id)))
  {
    HistoryAfterRun(ret, ops, id);
    HorizonIsLastCutoff(ret, ops, id);
  }

  /** The age cutoff that the last recorded result of a job sets. */
  function CutoffOf(ret: Retention, ops: seq<Op>, id: string): Option<int> {
    match LastRecord(ops, id) case None => None case Some(last) => Some(last.now - ret.maxAge)
  }

  /** `r` is one of the last `n` results, with its number. */
  ghost predicate InTail(results: seq<Payload>, n: int, r: JobRun) {
    && |results| - n < r.sequence <= |results|
    && 0 < r.sequence && r.payload == results[r.sequence - 1]
  }

  /** In order, the last `n` results less those that finished before the cutoff. */
  ghost predicate IsUnexpiredTail(results: seq<Payload>, n: int, cutoff: Option<int>, rows: seq<JobRun>) {
    && Ordered(rows)
    && forall r :: r in rows <==>
         InTail(results, n, r) && !(cutoff.Some? && FinishedBefore(r.payload, cutoff.value))
  }

  lemma UnexpiredTail(results: seq<Payload>, n: nat, rows: seq<JobRun>, cutoff: Option<int>)
    requires IsTail(results, n, rows)
    ensures IsUnexpiredTail(results, n, cutoff, Unexpired(rows, cutoff))
  {
    UnexpiredMembers(rows, cutoff);
    UnexpiredOrdered(rows, cutoff);
    forall r
      ensures r in rows <==> InTail(results, n, r)
    {
      TailMember(results, n, rows, r);
    }
  }

  lemma TailMember(results: seq<Payload>, n: nat, rows: seq<JobRun>, r: JobRun)
    requires IsTail(results, n, rows)
    ensures r in rows <==> InTail(results, n, r)
  {
    if InTail(results, n, r) {
      var i := r.sequence - (|results| - |rows| + 1);
      assert rows[i] == r;
    }
  }

  // ---- Whatever the limits, the clock and the prunes ----

  /** The last result recorded for `id`, as a command. */
  function LastRecorded(cs: seq<Command>, id: string): (r: Option<Op>)
    ensures r.Some? ==> r.value.RecordExecutionResult?
  {
    if cs == [] then None
    else
      var c := cs[|cs| - 1];
      if c.Write? && c.op.RecordExecutionResult? && c.op.id == id then Some(c.op) else LastRecorded(cs[..|cs| - 1], id)
  }

  /** The rows of `id` are numbered, and among its last `bound` sequences. */
  ghost predicate RowsWithin(db: Db, id: string, bound: int) {
    forall q :: Key(id, q) in db.history ==>
      id in db.status && db.status[id].lastSequence - bound < q <= db.status[id].lastSequence
  }

  /** Sequences count from one. */
  ghost predicate CountedFromOne(db: Db) {
    && (forall k :: k in db.history ==> 0 < k.sequence)
    && (forall id :: id in db.status ==> 0 <= db.status[id].lastSequence)
  }

  lemma WriteCountsFromOne(db: Db, ret: Retention, op: Op)
    requires RowsNumbered(db) && CountedFromOne(db)
    ensures CountedFromOne(ApplyDb(db, ret, op))
  {
    if op.RecordExecutionResult? {
      if op.id in db.status {
        var sequence := db.status[op.id].lastSequence + 1;
        assert Key(op.id, sequence) !in db.history;
        forall k | k in ApplyDb(db, ret, op).history
          ensures 0 < k.sequence
        {
          RecordTableAt(db.history, op.id, sequence, op.payload, LimitOf(op, ret), ret.maxAge, op.now, k);
        }
      }
    } else {
      forall id | id in ApplyDb(db, ret, op).status
        ensures 0 <= ApplyDb(db, ret, op).status[id].lastSequence
      {
        WriteKeepsSequence(db, ret, op, id);
      }
    }
  }

  lemma OwnRecordWithin(db: Db, ret: Retention, op: Op)
    requires RowsNumbered(db) && CountedFromOne(db) && op.RecordExecutionResult? && op.id in db.status
    ensures RowsWithin(ApplyDb(db, ret, op), op.id, Allowed(op.historyLimit, ret.maxRowsPerJob))
  {
    var sequence := db.status[op.id].lastSequence + 1;
    assert Key(op.id, sequence) !in db.history;
    forall q | Key(op.id, q) in ApplyDb(db, ret, op).history
      ensures sequence - Allowed(op.historyLimit, ret.maxRowsPerJob) < q <= sequence
    {
      RecordTableAt(db.history, op.id, sequence, op.payload, LimitOf(op, ret), ret.maxAge, op.now, Key(op.id, q));
    }
  }

  /** Another job's record leaves the rows and the count of this one alone. */
  lemma OtherRecordAt(db: Db, ret: Retention, op: Op, id: string, q: int)
    requires RowsNumbered(db) && op.RecordExecutionResult? && op.id in db.status && op.id != id
    ensures Key(id, q) in ApplyDb(db, ret, op).history <==> Key(id, q) in db.history
    ensures id in db.status ==> ApplyDb(db, ret, op).status[id] == db.status[id]
  {
    var sequence := db.status[op.id].lastSequence + 1;
    assert Key(op.id, sequence) !in db.history;
    RecordTableAt(db.history, op.id, sequence, op.payload, LimitOf(op, ret), ret.maxAge, op.now, Key(id, q));
  }

  lemma OtherWriteWithin(db: Db, ret: Retention, op: Op, id: string, bound: int)
    requires RowsNumbered(db) && RowsWithin(db, id, bound)
    requires !(op.RecordExecutionResult? && op.id == id && id in db.status)
    ensures RowsWithin(ApplyDb(db, ret, op), id, bound)
  {
    var db' := ApplyDb(db, ret, op);
    if op.RecordExecutionResult? && op.id in db.status {
      forall q | Key(id, q) in db'.history
        ensures id in db'.status && db'.status[id].lastSequence - bound < q <= db'.status[id].lastSequence
      {
        OtherRecordAt(db, ret, op, id, q);
      }
    } else if !op.RecordExecutionResult? {
      WriteKeepsSequence(db, ret, op, id);
    }
  }

  lemma WriteKeepsSequence(db: Db, ret: Retention, op: Op, id: string)
    requires !op.RecordExecutionResult?
    ensures ApplyDb(db, ret, op).history == db.history
    ensures id in db.status ==>
      id in ApplyDb(db, ret, op).status && ApplyDb(db, ret, op).status[id].lastSequence == db.status[id].lastSequence
  {
  }

  /** A record of an unknown job leaves it without rows, which are then within any bound. */
  lemma UnknownWithin(db: Db, id: string, bound: int)
    requires RowsNumbered(db) && id !in db.status
    ensures RowsWithin(db, id, bound)
  {
  }

  /** The bound of a job is what its last record allows, and no row at all before. */
  function BoundOf(ret: Retention, cs: seq<Command>, id: string): nat {
    match LastRecorded(cs, id) case None => 0 case Some(op) => Allowed(op.historyLimit, ret.maxRowsPerJob)
  }

  lemma {:induction false} AlwaysCountsFromOne(ret: Retention, cs: seq<Command>)
    ensures CountedFromOne(ExecuteAll(EMPTY_DB, ret, cs))
  {
    if cs != [] {
      var before := cs[..|cs| - 1];
      AlwaysCountsFromOne(ret, before);
      AllKeepNumbering(ret, before);
      match cs[|cs| - 1]
      case Write(op) => WriteCountsFromOne(ExecuteAll(EMPTY_DB, ret, before), ret, op);
      case PruneNow(once, now) => PruneKeepsHighestSurvivors(ExecuteAll(EMPTY_DB, ret, before).history, once, now, "");
    }
  }

  lemma {:induction false} AlwaysWithin(ret: Retention, cs: seq<Command>, id: string)
    ensures RowsWithin(ExecuteAll(EMPTY_DB, ret, cs), id, BoundOf(ret, cs, id))
  {
    if cs != [] {
      var before := cs[..|cs| - 1];
      var db := ExecuteAll(EMPTY_DB, ret, before);
      AlwaysWithin(ret, before, id);
      AllKeepNumbering(ret, before);
      AlwaysCountsFromOne(ret, before);
      match cs[|cs| - 1]
      case Write(op) =>
        if op.RecordExecutionResult? && op.id == id && id in db.status {
          OwnRecordWithin(db, ret, op);
        } else if op.RecordExecutionResult? && op.id == id {
          UnknownWithin(db, id, BoundOf(ret, cs, id));
        } else {
          OtherWriteWithin(db, ret, op, id, BoundOf(ret, before, id));
        }
      case PruneNow(once, now) =>
        PruneKeepsHighestSurvivors(db.history, once, now, id);
    }
  }

  /** So many whole numbers fit into a range. */
  lemma {:induction false} RangeSize(s: set<int>, low: int, size: nat)
    requires forall x :: x in s ==> low < x <= low + size
    ensures |s| <= size
    decreases size
  {
    if size == 0 {
      if s != {} {
        var x := SomeElement(s);
      }
    } else {
      var rest := s - {low + size};
      RangeSize(rest, low, size - 1);
      assert s <= rest + {low + size};
      SubsetSize(s, rest + {low + size});
    }
  }

  /**
   After any writes and prunes, whatever the clocks do, a job has at most as many rows as the limit asked for with its last
   result, or 20 without one, and, with a row cap, at most as many as the cap.
   */
  lemma RowsNeverExceed(ret: Retention, cs: seq<Command>, id: string)
    ensures var rows := |RowsOf(ExecuteAll(EMPTY_DB, ret, cs).history, id)|;
            && (ret.maxRowsPerJob > 0 ==> rows <= ret.maxRowsPerJob)
            && match LastRecorded(cs, id)
               case None => rows == 0
               case Some(op) => rows <= if op.historyLimit > 0 then op.historyLimit else 20
  {
    var db := ExecuteAll(EMPTY_DB, ret, cs);
    AlwaysWithin(ret, cs, id);
    forall q | q in RowsOf(db.history, id)
      ensures Key(id, q) in db.history
    {
    }
    if id in db.status {
      RangeSize(RowsOf(db.history, id), db.status[id].lastSequence - BoundOf(ret, cs, id), BoundOf(ret, cs, id));
    } else {
      RangeSize(RowsOf(db.history, id), 0, 0);
    }
  }

  // ---- Pruning by payload ----

  /** The column that the age rule reads is the payload's finish time, or zero without one. */
  ghost predicate ColumnsOk(h: HistoryTable) {
    forall k :: k in h ==>
      h[k].finishedAtUnixNano == if h[k].payload.finishedAt.At? then h[k].payload.finishedAt.unixNano else 0
  }

  lemma WriteKeepsColumns(db: Db, ret: Retention, op: Op)
    requires RowsNumbered(db) && ColumnsOk(db.history)
    ensures ColumnsOk(ApplyDb(db, ret, op).history)
  {
    if op.RecordExecutionResult? {
      if op.id in db.status {
        var sequence := db.status[op.id].lastSequence + 1;
        assert Key(op.id, sequence) !in db.history;
        forall k | k in ApplyDb(db, ret, op).history
          ensures var row := ApplyDb(db, ret, op).history[k];
            row.finishedAtUnixNano == if row.payload.finishedAt.At? then row.payload.finishedAt.unixNano else 0
        {
          RecordTableAt(db.history, op.id, sequence, op.payload, LimitOf(op, ret), ret.maxAge, op.now, k);
        }
      }
    } else {
      WriteKeepsSequence(db, ret, op, "");
    }
  }

  lemma {:induction false} AlwaysColumns(ret: Retention, cs: seq<Command>)
    ensures ColumnsOk(ExecuteAll(EMPTY_DB, ret, cs).history)
  {
    if cs != [] {
      var before := cs[..|cs| - 1];
      AlwaysColumns(ret, before);
      AllKeepNumbering(ret, before);
      match cs[|cs| - 1]
      case Write(op) => WriteKeepsColumns(ExecuteAll(EMPTY_DB, ret, before), ret, op);
      case PruneNow(once, now) => PruneKeepsHighestSurvivors(ExecuteAll(EMPTY_DB, ret, before).history, once, now, "");
    }
  }

  /**
   A prune of any table that writes and prunes can lead to: the age rule spares exactly the rows whose payload did not finish
   before the cutoff, and of these each job keeps the highest sequences, as many as the row rule allows, unchanged.
   */
  lemma PruneByPayload(ret: Retention, cs: seq<Command>, once: Retention, now: int, id: string)
    ensures var h := ExecuteAll(EMPTY_DB, ret, cs).history;
            var spared := RowsOf(AgeSurvivors(h, once, now), id);
            var kept := RowsOf(Prune(h, once, now), id);
            && (forall q :: q in spared <==>
                 Key(id, q) in h && !(once.maxAge > 0 && FinishedBefore(h[Key(id, q)].payload, now - once.maxAge)))
            && kept <= spared
            && |kept| == (if once.maxRowsPerJob > 0 then Min(once.maxRowsPerJob, |spared|) else |spared|)
            && (forall x, y :: x in kept && y in spared - kept ==> x > y)
            && (forall k :: k in Prune(h, once, now) ==> k in h && Prune(h, once, now)[k] == h[k])
  {
    AlwaysColumns(ret, cs);
    PruneKeepsHighestSurvivors(ExecuteAll(EMPTY_DB, ret, cs).history, once, now, id);
  }

  // ---- The same bounds on what is read ----

  function Writes(ops: seq<Op>): (cs: seq<Command>)
    ensures |cs| == |ops| && forall i :: 0 <= i < |ops| ==> cs[i] == Write(ops[i])
  {
    seq(|ops|, i requires 0 <= i < |ops| => Write(ops[i]))
  }

  lemma {:induction false} WritesExecute(ret: Retention, ops: seq<Op>)
    ensures ExecuteAll(EMPTY_DB, ret, Writes(ops)) == RunDb(EMPTY_DB, ret, ops)
  {
    if ops != [] {
      WritesExecute(ret, ops[..|ops| - 1]);
      assert Writes(ops)[..|ops| - 1] == Writes(ops[..|ops| - 1]);
    }
  }

  lemma {:induction false} WritesLastRecorded(ops: seq<Op>, id: string)
    ensures LastRecorded(Writes(ops), id) == LastRecord(ops, id)
  {
    if ops != [] {
      WritesLastRecorded(ops[..|ops| - 1], id);
      assert Writes(ops)[..|ops| - 1] == Writes(ops[..|ops| - 1]);
    }
  }

  /** After any writes, with any rules and clocks, a read returns no more rows than the row cap and the last asked limit. */
  lemma SqliteHistoryNeverExceeds(ret: Retention, ops: seq<Op>, id: string)
    requires ReadHistoryDb(RunDb(EMPTY_DB, ret, ops), id).Some?
    ensures var rows := |ReadHistoryDb(RunDb(EMPTY_DB, ret, ops), id).value|;
            && (ret.maxRowsPerJob > 0 ==> rows <= ret.maxRowsPerJob)
            && match LastRecord(ops, id)
               case None => rows == 0
               case Some(op) => rows <= if op.historyLimit > 0 then op.historyLimit else 20
  {
    WritesExecute(ret, ops);
    WritesLastRecorded(ops, id);
    RowsNeverExceed(ret, Writes(ops), id);
  }

  /**
   With an age rule and a clock that does not go back within a job, whatever the limits: a run is in the SQLite history
   exactly if it is in the row-limited in-memory history and did not finish before the cutoff.
   */
  lemma AgeFilterByPayload(ret: Retention, ops: seq<Op>, id: string, r: JobRun)
    requires ret.maxAge > 0 && ClockAdvances(ops) && id in Run(EMPTY, CapAll(ops, ret.maxRowsPerJob)).status
    requires LastRecord(ops, id).Some?
    ensures var retained := Run(EMPTY, CapAll(ops, ret.maxRowsPerJob)).status[id].history;
            var read := ReadHistoryDb(RunDb(EMPTY_DB, ret, ops), id);
            && read.Some?
            && (r in read.value <==> r in retained && !FinishedBefore(r.payload, LastRecord(ops, id).value.now - ret.maxAge))
  {
    var retained := Run(EMPTY, CapAll(ops, ret.maxRowsPerJob)).status[id].history;
    AgeRead(ret, ops, id, retained);
    UnexpiredByPayload(retained, LastRecord(ops, id).value.now - ret.maxAge, r);
  }

  lemma UnexpiredByPayload(retained: seq<JobRun>, cutoff: int, r: JobRun)
    ensures r in Unexpired(retained, Some(cutoff)) <==> r in retained && !FinishedBefore(r.payload, cutoff)
  {
    UnexpiredMembers(retained, Some(cutoff));
  }

  // ---- Statuses ----

  /** When `id` was first registered. */
  function FirstRegistered(ops: seq<Op>, id: string): Option<int> {
    if ops == [] then None
    else
      var before, op := FirstRegistered(ops[..|ops| - 1], id), ops[|ops| - 1];
      if before.None? && op.UpsertStatus? && op.id == id then Some(op.now) else before
  }

  /** A known `id` was closed, by a Remove or as terminal; nothing opens it again. */
  predicate Closed(ops: seq<Op>, id: string) {
    if ops == [] then false
    else
      var before, op := ops[..|ops| - 1], ops[|ops| - 1];
      Closed(before, id) || (Known(before, id) && (op.MarkRemoved? || op.MarkTerminal?) && op.id == id)
  }

  /** When the status of `id` last changed: every write to a known one changes it, but a terminal mark on a closed one. */
  function LastChanged(ops: seq<Op>, id: string): Option<int> {
    if ops == [] then None
    else
      var before, op := ops[..|ops| - 1], ops[|ops| - 1];
      if op.Save? || op.Delete? || op.id != id then LastChanged(before, id)
      else if op.UpsertStatus? then Some(op.now)
      else if !Known(before, id) || (op.MarkTerminal? && Closed(before, id)) then LastChanged(before, id)
      else Some(op.now)
  }

  ghost predicate TimesOk(e: StatusEntry, ops: seq<Op>, id: string) {
    && e.terminal == Closed(ops, id)
    && FirstRegistered(ops, id) == Some(e.status.createdAt)
    && LastChanged(ops, id) == Some(e.status.updatedAt)
  }

  lemma {:induction false} UnknownIsBlank(ops: seq<Op>, id: string)
    requires !Known(ops, id)
    ensures !Closed(ops, id) && FirstRegistered(ops, id) == None && LastChanged(ops, id) == None
  {
    if ops != [] {
      KnownOneMore(ops, id);
      UnknownIsBlank(ops[..|ops| - 1], id);
    }
  }

  /**
   A status was created when its id was first registered, whatever registrations follow, and updated when it last changed;
   its terminal flag says whether it was ever closed.
   */
  lemma {:induction false} StatusTimes(ops: seq<Op>, id: string)
    requires id in Run(EMPTY, ops).status
    ensures TimesOk(Run(EMPTY, ops).status[id], ops, id)
  {
    var n := |ops| - 1;
    var before, op := ops[..n], ops[n];
    var s := Run(EMPTY, before);
    KnownIff(before, id);
    if id !in s.status {
      UnknownIsBlank(before, id);
    } else {
      StatusTimes(before, id);
      TimesStep(s, op, before, id);
    }
  }

  lemma TimesStep(s: Store, op: Op, before: seq<Op>, id: string)
    requires id in s.status && Known(before, id) && TimesOk(s.status[id], before, id)
    ensures id in Apply(s, op).status && TimesOk(Apply(s, op).status[id], before + [op], id)
  {
    assert (before + [op])[..|before|] == before;
  }

  lemma {:induction false} CapKeepsTimes(ops: seq<Op>, maxRows: int, id: string)
    ensures Closed(CapAll(ops, maxRows), id) == Closed(ops, id)
    ensures FirstRegistered(CapAll(ops, maxRows), id) == FirstRegistered(ops, id)
    ensures LastChanged(CapAll(ops, maxRows), id) == LastChanged(ops, id)
  {
    if ops != [] {
      var n := |ops| - 1;
      assert CapAll(ops, maxRows)[..n] == CapAll(ops[..n], maxRows);
      CapKeepsTimes(ops[..n], maxRows, id);
      KnownThroughCap(ops[..n], maxRows, id);
    }
  }

  /** So it is with SQLite, row cap or not. */
  lemma SqliteStatusTimes(ret: Retention, ops: seq<Op>, id: string, next: Op)
    requires ret.maxAge <= 0 && Known(ops, id)
    ensures var read := ReadStatusDb(RunDb(EMPTY_DB, ret, ops), id);
            && read.Some?
            && FirstRegistered(ops, id) == Some(read.value.createdAt)
            && LastChanged(ops, id) == Some(read.value.updatedAt)
  {
    var capped := CapAll(ops, ret.maxRowsPerJob);
    KnownThroughCap(ops, ret.maxRowsPerJob, id);
    KnownIff(capped, id);
    StatusTimes(capped, id);
    CapKeepsTimes(ops, ret.maxRowsPerJob, id);
    SqliteRefinesMemory(ret, ops, id, next);
  }
}
