/** One-off pruning of the SQLite history: what it keeps, what it counts, and why later inserts cannot collide. */
module HistoryPruning {
  import opened JobTypes
  import opened OrderedRows
  import opened MemoryStorage
  import opened SqliteStorage

  lemma MaxRowsKeepsTop(h: HistoryTable, maxRows: nat, id: string)
    ensures RowsOf(PruneMaxRows(h, maxRows), id) == TopN(RowsOf(h, id), maxRows)
  {
    var kept := PruneMaxRows(h, maxRows);
    forall q ensures q in RowsOf(kept, id) <==> q in TopN(RowsOf(h, id), maxRows) {
      assert q in RowsOf(h, id) <==> Key(id, q) in h;
      assert q in RowsOf(kept, id) <==> Key(id, q) in kept;
    }
  }

  /**
   Per job, pruning keeps exactly the highest sequences among the rows the age rule spares: as many as the row rule
   allows, each above every spared row that it drops, all with their contents.
   */
  lemma PruneKeepsHighestSurvivors(h: HistoryTable, ret: Retention, now: int, id: string)
    ensures var spared := RowsOf(AgeSurvivors(h, ret, now), id);
            var kept := RowsOf(Prune(h, ret, now), id);
            && kept <= spared
            && |kept| == (if ret.maxRowsPerJob > 0 then Min(ret.maxRowsPerJob, |spared|) else |spared|)
            && (forall x, y :: x in kept && y in spared - kept ==> x > y)
    ensures forall k :: k in Prune(h, ret, now) ==> k in h && Prune(h, ret, now)[k] == h[k]
    ensures forall q :: q in RowsOf(AgeSurvivors(h, ret, now), id) <==>
      Key(id, q) in h && !(ret.maxAge > 0 && Expired(h[Key(id, q)].finishedAtUnixNano, now - ret.maxAge))
  {
    var survivors := AgeSurvivors(h, ret, now);
    var spared := RowsOf(survivors, id);
    if ret.maxRowsPerJob > 0 {
      MaxRowsKeepsTop(survivors, ret.maxRowsPerJob, id);
      TopNSize(spared, ret.maxRowsPerJob);
      forall x, y | x in TopN(spared, ret.maxRowsPerJob) && y in spared - TopN(spared, ret.maxRowsPerJob)
        ensures x > y
      {
        TopNDominates(spared, ret.maxRowsPerJob, x, y);
      }
    }
    forall q ensures q in spared <==> Key(id, q) in survivors {
    }
  }

  lemma SameRowNumbers(h: HistoryTable, maxRows: nat, k: Key)
    requires k in PruneMaxRows(h, maxRows)
    ensures RowNumber(PruneMaxRows(h, maxRows), k) <= maxRows
  {
    MaxRowsKeepsTop(h, maxRows, k.id);
    var rows := RowsOf(h, k.id);
    SubsetSize(Above(TopN(rows, maxRows), k.sequence), Above(rows, k.sequence));
  }

  /** Pruning again with the same rules and clock deletes nothing. */
  lemma PruneTwiceIsOnce(h: HistoryTable, ret: Retention, now: int)
    ensures Prune(Prune(h, ret, now), ret, now) == Prune(h, ret, now)
  {
    var once := Prune(h, ret, now);
    assert AgeSurvivors(once, ret, now) == once;
    if ret.maxRowsPerJob > 0 {
      forall k | k in once ensures RowNumber(once, k) <= ret.maxRowsPerJob {
        SameRowNumbers(AgeSurvivors(h, ret, now), ret.maxRowsPerJob, k);
      }
    }
  }

  // ---- Writes and prunes in any order ----

  datatype Command = Write(op: Op) | PruneNow(ret: Retention, now: int)

  function Execute(db: Db, ret: Retention, c: Command): Db {
    match c
    case Write(op) => ApplyDb(db, ret, op)
    case PruneNow(once, now) => db.(history := Prune(db.history, once, now))
  }

  function ExecuteAll(db: Db, ret: Retention, cs: seq<Command>): Db {
    if cs == [] then db else Execute(ExecuteAll(db, ret, cs[..|cs| - 1]), ret, cs[|cs| - 1])
  }

  /** Every stored row belongs to a known job and was numbered by it. */
  ghost predicate RowsNumbered(db: Db) {
    forall k :: k in db.history ==> k.id in db.status && k.sequence <= db.status[k.id].lastSequence
  }

  lemma RecordKeepsNumbering(db: Db, ret: Retention, op: Op)
    requires RowsNumbered(db) && op.RecordExecutionResult?
    ensures AcceptsDb(db, ret, op)
    ensures RowsNumbered(ApplyDb(db, ret, op))
  {
    if op.id in db.status {
      var key := Key(op.id, db.status[op.id].lastSequence + 1);
      assert key !in db.history;
      var db' := ApplyDb(db, ret, op);
      assert forall k :: k in db'.history ==> k in db.history || k == key;
    }
  }

  lemma WriteKeepsNumbering(db: Db, ret: Retention, op: Op)
    requires RowsNumbered(db) && !op.RecordExecutionResult?
    ensures RowsNumbered(ApplyDb(db, ret, op))
  {
    var db' := ApplyDb(db, ret, op);
    assert db'.history == db.history;
    assert forall id :: id in db.status ==> id in db'.status && db'.status[id].lastSequence == db.status[id].lastSequence;
  }

  lemma {:induction false} AllKeepNumbering(ret: Retention, cs: seq<Command>)
    ensures RowsNumbered(ExecuteAll(EMPTY_DB, ret, cs))
  {
    if cs != [] {
      var before := ExecuteAll(EMPTY_DB, ret, cs[..|cs| - 1]);
      AllKeepNumbering(ret, cs[..|cs| - 1]);
      match cs[|cs| - 1]
      case Write(op) =>
        if op.RecordExecutionResult? {
          RecordKeepsNumbering(before, ret, op);
        } else {
          WriteKeepsNumbering(before, ret, op);
        }
      case PruneNow(once, now) =>
        PruneKeepsHighestSurvivors(before.history, once, now, "");
    }
  }

  /** How many results were recorded for `id` since its status row exists. */
  function RecordedFor(ret: Retention, cs: seq<Command>, id: string): nat {
    if cs == [] then 0
    else
      var before := cs[..|cs| - 1];
      var c := cs[|cs| - 1];
      RecordedFor(ret, before, id) +
      if c.Write? && c.op.RecordExecutionResult? && c.op.id == id && id in ExecuteAll(EMPTY_DB, ret, before).status then 1
      else 0
  }

  /** Pruning never reuses a number: after any commands, `last_sequence` counts the results ever recorded. */
  lemma {:induction false} SequenceCountsRecords(ret: Retention, cs: seq<Command>, id: string)
    ensures var db := ExecuteAll(EMPTY_DB, ret, cs);
            if id in db.status then db.status[id].lastSequence == RecordedFor(ret, cs, id) else RecordedFor(ret, cs, id) == 0
  {
    if cs != [] {
      var before := cs[..|cs| - 1];
      SequenceCountsRecords(ret, before, id);
      AllKeepNumbering(ret, before);
      var c := cs[|cs| - 1];
      var db := ExecuteAll(EMPTY_DB, ret, before);
      if c.Write? && c.op.RecordExecutionResult? {
        RecordKeepsNumbering(db, ret, c.op);
      }
    }
  }

  /** After any mix of writes and prunes, no insert violates the history key: every result is recorded. */
  lemma InsertsNeverCollide(ret: Retention, cs: seq<Command>, id: string, payload: Payload, limit: int, now: int)
    ensures RecordTx(ExecuteAll(EMPTY_DB, ret, cs), ret, id, payload, limit, now).Some?
  {
    AllKeepNumbering(ret, cs);
    RecordKeepsNumbering(ExecuteAll(EMPTY_DB, ret, cs), ret, RecordExecutionResult(id, payload, limit, now));
  }
}
