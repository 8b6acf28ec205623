/**
 The SQLite storage refines the in-memory storage: run on the same writes, it answers every read the same way.
 With a row cap it equals the in-memory storage run with capped limits, and with an age rule its history is the
 in-memory history without the expired rows.
 */
module StorageRefinement {
  import opened JobTypes
  import opened OrderedRows
  import opened MemoryStorage
  import opened SqliteStorage

  /** The same write with the history limit that the row cap leaves. */
  function Cap(op: Op, maxRows: int): Op {
    if op.RecordExecutionResult? then
      op.(historyLimit := MergeHistoryLimit(EffectiveLimit(op.historyLimit), maxRows))
    else op
  }

  function CapAll(ops: seq<Op>, maxRows: int): (r: seq<Op>)
    ensures |r| == |ops|
    ensures forall i :: 0 <= i < |ops| ==> r[i] == Cap(ops[i], maxRows)
  {
    seq(|ops|, i requires 0 <= i < |ops| => Cap(ops[i], maxRows))
  }

  /** Without a cap the in-memory run is the plain one. */
  lemma {:induction false} NoCapIsPlain(s: Store, ops: seq<Op>, maxRows: int)
    requires maxRows <= 0
    ensures Run(s, CapAll(ops, maxRows)) == Run(s, ops)
  {
    if ops != [] {
      NoCapIsPlain(s, ops[..|ops| - 1], maxRows);
      assert CapAll(ops, maxRows)[..|ops| - 1] == CapAll(ops[..|ops| - 1], maxRows);
    }
  }

  // ---- The simulation relation ----

  /** The cutoff of a job's latest age prune, if there was one. */
  type Horizon = Option<int>

  /** The latest cutoffs of the jobs that were pruned. */
  type Horizons = map<string, int>

  function At(hs: Horizons, id: string): Horizon {
    if id in hs then Some(hs[id]) else None
  }

  predicate Gone(payload: Payload, h: Horizon) {
    h.Some? && Expired(FinishedAtUnixNano(payload), h.value)
  }

  predicate InWindow(e: StatusEntry, q: int) {
    e.lastSequence - |e.history| < q <= e.lastSequence
  }

  function RunAt(e: StatusEntry, q: int): JobRun
    requires InWindow(e, q)
  {
    e.history[q - (e.lastSequence - |e.history|) - 1]
  }

  ghost predicate SameStatus(e: StatusEntry, row: StatusRow) {
    && row.data == FromJobStatus(e.status)
    && row.activeRuns == e.activeRuns
    && row.terminal == (if e.terminal then 1 else 0)
    && row.lastSequence == e.lastSequence
  }

  ghost predicate RowMatches(row: HistoryRow, e: StatusEntry, q: int) {
    InWindow(e, q) && row == HistoryRow(RunAt(e, q).payload, FinishedAtUnixNano(RunAt(e, q).payload))
  }

  /** The rows of one job are retained runs with their payloads, and only expired runs may be missing. */
  ghost predicate SameRows(id: string, e: StatusEntry, table: HistoryTable, h: Horizon) {
    && (forall q :: Key(id, q) in table ==> RowMatches(table[Key(id, q)], e, q))
    && (forall q :: InWindow(e, q) ==> Key(id, q) in table || Gone(RunAt(e, q).payload, h))
  }

  ghost predicate SimStatus(m: Store, db: Db) {
    && m.jobs.Keys == db.jobs.Keys
    && m.status.Keys == db.status.Keys
    && (forall id :: id in m.status ==> SameStatus(m.status[id], db.status[id]))
  }

  /** No present row of the job has expired. */
  ghost predicate Exact(id: string, table: HistoryTable, h: Horizon) {
    forall q :: Key(id, q) in table ==> !Gone(table[Key(id, q)].payload, h)
  }

  /** The job's rows are exactly its retained runs that its own latest cutoff spares. */
  ghost predicate ExactRows(id: string, e: StatusEntry, table: HistoryTable, h: Horizon) {
    SameRows(id, e, table, h) && Exact(id, table, h)
  }

  ghost predicate SimRows(status: map<string, StatusEntry>, table: HistoryTable, hs: Horizons) {
    && (forall k :: k in table ==> k.id in status)
    && (forall id :: id in status ==> ExactRows(id, status[id], table, At(hs, id)))
  }

  ghost predicate Sim(m: Store, db: Db, hs: Horizons) {
    SimStatus(m, db) && SimRows(m.status, db.history, hs)
  }

  ghost predicate Later(h: Horizon, h': Horizon) {
    h.Some? ==> h'.Some? && h.value <= h'.value
  }

  // ---- One write ----

  /** Which keys are in the table after a record, and with which rows. */
  lemma RecordTableAt(table: HistoryTable, id: string, sequence: int, payload: Payload, limit: int, maxAge: int,
                      now: int, k: Key)
    ensures var t := RecordTable(table, id, sequence, payload, limit, maxAge, now);
            var row := HistoryRow(payload, FinishedAtUnixNano(payload));
            var now' := if k == Key(id, sequence) then Some(row) else if k in table then Some(table[k]) else None;
            var trimmed := k.id == id && 0 < sequence - limit && k.sequence <= sequence - limit;
            var aged := now'.Some? && k.id == id && maxAge > 0 && Expired(now'.value.finishedAtUnixNano, now - maxAge);
            && (k in t <==> now'.Some? && !trimmed && !aged)
            && (k in t ==> t[k] == now'.value)
  {
  }

  /** The retained runs after a record: the old ones and the new one, less those beyond the limit. */
  lemma RecordWindowAt(id: string, e: StatusEntry, payload: Payload, limit: nat, now: int, q: int)
    requires EntryOk(id, e) && limit > 0
    ensures var e' := Record(e, payload, limit, now);
            && (InWindow(e', q) <==> (InWindow(e, q) || q == e.lastSequence + 1) && q > e.lastSequence + 1 - limit)
            && (InWindow(e', q) ==> RunAt(e', q).payload == if q == e.lastSequence + 1 then payload else RunAt(e, q).payload)
  {
    var e' := Record(e, payload, limit, now);
    var all := e.history + [JobRun(e.lastSequence + 1, payload)];
    assert e'.history == LastN(all, limit);
    if InWindow(e', q) {
      assert RunAt(e', q) == all[q - (e'.lastSequence - |all|) - 1];
    }
  }

  lemma RecordRows(id: string, e: StatusEntry, table: HistoryTable, h: Horizon,
                   payload: Payload, limit: nat, maxAge: int, now: int, e': StatusEntry, t: HistoryTable, h': Horizon)
    requires EntryOk(id, e) && ExactRows(id, e, table, h)
    requires limit > 0
    requires maxAge <= 0 ==> h.None?
    requires h' == (if maxAge > 0 then Some(now - maxAge) else h) && Later(h, h')
    requires e' == Record(e, payload, limit, now)
    requires t == RecordTable(table, id, e.lastSequence + 1, payload, limit, maxAge, now)
    ensures ExactRows(id, e', t, h')
  {
    forall q
      ensures Key(id, q) in t ==> RowMatches(t[Key(id, q)], e', q)
      ensures Key(id, q) in t ==> !Gone(t[Key(id, q)].payload, h')
      ensures InWindow(e', q) ==> Key(id, q) in t || Gone(RunAt(e', q).payload, h')
    {
      RecordTableAt(table, id, e.lastSequence + 1, payload, limit, maxAge, now, Key(id, q));
      RecordWindowAt(id, e, payload, limit, now, q);
    }
  }

  function NextHorizons(ret: Retention, op: Op, hs: Horizons): Horizons {
    if op.RecordExecutionResult? && ret.maxAge > 0 then hs[op.id := op.now - ret.maxAge] else hs
  }

  /** No cutoff of the job lies after the one that this write may set. */
  ghost predicate ClockAllows(ret: Retention, op: Op, hs: Horizons) {
    && (op.RecordExecutionResult? && ret.maxAge > 0 && op.id in hs ==> hs[op.id] <= op.now - ret.maxAge)
    && (ret.maxAge <= 0 ==> hs == map[])
  }

  /** The limit both storages use for a recorded result. */
  function LimitOf(op: Op, ret: Retention): (r: nat)
    requires op.RecordExecutionResult?
    ensures r > 0
  {
    MergeHistoryLimit(EffectiveLimit(op.historyLimit), ret.maxRowsPerJob)
  }

  /** The history table after the record that `op` asks for. */
  function TableAfter(op: Op, ret: Retention, table: HistoryTable, lastSequence: int): HistoryTable
    requires op.RecordExecutionResult?
  {
    RecordTable(table, op.id, lastSequence + 1, op.payload, LimitOf(op, ret), ret.maxAge, op.now)
  }

  lemma MemoryRecord(m: Store, ret: Retention, op: Op)
    requires op.RecordExecutionResult? && op.id in m.status
    ensures Apply(m, Cap(op, ret.maxRowsPerJob)) ==
      m.(status := m.status[op.id := Record(m.status[op.id], op.payload, LimitOf(op, ret), op.now)])
  {
  }

  lemma SqliteRecord(e: StatusEntry, db: Db, ret: Retention, op: Op)
    requires op.RecordExecutionResult? && op.id in db.status && EntryOk(op.id, e) && SameStatus(e, db.status[op.id])
    requires Key(op.id, e.lastSequence + 1) !in db.history
    ensures AcceptsDb(db, ret, op)
    ensures ApplyDb(db, ret, op).history == TableAfter(op, ret, db.history, e.lastSequence)
    ensures ApplyDb(db, ret, op).jobs == db.jobs
    ensures ApplyDb(db, ret, op).status.Keys == db.status.Keys
    ensures forall id :: id in db.status && id != op.id ==> ApplyDb(db, ret, op).status[id] == db.status[id]
    ensures SameStatus(Record(e, op.payload, LimitOf(op, ret), op.now), ApplyDb(db, ret, op).status[op.id])
  {
  }

  lemma RecordFits(m: Store, db: Db, op: Op, hs: Horizons)
    requires Sim(m, db, hs) && op.RecordExecutionResult? && op.id in m.status
    ensures Key(op.id, m.status[op.id].lastSequence + 1) !in db.history
  {
    assert ExactRows(op.id, m.status[op.id], db.history, At(hs, op.id));
  }

  /** The rows of every job but `id` are the same in both tables. */
  ghost predicate SameElsewhere(table: HistoryTable, table': HistoryTable, id: string) {
    forall k: Key :: k.id != id ==> (k in table' <==> k in table) && (k in table ==> table'[k] == table[k])
  }

  /** A change of one job's entry, rows and cutoff leaves the others alone. */
  lemma ReplaceRows(status: map<string, StatusEntry>, table: HistoryTable, hs: Horizons,
                    id: string, e': StatusEntry, table': HistoryTable, hs': Horizons)
    requires id in status && SimRows(status, table, hs)
    requires ExactRows(id, e', table', At(hs', id))
    requires SameElsewhere(table, table', id)
    requires forall other :: other != id ==> At(hs', other) == At(hs, other)
    ensures SimRows(status[id := e'], table', hs')
  {
    forall other | other in status && other != id
      ensures ExactRows(other, status[other], table', At(hs', other))
    {
      assert ExactRows(other, status[other], table, At(hs, other));
    }
  }

  lemma TableAfterElsewhere(op: Op, ret: Retention, table: HistoryTable, lastSequence: int)
    requires op.RecordExecutionResult?
    ensures SameElsewhere(table, TableAfter(op, ret, table, lastSequence), op.id)
  {
    var t := TableAfter(op, ret, table, lastSequence);
    forall k: Key | k.id != op.id
      ensures (k in t <==> k in table) && (k in table ==> t[k] == table[k])
    {
      RecordTableAt(table, op.id, lastSequence + 1, op.payload, LimitOf(op, ret), ret.maxAge, op.now, k);
    }
  }

  lemma RecordedRows(e: StatusEntry, table: HistoryTable, ret: Retention, op: Op, h: Horizon, h': Horizon)
    requires op.RecordExecutionResult? && EntryOk(op.id, e) && ExactRows(op.id, e, table, h)
    requires ret.maxAge <= 0 ==> h.None?
    requires h' == (if ret.maxAge > 0 then Some(op.now - ret.maxAge) else h) && Later(h, h')
    ensures ExactRows(op.id, Record(e, op.payload, LimitOf(op, ret), op.now), TableAfter(op, ret, table, e.lastSequence), h')
  {
    RecordRows(op.id, e, table, h, op.payload, LimitOf(op, ret), ret.maxAge, op.now,
               Record(e, op.payload, LimitOf(op, ret), op.now), TableAfter(op, ret, table, e.lastSequence), h');
  }

  /** The row half of a record. */
  lemma RecordRowsStep(m: Store, table: HistoryTable, ret: Retention, op: Op, hs: Horizons)
    requires op.RecordExecutionResult? && op.id in m.status
    requires EntryOk(op.id, m.status[op.id]) && SimRows(m.status, table, hs)
    requires ClockAllows(ret, op, hs)
    ensures SimRows(m.status[op.id := Record(m.status[op.id], op.payload, LimitOf(op, ret), op.now)],
                    TableAfter(op, ret, table, m.status[op.id].lastSequence), NextHorizons(ret, op, hs))
  {
    var e := m.status[op.id];
    var hs' := NextHorizons(ret, op, hs);
    RecordedRows(e, table, ret, op, At(hs, op.id), At(hs', op.id));
    TableAfterElsewhere(op, ret, table, e.lastSequence);
    ReplaceRows(m.status, table, hs, op.id, Record(e, op.payload, LimitOf(op, ret), op.now),
                TableAfter(op, ret, table, e.lastSequence), hs');
  }

  /** The status half of a record. */
  lemma RecordStatusStep(m: Store, db: Db, ret: Retention, op: Op)
    requires op.RecordExecutionResult? && op.id in m.status
    requires EntryOk(op.id, m.status[op.id]) && SimStatus(m, db)
    requires Key(op.id, m.status[op.id].lastSequence + 1) !in db.history
    ensures SimStatus(m.(status := m.status[op.id := Record(m.status[op.id], op.payload, LimitOf(op, ret), op.now)]),
                      ApplyDb(db, ret, op))
  {
    SqliteRecord(m.status[op.id], db, ret, op);
  }

  lemma RecordStep(m: Store, db: Db, ret: Retention, op: Op, hs: Horizons)
    requires StoreOk(m) && Sim(m, db, hs)
    requires op.RecordExecutionResult? && op.id in m.status
    requires ClockAllows(ret, op, hs)
    ensures AcceptsDb(db, ret, op)
    ensures Sim(Apply(m, Cap(op, ret.maxRowsPerJob)), ApplyDb(db, ret, op), NextHorizons(ret, op, hs))
  {
    RecordFits(m, db, op, hs);
    MemoryRecord(m, ret, op);
    SqliteRecord(m.status[op.id], db, ret, op);
    RecordRowsStep(m, db.history, ret, op, hs);
    RecordStatusStep(m, db, ret, op);
  }

  /** The other status writes change an entry and its row alike. */
  lemma TouchSame(id: string, e: StatusEntry, row: StatusRow, op: Op)
    requires EntryOk(id, e) && SameStatus(e, row)
    requires op.UpsertStatus? || op.MarkRemoved? || (op.MarkTerminal? && !e.terminal) || op.MarkExecutionStart?
    ensures var r := StatusRecord(FromJobStatus(ToJobStatus(row.data, row.activeRuns)), row.activeRuns, row.terminal == 1,
                                  row.lastSequence);
            SameStatus(Touch(e, op), RowOf(id, TouchRecord(r, op)))
  {
  }

  ghost predicate ReplacesStatus(m: Store, db: Db, m': Store, db': Db, id: string) {
    && m'.jobs == m.jobs && db'.jobs == db.jobs && db'.history == db.history
    && id in m'.status && id in db'.status
    && m'.status == m.status[id := m'.status[id]]
    && db'.status == db.status[id := db'.status[id]]
    && SameStatus(m'.status[id], db'.status[id])
  }

  lemma ReplaceStatus(m: Store, db: Db, m': Store, db': Db, id: string)
    requires SimStatus(m, db) && ReplacesStatus(m, db, m', db', id)
    ensures SimStatus(m', db')
  {
  }

  lemma OtherStatus(m: Store, db: Db, ret: Retention, op: Op)
    requires !op.RecordExecutionResult? && SimStatus(m, db) && StoreOk(m)
    ensures SimStatus(Apply(m, op), ApplyDb(db, ret, op))
    ensures ApplyDb(db, ret, op).history == db.history
  {
    if !op.Save? && !op.Delete? {
      if op.id in m.status {
        KnownStatus(m, db, ret, op);
      } else if op.UpsertStatus? {
        ReplaceStatus(m, db, Apply(m, op), ApplyDb(db, ret, op), op.id);
      }
    }
  }

  lemma KnownStatus(m: Store, db: Db, ret: Retention, op: Op)
    requires !op.RecordExecutionResult? && !op.Save? && !op.Delete? && op.id in m.status
    requires SimStatus(m, db) && StoreOk(m)
    ensures SimStatus(Apply(m, op), ApplyDb(db, ret, op))
    ensures ApplyDb(db, ret, op).history == db.history
  {
    if op.MarkTerminal? && m.status[op.id].terminal {
      assert m.status[op.id := m.status[op.id]] == m.status;
    } else {
      TouchSame(op.id, m.status[op.id], db.status[op.id], op);
      ReplaceStatus(m, db, Apply(m, op), ApplyDb(db, ret, op), op.id);
    }
  }

  /** The other writes touch no retained run. */
  lemma OtherWriteKeepsRuns(m: Store, op: Op, id: string)
    requires !op.RecordExecutionResult? && id in Apply(m, op).status
    ensures var e := Apply(m, op).status[id];
            if id in m.status then e.history == m.status[id].history && e.lastSequence == m.status[id].lastSequence
            else e.history == [] && e.lastSequence == 0
  {
  }

  lemma OtherRowsAt(m: Store, table: HistoryTable, op: Op, hs: Horizons, id: string)
    requires SimRows(m.status, table, hs) && !op.RecordExecutionResult? && id in Apply(m, op).status
    ensures ExactRows(id, Apply(m, op).status[id], table, At(hs, id))
  {
    OtherWriteKeepsRuns(m, op, id);
    if id in m.status {
      assert ExactRows(id, m.status[id], table, At(hs, id));
      SameRunsSameRows(id, m.status[id], Apply(m, op).status[id], table, At(hs, id));
    }
  }

  lemma SameRunsSameRows(id: string, e: StatusEntry, e': StatusEntry, table: HistoryTable, h: Horizon)
    requires ExactRows(id, e, table, h) && e'.history == e.history && e'.lastSequence == e.lastSequence
    ensures ExactRows(id, e', table, h)
  {
    assert forall q :: InWindow(e', q) <==> InWindow(e, q);
  }

  lemma OtherRowsStep(m: Store, table: HistoryTable, op: Op, hs: Horizons)
    requires SimRows(m.status, table, hs) && !op.RecordExecutionResult?
    ensures SimRows(Apply(m, op).status, table, hs)
  {
    assert m.status.Keys <= Apply(m, op).status.Keys;
    forall id | id in Apply(m, op).status
      ensures ExactRows(id, Apply(m, op).status[id], table, At(hs, id))
    {
      OtherRowsAt(m, table, op, hs, id);
    }
  }

  lemma UnknownRecord(m: Store, db: Db, ret: Retention, op: Op, hs: Horizons)
    requires Sim(m, db, hs) && op.RecordExecutionResult? && op.id !in m.status
    ensures AcceptsDb(db, ret, op)
    ensures Sim(Apply(m, Cap(op, ret.maxRowsPerJob)), ApplyDb(db, ret, op), NextHorizons(ret, op, hs))
  {
    var hs' := NextHorizons(ret, op, hs);
    forall id | id in m.status
      ensures ExactRows(id, m.status[id], db.history, At(hs', id))
    {
      assert At(hs', id) == At(hs, id);
    }
  }

  /** Every write keeps the two storages in step and is answered alike by both. */
  lemma SimStep(m: Store, db: Db, ret: Retention, op: Op, hs: Horizons)
    requires StoreOk(m) && Sim(m, db, hs)
    requires ClockAllows(ret, op, hs)
    ensures AcceptsDb(db, ret, op) == Accepts(m, op)
    ensures Sim(Apply(m, Cap(op, ret.maxRowsPerJob)), ApplyDb(db, ret, op), NextHorizons(ret, op, hs))
  {
    if op.RecordExecutionResult? {
      if op.id in m.status {
        RecordStep(m, db, ret, op, hs);
      } else {
        UnknownRecord(m, db, ret, op, hs);
      }
    } else {
      OtherStatus(m, db, ret, op);
      OtherRowsStep(m, db.history, op, hs);
    }
  }

  // ---- Reads ----

  /** The rows that an age rule with this horizon leaves. */
  function Unexpired(runs: seq<JobRun>, h: Horizon): seq<JobRun> {
    if runs == [] then []
    else
      var rest := Unexpired(runs[..|runs| - 1], h);
      if Gone(runs[|runs| - 1].payload, h) then rest else rest + [runs[|runs| - 1]]
  }

  ghost predicate Ordered(runs: seq<JobRun>) {
    forall i, j :: 0 <= i < j < |runs| ==> runs[i].sequence < runs[j].sequence
  }

  lemma {:induction false} UnexpiredMembers(runs: seq<JobRun>, h: Horizon)
    ensures forall r :: r in Unexpired(runs, h) <==> r in runs && !Gone(r.payload, h)
    ensures |Unexpired(runs, h)| <= |runs|
  {
    if runs != [] {
      var n := |runs| - 1;
      UnexpiredMembers(runs[..n], h);
      assert runs == runs[..n] + [runs[n]];
    }
  }

  lemma {:induction false} UnexpiredOrdered(runs: seq<JobRun>, h: Horizon)
    requires Ordered(runs)
    ensures Ordered(Unexpired(runs, h))
  {
    if runs != [] {
      var n := |runs| - 1;
      UnexpiredOrdered(runs[..n], h);
      UnexpiredMembers(runs[..n], h);
      var rest := Unexpired(runs[..n], h);
      forall i | 0 <= i < |rest| ensures rest[i].sequence < runs[n].sequence {
        assert rest[i] in runs[..n];
        var j :| 0 <= j < n && runs[j] == rest[i];
      }
    }
  }

  lemma {:induction false} NoHorizonKeepsAll(runs: seq<JobRun>)
    ensures Unexpired(runs, None) == runs
  {
    if runs != [] {
      NoHorizonKeepsAll(runs[..|runs| - 1]);
    }
  }

  /** A retained run is found again at its sequence. */
  lemma RunAtOwnSequence(e: StatusEntry, run: JobRun)
    requires Contiguous(e) && run in e.history
    ensures InWindow(e, run.sequence) && RunAt(e, run.sequence) == run
  {
    var j :| 0 <= j < |e.history| && e.history[j] == run;
  }

  ghost function Sequences(runs: seq<JobRun>): (r: seq<int>)
    ensures |r| == |runs|
    ensures forall i :: 0 <= i < |r| ==> r[i] == runs[i].sequence
  {
    seq(|runs|, i requires 0 <= i < |runs| => runs[i].sequence)
  }

  /** In an exact table the rows of a job are the unexpired runs. */
  lemma RowIffUnexpired(id: string, e: StatusEntry, table: HistoryTable, h: Horizon, q: int)
    requires EntryOk(id, e) && ExactRows(id, e, table, h)
    ensures q in Sequences(Unexpired(e.history, h)) <==> Key(id, q) in table
  {
    var kept := Unexpired(e.history, h);
    UnexpiredMembers(e.history, h);
    if Key(id, q) in table {
      assert RowMatches(table[Key(id, q)], e, q);
      var run := RunAt(e, q);
      assert run in e.history && run in kept && run.sequence == q;
      var i :| 0 <= i < |kept| && kept[i] == run;
      assert Sequences(kept)[i] == q;
    }
    if q in Sequences(kept) {
      var i :| 0 <= i < |kept| && Sequences(kept)[i] == q;
      assert kept[i] in kept;
      RunAtOwnSequence(e, kept[i]);
    }
  }

  /** An exact table lists, in order, precisely the unexpired retained runs. */
  lemma RowsListUnexpired(id: string, e: StatusEntry, table: HistoryTable, h: Horizon)
    requires EntryOk(id, e) && ExactRows(id, e, table, h)
    ensures RunsOf(table, id) == Unexpired(e.history, h)
  {
    var kept := Unexpired(e.history, h);
    UnexpiredMembers(e.history, h);
    assert Ordered(e.history);
    UnexpiredOrdered(e.history, h);
    var order := Ascending(RowsOf(table, id));
    forall q ensures q in Sequences(kept) <==> q in order {
      RowIffUnexpired(id, e, table, h, q);
      assert q in RowsOf(table, id) <==> Key(id, q) in table;
    }
    AscendingUnique(Sequences(kept), order);
    forall i | 0 <= i < |kept| ensures RunsOf(table, id)[i] == kept[i] {
      assert kept[i] in kept;
      RunAtOwnSequence(e, kept[i]);
      assert RowMatches(table[Key(id, order[i])], e, order[i]);
    }
  }

  lemma SimReadsHistory(m: Store, db: Db, hs: Horizons, id: string)
    requires StoreOk(m) && Sim(m, db, hs) && id in m.status
    ensures ReadHistoryDb(db, id) == Some(Unexpired(m.status[id].history, At(hs, id)))
  {
    RowsListUnexpired(id, m.status[id], db.history, At(hs, id));
    if RowsOf(db.history, id) == {} {
      assert |RunsOf(db.history, id)| == 0;
    }
  }

  lemma SimReadsUnknown(m: Store, db: Db, hs: Horizons, id: string)
    requires Sim(m, db, hs) && id !in m.status
    ensures ReadHistoryDb(db, id) == None
  {
    assert RowsOf(db.history, id) == {};
  }

  // ---- Whole runs ----

  /** The clock never goes back between two results recorded for the same job. */
  ghost predicate ClockAdvances(ops: seq<Op>) {
    forall i, j :: 0 <= i < j < |ops| ==>
      ops[i].RecordExecutionResult? && ops[j].RecordExecutionResult? && ops[i].id == ops[j].id ==> ops[i].now <= ops[j].now
  }

  function HorizonsAfter(ret: Retention, ops: seq<Op>): Horizons {
    if ops == [] then map[]
    else
      NextHorizons(ret, ops[|ops| - 1], HorizonsAfter(ret, ops[..|ops| - 1]))
  }

  /** The last result recorded for `id`. */
  function LastRecord(ops: seq<Op>, id: string): (r: Option<Op>)
    ensures r.Some? ==> r.value.RecordExecutionResult? && r.value.id == id && r.value in ops
  {
    if ops == [] then None
    else
      var op := ops[|ops| - 1];
      if op.RecordExecutionResult? && op.id == id then Some(op) else LastRecord(ops[..|ops| - 1], id)
  }

  lemma {:induction false} NoAgeNoHorizons(ret: Retention, ops: seq<Op>)
    requires ret.maxAge <= 0
    ensures HorizonsAfter(ret, ops) == map[]
  {
    if ops != [] {
      NoAgeNoHorizons(ret, ops[..|ops| - 1]);
    }
  }

  /** A job's cutoff is that of its last recorded result. */
  lemma {:induction false} HorizonIsLastCutoff(ret: Retention, ops: seq<Op>, id: string)
    requires ret.maxAge > 0
    ensures At(HorizonsAfter(ret, ops), id)
         == match LastRecord(ops, id) case None => None case Some(op) => Some(op.now - ret.maxAge)
  {
    if ops != [] {
      HorizonIsLastCutoff(ret, ops[..|ops| - 1], id);
    }
  }

  /** Retained runs obey the limit of the last recorded result, and there are none before the first. */
  lemma {:induction false} RetainedWithinLimit(ret: Retention, ops: seq<Op>, id: string)
    requires id in Run(EMPTY, CapAll(ops, ret.maxRowsPerJob)).status
    ensures |Run(EMPTY, CapAll(ops, ret.maxRowsPerJob)).status[id].history|
         <= match LastRecord(ops, id) case None => 0 case Some(op) => LimitOf(op, ret)
  {
    var n := |ops| - 1;
    var before, op := ops[..n], ops[n];
    assert CapAll(ops, ret.maxRowsPerJob)[..n] == CapAll(before, ret.maxRowsPerJob);
    var m := Run(EMPTY, CapAll(before, ret.maxRowsPerJob));
    if op.RecordExecutionResult? && op.id == id {
      if id in m.status {
        RecordLength(m, ret, op);
      }
    } else {
      OtherOpKeepsRuns(m, ret, op, id);
      if id in m.status {
        RetainedWithinLimit(ret, before, id);
      }
    }
  }

  lemma OtherOpKeepsRuns(m: Store, ret: Retention, op: Op, id: string)
    requires id in Apply(m, Cap(op, ret.maxRowsPerJob)).status && !(op.RecordExecutionResult? && op.id == id)
    ensures Apply(m, Cap(op, ret.maxRowsPerJob)).status[id].history == if id in m.status then m.status[id].history else []
  {
    if !op.RecordExecutionResult? {
      OtherWriteKeepsRuns(m, op, id);
    }
  }

  lemma ClockAllowsNext(ret: Retention, ops: seq<Op>)
    requires ops != [] && (ret.maxAge > 0 ==> ClockAdvances(ops))
    ensures ClockAllows(ret, ops[|ops| - 1], HorizonsAfter(ret, ops[..|ops| - 1]))
  {
    var n := |ops| - 1;
    var before, op := ops[..n], ops[n];
    if ret.maxAge <= 0 {
      NoAgeNoHorizons(ret, before);
    } else if op.RecordExecutionResult? && op.id in HorizonsAfter(ret, before) {
      HorizonIsLastCutoff(ret, before, op.id);
      var i :| 0 <= i < n && before[i] == LastRecord(before, op.id).value;
      assert ops[i].now <= ops[n].now;
    }
  }

  lemma {:induction false} SimAfterRun(ret: Retention, ops: seq<Op>)
    requires ret.maxAge > 0 ==> ClockAdvances(ops)
    ensures StoreOk(Run(EMPTY, CapAll(ops, ret.maxRowsPerJob)))
    ensures Sim(Run(EMPTY, CapAll(ops, ret.maxRowsPerJob)), RunDb(EMPTY_DB, ret, ops), HorizonsAfter(ret, ops))
  {
    RunKeepsStoreOk(CapAll(ops, ret.maxRowsPerJob));
    if ops != [] {
      var n := |ops| - 1;
      var before := ops[..n];
      assert CapAll(ops, ret.maxRowsPerJob)[..n] == CapAll(before, ret.maxRowsPerJob);
      SimAfterRun(ret, before);
      ClockAllowsNext(ret, ops);
      var m := Run(EMPTY, CapAll(before, ret.maxRowsPerJob));
      SimStep(m, RunDb(EMPTY_DB, ret, before), ret, ops[n], HorizonsAfter(ret, before));
    }
  }

  /** What a client can learn from a storage about one id, and what the next write would answer. */
  ghost predicate SameAnswers(m: Store, db: Db, ret: Retention, id: string, next: Op) {
    && (id in m.jobs <==> id in db.jobs)
    && |m.jobs| == |db.jobs|
    && m.jobs.Keys == db.jobs.Keys
    && m.status.Keys == db.status.Keys
    && ReadStatusDb(db, id) == ReadStatus(m, id)
    && ReadHistoryDb(db, id) == ReadHistory(m, id)
    && AcceptsDb(db, ret, next) == Accepts(m, next)
  }

  lemma SimAnswers(m: Store, db: Db, ret: Retention, id: string, next: Op)
    requires StoreOk(m) && Sim(m, db, map[]) && ret.maxAge <= 0
    ensures SameAnswers(m, db, ret, id, next)
  {
    assert |m.jobs.Keys| == |db.jobs.Keys|;
    SimStep(m, db, ret, next, map[]);
    if id in m.status {
      SimReadsHistory(m, db, map[], id);
      NoHorizonKeepsAll(m.status[id].history);
    } else {
      SimReadsUnknown(m, db, map[], id);
    }
  }

  /**
   Without an age rule: after any writes, with any limits, SQLite with a row cap answers every read and the next
   write as the in-memory storage run with the capped limits does.
   */
  lemma SqliteRefinesMemory(ret: Retention, ops: seq<Op>, id: string, next: Op)
    requires ret.maxAge <= 0
    ensures SameAnswers(Run(EMPTY, CapAll(ops, ret.maxRowsPerJob)), RunDb(EMPTY_DB, ret, ops), ret, id, next)
  {
    SimAfterRun(ret, ops);
    NoAgeNoHorizons(ret, ops);
    SimAnswers(Run(EMPTY, CapAll(ops, ret.maxRowsPerJob)), RunDb(EMPTY_DB, ret, ops), ret, id, next);
  }

  /** With retention switched off, SQLite answers as the in-memory storage run on the very same writes. */
  lemma SqliteWithoutRetentionIsMemory(ret: Retention, ops: seq<Op>, id: string, next: Op)
    requires ret.maxAge <= 0 && ret.maxRowsPerJob <= 0
    ensures SameAnswers(Run(EMPTY, ops), RunDb(EMPTY_DB, ret, ops), ret, id, next)
  {
    SqliteRefinesMemory(ret, ops, id, next);
    NoCapIsPlain(EMPTY, ops, ret.maxRowsPerJob);
  }

  /**
   With an age rule and a clock that does not go back for any one job: after any writes, a job's SQLite history is its
   row-limited in-memory history without the rows that finished before the cutoff of its own last recorded result, and
   within that result's effective limit. It is empty before the first result.
   */
  lemma AgeRetentionIsExactFilter(ret: Retention, ops: seq<Op>, id: string)
    requires ret.maxAge > 0 && ClockAdvances(ops)
    requires id in Run(EMPTY, CapAll(ops, ret.maxRowsPerJob)).status
    ensures var retained := Run(EMPTY, CapAll(ops, ret.maxRowsPerJob)).status[id].history;
            match LastRecord(ops, id)
            case None => retained == [] && ReadHistoryDb(RunDb(EMPTY_DB, ret, ops), id) == Some([])
            case Some(last) =>
              && ReadHistoryDb(RunDb(EMPTY_DB, ret, ops), id) == Some(Unexpired(retained, Some(last.now - ret.maxAge)))
              && |Unexpired(retained, Some(last.now - ret.maxAge))| <= LimitOf(last, ret)
  {
    HistoryAfterRun(ret, ops, id);
    HorizonIsLastCutoff(ret, ops, id);
    RetainedWithinLimit(ret, ops, id);
  }

  lemma HistoryAfterRun(ret: Retention, ops: seq<Op>, id: string)
    requires ret.maxAge > 0 ==> ClockAdvances(ops)
    requires id in Run(EMPTY, CapAll(ops, ret.maxRowsPerJob)).status
    ensures var retained := Run(EMPTY, CapAll(ops, ret.maxRowsPerJob)).status[id].history;
            && ReadHistoryDb(RunDb(EMPTY_DB, ret, ops), id) == Some(Unexpired(retained, At(HorizonsAfter(ret, ops), id)))
            && |Unexpired(retained, At(HorizonsAfter(ret, ops), id))| <= |retained|
  {
    var m := Run(EMPTY, CapAll(ops, ret.maxRowsPerJob));
    SimAfterRun(ret, ops);
    SimReadsHistory(m, RunDb(EMPTY_DB, ret, ops), HorizonsAfter(ret, ops), id);
    UnexpiredMembers(m.status[id].history, At(HorizonsAfter(ret, ops), id));
  }

  lemma RecordLength(m: Store, ret: Retention, op: Op)
    requires op.RecordExecutionResult? && op.id in m.status
    ensures var m' := Apply(m, Cap(op, ret.maxRowsPerJob));
            op.id in m'.status && |m'.status[op.id].history| <= LimitOf(op, ret)
  {
  }
}
