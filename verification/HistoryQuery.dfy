/** Bounded history reads. */
module HistoryQuery {
  import opened JobTypes
  import opened MemoryStorage

  /** The runs whose sequence is at least `from`. */
  function Since(history: seq<JobRun>, from: int): seq<JobRun> {
    if history == [] then []
    else
      var rest := Since(history[..|history| - 1], from);
      if history[|history| - 1].sequence >= from then rest + [history[|history| - 1]] else rest
  }

  /** What a query selects: each filter applies when it is positive. */
  function Selected(history: seq<JobRun>, from: int, limit: int): seq<JobRun> {
    var filtered := if from > 0 then Since(history, from) else history;
    if limit > 0 then LastN(filtered, limit) else filtered
  }

  method QueryJobHistory(storage: InMemoryJobsStorage, id: string, from: int, limit: int) returns (r: Option<seq<JobRun>>)
    ensures r.None? <==> id !in storage.status
    ensures r.Some? ==> r.value == Selected(storage.status[id].history, from, limit)
  {
    var read := storage.History(id);
    if read == None {
      return None;
    }
    var history := read.value;
    var filtered := history;
    if from > 0 {
      filtered := [];
      for i := 0 to |history|
        invariant filtered == Since(history[..i], from)
      {
        assert history[..i + 1][..i] == history[..i];
        if history[i].sequence >= from {
          filtered := filtered + [history[i]];
        }
      }
      assert history[..|history|] == history;
    }
    if limit > 0 && |filtered| > limit {
      filtered := filtered[|filtered| - limit..];
    }
    r := Some(filtered);
  }

  /** The first sequence that a query returns from a contiguous history. */
  function LowestSelected(e: StatusEntry, from: int, limit: int): int {
    var retained := e.lastSequence - |e.history| + 1;
    var since := if from > 0 then Max(retained, from) else retained;
    if limit > 0 then Max(since, e.lastSequence - limit + 1) else since
  }

  lemma {:induction false} SinceIsSuffix(history: seq<JobRun>, first: int, from: int)
    requires forall i :: 0 <= i < |history| ==> history[i].sequence == first + i
    ensures Since(history, from) == history[Min(Max(from - first, 0), |history|)..]
  {
    if history != [] {
      var n := |history| - 1;
      SinceIsSuffix(history[..n], first, from);
      var cut := Min(Max(from - first, 0), n);
      if from - first <= n {
        assert history[cut..] == history[..n][cut..] + [history[n]];
      }
    }
  }

  /**
   On a contiguous history a query returns, in ascending order, exactly the runs numbered from the highest of the first
   retained sequence, the requested sequence and the limit's start, up to the run count.
   */
  lemma QueryClosedForm(id: string, e: StatusEntry, from: int, limit: int)
    requires EntryOk(id, e)
    ensures IsRunRange(e, Selected(e.history, from, limit), LowestSelected(e, from, limit))
  {
    SelectedIsSuffix(e, from, limit);
    CutIsLowest(e, from, limit);
  }

  /** `r` is exactly the retained runs numbered from `lowest` to the run count, in order. */
  ghost predicate IsRunRange(e: StatusEntry, r: seq<JobRun>, lowest: int) {
    && e.lastSequence - |e.history| + 1 <= lowest
    && |r| == Max(e.status.runs - lowest + 1, 0)
    && (forall i :: 0 <= i < |r| ==> r[i].sequence == lowest + i)
    && (forall i :: 0 <= i < |r| ==> r[i] in e.history)
  }

  /** Where the sequence filter cuts a history. */
  function FilterCut(e: StatusEntry, from: int): (cut: nat)
    ensures cut <= |e.history|
  {
    if from > 0 then Min(Max(from - (e.lastSequence - |e.history| + 1), 0), |e.history|) else 0
  }

  lemma FilteredIsSuffix(e: StatusEntry, from: int)
    requires Contiguous(e)
    ensures (if from > 0 then Since(e.history, from) else e.history) == e.history[FilterCut(e, from)..]
  {
    if from > 0 {
      SinceIsSuffix(e.history, e.lastSequence - |e.history| + 1, from);
    }
  }

  lemma TailOfTail(history: seq<JobRun>, cut: nat, limit: int)
    requires cut <= |history| && limit > 0
    ensures LastN(history[cut..], limit) == history[Max(cut, |history| - limit)..]
  {
  }

  /** Where both filters together cut a history. */
  function QueryCut(e: StatusEntry, from: int, limit: int): (cut: nat)
    ensures cut <= |e.history|
  {
    if limit > 0 then Max(FilterCut(e, from), |e.history| - limit) else FilterCut(e, from)
  }

  lemma CutIsLowest(e: StatusEntry, from: int, limit: int)
    ensures QueryCut(e, from, limit)
         == Min(LowestSelected(e, from, limit) - (e.lastSequence - |e.history| + 1), |e.history|)
  {
  }

  lemma SelectedIsSuffix(e: StatusEntry, from: int, limit: int)
    requires Contiguous(e)
    ensures Selected(e.history, from, limit) == e.history[QueryCut(e, from, limit)..]
  {
    FilteredIsSuffix(e, from);
    if limit > 0 {
      TailOfTail(e.history, FilterCut(e, from), limit);
    }
  }

  /** The closed form holds after any storage writes, for any id and any query. */
  lemma QueryAfterAnyRun(ops: seq<Op>, id: string, from: int, limit: int)
    requires id in Run(EMPTY, ops).status
    ensures var e := Run(EMPTY, ops).status[id];
            && IsRunRange(e, Selected(e.history, from, limit), LowestSelected(e, from, limit))
            && e.status.lastRun == if e.history == [] then None else Some(e.history[|e.history| - 1].payload)
  {
    EntryAfterRun(ops, id);
    QueryClosedForm(id, Run(EMPTY, ops).status[id], from, limit);
  }

  lemma EntryAfterRun(ops: seq<Op>, id: string)
    requires id in Run(EMPTY, ops).status
    ensures EntryOk(id, Run(EMPTY, ops).status[id])
  {
    RunKeepsStoreOk(ops);
  }

  /**
   Run by run, after any writes: a query returns a retained run exactly if it is not below the requested sequence and among
   the last `limit` runs of the job, each filter applying when it is positive.
   */
  lemma QueryReturns(ops: seq<Op>, id: string, from: int, limit: int, run: JobRun)
    requires id in Run(EMPTY, ops).status
    ensures var e := Run(EMPTY, ops).status[id];
            run in Selected(e.history, from, limit) <==>
              && run in e.history
              && (from > 0 ==> run.sequence >= from)
              && (limit > 0 ==> run.sequence > e.status.runs - limit)
  {
    var e := Run(EMPTY, ops).status[id];
    EntryAfterRun(ops, id);
    SelectedIsSuffix(e, from, limit);
    CutDecides(id, e, from, limit, run);
  }

  lemma CutDecides(id: string, e: StatusEntry, from: int, limit: int, run: JobRun)
    requires EntryOk(id, e)
    ensures run in e.history[QueryCut(e, from, limit)..] <==>
      && run in e.history
      && (from > 0 ==> run.sequence >= from)
      && (limit > 0 ==> run.sequence > e.status.runs - limit)
  {
    var cut := QueryCut(e, from, limit);
    if run in e.history {
      var i :| 0 <= i < |e.history| && e.history[i] == run;
      assert run.sequence == e.lastSequence - |e.history| + 1 + i;
      if i >= cut {
        assert e.history[cut..][i - cut] == run;
      } else {
        forall k | 0 <= k < |e.history[cut..]|
          ensures e.history[cut..][k] != run
        {
          assert e.history[cut..][k] == e.history[cut + k];
        }
      }
    }
  }
}
