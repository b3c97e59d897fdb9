/** The stored results of the main branch, and the history read back from them. */
module RunHistory {
  import opened Results
  import opened Sorting
  import opened Comparison
  import opened ComparisonStore

  /** A row of `bench_runs`. */
  datatype BenchRun = BenchRun(id: RunId, created: int)

  /** A row of `bench_results`. */
  datatype ResultRow = ResultRow(runId: RunId, result: BenchResult)

  datatype HistoryTables = HistoryTables(runs: seq<BenchRun>, results: seq<ResultRow>)

  datatype RunCall = RunCall(id: RunId, created: int, results: seq<BenchResult>)

  function RowsFor(id: RunId, results: seq<BenchResult>): seq<ResultRow> {
    seq(|results|, i requires 0 <= i < |results| => ResultRow(id, results[i]))
  }

  function StoreRun(t: HistoryTables, call: RunCall): HistoryTables {
    HistoryTables(t.runs + [BenchRun(call.id, call.created)], t.results + RowsFor(call.id, call.results))
  }

  predicate EarlierFirst(a: BenchRun, b: BenchRun) { a.created <= b.created }

  /** The runs created after the cutoff. */
  function Recent(runs: seq<BenchRun>, cutoff: int): seq<BenchRun> {
    if runs == [] then []
    else (if runs[0].created > cutoff then [runs[0]] else []) + Recent(runs[1..], cutoff)
  }

  function ResultsOf(rows: seq<ResultRow>, id: RunId): seq<BenchResult> {
    if rows == [] then []
    else (if rows[0].runId == id then [rows[0].result] else []) + ResultsOf(rows[1..], id)
  }

  /** The results of these runs, run by run. */
  function Joined(runs: seq<BenchRun>, rows: seq<ResultRow>): seq<BenchResult> {
    if runs == [] then [] else ResultsOf(rows, runs[0].id) + Joined(runs[1..], rows)
  }

  /** The join of the recent runs, ordered by creation, with their results. */
  function History(t: HistoryTables, cutoff: int): seq<BenchResult> {
    Joined(Sort(Recent(t.runs, cutoff), EarlierFirst), t.results)
  }

  function StoreRuns(calls: seq<RunCall>): HistoryTables {
    if calls == [] then HistoryTables([], []) else StoreRun(StoreRuns(calls[..|calls| - 1]), calls[|calls| - 1])
  }

  /** Fresh run ids, stored in the order of their timestamps. */
  ghost predicate InStoreOrder(calls: seq<RunCall>) {
    forall i, j :: 0 <= i < j < |calls| ==> calls[i].id != calls[j].id && calls[i].created <= calls[j].created
  }

  /** What the history should be: everything stored after the cutoff, in the order it was stored. */
  function RecentResults(calls: seq<RunCall>, cutoff: int): seq<BenchResult> {
    if calls == [] then [] else
      var last := calls[|calls| - 1];
      RecentResults(calls[..|calls| - 1], cutoff) + (if last.created > cutoff then last.results else [])
  }

  lemma {:induction false} RecentConcat(a: seq<BenchRun>, b: seq<BenchRun>, cutoff: int)
    ensures Recent(a + b, cutoff) == Recent(a, cutoff) + Recent(b, cutoff)
  {
    if a == [] {
      assert a + b == b;
    } else {
      assert (a + b)[1..] == a[1..] + b;
      RecentConcat(a[1..], b, cutoff);
    }
  }

  lemma {:induction false} ResultsOfConcat(a: seq<ResultRow>, b: seq<ResultRow>, id: RunId)
    ensures ResultsOf(a + b, id) == ResultsOf(a, id) + ResultsOf(b, id)
  {
    if a == [] {
      assert a + b == b;
    } else {
      assert (a + b)[1..] == a[1..] + b;
      ResultsOfConcat(a[1..], b, id);
    }
  }

  lemma {:induction false} ResultsOfRowsFor(of: RunId, results: seq<BenchResult>, id: RunId)
    ensures ResultsOf(RowsFor(of, results), id) == if of == id then results else []
  {
    if results != [] {
      assert RowsFor(of, results)[1..] == RowsFor(of, results[1..]);
      ResultsOfRowsFor(of, results[1..], id);
    }
  }

  lemma {:induction false} JoinedConcat(a: seq<BenchRun>, b: seq<BenchRun>, rows: seq<ResultRow>)
    ensures Joined(a + b, rows) == Joined(a, rows) + Joined(b, rows)
  {
    if a == [] {
      assert a + b == b;
    } else {
      assert (a + b)[1..] == a[1..] + b;
      JoinedConcat(a[1..], b, rows);
    }
  }

  lemma {:induction false} ForeignRows(rows: seq<ResultRow>, of: RunId, results: seq<BenchResult>, id: RunId)
    requires of != id
    ensures ResultsOf(rows + RowsFor(of, results), id) == ResultsOf(rows, id)
  {
    ResultsOfConcat(rows, RowsFor(of, results), id);
    ResultsOfRowsFor(of, results, id);
  }

  /** Rows of a run that is not among `runs` do not matter. */
  lemma {:induction false} JoinedIgnores(runs: seq<BenchRun>, rows: seq<ResultRow>, id: RunId,
                                         results: seq<BenchResult>)
    requires forall i :: 0 <= i < |runs| ==> runs[i].id != id
    ensures Joined(runs, rows + RowsFor(id, results)) == Joined(runs, rows)
  {
    if runs != [] {
      ForeignRows(rows, id, results, runs[0].id);
      JoinedIgnores(runs[1..], rows, id, results);
    }
  }

  lemma {:induction false} RecentAreRuns(runs: seq<BenchRun>, cutoff: int)
    ensures forall run :: run in Recent(runs, cutoff) ==> run in runs
  {
    if runs != [] {
      RecentAreRuns(runs[1..], cutoff);
    }
  }

  lemma {:induction false} StoredRunsMatch(calls: seq<RunCall>)
    ensures var t := StoreRuns(calls);
            && |t.runs| == |calls|
            && forall i :: 0 <= i < |calls| ==> t.runs[i] == BenchRun(calls[i].id, calls[i].created)
  {
    if calls != [] {
      StoredRunsMatch(calls[..|calls| - 1]);
    }
  }

  lemma {:induction false} NoRowsYet(calls: seq<RunCall>, id: RunId)
    requires forall i :: 0 <= i < |calls| ==> calls[i].id != id
    ensures ResultsOf(StoreRuns(calls).results, id) == []
  {
    if calls != [] {
      var n := |calls| - 1;
      NoRowsYet(calls[..n], id);
      ResultsOfConcat(StoreRuns(calls[..n]).results, RowsFor(calls[n].id, calls[n].results), id);
      ResultsOfRowsFor(calls[n].id, calls[n].results, id);
    }
  }

  lemma {:induction false} RecentHaveOtherIds(calls: seq<RunCall>, cutoff: int, id: RunId)
    requires forall i :: 0 <= i < |calls| ==> calls[i].id != id
    ensures forall run :: run in Recent(StoreRuns(calls).runs, cutoff) ==> run.id != id
  {
    StoredRunsMatch(calls);
    var runs := StoreRuns(calls).runs;
    RecentAreRuns(runs, cutoff);
    forall run | run in runs ensures run.id != id {
      var i :| 0 <= i < |runs| && runs[i] == run;
    }
  }

  lemma {:induction false} JoinOfLast(calls: seq<RunCall>, last: RunCall)
    requires forall i :: 0 <= i < |calls| ==> calls[i].id != last.id
    ensures Joined([BenchRun(last.id, last.created)], StoreRun(StoreRuns(calls), last).results) == last.results
  {
    var rows := StoreRuns(calls).results;
    NoRowsYet(calls, last.id);
    ResultsOfConcat(rows, RowsFor(last.id, last.results), last.id);
    ResultsOfRowsFor(last.id, last.results, last.id);
    assert Joined([], rows + RowsFor(last.id, last.results)) == [];
  }

  /** Adding a run appends its results to the join of the recent runs. */
  lemma {:induction false} JoinGrows(calls: seq<RunCall>, last: RunCall, cutoff: int)
    requires forall i :: 0 <= i < |calls| ==> calls[i].id != last.id
    ensures var t, t' := StoreRuns(calls), StoreRun(StoreRuns(calls), last);
            Joined(Recent(t'.runs, cutoff), t'.results) ==
            Joined(Recent(t.runs, cutoff), t.results) + (if last.created > cutoff then last.results else [])
  {
    var t := StoreRuns(calls);
    var run := BenchRun(last.id, last.created);
    RecentConcat(t.runs, [run], cutoff);
    JoinedConcat(Recent(t.runs, cutoff), Recent([run], cutoff), t.results + RowsFor(last.id, last.results));
    RecentHaveOtherIds(calls, cutoff, last.id);
    JoinedIgnores(Recent(t.runs, cutoff), t.results, last.id, last.results);
    JoinOfLast(calls, last);
    assert Recent([run], cutoff) == if last.created > cutoff then [run] else [];
  }

  lemma {:induction false} JoinIsRecentResults(calls: seq<RunCall>, cutoff: int)
    requires InStoreOrder(calls)
    ensures Joined(Recent(StoreRuns(calls).runs, cutoff), StoreRuns(calls).results) == RecentResults(calls, cutoff)
  {
    if calls != [] {
      var n := |calls| - 1;
      JoinIsRecentResults(calls[..n], cutoff);
      JoinGrows(calls[..n], calls[n], cutoff);
    }
  }

  lemma {:induction false} SortOfSorted(runs: seq<BenchRun>)
    requires SortedBy(runs, EarlierFirst)
    ensures Sort(runs, EarlierFirst) == runs
  {
    if runs != [] {
      SortOfSorted(runs[1..]);
    }
  }

  lemma {:induction false} RecentSorted(runs: seq<BenchRun>, cutoff: int)
    requires SortedBy(runs, EarlierFirst)
    ensures SortedBy(Recent(runs, cutoff), EarlierFirst)
  {
    if runs != [] {
      RecentSorted(runs[1..], cutoff);
      RecentAreRuns(runs[1..], cutoff);
      forall run | run in runs[1..] ensures EarlierFirst(runs[0], run) {
        var i :| 1 <= i < |runs| && runs[i] == run;
      }
    }
  }

  /**
   The history read back is exactly what was stored after the cutoff: all of it, nothing
   else, and in the order in which it was stored.
   */
  lemma {:induction false} HistoryRoundTrip(calls: seq<RunCall>, cutoff: int)
    requires InStoreOrder(calls)
    ensures History(StoreRuns(calls), cutoff) == RecentResults(calls, cutoff)
  {
    StoredRunsMatch(calls);
    RecentSorted(StoreRuns(calls).runs, cutoff);
    SortOfSorted(Recent(StoreRuns(calls).runs, cutoff));
    JoinIsRecentResults(calls, cutoff);
  }

  // ----- Without assuming an order of the join -----

  function RecentIds(runs: seq<BenchRun>, cutoff: int): set<RunId> {
    set run | run in runs && run.created > cutoff :: run.id
  }

  /** The results of these runs, in table order. */
  function ResultsIn(rows: seq<ResultRow>, ids: set<RunId>): seq<BenchResult> {
    if rows == [] then []
    else (if rows[0].runId in ids then [rows[0].result] else []) + ResultsIn(rows[1..], ids)
  }

  /** What the query promises: every result of a recent run, as often as it is stored, in any order. */
  ghost predicate MayAnswer(t: HistoryTables, cutoff: int, out: seq<BenchResult>) {
    multiset(out) == multiset(ResultsIn(t.results, RecentIds(t.runs, cutoff)))
  }

  ghost predicate FreshRuns(calls: seq<RunCall>) {
    forall i, j :: 0 <= i < j < |calls| ==> calls[i].id != calls[j].id
  }

  lemma {:induction false} ResultsInConcat(a: seq<ResultRow>, b: seq<ResultRow>, ids: set<RunId>)
    ensures ResultsIn(a + b, ids) == ResultsIn(a, ids) + ResultsIn(b, ids)
  {
    if a == [] {
      assert a + b == b;
    } else {
      assert (a + b)[0] == a[0] && (a + b)[1..] == a[1..] + b;
      ResultsInConcat(a[1..], b, ids);
      var head := if a[0].runId in ids then [a[0].result] else [];
      assert head + (ResultsIn(a[1..], ids) + ResultsIn(b, ids)) == head + ResultsIn(a[1..], ids) + ResultsIn(b, ids);
    }
  }

  lemma {:induction false} ResultsInRows(id: RunId, results: seq<BenchResult>, ids: set<RunId>)
    ensures ResultsIn(RowsFor(id, results), ids) == if id in ids then results else []
  {
    if results != [] {
      assert RowsFor(id, results)[1..] == RowsFor(id, results[1..]);
      ResultsInRows(id, results[1..], ids);
    }
  }

  lemma {:induction false} ResultsInSame(rows: seq<ResultRow>, ids: set<RunId>, others: set<RunId>)
    requires forall row :: row in rows ==> (row.runId in ids <==> row.runId in others)
    ensures ResultsIn(rows, ids) == ResultsIn(rows, others)
  {
    if rows != [] {
      ResultsInSame(rows[1..], ids, others);
    }
  }

  lemma {:induction false} StoredRowsHaveRuns(calls: seq<RunCall>)
    ensures forall row :: row in StoreRuns(calls).results ==> exists i :: 0 <= i < |calls| && calls[i].id == row.runId
  {
    if calls != [] {
      var n := |calls| - 1;
      StoredRowsHaveRuns(calls[..n]);
      forall row | row in StoreRuns(calls).results ensures exists i :: 0 <= i < |calls| && calls[i].id == row.runId {
        if row in StoreRuns(calls[..n]).results {
          var i :| 0 <= i < n && calls[..n][i].id == row.runId;
          assert calls[i].id == row.runId;
        } else {
          assert row in RowsFor(calls[n].id, calls[n].results);
          assert calls[n].id == row.runId;
        }
      }
    }
  }

  lemma {:induction false} RecentIdsGrow(calls: seq<RunCall>, last: RunCall, cutoff: int)
    ensures RecentIds(StoreRun(StoreRuns(calls), last).runs, cutoff) ==
            RecentIds(StoreRuns(calls).runs, cutoff) + (if last.created > cutoff then {last.id} else {})
  {
    var runs, run := StoreRuns(calls).runs, BenchRun(last.id, last.created);
    assert forall r :: r in runs + [run] <==> r in runs || r == run;
    assert run in runs + [run];
  }

  lemma {:induction false} RecentIdsAreStored(calls: seq<RunCall>, cutoff: int, id: RunId)
    requires id in RecentIds(StoreRuns(calls).runs, cutoff)
    ensures exists i :: 0 <= i < |calls| && calls[i].id == id
  {
    StoredRunsMatch(calls);
    var runs := StoreRuns(calls).runs;
    var run :| run in runs && run.created > cutoff && run.id == id;
    var i :| 0 <= i < |runs| && runs[i] == run;
    assert calls[i].id == id;
  }

  lemma {:induction false} TableHoldsRecentResults(calls: seq<RunCall>, cutoff: int)
    requires FreshRuns(calls)
    ensures var t := StoreRuns(calls);
            ResultsIn(t.results, RecentIds(t.runs, cutoff)) == RecentResults(calls, cutoff)
  {
    if calls != [] {
      var n := |calls| - 1;
      var earlier, last := calls[..n], calls[n];
      var t := StoreRuns(earlier);
      var before, after := RecentIds(t.runs, cutoff), RecentIds(StoreRuns(calls).runs, cutoff);
      TableHoldsRecentResults(earlier, cutoff);
      RecentIdsGrow(earlier, last, cutoff);
      StoredRowsHaveRuns(earlier);
      ResultsInSame(t.results, before, after);
      ResultsInConcat(t.results, RowsFor(last.id, last.results), after);
      ResultsInRows(last.id, last.results, after);
      if last.id in before {
        RecentIdsAreStored(earlier, cutoff, last.id);
      }
    }
  }

  /**
   Whatever the order in which the query returns its rows, and whatever the timestamps of the
   runs: an answer holds exactly the results stored after the cutoff, each as often as it was
   stored, and nothing else.
   */
  lemma {:induction false} HistoryContent(calls: seq<RunCall>, cutoff: int, out: seq<BenchResult>)
    requires FreshRuns(calls)
    ensures MayAnswer(StoreRuns(calls), cutoff, out) <==> multiset(out) == multiset(RecentResults(calls, cutoff))
  {
    TableHoldsRecentResults(calls, cutoff);
  }

  // ----- Runs stored in any order -----

  function RunsOf(calls: seq<RunCall>): seq<BenchRun> {
    seq(|calls|, i requires 0 <= i < |calls| => BenchRun(calls[i].id, calls[i].created))
  }

  lemma {:induction false} StoredResults(calls: seq<RunCall>, i: nat)
    requires FreshRuns(calls) && i < |calls|
    ensures ResultsOf(StoreRuns(calls).results, calls[i].id) == calls[i].results
  {
    var n := |calls| - 1;
    ResultsOfConcat(StoreRuns(calls[..n]).results, RowsFor(calls[n].id, calls[n].results), calls[i].id);
    ResultsOfRowsFor(calls[n].id, calls[n].results, calls[i].id);
    if i < n {
      StoredResults(calls[..n], i);
    } else {
      NoRowsYet(calls[..n], calls[n].id);
    }
  }

  /** Joining the recent ones of some stored runs gives their results, in the order of the runs. */
  lemma {:induction false} JoinedRuns(calls: seq<RunCall>, ordered: seq<RunCall>, cutoff: int)
    requires FreshRuns(calls) && forall call :: call in ordered ==> call in calls
    ensures Joined(Recent(RunsOf(ordered), cutoff), StoreRuns(calls).results) == RecentResults(ordered, cutoff)
  {
    if ordered != [] {
      var n := |ordered| - 1;
      var rows, last := StoreRuns(calls).results, ordered[n];
      var run := BenchRun(last.id, last.created);
      JoinedRuns(calls, ordered[..n], cutoff);
      assert RunsOf(ordered) == RunsOf(ordered[..n]) + [run];
      RecentConcat(RunsOf(ordered[..n]), [run], cutoff);
      JoinedConcat(Recent(RunsOf(ordered[..n]), cutoff), Recent([run], cutoff), rows);
      assert last in ordered;
      var i :| 0 <= i < |calls| && calls[i] == last;
      StoredResults(calls, i);
      assert Joined([run], rows) == ResultsOf(rows, run.id) + Joined([], rows);
      assert Recent([run], cutoff) == if last.created > cutoff then [run] else [];
    }
  }

  lemma SameElements<T>(a: seq<T>, b: seq<T>)
    requires NoRepeats(a) && NoRepeats(b) && forall x :: x in a <==> x in b
    ensures multiset(a) == multiset(b)
  {
    forall x ensures multiset(a)[x] == multiset(b)[x] {
      OnceOnly(a, x);
      OnceOnly(b, x);
      assert (x in multiset(a) <==> x in a) && (x in multiset(b) <==> x in b);
    }
  }

  lemma RunsOfElements(a: seq<RunCall>, b: seq<RunCall>, run: BenchRun)
    requires forall call :: call in a ==> call in b
    requires run in RunsOf(a)
    ensures run in RunsOf(b)
  {
    var i :| 0 <= i < |a| && RunsOf(a)[i] == run;
    assert a[i] in a;
    var j :| 0 <= j < |b| && b[j] == a[i];
    assert RunsOf(b)[j] == run;
  }

  lemma RunsOfPermuted(a: seq<RunCall>, b: seq<RunCall>)
    requires forall call :: call in a <==> call in b
    requires NoRepeats(RunsOf(a)) && NoRepeats(RunsOf(b))
    ensures multiset(RunsOf(a)) == multiset(RunsOf(b))
  {
    forall run ensures run in RunsOf(a) <==> run in RunsOf(b) {
      if run in RunsOf(a) {
        RunsOfElements(a, b, run);
      }
      if run in RunsOf(b) {
        RunsOfElements(b, a, run);
      }
    }
    SameElements(RunsOf(a), RunsOf(b));
  }

  lemma {:induction false} RecentCounts(runs: seq<BenchRun>, cutoff: int, run: BenchRun)
    ensures multiset(Recent(runs, cutoff))[run] == if run.created > cutoff then multiset(runs)[run] else 0
  {
    if runs != [] {
      RecentCounts(runs[1..], cutoff, run);
      assert runs == [runs[0]] + runs[1..];
    }
  }

  lemma {:induction false} RecentPermuted(a: seq<BenchRun>, b: seq<BenchRun>, cutoff: int)
    requires multiset(a) == multiset(b)
    ensures multiset(Recent(a, cutoff)) == multiset(Recent(b, cutoff))
  {
    forall run ensures multiset(Recent(a, cutoff))[run] == multiset(Recent(b, cutoff))[run] {
      RecentCounts(a, cutoff, run);
      RecentCounts(b, cutoff, run);
    }
  }

  lemma DistinctTimesSeparate(calls: seq<RunCall>, runs: seq<BenchRun>)
    requires forall i, j :: 0 <= i < j < |calls| ==> calls[i].created < calls[j].created
    requires forall run :: run in runs ==> run in RunsOf(calls)
    ensures Separates(EarlierFirst, runs)
  {
    forall i, j | 0 <= i < |runs| && 0 <= j < |runs| && runs[i].created == runs[j].created ensures runs[i] == runs[j] {
      assert runs[i] in runs && runs[j] in runs;
      var p :| 0 <= p < |calls| && RunsOf(calls)[p] == runs[i];
      var q :| 0 <= q < |calls| && RunsOf(calls)[q] == runs[j];
    }
  }

  ghost predicate ByTime(calls: seq<RunCall>) {
    forall i, j :: 0 <= i < j < |calls| ==> calls[i].created < calls[j].created
  }

  lemma NoRunTwice(calls: seq<RunCall>)
    requires FreshRuns(calls) || ByTime(calls)
    ensures NoRepeats(RunsOf(calls))
  {
  }

  lemma {:induction false} SortedRecent(runs: seq<BenchRun>, ordered: seq<RunCall>, cutoff: int)
    requires multiset(runs) == multiset(RunsOf(ordered)) && ByTime(ordered)
    ensures Sort(Recent(runs, cutoff), EarlierFirst) == Recent(RunsOf(ordered), cutoff)
  {
    var expected, recent := Recent(RunsOf(ordered), cutoff), Recent(runs, cutoff);
    RecentPermuted(runs, RunsOf(ordered), cutoff);
    SortPermutes(recent, EarlierFirst);
    SortSorts(recent, EarlierFirst);
    RecentSorted(RunsOf(ordered), cutoff);
    RecentAreRuns(RunsOf(ordered), cutoff);
    DistinctTimesSeparate(ordered, expected);
    SortedUnique(expected, Sort(recent, EarlierFirst), EarlierFirst);
  }

  /**
   Runs stored in any order: the history has them in the order of their timestamps. `ordered`
   has the same runs, arranged by strictly increasing timestamps.
   */
  lemma {:induction false} HistoryInCreationOrder(calls: seq<RunCall>, ordered: seq<RunCall>, cutoff: int)
    requires FreshRuns(calls) && ByTime(ordered) && forall call :: call in ordered <==> call in calls
    ensures History(StoreRuns(calls), cutoff) == RecentResults(ordered, cutoff)
  {
    StoredRunsMatch(calls);
    assert StoreRuns(calls).runs == RunsOf(calls);
    NoRunTwice(calls);
    NoRunTwice(ordered);
    RunsOfPermuted(calls, ordered);
    SortedRecent(RunsOf(calls), ordered, cutoff);
    JoinedRuns(calls, ordered, cutoff);
  }
}
