/** The tables of stored comparisons: what a later load returns. */
module ComparisonStore {
  import opened Prelude
  import opened Results
  import opened Thresholds
  import opened Comparison

  datatype RunId = RunId(uuid: nat)

  /** A row of `comparison_runs`; the missing scenarios are JSON arrays, or NULL when there are none. */
  datatype ComparisonRun = ComparisonRun(
    id: RunId, baselineCommit: string, candidateCommit: string,
    icountMissing: Option<seq<string>>, walltimeMissing: Option<seq<string>>, memoryMissing: Option<seq<string>>)
  {
    function Missing(kind: ScenarioKind): Option<seq<string>> {
      match kind
      case Icount => icountMissing
      case Walltime => walltimeMissing
      case Memory => memoryMissing
    }

    predicate For(baselineCommit: string, candidateCommit: string) {
      this.baselineCommit == baselineCommit && this.candidateCommit == candidateCommit
    }
  }

  /** A row of `scenario_diffs`. */
  datatype DiffRow = DiffRow(runId: RunId, diff: ScenarioDiff)

  datatype Tables = Tables(runs: seq<ComparisonRun>, diffs: seq<DiffRow>)

  function ToJsonArray(values: seq<string>): Option<seq<string>> {
    if values == [] then None else Some(values)
  }

  function FromJsonArray(column: Option<seq<string>>): seq<string> {
    if column.None? then [] else column.value
  }

  function AllDiffs(result: ComparisonResult): seq<ScenarioDiff> {
    result.icount.diffs + result.walltime.diffs + result.memory.diffs
  }

  function Rows(id: RunId, diffs: seq<ScenarioDiff>): seq<DiffRow> {
    seq(|diffs|, i requires 0 <= i < |diffs| => DiffRow(id, diffs[i]))
  }

  function RunRow(id: RunId, baselineCommit: string, candidateCommit: string, result: ComparisonResult): ComparisonRun {
    ComparisonRun(id, baselineCommit, candidateCommit, ToJsonArray(result.icount.missing),
                  ToJsonArray(result.walltime.missing), ToJsonArray(result.memory.missing))
  }

  datatype StoreCall = StoreCall(id: RunId, baselineCommit: string, candidateCommit: string, result: ComparisonResult)
  {
    function Row(): ComparisonRun { RunRow(id, baselineCommit, candidateCommit, result) }
  }

  function Store(t: Tables, call: StoreCall): Tables {
    Tables(t.runs + [call.Row()], t.diffs + Rows(call.id, AllDiffs(call.result)))
  }

  /** The diffs of one run and kind, in table order. */
  function DiffsOf(rows: seq<DiffRow>, id: RunId, kind: ScenarioKind): seq<ScenarioDiff> {
    if rows == [] then [] else
      var rest := DiffsOf(rows[..|rows| - 1], id, kind);
      var last := rows[|rows| - 1];
      if last.runId == id && last.diff.kind == kind then rest + [last.diff] else rest
  }

  /** `sub` is what the database may answer for one kind of a run: diffs in any order, no memory details. */
  ghost predicate LoadsKind(t: Tables, run: ComparisonRun, kind: ScenarioKind, sub: ComparisonSubResult) {
    && sub.missing == FromJsonArray(run.Missing(kind))
    && multiset(sub.diffs) == multiset(DiffsOf(t.diffs, run.id, kind))
    && sub.memoryDetails == None
  }

  ghost predicate LoadsRun(t: Tables, run: ComparisonRun, result: ComparisonResult) {
    forall kind :: LoadsKind(t, run, kind, result.Sub(kind))
  }

  /** `out` is a possible answer: one of the matching runs, the query does not say which. */
  ghost predicate Loads(t: Tables, baselineCommit: string, candidateCommit: string, out: Option<ComparisonResult>) {
    match out
    case None => forall run :: run in t.runs ==> !run.For(baselineCommit, candidateCommit)
    case Some(result) =>
      exists run :: run in t.runs && run.For(baselineCommit, candidateCommit) && LoadsRun(t, run, result)
  }

  // ----- Sequences of stores -----

  function StoreAll(calls: seq<StoreCall>): Tables {
    if calls == [] then Tables([], []) else Store(StoreAll(calls[..|calls| - 1]), calls[|calls| - 1])
  }

  ghost predicate FreshIds(calls: seq<StoreCall>) {
    forall i, j :: 0 <= i < j < |calls| ==> calls[i].id != calls[j].id
  }

  ghost predicate DistinctPairs(calls: seq<StoreCall>) {
    forall i, j :: 0 <= i < j < |calls| ==>
      calls[i].baselineCommit != calls[j].baselineCommit || calls[i].candidateCommit != calls[j].candidateCommit
  }

  function KindOnly(diffs: seq<ScenarioDiff>, kind: ScenarioKind): seq<ScenarioDiff> {
    if diffs == [] then [] else
      var rest := KindOnly(diffs[..|diffs| - 1], kind);
      var last := diffs[|diffs| - 1];
      if last.kind == kind then rest + [last] else rest
  }

  lemma {:induction false} DiffsOfConcat(a: seq<DiffRow>, b: seq<DiffRow>, id: RunId, kind: ScenarioKind)
    ensures DiffsOf(a + b, id, kind) == DiffsOf(a, id, kind) + DiffsOf(b, id, kind)
  {
    if b == [] {
      assert a + b == a;
    } else {
      assert (a + b)[..|a + b| - 1] == a + b[..|b| - 1];
      DiffsOfConcat(a, b[..|b| - 1], id, kind);
    }
  }

  lemma {:induction false} DiffsOfRows(of: RunId, diffs: seq<ScenarioDiff>, id: RunId, kind: ScenarioKind)
    ensures DiffsOf(Rows(of, diffs), id, kind) == if of == id then KindOnly(diffs, kind) else []
  {
    if diffs != [] {
      var n := |diffs| - 1;
      assert Rows(of, diffs)[..n] == Rows(of, diffs[..n]);
      DiffsOfRows(of, diffs[..n], id, kind);
    }
  }

  lemma {:induction false} StoredRuns(calls: seq<StoreCall>)
    ensures |StoreAll(calls).runs| == |calls|
    ensures forall i :: 0 <= i < |calls| ==> StoreAll(calls).runs[i] == calls[i].Row()
  {
    if calls != [] {
      StoredRuns(calls[..|calls| - 1]);
    }
  }

  /** What the last store adds to the rows found for a run. */
  lemma LastStoreAdds(calls: seq<StoreCall>, id: RunId, kind: ScenarioKind)
    requires calls != []
    ensures var n := |calls| - 1;
            DiffsOf(StoreAll(calls).diffs, id, kind) ==
            DiffsOf(StoreAll(calls[..n]).diffs, id, kind)
            + (if calls[n].id == id then KindOnly(AllDiffs(calls[n].result), kind) else [])
  {
    var n := |calls| - 1;
    DiffsOfConcat(StoreAll(calls[..n]).diffs, Rows(calls[n].id, AllDiffs(calls[n].result)), id, kind);
    DiffsOfRows(calls[n].id, AllDiffs(calls[n].result), id, kind);
  }

  lemma {:induction false} NoDiffsYet(calls: seq<StoreCall>, id: RunId, kind: ScenarioKind)
    requires forall i :: 0 <= i < |calls| ==> calls[i].id != id
    ensures DiffsOf(StoreAll(calls).diffs, id, kind) == []
  {
    if calls != [] {
      LastStoreAdds(calls, id, kind);
      NoDiffsYet(calls[..|calls| - 1], id, kind);
    }
  }

  /** The rows found for a stored run are its own diffs of that kind, whatever was stored before or after. */
  lemma {:induction false} StoredDiffs(calls: seq<StoreCall>, i: nat, kind: ScenarioKind)
    requires FreshIds(calls) && i < |calls|
    ensures DiffsOf(StoreAll(calls).diffs, calls[i].id, kind) == KindOnly(AllDiffs(calls[i].result), kind)
  {
    var n := |calls| - 1;
    LastStoreAdds(calls, calls[i].id, kind);
    if i < n {
      StoredDiffs(calls[..n], i, kind);
    } else {
      NoDiffsYet(calls[..n], calls[n].id, kind);
    }
  }

  /** Each sub-list holds diffs of its own kind only, as `CompareRefs` produces them. */
  ghost predicate SingleKinds(result: ComparisonResult) {
    forall kind, d :: d in result.Sub(kind).diffs ==> d.kind == kind
  }

  /** A loaded result agrees with a stored one: missing lists equal, diffs equal up to order. */
  ghost predicate SameComparison(loaded: ComparisonResult, stored: ComparisonResult) {
    forall kind ::
      && loaded.Sub(kind).missing == stored.Sub(kind).missing
      && multiset(loaded.Sub(kind).diffs) == multiset(stored.Sub(kind).diffs)
  }

  lemma {:induction false} KindOnlyConcat(a: seq<ScenarioDiff>, b: seq<ScenarioDiff>, kind: ScenarioKind)
    ensures KindOnly(a + b, kind) == KindOnly(a, kind) + KindOnly(b, kind)
  {
    if b == [] {
      assert a + b == a;
    } else {
      assert (a + b)[..|a + b| - 1] == a + b[..|b| - 1];
      KindOnlyConcat(a, b[..|b| - 1], kind);
    }
  }

  lemma {:induction false} KindOnlyOfOne(diffs: seq<ScenarioDiff>, of: ScenarioKind, kind: ScenarioKind)
    requires forall d :: d in diffs ==> d.kind == of
    ensures KindOnly(diffs, kind) == if of == kind then diffs else []
  {
    if diffs != [] {
      KindOnlyOfOne(diffs[..|diffs| - 1], of, kind);
      assert diffs == diffs[..|diffs| - 1] + [diffs[|diffs| - 1]];
    }
  }

  lemma {:induction false} KindOnlyKinds(diffs: seq<ScenarioDiff>, kind: ScenarioKind)
    ensures forall d :: d in KindOnly(diffs, kind) ==> d.kind == kind
  {
    if diffs != [] {
      KindOnlyKinds(diffs[..|diffs| - 1], kind);
    }
  }

  lemma SubHasKind(result: ComparisonResult, kind: ScenarioKind)
    requires SingleKinds(result)
    ensures forall d :: d in result.Sub(kind).diffs ==> d.kind == kind
  {
  }

  lemma {:induction false} OwnKindOnly(result: ComparisonResult, kind: ScenarioKind)
    requires SingleKinds(result)
    ensures KindOnly(AllDiffs(result), kind) == result.Sub(kind).diffs
  {
    SubHasKind(result, Icount);
    SubHasKind(result, Walltime);
    SubHasKind(result, Memory);
    KindOnlyThree(result.icount.diffs, result.walltime.diffs, result.memory.diffs, kind);
  }

  lemma {:induction false} KindOnlyThree(icount: seq<ScenarioDiff>, walltime: seq<ScenarioDiff>,
                                         memory: seq<ScenarioDiff>, kind: ScenarioKind)
    requires forall d :: d in icount ==> d.kind == Icount
    requires forall d :: d in walltime ==> d.kind == Walltime
    requires forall d :: d in memory ==> d.kind == Memory
    ensures KindOnly(icount + walltime + memory, kind) ==
            match kind case Icount => icount case Walltime => walltime case Memory => memory
  {
    KindOnlyConcat(icount + walltime, memory, kind);
    KindOnlyConcat(icount, walltime, kind);
    KindOnlyOfOne(icount, Icount, kind);
    KindOnlyOfOne(walltime, Walltime, kind);
    KindOnlyOfOne(memory, Memory, kind);
  }

  lemma {:induction false} LoadedFromCall(calls: seq<StoreCall>, i: nat, loaded: ComparisonResult)
    requires FreshIds(calls) && i < |calls| && LoadsRun(StoreAll(calls), calls[i].Row(), loaded)
    ensures forall kind ::
              && loaded.Sub(kind).memoryDetails == None
              && loaded.Sub(kind).missing == calls[i].result.Sub(kind).missing
              && multiset(loaded.Sub(kind).diffs) == multiset(KindOnly(AllDiffs(calls[i].result), kind))
    ensures SameComparison(loaded, calls[i].result) <==> SingleKinds(calls[i].result)
  {
    var result := calls[i].result;
    forall kind
      ensures loaded.Sub(kind).memoryDetails == None
      ensures loaded.Sub(kind).missing == result.Sub(kind).missing
      ensures multiset(loaded.Sub(kind).diffs) == multiset(KindOnly(AllDiffs(result), kind))
    {
      assert LoadsKind(StoreAll(calls), calls[i].Row(), kind, loaded.Sub(kind));
      StoredDiffs(calls, i, kind);
    }
    if SingleKinds(result) {
      forall kind ensures multiset(loaded.Sub(kind).diffs) == multiset(result.Sub(kind).diffs) {
        OwnKindOnly(result, kind);
      }
    }
    if SameComparison(loaded, result) {
      forall kind, d | d in result.Sub(kind).diffs ensures d.kind == kind {
        assert d in multiset(result.Sub(kind).diffs);
        assert d in multiset(KindOnly(AllDiffs(result), kind));
        KindOnlyKinds(AllDiffs(result), kind);
      }
    }
  }

  /**
   Round trip with frame. After any sequence of stores under distinct commit pairs, loading
   the i-th pair gives, per kind, the stored missing list and all stored diffs of that kind;
   that is the stored comparison (memory details dropped) exactly when each stored sub-list
   had a single kind. A pair that was never stored loads as nothing.
   */
  lemma {:induction false} RoundTrip(calls: seq<StoreCall>, i: nat, out: Option<ComparisonResult>)
    requires FreshIds(calls) && DistinctPairs(calls) && i < |calls|
    requires Loads(StoreAll(calls), calls[i].baselineCommit, calls[i].candidateCommit, out)
    ensures out.Some?
    ensures forall kind ::
              && out.value.Sub(kind).memoryDetails == None
              && out.value.Sub(kind).missing == calls[i].result.Sub(kind).missing
              && multiset(out.value.Sub(kind).diffs) == multiset(KindOnly(AllDiffs(calls[i].result), kind))
    ensures SameComparison(out.value, calls[i].result) <==> SingleKinds(calls[i].result)
  {
    var t := StoreAll(calls);
    StoredRuns(calls);
    assert t.runs[i].For(calls[i].baselineCommit, calls[i].candidateCommit);
    var run :| run in t.runs && run.For(calls[i].baselineCommit, calls[i].candidateCommit)
                && LoadsRun(t, run, out.value);
    var j :| 0 <= j < |t.runs| && t.runs[j] == run;
    assert j == i;
    LoadedFromCall(calls, i, out.value);
  }

  lemma {:induction false} UnknownPairLoadsNothing(calls: seq<StoreCall>, baselineCommit: string,
                                                   candidateCommit: string, out: Option<ComparisonResult>)
    requires forall i :: 0 <= i < |calls| ==>
               calls[i].baselineCommit != baselineCommit || calls[i].candidateCommit != candidateCommit
    ensures Loads(StoreAll(calls), baselineCommit, candidateCommit, out) <==> out == None
  {
    StoredRuns(calls);
    forall run | run in StoreAll(calls).runs ensures !run.For(baselineCommit, candidateCommit) {
      var i :| 0 <= i < |calls| && StoreAll(calls).runs[i] == run;
    }
  }

  /** Later stores change no answer for an earlier pair. */
  lemma {:induction false} LaterStoresDoNotMatter(calls: seq<StoreCall>, n: nat, i: nat,
                                                  out: Option<ComparisonResult>)
    requires FreshIds(calls) && DistinctPairs(calls) && i < n <= |calls|
    ensures Loads(StoreAll(calls), calls[i].baselineCommit, calls[i].candidateCommit, out) <==>
            Loads(StoreAll(calls[..n]), calls[i].baselineCommit, calls[i].candidateCommit, out)
  {
    OnlyOwnRun(calls, i, out);
    OnlyOwnRun(calls[..n], i, out);
    if out.Some? {
      forall kind ensures LoadsKind(StoreAll(calls), calls[i].Row(), kind, out.value.Sub(kind)) <==>
                          LoadsKind(StoreAll(calls[..n]), calls[i].Row(), kind, out.value.Sub(kind))
      {
        StoredDiffs(calls, i, kind);
        StoredDiffs(calls[..n], i, kind);
      }
    }
  }

  lemma {:induction false} OnlyOwnRun(calls: seq<StoreCall>, i: nat, out: Option<ComparisonResult>)
    requires FreshIds(calls) && DistinctPairs(calls) && i < |calls|
    ensures Loads(StoreAll(calls), calls[i].baselineCommit, calls[i].candidateCommit, out) <==>
            out.Some? && LoadsRun(StoreAll(calls), calls[i].Row(), out.value)
  {
    var t := StoreAll(calls);
    StoredRuns(calls);
    assert t.runs[i].For(calls[i].baselineCommit, calls[i].candidateCommit);
    if Loads(t, calls[i].baselineCommit, calls[i].candidateCommit, out) {
      var run :| run in t.runs && run.For(calls[i].baselineCommit, calls[i].candidateCommit)
                  && LoadsRun(t, run, out.value);
      var j :| 0 <= j < |t.runs| && t.runs[j] == run;
      assert j == i;
    }
  }

  /** What `CompareRefs` returns has single-kind sub-lists, so its comparisons survive the store. */
  lemma ComparisonsAreSingleKind(result: ComparisonResult, base: Measurements, candidate: Measurements,
                                 thresholds: SignificanceThresholds, callgrind: CallgrindDiff)
    requires forall kind :: ComparesKind(result.Sub(kind), kind, base, candidate, thresholds.Of(kind), callgrind)
    ensures SingleKinds(result)
  {
    forall kind, d | d in result.Sub(kind).diffs ensures d.kind == kind {
      assert ComparesKind(result.Sub(kind), kind, base, candidate, thresholds.Of(kind), callgrind);
      var i :| 0 <= i < |result.Sub(kind).diffs| && result.Sub(kind).diffs[i] == d;
    }
  }
}
