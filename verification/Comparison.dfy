/** Comparing a candidate with a baseline, and splitting the outcome for the report. */
module Comparison {
  import opened Prelude
  import opened Results
  import opened Thresholds
  import opened Sorting

  const DEFAULT_ICOUNT_NOISE_THRESHOLD: real := 0.002
  const MINIMUM_ICOUNT_NOISE_THRESHOLD: real := 0.002
  const DEFAULT_WALLTIME_NOISE_THRESHOLD: real := 0.05
  const MINIMUM_WALLTIME_NOISE_THRESHOLD: real := 0.01
  const DEFAULT_MEMORY_NOISE_THRESHOLD: real := 0.001
  const MINIMUM_MEMORY_NOISE_THRESHOLD: real := 0.001

  /** The noise levels of a kind: the threshold without history, and the least threshold. */
  datatype Noise = Noise(default: real, minimum: real)

  function NoiseOf(kind: ScenarioKind): Noise {
    match kind
    case Icount => Noise(DEFAULT_ICOUNT_NOISE_THRESHOLD, MINIMUM_ICOUNT_NOISE_THRESHOLD)
    case Walltime => Noise(DEFAULT_WALLTIME_NOISE_THRESHOLD, MINIMUM_WALLTIME_NOISE_THRESHOLD)
    case Memory => Noise(DEFAULT_MEMORY_NOISE_THRESHOLD, MINIMUM_MEMORY_NOISE_THRESHOLD)
  }

  /** The threshold a scenario is judged by. */
  function ClampedThreshold(entry: Option<real>, noise: Noise): real {
    var threshold := if entry.Some? then entry.value else noise.default;
    if threshold < noise.minimum then noise.minimum else threshold
  }

  /** `callgrind_diff` for one scenario; it may fail. */
  type CallgrindDiff = string -> Result<string>

  /** The diff carries these numbers, and the callgrind diff if the kind has one. */
  predicate Carries(d: ScenarioDiff, kind: ScenarioKind, baseline: real, candidate: real, threshold: real,
                    callgrind: CallgrindDiff)
  {
    && d.kind == kind && d.baseline == baseline && d.candidate == candidate && d.threshold == threshold
    && (if kind == Icount then callgrind(d.name).Ok? && d.cachegrindDiff == Some(callgrind(d.name).value)
        else d.cachegrindDiff == None)
  }

  ghost predicate NoRepeats<T>(s: seq<T>) {
    forall i, j :: 0 <= i < j < |s| ==> s[i] != s[j]
  }

  function Names(diffs: seq<ScenarioDiff>): seq<string> {
    seq(|diffs|, i requires 0 <= i < |diffs| => diffs[i].name)
  }

  /**
   `diffs` and `missing` account for every scenario in `names` once: a scenario the baseline
   has gets its diff, any other is missing.
   */
  ghost predicate Accounts(diffs: seq<ScenarioDiff>, missing: seq<string>, names: set<string>,
                           baseline: map<string, real>, candidate: map<string, real>,
                           thresholds: map<string, real>, kind: ScenarioKind, noise: Noise, callgrind: CallgrindDiff)
    requires names <= candidate.Keys
  {
    && NoRepeats(Names(diffs)) && NoRepeats(missing)
    && (forall name :: name in missing <==> name in names && name !in baseline)
    && (forall i :: 0 <= i < |diffs| ==> diffs[i].name in names && diffs[i].name in baseline)
    && (forall i :: 0 <= i < |diffs| ==>
          var d := diffs[i];
          Carries(d, kind, baseline[d.name], candidate[d.name],
                  ClampedThreshold(Entry(thresholds, d.name), noise), callgrind))
    && (forall name :: name in names && name in baseline ==> name in Names(diffs))
  }

  /** The comparison fails when a needed callgrind diff does. */
  predicate SomeDiffFails(baseline: map<string, real>, candidate: map<string, real>,
                          kind: ScenarioKind, callgrind: CallgrindDiff)
  {
    kind == Icount && exists name :: name in candidate && name in baseline && callgrind(name).Err?
  }

  lemma OneMoreDiff(diffs: seq<ScenarioDiff>, missing: seq<string>, names: set<string>, d: ScenarioDiff,
                    baseline: map<string, real>, candidate: map<string, real>, thresholds: map<string, real>,
                    kind: ScenarioKind, noise: Noise, callgrind: CallgrindDiff)
    requires names <= candidate.Keys && d.name in candidate && d.name in baseline && d.name !in names
    requires Accounts(diffs, missing, names, baseline, candidate, thresholds, kind, noise, callgrind)
    requires Carries(d, kind, baseline[d.name], candidate[d.name],
                     ClampedThreshold(Entry(thresholds, d.name), noise), callgrind)
    ensures Accounts(diffs + [d], missing, names + {d.name},
                     baseline, candidate, thresholds, kind, noise, callgrind)
  {
    assert Names(diffs + [d]) == Names(diffs) + [d.name];
  }

  lemma OneMoreMissing(diffs: seq<ScenarioDiff>, missing: seq<string>, names: set<string>, name: string,
                       baseline: map<string, real>, candidate: map<string, real>, thresholds: map<string, real>,
                       kind: ScenarioKind, noise: Noise, callgrind: CallgrindDiff)
    requires names <= candidate.Keys && name in candidate && name !in baseline && name !in names
    requires Accounts(diffs, missing, names, baseline, candidate, thresholds, kind, noise, callgrind)
    ensures Accounts(diffs, missing + [name], names + {name},
                     baseline, candidate, thresholds, kind, noise, callgrind)
  {
  }

  method CompareResults(baseline: map<string, real>, candidate: map<string, real>,
                        thresholds: map<string, real>, kind: ScenarioKind, noise: Noise, callgrind: CallgrindDiff)
    returns (result: Result<(seq<ScenarioDiff>, seq<string>)>)
    ensures result.Err? <==> SomeDiffFails(baseline, candidate, kind, callgrind)
    ensures result.Ok? ==>
              Accounts(result.value.0, result.value.1, candidate.Keys,
                       baseline, candidate, thresholds, kind, noise, callgrind)
  {
    var diffs: seq<ScenarioDiff>, missing: seq<string> := [], [];
    var left := candidate.Keys;
    while left != {}
      invariant left <= candidate.Keys
      invariant Accounts(diffs, missing, candidate.Keys - left,
                         baseline, candidate, thresholds, kind, noise, callgrind)
      invariant kind == Icount ==>
                  forall name :: name in candidate && name !in left && name in baseline ==> callgrind(name).Ok?
      decreases left
    {
      var name :| name in left;
      ghost var done := candidate.Keys - left;
      left := left - {name};
      assert candidate.Keys - left == done + {name};
      if name !in baseline {
        OneMoreMissing(diffs, missing, done, name, baseline, candidate, thresholds, kind, noise, callgrind);
        missing := missing + [name];
        continue;
      }
      var cachegrindDiff := None;
      if kind == Icount {
        var text := callgrind(name);
        if text.Err? {
          return Err(text.error);
        }
        cachegrindDiff := Some(text.value);
      }
      var diff := ScenarioDiff(name, kind, baseline[name], candidate[name],
                               ClampedThreshold(Entry(thresholds, name), noise), cachegrindDiff);
      OneMoreDiff(diffs, missing, done, diff, baseline, candidate, thresholds, kind, noise, callgrind);
      diffs := diffs + [diff];
    }
    return Ok((diffs, missing));
  }

  // ----- The two runs of a pull request -----

  /** What the benchmarks of one commit measured. */
  datatype Measurements = Measurements(
    icounts: map<string, real>, walltimes: map<string, real>, memory: map<string, MemoryDetails>)
  {
    function Of(kind: ScenarioKind): map<string, real> {
      match kind
      case Icount => icounts
      case Walltime => walltimes
      case Memory => DistillMemory(memory)
    }
  }

  function DistillMemory(input: map<string, MemoryDetails>): map<string, real> {
    map name | name in input :: input[name].ComparisonBasis() as real
  }

  /** One kind's part of a comparison says what the measurements and the thresholds call for. */
  ghost predicate ComparesKind(sub: ComparisonSubResult, kind: ScenarioKind, base: Measurements,
                               candidate: Measurements, thresholds: map<string, real>, callgrind: CallgrindDiff)
  {
    Accounts(sub.diffs, sub.missing, candidate.Of(kind).Keys, base.Of(kind), candidate.Of(kind),
             thresholds, kind, NoiseOf(kind), callgrind)
  }

  /** The details behind a memory comparison: one pair per diff, straight from the two runs. */
  ghost predicate DetailsMatch(sub: ComparisonSubResult, base: Measurements, candidate: Measurements) {
    && sub.memoryDetails.Some?
    && (forall name :: name in sub.memoryDetails.value <==> name in Names(sub.diffs))
    && (forall name :: name in sub.memoryDetails.value ==>
          && name in base.memory && name in candidate.memory
          && sub.memoryDetails.value[name] == (base.memory[name], candidate.memory[name]))
  }

  /** The lookups are the source's two `unwrap`s: the names are known on both sides. */
  method DetailsFor(diffs: seq<ScenarioDiff>, base: map<string, MemoryDetails>, candidate: map<string, MemoryDetails>)
    returns (details: map<string, (MemoryDetails, MemoryDetails)>)
    requires forall i :: 0 <= i < |diffs| ==> diffs[i].name in base && diffs[i].name in candidate
    ensures forall name :: name in details <==> name in Names(diffs)
    ensures forall name :: name in details ==>
              name in base && name in candidate && details[name] == (base[name], candidate[name])
  {
    details := map[];
    for i := 0 to |diffs|
      invariant forall name :: name in details <==> name in Names(diffs)[..i]
      invariant forall name :: name in details ==>
                  name in base && name in candidate && details[name] == (base[name], candidate[name])
    {
      var name := diffs[i].name;
      assert Names(diffs)[..i + 1] == Names(diffs)[..i] + [name];
      details := details[name := (base[name], candidate[name])];
    }
    assert Names(diffs)[..|diffs|] == Names(diffs);
  }

  method CompareRefs(base: Measurements, candidate: Measurements,
                     thresholds: SignificanceThresholds, callgrind: CallgrindDiff)
    returns (result: Result<ComparisonResult>)
    ensures result.Err? <==> SomeDiffFails(base.icounts, candidate.icounts, Icount, callgrind)
    ensures result.Ok? ==>
              && (forall kind ::
                    ComparesKind(result.value.Sub(kind), kind, base, candidate, thresholds.Of(kind), callgrind))
              && result.value.icount.memoryDetails == None && result.value.walltime.memoryDetails == None
              && DetailsMatch(result.value.memory, base, candidate)
  {
    var icount := CompareResults(base.icounts, candidate.icounts,
                                 thresholds.icount, Icount, NoiseOf(Icount), callgrind);
    if icount.Err? {
      return Err(icount.error);
    }
    var walltime := CompareResults(base.walltimes, candidate.walltimes,
                                   thresholds.walltime, Walltime, NoiseOf(Walltime), callgrind);
    var memory := CompareResults(DistillMemory(base.memory), DistillMemory(candidate.memory),
                                 thresholds.memory, Memory, NoiseOf(Memory), callgrind);
    var details := DetailsFor(memory.value.0, base.memory, candidate.memory);
    result := Ok(ComparisonResult(
                   ComparisonSubResult(icount.value.0, icount.value.1, None),
                   ComparisonSubResult(walltime.value.0, walltime.value.1, None),
                   ComparisonSubResult(memory.value.0, memory.value.1, Some(details))));
    forall kind
      ensures ComparesKind(result.value.Sub(kind), kind, base, candidate, thresholds.Of(kind), callgrind)
    {
      match kind
      case Icount =>
      case Walltime =>
      case Memory =>
    }
  }

  // ----- The report -----

  /** `x > y` on floats: nothing compares with NaN. */
  predicate Exceeds(x: Ratio, y: Ratio) {
    !x.NotANumber? && y.Finite? && (x.Finite? ==> x.value > y.value)
  }

  /** Larger relative changes first; what does not compare counts as equal. */
  predicate LargerFirst(a: ScenarioDiff, b: ScenarioDiff) {
    !Exceeds(b.AbsRatio(), a.AbsRatio())
  }

  /** The first scenario changed at least as much as the second; a change from zero is beyond any other. */
  predicate ChangedNoLess(a: ScenarioDiff, b: ScenarioDiff) {
    if b.baseline == 0.0 then a.baseline == 0.0
    else
      || a.baseline == 0.0
      || Abs(a.candidate - a.baseline) / Abs(a.baseline) >= Abs(b.candidate - b.baseline) / Abs(b.baseline)
  }

  /** Larger changes come first, provided no scenario went from zero to zero. */
  ghost predicate Descending(diffs: seq<ScenarioDiff>) {
    (forall d :: d in diffs && d.baseline == 0.0 ==> d.candidate != 0.0) ==>
      forall i, j :: 0 <= i < j < |diffs| ==> ChangedNoLess(diffs[i], diffs[j])
  }

  method SplitOnThreshold(diffs: seq<ScenarioDiff>)
    returns (significant: seq<ScenarioDiff>, negligible: seq<ScenarioDiff>)
    ensures multiset(significant) + multiset(negligible) == multiset(diffs)
    ensures forall d :: d in significant ==> d.Significant()
    ensures forall d :: d in negligible ==> !d.Significant()
    ensures Descending(significant) && Descending(negligible)
  {
    significant, negligible := [], [];
    for i := 0 to |diffs|
      invariant multiset(significant) + multiset(negligible) == multiset(diffs[..i])
      invariant forall d :: d in significant ==> d.Significant()
      invariant forall d :: d in negligible ==> !d.Significant()
    {
      assert diffs[..i + 1] == diffs[..i] + [diffs[i]];
      var ratio := diffs[i].AbsRatio();
      if ratio.Finite? && ratio.value < diffs[i].threshold {
        negligible := negligible + [diffs[i]];
      } else {
        significant := significant + [diffs[i]];
      }
    }
    assert diffs[..|diffs|] == diffs;
    SortedLargerFirst(significant);
    SortedLargerFirst(negligible);
    significant, negligible := Sort(significant, LargerFirst), Sort(negligible, LargerFirst);
  }

  lemma AbsQuotient(x: real, y: real)
    requires y != 0.0
    ensures Abs(x / y) == Abs(x) / Abs(y)
  {
    var q := x / y;
    assert q * y == x;
    AbsProduct(q, y);
    assert Abs(q) * Abs(y) / Abs(y) == Abs(q);
  }

  lemma AbsProduct(x: real, y: real)
    ensures Abs(x * y) == Abs(x) * Abs(y)
  {
  }

  lemma OrderMeansChange(a: ScenarioDiff, b: ScenarioDiff)
    requires LargerFirst(a, b) && !a.AbsRatio().NotANumber? && !b.AbsRatio().NotANumber?
    ensures ChangedNoLess(a, b)
  {
    if a.baseline != 0.0 && b.baseline != 0.0 {
      AbsQuotient(a.Diff(), a.baseline);
      AbsQuotient(b.Diff(), b.baseline);
    }
  }

  lemma {:induction false} SortedLargerFirst(diffs: seq<ScenarioDiff>)
    ensures var sorted := Sort(diffs, LargerFirst);
            && Descending(sorted) && multiset(sorted) == multiset(diffs)
            && forall d :: d in sorted <==> d in diffs
  {
    var sorted := Sort(diffs, LargerFirst);
    SortPermutes(diffs, LargerFirst);
    forall d ensures d in sorted <==> d in diffs {
      assert d in multiset(sorted) <==> d in multiset(diffs);
    }
    if forall d :: d in diffs && d.baseline == 0.0 ==> d.candidate != 0.0 {
      SortSortsOn(diffs, LargerFirst, set d | d in diffs);
      forall i, j | 0 <= i < j < |sorted| ensures ChangedNoLess(sorted[i], sorted[j]) {
        assert sorted[i] in sorted && sorted[j] in sorted;
        OrderMeansChange(sorted[i], sorted[j]);
      }
    }
  }

  datatype Diffs = Diffs(
    significant: seq<ScenarioDiff>, negligible: seq<ScenarioDiff>, missing: seq<string>,
    memoryDetails: Option<map<string, (MemoryDetails, MemoryDetails)>>)

  method FromSubResult(sub: ComparisonSubResult) returns (diffs: Diffs)
    ensures Splits(diffs, sub)
  {
    var significant, negligible := SplitOnThreshold(sub.diffs);
    diffs := Diffs(significant, negligible, sub.missing, sub.memoryDetails);
  }

  ghost predicate Splits(diffs: Diffs, sub: ComparisonSubResult) {
    && multiset(diffs.significant) + multiset(diffs.negligible) == multiset(sub.diffs)
    && (forall d :: d in diffs.significant ==> d.Significant())
    && (forall d :: d in diffs.negligible ==> !d.Significant())
    && Descending(diffs.significant) && Descending(diffs.negligible)
    && diffs.missing == sub.missing && diffs.memoryDetails == sub.memoryDetails
  }

  /** The threshold a scenario's own history calls for. */
  function HistoryThreshold(history: seq<BenchResult>, kind: ScenarioKind, name: string): real {
    ClampedThreshold(ThresholdOf(Selected(history, kind, name)), NoiseOf(kind))
  }

  lemma ClampRule(entry: Option<real>, kind: ScenarioKind)
    ensures var (default, minimum) := match kind
                                      case Icount => (0.002, 0.002)
                                      case Walltime => (0.05, 0.01)
                                      case Memory => (0.001, 0.001);
            var level := if entry.Some? then entry.value else default;
            ClampedThreshold(entry, NoiseOf(kind)) == if level < minimum then minimum else level
  {
  }

  /**
   The threshold in plain numbers. `results` are the scenario's results at the positions `idx` of
   the history, `ch` their changes and `arranged` these in ascending order: with ten results or
   more it is the fence they give, with fewer the default of the kind, and never less than the
   kind's minimum.
   */
  lemma ThresholdRule(history: seq<BenchResult>, kind: ScenarioKind, name: string, idx: seq<nat>,
                      results: seq<NonZero>, ch: seq<real>, arranged: seq<real>)
    requires Positions(idx, history, IsOf(kind, name))
    requires |results| == |idx| && forall k :: 0 <= k < |idx| ==> results[k] == history[idx[k]].result
    requires |results| >= 10 ==> AreChanges(ch, results) && Arranges(arranged, ch)
    ensures |results| >= 10 ==> |arranged| == |results| - 1
    ensures var n := |results| - 1;
            var (default, minimum) := match kind
                                      case Icount => (0.002, 0.002)
                                      case Walltime => (0.05, 0.01)
                                      case Memory => (0.001, 0.001);
            var level := if |results| < 10 then default else 4.0 * arranged[n * 3 / 4] - 3.0 * arranged[n / 4];
            HistoryThreshold(history, kind, name) == if level < minimum then minimum else level
  {
    SelectedAt(history, kind, name, idx);
    assert results == Selected(history, kind, name);
    FenceRule(results, ch, arranged);
    ClampRule(ThresholdOf(results), kind);
  }

  /** The change is at least what is noise; any change from zero is, and so is zero to zero. */
  predicate Changed(base: real, candidate: real, threshold: real) {
    base == 0.0 || Abs(candidate - base) / Abs(base) >= threshold
  }

  predicate Has(m: Measurements, kind: ScenarioKind, name: string) {
    match kind
    case Icount => name in m.icounts
    case Walltime => name in m.walltimes
    case Memory => name in m.memory
  }

  /** What is compared: the instruction count, the time, or the bytes allocated in all. */
  function Measured(m: Measurements, kind: ScenarioKind, name: string): real
    requires Has(m, kind, name)
  {
    match kind
    case Icount => m.icounts[name]
    case Walltime => m.walltimes[name]
    case Memory => m.memory[name].heapTotalBytes as real
  }

  lemma OfIsMeasured(m: Measurements, kind: ScenarioKind, name: string)
    ensures name in m.Of(kind) <==> Has(m, kind, name)
    ensures Has(m, kind, name) ==> m.Of(kind)[name] == Measured(m, kind, name)
  {
  }

  predicate BothHave(name: string, kind: ScenarioKind, base: Measurements, candidate: Measurements) {
    Has(candidate, kind, name) && Has(base, kind, name)
  }

  predicate ChangedBetween(name: string, kind: ScenarioKind, base: Measurements, candidate: Measurements,
                           history: seq<BenchResult>)
    requires BothHave(name, kind, base, candidate)
  {
    Changed(Measured(base, kind, name), Measured(candidate, kind, name), HistoryThreshold(history, kind, name))
  }

  /** The diff shows what the two runs measured for its scenario, and that scenario's own threshold. */
  predicate Shows(d: ScenarioDiff, kind: ScenarioKind, base: Measurements, candidate: Measurements,
                  history: seq<BenchResult>, callgrind: CallgrindDiff)
  {
    && BothHave(d.name, kind, base, candidate)
    && Carries(d, kind, Measured(base, kind, d.name), Measured(candidate, kind, d.name),
               HistoryThreshold(history, kind, d.name), callgrind)
  }

  /** Memory diffs come with the details of both runs, the others with none. */
  ghost predicate DetailsShown(diffs: Diffs, kind: ScenarioKind, base: Measurements, candidate: Measurements) {
    if kind != Memory then diffs.memoryDetails == None
    else
      && diffs.memoryDetails.Some?
      && var details := diffs.memoryDetails.value;
         && (forall name :: name in details <==> BothHave(name, kind, base, candidate))
         && (forall name :: name in details ==>
               name in base.memory && name in candidate.memory
               && details[name] == (base.memory[name], candidate.memory[name]))
  }

  /** What the report says about a kind, told from the measurements and the history alone. */
  ghost predicate ReportsKind(diffs: Diffs, kind: ScenarioKind, base: Measurements, candidate: Measurements,
                              history: seq<BenchResult>, callgrind: CallgrindDiff)
  {
    && (forall name :: name in diffs.missing <==>
          Has(candidate, kind, name) && !Has(base, kind, name))
    && (forall name :: name in Names(diffs.significant) <==>
          BothHave(name, kind, base, candidate) && ChangedBetween(name, kind, base, candidate, history))
    && (forall name :: name in Names(diffs.negligible) <==>
          BothHave(name, kind, base, candidate) && !ChangedBetween(name, kind, base, candidate, history))
    && NoRepeats(diffs.missing) && NoRepeats(Names(diffs.significant)) && NoRepeats(Names(diffs.negligible))
    && (forall d :: d in diffs.significant || d in diffs.negligible ==>
          Shows(d, kind, base, candidate, history, callgrind))
    && Descending(diffs.significant) && Descending(diffs.negligible)
    && DetailsShown(diffs, kind, base, candidate)
  }

  /** One kind's comparison, made with the thresholds its history calls for. */
  ghost predicate Compares(sub: ComparisonSubResult, kind: ScenarioKind, base: Measurements, candidate: Measurements,
                           thresholds: map<string, real>, history: seq<BenchResult>, callgrind: CallgrindDiff)
  {
    && ComparesKind(sub, kind, base, candidate, thresholds, callgrind)
    && forall name :: Entry(thresholds, name) == ThresholdOf(Selected(history, kind, name))
  }

  lemma ChangedMeansSignificant(d: ScenarioDiff)
    ensures d.Significant() <==> Changed(d.baseline, d.candidate, d.threshold)
  {
    if d.baseline != 0.0 {
      AbsQuotient(d.Diff(), d.baseline);
    }
  }

  lemma EachDiffShows(sub: ComparisonSubResult, kind: ScenarioKind, base: Measurements, candidate: Measurements,
                      thresholds: map<string, real>, history: seq<BenchResult>, callgrind: CallgrindDiff,
                      d: ScenarioDiff)
    requires Compares(sub, kind, base, candidate, thresholds, history, callgrind) && d in sub.diffs
    ensures Shows(d, kind, base, candidate, history, callgrind)
    ensures d.Significant() <==> ChangedBetween(d.name, kind, base, candidate, history)
  {
    var i :| 0 <= i < |sub.diffs| && sub.diffs[i] == d;
    OfIsMeasured(base, kind, d.name);
    OfIsMeasured(candidate, kind, d.name);
    ChangedMeansSignificant(d);
  }

  lemma {:induction false} OnceOnly<T>(s: seq<T>, x: T)
    requires NoRepeats(s)
    ensures multiset(s)[x] <= 1
  {
    if s != [] {
      var n := |s| - 1;
      assert s == s[..n] + [s[n]];
      OnceOnly(s[..n], x);
      assert s[n] !in s[..n];
    }
  }

  lemma Twice<T>(s: seq<T>, i: nat, j: nat)
    requires i < j < |s| && s[i] == s[j]
    ensures multiset(s)[s[i]] >= 2
  {
    assert s == s[..j] + [s[j]] + s[j + 1..];
    assert s[i] in s[..j];
  }

  /** A part of diffs with distinct names has distinct names. */
  lemma PartKeepsNames(part: seq<ScenarioDiff>, whole: seq<ScenarioDiff>)
    requires NoRepeats(Names(whole)) && multiset(part) <= multiset(whole)
    ensures NoRepeats(Names(part))
  {
    forall i, j | 0 <= i < j < |part| && part[i].name == part[j].name ensures false {
      assert part[i] in multiset(whole) && part[j] in multiset(whole);
      var p :| 0 <= p < |whole| && whole[p] == part[i];
      var q :| 0 <= q < |whole| && whole[q] == part[j];
      assert Names(whole)[p] == Names(whole)[q];
      Twice(part, i, j);
      assert NoRepeats(whole) by {
        forall a, b | 0 <= a < b < |whole| ensures whole[a] != whole[b] {
          assert Names(whole)[a] != Names(whole)[b];
        }
      }
      OnceOnly(whole, part[i]);
    }
  }

  lemma PartsPartition(diffs: Diffs, sub: ComparisonSubResult, d: ScenarioDiff)
    requires Splits(diffs, sub)
    ensures d in sub.diffs <==> d in diffs.significant || d in diffs.negligible
  {
    assert d in multiset(sub.diffs) <==> d in multiset(diffs.significant) || d in multiset(diffs.negligible);
  }

  lemma InNames(diffs: seq<ScenarioDiff>, d: ScenarioDiff)
    requires d in diffs
    ensures d.name in Names(diffs)
  {
    var i :| 0 <= i < |diffs| && diffs[i] == d;
    assert Names(diffs)[i] == d.name;
  }

  /** A scenario both sides have is listed, as significant exactly when it changed. */
  lemma ListedByVerdict(diffs: Diffs, sub: ComparisonSubResult, kind: ScenarioKind, base: Measurements,
                        candidate: Measurements, thresholds: map<string, real>, history: seq<BenchResult>,
                        callgrind: CallgrindDiff, name: string)
    requires Compares(sub, kind, base, candidate, thresholds, history, callgrind)
    requires Splits(diffs, sub) && BothHave(name, kind, base, candidate)
    ensures ChangedBetween(name, kind, base, candidate, history) ==> name in Names(diffs.significant)
    ensures !ChangedBetween(name, kind, base, candidate, history) ==> name in Names(diffs.negligible)
  {
    OfIsMeasured(base, kind, name);
    OfIsMeasured(candidate, kind, name);
    assert name in Names(sub.diffs);
    var i :| 0 <= i < |Names(sub.diffs)| && Names(sub.diffs)[i] == name;
    var d := sub.diffs[i];
    PartsPartition(diffs, sub, d);
    EachDiffShows(sub, kind, base, candidate, thresholds, history, callgrind, d);
    if d in diffs.significant {
      InNames(diffs.significant, d);
    } else {
      InNames(diffs.negligible, d);
    }
  }

  /** What is listed shows its scenario, and is listed under the right verdict. */
  lemma ListedShows(diffs: Diffs, sub: ComparisonSubResult, kind: ScenarioKind, base: Measurements,
                    candidate: Measurements, thresholds: map<string, real>, history: seq<BenchResult>,
                    callgrind: CallgrindDiff, d: ScenarioDiff)
    requires Compares(sub, kind, base, candidate, thresholds, history, callgrind) && Splits(diffs, sub)
    requires d in diffs.significant || d in diffs.negligible
    ensures Shows(d, kind, base, candidate, history, callgrind)
    ensures d in diffs.significant <==> ChangedBetween(d.name, kind, base, candidate, history)
    ensures d in diffs.negligible <==> !ChangedBetween(d.name, kind, base, candidate, history)
  {
    PartsPartition(diffs, sub, d);
    EachDiffShows(sub, kind, base, candidate, thresholds, history, callgrind, d);
  }

  lemma WhereListed(diffs: Diffs, sub: ComparisonSubResult, kind: ScenarioKind, base: Measurements,
                    candidate: Measurements, thresholds: map<string, real>, history: seq<BenchResult>,
                    callgrind: CallgrindDiff, name: string)
    requires Compares(sub, kind, base, candidate, thresholds, history, callgrind) && Splits(diffs, sub)
    ensures name in Names(diffs.significant) <==>
            BothHave(name, kind, base, candidate) && ChangedBetween(name, kind, base, candidate, history)
    ensures name in Names(diffs.negligible) <==>
            BothHave(name, kind, base, candidate) && !ChangedBetween(name, kind, base, candidate, history)
  {
    if BothHave(name, kind, base, candidate) {
      ListedByVerdict(diffs, sub, kind, base, candidate, thresholds, history, callgrind, name);
    }
    if name in Names(diffs.significant) {
      var i :| 0 <= i < |diffs.significant| && diffs.significant[i].name == name;
      ListedShows(diffs, sub, kind, base, candidate, thresholds, history, callgrind, diffs.significant[i]);
    }
    if name in Names(diffs.negligible) {
      var i :| 0 <= i < |diffs.negligible| && diffs.negligible[i].name == name;
      ListedShows(diffs, sub, kind, base, candidate, thresholds, history, callgrind, diffs.negligible[i]);
    }
  }

  /** The details travel with the memory part, and only with it. */
  ghost predicate DetailsAttached(sub: ComparisonSubResult, kind: ScenarioKind,
                                  base: Measurements, candidate: Measurements)
  {
    if kind == Memory then DetailsMatch(sub, base, candidate) else sub.memoryDetails == None
  }

  lemma DetailsReachReport(diffs: Diffs, sub: ComparisonSubResult, kind: ScenarioKind, base: Measurements,
                           candidate: Measurements, thresholds: map<string, real>, history: seq<BenchResult>,
                           callgrind: CallgrindDiff)
    requires Compares(sub, kind, base, candidate, thresholds, history, callgrind) && Splits(diffs, sub)
    requires DetailsAttached(sub, kind, base, candidate)
    ensures DetailsShown(diffs, kind, base, candidate)
  {
    if kind == Memory {
      forall name ensures name in Names(sub.diffs) <==> BothHave(name, kind, base, candidate) {
        OfIsMeasured(base, kind, name);
        OfIsMeasured(candidate, kind, name);
        if name in Names(sub.diffs) {
          var i :| 0 <= i < |sub.diffs| && sub.diffs[i].name == name;
        }
      }
    }
  }

  /**
   Each candidate scenario lands in exactly one list, it is the list its measurements call
   for, and it is listed with its own numbers.
   */
  lemma ReportIsCorrect(diffs: Diffs, sub: ComparisonSubResult, kind: ScenarioKind, base: Measurements,
                        candidate: Measurements, thresholds: map<string, real>, history: seq<BenchResult>,
                        callgrind: CallgrindDiff)
    requires Compares(sub, kind, base, candidate, thresholds, history, callgrind) && Splits(diffs, sub)
    requires DetailsAttached(sub, kind, base, candidate)
    ensures ReportsKind(diffs, kind, base, candidate, history, callgrind)
  {
    PartKeepsNames(diffs.significant, sub.diffs);
    PartKeepsNames(diffs.negligible, sub.diffs);
    forall name
      ensures name in Names(diffs.significant) <==>
              BothHave(name, kind, base, candidate) && ChangedBetween(name, kind, base, candidate, history)
      ensures name in Names(diffs.negligible) <==>
              BothHave(name, kind, base, candidate) && !ChangedBetween(name, kind, base, candidate, history)
    {
      WhereListed(diffs, sub, kind, base, candidate, thresholds, history, callgrind, name);
    }
    forall name ensures name in diffs.missing <==> Has(candidate, kind, name) && !Has(base, kind, name) {
      OfIsMeasured(base, kind, name);
      OfIsMeasured(candidate, kind, name);
    }
    forall d | d in diffs.significant || d in diffs.negligible
      ensures Shows(d, kind, base, candidate, history, callgrind)
    {
      ListedShows(diffs, sub, kind, base, candidate, thresholds, history, callgrind, d);
    }
    DetailsReachReport(diffs, sub, kind, base, candidate, thresholds, history, callgrind);
  }

  /**
   From the stored history and the two runs' measurements to the lists of the report: fails
   exactly when a needed callgrind diff does.
   */
  method Report(history: seq<BenchResult>, base: Measurements, candidate: Measurements, callgrind: CallgrindDiff)
    returns (report: Result<(Diffs, Diffs, Diffs)>)
    ensures report.Err? <==> SomeDiffFails(base.icounts, candidate.icounts, Icount, callgrind)
    ensures report.Ok? ==>
              && ReportsKind(report.value.0, Icount, base, candidate, history, callgrind)
              && ReportsKind(report.value.1, Walltime, base, candidate, history, callgrind)
              && ReportsKind(report.value.2, Memory, base, candidate, history, callgrind)
  {
    var thresholds := ThresholdsByKind(history);
    var result := CompareRefs(base, candidate, thresholds, callgrind);
    if result.Err? {
      return Err(result.error);
    }
    var icount := FromSubResult(result.value.icount);
    var walltime := FromSubResult(result.value.walltime);
    var memory := FromSubResult(result.value.memory);
    forall kind: ScenarioKind, diffs | Splits(diffs, result.value.Sub(kind))
      ensures ReportsKind(diffs, kind, base, candidate, history, callgrind)
    {
      ReportIsCorrect(diffs, result.value.Sub(kind), kind, base, candidate, thresholds.Of(kind), history, callgrind);
    }
    return Ok((icount, walltime, memory));
  }
}
