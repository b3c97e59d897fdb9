/** The nested report sent to bencher.dev, merged from one map per measure. */
module BencherReport {
  import opened Results

  type Measure = string
  type Metrics = map<Measure, real>
  type BenchmarkMap = map<string, Metrics>

  const INSTRUCTIONS: Measure := "instructions"
  const LATENCY: Measure := "latency"
  const HEAP_PEAK_BLOCKS: Measure := "heap-peak-blocks"
  const HEAP_PEAK_BYTES: Measure := "heap-peak-bytes"
  const HEAP_TOTAL_BLOCKS: Measure := "heap-total-blocks"
  const HEAP_TOTAL_BYTES: Measure := "heap-total-bytes"

  /** Whether bencher.dev accepts a benchmark name; parsing keeps the name's text. */
  type NameCheck = string -> bool

  /** One measure's results. */
  datatype Source = Source(measure: Measure, results: map<string, real>)

  /** One benchmark per valid name, carrying the single measure. */
  function ResultsToBmf(source: Source, valid: NameCheck): BenchmarkMap {
    map name | name in source.results && valid(name) :: map[source.measure := source.results[name]]
  }

  function MetricsOf(report: BenchmarkMap, name: string): Metrics {
    if name in report then report[name] else map[]
  }

  /** `src` merged into `target`: every benchmark of either, the metrics of both, `src` winning. */
  function Merged(target: BenchmarkMap, src: BenchmarkMap): BenchmarkMap {
    map name | name in target.Keys + src.Keys :: MetricsOf(target, name) + MetricsOf(src, name)
  }

  /** Entry by entry: what either side has, `src` winning where both have a value. */
  lemma MergedEntry(target: BenchmarkMap, src: BenchmarkMap, name: string, measure: Measure)
    ensures name in Merged(target, src) <==> name in target || name in src
    ensures var entry := MetricsOf(Merged(target, src), name);
            if name in src && measure in src[name] then measure in entry && entry[measure] == src[name][measure]
            else if name in target && measure in target[name] then
              measure in entry && entry[measure] == target[name][measure]
            else measure !in entry
  {
  }

  /** The report under construction. */
  class ReportBuilder {
    var benchmarks: BenchmarkMap

    constructor (initial: BenchmarkMap)
      ensures benchmarks == initial
    {
      benchmarks := initial;
    }

    method Merge(src: BenchmarkMap)
      modifies this
      ensures benchmarks == Merged(old(benchmarks), src)
    {
      var left := src.Keys;
      while left != {}
        invariant left <= src.Keys
        invariant benchmarks.Keys == old(benchmarks).Keys + (src.Keys - left)
        invariant forall name :: name in benchmarks ==>
                    benchmarks[name] ==
                    MetricsOf(old(benchmarks), name) + (if name in left then map[] else MetricsOf(src, name))
        decreases left
      {
        var name :| name in left;
        left := left - {name};
        benchmarks := benchmarks[name := MetricsOf(benchmarks, name) + src[name]];
      }
    }

    /** Merges the four memory measures. */
    method MergeMemory(memory: map<string, MemoryDetails>, valid: NameCheck)
      modifies this
      ensures benchmarks == MergedAll(old(benchmarks), MemorySources(memory), valid)
    {
      var sources := MemorySources(memory);
      Merge(ResultsToBmf(sources[0], valid));
      Merge(ResultsToBmf(sources[1], valid));
      Merge(ResultsToBmf(sources[2], valid));
      Merge(ResultsToBmf(sources[3], valid));
      MergedFour(old(benchmarks), sources, valid);
    }
  }

  function HeapPeakBlocks(memory: map<string, MemoryDetails>): map<string, real> {
    map name | name in memory :: memory[name].heapPeakBlocks as real
  }

  function HeapPeakBytes(memory: map<string, MemoryDetails>): map<string, real> {
    map name | name in memory :: memory[name].heapPeakBytes as real
  }

  function HeapTotalBlocks(memory: map<string, MemoryDetails>): map<string, real> {
    map name | name in memory :: memory[name].heapTotalBlocks as real
  }

  function HeapTotalBytes(memory: map<string, MemoryDetails>): map<string, real> {
    map name | name in memory :: memory[name].heapTotalBytes as real
  }

  function MemorySources(memory: map<string, MemoryDetails>): seq<Source> {
    [Source(HEAP_PEAK_BLOCKS, HeapPeakBlocks(memory)), Source(HEAP_PEAK_BYTES, HeapPeakBytes(memory)),
     Source(HEAP_TOTAL_BLOCKS, HeapTotalBlocks(memory)), Source(HEAP_TOTAL_BYTES, HeapTotalBytes(memory))]
  }

  /** The sources of a run's report, in the order in which they are merged. */
  function AllSources(icounts: map<string, real>, walltimes: map<string, real>,
                      memory: map<string, MemoryDetails>): seq<Source>
  {
    [Source(INSTRUCTIONS, icounts), Source(LATENCY, walltimes)] + MemorySources(memory)
  }

  function MergedAll(target: BenchmarkMap, sources: seq<Source>, valid: NameCheck): BenchmarkMap {
    if sources == [] then target
    else Merged(MergedAll(target, sources[..|sources| - 1], valid), ResultsToBmf(sources[|sources| - 1], valid))
  }

  lemma {:induction false} MergedOneMore(target: BenchmarkMap, sources: seq<Source>, last: Source, valid: NameCheck)
    ensures MergedAll(target, sources + [last], valid) ==
            Merged(MergedAll(target, sources, valid), ResultsToBmf(last, valid))
  {
    assert (sources + [last])[..|sources|] == sources;
  }

  lemma {:induction false} MergedFour(target: BenchmarkMap, sources: seq<Source>, valid: NameCheck)
    requires |sources| == 4
    ensures MergedAll(target, sources, valid) ==
            Merged(Merged(Merged(Merged(target, ResultsToBmf(sources[0], valid)), ResultsToBmf(sources[1], valid)),
                          ResultsToBmf(sources[2], valid)), ResultsToBmf(sources[3], valid))
  {
    MergedOneMore(target, [], sources[0], valid);
    MergedOneMore(target, [sources[0]], sources[1], valid);
    MergedOneMore(target, [sources[0]] + [sources[1]], sources[2], valid);
    MergedOneMore(target, [sources[0]] + [sources[1]] + [sources[2]], sources[3], valid);
    assert [] + [sources[0]] == [sources[0]];
    assert sources == [sources[0]] + [sources[1]] + [sources[2]] + [sources[3]];
  }

  lemma {:induction false} MergedConcat(target: BenchmarkMap, a: seq<Source>, b: seq<Source>, valid: NameCheck)
    ensures MergedAll(target, a + b, valid) == MergedAll(MergedAll(target, a, valid), b, valid)
    decreases |b|
  {
    if b == [] {
      assert a + b == a;
    } else {
      var n := |b| - 1;
      MergedConcat(target, a, b[..n], valid);
      MergedOneMore(target, a + b[..n], b[n], valid);
      assert a + b == a + b[..n] + [b[n]];
    }
  }

  method TrackResults(icounts: map<string, real>, walltimes: map<string, real>, memory: map<string, MemoryDetails>,
                      valid: NameCheck)
    returns (report: BenchmarkMap)
    ensures report == MergedAll(map[], AllSources(icounts, walltimes, memory), valid)
  {
    var builder := new ReportBuilder(ResultsToBmf(Source(INSTRUCTIONS, icounts), valid));
    builder.Merge(ResultsToBmf(Source(LATENCY, walltimes), valid));
    builder.MergeMemory(memory, valid);
    report := builder.benchmarks;
    FirstTwo(Source(INSTRUCTIONS, icounts), Source(LATENCY, walltimes), valid);
    MergedConcat(map[], [Source(INSTRUCTIONS, icounts), Source(LATENCY, walltimes)], MemorySources(memory), valid);
  }

  lemma FirstTwo(first: Source, second: Source, valid: NameCheck)
    ensures MergedAll(map[], [first, second], valid) == Merged(ResultsToBmf(first, valid), ResultsToBmf(second, valid))
  {
    MergedOneMore(map[], [], first, valid);
    MergedOneMore(map[], [first], second, valid);
    assert [] + [first] == [first] && [first] + [second] == [first, second];
    MergedIntoEmpty(ResultsToBmf(first, valid));
  }

  lemma MergedIntoEmpty(src: BenchmarkMap)
    ensures Merged(map[], src) == src
  {
    forall name | name in src ensures Merged(map[], src)[name] == src[name] {
      var none: Metrics := map[];
      assert none + src[name] == src[name];
    }
  }

  // ----- Lossless, in any order -----

  ghost predicate DistinctMeasures(sources: seq<Source>) {
    forall i, j :: 0 <= i < j < |sources| ==> sources[i].measure != sources[j].measure
  }

  /** What the sources say about one benchmark. */
  function Entries(sources: seq<Source>, valid: NameCheck, name: string): Metrics {
    if sources == [] then map[] else
      var last := sources[|sources| - 1];
      Entries(sources[..|sources| - 1], valid, name)
      + (if name in last.results && valid(name) then map[last.measure := last.results[name]] else map[])
  }

  lemma {:induction false} MergedHasEntries(sources: seq<Source>, valid: NameCheck, name: string)
    ensures var report := MergedAll(map[], sources, valid);
            MetricsOf(report, name) == Entries(sources, valid, name)
            && (name in report <==> Entries(sources, valid, name) != map[])
  {
    if sources != [] {
      var n := |sources| - 1;
      var last := sources[n];
      MergedHasEntries(sources[..n], valid, name);
      if name in last.results && valid(name) {
        assert last.measure in Entries(sources, valid, name);
      }
    }
  }

  predicate HasPair(m: map<string, real>, key: string, value: real) {
    key in m && m[key] == value
  }

  lemma SamePairs(a: map<string, real>, b: map<string, real>)
    requires forall key, value :: HasPair(a, key, value) <==> HasPair(b, key, value)
    ensures a == b
  {
    forall key ensures key in a <==> key in b {
      assert key in a ==> HasPair(a, key, a[key]);
      assert key in b ==> HasPair(b, key, b[key]);
    }
    forall key | key in a ensures a[key] == b[key] {
      assert HasPair(a, key, a[key]);
    }
  }

  /** The benchmark has this value for this measure in one of the sources. */
  ghost predicate Recorded(sources: seq<Source>, valid: NameCheck, name: string, measure: Measure, value: real) {
    valid(name) && exists s :: s in sources && s.measure == measure && name in s.results && s.results[name] == value
  }

  lemma RecordedUnfolds(sources: seq<Source>, valid: NameCheck, name: string, measure: Measure, value: real)
    requires sources != []
    ensures var n := |sources| - 1;
            Recorded(sources, valid, name, measure, value) <==>
            || Recorded(sources[..n], valid, name, measure, value)
            || Recorded([sources[n]], valid, name, measure, value)
  {
    assert sources == sources[..|sources| - 1] + [sources[|sources| - 1]];
  }

  lemma {:induction false} EntriesAreRecorded(sources: seq<Source>, valid: NameCheck, name: string,
                                              measure: Measure, value: real)
    requires DistinctMeasures(sources)
    ensures Recorded(sources, valid, name, measure, value) <==> HasPair(Entries(sources, valid, name), measure, value)
  {
    if sources != [] {
      var n := |sources| - 1;
      EntriesAreRecorded(sources[..n], valid, name, measure, value);
      RecordedUnfolds(sources, valid, name, measure, value);
      if sources[n].measure == measure {
        NotRecordedBefore(sources, valid, name, value);
      }
    }
  }

  lemma NotRecordedBefore(sources: seq<Source>, valid: NameCheck, name: string, value: real)
    requires DistinctMeasures(sources) && sources != []
    ensures var n := |sources| - 1;
            !Recorded(sources[..n], valid, name, sources[n].measure, value)
  {
    var n := |sources| - 1;
    forall s | s in sources[..n] ensures s.measure != sources[n].measure {
      var i :| 0 <= i < n && sources[i] == s;
    }
  }

  function Projection(report: BenchmarkMap, measure: Measure): map<string, real> {
    map name | name in report && measure in report[name] :: report[name][measure]
  }

  function ValidPart(results: map<string, real>, valid: NameCheck): map<string, real> {
    map name | name in results && valid(name) :: results[name]
  }

  /**
   Lossless: reading any measure back from the merged report gives exactly that source's
   results for valid names.
   */
  lemma {:induction false} MergeIsLossless(sources: seq<Source>, valid: NameCheck, i: nat)
    requires DistinctMeasures(sources) && i < |sources|
    ensures Projection(MergedAll(map[], sources, valid), sources[i].measure) == ValidPart(sources[i].results, valid)
  {
    var report, measure := MergedAll(map[], sources, valid), sources[i].measure;
    var projection, part := Projection(report, measure), ValidPart(sources[i].results, valid);
    forall name, value ensures HasPair(projection, name, value) <==> HasPair(part, name, value) {
      MergedHasEntries(sources, valid, name);
      EntriesAreRecorded(sources, valid, name, measure, value);
      OnlySource(sources, valid, i, name, value);
    }
    SamePairs(projection, part);
  }

  lemma OnlySource(sources: seq<Source>, valid: NameCheck, i: nat, name: string, value: real)
    requires DistinctMeasures(sources) && i < |sources|
    ensures Recorded(sources, valid, name, sources[i].measure, value) <==>
            valid(name) && name in sources[i].results && sources[i].results[name] == value
  {
    if Recorded(sources, valid, name, sources[i].measure, value) {
      var s :| s in sources && s.measure == sources[i].measure && name in s.results && s.results[name] == value;
      var j :| 0 <= j < |sources| && sources[j] == s;
      assert j == i;
    }
  }

  /** The order in which the measures are merged does not matter. */
  lemma {:induction false} MergeOrderIsImmaterial(a: seq<Source>, b: seq<Source>, valid: NameCheck)
    requires DistinctMeasures(a) && DistinctMeasures(b) && (forall s :: s in a <==> s in b)
    ensures MergedAll(map[], a, valid) == MergedAll(map[], b, valid)
  {
    forall name ensures Entries(a, valid, name) == Entries(b, valid, name) {
      SameEntries(a, b, valid, name);
    }
    forall name
      ensures name in MergedAll(map[], a, valid) <==> name in MergedAll(map[], b, valid)
      ensures MetricsOf(MergedAll(map[], a, valid), name) == MetricsOf(MergedAll(map[], b, valid), name)
    {
      MergedHasEntries(a, valid, name);
      MergedHasEntries(b, valid, name);
    }
  }

  lemma {:induction false} SameEntries(a: seq<Source>, b: seq<Source>, valid: NameCheck, name: string)
    requires DistinctMeasures(a) && DistinctMeasures(b) && (forall s :: s in a <==> s in b)
    ensures Entries(a, valid, name) == Entries(b, valid, name)
  {
    var x, y := Entries(a, valid, name), Entries(b, valid, name);
    forall measure, value ensures HasPair(x, measure, value) <==> HasPair(y, measure, value) {
      EntriesAreRecorded(a, valid, name, measure, value);
      EntriesAreRecorded(b, valid, name, measure, value);
      assert Recorded(a, valid, name, measure, value) <==> Recorded(b, valid, name, measure, value);
    }
    SamePairs(x, y);
  }

  lemma MeasureNamesDiffer()
    ensures INSTRUCTIONS != LATENCY
    ensures forall m :: m in [HEAP_PEAK_BLOCKS, HEAP_PEAK_BYTES, HEAP_TOTAL_BLOCKS, HEAP_TOTAL_BYTES] ==>
              m != INSTRUCTIONS && m != LATENCY
    ensures HEAP_PEAK_BLOCKS != HEAP_PEAK_BYTES && HEAP_TOTAL_BLOCKS != HEAP_TOTAL_BYTES
    ensures HEAP_PEAK_BLOCKS != HEAP_TOTAL_BLOCKS && HEAP_PEAK_BLOCKS != HEAP_TOTAL_BYTES
    ensures HEAP_PEAK_BYTES != HEAP_TOTAL_BLOCKS && HEAP_PEAK_BYTES != HEAP_TOTAL_BYTES
  {
    assert INSTRUCTIONS[0] == 'i' && LATENCY[0] == 'l' && HEAP_PEAK_BLOCKS[0] == 'h' && HEAP_PEAK_BYTES[0] == 'h';
    assert HEAP_TOTAL_BLOCKS[0] == 'h' && HEAP_TOTAL_BYTES[0] == 'h';
    assert HEAP_PEAK_BLOCKS[5] == 'p' && HEAP_PEAK_BYTES[5] == 'p';
    assert HEAP_TOTAL_BLOCKS[5] == 't' && HEAP_TOTAL_BYTES[5] == 't';
    assert |HEAP_PEAK_BLOCKS| != |HEAP_PEAK_BYTES| && |HEAP_TOTAL_BLOCKS| != |HEAP_TOTAL_BYTES|;
  }

  function MeasuresOf(sources: seq<Source>): seq<Measure> {
    seq(|sources|, i requires 0 <= i < |sources| => sources[i].measure)
  }

  lemma RunMeasures(icounts: map<string, real>, walltimes: map<string, real>, memory: map<string, MemoryDetails>)
    ensures MeasuresOf(AllSources(icounts, walltimes, memory)) ==
            [INSTRUCTIONS, LATENCY, HEAP_PEAK_BLOCKS, HEAP_PEAK_BYTES, HEAP_TOTAL_BLOCKS, HEAP_TOTAL_BYTES]
  {
  }

  /** The six measures of a run are distinct, so both results apply to its report. */
  lemma RunMeasuresAreDistinct(icounts: map<string, real>, walltimes: map<string, real>,
                               memory: map<string, MemoryDetails>)
    ensures DistinctMeasures(AllSources(icounts, walltimes, memory))
  {
    var sources := AllSources(icounts, walltimes, memory);
    var measures := MeasuresOf(sources);
    RunMeasures(icounts, walltimes, memory);
    MeasureNamesDiffer();
    forall i, j | 0 <= i < j < |sources| ensures sources[i].measure != sources[j].measure {
      assert measures[i] != measures[j];
    }
  }

  /** Where one source ends up for one benchmark. */
  lemma {:induction false} SourceSurvives(sources: seq<Source>, valid: NameCheck, i: nat, source: Source,
                                          name: string)
    requires DistinctMeasures(sources) && i < |sources| && sources[i] == source
    ensures var metrics := MetricsOf(MergedAll(map[], sources, valid), name);
            && (source.measure in metrics <==> valid(name) && name in source.results)
            && (source.measure in metrics ==> metrics[source.measure] == source.results[name])
  {
    var report := MergedAll(map[], sources, valid);
    MergeIsLossless(sources, valid, i);
    assert name in Projection(report, source.measure) <==> source.measure in MetricsOf(report, name);
    assert name in ValidPart(source.results, valid) <==> valid(name) && name in source.results;
  }

  lemma {:induction false} OnlySixMeasures(sources: seq<Source>, valid: NameCheck, name: string, measure: Measure)
    requires DistinctMeasures(sources) && measure in MetricsOf(MergedAll(map[], sources, valid), name)
    ensures measure in MeasuresOf(sources)
  {
    MergedHasEntries(sources, valid, name);
    EntriesAreRecorded(sources, valid, name, measure, Entries(sources, valid, name)[measure]);
    var s :| s in sources && s.measure == measure;
    var i :| 0 <= i < |sources| && sources[i] == s;
    assert MeasuresOf(sources)[i] == measure;
  }

  /** The benchmark has this measure exactly when the scenario was measured, with the measured value. */
  predicate Holds(metrics: Metrics, measure: Measure, present: bool, value: real) {
    (measure in metrics <==> present) && (present ==> metrics[measure] == value)
  }

  /**
   The report of a run, measure by measure: under each name the very number measured for the
   scenario, for exactly the scenarios measured whose name is valid, and no other measure.
   */
  lemma RunReport(icounts: map<string, real>, walltimes: map<string, real>, memory: map<string, MemoryDetails>,
                  valid: NameCheck, name: string)
    ensures var metrics := MetricsOf(MergedAll(map[], AllSources(icounts, walltimes, memory), valid), name);
            var counted, timed, profiled := valid(name) && name in icounts, valid(name) && name in walltimes,
                                            valid(name) && name in memory;
            && Holds(metrics, "instructions", counted, if counted then icounts[name] else 0.0)
            && Holds(metrics, "latency", timed, if timed then walltimes[name] else 0.0)
            && Holds(metrics, "heap-peak-blocks", profiled,
                     if profiled then memory[name].heapPeakBlocks as real else 0.0)
            && Holds(metrics, "heap-peak-bytes", profiled,
                     if profiled then memory[name].heapPeakBytes as real else 0.0)
            && Holds(metrics, "heap-total-blocks", profiled,
                     if profiled then memory[name].heapTotalBlocks as real else 0.0)
            && Holds(metrics, "heap-total-bytes", profiled,
                     if profiled then memory[name].heapTotalBytes as real else 0.0)
            && forall measure :: measure in metrics ==>
                 measure in ["instructions", "latency", "heap-peak-blocks", "heap-peak-bytes",
                             "heap-total-blocks", "heap-total-bytes"]
  {
    hide MergedAll;
    RunMeasuresAreDistinct(icounts, walltimes, memory);
    var sources := AllSources(icounts, walltimes, memory);
    SourceSurvives(sources, valid, 0, Source(INSTRUCTIONS, icounts), name);
    SourceSurvives(sources, valid, 1, Source(LATENCY, walltimes), name);
    SourceSurvives(sources, valid, 2, Source(HEAP_PEAK_BLOCKS, HeapPeakBlocks(memory)), name);
    SourceSurvives(sources, valid, 3, Source(HEAP_PEAK_BYTES, HeapPeakBytes(memory)), name);
    SourceSurvives(sources, valid, 4, Source(HEAP_TOTAL_BLOCKS, HeapTotalBlocks(memory)), name);
    SourceSurvives(sources, valid, 5, Source(HEAP_TOTAL_BYTES, HeapTotalBytes(memory)), name);
    forall measure | measure in MetricsOf(MergedAll(map[], sources, valid), name)
      ensures measure in [INSTRUCTIONS, LATENCY, HEAP_PEAK_BLOCKS, HEAP_PEAK_BYTES, HEAP_TOTAL_BLOCKS, HEAP_TOTAL_BYTES]
    {
      OnlySixMeasures(sources, valid, name, measure);
      RunMeasures(icounts, walltimes, memory);
    }
  }
}
