/** Benchmark results and comparisons, as they are stored and reported. */
module Results {
  import opened Prelude

  datatype ScenarioKind = Icount | Walltime | Memory

  /** A historic result: the next result's change is taken relative to it. */
  type NonZero = r: real | r != 0.0 witness 1.0

  function Abs(x: real): real {
    if x < 0.0 then -x else x
  }

  /** A row of `bench_results`, without its run. */
  datatype BenchResult = BenchResult(name: string, kind: ScenarioKind, result: NonZero)

  /** The absolute value of a quotient of floats: a nonzero number by zero, and zero by zero. */
  datatype Ratio = Finite(value: real) | Infinite | NotANumber

  datatype ScenarioDiff = ScenarioDiff(
    name: string, kind: ScenarioKind, baseline: real, candidate: real, threshold: real,
    cachegrindDiff: Option<string>)
  {
    function Diff(): real { candidate - baseline }

    /** `diff_ratio().abs()` */
    function AbsRatio(): Ratio {
      if baseline != 0.0 then Finite(Abs(Diff() / baseline))
      else if Diff() != 0.0 then Infinite
      else NotANumber
    }

    /** The change is not below the scenario's threshold; no comparison with NaN holds. */
    predicate Significant() {
      !(AbsRatio().Finite? && AbsRatio().value < threshold)
    }
  }

  datatype MemoryDetails = MemoryDetails(
    heapTotalBytes: nat, heapTotalBlocks: nat, heapPeakBytes: nat, heapPeakBlocks: nat)
  {
    function ComparisonBasis(): nat { heapTotalBytes }
  }

  datatype ComparisonSubResult = ComparisonSubResult(
    diffs: seq<ScenarioDiff>, missing: seq<string>,
    memoryDetails: Option<map<string, (MemoryDetails, MemoryDetails)>>)

  datatype ComparisonResult = ComparisonResult(
    icount: ComparisonSubResult, walltime: ComparisonSubResult, memory: ComparisonSubResult)
  {
    function Sub(kind: ScenarioKind): ComparisonSubResult {
      match kind
      case Icount => icount
      case Walltime => walltime
      case Memory => memory
    }
  }
}
