/** Significance thresholds derived from the history of results on the main branch. */
module Thresholds {
  import opened Prelude
  import opened Results
  import opened Sorting

  predicate LeReal(x: real, y: real) { x <= y }

  /** The change from one result to the next, relative to the first. */
  function RelativeChange(before: real, after: real): real
    requires before != 0.0
  {
    Abs(before - after) / before
  }

  /** Relative change between each result and the next. */
  function Changes(results: seq<NonZero>): (changes: seq<real>)
    ensures |changes| == if results == [] then 0 else |results| - 1
  {
    if |results| < 2 then [] else
      seq(|results| - 1, i requires 0 <= i < |results| - 1 => RelativeChange(results[i], results[i + 1]))
  }

  lemma ChangeAt(results: seq<NonZero>, i: nat)
    requires i < |results| - 1
    ensures Changes(results)[i] == RelativeChange(results[i], results[i + 1])
  {
  }

  /** The change of rank `i`, counting from the smallest. */
  function Ranked(changes: seq<real>, i: nat): real
    requires i < |changes|
  {
    SortPermutes(changes, LeReal);
    Sort(changes, LeReal)[i]
  }

  function Q1(changes: seq<real>): real
    requires changes != []
  {
    Ranked(changes, |changes| / 4)
  }

  function Q3(changes: seq<real>): real
    requires changes != []
  {
    Ranked(changes, |changes| * 3 / 4)
  }

  /** The upper fence: three inter-quartile ranges above the third quartile. */
  function Fence(changes: seq<real>): real
    requires changes != []
  {
    var iqr := Q3(changes) - Q1(changes);
    Q3(changes) + iqr * 3.0
  }

  /** A scenario's results, in the order of the history. */
  function Named(history: seq<BenchResult>, name: string): seq<NonZero> {
    if history == [] then [] else
      var rest := Named(history[..|history| - 1], name);
      var last := history[|history| - 1];
      if last.name == name then rest + [last.result] else rest
  }

  /** A scenario's results of one kind, in the order of the history. */
  function Selected(history: seq<BenchResult>, kind: ScenarioKind, name: string): seq<NonZero> {
    if history == [] then [] else
      var rest := Selected(history[..|history| - 1], kind, name);
      var last := history[|history| - 1];
      if last.name == name && last.kind == kind then rest + [last.result] else rest
  }

  function OfKind(history: seq<BenchResult>, kind: ScenarioKind): seq<BenchResult> {
    if history == [] then [] else
      var rest := OfKind(history[..|history| - 1], kind);
      var last := history[|history| - 1];
      if last.kind == kind then rest + [last] else rest
  }

  /** The threshold some results call for: none below ten results. */
  function ThresholdOf(results: seq<NonZero>): Option<real> {
    if |results| < 10 then None else Some(Fence(Changes(results)))
  }

  function Entry(thresholds: map<string, real>, name: string): Option<real> {
    if name in thresholds then Some(thresholds[name]) else None
  }

  method CalculateSignificanceThresholds(historical: seq<BenchResult>) returns (thresholds: map<string, real>)
    ensures forall name :: Entry(thresholds, name) == ThresholdOf(Named(historical, name))
  {
    var byName: map<string, seq<NonZero>> := map[];
    for i := 0 to |historical|
      invariant forall name :: name in byName <==> Named(historical[..i], name) != []
      invariant forall name :: name in byName ==> byName[name] == Named(historical[..i], name)
    {
      var result := historical[i];
      assert historical[..i + 1][..i] == historical[..i] && historical[..i + 1][i] == result;
      var earlier := if result.name in byName then byName[result.name] else [];
      byName := byName[result.name := earlier + [result.result]];
    }
    assert historical[..|historical|] == historical;

    thresholds := map[];
    var names := byName.Keys;
    while names != {}
      invariant names <= byName.Keys
      invariant forall name :: name in byName && name !in names ==>
                  Entry(thresholds, name) == ThresholdOf(byName[name])
      invariant forall name :: name in thresholds ==> name in byName && name !in names
      decreases names
    {
      var name :| name in names;
      names := names - {name};
      var results := byName[name];
      if |results| < 10 {
        continue;
      }
      thresholds := thresholds[name := Fence(Changes(results))];
    }
  }

  /** Keeps the results of one kind. */
  method FilterKind(historical: seq<BenchResult>, kind: ScenarioKind) returns (results: seq<BenchResult>)
    ensures results == OfKind(historical, kind)
  {
    results := [];
    for i := 0 to |historical|
      invariant results == OfKind(historical[..i], kind)
    {
      assert historical[..i + 1][..i] == historical[..i];
      if historical[i].kind == kind {
        results := results + [historical[i]];
      }
    }
    assert historical[..|historical|] == historical;
  }

  datatype SignificanceThresholds = SignificanceThresholds(
    icount: map<string, real>, walltime: map<string, real>, memory: map<string, real>)
  {
    function Of(kind: ScenarioKind): map<string, real> {
      match kind
      case Icount => icount
      case Walltime => walltime
      case Memory => memory
    }
  }

  lemma {:induction false} NamedOfKind(history: seq<BenchResult>, kind: ScenarioKind, name: string)
    ensures Named(OfKind(history, kind), name) == Selected(history, kind, name)
  {
    if history != [] {
      var n := |history| - 1;
      NamedOfKind(history[..n], kind, name);
      if history[n].kind == kind {
        var rest := OfKind(history[..n], kind);
        assert (rest + [history[n]])[..|rest|] == rest;
      }
    }
  }

  /** The thresholds of a comparison: per kind and scenario, what that scenario's own results call for. */
  method ThresholdsByKind(historical: seq<BenchResult>) returns (thresholds: SignificanceThresholds)
    ensures forall kind, name ::
              Entry(thresholds.Of(kind), name) == ThresholdOf(Selected(historical, kind, name))
  {
    var icounts := FilterKind(historical, Icount);
    var icount := CalculateSignificanceThresholds(icounts);
    var walltimes := FilterKind(historical, Walltime);
    var walltime := CalculateSignificanceThresholds(walltimes);
    var memories := FilterKind(historical, Memory);
    var memory := CalculateSignificanceThresholds(memories);
    thresholds := SignificanceThresholds(icount, walltime, memory);
    hide ThresholdOf, Named, Selected, OfKind;
    forall kind, name
      ensures Entry(thresholds.Of(kind), name) == ThresholdOf(Selected(historical, kind, name))
    {
      NamedOfKind(historical, kind, name);
    }
  }

  lemma {:induction false} SelectedConcat(a: seq<BenchResult>, b: seq<BenchResult>, kind: ScenarioKind, name: string)
    ensures Selected(a + b, kind, name) == Selected(a, kind, name) + Selected(b, kind, name)
  {
    if b == [] {
      assert a + b == a;
    } else {
      var n := |b| - 1;
      assert (a + b)[..|a + b| - 1] == a + b[..n];
      SelectedConcat(a, b[..n], kind, name);
    }
  }

  /**
   However the results of other scenarios or kinds are interleaved, a scenario's threshold
   is unaffected: dropping a foreign result anywhere in the history changes nothing.
   */
  lemma {:induction false} ForeignResultsDoNotMatter(a: seq<BenchResult>, x: BenchResult, b: seq<BenchResult>,
                                                     kind: ScenarioKind, name: string)
    requires x.name != name || x.kind != kind
    ensures ThresholdOf(Selected(a + [x] + b, kind, name)) == ThresholdOf(Selected(a + b, kind, name))
  {
    SelectedConcat(a + [x], b, kind, name);
    SelectedConcat(a, [x], kind, name);
    SelectedConcat(a, b, kind, name);
  }

  // ----- The rule, told from the history alone -----

  /** `idx` lists, in order, the positions of the history that satisfy `p`. */
  ghost predicate Positions(idx: seq<nat>, history: seq<BenchResult>, p: BenchResult -> bool) {
    && (forall k :: 0 <= k < |idx| ==> idx[k] < |history| && p(history[idx[k]]))
    && (forall j, k :: 0 <= j < k < |idx| ==> idx[j] < idx[k])
    && (forall i :: 0 <= i < |history| && p(history[i]) ==> i in idx)
  }

  function IsNamed(name: string): BenchResult -> bool {
    (r: BenchResult) => r.name == name
  }

  function IsOf(kind: ScenarioKind, name: string): BenchResult -> bool {
    (r: BenchResult) => r.name == name && r.kind == kind
  }

  /** One position less when the last result is one of them, the same positions otherwise. */
  lemma PositionsBefore(idx: seq<nat>, history: seq<BenchResult>, p: BenchResult -> bool)
    requires Positions(idx, history, p) && history != []
    ensures var n := |history| - 1;
            if p(history[n])
            then idx != [] && idx[|idx| - 1] == n && Positions(idx[..|idx| - 1], history[..n], p)
            else Positions(idx, history[..n], p)
  {
    var n := |history| - 1;
    if p(history[n]) {
      var k :| 0 <= k < |idx| && idx[k] == n;
      var last := |idx| - 1;
      assert idx[k] <= idx[last] == n;
      assert forall i :: i in idx && i != n ==> i in idx[..last];
    }
  }

  lemma {:induction false} NamedAt(history: seq<BenchResult>, name: string, idx: seq<nat>)
    requires Positions(idx, history, IsNamed(name))
    ensures |Named(history, name)| == |idx|
    ensures forall k :: 0 <= k < |idx| ==> Named(history, name)[k] == history[idx[k]].result
  {
    if idx != [] {
      assert idx[0] < |history|;
    }
    if history != [] {
      var n := |history| - 1;
      PositionsBefore(idx, history, IsNamed(name));
      if history[n].name == name {
        NamedAt(history[..n], name, idx[..|idx| - 1]);
      } else {
        NamedAt(history[..n], name, idx);
      }
    }
  }

  lemma {:induction false} SelectedAt(history: seq<BenchResult>, kind: ScenarioKind, name: string, idx: seq<nat>)
    requires Positions(idx, history, IsOf(kind, name))
    ensures |Selected(history, kind, name)| == |idx|
    ensures forall k :: 0 <= k < |idx| ==> Selected(history, kind, name)[k] == history[idx[k]].result
  {
    if idx != [] {
      assert idx[0] < |history|;
    }
    if history != [] {
      var n := |history| - 1;
      PositionsBefore(idx, history, IsOf(kind, name));
      assert IsOf(kind, name)(history[n]) <==> history[n].name == name && history[n].kind == kind;
      if history[n].name == name && history[n].kind == kind {
        SelectedAt(history[..n], kind, name, idx[..|idx| - 1]);
      } else {
        SelectedAt(history[..n], kind, name, idx);
      }
    }
  }

  /** `ch` has the change from each result to the next, relative to the first. */
  ghost predicate AreChanges(ch: seq<real>, results: seq<NonZero>) {
    && |ch| == |results| - 1
    && forall i :: 0 <= i < |ch| ==> ch[i] == Abs(results[i] as real - results[i + 1] as real) / results[i] as real
  }

  /** `arranged` has the same numbers in ascending order. */
  ghost predicate Arranges(arranged: seq<real>, ch: seq<real>) {
    multiset(arranged) == multiset(ch) && forall i, j :: 0 <= i < j < |arranged| ==> arranged[i] <= arranged[j]
  }

  lemma QuartileRanks(ch: seq<real>, arranged: seq<real>)
    requires Arranges(arranged, ch) && ch != []
    ensures |arranged| == |ch|
    ensures Fence(ch) == 4.0 * arranged[|ch| * 3 / 4] - 3.0 * arranged[|ch| / 4]
  {
    RankedUnique(ch, arranged, |ch| * 3 / 4);
    RankedUnique(ch, arranged, |ch| / 4);
  }

  lemma ChangesAre(ch: seq<real>, results: seq<NonZero>)
    requires AreChanges(ch, results)
    ensures ch == Changes(results)
  {
    forall i | 0 <= i < |ch| ensures ch[i] == Changes(results)[i] {
      ChangeAt(results, i);
    }
  }

  lemma ArrangementExists(results: seq<NonZero>)
    requires results != []
    ensures exists ch, arranged :: AreChanges(ch, results) && Arranges(arranged, ch)
  {
    var ch := Changes(results);
    var arranged := Sort(ch, LeReal);
    SortPermutes(ch, LeReal);
    SortSorts(ch, LeReal);
    forall i | 0 <= i < |ch| ensures ch[i] == Abs(results[i] as real - results[i + 1] as real) / results[i] as real {
      ChangeAt(results, i);
    }
    forall i, j | 0 <= i < j < |arranged| ensures arranged[i] <= arranged[j] {
      assert LeReal(arranged[i], arranged[j]);
    }
    assert AreChanges(ch, results) && Arranges(arranged, ch);
  }

  /**
   The threshold in the numbers of the history: nothing for fewer than ten results; otherwise,
   with the n changes in ascending order, four times the one at index 3n/4 less three times
   the one at index n/4.
   */
  lemma FenceRule(results: seq<NonZero>, ch: seq<real>, arranged: seq<real>)
    ensures |results| < 10 ==> ThresholdOf(results) == None
    ensures |results| >= 10 && AreChanges(ch, results) && Arranges(arranged, ch) ==>
              var n := |results| - 1;
              && |arranged| == n && n * 3 / 4 < n
              && ThresholdOf(results) == Some(4.0 * arranged[n * 3 / 4] - 3.0 * arranged[n / 4])
  {
    hide Fence, Changes;
    if |results| >= 10 && AreChanges(ch, results) && Arranges(arranged, ch) {
      ChangesAre(ch, results);
      QuartileRanks(ch, arranged);
    }
  }

  // ----- What the fence guarantees -----

  lemma RankedIncreases(changes: seq<real>, i: nat, j: nat)
    requires i <= j < |changes|
    ensures Ranked(changes, i) <= Ranked(changes, j)
  {
    SortPermutes(changes, LeReal);
    SortSorts(changes, LeReal);
  }

  lemma RankedIsElement(changes: seq<real>, i: nat)
    requires i < |changes|
    ensures Ranked(changes, i) in changes
  {
    SortPermutes(changes, LeReal);
    assert Sort(changes, LeReal)[i] in multiset(Sort(changes, LeReal));
  }

  function Exceeding(bound: real): real -> bool {
    x => x > bound
  }

  lemma {:induction false} FewExceedSorted(sorted: seq<real>, i: nat, bound: real)
    requires i < |sorted| && SortedBy(sorted, LeReal) && sorted[i] <= bound
    ensures Count(sorted, Exceeding(bound)) <= |sorted| - 1 - i
  {
    var low, high := sorted[..i + 1], sorted[i + 1..];
    forall j | 0 <= j < |low| ensures !Exceeding(bound)(low[j]) {
      assert j < i ==> LeReal(sorted[j], sorted[i]);
    }
    CountBounds(low, Exceeding(bound));
    CountBounds(high, Exceeding(bound));
    CountConcat(low, high, Exceeding(bound));
    assert sorted == low + high;
  }

  /** At most the elements above rank `i` exceed a bound that is not below the element of rank `i`. */
  lemma {:induction false} FewExceed(changes: seq<real>, i: nat, bound: real)
    requires i < |changes| && Ranked(changes, i) <= bound
    ensures Count(changes, Exceeding(bound)) <= |changes| - 1 - i
  {
    SortPermutes(changes, LeReal);
    SortSorts(changes, LeReal);
    CountPermutation(changes, Sort(changes, LeReal), Exceeding(bound));
    FewExceedSorted(Sort(changes, LeReal), i, bound);
  }

  lemma ChangeIsNonNegative(before: real, after: real)
    requires before > 0.0
    ensures RelativeChange(before, after) >= 0.0
  {
  }

  lemma ChangesAreNonNegative(results: seq<NonZero>)
    requires forall x :: x in results ==> x > 0.0
    ensures forall x :: x in Changes(results) ==> x >= 0.0
  {
    forall i | 0 <= i < |Changes(results)| ensures Changes(results)[i] >= 0.0 {
      assert results[i] in results;
      ChangeIsNonNegative(results[i], results[i + 1]);
    }
  }

  /**
   For at least ten positive results the quartile ranks are in bounds, 0 <= q1 <= q3 <= fence, the
   fence is 4 q3 - 3 q1, and fewer than a quarter of the historic changes exceed it.
   */
  lemma QuartileFence(results: seq<NonZero>)
    requires |results| >= 10 && forall x :: x in results ==> x > 0.0
    ensures var changes := Changes(results); var n := |changes|;
            && n / 4 < n && n * 3 / 4 < n
            && 0.0 <= Q1(changes) <= Q3(changes) <= Fence(changes)
            && Fence(changes) == 4.0 * Q3(changes) - 3.0 * Q1(changes)
            && ThresholdOf(results) == Some(Fence(changes))
            && Count(changes, Exceeding(Fence(changes))) <= (n + 3) / 4 - 1
            && 4 * Count(changes, Exceeding(Fence(changes))) < n
  {
    var changes := Changes(results);
    var n := |changes|;
    RankedIncreases(changes, n / 4, n * 3 / 4);
    RankedIsElement(changes, n / 4);
    ChangesAreNonNegative(results);
    FewExceed(changes, n * 3 / 4, Fence(changes));
  }

  /** The sort used is immaterial: any sorted arrangement of the changes has the same elements by rank. */
  lemma RankedUnique(changes: seq<real>, arranged: seq<real>, i: nat)
    requires i < |changes| && multiset(arranged) == multiset(changes) && SortedBy(arranged, LeReal)
    ensures |arranged| == |changes| && Ranked(changes, i) == arranged[i]
  {
    SortPermutes(changes, LeReal);
    SortSorts(changes, LeReal);
    SortedUnique(arranged, Sort(changes, LeReal), LeReal);
  }

  // ----- Units do not matter -----

  function Scaled(c: real, x: NonZero): NonZero
    requires c > 0.0
  {
    ProductNonZero(c, x);
    c * x
  }

  lemma ProductNonZero(c: real, x: NonZero)
    requires c > 0.0
    ensures c * x != 0.0
  {
  }

  function ScaledAll(c: real, results: seq<NonZero>): seq<NonZero>
    requires c > 0.0
  {
    seq(|results|, i requires 0 <= i < |results| => Scaled(c, results[i]))
  }

  lemma RatioScales(c: real, x: real, y: NonZero)
    requires c > 0.0
    ensures c * y != 0.0 && (c * x) / (c * y) == x / y
  {
    var q := x / y;
    assert q * y == x;
    assert (c * y) * q == c * x;
    ProductNonZero(c, y);
  }

  lemma AbsScales(c: real, x: real)
    requires c > 0.0
    ensures Abs(c * x) == c * Abs(x)
  {
  }

  lemma RelativeChangeScales(c: real, x: NonZero, y: NonZero)
    requires c > 0.0
    ensures RelativeChange(Scaled(c, x), Scaled(c, y)) == RelativeChange(x, y)
  {
    var d: real := x as real - y as real;
    assert c * x - c * y == c * d;
    AbsScales(c, d);
    RatioScales(c, Abs(d), x);
  }

  lemma ChangesScale(c: real, results: seq<NonZero>)
    requires c > 0.0
    ensures Changes(ScaledAll(c, results)) == Changes(results)
  {
    var scaled := ScaledAll(c, results);
    forall i | 0 <= i < |Changes(results)| ensures Changes(scaled)[i] == Changes(results)[i] {
      ChangeAt(scaled, i);
      ChangeAt(results, i);
      assert scaled[i] == Scaled(c, results[i]) && scaled[i + 1] == Scaled(c, results[i + 1]);
      RelativeChangeScales(c, results[i], results[i + 1]);
    }
  }

  function ScaledDiff(c: real, d: ScenarioDiff): ScenarioDiff {
    d.(baseline := c * d.baseline, candidate := c * d.candidate)
  }

  lemma DiffScales(c: real, d: ScenarioDiff)
    requires c > 0.0
    ensures ScaledDiff(c, d).AbsRatio() == d.AbsRatio()
  {
    assert ScaledDiff(c, d).Diff() == c * d.Diff();
    if d.baseline != 0.0 {
      RatioScales(c, d.Diff(), d.baseline);
    }
  }

  /**
   Measuring in another unit changes neither the threshold nor the ratio nor the verdict.
   */
  lemma UnitIndependence(c: real, results: seq<NonZero>, d: ScenarioDiff)
    requires c > 0.0
    ensures ThresholdOf(ScaledAll(c, results)) == ThresholdOf(results)
    ensures ScaledDiff(c, d).AbsRatio() == d.AbsRatio()
    ensures ScaledDiff(c, d).Significant() <==> d.Significant()
  {
    ChangesScale(c, results);
    DiffScales(c, d);
  }
}
