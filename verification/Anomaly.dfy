/** Robust statistics of a price baseline: median, median absolute deviation, robust z-score. */
module Anomaly {
  import opened Rows

  // ----- Median -----

  function InsertValue(sorted: seq<real>, x: real): seq<real> {
    if sorted == [] || sorted[|sorted| - 1] <= x then sorted + [x]
    else InsertValue(sorted[..|sorted| - 1], x) + [sorted[|sorted| - 1]]
  }

  function Sort(values: seq<real>): seq<real> {
    if values == [] then [] else InsertValue(Sort(values[..|values| - 1]), values[|values| - 1])
  }

  ghost predicate Ascending(s: seq<real>) {
    forall i, j :: 0 <= i <= j < |s| ==> s[i] <= s[j]
  }

  /** The middle value, or the mean of the two middle ones. */
  function MiddleOf(s: seq<real>): real
    requires s != []
  {
    var n := |s|;
    if n % 2 == 1 then s[n / 2] else (s[n / 2 - 1] + s[n / 2]) / 2.0
  }

  function Median(values: seq<real>): real
    requires values != []
  {
    SortKeepsCounts(values, 0.0);
    MiddleOf(Sort(values))
  }

  // ----- Counting -----

  function Below(values: seq<real>, x: real): nat {
    if values == [] then 0
    else Below(values[..|values| - 1], x) + if values[|values| - 1] < x then 1 else 0
  }

  function Above(values: seq<real>, x: real): nat {
    if values == [] then 0
    else Above(values[..|values| - 1], x) + if values[|values| - 1] > x then 1 else 0
  }

  lemma CountAppend(s: seq<real>, v: real, x: real)
    ensures Below(s + [v], x) == Below(s, x) + if v < x then 1 else 0
    ensures Above(s + [v], x) == Above(s, x) + if v > x then 1 else 0
  {
    assert (s + [v])[..|s|] == s;
  }

  lemma {:induction false} InsertKeepsCounts(s: seq<real>, v: real, x: real)
    ensures |InsertValue(s, v)| == |s| + 1
    ensures Below(InsertValue(s, v), x) == Below(s, x) + if v < x then 1 else 0
    ensures Above(InsertValue(s, v), x) == Above(s, x) + if v > x then 1 else 0
  {
    if s == [] || s[|s| - 1] <= v {
      CountAppend(s, v, x);
    } else {
      var front, last := s[..|s| - 1], s[|s| - 1];
      InsertKeepsCounts(front, v, x);
      CountAppend(InsertValue(front, v), last, x);
    }
  }

  lemma {:induction false} SortKeepsCounts(values: seq<real>, x: real)
    ensures |Sort(values)| == |values|
    ensures Below(Sort(values), x) == Below(values, x) && Above(Sort(values), x) == Above(values, x)
  {
    if values != [] {
      SortKeepsCounts(values[..|values| - 1], x);
      InsertKeepsCounts(Sort(values[..|values| - 1]), values[|values| - 1], x);
    }
  }

  lemma {:induction false} InsertAscends(s: seq<real>, v: real)
    requires Ascending(s)
    ensures Ascending(InsertValue(s, v)) && forall x :: x in InsertValue(s, v) ==> x in s || x == v
  {
    if s != [] && s[|s| - 1] > v {
      var front, last := s[..|s| - 1], s[|s| - 1];
      InsertAscends(front, v);
      var r := InsertValue(front, v);
      forall i | 0 <= i < |r| ensures r[i] <= last {
        assert r[i] in r;
      }
    }
  }

  lemma {:induction false} SortAscends(values: seq<real>)
    ensures Ascending(Sort(values))
  {
    if values != [] {
      SortAscends(values[..|values| - 1]);
      InsertAscends(Sort(values[..|values| - 1]), values[|values| - 1]);
    }
  }

  /** In an ascending sequence, a value below `x` at `i` means that many smaller ones. */
  lemma {:induction false} BelowFromTheLeft(s: seq<real>, x: real, i: nat)
    requires Ascending(s) && i < |s| && s[i] < x
    ensures Below(s, x) >= i + 1
  {
    var n := |s| - 1;
    if i < n {
      BelowFromTheLeft(s[..n], x, i);
    } else if i > 0 {
      BelowFromTheLeft(s[..n], x, i - 1);
    }
  }

  lemma {:induction false} AboveFromTheRight(s: seq<real>, x: real, i: nat)
    requires Ascending(s) && i < |s| && s[i] > x
    ensures Above(s, x) >= |s| - i
  {
    var n := |s| - 1;
    if i < n {
      AboveFromTheRight(s[..n], x, i);
    }
  }

  lemma MiddleAtLeast(s: seq<real>, lo: real)
    requires s != [] && Ascending(s) && 2 * Below(s, lo) < |s|
    ensures MiddleOf(s) >= lo
  {
    hide Below;
    forall i | 0 <= i < |s| && 2 * i + 2 >= |s| ensures s[i] >= lo {
      if s[i] < lo { BelowFromTheLeft(s, lo, i); }
    }
  }

  lemma MiddleAtMost(s: seq<real>, hi: real)
    requires s != [] && Ascending(s) && 2 * Above(s, hi) < |s|
    ensures MiddleOf(s) <= hi
  {
    hide Above;
    forall i | 0 <= i < |s| && 2 * i <= |s| ensures s[i] <= hi {
      if s[i] > hi { AboveFromTheRight(s, hi, i); }
    }
  }

  /** When fewer than half of the values are below `lo`, the median is not. */
  lemma MedianAtLeast(values: seq<real>, lo: real)
    requires values != [] && 2 * Below(values, lo) < |values|
    ensures Median(values) >= lo
  {
    hide Below, Above, Sort, MiddleOf;
    SortKeepsCounts(values, lo);
    SortAscends(values);
    MiddleAtLeast(Sort(values), lo);
  }

  lemma MedianAtMost(values: seq<real>, hi: real)
    requires values != [] && 2 * Above(values, hi) < |values|
    ensures Median(values) <= hi
  {
    hide Below, Above, Sort, MiddleOf;
    SortKeepsCounts(values, hi);
    SortAscends(values);
    MiddleAtMost(Sort(values), hi);
  }

  // ----- Median absolute deviation -----

  function Abs(x: real): real { if x < 0.0 then -x else x }

  function Deviations(values: seq<real>, m: real): (r: seq<real>)
    ensures |r| == |values| && forall i :: 0 <= i < |values| ==> r[i] == Abs(values[i] - m)
  {
    seq(|values|, i requires 0 <= i < |values| => Abs(values[i] - m))
  }

  datatype Stats = Stats(median: real, mad: real)

  /** `_robust_stats`. */
  function RobustStats(values: seq<real>): Stats
    requires values != []
  {
    var m := Median(values);
    Stats(m, Median(Deviations(values, m)))
  }

  // ----- What the statistics are -----

  /** The middle of an ascending sequence, or halfway between its two middle values. */
  function Middle(s: seq<real>): real
    requires s != []
  {
    (s[(|s| - 1) / 2] + s[|s| / 2]) / 2.0
  }

  lemma {:induction false} InsertKeepsValues(s: seq<real>, v: real)
    ensures multiset(InsertValue(s, v)) == multiset(s) + multiset{v}
  {
    if s != [] {
      var n := |s| - 1;
      assert s == s[..n] + [s[n]];
      if s[n] > v {
        InsertKeepsValues(s[..n], v);
      }
    }
  }

  lemma {:induction false} SortKeepsValues(values: seq<real>)
    ensures multiset(Sort(values)) == multiset(values)
  {
    if values != [] {
      var n := |values| - 1;
      assert values == values[..n] + [values[n]];
      SortKeepsValues(values[..n]);
      InsertKeepsValues(Sort(values[..n]), values[n]);
    }
  }

  lemma LastIsGreatest(s: seq<real>, x: real)
    requires Ascending(s) && x in multiset(s)
    ensures s != [] && x <= s[|s| - 1]
  {
    assert x in s;
  }

  lemma SameLast(a: seq<real>, b: seq<real>)
    requires Ascending(a) && Ascending(b) && multiset(a) == multiset(b) && a != []
    ensures b != [] && a[|a| - 1] == b[|b| - 1]
  {
    hide Ascending;
    assert a[|a| - 1] in multiset(b);
    LastIsGreatest(b, a[|a| - 1]);
    assert b[|b| - 1] in multiset(a);
    LastIsGreatest(a, b[|b| - 1]);
  }

  lemma FrontValues(a: seq<real>)
    requires a != []
    ensures a == a[..|a| - 1] + [a[|a| - 1]] && multiset(a[..|a| - 1]) == multiset(a) - multiset{a[|a| - 1]}
  {
    assert a == a[..|a| - 1] + [a[|a| - 1]];
  }

  lemma FrontAscends(a: seq<real>)
    requires Ascending(a) && a != []
    ensures Ascending(a[..|a| - 1])
  {
  }

  /** There is only one ascending arrangement of some values. */
  lemma {:induction false} OneArrangement(a: seq<real>, b: seq<real>)
    requires Ascending(a) && Ascending(b) && multiset(a) == multiset(b)
    ensures a == b
  {
    hide Ascending;
    if a != [] {
      SameLast(a, b);
      FrontValues(a);
      FrontValues(b);
      FrontAscends(a);
      FrontAscends(b);
      OneArrangement(a[..|a| - 1], b[..|b| - 1]);
    } else {
      assert |multiset(b)| == |b|;
    }
  }

  /** The statistics of a baseline in any order: the middle of its values, and the middle of their
      distances from it. */
  lemma RobustStatsAre(values: seq<real>, ordered: seq<real>, distances: seq<real>, spread: seq<real>)
    requires values != [] && Ascending(ordered) && multiset(ordered) == multiset(values) && |ordered| > 0
    requires |distances| == |values|
    requires forall i :: 0 <= i < |values| ==>
      distances[i] == if values[i] >= Middle(ordered) then values[i] - Middle(ordered) else Middle(ordered) - values[i]
    requires Ascending(spread) && multiset(spread) == multiset(distances) && |spread| > 0
    ensures RobustStats(values) == Stats(Middle(ordered), Middle(spread))
  {
    hide Sort, Ascending;
    MedianIs(values, ordered);
    assert Deviations(values, Middle(ordered)) == distances;
    MedianIs(distances, spread);
  }

  lemma MedianIs(values: seq<real>, ordered: seq<real>)
    requires values != [] && Ascending(ordered) && multiset(ordered) == multiset(values) && |ordered| > 0
    ensures Median(values) == Middle(ordered)
  {
    hide Sort, Ascending;
    SortKeepsValues(values);
    SortAscends(values);
    OneArrangement(Sort(values), ordered);
  }

  // ----- Breakdown -----

  /** How many values two baselines differ in. */
  function Changed(a: seq<real>, b: seq<real>): nat
    requires |a| == |b|
  {
    if a == [] then 0
    else Changed(a[..|a| - 1], b[..|b| - 1]) + if a[|a| - 1] != b[|b| - 1] then 1 else 0
  }

  /** The values the two baselines share lie in a range. */
  ghost predicate SharedWithin(a: seq<real>, b: seq<real>, lo: real, hi: real)
    requires |a| == |b|
  {
    forall i :: 0 <= i < |a| && a[i] == b[i] ==> lo <= a[i] <= hi
  }

  lemma {:induction false} FewOutside(a: seq<real>, b: seq<real>, lo: real, hi: real)
    requires |a| == |b| && SharedWithin(a, b, lo, hi)
    ensures Below(b, lo) <= Changed(a, b) && Above(b, hi) <= Changed(a, b)
  {
    if a != [] {
      var n := |a| - 1;
      assert forall i :: 0 <= i < n ==> a[..n][i] == a[i] && b[..n][i] == b[i];
      FewOutside(a[..n], b[..n], lo, hi);
    }
  }

  lemma {:induction false} FewDeviate(a: seq<real>, b: seq<real>, lo: real, hi: real, m: real)
    requires |a| == |b| && SharedWithin(a, b, lo, hi) && lo <= m <= hi
    ensures Above(Deviations(b, m), hi - lo) <= Changed(a, b)
  {
    if a != [] {
      var n := |a| - 1;
      assert forall i :: 0 <= i < n ==> a[..n][i] == a[i] && b[..n][i] == b[i];
      FewDeviate(a[..n], b[..n], lo, hi, m);
      assert Deviations(b, m)[..n] == Deviations(b[..n], m);
    }
  }

  lemma {:induction false} NoneNegative(s: seq<real>)
    requires forall i :: 0 <= i < |s| ==> s[i] >= 0.0
    ensures Below(s, 0.0) == 0
  {
    if s != [] {
      NoneNegative(s[..|s| - 1]);
    }
  }

  lemma DeviationsArePositive(b: seq<real>, m: real)
    ensures forall i :: 0 <= i < |b| ==> Deviations(b, m)[i] >= 0.0
  {
  }

  /** The breakdown bound: changing fewer than half of the baseline keeps the median within the range
      of the values that were kept, and the deviation at most that range. */
  lemma StatsSurviveContamination(a: seq<real>, b: seq<real>, lo: real, hi: real)
    requires |a| == |b| && 2 * Changed(a, b) < |a| && SharedWithin(a, b, lo, hi)
    ensures lo <= RobustStats(b).median <= hi
    ensures 0.0 <= RobustStats(b).mad <= hi - lo
  {
    hide Below, Above, Median, Changed, Deviations, SharedWithin;
    FewOutside(a, b, lo, hi);
    MedianAtLeast(b, lo);
    MedianAtMost(b, hi);
    var m := Median(b);
    FewDeviate(a, b, lo, hi, m);
    DeviationsArePositive(b, m);
    MedianAtMost(Deviations(b, m), hi - lo);
    NoneNegative(Deviations(b, m));
    MedianAtLeast(Deviations(b, m), 0.0);
  }

  function Repeat(x: real, n: nat): (r: seq<real>)
    ensures |r| == n && forall i :: 0 <= i < n ==> r[i] == x
  {
    seq(n, _ => x)
  }

  lemma InsertLast(s: seq<real>, v: real)
    requires s != [] ==> s[|s| - 1] <= v
    ensures InsertValue(s, v) == s + [v]
  {
  }

  lemma {:induction false} SortedStays(s: seq<real>)
    requires Ascending(s)
    ensures Sort(s) == s
  {
    if s != [] {
      var n := |s| - 1;
      SortedStays(s[..n]);
      InsertLast(s[..n], s[n]);
      assert s == s[..n] + [s[n]];
    }
  }

  lemma {:induction false} ChangedTail(n: nat, k: nat, x: real)
    requires x != 0.0
    ensures Changed(Repeat(0.0, n + k), Repeat(0.0, n) + Repeat(x, k)) == k
    decreases n + k
  {
    var a, b := Repeat(0.0, n + k), Repeat(0.0, n) + Repeat(x, k);
    if k > 0 {
      ChangedTail(n, k - 1, x);
      assert a[..n + k - 1] == Repeat(0.0, n + k - 1);
      assert b[..n + k - 1] == Repeat(0.0, n) + Repeat(x, k - 1);
    } else if n > 0 {
      ChangedTail(n - 1, 0, x);
      assert a[..n - 1] == Repeat(0.0, n - 1) && b[..n - 1] == Repeat(0.0, n - 1) + Repeat(x, 0);
    }
  }

  /** The bound is exact: for every size and every number of changes that is half or more, a constant
      baseline can be changed so that the median leaves it by as much as one likes. */
  lemma HalfTheBaselineBreaksTheMedian(n: nat, k: nat, x: real)
    requires k > 0 && n <= k && x > 0.0
    ensures exists a: seq<real>, b: seq<real> ::
      |a| == |b| == n + k && Changed(a, b) == k && SharedWithin(a, b, 0.0, 0.0) && RobustStats(b).median >= x / 2.0
  {
    hide RobustStats, Changed;
    var a, b := Repeat(0.0, n + k), Repeat(0.0, n) + Repeat(x, k);
    ChangedTail(n, k, x);
    MedianOfTail(n, k, x);
  }

  lemma MedianOfTail(n: nat, k: nat, x: real)
    requires k > 0 && n <= k && x > 0.0
    ensures RobustStats(Repeat(0.0, n) + Repeat(x, k)).median >= x / 2.0
  {
    hide Sort, Deviations;
    var b := Repeat(0.0, n) + Repeat(x, k);
    SortedStays(b);
    assert b[(n + k) / 2] == x;
  }

  // ----- Robust z-score -----

  function Max(a: real, b: real): real { if a >= b then a else b }

  function Scale(s: Stats): real {
    Max(1.4826 * s.mad, Max(Abs(s.median) * 0.01, 0.000000001))
  }

  function Score(s: Stats, value: real): real {
    Abs(value - s.median) / Scale(s)
  }

  /** The largest scale a baseline with its kept values in `[lo, hi]` can have. */
  function ScaleBound(lo: real, hi: real): real {
    Max(1.4826 * (hi - lo), Max(Max(Abs(lo), Abs(hi)) * 0.01, 0.000000001))
  }

  lemma ScaleIsBounded(s: Stats, lo: real, hi: real)
    requires lo <= s.median <= hi && 0.0 <= s.mad <= hi - lo
    ensures 0.0 < Scale(s) <= ScaleBound(lo, hi)
  {
  }

  lemma QuotientAtLeast(x: real, d: real, z: real)
    requires d > 0.0 && x >= z * d
    ensures x / d >= z
  {
    assert x / d * d == x;
  }

  lemma ProductMonotone(z: real, d: real, e: real)
    requires z >= 0.0 && d <= e
    ensures z * d <= z * e
  {
    assert z * (e - d) >= 0.0;
  }

  lemma FarFromTheMedian(value: real, m: real, lo: real, hi: real, distance: real)
    requires lo <= m <= hi && (value >= hi + distance || value <= lo - distance)
    ensures Abs(value - m) >= distance
  {
  }

  datatype Severity = Failed | Degraded

  datatype Thresholds = Thresholds(warn: real, fail: real, minimum: nat)

  function Grade(t: Thresholds, score: real): Option<Severity> {
    if score >= t.fail then Some(Failed) else if score >= t.warn then Some(Degraded) else None
  }

  datatype Finding = Finding(metric: string, severity: Severity, value: real, stats: Stats, score: real)

  /** The distribution check of one metric. */
  function Assess(metric: string, baseline: seq<real>, value: Option<real>, t: Thresholds): Option<Finding> {
    if |baseline| < t.minimum || value.None? || baseline == [] then None
    else
      var stats := RobustStats(baseline);
      match Grade(t, Score(stats, value.value))
      case None => None
      case Some(level) => Some(Finding(metric, level, value.value, stats, Score(stats, value.value)))
  }

  /** The unit the distance from the median is measured in: the scaled deviation, at least one percent of the
      median, and never zero. */
  ghost predicate IsUnit(s: Stats, unit: real) {
    && unit >= 1.4826 * s.mad && unit >= s.median / 100.0 && unit >= -s.median / 100.0 && unit >= 0.000000001
    && (unit == 1.4826 * s.mad || unit == s.median / 100.0 || unit == -s.median / 100.0 || unit == 0.000000001)
  }

  /** The value is at least `z` units away from the median. */
  ghost predicate Far(s: Stats, unit: real, value: real, z: real) {
    value - s.median >= z * unit || s.median - value >= z * unit
  }

  lemma UnitIsScale(s: Stats, unit: real)
    requires IsUnit(s, unit)
    ensures unit == Scale(s) > 0.0
  {
    assert Abs(s.median) * 0.01 == Abs(s.median) / 100.0;
  }

  lemma FarMeansScore(s: Stats, value: real, z: real)
    requires z >= 0.0
    ensures Score(s, value) >= z <==> Far(s, Scale(s), value, z)
    ensures Score(s, value) * Scale(s) == Abs(value - s.median)
  {
    hide Scale;
    ScaleIsPositive(s);
    var x, d := Abs(value - s.median), Scale(s);
    assert x / d * d == x;
    if x / d >= z { ProductMonotoneLeft(x / d, z, d); }
    if x >= z * d { QuotientAtLeast(x, d, z); }
    assert z * d >= 0.0;
  }

  lemma ScaleIsPositive(s: Stats)
    ensures Scale(s) > 0.0
  {
  }

  lemma ProductMonotoneLeft(x: real, z: real, d: real)
    requires d > 0.0 && x >= z
    ensures x * d >= z * d
  {
    assert (x - z) * d >= 0.0;
  }

  /** When the check of a metric says something, and what: with enough history, a value that is as many
      units from the median as the warning threshold is reported, as failed from the failure threshold on,
      with the value, the statistics and its distance; anything nearer is not. */
  lemma AssessmentIs(metric: string, baseline: seq<real>, value: Option<real>, t: Thresholds, unit: real)
    requires 0.0 <= t.warn <= t.fail && (baseline != [] ==> IsUnit(RobustStats(baseline), unit))
    ensures var found := Assess(metric, baseline, value, t);
      && (found.Some? <==>
            |baseline| >= t.minimum && baseline != [] && value.Some? && Far(RobustStats(baseline), unit, value.value, t.warn))
      && (found.Some? ==>
            var f := found.value;
            && f.metric == metric && f.value == value.value && f.stats == RobustStats(baseline)
            && (f.severity == Failed <==> Far(f.stats, unit, f.value, t.fail))
            && f.score * unit == Abs(f.value - f.stats.median))
  {
    hide RobustStats, Scale, Score, IsUnit, Far;
    if baseline != [] && value.Some? {
      var s := RobustStats(baseline);
      UnitIsScale(s, unit);
      FarMeansScore(s, value.value, t.warn);
      FarMeansScore(s, value.value, t.fail);
    }
  }

  /** No masking: however fewer than half of the baseline is corrupted, a value far enough outside the
      range of the rest is reported as failed. */
  lemma OutliersCannotBeMasked(
    metric: string, a: seq<real>, b: seq<real>, lo: real, hi: real, value: real, t: Thresholds)
    requires |a| == |b| && 2 * Changed(a, b) < |a| && SharedWithin(a, b, lo, hi) && lo <= hi
    requires |b| >= t.minimum && t.fail >= 0.0
    requires value >= hi + t.fail * ScaleBound(lo, hi) || value <= lo - t.fail * ScaleBound(lo, hi)
    ensures Assess(metric, b, Some(value), t).Some? && Assess(metric, b, Some(value), t).value.severity == Failed
  {
    hide RobustStats, Changed, SharedWithin, Scale, ScaleBound;
    var s := RobustStats(b);
    StatsSurviveContamination(a, b, lo, hi);
    ScaleIsBounded(s, lo, hi);
    ProductMonotone(t.fail, Scale(s), ScaleBound(lo, hi));
    FarFromTheMedian(value, s.median, lo, hi, t.fail * ScaleBound(lo, hi));
    QuotientAtLeast(Abs(value - s.median), Scale(s), t.fail);
  }

  /** The metrics of a day, absent ones included. */
  type Profile = map<string, Option<real>>

  function BaselineOf(history: seq<Profile>, metric: string): seq<real> {
    if history == [] then []
    else
      var day := history[|history| - 1];
      BaselineOf(history[..|history| - 1], metric) +
      if metric in day && day[metric].Some? then [day[metric].value] else []
  }

  function ValueOn(day: Profile, metric: string): Option<real> {
    if metric in day then day[metric] else None
  }

  function Findings(history: seq<Profile>, current: Profile, metrics: seq<string>, t: Thresholds): seq<Finding> {
    if metrics == [] then []
    else
      var metric := metrics[|metrics| - 1];
      Findings(history, current, metrics[..|metrics| - 1], t) +
      match Assess(metric, BaselineOf(history, metric), ValueOn(current, metric), t)
      case None => []
      case Some(f) => [f]
  }

  /** Each day adds its value of the metric to the baseline, if it has one; each metric its finding. */
  lemma BaselineGrows(history: seq<Profile>, day: Profile, metric: string)
    ensures BaselineOf(history + [day], metric) == BaselineOf(history, metric) +
      match ValueOn(day, metric) case None => [] case Some(x) => [x]
    ensures ValueOn(day, metric) == if metric in day then day[metric] else None
  {
    assert (history + [day])[..|history|] == history;
  }

  lemma FindingsGrow(history: seq<Profile>, current: Profile, metrics: seq<string>, metric: string, t: Thresholds)
    ensures Findings(history, current, metrics + [metric], t) == Findings(history, current, metrics, t) +
      match Assess(metric, BaselineOf(history, metric), ValueOn(current, metric), t) case None => [] case Some(f) => [f]
  {
    assert (metrics + [metric])[..|metrics|] == metrics;
  }

  /** The values the history has of a metric. */
  method BaselineValues(history: seq<Profile>, metric: string) returns (values: seq<real>)
    ensures values == BaselineOf(history, metric)
  {
    values := [];
    for d := 0 to |history|
      invariant values == BaselineOf(history[..d], metric)
    {
      assert history[..d + 1] == history[..d] + [history[d]];
      BaselineGrows(history[..d], history[d], metric);
      var day := history[d];
      if metric in day && day[metric].Some? {
        values := values + [day[metric].value];
      }
    }
    assert history[..|history|] == history;
  }

  /** The loop over the metrics, once there is enough history. */
  method DistributionFindings(history: seq<Profile>, current: Profile, metrics: seq<string>, t: Thresholds)
    returns (findings: seq<Finding>)
    ensures findings == if |history| >= t.minimum then Findings(history, current, metrics, t) else []
  {
    hide Assess, BaselineOf, ValueOn;
    findings := [];
    if |history| < t.minimum {
      return;
    }
    for n := 0 to |metrics|
      invariant findings == Findings(history, current, metrics[..n], t)
    {
      assert metrics[..n + 1] == metrics[..n] + [metrics[n]];
      FindingsGrow(history, current, metrics[..n], metrics[n], t);
      var values := BaselineValues(history, metrics[n]);
      var finding := Assess(metrics[n], values, ValueOn(current, metrics[n]), t);
      if finding.Some? {
        findings := findings + [finding.value];
      }
    }
    assert metrics[..|metrics|] == metrics;
  }
}
