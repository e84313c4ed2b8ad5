/**
  Robust anomaly detection (services/benchmark-engine/src/anomaly.ts): the modified z-score from the median
  and the median absolute deviation, over exact reals.
 */
module Anomaly {
  import opened Wrappers
  import opened Sorting
  import opened Reals
  import opened Similarity

  datatype SeriesPoint = SeriesPoint(date: string, value: real)

  datatype AnomalyKind = Spike | Drop

  datatype Severity = Low | Med | High

  datatype Anomaly = Anomaly(
    date: string, metric: string, kind: AnomalyKind, severity: Severity, observed: real,
    expectedLow: real, expectedHigh: real, z: real)

  predicate AtMost(x: real, y: real) { x <= y }

  function Median(xs: seq<real>): (m: Option<real>)
    ensures m.Some? <==> xs != []
  {
    var s := Sort(xs, AtMost);
    if s == [] then None else Some(Middle(s))
  }

  function Middle(s: seq<real>): real
    requires s != []
  {
    if |s| % 2 == 1 then s[|s| / 2] else (s[|s| / 2 - 1] + s[|s| / 2]) / 2.0
  }

  function SeverityFor(absZ: real, threshold: real): Severity {
    if absZ >= threshold * 2.0 then High else if absZ >= threshold * 1.4 then Med else Low
  }

  function Value(p: SeriesPoint): real { p.value }

  function Values(series: seq<SeriesPoint>): seq<real> { Mapped(series, Value) }

  function Deviation(med: real): real -> real { (v: real) => Abs(v - med) }

  function Deviations(values: seq<real>, med: real): (devs: seq<real>)
    ensures |devs| == |values| && forall i :: 0 <= i < |devs| ==> devs[i] == Abs(values[i] - med)
  {
    Mapped(values, Deviation(med))
  }

  type Positive = x: real | x > 0.0 witness 1.0

  datatype Spread = Spread(med: real, scale: Positive)

  /** The centre and the scale of a series, unless it is too short or has no dispersion. */
  function SpreadOf(values: seq<real>): Option<Spread> {
    if |values| < 4 then None
    else
      var med := Median(values).value;
      SpreadFrom(med, Median(Deviations(values, med)).value)
  }

  function SpreadFrom(med: real, mad: real): Option<Spread> {
    if mad > 0.0 then Some(Spread(med, mad / 0.6745)) else None
  }

  function ZScore(spread: Spread, v: real): real { (v - spread.med) / spread.scale }

  predicate IsFlagged(spread: Spread, threshold: real, p: SeriesPoint) { Abs(ZScore(spread, p.value)) >= threshold }

  function Flagged(spread: Spread, threshold: real): SeriesPoint -> bool {
    (p: SeriesPoint) => IsFlagged(spread, threshold, p)
  }

  function ExpectedLow(spread: Spread, threshold: real): real { spread.med - threshold * spread.scale }

  function ExpectedHigh(spread: Spread, threshold: real): real { spread.med + threshold * spread.scale }

  function ReportPoint(metric: string, spread: Spread, threshold: real, p: SeriesPoint): Anomaly {
    var z := ZScore(spread, p.value);
    Anomaly(p.date, metric, if z > 0.0 then Spike else Drop, SeverityFor(Abs(z), threshold), p.value,
            ExpectedLow(spread, threshold), ExpectedHigh(spread, threshold), z)
  }

  function Report(metric: string, spread: Spread, threshold: real): SeriesPoint -> Anomaly {
    (p: SeriesPoint) => ReportPoint(metric, spread, threshold, p)
  }

  const DEFAULT_THRESHOLD := 3.5

  function Reports(metric: string, spread: Spread, threshold: real, series: seq<SeriesPoint>): seq<Anomaly> {
    Mapped(Filtered(series, Flagged(spread, threshold)), Report(metric, spread, threshold))
  }

  function Detect(metric: string, series: seq<SeriesPoint>, threshold: real): seq<Anomaly> {
    var spread := SpreadOf(Values(series));
    if spread.None? then [] else Reports(metric, spread.value, threshold, series)
  }

  function Threshold(option: Option<real>): real { if option.Some? then option.value else DEFAULT_THRESHOLD }

  method DetectAnomalies(metric: string, series: seq<SeriesPoint>, option: Option<real>) returns (found: seq<Anomaly>)
    ensures found == Detect(metric, series, Threshold(option))
  {
    var threshold := Threshold(option);
    hide Median, Deviations, Abs, SeverityFor, Reports, ZScore, ExpectedLow, ExpectedHigh, SpreadOf, Values;
    var measured := SpreadOf(Values(series));
    if measured.None? { return []; }
    var spread := measured.value;
    var low, high := ExpectedLow(spread, threshold), ExpectedHigh(spread, threshold);
    found := [];
    NoReports(metric, spread, threshold);
    assert series[..0] == [];
    for i := 0 to |series|
      invariant found == Reports(metric, spread, threshold, series[..i])
    {
      ReportsSnoc(metric, spread, threshold, series, i);
      var p := series[i];
      var z := ZScore(spread, p.value);
      if Abs(z) >= threshold {
        found := found + [Anomaly(p.date, metric, if z > 0.0 then Spike else Drop, SeverityFor(Abs(z), threshold),
                                  p.value, low, high, z)];
      }
    }
    assert series[..|series|] == series;
  }

  lemma NoReports(metric: string, spread: Spread, threshold: real)
    ensures Reports(metric, spread, threshold, []) == []
  {
  }

  lemma ReportsSnoc(metric: string, spread: Spread, threshold: real, s: seq<SeriesPoint>, i: nat)
    requires i < |s|
    ensures Reports(metric, spread, threshold, s[..i + 1])
         == Reports(metric, spread, threshold, s[..i])
            + if IsFlagged(spread, threshold, s[i]) then [ReportPoint(metric, spread, threshold, s[i])] else []
  {
    ReportSnoc(s, i, Flagged(spread, threshold), Report(metric, spread, threshold));
  }

  lemma ReportSnoc<T, U>(s: seq<T>, i: nat, p: T -> bool, f: T -> U)
    requires i < |s|
    ensures Mapped(Filtered(s[..i + 1], p), f)
         == Mapped(Filtered(s[..i], p), f) + if p(s[i]) then [f(s[i])] else []
  {
    var last := [s[i]];
    assert s[..i + 1] == s[..i] + last;
    FilteredAppend(s[..i], last, p);
    MappedAppend(Filtered(s[..i], p), Filtered(last, p), f);
    assert Filtered(last, p) == if p(s[i]) then last else [];
  }

  // ---- Anomalies are a minority ----

  lemma {:induction false} NoneFiltered<T>(s: seq<T>, p: T -> bool)
    requires forall i :: 0 <= i < |s| ==> !p(s[i])
    ensures Filtered(s, p) == []
  {
    if s != [] { NoneFiltered(s[1..], p); }
  }

  lemma {:induction false} FilteredFewer<T, U>(s: seq<T>, p: T -> bool, f: T -> U, r: U -> bool)
    requires forall i :: 0 <= i < |s| && p(s[i]) ==> r(f(s[i]))
    ensures |Filtered(s, p)| <= |Filtered(Mapped(s, f), r)|
  {
    if s != [] { FilteredFewer(s[1..], p, f, r); }
  }

  function Above(bound: real): real -> bool { (x: real) => x > bound }

  /** At most the top n - k - 1 of n numbers exceed a bound that the k-th smallest does not. */
  lemma CountAbove(xs: seq<real>, bound: real, k: nat)
    requires k < |xs| && Sort(xs, AtMost)[k] <= bound
    ensures |Filtered(xs, Above(bound))| <= |xs| - k - 1
  {
    SortIsSorted(xs, AtMost);
    hide *;
    var s := Sort(xs, AtMost);
    CountSorted(s, bound, k);
    FilteredPermuted(xs, s, Above(bound));
    SameMembers(Filtered(xs, Above(bound)), Filtered(s, Above(bound)));
  }

  lemma CountSorted(s: seq<real>, bound: real, k: nat)
    requires k < |s| && SortedBy(s, AtMost) && s[k] <= bound
    ensures |Filtered(s, Above(bound))| <= |s| - k - 1
  {
    hide *;
    LowPrefix(s, bound, k);
    assert s == s[..k + 1] + s[k + 1..];
    FilteredAppend(s[..k + 1], s[k + 1..], Above(bound));
  }

  lemma LowPrefix(s: seq<real>, bound: real, k: nat)
    requires k < |s| && SortedBy(s, AtMost) && s[k] <= bound
    ensures Filtered(s[..k + 1], Above(bound)) == []
  {
    var low := s[..k + 1];
    forall i | 0 <= i < |low| ensures low[i] <= bound {
      if i < k { assert AtMost(s[i], s[k]); }
    }
    NoneFiltered(low, Above(bound));
  }

  lemma MiddleBound(s: seq<real>)
    requires s != [] && forall i :: 0 <= i < |s| ==> s[i] >= 0.0
    ensures s[|s| / 2] <= 2.0 * Middle(s)
  {
  }

  lemma SortNotNegative(xs: seq<real>)
    requires forall i :: 0 <= i < |xs| ==> xs[i] >= 0.0
    ensures forall i :: 0 <= i < |xs| ==> Sort(xs, AtMost)[i] >= 0.0
  {
    var s := Sort(xs, AtMost);
    SameMembers(xs, s);
    forall i | 0 <= i < |s| ensures s[i] >= 0.0 { assert s[i] in s; }
  }

  /** Of non-negative numbers fewer than half exceed twice their median. */
  lemma FewExceedTwiceMedian(xs: seq<real>)
    requires xs != [] && forall i :: 0 <= i < |xs| ==> xs[i] >= 0.0
    ensures 2 * |Filtered(xs, Above(2.0 * Median(xs).value))| < |xs|
  {
    hide *;
    var bound, k := 2.0 * Median(xs).value, |xs| / 2;
    assert Sort(xs, AtMost)[k] <= bound by { UpperMiddle(xs); }
    CountAbove(xs, bound, k);
  }

  lemma UpperMiddle(xs: seq<real>)
    requires xs != [] && forall i :: 0 <= i < |xs| ==> xs[i] >= 0.0
    ensures Sort(xs, AtMost)[|xs| / 2] <= 2.0 * Median(xs).value
  {
    hide Sort, Middle;
    SortNotNegative(xs);
    MiddleBound(Sort(xs, AtMost));
  }

  lemma MinorityScale(mad: real, dev: real, threshold: real)
    requires mad > 0.0 && threshold > 1.349 && dev / (mad / 0.6745) >= threshold
    ensures dev > 2.0 * mad
  {
    var scale := mad / 0.6745;
    assert (dev / scale) * scale == dev;
    Scale(threshold, dev / scale, scale);
    assert (threshold - 1.349) * scale > 0.0;
    assert 1.349 * scale == 2.0 * mad;
  }

  lemma AbsQuotient(x: real, n: real)
    requires n > 0.0
    ensures Abs(x / n) == Abs(x) / n
  {
    var q := x / n;
    assert q * n == x;
    if x < 0.0 && q > 0.0 { NotPositive(q, n); }
    if x >= 0.0 && q < 0.0 { NotPositive(-q, n); }
  }

  lemma FlaggedIsFar(spread: Spread, mad: real, threshold: real, p: SeriesPoint)
    requires spread.scale == mad / 0.6745 && threshold > 1.349 && Flagged(spread, threshold)(p)
    ensures Deviation(spread.med)(p.value) > 2.0 * mad
  {
    hide Abs;
    AbsQuotient(p.value - spread.med, spread.scale);
    MinorityScale(mad, Abs(p.value - spread.med), threshold);
  }

  lemma MinorityFlagged(metric: string, series: seq<SeriesPoint>, threshold: real)
    requires series != [] && threshold > 1.349
    ensures 2 * |Detect(metric, series, threshold)| < |series|
  {
    hide Median, Deviations, Flagged, Filtered, Values;
    if SpreadOf(Values(series)).Some? {
      var spread := SpreadOf(Values(series)).value;
      FewFlagged(series, spread, Median(Deviations(Values(series), spread.med)).value, threshold);
    }
  }

  lemma FewFlagged(series: seq<SeriesPoint>, spread: Spread, mad: real, threshold: real)
    requires series != [] && threshold > 1.349 && spread.scale == mad / 0.6745
    requires Median(Deviations(Values(series), spread.med)) == Some(mad)
    ensures 2 * |Filtered(series, Flagged(spread, threshold))| < |series|
  {
    hide Filtered, Median;
    var devs := Deviations(Values(series), spread.med);
    var dev := (p: SeriesPoint) => Deviation(spread.med)(p.value);
    assert devs == Mapped(series, dev);
    hide Mapped, Deviations, Values;
    FewExceedTwiceMedian(devs);
    var far := Above(2.0 * Median(devs).value);
    forall i | 0 <= i < |series| && Flagged(spread, threshold)(series[i]) ensures far(dev(series[i])) {
      FlaggedIsFar(spread, mad, threshold, series[i]);
    }
    FilteredFewer(series, Flagged(spread, threshold), dev, far);
  }

  function Cross(d: real): seq<SeriesPoint> {
    [SeriesPoint("a", -d), SeriesPoint("b", 0.0), SeriesPoint("c", 0.0), SeriesPoint("d", d)]
  }

  function CrossSpread(d: real): Spread
    requires d > 0.0
  {
    Spread(0.0, (d / 2.0) / 0.6745)
  }

  /** Up to 1.349 the series -d, 0, 0, d has at least half its points flagged. */
  lemma HalfFlagged(metric: string, d: real, threshold: real)
    requires d > 0.0 && threshold <= 1.349
    ensures 2 * |Detect(metric, Cross(d), threshold)| >= |Cross(d)|
  {
    CrossSpreadIs(d);
    HalfReported(metric, d, threshold);
    hide SpreadOf, Reports, Cross, Values, CrossSpread;
  }

  lemma HalfReported(metric: string, d: real, threshold: real)
    requires d > 0.0 && threshold <= 1.349
    ensures |Reports(metric, CrossSpread(d), threshold, Cross(d))| >= 2
    ensures |Cross(d)| == 4
  {
    var spread, s := CrossSpread(d), Cross(d);
    EndScores(d, spread);
    var flagged := Flagged(spread, threshold);
    assert flagged(s[0]) && flagged(s[3]);
    hide ZScore, Flagged;
    assert s[3] in s[1..];
    assert |Filtered(s[1..], flagged)| >= 1;
  }

  lemma EndScores(d: real, spread: Spread)
    requires d > 0.0 && spread == CrossSpread(d)
    ensures ZScore(spread, d) == 1.349 && ZScore(spread, -d) == -1.349
  {
    QuotientIs(d, spread.scale, 1.349);
    QuotientIs(-d, spread.scale, -1.349);
  }

  lemma QuotientIs(x: real, n: real, q: real)
    requires n > 0.0 && x == q * n
    ensures x / n == q
  {
  }

  lemma CrossSpreadIs(d: real)
    requires d > 0.0
    ensures SpreadOf(Values(Cross(d))) == Some(CrossSpread(d))
  {
    assert Values(Cross(d)) == [-d, 0.0, 0.0, d];
    CrossMedian(d);
    DeviationMedian(d);
    hide Median, Deviations;
  }

  lemma CrossMedian(d: real)
    requires d > 0.0
    ensures Median([-d, 0.0, 0.0, d]) == Some(0.0)
  {
    hide Median;
    MedianIs([-d, 0.0, 0.0, d], [-d, 0.0, 0.0, d]);
  }

  lemma DeviationMedian(d: real)
    requires d > 0.0
    ensures Median(Deviations([-d, 0.0, 0.0, d], 0.0)) == Some(d / 2.0)
  {
    hide Median, Deviations;
    CrossDeviations(d);
    SameBag(d, 0.0);
    MedianIs([d, 0.0, 0.0, d], [0.0, 0.0, d, d]);
  }

  lemma CrossDeviations(d: real)
    requires d > 0.0
    ensures Deviations([-d, 0.0, 0.0, d], 0.0) == [d, 0.0, 0.0, d]
  {
    hide Deviations;
  }

  lemma SameBag<T>(x: T, y: T)
    ensures multiset([x, y, y, x]) == multiset([y, y, x, x])
  {
    var rest := [y, y, x];
    assert [x, y, y, x] == [x] + rest;
    assert [y, y, x, x] == rest + [x];
    Rotated(x, rest);
  }

  lemma Rotated<T>(x: T, s: seq<T>)
    ensures multiset([x] + s) == multiset(s + [x])
  {
  }

  lemma MedianIs(xs: seq<real>, s: seq<real>)
    requires xs != [] && multiset(xs) == multiset(s) && SortedBy(s, AtMost)
    ensures s != [] && Median(xs) == Some(Middle(s))
  {
    SameMembers(xs, s);
    SortedMedian(xs, s);
  }

  lemma SortedMedian(xs: seq<real>, s: seq<real>)
    requires multiset(xs) == multiset(s) && SortedBy(s, AtMost)
    ensures Sort(xs, AtMost) == s
  {
    SortIsSorted(xs, AtMost);
    SortedIsUnique(Sort(xs, AtMost), s, AtMost);
  }

  /** A threshold keeps anomalies a minority of every series exactly when it exceeds 1.349 (the default does). */
  lemma MinorityIff(metric: string, threshold: real)
    ensures (forall series :: series != [] ==> 2 * |Detect(metric, series, threshold)| < |series|)
       <==> threshold > 1.349
  {
    if threshold > 1.349 {
      forall series: seq<SeriesPoint> | series != [] ensures 2 * |Detect(metric, series, threshold)| < |series| {
        MinorityFlagged(metric, series, threshold);
      }
    } else {
      HalfFlagged(metric, 1.0, threshold);
    }
  }

  // ---- What a flag says ----

  /** For a positive threshold a point is reported exactly when its value is on or outside the expected band. */
  lemma FlaggedOutsideBand(metric: string, spread: Spread, threshold: real, p: SeriesPoint)
    requires threshold > 0.0
    ensures var a := ReportPoint(metric, spread, threshold, p);
      && (Flagged(spread, threshold)(p) <==> p.value <= a.expectedLow || p.value >= a.expectedHigh)
      && (Flagged(spread, threshold)(p) ==> (a.kind == Spike <==> p.value >= a.expectedHigh))
  {
    Outside(spread.med, spread.scale, threshold, p.value);
  }

  lemma Outside(med: real, scale: real, threshold: real, v: real)
    requires scale > 0.0 && threshold > 0.0
    ensures (v - med) / scale >= threshold <==> v >= med + threshold * scale
    ensures (v - med) / scale <= -threshold <==> v <= med - threshold * scale
  {
    var z := (v - med) / scale;
    assert z * scale == v - med;
    OrderKept(threshold, z, scale);
    OrderKept(z, -threshold, scale);
  }

  lemma OrderKeptLeft(n: real, x: real, y: real)
    requires n > 0.0
    ensures x <= y <==> Times(n, x) <= Times(n, y)
  {
    OrderKept(x, y, n);
  }

  // ---- Change of unit, change of sign ----

  /** What a change of the values does to each point and to each anomaly carries over to the whole report. */
  lemma {:induction false} ReportsCarryOver(
    metric: string, spread: Spread, spread': Spread, threshold: real, series: seq<SeriesPoint>,
    g: SeriesPoint -> SeriesPoint, h: Anomaly -> Anomaly)
    requires forall i :: 0 <= i < |series| ==>
               IsFlagged(spread', threshold, g(series[i])) == IsFlagged(spread, threshold, series[i])
    requires forall i :: 0 <= i < |series| && IsFlagged(spread, threshold, series[i]) ==>
               ReportPoint(metric, spread', threshold, g(series[i]))
               == h(ReportPoint(metric, spread, threshold, series[i]))
    ensures Reports(metric, spread', threshold, Mapped(series, g))
         == Mapped(Reports(metric, spread, threshold, series), h)
  {
    hide IsFlagged, ReportPoint;
    if series != [] {
      var rest := series[1..];
      forall i | 0 <= i < |rest|
        ensures IsFlagged(spread', threshold, g(rest[i])) == IsFlagged(spread, threshold, rest[i])
        ensures IsFlagged(spread, threshold, rest[i]) ==>
                  ReportPoint(metric, spread', threshold, g(rest[i]))
                  == h(ReportPoint(metric, spread, threshold, rest[i]))
      {
        assert rest[i] == series[i + 1];
      }
      ReportsCarryOver(metric, spread, spread', threshold, rest, g, h);
      hide Reports, Mapped;
      MappedCons(series, g);
      ReportsCons(metric, spread, threshold, series);
      ReportsCons(metric, spread', threshold, Mapped(series, g));
      assert series[0] == series[0];
      if IsFlagged(spread, threshold, series[0]) {
        MappedCons(Reports(metric, spread, threshold, series), h);
      }
    }
  }

  lemma MappedCons<T, U>(s: seq<T>, f: T -> U)
    requires s != []
    ensures Mapped(s, f)[0] == f(s[0]) && Mapped(s, f)[1..] == Mapped(s[1..], f)
    ensures Mapped(s, f) == [f(s[0])] + Mapped(s[1..], f)
  {
  }

  lemma ReportsCons(metric: string, spread: Spread, threshold: real, s: seq<SeriesPoint>)
    requires s != []
    ensures Reports(metric, spread, threshold, s)
         == (if IsFlagged(spread, threshold, s[0]) then [ReportPoint(metric, spread, threshold, s[0])] else [])
            + Reports(metric, spread, threshold, s[1..])
  {
    hide IsFlagged, ReportPoint;
    var kept := Filtered(s[1..], Flagged(spread, threshold));
    if IsFlagged(spread, threshold, s[0]) {
      MappedCons([s[0]] + kept, Report(metric, spread, threshold));
      assert ([s[0]] + kept)[1..] == kept;
    } else {
      assert Filtered(s, Flagged(spread, threshold)) == kept;
    }
  }

  function Affine(a: real, b: real): real -> real { (v: real) => Times(a, v) + b }

  function Rescaled(a: real, b: real, series: seq<SeriesPoint>): seq<SeriesPoint> {
    Mapped(series, (p: SeriesPoint) => p.(value := Affine(a, b)(p.value)))
  }

  function RescaledAnomaly(a: real, b: real): Anomaly -> Anomaly {
    (x: Anomaly) => x.(observed := Affine(a, b)(x.observed), expectedLow := Affine(a, b)(x.expectedLow),
                       expectedHigh := Affine(a, b)(x.expectedHigh))
  }

  ghost predicate KeepsOrder(g: real -> real) { forall x, y :: x <= y <==> g(x) <= g(y) }

  lemma {:induction false} InsertMapped(x: real, s: seq<real>, g: real -> real)
    requires KeepsOrder(g)
    ensures Insert(g(x), Mapped(s, g), AtMost) == Mapped(Insert(x, s, AtMost), g)
  {
    if s != [] {
      MappedCons(s, g);
      if !AtMost(x, s[0]) {
        InsertMapped(x, s[1..], g);
        MappedCons([s[0]] + Insert(x, s[1..], AtMost), g);
        assert ([s[0]] + Insert(x, s[1..], AtMost))[1..] == Insert(x, s[1..], AtMost);
      } else {
        MappedCons([x] + s, g);
        assert ([x] + s)[1..] == s;
      }
    }
  }

  lemma {:induction false} SortMapped(s: seq<real>, g: real -> real)
    requires KeepsOrder(g)
    ensures Sort(Mapped(s, g), AtMost) == Mapped(Sort(s, AtMost), g)
  {
    if s != [] {
      hide Insert, KeepsOrder;
      MappedCons(s, g);
      SortMapped(s[1..], g);
      InsertMapped(s[0], Sort(s[1..], AtMost), g);
    }
  }

  lemma AffineOrder(a: real, b: real, x: real, y: real)
    requires a > 0.0
    ensures x <= y <==> Affine(a, b)(x) <= Affine(a, b)(y)
  {
    OrderKeptLeft(a, x, y);
    hide Times;
  }

  lemma AffineKeepsOrder(a: real, b: real)
    requires a > 0.0
    ensures KeepsOrder(Affine(a, b))
  {
    forall x, y ensures x <= y <==> Affine(a, b)(x) <= Affine(a, b)(y) {
      AffineOrder(a, b, x, y);
    }
  }

  lemma AffineMidpoint(a: real, b: real, x: real, y: real)
    ensures (Affine(a, b)(x) + Affine(a, b)(y)) / 2.0 == Affine(a, b)((x + y) / 2.0)
  {
    assert a * (x + y) == a * x + a * y;
    assert a * ((x + y) / 2.0) == (a * (x + y)) / 2.0;
  }

  lemma MedianRescaled(a: real, b: real, xs: seq<real>)
    requires a > 0.0 && xs != []
    ensures Median(Mapped(xs, Affine(a, b))) == Some(Affine(a, b)(Median(xs).value))
  {
    AffineKeepsOrder(a, b);
    SortMapped(xs, Affine(a, b));
    hide Sort, Middle, KeepsOrder;
    MiddleRescaled(a, b, Sort(xs, AtMost));
  }

  lemma MiddleRescaled(a: real, b: real, s: seq<real>)
    requires s != []
    ensures Middle(Mapped(s, Affine(a, b))) == Affine(a, b)(Middle(s))
  {
    var t, m := Mapped(s, Affine(a, b)), |s| / 2;
    assert t[m] == Affine(a, b)(s[m]);
    if |s| % 2 == 0 {
      assert t[m - 1] == Affine(a, b)(s[m - 1]);
      hide Affine, Mapped;
      AffineMidpoint(a, b, s[m - 1], s[m]);
    }
  }

  lemma DeviationRescaled(a: real, b: real, v: real, med: real)
    requires a > 0.0
    ensures Abs(Affine(a, b)(v) - Affine(a, b)(med)) == Affine(a, 0.0)(Abs(v - med))
  {
    assert a * (v - med) == a * v - a * med;
    assert a * (med - v) == a * med - a * v;
    OrderKept(v, med, a);
  }

  lemma DeviationsRescaled(a: real, b: real, values: seq<real>, med: real)
    requires a > 0.0
    ensures Deviations(Mapped(values, Affine(a, b)), Affine(a, b)(med))
         == Mapped(Deviations(values, med), Affine(a, 0.0))
  {
    forall i | 0 <= i < |values|
      ensures Deviations(Mapped(values, Affine(a, b)), Affine(a, b)(med))[i]
           == Mapped(Deviations(values, med), Affine(a, 0.0))[i]
    {
      DeviationRescaled(a, b, values[i], med);
    }
  }

  lemma PositiveProduct(a: real, scale: real)
    requires a > 0.0 && scale > 0.0
    ensures Times(a, scale) > 0.0
  {
  }

  function RescaledSpread(a: real, b: real, spread: Spread): Spread
    requires a > 0.0
  {
    PositiveProduct(a, spread.scale);
    Spread(Affine(a, b)(spread.med), Times(a, spread.scale))
  }

  lemma ZRescaled(a: real, b: real, spread: Spread, v: real)
    requires a > 0.0
    ensures ZScore(RescaledSpread(a, b, spread), Affine(a, b)(v)) == ZScore(spread, v)
  {
    var z := ZScore(spread, v);
    assert z * spread.scale == v - spread.med;
    assert a * (z * spread.scale) == z * (a * spread.scale);
    assert a * (v - spread.med) == a * v - a * spread.med;
    PositiveProduct(a, spread.scale);
    QuotientIs(Affine(a, b)(v) - Affine(a, b)(spread.med), a * spread.scale, z);
  }

  lemma SpreadRescaled(a: real, b: real, values: seq<real>)
    requires a > 0.0
    ensures SpreadOf(values).None? ==> SpreadOf(Mapped(values, Affine(a, b))).None?
    ensures SpreadOf(values).Some? ==>
              SpreadOf(Mapped(values, Affine(a, b))) == Some(RescaledSpread(a, b, SpreadOf(values).value))
  {
    hide Median, Deviations, Affine, SpreadFrom, RescaledSpread;
    if |values| >= 4 {
      var med := Median(values).value;
      MedianRescaled(a, b, values);
      DeviationsRescaled(a, b, values, med);
      MedianRescaled(a, 0.0, Deviations(values, med));
      FromRescaled(a, b, med, Median(Deviations(values, med)).value);
    }
  }

  lemma FromRescaled(a: real, b: real, med: real, mad: real)
    requires a > 0.0
    ensures SpreadFrom(med, mad).None? ==> SpreadFrom(Affine(a, b)(med), Affine(a, 0.0)(mad)).None?
    ensures SpreadFrom(med, mad).Some? ==>
              SpreadFrom(Affine(a, b)(med), Affine(a, 0.0)(mad))
              == Some(RescaledSpread(a, b, SpreadFrom(med, mad).value))
  {
    ScaleRescaled(a, mad);
    hide Affine, Times;
  }

  lemma ScaleRescaled(a: real, mad: real)
    requires a > 0.0
    ensures Affine(a, 0.0)(mad) > 0.0 <==> mad > 0.0
    ensures Affine(a, 0.0)(mad) / 0.6745 == Times(a, mad / 0.6745)
  {
    OrderKept(mad, 0.0, a);
    assert a * mad == mad * a;
    assert (a * (mad / 0.6745)) * 0.6745 == a * mad;
  }

  lemma BandRescaled(a: real, b: real, spread: Spread, threshold: real)
    requires a > 0.0
    ensures ExpectedLow(RescaledSpread(a, b, spread), threshold) == Affine(a, b)(ExpectedLow(spread, threshold))
    ensures ExpectedHigh(RescaledSpread(a, b, spread), threshold) == Affine(a, b)(ExpectedHigh(spread, threshold))
  {
    var offset := threshold * spread.scale;
    assert threshold * (a * spread.scale) == a * offset;
    assert a * (spread.med - offset) == a * spread.med - a * offset;
    assert a * (spread.med + offset) == a * spread.med + a * offset;
  }

  lemma PointRescaled(metric: string, a: real, b: real, spread: Spread, threshold: real, p: SeriesPoint)
    requires a > 0.0
    ensures var spread', p' := RescaledSpread(a, b, spread), p.(value := Affine(a, b)(p.value));
      && IsFlagged(spread', threshold, p') == IsFlagged(spread, threshold, p)
      && ReportPoint(metric, spread', threshold, p') == RescaledAnomaly(a, b)(ReportPoint(metric, spread, threshold, p))
  {
    ZRescaled(a, b, spread, p.value);
    BandRescaled(a, b, spread, threshold);
    hide Affine, ZScore, ExpectedLow, ExpectedHigh, Abs, SeverityFor, RescaledSpread;
  }

  /** In other units (positive affine rescaling) the same points are flagged, with the same z and severity. */
  lemma RescalingKeepsAnomalies(metric: string, series: seq<SeriesPoint>, threshold: real, a: real, b: real)
    requires a > 0.0
    ensures Detect(metric, Rescaled(a, b, series), threshold)
         == Mapped(Detect(metric, series, threshold), RescaledAnomaly(a, b))
  {
    var g := (p: SeriesPoint) => p.(value := Affine(a, b)(p.value));
    ValuesMapped(series, g, Affine(a, b));
    SpreadRescaled(a, b, Values(series));
    var spread := SpreadOf(Values(series));
    hide SpreadOf, Reports, IsFlagged, ReportPoint, Affine, RescaledSpread, RescaledAnomaly, Values, Mapped;
    if spread.Some? {
      forall i | 0 <= i < |series|
        ensures IsFlagged(RescaledSpread(a, b, spread.value), threshold, g(series[i]))
             == IsFlagged(spread.value, threshold, series[i])
        ensures ReportPoint(metric, RescaledSpread(a, b, spread.value), threshold, g(series[i]))
             == RescaledAnomaly(a, b)(ReportPoint(metric, spread.value, threshold, series[i]))
      {
        PointRescaled(metric, a, b, spread.value, threshold, series[i]);
      }
      ReportsCarryOver(metric, spread.value, RescaledSpread(a, b, spread.value), threshold, series, g,
                       RescaledAnomaly(a, b));
    } else {
      NothingMapped(RescaledAnomaly(a, b));
    }
  }

  lemma NothingMapped<T, U>(f: T -> U)
    ensures Mapped([], f) == []
  {
  }

  lemma ValuesMapped(series: seq<SeriesPoint>, g: SeriesPoint -> SeriesPoint, f: real -> real)
    requires forall i :: 0 <= i < |series| ==> g(series[i]).value == f(series[i].value)
    ensures Values(Mapped(series, g)) == Mapped(Values(series), f)
  {
  }

  function Negate(v: real): real { -v }

  function Negated(series: seq<SeriesPoint>): seq<SeriesPoint> {
    Mapped(series, (p: SeriesPoint) => p.(value := Negate(p.value)))
  }

  function Opposite(kind: AnomalyKind): AnomalyKind { if kind == Spike then Drop else Spike }

  /** A spike becomes a drop and the other way round; only a point at the centre reads as a drop on both sides. */
  function NegatedAnomaly(x: Anomaly): Anomaly {
    x.(kind := if x.z == 0.0 then x.kind else Opposite(x.kind), observed := -x.observed, expectedLow := -x.expectedHigh,
       expectedHigh := -x.expectedLow, z := -x.z)
  }

  function Reversed<T>(s: seq<T>): (r: seq<T>)
    ensures |r| == |s| && multiset(r) == multiset(s)
    ensures forall i :: 0 <= i < |s| ==> r[i] == s[|s| - 1 - i]
  {
    if s == [] then []
    else
      assert s == [s[0]] + s[1..];
      Reversed(s[1..]) + [s[0]]
  }

  lemma MiddleNegated(s: seq<real>)
    requires s != []
    ensures Middle(Reversed(Mapped(s, Negate))) == -Middle(s)
  {
    hide Reversed, Mapped;
    var t, m := Reversed(Mapped(s, Negate)), |s| / 2;
    assert t[m] == -s[|s| - 1 - m];
    if |s| % 2 == 0 {
      assert t[m - 1] == -s[m];
    }
  }

  lemma ReversedIsSorted(s: seq<real>)
    requires SortedBy(s, AtMost)
    ensures SortedBy(Reversed(Mapped(s, Negate)), AtMost)
  {
    var t := Reversed(Mapped(s, Negate));
    forall i, j | 0 <= i < j < |t| ensures AtMost(t[i], t[j]) {
      assert AtMost(s[|s| - 1 - j], s[|s| - 1 - i]);
    }
  }

  lemma MedianNegated(xs: seq<real>)
    requires xs != []
    ensures Median(Mapped(xs, Negate)) == Some(-Median(xs).value)
  {
    var s := Sort(xs, AtMost);
    MappedPermuted(xs, s, Negate);
    SortIsSorted(xs, AtMost);
    ReversedIsSorted(s);
    MiddleNegated(s);
    hide Sort, Middle, SortedBy, Mapped;
    MedianIs(Mapped(xs, Negate), Reversed(Mapped(s, Negate)));
  }

  function NegatedSpread(spread: Spread): Spread { Spread(-spread.med, spread.scale) }

  lemma DeviationsNegated(values: seq<real>, med: real)
    ensures Deviations(Mapped(values, Negate), -med) == Deviations(values, med)
  {
  }

  lemma SpreadNegated(values: seq<real>)
    ensures SpreadOf(values).None? ==> SpreadOf(Mapped(values, Negate)).None?
    ensures SpreadOf(values).Some? ==>
              SpreadOf(Mapped(values, Negate)) == Some(NegatedSpread(SpreadOf(values).value))
  {
    hide Median, Deviations, Mapped;
    if |values| >= 4 {
      MedianNegated(values);
      DeviationsNegated(values, Median(values).value);
    }
  }

  lemma ZNegated(spread: Spread, v: real)
    ensures ZScore(NegatedSpread(spread), Negate(v)) == -ZScore(spread, v)
  {
    var z := ZScore(spread, v);
    assert z * spread.scale == v - spread.med;
    QuotientIs(-v + spread.med, spread.scale, -z);
  }

  lemma BandNegated(spread: Spread, threshold: real)
    ensures ExpectedLow(NegatedSpread(spread), threshold) == -ExpectedHigh(spread, threshold)
    ensures ExpectedHigh(NegatedSpread(spread), threshold) == -ExpectedLow(spread, threshold)
  {
  }

  lemma PointNegated(metric: string, spread: Spread, threshold: real, p: SeriesPoint)
    ensures var spread', p' := NegatedSpread(spread), p.(value := Negate(p.value));
      && IsFlagged(spread', threshold, p') == IsFlagged(spread, threshold, p)
      && ReportPoint(metric, spread', threshold, p') == NegatedAnomaly(ReportPoint(metric, spread, threshold, p))
  {
    hide SeverityFor, ZScore, ExpectedLow, ExpectedHigh, NegatedSpread;
    ZNegated(spread, p.value);
    BandNegated(spread, threshold);
  }

  lemma ReportedIsNotCentral(metric: string, series: seq<SeriesPoint>, threshold: real)
    requires threshold > 0.0
    ensures forall x :: x in Detect(metric, series, threshold) ==> x.z != 0.0
  {
    hide ZScore, SeverityFor, SpreadOf, Values;
  }

  /**
    For every threshold, negating the series flags the same points with the same severities and negated scores.
    Spikes and drops are swapped, except at the centre, where a threshold that is not positive reports drops on
    both sides; a positive one never reports the centre.
   */
  lemma NegationSwapsAnomalies(metric: string, series: seq<SeriesPoint>, threshold: real)
    ensures Detect(metric, Negated(series), threshold) == Mapped(Detect(metric, series, threshold), NegatedAnomaly)
    ensures threshold > 0.0 ==> forall x :: x in Detect(metric, series, threshold) ==> x.z != 0.0
  {
    if threshold > 0.0 { ReportedIsNotCentral(metric, series, threshold); }
    var g := (p: SeriesPoint) => p.(value := Negate(p.value));
    ValuesMapped(series, g, Negate);
    SpreadNegated(Values(series));
    var spread := SpreadOf(Values(series));
    hide SpreadOf, Reports, IsFlagged, ReportPoint, NegatedAnomaly, NegatedSpread, Values, Mapped;
    if spread.Some? {
      var was, now := spread.value, NegatedSpread(spread.value);
      forall i | 0 <= i < |series|
        ensures IsFlagged(now, threshold, g(series[i])) == IsFlagged(was, threshold, series[i])
      {
        PointNegated(metric, was, threshold, series[i]);
      }
      forall i | 0 <= i < |series| && IsFlagged(was, threshold, series[i])
        ensures ReportPoint(metric, now, threshold, g(series[i]))
             == NegatedAnomaly(ReportPoint(metric, was, threshold, series[i]))
      {
        PointNegated(metric, was, threshold, series[i]);
      }
      ReportsCarryOver(metric, was, now, threshold, series, g, NegatedAnomaly);
    } else {
      NothingMapped(NegatedAnomaly);
    }
  }
}
