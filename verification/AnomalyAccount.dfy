/**
  What anomaly detection reports, from the series itself: the middle of the ordered values, the middle of the ordered
  distances from it, which points are far enough out, and how far that is.
 */
module AnomalyAccount {
  import opened Wrappers
  import opened Sorting
  import opened Reals
  import opened Similarity
  import opened Anomaly

  ghost predicate Ascending(s: seq<real>) { forall i, j :: 0 <= i < j < |s| ==> s[i] <= s[j] }

  /** The number half way between the two middle ones of the ordered numbers, which are one for an odd count. */
  ghost predicate IsMedian(xs: seq<real>, m: real) {
    exists s: seq<real> :: multiset(s) == multiset(xs) && Ascending(s) && IsMiddle(s, m)
  }

  predicate IsMiddle(s: seq<real>, m: real) { s != [] && m == (s[(|s| - 1) / 2] + s[|s| / 2]) / 2.0 }

  lemma MedianIsMiddle(xs: seq<real>, m: real)
    ensures IsMedian(xs, m) <==> Median(xs) == Some(m)
  {
    var t := Sort(xs, AtMost);
    SortIsSorted(xs, AtMost);
    SameMembers(xs, t);
    assert Ascending(t) by {
      forall i, j | 0 <= i < j < |t| ensures t[i] <= t[j] { assert AtMost(t[i], t[j]); }
    }
    MiddleIs(t, m);
    if IsMedian(xs, m) {
      var s: seq<real> :| multiset(s) == multiset(xs) && Ascending(s) && IsMiddle(s, m);
      assert SortedBy(s, AtMost);
      SortedIsUnique(s, t, AtMost);
    }
  }

  lemma MiddleIs(s: seq<real>, m: real)
    ensures IsMiddle(s, m) <==> s != [] && Middle(s) == m
  {
  }

  // ---- One point ----

  /** The point is at least `threshold` robust deviations from the centre; a deviation is the spread over 0.6745. */
  predicate IsFar(med: real, mad: real, threshold: real, v: real) {
    0.6745 * Abs(v - med) >= Times(threshold, mad)
  }

  function Far(med: real, mad: real, threshold: real): SeriesPoint -> bool {
    (p: SeriesPoint) => IsFar(med, mad, threshold, p.value)
  }

  /** What is said of a reported point. */
  ghost predicate Describes(a: Anomaly, p: SeriesPoint, metric: string, med: real, mad: real, threshold: real) {
    && a.date == p.date && a.metric == metric && a.observed == p.value
    && a.kind == (if p.value > med then Spike else Drop)
    && a.severity == (if IsFar(med, mad, 2.0 * threshold, p.value) then High
                      else if IsFar(med, mad, 1.4 * threshold, p.value) then Med else Low)
    && Times(a.z, mad) == 0.6745 * (p.value - med)
    && 0.6745 * (med - a.expectedLow) == Times(threshold, mad)
    && 0.6745 * (a.expectedHigh - med) == Times(threshold, mad)
  }

  lemma ScoreIsFar(med: real, mad: real, t: real, v: real)
    requires mad > 0.0
    ensures Abs(ZScore(Spread(med, mad / 0.6745), v)) >= t <==> IsFar(med, mad, t, v)
  {
    var scale := mad / 0.6745;
    AbsQuotient(v - med, scale);
    QuotientReaches(Abs(v - med), scale, t);
    hide Abs;
    assert Times(t, scale) * 0.6745 == Times(t, mad);
  }

  lemma QuotientReaches(x: real, n: real, t: real)
    requires n > 0.0
    ensures x / n >= t <==> x >= Times(t, n)
  {
    assert (x / n) * n == x;
    OrderKept(t, x / n, n);
  }

  lemma ReportDescribes(metric: string, med: real, mad: real, threshold: real, p: SeriesPoint)
    requires mad > 0.0
    ensures Describes(ReportPoint(metric, Spread(med, mad / 0.6745), threshold, p), p, metric, med, mad, threshold)
  {
    var scale := mad / 0.6745;
    ScoreIsFar(med, mad, 2.0 * threshold, p.value);
    ScoreIsFar(med, mad, 1.4 * threshold, p.value);
    ScoreSays(med, mad, p.value);
    BandSays(threshold, mad);
    hide Abs, ZScore, IsFar, Times;
  }

  lemma ScoreSays(med: real, mad: real, v: real)
    requires mad > 0.0
    ensures var z := ZScore(Spread(med, mad / 0.6745), v);
      Times(z, mad) == 0.6745 * (v - med) && (z > 0.0 <==> v > med)
  {
    var scale, d := mad / 0.6745, v - med;
    var z := d / scale;
    assert z * scale == d;
    assert scale * 0.6745 == mad;
    OrderKept(z, 0.0, scale);
  }

  lemma BandSays(threshold: real, mad: real)
    ensures 0.6745 * (threshold * (mad / 0.6745)) == Times(threshold, mad)
  {
  }

  // ---- The reports ----

  lemma {:induction false} FilteredSame<T>(s: seq<T>, p: T -> bool, q: T -> bool)
    requires forall i :: 0 <= i < |s| ==> (p(s[i]) <==> q(s[i]))
    ensures Filtered(s, p) == Filtered(s, q)
  {
    if s != [] { FilteredSame(s[1..], p, q); }
  }

  /** A series of fewer than four points, or one whose middle distance is 0, has no anomalies. */
  lemma NothingToReport(metric: string, series: seq<SeriesPoint>, threshold: real, med: real, mad: real)
    ensures |series| < 4 ==> Detect(metric, series, threshold) == []
    ensures IsMedian(Values(series), med) && IsMedian(Deviations(Values(series), med), mad) && mad <= 0.0 ==>
              Detect(metric, series, threshold) == []
  {
    hide Median, Deviations, Values, Reports;
    MedianIsMiddle(Values(series), med);
    MedianIsMiddle(Deviations(Values(series), med), mad);
    assert |Values(series)| == |series| by { LengthKept(series); }
  }

  lemma LengthKept(series: seq<SeriesPoint>)
    ensures |Values(series)| == |series|
  {
  }

  /**
    Otherwise exactly the points at least the threshold away are reported, in the order of the series, each with its
    distance in robust deviations, its direction and severity, and the band it has left.
   */
  lemma FarPointsAreReported(metric: string, series: seq<SeriesPoint>, threshold: real, med: real, mad: real)
    requires |series| >= 4 && mad > 0.0
    requires IsMedian(Values(series), med) && IsMedian(Deviations(Values(series), med), mad)
    ensures var found, far := Detect(metric, series, threshold), Filtered(series, Far(med, mad, threshold));
      && |found| == |far|
      && forall i :: 0 <= i < |found| ==> Describes(found[i], far[i], metric, med, mad, threshold)
  {
    hide Median, Deviations, Values, ReportPoint, ZScore, IsFar, Describes, Filtered, Abs;
    MedianIsMiddle(Values(series), med);
    MedianIsMiddle(Deviations(Values(series), med), mad);
    LengthKept(series);
    var spread := Spread(med, mad / 0.6745);
    var found, far := Detect(metric, series, threshold), Filtered(series, Far(med, mad, threshold));
    forall i | 0 <= i < |series|
      ensures Flagged(spread, threshold)(series[i]) <==> Far(med, mad, threshold)(series[i])
    {
      ScoreIsFar(med, mad, threshold, series[i].value);
    }
    FilteredSame(series, Flagged(spread, threshold), Far(med, mad, threshold));
    forall i | 0 <= i < |found| ensures Describes(found[i], far[i], metric, med, mad, threshold) {
      ReportDescribes(metric, med, mad, threshold, far[i]);
    }
  }

  /** Without a threshold of its own the detection uses 3.5. */
  lemma ThresholdDefaults(option: Option<real>)
    ensures option.None? ==> Threshold(option) == 3.5
    ensures option.Some? ==> Threshold(option) == option.value
  {
  }

  /** The values are those of the points, and the distances are theirs from the centre. */
  lemma ValuesAndDistances(series: seq<SeriesPoint>, med: real, i: nat)
    requires i < |series|
    ensures |Values(series)| == |Deviations(Values(series), med)| == |series|
    ensures Values(series)[i] == series[i].value
    ensures series[i].value >= med ==> Deviations(Values(series), med)[i] == series[i].value - med
    ensures series[i].value <= med ==> Deviations(Values(series), med)[i] == med - series[i].value
  {
  }
}
