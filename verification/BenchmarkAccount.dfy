/**
  What the statistics of a comparison mean in terms of the weighted values: the balance point, the share of weight
  below, and for each quantile the value where the cumulative weight passes it.
 */
module BenchmarkAccount {
  import opened Wrappers
  import opened Sorting
  import opened Reals
  import opened Similarity
  import opened Cohort
  import opened Benchmark

  /** Each value has its own weight; a negative or missing weight counts as 0. */
  lemma PointsCarryWeights(values: seq<real>, weights: seq<real>, i: nat)
    requires i < |values|
    ensures Points(values, weights)[i].v == values[i]
    ensures i < |weights| && weights[i] > 0.0 ==> Points(values, weights)[i].w == weights[i]
    ensures i >= |weights| || weights[i] <= 0.0 ==> Points(values, weights)[i].w == 0.0
    ensures Weighed(Points(values, weights))
  {
  }

  /** The weight at or below `s`. */
  function AtOrBelow(ps: seq<Point>, s: real): real { SumOf(ps, UpTo(s)) }

  function UpTo(s: real): Point -> real { (p: Point) => if p.v <= s then p.w else 0.0 }

  /** A number above `s` with no value of the list between them. */
  lemma {:induction false} JustAbove(ps: seq<Point>, s: real) returns (t: real)
    ensures t > s && Below(ps, t) == AtOrBelow(ps, s)
    ensures forall p :: p in ps ==> (p.v <= s <==> p.v < t)
  {
    if ps == [] {
      t := s + 1.0;
    } else {
      t := JustAbove(ps[1..], s);
      var v := ps[0].v;
      if s < v < t { t := v; }
      SameSums(ps, s, t);
    }
  }

  lemma {:induction false} SameSums(ps: seq<Point>, s: real, t: real)
    requires forall p :: p in ps ==> (p.v <= s <==> p.v < t)
    ensures Below(ps, t) == AtOrBelow(ps, s)
  {
    if ps != [] {
      assert ps[0] in ps;
      SameSums(ps[1..], s, t);
    }
  }

  /** The quantile is where the cumulative weight passes the share `q`: less lies below it, and enough up to it. */
  lemma QuantileIsPassed(ps: seq<Point>, q: real)
    requires Weighed(ps) && Total(ps) > 0.0 && 0.0 < q <= 1.0
    ensures QuantileOf(ps, q).Some?
    ensures Below(ps, QuantileOf(ps, q).value) < Times(q, Total(ps)) <= AtOrBelow(ps, QuantileOf(ps, q).value)
  {
    hide QuantileOf, Below, AtOrBelow, Total;
    Adjunction(ps, q, 0.0);
    var v := QuantileOf(ps, q).value;
    Adjunction(ps, q, v);
    QuotientAtLeast(Below(ps, v), Total(ps), q);
    var t := JustAbove(ps, v);
    Adjunction(ps, q, t);
    QuotientAtLeast(Below(ps, t), Total(ps), q);
  }

  /** Nothing else passes it. */
  lemma PassingIsQuantile(ps: seq<Point>, q: real, v: real)
    requires Weighed(ps) && Total(ps) > 0.0 && 0.0 < q <= 1.0
    requires IsWeighted(ps, v) && Below(ps, v) < Times(q, Total(ps)) <= AtOrBelow(ps, v)
    ensures QuantileOf(ps, q) == Some(v)
  {
    hide QuantileOf, Below, AtOrBelow, Total;
    Adjunction(ps, q, v);
    QuotientAtLeast(Below(ps, v), Total(ps), q);
    var t := JustAbove(ps, v);
    Adjunction(ps, q, t);
    QuotientAtLeast(Below(ps, t), Total(ps), q);
    QuantileIsAValue(ps, q);
    var p :| p in ps && p.w > 0.0 && p.v == QuantileOf(ps, q).value;
  }

  function Deviation(mean: real): Point -> real { (p: Point) => Times(p.w, p.v - mean) }

  lemma {:induction false} DeviationsAddUp(ps: seq<Point>, mean: real)
    ensures SumOf(ps, Deviation(mean)) == SumOf(ps, Moment) - Times(mean, Total(ps))
  {
    if ps != [] {
      DeviationsAddUp(ps[1..], mean);
      var w, v, rest := ps[0].w, ps[0].v, Total(ps[1..]);
      assert Times(w, v - mean) == w * v - mean * w;
      assert Times(mean, w + rest) == mean * w + Times(mean, rest);
    }
  }

  /** The mean balances the values: the weighted deviations from it cancel. */
  lemma MeanBalances(ps: seq<Point>)
    requires Total(ps) > 0.0
    ensures MeanOf(ps).Some? && SumOf(ps, Deviation(MeanOf(ps).value)) == 0.0
  {
    var mean := SumOf(ps, Moment) / Total(ps);
    DeviationsAddUp(ps, mean);
    assert Times(mean, Total(ps)) == SumOf(ps, Moment);
  }

  /** The percentile is the share of the weight that lies strictly below. */
  lemma PercentileIsShare(ps: seq<Point>, s: real)
    requires Total(ps) > 0.0
    ensures PercentileOf(ps, s).Some? && Times(PercentileOf(ps, s).value, Total(ps)) == SumOf(ps, StrictlyBelow(s))
  {
    var below, total := Below(ps, s), Total(ps);
    assert Times(below / total, total) == below;
    BelowIsStrict(ps, s);
  }

  function StrictlyBelow(s: real): Point -> real { (p: Point) => if p.v >= s then 0.0 else p.w }

  lemma {:induction false} BelowIsStrict(ps: seq<Point>, s: real)
    ensures Below(ps, s) == SumOf(ps, StrictlyBelow(s))
  {
    if ps != [] { BelowIsStrict(ps[1..], s); }
  }

  ghost predicate Passes(ps: seq<Point>, q: real, v: real) {
    Below(ps, v) < Times(q, Total(ps)) <= AtOrBelow(ps, v)
  }

  /**
    What a comparison reports of its members: each counts with its metric value and its influence; p10, p50 and p90
    are where the cumulative influence passes 10, 50 and 90 percent, the mean balances the values, the percentile is
    the share of influence strictly below the subject.
   */
  lemma ComparisonSays(metric: string, subject: real, members: seq<ScoredMember>, lowerIsBetter: bool)
    ensures var c, ps := Compare(metric, subject, members, lowerIsBetter), MemberPoints(members);
      && |ps| == |members|
      && (forall i :: 0 <= i < |members| ==> ps[i].v == members[i].metricValue)
      && (forall i | 0 <= i < |members| ::
            ps[i].w == if members[i].influence > 0.0 then members[i].influence else 0.0)
      && (Total(ps) > 0.0 ==>
            && c.cohort.p10.Some? && Passes(ps, 0.1, c.cohort.p10.value)
            && c.cohort.p50.Some? && Passes(ps, 0.5, c.cohort.p50.value)
            && c.cohort.p90.Some? && Passes(ps, 0.9, c.cohort.p90.value)
            && c.cohort.weightedMean.Some? && SumOf(ps, Deviation(c.cohort.weightedMean.value)) == 0.0
            && c.percentile.Some? && Times(c.percentile.value, Total(ps)) == SumOf(ps, StrictlyBelow(subject)))
  {
    MemberPointsAreMapped(members);
    var ps := MemberPoints(members);
    assert forall i :: 0 <= i < |members| ==> ps[i] == ToPoint(members[i]);
    hide QuantileOf, Total, SumOf, Below, AtOrBelow, MeanOf, PercentileOf, MemberPoints, Weighed, Deviation;
    if Total(ps) > 0.0 {
      QuantileIsPassed(ps, 0.1);
      QuantileIsPassed(ps, 0.5);
      QuantileIsPassed(ps, 0.9);
      MeanBalances(ps);
      PercentileIsShare(ps, subject);
    }
  }

  /** One more member adds one to the cohort's size and its own sample to the effective sample. */
  lemma ComparisonGrows(metric: string, subject: real, members: seq<ScoredMember>, m: ScoredMember, lowerIsBetter: bool)
    ensures var before := Compare(metric, subject, members, lowerIsBetter);
      var after := Compare(metric, subject, members + [m], lowerIsBetter);
      && after.cohortSize == before.cohortSize + 1
      && after.effectiveSample == before.effectiveSample + m.sampleSize
      && after.metric == metric && after.subjectValue == subject
    ensures Compare(metric, subject, [], lowerIsBetter).cohortSize == 0
    ensures Compare(metric, subject, [], lowerIsBetter).effectiveSample == 0.0
  {
    SumOfAppend(members, [m], SampleSize);
    hide QuantileOf, MeanOf, PercentileOf, MemberPoints, Assess;
  }
}
