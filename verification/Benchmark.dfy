/**
  Influence-weighted benchmarking (services/benchmark-engine/src/benchmark.ts) over exact reals. `NaN` is
  `None`.
 */
module Benchmark {
  import opened Wrappers
  import opened Sorting
  import opened Reals
  import opened Similarity
  import opened Cohort

  datatype Point = Point(v: real, w: real)

  // ---- Weighted values ----

  function WeightAt(weights: seq<real>, i: nat): real { if i < |weights| then Max(0.0, weights[i]) else 0.0 }

  /** Each value with its weight: negative and missing weights are 0. */
  function Points(values: seq<real>, weights: seq<real>): (ps: seq<Point>)
    ensures |ps| == |values|
    ensures forall i :: 0 <= i < |ps| ==> ps[i] == Point(values[i], WeightAt(weights, i))
  {
    seq(|values|, i requires 0 <= i < |values| => Point(values[i], WeightAt(weights, i)))
  }

  function WeightOf(p: Point): real { p.w }

  function Moment(p: Point): real { p.w * p.v }

  function BelowWeight(s: real): Point -> real { (p: Point) => if p.v < s then p.w else 0.0 }

  function HasWeight(p: Point): bool { p.w > 0.0 }

  function Total(ps: seq<Point>): real { SumOf(ps, WeightOf) }

  /** The weight strictly below `s`. */
  function Below(ps: seq<Point>, s: real): real { SumOf(ps, BelowWeight(s)) }

  ghost predicate Weighed(ps: seq<Point>) { forall p :: p in ps ==> p.w >= 0.0 }

  predicate SmallerValue(p: Point, q: Point) { p.v <= q.v }

  /** The points that carry weight, by ascending value. */
  function Ranked(ps: seq<Point>): seq<Point> { Sort(Filtered(ps, HasWeight), SmallerValue) }

  // ---- Quantile ----

  /** The first value at which the cumulative weight reaches the target, or else the last value. */
  function Scan(ps: seq<Point>, cum: real, target: real): real
    requires ps != []
  {
    if cum + ps[0].w >= target || |ps| == 1 then ps[0].v else Scan(ps[1..], cum + ps[0].w, target)
  }

  function Target(q: real, total: real): real { q * total }

  function QuantileOf(ps: seq<Point>, q: real): Option<real> {
    var ranked := Ranked(ps);
    if ranked == [] || Total(ranked) <= 0.0 then None else Some(Scan(ranked, 0.0, Target(q, Total(ranked))))
  }

  method WeightedQuantile(values: seq<real>, weights: seq<real>, q: real) returns (r: Option<real>)
    ensures r == QuantileOf(Points(values, weights), q)
  {
    var pairs := Ranked(Points(values, weights));
    var total := 0.0;
    for i := 0 to |pairs|
      invariant total == Total(pairs[..i])
    {
      SumSnoc(pairs, i, WeightOf);
      total := total + pairs[i].w;
    }
    assert pairs[..|pairs|] == pairs;
    if pairs == [] || total <= 0.0 { return None; }
    var target, cum := Target(q, total), 0.0;
    ghost var goal := Scan(pairs, 0.0, target);
    assert QuantileOf(Points(values, weights), q) == Some(goal);
    for i := 0 to |pairs|
      invariant i < |pairs| ==> goal == Scan(pairs[i..], cum, target)
      invariant i == |pairs| ==> goal == pairs[|pairs| - 1].v
    {
      assert pairs[i..][0] == pairs[i] && pairs[i..][1..] == pairs[i + 1..];
      cum := cum + pairs[i].w;
      if cum >= target { return Some(pairs[i].v); }
    }
    r := Some(pairs[|pairs| - 1].v);
  }

  // ---- Mean and percentile ----

  function MeanOf(ps: seq<Point>): Option<real> {
    if Total(ps) > 0.0 then Some(SumOf(ps, Moment) / Total(ps)) else None
  }

  method WeightedMean(values: seq<real>, weights: seq<real>) returns (r: Option<real>)
    ensures r == MeanOf(Points(values, weights))
  {
    ghost var ps := Points(values, weights);
    var num, den := 0.0, 0.0;
    for i := 0 to |values|
      invariant num == SumOf(ps[..i], Moment)
      invariant den == Total(ps[..i])
    {
      SumSnoc(ps, i, Moment);
      SumSnoc(ps, i, WeightOf);
      var w := WeightAt(weights, i);
      num := num + w * values[i];
      den := den + w;
    }
    assert ps[..|ps|] == ps;
    if den > 0.0 { return Some(num / den); }
    r := None;
  }

  function PercentileOf(ps: seq<Point>, s: real): Option<real> {
    if Total(ps) > 0.0 then Some(Below(ps, s) / Total(ps)) else None
  }

  method WeightedPercentileOf(subject: real, values: seq<real>, weights: seq<real>) returns (r: Option<real>)
    ensures r == PercentileOf(Points(values, weights), subject)
  {
    ghost var ps := Points(values, weights);
    var below, total := 0.0, 0.0;
    for i := 0 to |values|
      invariant below == Below(ps[..i], subject)
      invariant total == Total(ps[..i])
    {
      SumSnoc(ps, i, BelowWeight(subject));
      SumSnoc(ps, i, WeightOf);
      var w := WeightAt(weights, i);
      total := total + w;
      if values[i] < subject { below := below + w; }
    }
    assert ps[..|ps|] == ps;
    if total > 0.0 { return Some(below / total); }
    r := None;
  }

  // ---- The adjunction ----

  ghost predicate Rising(ps: seq<Point>) {
    SortedBy(ps, SmallerValue) && forall i :: 0 <= i < |ps| ==> ps[i].w > 0.0
  }

  /** Weightless points change no sum. */
  lemma {:induction false} WeightlessIsNothing(ps: seq<Point>, f: Point -> real)
    requires Weighed(ps)
    requires forall p :: p in ps && p.w == 0.0 ==> f(p) == 0.0
    ensures SumOf(Filtered(ps, HasWeight), f) == SumOf(ps, f)
  {
    if ps != [] {
      WeightlessIsNothing(ps[1..], f);
      assert ps[0] in ps;
      if HasWeight(ps[0]) {
        assert Filtered(ps, HasWeight)[1..] == Filtered(ps[1..], HasWeight);
      } else {
        assert Filtered(ps, HasWeight) == Filtered(ps[1..], HasWeight);
      }
    }
  }

  lemma RankedFacts(ps: seq<Point>)
    requires Weighed(ps)
    ensures Rising(Ranked(ps))
    ensures Total(Ranked(ps)) == Total(ps)
    ensures forall s :: Below(Ranked(ps), s) == Below(ps, s)
    ensures forall p :: p in Ranked(ps) <==> p in ps && p.w > 0.0
  {
    var kept, ranked := Filtered(ps, HasWeight), Ranked(ps);
    SortIsSorted(kept, SmallerValue);
    SameMembers(kept, ranked);
    WeightlessIsNothing(ps, WeightOf);
    SumOfPermuted(kept, ranked, WeightOf);
    forall s ensures Below(ranked, s) == Below(ps, s) {
      WeightlessIsNothing(ps, BelowWeight(s));
      SumOfPermuted(kept, ranked, BelowWeight(s));
    }
    forall p ensures p in ranked <==> p in ps && p.w > 0.0 {
      assert p in kept <==> p in ps && HasWeight(p);
    }
    forall i | 0 <= i < |ranked| ensures ranked[i].w > 0.0 {
      assert ranked[i] in ranked;
    }
  }

  lemma {:induction false} NothingBelow(ps: seq<Point>, s: real)
    requires forall i :: 0 <= i < |ps| ==> s <= ps[i].v
    ensures Below(ps, s) == 0.0
  {
    if ps != [] { NothingBelow(ps[1..], s); }
  }

  lemma {:induction false} BelowBounds(ps: seq<Point>, s: real)
    requires forall i :: 0 <= i < |ps| ==> ps[i].w > 0.0
    ensures 0.0 <= Below(ps, s) <= Total(ps)
    ensures ps != [] ==> Total(ps) > 0.0
  {
    if ps != [] { BelowBounds(ps[1..], s); }
  }

  lemma {:induction false} ScanIsMember(ps: seq<Point>, cum: real, target: real)
    requires ps != []
    ensures exists p :: p in ps && p.v == Scan(ps, cum, target)
  {
    if cum + ps[0].w >= target || |ps| == 1 {
      assert ps[0] in ps;
    } else {
      ScanIsMember(ps[1..], cum + ps[0].w, target);
      var p :| p in ps[1..] && p.v == Scan(ps[1..], cum + ps[0].w, target);
      assert p in ps;
    }
  }

  lemma {:induction false} ScanAdjoint(ps: seq<Point>, cum: real, target: real, s: real)
    requires ps != [] && Rising(ps) && cum < target <= cum + Total(ps)
    ensures Scan(ps, cum, target) < s <==> cum + Below(ps, s) >= target
  {
    var rest := ps[1..];
    BelowBounds(rest, s);
    if ps[0].v >= s {
      NothingBelow(ps, s);
      ScanIsMember(ps, cum, target);
    } else if cum + ps[0].w < target {
      assert rest != [] by { assert rest == [] ==> Total(rest) == 0.0; }
      ScanAdjoint(rest, cum + ps[0].w, target, s);
    }
  }

  lemma QuotientAtLeast(x: real, n: real, q: real)
    requires n > 0.0
    ensures x / n >= q <==> x >= Target(q, n)
  {
    var r := x / n;
    assert r * n == x;
    if r >= q { Scale(q, r, n); }
    if x >= q * n {
      assert (q - r) * n == q * n - x;
      NotPositive(q - r, n);
    }
  }

  lemma QuantileIsScan(ps: seq<Point>, q: real)
    requires Weighed(ps)
    ensures Total(ps) >= 0.0
    ensures Total(ps) > 0.0 ==>
              Ranked(ps) != [] && QuantileOf(ps, q) == Some(Scan(Ranked(ps), 0.0, Target(q, Total(ps))))
    ensures Total(ps) == 0.0 ==> Ranked(ps) == [] && QuantileOf(ps, q) == None
  {
    hide Ranked;
    RankedFacts(ps);
    BelowBounds(Ranked(ps), 0.0);
    assert Ranked(ps) == [] ==> Total(Ranked(ps)) == 0.0;
  }

  /** Adjoint: at least `q` of the weight lies below `s` exactly when the q-quantile lies below `s`. */
  lemma Adjunction(ps: seq<Point>, q: real, s: real)
    requires Weighed(ps) && Total(ps) > 0.0 && 0.0 < q <= 1.0
    ensures QuantileOf(ps, q).Some? && PercentileOf(ps, s).Some?
    ensures PercentileOf(ps, s).value >= q <==> QuantileOf(ps, q).value < s
  {
    hide Ranked, QuantileOf, Below, Total, Target;
    RankedFacts(ps);
    QuantileIsScan(ps, q);
    var target := Target(q, Total(ps));
    QuotientAtLeast(Below(ps, s), Total(ps), q);
    TargetBounds(q, Total(ps));
    ScanAdjoint(Ranked(ps), 0.0, target, s);
  }

  lemma TargetBounds(q: real, total: real)
    requires 0.0 < q <= 1.0 && total > 0.0
    ensures 0.0 < Target(q, total) <= total
  {
    Scale(q, 1.0, total);
  }

  /** There is a quantile exactly when some value carries weight, and it is one of those values. */
  lemma QuantileIsAValue(ps: seq<Point>, q: real)
    requires Weighed(ps)
    ensures QuantileOf(ps, q).Some? <==> Total(ps) > 0.0
    ensures QuantileOf(ps, q).Some? <==> exists v :: IsWeighted(ps, v)
    ensures QuantileOf(ps, q).Some? ==> IsWeighted(ps, QuantileOf(ps, q).value)
  {
    hide Ranked, QuantileOf, Total;
    RankedFacts(ps);
    QuantileIsScan(ps, q);
    var ranked := Ranked(ps);
    if ranked == [] {
      assert forall p :: p in ps ==> p !in ranked;
    } else {
      assert ranked[0] in ranked;
      assert IsWeighted(ps, ranked[0].v);
      ScanIsMember(ranked, 0.0, Target(q, Total(ps)));
    }
  }

  /** A later quantile is never smaller; so p10 <= p50 <= p90. */
  lemma QuantileIsMonotone(ps: seq<Point>, q: real, r: real)
    requires Weighed(ps) && Total(ps) > 0.0 && 0.0 < q <= r <= 1.0
    ensures QuantileOf(ps, q).Some? && QuantileOf(ps, r).Some?
    ensures QuantileOf(ps, q).value <= QuantileOf(ps, r).value
  {
    hide QuantileOf;
    QuantileIsAValue(ps, q);
    var s := QuantileOf(ps, q).value;
    Adjunction(ps, q, s);
    Adjunction(ps, r, s);
  }

  /** The mean lies between any bounds on the values that carry weight. */
  lemma MeanIsBetween(ps: seq<Point>, lo: real, hi: real)
    requires Weighed(ps) && Total(ps) > 0.0
    requires forall p :: p in ps && p.w > 0.0 ==> lo <= p.v <= hi
    ensures MeanOf(ps).Some? && lo <= MeanOf(ps).value <= hi
  {
    WeightedWithin(ps, WeightOf, (p: Point) => p.v, Moment, lo, hi);
    QuotientWithin(SumOf(ps, Moment), Total(ps), lo, hi);
  }

  // ---- Assessment ----

  datatype Assessment = WithinExpected | Underperforming | Outperforming

  function Assess(percentile: Option<real>, lowerIsBetter: bool): Assessment {
    if percentile.None? then WithinExpected
    else if lowerIsBetter then
      if percentile.value >= 0.75 then Underperforming
      else if percentile.value <= 0.25 then Outperforming
      else WithinExpected
    else if percentile.value >= 0.75 then Outperforming
    else if percentile.value <= 0.25 then Underperforming
    else WithinExpected
  }

  /**
    On a cost metric "underperforming" means above the weighted 0.75-quantile, and "outperforming" means not
    above any quantile past 0.25.
   */
  lemma AssessmentMeansQuartile(ps: seq<Point>, s: real, lowerIsBetter: bool)
    requires Weighed(ps)
    ensures Assess(PercentileOf(ps, s), lowerIsBetter) == (if lowerIsBetter then Underperforming else Outperforming)
       <==> QuantileOf(ps, 0.75).Some? && s > QuantileOf(ps, 0.75).value
    ensures Assess(PercentileOf(ps, s), lowerIsBetter) == (if lowerIsBetter then Outperforming else Underperforming)
       <==> QuantileOf(ps, 0.75).Some? && AtMostUpperQuantiles(ps, s)
  {
    QuantileIsAValue(ps, 0.75);
    if Total(ps) > 0.0 {
      Adjunction(ps, 0.75, s);
      LowPercentile(ps, s);
    }
  }

  /** `s` is at most every quantile past the lower quartile. */
  ghost predicate AtMostUpperQuantiles(ps: seq<Point>, s: real) {
    forall q :: 0.25 < q <= 1.0 ==> QuantileAtLeast(ps, q, s)
  }

  predicate QuantileAtLeast(ps: seq<Point>, q: real, s: real) {
    QuantileOf(ps, q).Some? && QuantileOf(ps, q).value >= s
  }

  lemma PercentileBounds(ps: seq<Point>, s: real)
    requires Weighed(ps) && Total(ps) > 0.0
    ensures PercentileOf(ps, s).Some? && 0.0 <= PercentileOf(ps, s).value <= 1.0
  {
    RankedFacts(ps);
    BelowBounds(Ranked(ps), s);
    QuotientWithin(Below(ps, s), Total(ps), 0.0, 1.0);
  }

  lemma LowPercentile(ps: seq<Point>, s: real)
    requires Weighed(ps) && Total(ps) > 0.0
    ensures PercentileOf(ps, s).Some?
    ensures PercentileOf(ps, s).value <= 0.25 <==> AtMostUpperQuantiles(ps, s)
  {
    PercentileBounds(ps, s);
    var p := PercentileOf(ps, s).value;
    if p <= 0.25 {
      forall q | 0.25 < q <= 1.0 ensures QuantileAtLeast(ps, q, s) { Adjunction(ps, q, s); }
    } else {
      Adjunction(ps, p, s);
      assert !QuantileAtLeast(ps, p, s);
    }
  }

  // ---- Comparison with a cohort ----

  datatype CohortDistribution = CohortDistribution(
    p10: Option<real>, p50: Option<real>, p90: Option<real>, weightedMean: Option<real>)

  datatype CohortComparison = CohortComparison(
    metric: string, subjectValue: real, cohort: CohortDistribution, percentile: Option<real>,
    assessment: Assessment, cohortSize: nat, effectiveSample: real)

  function MetricValue(m: ScoredMember): real { m.metricValue }

  function Influence(m: ScoredMember): real { m.influence }

  function SampleSize(m: ScoredMember): real { m.sampleSize }

  function MemberPoints(members: seq<ScoredMember>): seq<Point> {
    Points(Mapped(members, MetricValue), Mapped(members, Influence))
  }

  function Compare(metric: string, subject: real, members: seq<ScoredMember>, lowerIsBetter: bool): CohortComparison {
    var ps := MemberPoints(members);
    var percentile := PercentileOf(ps, subject);
    CohortComparison(
      metric, subject,
      CohortDistribution(QuantileOf(ps, 0.1), QuantileOf(ps, 0.5), QuantileOf(ps, 0.9), MeanOf(ps)),
      percentile, Assess(percentile, lowerIsBetter), |members|, SumOf(members, SampleSize))
  }

  method CompareWithCohort(metric: string, subject: real, members: seq<ScoredMember>, lowerIsBetter: bool)
    returns (c: CohortComparison)
    ensures c == Compare(metric, subject, members, lowerIsBetter)
  {
    var values, weights := Mapped(members, MetricValue), Mapped(members, Influence);
    var percentile := WeightedPercentileOf(subject, values, weights);
    var p10 := WeightedQuantile(values, weights, 0.1);
    var p50 := WeightedQuantile(values, weights, 0.5);
    var p90 := WeightedQuantile(values, weights, 0.9);
    var mean := WeightedMean(values, weights);
    var effective := 0.0;
    for i := 0 to |members|
      invariant effective == SumOf(members[..i], SampleSize)
    {
      SumSnoc(members, i, SampleSize);
      effective := effective + members[i].sampleSize;
    }
    assert members[..|members|] == members;
    c := CohortComparison(metric, subject, CohortDistribution(p10, p50, p90, mean), percentile,
                          Assess(percentile, lowerIsBetter), |members|, effective);
  }

  function ToPoint(m: ScoredMember): Point { Point(m.metricValue, Max(0.0, m.influence)) }

  lemma MemberPointsAreMapped(members: seq<ScoredMember>)
    ensures MemberPoints(members) == Mapped(members, ToPoint)
    ensures Weighed(MemberPoints(members))
  {
  }

  /** Quantile, percentile and mean depend only on the bag of weighted values. */
  lemma StatisticsIgnoreOrder(ps: seq<Point>, qs: seq<Point>, q: real, s: real)
    requires multiset(ps) == multiset(qs) && Weighed(ps) && 0.0 < q <= 1.0
    ensures PercentileOf(ps, s) == PercentileOf(qs, s)
    ensures MeanOf(ps) == MeanOf(qs)
    ensures QuantileOf(ps, q) == QuantileOf(qs, q)
  {
    SameMembers(ps, qs);
    SumOfPermuted(ps, qs, WeightOf);
    SumOfPermuted(ps, qs, Moment);
    SumOfPermuted(ps, qs, BelowWeight(s));
    QuantileIsAValue(ps, q);
    QuantileIsAValue(qs, q);
    if Total(ps) > 0.0 {
      QuantileNotBelow(ps, qs, q);
      QuantileNotBelow(qs, ps, q);
    }
  }

  lemma QuantileNotBelow(ps: seq<Point>, qs: seq<Point>, q: real)
    requires multiset(ps) == multiset(qs) && Weighed(ps) && Weighed(qs) && 0.0 < q <= 1.0
    requires Total(ps) > 0.0 && Total(qs) > 0.0
    ensures QuantileOf(ps, q).Some? && QuantileOf(qs, q).Some?
    ensures QuantileOf(ps, q).value >= QuantileOf(qs, q).value
  {
    Adjunction(qs, q, 0.0);
    var v := QuantileOf(qs, q).value;
    Adjunction(qs, q, v);
    Adjunction(ps, q, v);
    SumOfPermuted(ps, qs, WeightOf);
    SumOfPermuted(ps, qs, BelowWeight(v));
  }

  lemma CompareIgnoresMemberOrder(
    metric: string, subject: real, members: seq<ScoredMember>, permuted: seq<ScoredMember>, lowerIsBetter: bool)
    requires multiset(members) == multiset(permuted)
    ensures Compare(metric, subject, members, lowerIsBetter) == Compare(metric, subject, permuted, lowerIsBetter)
  {
    SameMembers(members, permuted);
    MemberPointsAreMapped(members);
    MemberPointsAreMapped(permuted);
    MappedPermuted(members, permuted, ToPoint);
    var ps, qs := MemberPoints(members), MemberPoints(permuted);
    StatisticsIgnoreOrder(ps, qs, 0.1, subject);
    StatisticsIgnoreOrder(ps, qs, 0.5, subject);
    StatisticsIgnoreOrder(ps, qs, 0.9, subject);
    SumOfPermuted(members, permuted, SampleSize);
  }

  /** Scoring, filtering and comparing gives the same comparison for every order of the candidates. */
  lemma ComparisonIgnoresOrder(
    env: Setting, candidates: seq<CohortCandidate>, permuted: seq<CohortCandidate>, min: real,
    metric: string, subject: real, lowerIsBetter: bool)
    requires multiset(candidates) == multiset(permuted)
    ensures Compare(metric, subject, FilterCohort(Scored(env, candidates), min), lowerIsBetter)
         == Compare(metric, subject, FilterCohort(Scored(env, permuted), min), lowerIsBetter)
  {
    CohortIgnoresOrder(env, candidates, permuted, min);
    CompareIgnoresMemberOrder(metric, subject, FilterCohort(Scored(env, candidates), min),
                              FilterCohort(Scored(env, permuted), min), lowerIsBetter);
  }

  ghost predicate IsWeighted(ps: seq<Point>, v: real) { exists p :: p in ps && p.w > 0.0 && p.v == v }

  ghost predicate HasInfluential(members: seq<ScoredMember>, v: real) {
    exists m :: m in members && m.influence > 0.0 && m.metricValue == v
  }

  /** The shape of every comparison: all statistics or none, ordered, and read off the influential members. */
  lemma ComparisonIsCoherent(metric: string, subject: real, members: seq<ScoredMember>, lowerIsBetter: bool)
    ensures var c := Compare(metric, subject, members, lowerIsBetter);
      if exists v :: HasInfluential(members, v) then
        && c.cohort.p10.Some? && c.cohort.p50.Some? && c.cohort.p90.Some? && c.cohort.weightedMean.Some?
        && c.percentile.Some? && 0.0 <= c.percentile.value <= 1.0
        && c.cohort.p10.value <= c.cohort.p50.value <= c.cohort.p90.value
        && HasInfluential(members, c.cohort.p10.value) && HasInfluential(members, c.cohort.p50.value)
        && HasInfluential(members, c.cohort.p90.value)
      else
        c.cohort == CohortDistribution(None, None, None, None) && c.percentile.None? && c.assessment == WithinExpected
  {
    hide QuantileOf, PercentileOf, MeanOf, MemberPoints, Total, SumOf, Mapped, IsWeighted, HasInfluential;
    MemberPointsAreMapped(members);
    forall v ensures HasInfluential(members, v) == IsWeighted(MemberPoints(members), v) {
      InfluentialIsWeighted(members, v);
    }
    DistributionIsCoherent(MemberPoints(members), subject);
  }

  lemma DistributionIsCoherent(ps: seq<Point>, s: real)
    requires Weighed(ps)
    ensures if exists v :: IsWeighted(ps, v) then
        && QuantileOf(ps, 0.1).Some? && QuantileOf(ps, 0.5).Some? && QuantileOf(ps, 0.9).Some?
        && MeanOf(ps).Some? && PercentileOf(ps, s).Some? && 0.0 <= PercentileOf(ps, s).value <= 1.0
        && QuantileOf(ps, 0.1).value <= QuantileOf(ps, 0.5).value <= QuantileOf(ps, 0.9).value
        && IsWeighted(ps, QuantileOf(ps, 0.1).value) && IsWeighted(ps, QuantileOf(ps, 0.5).value)
        && IsWeighted(ps, QuantileOf(ps, 0.9).value)
      else
        && QuantileOf(ps, 0.1).None? && QuantileOf(ps, 0.5).None? && QuantileOf(ps, 0.9).None?
        && MeanOf(ps).None? && PercentileOf(ps, s).None?
  {
    hide QuantileOf, Total, IsWeighted;
    QuantileIsAValue(ps, 0.1);
    QuantileIsAValue(ps, 0.5);
    QuantileIsAValue(ps, 0.9);
    if Total(ps) > 0.0 {
      QuantileIsMonotone(ps, 0.1, 0.5);
      QuantileIsMonotone(ps, 0.5, 0.9);
      PercentileBounds(ps, s);
    }
  }

  lemma InfluentialIsWeighted(members: seq<ScoredMember>, v: real)
    ensures HasInfluential(members, v) <==> IsWeighted(MemberPoints(members), v)
  {
    MemberPointsAreMapped(members);
    var ps := MemberPoints(members);
    if HasInfluential(members, v) {
      var m :| m in members && m.influence > 0.0 && m.metricValue == v;
      var k :| 0 <= k < |members| && members[k] == m;
      assert ps[k] == ToPoint(m) && ps[k] in ps;
    }
    if IsWeighted(ps, v) {
      var p :| p in ps && p.w > 0.0 && p.v == v;
      var k :| 0 <= k < |ps| && ps[k] == p;
      assert members[k] in members && ToPoint(members[k]) == p;
    }
  }
}
