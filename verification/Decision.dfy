/**
  The candidate rules (services/decision-engine/src/rules.ts) with the confidence they attach
  (services/decision-engine/src/confidence.ts), and what they promise on evidence from a cohort comparison.
 */
module Decision {
  import opened Wrappers
  import opened Sorting
  import opened Reals
  import opened Similarity
  import opened Cohort
  import opened Benchmark
  import opened Anomaly

  datatype BenchmarkSignal = BenchmarkSignal(
    metric: string, subjectValue: real, percentile: Option<real>, assessment: Assessment, cohortSize: int,
    effectiveSample: real, cohortP50: Option<real>, lowerIsBetter: bool, recency: real)

  datatype EvidenceBundle = EvidenceBundle(
    entity: EntityRef, primary: BenchmarkSignal, anomalies: seq<Anomaly>, subjectSample: real)

  datatype DecisionConfig = DecisionConfig(minCohortSize: int, defaultChangeFraction: real)

  datatype Action =
    | PauseAdset(anomalyDate: string)
    | Reallocate(shiftFraction: real)
    | BudgetIncrease(percent: real)

  datatype Risk = LowRisk | MediumRisk | HighRisk

  datatype Direction = Decrease | Hold

  datatype Draft = Draft(
    entity: EntityRef, action: Action, metric: string, percentile: real, assessment: Assessment,
    confidence: real, risk: Risk, direction: Direction, lo: real, hi: real)

  // ---- Confidence ----

  datatype CausalSupport = Weak | Moderate

  function EvidenceStrength(b: BenchmarkSignal): real {
    if b.percentile.None? || b.cohortSize <= 0 then 0.0
    else Clamp01(Clamp01(b.cohortSize as real / 5.0) * 0.5 + SampleWeight(b.effectiveSample, 500.0) * 0.5)
  }

  predicate Corroborates(b: BenchmarkSignal, a: Anomaly) {
    a.severity == High && b.assessment == Underperforming && a.kind == (if b.lowerIsBetter then Spike else Drop)
  }

  function CausalSupportOf(ev: EvidenceBundle): CausalSupport {
    if exists i :: 0 <= i < |ev.anomalies| && Corroborates(ev.primary, ev.anomalies[i]) then Moderate else Weak
  }

  function ScoreConfidence(ev: EvidenceBundle): (r: real)
    ensures 0.0 <= r <= 1.0
  {
    Clamp01(0.4 * EvidenceStrength(ev.primary) + 0.3 * SampleWeight(ev.subjectSample, 20.0)
            + 0.2 * Clamp01(ev.primary.recency) + 0.1 * (if CausalSupportOf(ev) == Moderate then 0.7 else 0.4))
  }

  /** Confidence never reaches certainty: without an experiment it stays below 0.97, and never falls to 0. */
  lemma ConfidenceIsBounded(ev: EvidenceBundle)
    ensures 0.04 <= ScoreConfidence(ev) <= 0.97
  {
    SampleIncreases(ev.subjectSample, ev.subjectSample, 20.0);
    hide SampleWeight;
  }

  // ---- Rules ----

  function RelativeGap(subject: real, p50: Option<real>): real {
    if p50.None? || subject <= 0.0 then 0.0 else Abs(subject - p50.value) / subject
  }

  function RiskFor(action: Action, confidence: real): Risk {
    if action.PauseAdset? then HighRisk
    else if confidence < 0.4 then HighRisk
    else if confidence >= 0.7 then LowRisk
    else MediumRisk
  }

  predicate IsCostSpike(b: BenchmarkSignal, a: Anomaly) { a.severity == High && a.kind == Spike && b.lowerIsBetter }

  /** The first high-severity spike on a cost metric. */
  function CostSpike(b: BenchmarkSignal, anomalies: seq<Anomaly>): (a: Option<Anomaly>)
    ensures a.Some? ==> a.value in anomalies && IsCostSpike(b, a.value)
    ensures a.None? ==> forall x :: x in anomalies ==> !IsCostSpike(b, x)
  {
    if anomalies == [] then None
    else if IsCostSpike(b, anomalies[0]) then Some(anomalies[0])
    else CostSpike(b, anomalies[1..])
  }

  method GenerateCandidates(ev: EvidenceBundle, config: DecisionConfig) returns (drafts: seq<Draft>)
    ensures drafts == Candidates(ev, config)
  {
    var b := ev.primary;
    if b.percentile.None? || b.cohortSize < config.minCohortSize { return []; }
    var score, gap := ScoreConfidence(ev), RelativeGap(b.subjectValue, b.cohortP50);
    drafts := [];
    var spike := CostSpike(b, ev.anomalies);
    if spike.Some? {
      drafts := drafts + [MakeDraft(ev, score, PauseAdset(spike.value.date), Decrease, 0.1, 0.3)];
    }
    if b.assessment == Underperforming && b.lowerIsBetter {
      drafts := drafts + [MakeDraft(ev, score, Reallocate(config.defaultChangeFraction), Decrease,
                                    Min(0.1, gap), Min(0.4, gap))];
    }
    if b.assessment == Outperforming && b.lowerIsBetter {
      drafts := drafts + [MakeDraft(ev, score, BudgetIncrease(config.defaultChangeFraction), Hold, 0.0, 0.1)];
    }
  }

  function MakeDraft(ev: EvidenceBundle, score: real, action: Action, direction: Direction, lo: real, hi: real): Draft
    requires ev.primary.percentile.Some?
  {
    Draft(ev.entity, action, ev.primary.metric, ev.primary.percentile.value, ev.primary.assessment,
          score, RiskFor(action, score), direction, lo, hi)
  }

  predicate Sufficient(b: BenchmarkSignal, config: DecisionConfig) {
    b.percentile.Some? && b.cohortSize >= config.minCohortSize
  }

  /** The drafts in order: a pause for a cost spike, then the one the assessment of a cost metric asks for. */
  function Candidates(ev: EvidenceBundle, config: DecisionConfig): seq<Draft> {
    if !Sufficient(ev.primary, config) then [] else PauseDrafts(ev) + BudgetDrafts(ev, config)
  }

  function PauseDrafts(ev: EvidenceBundle): seq<Draft>
    requires ev.primary.percentile.Some?
  {
    match CostSpike(ev.primary, ev.anomalies)
    case None => []
    case Some(a) => [MakeDraft(ev, ScoreConfidence(ev), PauseAdset(a.date), Decrease, 0.1, 0.3)]
  }

  function BudgetDrafts(ev: EvidenceBundle, config: DecisionConfig): seq<Draft>
    requires ev.primary.percentile.Some?
  {
    var score, gap := ScoreConfidence(ev), RelativeGap(ev.primary.subjectValue, ev.primary.cohortP50);
    if !ev.primary.lowerIsBetter then []
    else
      match ev.primary.assessment
      case WithinExpected => []
      case Underperforming =>
        [MakeDraft(ev, score, Reallocate(config.defaultChangeFraction), Decrease, Min(0.1, gap), Min(0.4, gap))]
      case Outperforming => [MakeDraft(ev, score, BudgetIncrease(config.defaultChangeFraction), Hold, 0.0, 0.1)]
  }

  // ---- On evidence from a cohort ----

  /** The primary signal carries over what the comparison of the subject with its cohort found. */
  predicate FromComparison(b: BenchmarkSignal, c: CohortComparison) {
    && b.metric == c.metric && b.subjectValue == c.subjectValue && b.percentile == c.percentile
    && b.assessment == c.assessment && b.cohortSize == c.cohortSize && b.effectiveSample == c.effectiveSample
    && b.cohortP50 == c.cohort.p50
  }

  lemma UnderperformingIsAboveMedian(metric: string, subject: real, members: seq<ScoredMember>)
    requires Compare(metric, subject, members, true).assessment == Underperforming
    ensures Compare(metric, subject, members, true).cohort.p50.Some?
    ensures subject > Compare(metric, subject, members, true).cohort.p50.value
  {
    var ps := MemberPoints(members);
    MemberPointsAreMapped(members);
    AssessmentMeansQuartile(ps, subject, true);
    QuantileIsAValue(ps, 0.75);
    QuantileIsMonotone(ps, 0.5, 0.75);
  }

  lemma GapStopsAtMedian(subject: real, p50: real)
    requires subject > p50
    ensures var gap := RelativeGap(subject, Some(p50));
      && 0.0 <= Min(0.1, gap) <= Min(0.4, gap) <= 0.4
      && (Min(0.1, gap) > 0.0 <==> subject > 0.0)
      && subject * (1.0 - Min(0.4, gap)) >= p50
  {
    if subject > 0.0 {
      var gap := RelativeGap(subject, Some(p50));
      QuotientPositive(subject - p50, subject);
      FallStops(subject, subject - p50, gap, Min(0.4, gap));
    }
  }

  lemma QuotientPositive(x: real, n: real)
    requires x > 0.0 && n > 0.0
    ensures x / n > 0.0 && (x / n) * n == x
  {
  }

  lemma FallStops(subject: real, distance: real, gap: real, fall: real)
    requires subject > 0.0 && gap * subject == distance && fall <= gap
    ensures subject * (1.0 - fall) >= subject - distance
  {
    Scale(fall, gap, subject);
    assert subject * (1.0 - fall) == subject - fall * subject;
  }

  /**
    A promised decrease never overshoots the cohort median. On evidence from a cohort comparison every
    reallocation promises at most 40%, and carrying out the largest promised decrease still leaves the
    subject at or above the median; the promise is positive exactly when the subject's value is.
   */
  lemma DecreaseStopsAtMedian(
    ev: EvidenceBundle, config: DecisionConfig, metric: string, subject: real, members: seq<ScoredMember>, d: Draft)
    requires FromComparison(ev.primary, Compare(metric, subject, members, ev.primary.lowerIsBetter))
    requires d in Candidates(ev, config) && d.action.Reallocate?
    ensures 0.0 <= d.lo <= d.hi <= 0.4
    ensures d.lo > 0.0 <==> subject > 0.0
    ensures ev.primary.cohortP50.Some? && subject * (1.0 - d.hi) >= ev.primary.cohortP50.value
  {
    hide *;
    ReallocationIsUnderperforming(ev, config, d);
    SignalIsAboveMedian(ev.primary, metric, subject, members);
    GapStopsAtMedian(subject, ev.primary.cohortP50.value);
  }

  lemma SignalIsAboveMedian(b: BenchmarkSignal, metric: string, subject: real, members: seq<ScoredMember>)
    requires FromComparison(b, Compare(metric, subject, members, b.lowerIsBetter))
    requires b.assessment == Underperforming && b.lowerIsBetter
    ensures b.subjectValue == subject && b.cohortP50.Some? && subject > b.cohortP50.value
  {
    UnderperformingIsAboveMedian(metric, subject, members);
    hide QuantileOf, PercentileOf, MeanOf, MemberPoints, SumOf;
  }

  lemma ReallocationIsUnderperforming(ev: EvidenceBundle, config: DecisionConfig, d: Draft)
    requires d in Candidates(ev, config) && d.action.Reallocate?
    ensures ev.primary.assessment == Underperforming && ev.primary.lowerIsBetter
    ensures var gap := RelativeGap(ev.primary.subjectValue, ev.primary.cohortP50);
      d.lo == Min(0.1, gap) && d.hi == Min(0.4, gap)
  {
    hide ScoreConfidence, RelativeGap;
  }

  /**
    When anything at all is proposed for a compared subject: only for a cost metric, with a cohort that is
    large enough and has influence. Above the cohort's 0.75-quantile budget moves away from the subject; a
    larger budget is proposed only when the subject is at most every quantile past 0.25; never both.
   */
  lemma ProposalsFollowQuartiles(
    ev: EvidenceBundle, config: DecisionConfig, metric: string, subject: real, members: seq<ScoredMember>)
    requires FromComparison(ev.primary, Compare(metric, subject, members, ev.primary.lowerIsBetter))
    ensures var ps := MemberPoints(members);
      var active := ev.primary.lowerIsBetter && |members| >= config.minCohortSize && QuantileOf(ps, 0.75).Some?;
      && ((exists d :: d in Candidates(ev, config) && d.action.Reallocate?)
            <==> active && subject > QuantileOf(ps, 0.75).value)
      && ((exists d :: d in Candidates(ev, config) && d.action.BudgetIncrease?)
            <==> active && AtMostUpperQuantiles(ps, subject))
      && ((exists d :: d in Candidates(ev, config) && d.action.PauseAdset?)
            <==> active && exists a :: a in ev.anomalies && a.severity == High && a.kind == Spike)
      && |Candidates(ev, config)| <= 2
  {
    var ps, b := MemberPoints(members), ev.primary;
    MemberPointsAreMapped(members);
    AssessmentMeansQuartile(ps, subject, b.lowerIsBetter);
    QuantileIsAValue(ps, 0.75);
    hide QuantileOf, AtMostUpperQuantiles, MemberPoints;
    assert Sufficient(b, config) && b.lowerIsBetter
      <==> b.lowerIsBetter && |members| >= config.minCohortSize && QuantileOf(ps, 0.75).Some?;
    DraftsByKind(ev, config);
  }

  lemma DraftsByKind(ev: EvidenceBundle, config: DecisionConfig)
    ensures var active := Sufficient(ev.primary, config) && ev.primary.lowerIsBetter;
      && ((exists d :: d in Candidates(ev, config) && d.action.Reallocate?)
            <==> active && ev.primary.assessment == Underperforming)
      && ((exists d :: d in Candidates(ev, config) && d.action.BudgetIncrease?)
            <==> active && ev.primary.assessment == Outperforming)
      && ((exists d :: d in Candidates(ev, config) && d.action.PauseAdset?)
            <==> active && exists a :: a in ev.anomalies && a.severity == High && a.kind == Spike)
      && |Candidates(ev, config)| <= 2
  {
    hide ScoreConfidence, RelativeGap;
    if Sufficient(ev.primary, config) {
      var pause, budget, all := PauseDrafts(ev), BudgetDrafts(ev, config), Candidates(ev, config);
      assert forall d :: d in all <==> d in pause || d in budget;
      assert pause != [] ==> pause[0] in all;
      assert budget != [] ==> budget[0] in all;
    }
  }
}
