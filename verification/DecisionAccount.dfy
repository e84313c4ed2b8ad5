/** What each draft of the decision engine says, and what its confidence is made of, from the evidence alone. */
module DecisionAccount {
  import opened Wrappers
  import opened Sorting
  import opened Reals
  import opened Similarity
  import opened Benchmark
  import opened Anomaly
  import opened Decision

  // ---- Confidence ----

  /**
    Half of the evidence is the size of the cohort, a tenth for each of up to five members, and half the effective
    sample's share against 500; without a percentile or a cohort there is none.
   */
  lemma StrengthSays(b: BenchmarkSignal)
    ensures b.percentile.None? || b.cohortSize <= 0 ==> EvidenceStrength(b) == 0.0
    ensures b.percentile.Some? && 0 < b.cohortSize < 5 ==>
              EvidenceStrength(b) == 0.1 * b.cohortSize as real + 0.5 * SampleWeight(b.effectiveSample, 500.0)
    ensures b.percentile.Some? && b.cohortSize >= 5 ==>
              EvidenceStrength(b) == 0.5 + 0.5 * SampleWeight(b.effectiveSample, 500.0)
  {
    SampleIncreases(b.effectiveSample, b.effectiveSample, 500.0);
    hide SampleWeight;
  }

  /** A severe anomaly in the bad direction of a metric that underperforms. */
  ghost predicate Corroborated(ev: EvidenceBundle) {
    && ev.primary.assessment == Underperforming
    && exists a :: a in ev.anomalies && a.severity == High
         && ((ev.primary.lowerIsBetter && a.kind == Spike) || (!ev.primary.lowerIsBetter && a.kind == Drop))
  }

  lemma SupportSays(ev: EvidenceBundle)
    ensures CausalSupportOf(ev) == Moderate <==> Corroborated(ev)
  {
    if Corroborated(ev) {
      var a :| a in ev.anomalies && a.severity == High
               && ((ev.primary.lowerIsBetter && a.kind == Spike) || (!ev.primary.lowerIsBetter && a.kind == Drop));
      var i :| 0 <= i < |ev.anomalies| && ev.anomalies[i] == a;
      assert Corroborates(ev.primary, ev.anomalies[i]);
    }
  }

  /** The confidence is four parts evidence, three the subject's own sample, two recency and one causal support. */
  lemma ConfidenceIsWeighted(ev: EvidenceBundle)
    ensures ScoreConfidence(ev)
         == (4.0 * EvidenceStrength(ev.primary) + 3.0 * SampleWeight(ev.subjectSample, 20.0)
             + 2.0 * Clamp01(ev.primary.recency) + if Corroborated(ev) then 0.7 else 0.4) / 10.0
  {
    SampleIncreases(ev.subjectSample, ev.subjectSample, 20.0);
    SampleIncreases(ev.primary.effectiveSample, ev.primary.effectiveSample, 500.0);
    SupportSays(ev);
    hide SampleWeight, CausalSupportOf, Corroborated;
  }

  // ---- Drafts ----

  /** The gap times the subject's value is the distance from the median; without a median or a value it is 0. */
  lemma GapSays(subject: real, p50: Option<real>)
    ensures p50.None? || subject <= 0.0 ==> RelativeGap(subject, p50) == 0.0
    ensures p50.Some? && subject > p50.value && subject > 0.0 ==>
              Times(RelativeGap(subject, p50), subject) == subject - p50.value
    ensures p50.Some? && subject <= p50.value && subject > 0.0 ==>
              Times(RelativeGap(subject, p50), subject) == p50.value - subject
  {
  }

  predicate IsSevereSpike(a: Anomaly) { a.severity == High && a.kind == Spike }

  /** The anomaly at `i` is the first severe spike. */
  predicate FirstSpike(anomalies: seq<Anomaly>, i: int) {
    0 <= i < |anomalies| && IsSevereSpike(anomalies[i]) && forall j :: 0 <= j < i ==> !IsSevereSpike(anomalies[j])
  }

  lemma {:induction false} SpikeIsFirst(b: BenchmarkSignal, anomalies: seq<Anomaly>)
    requires CostSpike(b, anomalies).Some?
    ensures b.lowerIsBetter
    ensures exists i :: FirstSpike(anomalies, i) && anomalies[i] == CostSpike(b, anomalies).value
  {
    if IsCostSpike(b, anomalies[0]) {
      assert FirstSpike(anomalies, 0);
    } else {
      SpikeIsFirst(b, anomalies[1..]);
      var i :| FirstSpike(anomalies[1..], i) && anomalies[1..][i] == CostSpike(b, anomalies).value;
      assert FirstSpike(anomalies, i + 1);
    }
  }

  /** What every draft carries over from the evidence. */
  predicate CarriesEvidence(d: Draft, ev: EvidenceBundle) {
    && ev.primary.percentile == Some(d.percentile) && d.entity == ev.entity && d.metric == ev.primary.metric
    && d.assessment == ev.primary.assessment && d.confidence == ScoreConfidence(ev)
  }

  /**
    What a draft proposes and promises. A pause names the first severe spike, is always of high risk and promises a
    fall of 10 to 30%. The others shift or add the configured fraction; a reallocation promises a fall of at most 10
    to 40%, capped by the gap to the median, and an increase that the metric holds within 10%. Their risk is high
    below a confidence of 0.4, low from 0.7 and medium between.
   */
  lemma DraftSays(ev: EvidenceBundle, config: DecisionConfig, d: Draft)
    requires d in Candidates(ev, config)
    ensures CarriesEvidence(d, ev)
    ensures match d.action
      case PauseAdset(date) =>
        && (exists i :: FirstSpike(ev.anomalies, i) && ev.anomalies[i].date == date)
        && d.risk == HighRisk && d.direction == Decrease && d.lo == 0.1 && d.hi == 0.3
      case Reallocate(fraction) =>
        var gap := RelativeGap(ev.primary.subjectValue, ev.primary.cohortP50);
        && fraction == config.defaultChangeFraction && d.direction == Decrease
        && d.lo == (if gap < 0.1 then gap else 0.1) && d.hi == (if gap < 0.4 then gap else 0.4)
      case BudgetIncrease(percent) =>
        percent == config.defaultChangeFraction && d.direction == Hold && d.lo == 0.0 && d.hi == 0.1
    ensures !d.action.PauseAdset? ==>
              && (d.risk == HighRisk <==> d.confidence < 0.4)
              && (d.risk == LowRisk <==> d.confidence >= 0.7)
  {
    hide ScoreConfidence, RelativeGap, FirstSpike;
    if CostSpike(ev.primary, ev.anomalies).Some? { SpikeIsFirst(ev.primary, ev.anomalies); }
  }

  /** The pause comes before anything else. */
  lemma PauseComesFirst(ev: EvidenceBundle, config: DecisionConfig, i: nat)
    requires i < |Candidates(ev, config)| && Candidates(ev, config)[i].action.PauseAdset?
    ensures i == 0
  {
    hide ScoreConfidence, RelativeGap, RiskFor;
  }
}
