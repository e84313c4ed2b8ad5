/** Deterministic before/after evaluation (services/action-executor/src/outcome.ts), over exact reals. */
module Outcome {
  import opened Wrappers
  import opened Reals

  /** The contract also knows "inconclusive", which this evaluation never returns. */
  datatype ActionResult = Improved | Neutral | Regressed | Inconclusive

  datatype Metrics = Metrics(before: real, after: real, lowerIsBetter: bool, neutralBand: Option<real>)

  const DEFAULT_NEUTRAL_BAND := 0.05

  datatype Evaluation = Evaluation(result: ActionResult, delta: real, relative: real, causalConfidence: real)

  function Band(m: Metrics): real { if m.neutralBand.Some? then m.neutralBand.value else DEFAULT_NEUTRAL_BAND }

  function Relative(m: Metrics): real {
    if m.before != 0.0 then (m.after - m.before) / Abs(m.before) else 0.0
  }

  function EvaluateOutcome(m: Metrics): Evaluation {
    var delta := m.after - m.before;
    var relative := Relative(m);
    var result :=
      if Abs(relative) < Band(m) then Neutral
      else if (if m.lowerIsBetter then delta < 0.0 else delta > 0.0) then Improved
      else Regressed;
    var causal := if Abs(relative) >= 0.15 then 0.4 else 0.2;
    var causal' := if result.Neutral? then 0.1 else causal;
    Evaluation(result, delta, relative, if causal' < 0.5 then causal' else 0.5)
  }

  /** The metric seen from the other side: what was better is now worse. */
  function Flipped(m: Metrics): Metrics { m.(lowerIsBetter := !m.lowerIsBetter) }

  /** Turning the metric's sense round turns the verdict round. */
  predicate TurnsRound(m: Metrics) {
    var e, f := EvaluateOutcome(m).result, EvaluateOutcome(Flipped(m)).result;
    (e.Neutral? <==> f.Neutral?) && (e.Improved? <==> f.Regressed?) && (e.Regressed? <==> f.Improved?)
  }

  /**
    For every band: the verdict is conclusive, its confidence is cautious, it is neutral exactly inside the band,
    outside it is judged by the direction of the change alone, and it turns round with the metric's sense exactly
    when there is a change or the band is positive; without either, both senses read "regressed".
   */
  lemma VerdictProperties(m: Metrics)
    ensures var e := EvaluateOutcome(m);
      && !e.result.Inconclusive?
      && 0.1 <= e.causalConfidence <= 0.4
      && (e.result.Neutral? <==> if m.before == 0.0 then Band(m) > 0.0
                                 else Abs(m.after - m.before) < Band(m) * Abs(m.before))
      && (e.result.Improved? <==>
            !e.result.Neutral? && if m.lowerIsBetter then m.after < m.before else m.after > m.before)
      && (TurnsRound(m) <==> m.after != m.before || Band(m) > 0.0)
      && (!TurnsRound(m) ==> e.result.Regressed? && EvaluateOutcome(Flipped(m)).result.Regressed?)
  {
    if m.before != 0.0 {
      var d, b := m.after - m.before, Abs(m.before);
      QuotientSign(d, b);
      DivideBound(Abs(d), b, Band(m));
    }
    hide Band;
  }

  /**
    What an evaluation reports: the change, the change relative to the size of the value before (0 when that is 0),
    and a confidence of 0.1 inside the band, 0.4 for a change of at least 15%, and 0.2 otherwise; without a band
    of its own a metric has one of 5%.
   */
  lemma EvaluationReports(m: Metrics)
    ensures var e := EvaluateOutcome(m);
      && e.delta == m.after - m.before
      && (m.before != 0.0 ==> e.relative * Abs(m.before) == m.after - m.before)
      && (m.before == 0.0 ==> e.relative == 0.0)
      && (e.result.Neutral? ==> e.causalConfidence == 0.1)
      && (!e.result.Neutral? ==>
            e.causalConfidence
              == (if m.before != 0.0 && Abs(m.after - m.before) >= 0.15 * Abs(m.before) then 0.4 else 0.2))
      && (m.neutralBand.None? && Abs(e.relative) >= 0.05 ==> !e.result.Neutral?)
      && (m.neutralBand.None? && Abs(e.relative) < 0.05 ==> e.result.Neutral?)
      && (m.neutralBand.Some? ==> (e.result.Neutral? <==> Abs(e.relative) < m.neutralBand.value))
  {
    if m.before != 0.0 {
      var d, b := m.after - m.before, Abs(m.before);
      assert (d / b) * b == d;
      QuotientSign(d, b);
      DivideBound(Abs(d), b, 0.15);
    }
  }

  lemma QuotientSign(d: real, b: real)
    requires b > 0.0
    ensures Abs(d / b) == Abs(d) / b
    ensures d == 0.0 ==> d / b == 0.0
  {
    assert (d / b) * b == d;
    if d >= 0.0 {
      assert d / b >= 0.0;
    } else {
      assert -d / b > 0.0;
      assert (-d) / b == -(d / b);
    }
  }

  lemma DivideBound(x: real, b: real, t: real)
    requires b > 0.0
    ensures x / b < t <==> x < t * b
  {
    assert (x / b) * b == x;
    if x / b < t {
      assert (t - x / b) * b > 0.0;
    }
    if x < t * b {
      assert (t - x / b) * b > 0.0;
    }
  }
}
