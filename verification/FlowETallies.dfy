/**
  The tallies of Flow E: in every reachable state the four counts, the sum of confidences and the sample size are
  those of the distinct evaluations delivered, and the k-th snapshot is that of the first k of them.
 */
module FlowETallies {
  import opened Wrappers
  import opened EventBus
  import opened Reals
  import opened Outcome
  import opened FlowE
  import opened FlowEInvariant
  import opened FlowEAccount
  import Clock

  /** The distinct `outcome.evaluated` events in the order they first appear. */
  function FirstEvaluated(ps: seq<Event>): (r: seq<Event>)
    ensures forall e :: e in r ==> e.payload.Evaluated?
  {
    if ps == [] then []
    else
      var rest, last := FirstEvaluated(ps[..|ps| - 1]), ps[|ps| - 1];
      if last.payload.Evaluated? && last !in rest then rest + [last] else rest
  }

  /** How many of the evaluations have the given result. */
  function CountOf(es: seq<Event>, r: ActionResult): nat {
    if es == [] then 0
    else
      var last := es[|es| - 1].payload;
      CountOf(es[..|es| - 1], r) + if last.Evaluated? && last.evaluation.result == r then 1 else 0
  }

  function ConfidenceSum(es: seq<Event>): real {
    if es == [] then 0.0
    else
      var last := es[|es| - 1].payload;
      ConfidenceSum(es[..|es| - 1]) + if last.Evaluated? then last.evaluation.causalConfidence else 0.0
  }

  /** The counts and the sum are those of the evaluations. */
  ghost predicate Tallied(counts: Counts, sum: real, es: seq<Event>) {
    && counts.improved == CountOf(es, Improved) && counts.neutral == CountOf(es, ActionResult.Neutral)
    && counts.regressed == CountOf(es, Regressed) && counts.inconclusive == CountOf(es, Inconclusive)
    && sum == ConfidenceSum(es)
  }

  /** The event is the snapshot of the evaluations, published in answer to the last of them. */
  ghost predicate Taught(l: Event, es: seq<Event>)
    requires es != []
  {
    var last := es[|es| - 1];
    && l.payload.Learned? && l.payload.snapshot.sampleSize == |es|
    && Tallied(l.payload.snapshot.counts, Times(l.payload.snapshot.meanCausalConfidence, |es| as real), es)
    && l.kind == "learning.updated" && l.actor == "learning-aggregator"
    && l.clientId == last.clientId && l.correlationId == last.correlationId && l.causationId == Some(last.eventId)
  }

  /** The i-th snapshot is that of the first i + 1 evaluations. */
  ghost predicate AllTaught(learned: seq<Event>, es: seq<Event>) {
    && |learned| == |es|
    && forall i :: 0 <= i < |learned| ==> Taught(learned[i], es[..i + 1])
  }

  ghost predicate TallyInv(b: FlowBus) {
    && b.world.n == |FirstEvaluated(b.delivered)|
    && Tallied(b.world.counts, b.world.causalSum, FirstEvaluated(b.delivered))
    && AllTaught(FirstLearned(b.published), FirstEvaluated(b.delivered))
  }

  // ---- One more event ----

  lemma {:induction false} FirstEvaluatedMembers(ps: seq<Event>, e: Event)
    ensures e in FirstEvaluated(ps) <==> e in ps && e.payload.Evaluated?
  {
    if ps != [] {
      FirstEvaluatedMembers(ps[..|ps| - 1], e);
      assert ps == ps[..|ps| - 1] + [ps[|ps| - 1]];
    }
  }

  lemma FirstEvaluatedAppend(ps: seq<Event>, e: Event)
    ensures FirstEvaluated(ps + [e]) == FirstEvaluated(ps) + if e.payload.Evaluated? && e !in ps then [e] else []
  {
    assert (ps + [e])[..|ps|] == ps;
    FirstEvaluatedMembers(ps, e);
  }

  /** The distinct evaluations stand in the order of their first delivery, each once. */
  lemma {:induction false} FirstEvaluatedDistinct(ps: seq<Event>, i: nat, j: nat)
    requires i < j < |FirstEvaluated(ps)|
    ensures FirstEvaluated(ps)[i] != FirstEvaluated(ps)[j]
  {
    var rest := FirstEvaluated(ps[..|ps| - 1]);
    if j < |rest| { FirstEvaluatedDistinct(ps[..|ps| - 1], i, j); }
  }

  lemma TallyAppend(counts: Counts, sum: real, es: seq<Event>, e: Event)
    requires Tallied(counts, sum, es) && e.payload.Evaluated?
    ensures Tallied(Counted(counts, e.payload.evaluation.result), sum + e.payload.evaluation.causalConfidence, es + [e])
  {
    assert (es + [e])[..|es|] == es;
  }

  lemma AllTaughtAppend(learned: seq<Event>, es: seq<Event>, l: Event, e: Event)
    requires AllTaught(learned, es) && Taught(l, es + [e])
    ensures AllTaught(learned + [l], es + [e])
  {
    hide Taught;
    forall i | 0 <= i < |learned + [l]| ensures Taught((learned + [l])[i], (es + [e])[..i + 1]) {
      if i < |learned| {
        assert (es + [e])[..i + 1] == es[..i + 1];
      } else {
        assert (es + [e])[..i + 1] == es + [e];
      }
    }
  }

  // ---- Every step ----

  /** What leaves the aggregator alone and publishes no new snapshot keeps the tallies. */
  lemma TallyStays(b: FlowBus, r: FlowBus)
    requires TallyInv(b)
    requires r.world.counts == b.world.counts && r.world.causalSum == b.world.causalSum && r.world.n == b.world.n
    requires FirstEvaluated(r.delivered) == FirstEvaluated(b.delivered)
    requires FirstLearned(r.published) == FirstLearned(b.published)
    ensures TallyInv(r)
  {
  }

  lemma PublishTallies(b: FlowBus, e: Event)
    requires TallyInv(b) && (e.payload.Learned? ==> e in b.published)
    ensures TallyInv(Publish(b, e))
  {
    hide Tallied, AllTaught;
    FirstLearnedAppend(b.published, e);
    TallyStays(b, Publish(b, e));
  }

  lemma FireTallies(b: FlowBus, target: int)
    requires TallyInv(b)
    ensures TallyInv(FireWindow(b, target))
  {
    hide Tallied, AllTaught, Clock.HasDue, Clock.NextDue, Clock.Removed, Stampable;
    var r := FireWindow(b, target);
    if r.published != b.published {
      FirstLearnedAppend(b.published, r.published[|b.published|]);
    }
    TallyStays(b, r);
  }

  /** Deliveries to the other consumers leave the aggregator alone. */
  lemma OtherDelivery(source: nat -> Reading, b: FlowBus)
    requires FlowInv(b) && b.queue != [] && !b.queue[0].payload.Evaluated?
    requires IsFresh(b)
    ensures var r := DeliverNext(Handle(source), b);
      && r.world.counts == b.world.counts && r.world.causalSum == b.world.causalSum && r.world.n == b.world.n
      && FirstLearned(r.published) == FirstLearned(b.published)
  {
    hide BusInv, Deliver, Windows, Verdicts, Lessons, Aggregates, Rows, SeenDelivered, FirstLearned, EvaluateOutcome;
    hide OnExecuted;
    var e, c := b.queue[0], Taken(b);
    FreshDelivery(source, b);
    match e.payload
    case Executed(_, _, _) =>
      SchedulerDelivers(source, c, e, 0);
      ScheduledWorld(b.world, e);
    case Opened(_, _, _) =>
      var readNo, m := EvaluatorDelivers(source, c, e, 0);
      if m.Some? {
        FirstLearnedAppend(b.published, Verdict(b.world.(readNo := readNo), e, m.value));
      }
    case Learned(_) =>
      LearnedDelivery(source, b);
  }

  lemma EvaluatedTallies(source: nat -> Reading, b: FlowBus)
    requires FlowInv(b) && TallyInv(b) && b.queue != [] && b.queue[0].payload.Evaluated?
    requires IsFresh(b)
    ensures TallyInv(DeliverNext(Handle(source), b))
  {
    hide FlowInv, DeliverNext, TallyInv, Deliver, Lesson, Aggregated;
    FreshDelivery(source, b);
    EvaluatedDelivery(source, b);
    NewLesson(b, b.queue[0]);
    TallyGrows(b, DeliverNext(Handle(source), b), b.queue[0]);
  }

  /** One evaluation more is taken in and answered. */
  lemma TallyGrows(b: FlowBus, r: FlowBus, e: Event)
    requires TallyInv(b) && e.payload.Evaluated? && e !in b.delivered && Lesson(b.world, e) !in b.published
    requires r.delivered == b.delivered + [e] && r.published == b.published + [Lesson(b.world, e)]
    requires r.world == Aggregated(b.world, e.payload)
    ensures TallyInv(r)
  {
    hide Tallied, AllTaught, FirstEvaluated, FirstLearned, Taught;
    var w, es := b.world, FirstEvaluated(b.delivered);
    FirstEvaluatedAppend(b.delivered, e);
    TallyAppend(w.counts, w.causalSum, es, e);
    FirstLearnedAppend(b.published, Lesson(w, e));
    LessonTeaches(w, es, e);
    AllTaughtAppend(FirstLearned(b.published), es, Lesson(w, e), e);
  }

  lemma NewLesson(b: FlowBus, e: Event)
    requires FlowInv(b) && e.payload.Evaluated?
    ensures Lesson(b.world, e) !in b.published
  {
    hide BusInv, Windows, Verdicts, Lessons, Aggregates, Rows, SeenDelivered;
  }

  lemma LessonTeaches(w: World, es: seq<Event>, e: Event)
    requires e.payload.Evaluated? && w.n == |es|
    requires Tallied(Counted(w.counts, e.payload.evaluation.result),
                     w.causalSum + e.payload.evaluation.causalConfidence, es + [e])
    ensures Taught(Lesson(w, e), es + [e])
  {
    hide Tallied;
    var n, sum := w.n + 1, w.causalSum + e.payload.evaluation.causalConfidence;
    assert Times(sum / n as real, n as real) == sum;
  }

  lemma SkippedTallies(source: nat -> Reading, b: FlowBus)
    requires FlowInv(b) && TallyInv(b) && b.queue != []
    requires IsKnown(b)
    ensures TallyInv(DeliverNext(Handle(source), b))
  {
    hide FlowInv, DeliverNext, Tallied, AllTaught, FirstEvaluated, FirstLearned;
    SkippedDelivery(source, b);
    SkippedIsDelivered(b);
    FirstEvaluatedAppend(b.delivered, b.queue[0]);
    TallyStays(b, Taken(b));
  }

  lemma DeliveryTallies(source: nat -> Reading, b: FlowBus)
    requires FlowInv(b) && TallyInv(b) && b.queue != []
    ensures TallyInv(DeliverNext(Handle(source), b))
  {
    hide DeliverNext, TallyInv, BusInv, Windows, Verdicts, Lessons, Aggregates, Rows, SeenDelivered, Named;
    var e := b.queue[0];
    if IsKnown(b) {
      SkippedTallies(source, b);
    } else if e.payload.Evaluated? {
      EvaluatedTallies(source, b);
    } else {
      OtherDelivery(source, b);
      FreshDelivery(source, b);
      FirstEvaluatedAppend(b.delivered, e);
      TallyStays(b, DeliverNext(Handle(source), b));
    }
  }

  lemma NextTallies(source: nat -> Reading, b: FlowBus, step: FlowStep)
    requires FlowInv(b) && TallyInv(b)
    ensures TallyInv(FlowNext(source, b, step))
  {
    hide FlowInv, TallyInv, DeliverNext, FireWindow, FirstLearned, FirstEvaluated;
    match step
    case PublishStep(e) => if FromOutside(b, e) { PublishTallies(b, e); }
    case RedeliverStep(k) => if k < |b.published| { PublishTallies(b, b.published[k]); }
    case FireStep(target) => FireTallies(b, target);
    case DeliverStep => if b.queue != [] { DeliveryTallies(source, b); }
    case TimeStep(_) => TallyStays(b, FlowNext(source, b, step));
    case DecideStep(_, _, _, _, _) => TallyStays(b, FlowNext(source, b, step));
  }

  lemma {:induction false} RunTallies(source: nat -> Reading, b: FlowBus, steps: seq<FlowStep>)
    requires FlowInv(b) && TallyInv(b)
    ensures FlowInv(RunAll(source, b, steps)) && TallyInv(RunAll(source, b, steps))
    decreases steps
  {
    hide FlowInv, TallyInv, FlowNext;
    if steps != [] {
      NextKeeps(source, b, steps[0]);
      NextTallies(source, b, steps[0]);
      RunTallies(source, FlowNext(source, b, steps[0]), steps[1..]);
    }
  }

  /**
    In every reachable state the aggregator's four counts, its sum of confidences and its sample size are those of
    the distinct evaluations delivered; the k-th snapshot ever published has the counts, the sample size and the
    mean confidence of the first k of them; and the k-th suggestion holds that snapshot.
   */
  lemma SnapshotsTallyEvaluations(
    source: nat -> Reading, maxRetries: int, start: int, firstId: Id, steps: seq<FlowStep>)
    ensures var b := RunAll(source, Init(maxRetries, start, firstId), steps);
      var es := FirstEvaluated(b.delivered);
      && b.world.n == |es| && Tallied(b.world.counts, b.world.causalSum, es)
      && AllTaught(FirstLearned(b.published), es)
      && |b.world.rows| <= |es|
      && forall k :: 0 <= k < |b.world.rows| ==> TaughtBy(b.world.rows[k].snapshot, es[..k + 1])
  {
    hide RunAll, Tallied, FirstLearned, FirstEvaluated, Taught;
    hide BusInv, Windows, Verdicts, Lessons, Aggregates, SeenDelivered, Named;
    var b := RunAll(source, Init(maxRetries, start, firstId), steps);
    InitHolds(maxRetries, start, firstId);
    InitTallied(maxRetries, start, firstId);
    RunTallies(source, Init(maxRetries, start, firstId), steps);
    QueueFollows(b);
    FirstLearnedPrefix(b.delivered, b.queue);
    forall k | 0 <= k < |b.world.rows|
      ensures TaughtBy(b.world.rows[k].snapshot, FirstEvaluated(b.delivered)[..k + 1])
    {
      TaughtSnapshot(FirstLearned(b.published)[k], FirstEvaluated(b.delivered)[..k + 1]);
    }
  }

  /** The snapshot's sample size, counts and mean are those of the evaluations. */
  ghost predicate TaughtBy(s: Snapshot, es: seq<Event>) {
    s.sampleSize == |es| && Tallied(s.counts, Times(s.meanCausalConfidence, |es| as real), es)
  }

  lemma TaughtSnapshot(l: Event, es: seq<Event>)
    requires es != [] && Taught(l, es)
    ensures l.payload.Learned? && TaughtBy(l.payload.snapshot, es)
  {
  }

  lemma QueueFollows(b: FlowBus)
    requires BusInv(b)
    ensures b.published == b.delivered + b.queue
  {
  }

  lemma InitTallied(maxRetries: int, start: int, firstId: Id)
    ensures TallyInv(Init(maxRetries, start, firstId))
  {
  }
}
