/**
  Where the events of Flow E come from: in every reachable state each opening answers the executed action that asked
  for it, each verdict answers an opening and judges one reading of the metrics, and each snapshot answers a verdict,
  always for the same client and under the same correlation id.
 */
module FlowETracing {
  import opened Wrappers
  import opened EventBus
  import opened Outcome
  import opened FlowE
  import opened FlowEInvariant
  import opened FlowEAccount
  import Clock
  import Duration

  predicate Answers(e: Event, c: Event) {
    e.clientId == c.clientId && e.correlationId == c.correlationId && e.causationId == Some(c.eventId)
  }

  /** The executed action asks for a window of this action and period that opens at the given time. */
  predicate AsksAt(c: Event, action: Id, period: string, from: int, at: int) {
    && at >= from && Duration.ParseIsoDuration(period).Some?
    && AsksFor(c, action, period, from, at - from)
  }

  predicate Arms(c: Event, t: Clock.Timer<Window>) {
    && c.eventId == t.code.causationId && c.clientId == t.code.clientId && c.correlationId == t.code.correlationId
    && AsksAt(c, t.code.action, t.code.period, t.code.executedAt, t.fireAt)
  }

  predicate Opens(c: Event, e: Event, from: int) {
    && Answers(e, c) && e.payload.Opened? && e.payload.action.Some?
    && AsksAt(c, e.payload.action.value, e.payload.period, from, e.occurredAt) && e.payload.openedAt == e.occurredAt
  }

  predicate Judges(source: nat -> Reading, c: Event, e: Event, k: nat) {
    && Answers(e, c) && c.payload.Opened? && e.payload.Evaluated? && c.payload.action == Some(e.payload.actionId)
    && source(k).Measured? && e.payload.evaluation == EvaluateOutcome(source(k).metrics)
  }

  /** The event names a published cause; openings published from outside need none. */
  ghost predicate Traced(source: nat -> Reading, ps: seq<Event>, e: Event) {
    && (IsOpening(e) ==> exists c, from :: c in ps && Opens(c, e, from))
    && (e.payload.Evaluated? ==> exists c, k :: c in ps && Judges(source, c, e, k))
    && (e.payload.Learned? ==> exists c :: c in ps && Answers(e, c) && c.payload.Evaluated?)
  }

  ghost predicate TraceInv(source: nat -> Reading, b: FlowBus) {
    && (forall e :: e in b.published ==> Traced(source, b.published, e))
    && (forall t :: t in b.world.clock.timers ==> exists c :: c in b.published && Arms(c, t))
  }

  // ---- One more event ----

  lemma StillTraced(source: nat -> Reading, ps: seq<Event>, more: seq<Event>, e: Event)
    requires Traced(source, ps, e)
    ensures Traced(source, ps + more, e)
  {
    hide Opens, Judges, Answers;
    assert forall c :: c in ps ==> c in ps + more;
    if IsOpening(e) {
      var c, from :| c in ps && Opens(c, e, from);
      assert c in ps + more;
    }
    if e.payload.Evaluated? {
      var c, k :| c in ps && Judges(source, c, e, k);
      assert c in ps + more;
    }
  }

  /** A traced event is published, and no timer is added. */
  lemma TraceGrows(source: nat -> Reading, b: FlowBus, r: FlowBus, e: Event)
    requires TraceInv(source, b) && Traced(source, b.published, e) && r.published == b.published + [e]
    requires forall t :: t in r.world.clock.timers ==> t in b.world.clock.timers
    ensures TraceInv(source, r)
  {
    hide Traced, Arms;
    forall f | f in r.published ensures Traced(source, r.published, f) {
      StillTraced(source, b.published, [e], f);
    }
    forall t | t in r.world.clock.timers ensures exists c :: c in r.published && Arms(c, t) {
      var c :| c in b.published && Arms(c, t);
      assert c in r.published;
    }
  }

  lemma TraceStays(source: nat -> Reading, b: FlowBus, r: FlowBus)
    requires TraceInv(source, b) && r.published == b.published
    requires forall t :: t in r.world.clock.timers ==> t in b.world.clock.timers
    ensures TraceInv(source, r)
  {
    hide Traced, Arms;
  }

  // ---- Every step ----

  lemma PublishTraced(source: nat -> Reading, b: FlowBus, e: Event)
    requires FlowInv(b) && TraceInv(source, b) && (e in b.published || FromOutside(b, e))
    ensures TraceInv(source, Publish(b, e))
  {
    hide FlowInv, Opens, Judges, Arms, Answers;
    TraceGrows(source, b, Publish(b, e), e);
  }

  lemma FireTraced(source: nat -> Reading, b: FlowBus, target: int)
    requires FlowInv(b) && TraceInv(source, b)
    ensures TraceInv(source, FireWindow(b, target))
  {
    hide BusInv, Verdicts, Lessons, Aggregates, Rows, SeenDelivered, Named, Traced, Arms;
    hide Clock.HasDue, Clock.NextDue, Clock.Removed, Stampable, Clock.Valid, Armed, Stamped, PendingIds, OpenedIds;
    var w, r := b.world, FireWindow(b, target);
    if Clock.HasDue(w.clock, target) {
      Clock.NextDueIsLeast(w.clock, target);
      var t := Clock.NextDue(w.clock, target);
      RemovedIsValid(w.clock, t);
      if Stampable(t.fireAt) {
        var c :| c in b.published && Arms(c, t);
        ArmedOpens(source, w, b.published, c, t);
        TraceGrows(source, b, r, Opening(w, t.code, t.fireAt));
      } else {
        TraceStays(source, b, r);
      }
    }
  }

  lemma ArmedOpens(source: nat -> Reading, w: World, ps: seq<Event>, c: Event, t: Clock.Timer<Window>)
    requires c in ps && Arms(c, t)
    ensures Traced(source, ps, Opening(w, t.code, t.fireAt))
  {
    hide AsksAt;
    assert Opens(c, Opening(w, t.code, t.fireAt), t.code.executedAt);
  }

  lemma ExecutedTraced(source: nat -> Reading, b: FlowBus)
    requires FlowInv(b) && TraceInv(source, b) && b.queue != [] && b.queue[0].payload.Executed?
    requires IsFresh(b)
    ensures TraceInv(source, DeliverNext(Handle(source), b))
  {
    hide FlowInv, DeliverNext, Traced, Arms, Duration.ParseIsoDuration;
    var e, w, r := b.queue[0], b.world, DeliverNext(Handle(source), b);
    if action, period, from, length: nat :|
      && AsksFor(e, action, period, from, length) && action !in w.scheduled
      && -8_640_000_000_000_000 <= from + length <= 8_640_000_000_000_000
    {
      ExecutedArms(source, b, action, period, from, length);
      var t := r.world.clock.timers[|w.clock.timers|];
      QueueHead(b);
      TimerArms(e, t, action, period, from, length);
      forall u | u in r.world.clock.timers ensures exists c :: c in r.published && Arms(c, u) {
        assert u in w.clock.timers || u == t;
        assert Arms(e, t);
      }
    } else {
      OtherwiseNothingArmed(source, b);
      TraceStays(source, b, r);
    }
  }

  lemma QueueHead(b: FlowBus)
    requires FlowInv(b) && b.queue != []
    ensures b.queue[0] in b.published
  {
    QueueIsPublished(b);
  }

  lemma TimerArms(e: Event, t: Clock.Timer<Window>, action: Id, period: string, from: int, length: nat)
    requires AsksFor(e, action, period, from, length) && t.fireAt == from + length
    requires t.code == Window(action, period, from, e.clientId, e.correlationId, e.eventId)
    ensures Arms(e, t)
  {
    hide Duration.ParseIsoDuration;
  }

  lemma OpenedTraced(source: nat -> Reading, b: FlowBus)
    requires FlowInv(b) && TraceInv(source, b) && b.queue != [] && b.queue[0].payload.Opened?
    requires IsFresh(b)
    ensures TraceInv(source, DeliverNext(Handle(source), b))
  {
    hide BusInv, Deliver, Windows, Verdicts, Lessons, Aggregates, Rows, SeenDelivered, EvaluateOutcome;
    hide Traced, Arms, DeliverNext;
    var e, r := b.queue[0], DeliverNext(Handle(source), b);
    FreshDelivery(source, b);
    QueueHead(b);
    var readNo, m := EvaluatorDelivers(source, Taken(b), e, 0);
    if m.Some? {
      var w := b.world.(readNo := readNo);
      VerdictTraced(source, w, b.published, e, m.value, readNo - 1);
      TraceGrows(source, b, r, Verdict(w, e, m.value));
    } else {
      TraceStays(source, b, r);
    }
  }

  lemma VerdictTraced(source: nat -> Reading, w: World, ps: seq<Event>, e: Event, m: Metrics, k: nat)
    requires e in ps && e.payload.Opened? && e.payload.action.Some? && source(k) == Measured(m)
    ensures Traced(source, ps, Verdict(w, e, m))
  {
    hide EvaluateOutcome;
    assert Judges(source, e, Verdict(w, e, m), k);
  }

  lemma EvaluatedTraced(source: nat -> Reading, b: FlowBus)
    requires FlowInv(b) && TraceInv(source, b) && b.queue != [] && b.queue[0].payload.Evaluated?
    requires IsFresh(b)
    ensures TraceInv(source, DeliverNext(Handle(source), b))
  {
    hide FlowInv, DeliverNext, Arms;
    var e := b.queue[0];
    EvaluatedDelivery(source, b);
    QueueHead(b);
    assert Answers(Lesson(b.world, e), e);
    TraceGrows(source, b, DeliverNext(Handle(source), b), Lesson(b.world, e));
  }

  lemma DeliveryTraced(source: nat -> Reading, b: FlowBus)
    requires FlowInv(b) && TraceInv(source, b) && b.queue != []
    ensures TraceInv(source, DeliverNext(Handle(source), b))
  {
    hide DeliverNext, TraceInv, BusInv, Windows, Verdicts, Lessons, Aggregates, Rows, SeenDelivered, Named;
    var e := b.queue[0];
    if IsKnown(b) {
      SkippedDelivery(source, b);
      TraceStays(source, b, Taken(b));
    } else {
      match e.payload
      case Executed(_, _, _) => ExecutedTraced(source, b);
      case Opened(_, _, _) => OpenedTraced(source, b);
      case Evaluated(_, _, _) => EvaluatedTraced(source, b);
      case Learned(_) =>
        LearnedDelivery(source, b);
        TraceStays(source, b, DeliverNext(Handle(source), b));
    }
  }

  lemma NextTraced(source: nat -> Reading, b: FlowBus, step: FlowStep)
    requires FlowInv(b) && TraceInv(source, b)
    ensures TraceInv(source, FlowNext(source, b, step))
  {
    hide FlowInv, TraceInv, DeliverNext, FireWindow;
    match step
    case PublishStep(e) => if FromOutside(b, e) { PublishTraced(source, b, e); }
    case RedeliverStep(k) => if k < |b.published| { PublishTraced(source, b, b.published[k]); }
    case FireStep(target) => FireTraced(source, b, target);
    case DeliverStep => if b.queue != [] { DeliveryTraced(source, b); }
    case TimeStep(_) => TraceStays(source, b, FlowNext(source, b, step));
    case DecideStep(_, _, _, _, _) => TraceStays(source, b, FlowNext(source, b, step));
  }

  lemma {:induction false} RunTraced(source: nat -> Reading, b: FlowBus, steps: seq<FlowStep>)
    requires FlowInv(b) && TraceInv(source, b)
    ensures FlowInv(RunAll(source, b, steps)) && TraceInv(source, RunAll(source, b, steps))
    decreases steps
  {
    hide FlowInv, TraceInv, FlowNext;
    if steps != [] {
      NextKeeps(source, b, steps[0]);
      NextTraced(source, b, steps[0]);
      RunTraced(source, FlowNext(source, b, steps[0]), steps[1..]);
    }
  }

  /**
    In every reachable state each opening answers a published executed action, for the same client and correlation,
    at the time that action asks for; each verdict answers a published opening of its action and is the evaluation of
    one of the readings; each snapshot answers a published verdict.
   */
  lemma EveryEventIsTraced(source: nat -> Reading, maxRetries: int, start: int, firstId: Id, steps: seq<FlowStep>)
    ensures var b := RunAll(source, Init(maxRetries, start, firstId), steps);
      forall e :: e in b.published ==> Traced(source, b.published, e)
  {
    hide RunAll, FlowInv, Traced, Arms;
    InitHolds(maxRetries, start, firstId);
    RunTraced(source, Init(maxRetries, start, firstId), steps);
  }
}
