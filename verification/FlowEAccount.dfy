/**
  What Flow E does with each event, and what its snapshots and events say: the tallies of every snapshot are those
  of the evaluations taken in, and every event the loop makes names its cause and carries its data.
 */
module FlowEAccount {
  import opened Wrappers
  import opened EventBus
  import opened Outcome
  import opened FlowE
  import opened FlowEInvariant
  import Clock
  import Duration
  import Store = LearningStore

  // ---- What one delivery does ----

  /** The next event has been settled by its consumer before. */
  predicate IsKnown(b: FlowBus) {
    b.queue != [] && |b.subs| == 4 && b.queue[0].eventId in b.subs[Consumer(b.queue[0].payload)].seen
  }

  predicate IsFresh(b: FlowBus) {
    b.queue != [] && |b.subs| == 4 && b.queue[0].eventId !in b.subs[Consumer(b.queue[0].payload)].seen
  }

  /** An event that its consumer has settled before is only moved to the delivered ones. */
  lemma SkippedDelivery(source: nat -> Reading, b: FlowBus)
    requires FlowInv(b) && IsKnown(b)
    ensures DeliverNext(Handle(source), b) == Taken(b)
  {
    hide BusInv, Deliver, DeliverFrom, Windows, Verdicts, Lessons, Aggregates, Rows, SeenDelivered;
    QueueIsPublished(b);
    KindIsKnown(b, b.queue[0]);
    ReachesConsumer(source, Taken(b), b.queue[0]);
  }

  /** Of the loop's own events only those delivered before are skipped. */
  lemma SkippedIsDelivered(b: FlowBus)
    requires FlowInv(b) && IsKnown(b)
    ensures SystemMade(b.queue[0]) ==> b.queue[0] in b.delivered
  {
    hide BusInv, Windows, Verdicts, Lessons, Aggregates, Rows, SeenDelivered, Named;
    QueueIsPublished(b);
    if SystemMade(b.queue[0]) { SeenIffDelivered(b, b.queue[0]); }
  }

  /** An event that its consumer has not settled goes to that consumer alone. */
  lemma FreshDelivery(source: nat -> Reading, b: FlowBus)
    requires FlowInv(b) && IsFresh(b)
    ensures var r := DeliverNext(Handle(source), b);
      && r == Deliver(Handle(source), Taken(b), Consumer(b.queue[0].payload), b.queue[0], 0)
      && r.delivered == b.delivered + [b.queue[0]]
  {
    hide BusInv, Deliver, DeliverFrom, Windows, Verdicts, Lessons, Aggregates, Rows, SeenDelivered;
    QueueIsPublished(b);
    KindIsKnown(b, b.queue[0]);
    Delivered(source, b, Consumer(b.queue[0].payload));
  }

  /** When an executed action asks for a window: when it counts from, and how far off it is. */
  predicate AsksFor(e: Event, action: Id, period: string, from: int, length: nat) {
    && e.payload.Executed? && e.payload.action == Some(action) && e.payload.observation == Some(period)
    && (e.payload.executedAt == At(from) || (e.payload.executedAt == Absent && e.occurredAt == from))
    && Duration.ParseIsoDuration(period) == Some(length)
  }

  /**
    An executed action with an id not scheduled before, a period and a point in time within the range of dates arms
    exactly one timer, at that time plus the period, that remembers where it comes from.
   */
  lemma ExecutedArms(source: nat -> Reading, b: FlowBus, action: Id, period: string, from: int, length: nat)
    requires FlowInv(b) && IsFresh(b) && b.queue[0].payload.Executed?
    requires AsksFor(b.queue[0], action, period, from, length) && action !in b.world.scheduled
    requires -8_640_000_000_000_000 <= from + length <= 8_640_000_000_000_000
    ensures var e, r := b.queue[0], DeliverNext(Handle(source), b);
      && r.world.scheduled == b.world.scheduled + {action} && r.published == b.published
      && r.world.clock.timers == b.world.clock.timers
           + [Clock.Timer(from + length, b.world.clock.seqNo + 1,
                          Window(action, period, from, e.clientId, e.correlationId, e.eventId))]
  {
    hide BusInv, Deliver, Windows, Verdicts, Lessons, Aggregates, Rows, SeenDelivered, Duration.ParseIsoDuration;
    FreshDelivery(source, b);
    SchedulerDelivers(source, Taken(b), b.queue[0], 0);
  }

  /** Any other executed action arms nothing. */
  lemma OtherwiseNothingArmed(source: nat -> Reading, b: FlowBus)
    requires FlowInv(b) && IsFresh(b) && b.queue[0].payload.Executed?
    requires forall action, period, from, length: nat | AsksFor(b.queue[0], action, period, from, length) ::
               action in b.world.scheduled || !(-8_640_000_000_000_000 <= from + length <= 8_640_000_000_000_000)
    ensures DeliverNext(Handle(source), b).world == b.world && DeliverNext(Handle(source), b).published == b.published
  {
    hide BusInv, Deliver, Windows, Verdicts, Lessons, Aggregates, Rows, SeenDelivered, Duration.ParseIsoDuration;
    FreshDelivery(source, b);
    SchedulerDelivers(source, Taken(b), b.queue[0], 0);
    var e := b.queue[0];
    var p := e.payload;
    assert OnExecuted(b.world, e).world != b.world ==>
        && p.action.Some? && p.observation.Some? && ExecutedMs(e).Some?
        && Duration.ParseIsoDuration(p.observation.value).Some?
        && AsksFor(e, p.action.value, p.observation.value, ExecutedMs(e).value,
                   Duration.ParseIsoDuration(p.observation.value).value);
  }

  /**
    An executed action whose period cannot be read, or whose window no date can hold, fails each of its runs and ends as
    a dead letter that says so.
   */
  lemma BadWindowIsParked(
    source: nat -> Reading, b: FlowBus, action: Id, period: string, from: int, error: string)
    requires FlowInv(b) && IsFresh(b) && b.queue[0].payload.Executed?
    requires b.queue[0].payload.action == Some(action) && b.queue[0].payload.observation == Some(period)
    requires action !in b.world.scheduled
    requires b.queue[0].payload.executedAt == At(from)
             || (b.queue[0].payload.executedAt == Absent && b.queue[0].occurredAt == from)
    requires match Duration.ParseIsoDuration(period)
             case None => error == "invalid or unsupported ISO-8601 duration: " + period
             case Some(length) =>
               && !(-8_640_000_000_000_000 <= from + length <= 8_640_000_000_000_000)
               && error == "Invalid time value"
    ensures var e, r := b.queue[0], DeliverNext(Handle(source), b);
      && r.world == b.world && r.published == b.published
      && r.deadLetters == b.deadLetters
           + [DeadLetter(b.subs[0].name, e, error, 1 + if b.maxRetries > 0 then b.maxRetries else 0)]
  {
    hide BusInv, Deliver, Windows, Verdicts, Lessons, Aggregates, Rows, SeenDelivered, Duration.ParseIsoDuration;
    FreshDelivery(source, b);
    var e, c := b.queue[0], Taken(b);
    SchedulerDelivers(source, c, e, 0);
    var n := DeliveryEnds(Handle(source), c, 0, e, 0);
    FailingTries(source, c.world, e, error, n);
  }

  lemma {:induction false} FailingTries(source: nat -> Reading, w: World, e: Event, error: string, n: nat)
    requires e.payload.Executed? && OnExecuted(w, e) == Attempt(w, [], Some(error))
    ensures Tries(Handle(source), w, Scheduler, e, n) == w
    ensures TryAt(Handle(source), w, Scheduler, e, n) == Attempt(w, [], Some(error))
  {
    hide OnExecuted;
    if n > 0 { FailingTries(source, w, e, error, n - 1); }
  }

  /** The `n` readings from the given one on all fail. */
  ghost predicate AllFailed(source: nat -> Reading, first: nat, n: nat) {
    forall k: nat :: first <= k < first + n ==> source(k).Failed?
  }

  /** After `n` failed readings the evaluator has read `n` times and done nothing else. */
  lemma {:induction false} FailedReadings(source: nat -> Reading, w: World, e: Event, n: nat)
    requires e.payload.Opened? && e.payload.action.Some? && e.payload.action.value !in w.evaluated
    requires AllFailed(source, w.readNo, n)
    ensures Tries(Handle(source), w, Evaluator, e, n) == w.(readNo := w.readNo + n)
    ensures PublishedBy(Handle(source), w, Evaluator, e, n) == []
  {
    if n > 0 { FailedReadings(source, w, e, n - 1); }
  }

  /**
    An opening of an action not evaluated before is judged by the first reading that does not fail, if it comes
    within the runs allowed: a measurement is published as the verdict on exactly those metrics, in answer to this
    opening; no measurement publishes nothing.
   */
  lemma OpenedIsJudged(source: nat -> Reading, b: FlowBus, n: nat)
    requires FlowInv(b) && IsFresh(b) && b.queue[0].payload.Opened?
    requires b.queue[0].payload.action.Some? && b.queue[0].payload.action.value !in b.world.evaluated
    requires n <= (if b.maxRetries > 0 then b.maxRetries else 0)
    requires AllFailed(source, b.world.readNo, n)
    requires !source(b.world.readNo + n).Failed?
    ensures JudgedBy(source(b.world.readNo + n), Taken(b), DeliverNext(Handle(source), b), b.queue[0])
  {
    hide FlowInv, DeliverNext, Deliver, EndsAt, JudgedBy;
    FreshDelivery(source, b);
    HasFourSubs(b);
    var m := DeliveryEnds(Handle(source), Taken(b), 1, b.queue[0], 0);
    SameCount(source, Taken(b), b.queue[0], m, n);
    FirstReadingDecides(source, Taken(b), DeliverNext(Handle(source), b), b.queue[0], n);
  }

  lemma HasFourSubs(b: FlowBus)
    requires FlowInv(b)
    ensures FourSubs(b.subs)
  {
  }

  /** What the evaluator makes of the opening `e` and a reading, from the state in which it finds the bus. */
  predicate JudgedBy(reading: Reading, c: FlowBus, r: FlowBus, e: Event)
    requires e.payload.Opened? && e.payload.action.Some?
  {
    match reading
    case Measured(m) =>
      && r.world.evaluated == c.world.evaluated + {e.payload.action.value}
      && r.queue == c.queue
           + [Envelope(c.world.nextId + 1, "outcome.evaluated", c.world.clock.ms, e.clientId, e.correlationId,
                       Some(e.eventId), "outcome-evaluator",
                       Evaluated(c.world.nextId, e.payload.action.value, EvaluateOutcome(m)))]
    case _ => r.world.evaluated == c.world.evaluated && r.queue == c.queue
  }

  lemma FirstReadingDecides(source: nat -> Reading, c: FlowBus, r: FlowBus, e: Event, n: nat)
    requires FourSubs(c.subs) && e.payload.Opened? && e.payload.action.Some?
    requires e.payload.action.value !in c.world.evaluated
    requires EndsAt(Handle(source), c, r, 1, e, n, 0)
    requires AllFailed(source, c.world.readNo, n) && !source(c.world.readNo + n).Failed?
    ensures JudgedBy(source(c.world.readNo + n), c, r, e)
  {
    hide EvaluateOutcome;
    FailedReadings(source, c.world, e, n);
  }

  lemma SameCount(source: nat -> Reading, c: FlowBus, e: Event, m: nat, n: nat)
    requires FourSubs(c.subs) && e.payload.Opened? && e.payload.action.Some?
    requires e.payload.action.value !in c.world.evaluated
    requires EndsAt(Handle(source), c, Deliver(Handle(source), c, 1, e, 0), 1, e, m, 0)
    requires n <= (if c.maxRetries > 0 then c.maxRetries else 0)
    requires AllFailed(source, c.world.readNo, n)
    requires !source(c.world.readNo + n).Failed?
    ensures m == n
  {
    hide Deliver;
    assert m < n ==> source(c.world.readNo + m).Failed?;
    assert n < m ==> TryAt(Handle(source), c.world, Evaluator, e, n).error.Some?;
    FailedReadings(source, c.world, e, if m < n then m else n);
  }

  /** An evaluation not delivered before is taken in and answered at once with the new snapshot. */
  lemma EvaluatedDelivery(source: nat -> Reading, b: FlowBus)
    requires FlowInv(b) && IsFresh(b) && b.queue[0].payload.Evaluated?
    ensures var e, r := b.queue[0], DeliverNext(Handle(source), b);
      && e !in b.delivered && e.payload.evalId !in b.world.seen
      && r.world == Aggregated(b.world, e.payload) && r.published == b.published + [Lesson(b.world, e)]
      && Lesson(b.world, e).eventId == b.world.nextId && Lesson(b.world, e).occurredAt == b.world.clock.ms
      && r.world.nextId == b.world.nextId + 1 && r.world.seen == b.world.seen + {e.payload.evalId}
  {
    hide BusInv, Deliver, Windows, Verdicts, Lessons, Aggregates, Rows, SeenDelivered;
    FreshDelivery(source, b);
    QueueIsPublished(b);
    SeenIffDelivered(b, b.queue[0]);
    NotYetSeen(b, b.queue[0]);
    AggregatorDelivers(source, Taken(b), b.queue[0]);
  }

  /** A snapshot not delivered before goes to the store; its source is not recorded there yet. */
  lemma LearnedDelivery(source: nat -> Reading, b: FlowBus)
    requires FlowInv(b) && IsFresh(b) && b.queue[0].payload.Learned?
    ensures var e, r := b.queue[0], DeliverNext(Handle(source), b);
      && e !in b.delivered && r.published == b.published && r.world == OnLearned(b.world, e).world
      && r.world.nextId == b.world.nextId + 1
      && !Store.RecordedSource(b.world.rows, e.clientId, Some(e.eventId))
  {
    hide BusInv, Deliver, Windows, Verdicts, Lessons, Aggregates, Rows, SeenDelivered;
    FreshDelivery(source, b);
    QueueIsPublished(b);
    SeenIffDelivered(b, b.queue[0]);
    SourceNotRecorded(b, b.queue[0]);
    SinkDelivers(source, Taken(b), b.queue[0]);
  }

  /** A snapshot becomes the client's pending suggestion: its content, from this event, of kind "calibration". */
  lemma LearnedSuggests(source: nat -> Reading, b: FlowBus)
    requires FlowInv(b) && IsFresh(b) && b.queue[0].payload.Learned?
    ensures var e, rows, r := b.queue[0], b.world.rows, DeliverNext(Handle(source), b).world.rows;
      && |r| == |rows| + 1 && r[|rows|].id == b.world.nextId
      && r[|rows|].clientId == e.clientId && r[|rows|].snapshot == e.payload.snapshot
      && r[|rows|].sourceEventId == Some(e.eventId) && r[|rows|].kind == "calibration"
      && r[|rows|].status == Store.Pending && r[|rows|].createdAt == b.world.clock.ms
      && (forall k :: 0 <= k < |rows| && rows[k].clientId == e.clientId ==> r[k].status != Store.Pending)
  {
    LearnedDelivery(source, b);
    Store.UpsertRecords(b.world.rows, UpsertOf(b.queue[0]), b.world.nextId, b.world.clock.ms);
    hide FlowInv, DeliverNext, Store.UpsertPending;
  }

  /**
    The earliest due timer, the first scheduled among equals, fires at its own time: it opens its window in answer to
    the executed action that armed it, or, where that time cannot be written in an event, loses it.
   */
  lemma FiredWindow(b: FlowBus, target: int, t: Clock.Timer<Window>)
    requires FlowInv(b) && t in b.world.clock.timers && t.fireAt <= target
    requires forall u :: u in b.world.clock.timers && u != t ==>
               t.fireAt < u.fireAt || (t.fireAt == u.fireAt && t.order < u.order)
    ensures var w, r := b.world, FireWindow(b, target);
      && r.world.clock.ms == t.fireAt && t !in r.world.clock.timers
      && (forall u :: u in w.clock.timers && u != t ==> u in r.world.clock.timers)
      && if Stampable(t.fireAt) then
           r.world.lost == w.lost && r.published == b.published + [
             Envelope(w.nextId, "outcome.window.opened", t.fireAt, t.code.clientId, t.code.correlationId,
                      Some(t.code.causationId), "outcome-window-scheduler",
                      Opened(Some(t.code.action), t.code.period, t.fireAt))]
         else
           r.world.lost == w.lost + {t.code.action} && r.published == b.published
  {
    hide BusInv, Verdicts, Lessons, Aggregates, Rows, SeenDelivered, Named;
    hide Clock.Removed, Clock.NextDue, Clock.HasDue, Clock.Valid, PendingIds, OpenedIds, Partition, Armed, Stamped;
    FiresFirst(b.world.clock, target, t);
    RemovedIsValid(b.world.clock, t);
    forall u | u in b.world.clock.timers && u != t ensures u in Clock.Removed(b.world.clock.timers, t.order) {
      OthersRemain(b.world.clock, t, u);
    }
  }

  /** How many days of the Gregorian calendar lie before the given year, from the year 0 on. */
  function DaysBefore(year: nat): nat { 365 * year + (year + 3) / 4 - (year + 99) / 100 + (year + 399) / 400 }

  lemma EveryFourth(n: nat)
    ensures (n + 4) / 4 - (n + 3) / 4 == if n % 4 == 0 then 1 else 0
  {
  }

  lemma EveryHundredth(n: nat)
    ensures (n + 100) / 100 - (n + 99) / 100 == if n % 100 == 0 then 1 else 0
  {
    var q, r := n / 100, n % 100;
    assert n + 100 == 100 * (q + 1) + r && (n + 100) / 100 == q + 1;
  }

  lemma EveryFourHundredth(n: nat)
    ensures (n + 400) / 400 - (n + 399) / 400 == if n % 400 == 0 then 1 else 0
  {
    var q, r := n / 400, n % 400;
    assert n + 400 == 400 * (q + 1) + r && (n + 400) / 400 == q + 1;
  }

  lemma RoundYears(n: nat)
    ensures n % 100 == 0 ==> n % 4 == 0
    ensures n % 400 == 0 ==> n % 100 == 0
  {
    var q, r := n / 100, n / 400;
    assert n % 100 == 0 ==> n == 4 * (25 * q);
    assert n % 400 == 0 ==> n == 100 * (4 * r);
  }

  /** A leap year has a day more: every fourth, but of the hundredth only every four hundredth. */
  lemma LeapYears(year: nat)
    ensures DaysBefore(year + 1) - DaysBefore(year)
         == if year % 4 == 0 && (year % 100 != 0 || year % 400 == 0) then 366 else 365
  {
    EveryFourth(year);
    EveryHundredth(year);
    EveryFourHundredth(year);
    RoundYears(year);
  }

  /** What can be stamped is exactly what lies in the years 0000 to 9999, counted from the beginning of 1970. */
  lemma StampableYears(ms: int)
    ensures var day := 24 * 60 * 60 * 1000;
      Stampable(ms)
      <==> day * (DaysBefore(0) - DaysBefore(1970)) <= ms < day * (DaysBefore(10000) - DaysBefore(1970))
  {
  }

  lemma FiresFirst(c: Clock.State<Window>, target: int, t: Clock.Timer<Window>)
    requires t in c.timers && t.fireAt <= target
    requires forall u :: u in c.timers && u != t ==>
               t.fireAt < u.fireAt || (t.fireAt == u.fireAt && t.order < u.order)
    ensures Clock.HasDue(c, target) && Clock.NextDue(c, target) == t
  {
    var k :| 0 <= k < |c.timers| && c.timers[k] == t;
    assert t in Clock.Due(c.timers, target);
    Clock.NextDueIsLeast(c, target);
  }
}
