/**
  Flow E, the learning loop: `action.executed` arms a timer, the timer opens an outcome window, the window
  is evaluated, evaluations are aggregated into snapshots, and snapshots become pending suggestions
  (services/ingestion-scheduler/src/outcome-window.ts, services/action-executor/src/outcome-consumer.ts,
  services/knowledge-service/src/sink.ts), all over one bus and one clock.
 */
module FlowE {
  import opened Wrappers
  import opened EventBus
  import opened Outcome
  import Clock
  import Duration
  import Store = LearningStore

  /** `executed_at` in a payload: missing, a string that is no date, or a point in time. */
  datatype Stamp = Absent | Unparseable | At(ms: int)

  datatype Counts = Counts(improved: nat, neutral: nat, regressed: nat, inconclusive: nat)

  datatype Snapshot = Snapshot(sampleSize: nat, counts: Counts, meanCausalConfidence: real)

  datatype Payload =
    | Executed(action: Option<Id>, observation: Option<string>, executedAt: Stamp)
    | Opened(action: Option<Id>, period: string, openedAt: int)
    | Evaluated(evalId: Id, actionId: Id, evaluation: Evaluation)
    | Learned(snapshot: Snapshot)

  type Event = Envelope<Payload>

  /** What a timer's callback remembers of the event that armed it. */
  datatype Window = Window(
    action: Id, period: string, executedAt: int, clientId: Id, correlationId: Id, causationId: Id)

  /** What the metrics source answers: an error, nothing yet, or the before/after reading. */
  datatype Reading = Failed(error: string) | Unavailable | Measured(metrics: Metrics)

  datatype Handler = Scheduler | Evaluator | Aggregator | Sink

  /**
    The state of the four consumers and the clock.  New ids are drawn from `nextId`, so they differ from each
    other and from the ids below `firstId` that the outside uses.  `lost` is history: windows whose timer
    fired at a time that an event cannot be stamped with.
   */
  datatype World = World(
    clock: Clock.State<Window>, scheduled: set<Id>, lost: set<Id>, evaluated: set<Id>,
    seen: set<Id>, counts: Counts, causalSum: real, n: nat,
    rows: seq<Store.Suggestion<Snapshot>>, firstId: Id, nextId: Id, readNo: nat)

  type FlowBus = Bus<World, Handler, Payload>

  const SCHEDULER := "outcome-window-scheduler"
  const EVALUATOR := "outcome-evaluator"
  const AGGREGATOR := "learning-aggregator"
  const SINK := "learning-suggestion-sink"

  const MAX_DATE_MS: int := 8_640_000_000_000_000

  /** The times an event can be stamped with: the years 0000 to 9999. */
  predicate Stampable(ms: int) { -62_167_219_200_000 <= ms <= 253_402_300_799_999 }

  function KindOf(p: Payload): string {
    match p
    case Executed(_, _, _) => "action.executed"
    case Opened(_, _, _) => "outcome.window.opened"
    case Evaluated(_, _, _) => "outcome.evaluated"
    case Learned(_) => "learning.updated"
  }

  // ---- The handlers ----

  function ExecutedMs(e: Event): Option<int>
    requires e.payload.Executed?
  {
    match e.payload.executedAt
    case Absent => Some(e.occurredAt)
    case Unparseable => None
    case At(ms) => Some(ms)
  }

  function Returned(w: World): Attempt<World, Payload> { Attempt(w, [], None) }

  function OnExecuted(w: World, e: Event): Attempt<World, Payload>
    requires e.payload.Executed?
  {
    var p := e.payload;
    if p.action.None? || p.observation.None? then Returned(w)
    else if p.action.value in w.scheduled then Returned(w)
    else if ExecutedMs(e).None? then Returned(w)
    else
      var length := Duration.ParseIsoDuration(p.observation.value);
      if length.None? then Attempt(w, [], Some("invalid or unsupported ISO-8601 duration: " + p.observation.value))
      else
        var fireAt := ExecutedMs(e).value + length.value;
        if fireAt > MAX_DATE_MS || fireAt < -MAX_DATE_MS then Attempt(w, [], Some("Invalid time value"))
        else
          var code := Window(
            p.action.value, p.observation.value, ExecutedMs(e).value, e.clientId, e.correlationId, e.eventId);
          Returned(w.(scheduled := w.scheduled + {p.action.value}, clock := Clock.ScheduleAt(w.clock, fireAt, code)))
  }

  function OnOpened(source: nat -> Reading, w: World, e: Event): Attempt<World, Payload>
    requires e.payload.Opened?
  {
    if e.payload.action.None? || e.payload.action.value in w.evaluated then Returned(w)
    else
      var reading := source(w.readNo);
      var w := w.(readNo := w.readNo + 1);
      match reading
      case Failed(error) => Attempt(w, [], Some(error))
      case Unavailable => Returned(w)
      case Measured(m) => Attempt(
        w.(evaluated := w.evaluated + {e.payload.action.value}, nextId := w.nextId + 2), [Verdict(w, e, m)], None)
  }

  function Verdict(w: World, e: Event, m: Metrics): Event
    requires e.payload.Opened? && e.payload.action.Some?
  {
    Envelope(w.nextId + 1, "outcome.evaluated", w.clock.ms, e.clientId, e.correlationId, Some(e.eventId), EVALUATOR,
             Evaluated(w.nextId, e.payload.action.value, EvaluateOutcome(m)))
  }

  function Counted(c: Counts, r: ActionResult): Counts {
    match r
    case Improved => c.(improved := c.improved + 1)
    case Neutral => c.(neutral := c.neutral + 1)
    case Regressed => c.(regressed := c.regressed + 1)
    case Inconclusive => c.(inconclusive := c.inconclusive + 1)
  }

  function Total(c: Counts): nat { c.improved + c.neutral + c.regressed + c.inconclusive }

  function SnapshotOf(w: World): Snapshot {
    Snapshot(w.n, w.counts, if w.n > 0 then w.causalSum / w.n as real else 0.0)
  }

  /** The aggregator after taking in one evaluation. */
  function Aggregated(w: World, p: Payload): World
    requires p.Evaluated?
  {
    w.(seen := w.seen + {p.evalId}, counts := Counted(w.counts, p.evaluation.result),
       causalSum := w.causalSum + p.evaluation.causalConfidence, n := w.n + 1, nextId := w.nextId + 1)
  }

  function Lesson(w: World, e: Event): Event
    requires e.payload.Evaluated?
  {
    Envelope(w.nextId, "learning.updated", w.clock.ms, e.clientId, e.correlationId, Some(e.eventId), AGGREGATOR,
             Learned(SnapshotOf(Aggregated(w, e.payload))))
  }

  function OnEvaluated(w: World, e: Event): Attempt<World, Payload>
    requires e.payload.Evaluated?
  {
    if e.payload.evalId in w.seen then Returned(w)
    else Attempt(Aggregated(w, e.payload), [Lesson(w, e)], None)
  }

  function UpsertOf(e: Event): Store.Upsert<Snapshot>
    requires e.payload.Learned?
  {
    Store.Upsert(e.clientId, e.payload.snapshot, Some(e.eventId), "calibration")
  }

  function OnLearned(w: World, e: Event): Attempt<World, Payload>
    requires e.payload.Learned?
  {
    if Store.RecordedSource(w.rows, e.clientId, Some(e.eventId)) then Returned(w)
    else Returned(w.(rows := Store.UpsertPending(w.rows, UpsertOf(e), w.nextId, w.clock.ms), nextId := w.nextId + 1))
  }

  function React(source: nat -> Reading, w: World, h: Handler, e: Event): Attempt<World, Payload> {
    match h
    case Scheduler => if e.payload.Executed? then OnExecuted(w, e) else Returned(w)
    case Evaluator => if e.payload.Opened? then OnOpened(source, w, e) else Returned(w)
    case Aggregator => if e.payload.Evaluated? then OnEvaluated(w, e) else Returned(w)
    case Sink => if e.payload.Learned? then OnLearned(w, e) else Returned(w)
  }

  function Handle(source: nat -> Reading): Handling<World, Handler, Payload> {
    (w: World, h: Handler, e: Event) => React(source, w, h, e)
  }

  // ---- The system and its steps ----

  function Init(maxRetries: int, start: int, firstId: Id): FlowBus {
    Bus(maxRetries,
        [Sub(SCHEDULER, "action.executed", Scheduler, {}, 0),
         Sub(EVALUATOR, "outcome.window.opened", Evaluator, {}, 0),
         Sub(AGGREGATOR, "outcome.evaluated", Aggregator, {}, 0),
         Sub(SINK, "learning.updated", Sink, {}, 0)],
        [], [], [],
        World(Clock.State(start, 0, []), {}, {}, {}, {}, Counts(0, 0, 0, 0), 0.0, 0, [], firstId, firstId, 0),
        [], [])
  }

  function Opening(w: World, code: Window, at: int): Event {
    Envelope(w.nextId, "outcome.window.opened", at, code.clientId, code.correlationId, Some(code.causationId),
             SCHEDULER, Opened(Some(code.action), code.period, at))
  }

  /** One due timer fires: it publishes the opening, or throws when its time cannot be written in an event. */
  function FireWindow(b: FlowBus, target: int): FlowBus {
    var w := b.world;
    if !Clock.HasDue(w.clock, target) then b
    else
      var t := Clock.NextDue(w.clock, target);
      var clock := Clock.State(t.fireAt, w.clock.seqNo, Clock.Removed(w.clock.timers, t.order));
      if Stampable(t.fireAt) then
        Publish(b.(world := w.(clock := clock, nextId := w.nextId + 1)), Opening(w, t.code, t.fireAt))
      else b.(world := w.(clock := clock, nextId := w.nextId + 1, lost := w.lost + {t.code.action}))
  }

  /** The outside publishes executed actions and re-opens windows, under ids of its own. */
  predicate FromOutside(b: FlowBus, e: Event) {
    && (e.payload.Executed? || e.payload.Opened?) && e.kind == KindOf(e.payload)
    && e.eventId < b.world.firstId && e.actor != SCHEDULER
  }

  datatype FlowStep =
    | PublishStep(event: Event)
    | RedeliverStep(k: nat)
    | FireStep(target: int)
    | TimeStep(ms: int)
    | DeliverStep
    | DecideStep(clientId: Id, id: Id, decision: Store.Decision, decider: string, note: Option<string>)

  /**
    One step: an event from outside, the redelivery of any earlier event, a timer, the end of an advance, one
    event going to its subscriptions with all its retries, or a human decision.
   */
  function FlowNext(source: nat -> Reading, b: FlowBus, step: FlowStep): FlowBus {
    match step
    case PublishStep(e) => if FromOutside(b, e) then Publish(b, e) else b
    case RedeliverStep(k) => if k < |b.published| then Publish(b, b.published[k]) else b
    case FireStep(target) => FireWindow(b, target)
    case TimeStep(ms) => b.(world := b.world.(clock := b.world.clock.(ms := ms)))
    case DeliverStep => if b.queue == [] then b else DeliverNext(Handle(source), b)
    case DecideStep(clientId, id, decision, decider, note) =>
      b.(world := b.world.(rows := Store.Decide(b.world.rows, clientId, id, decision, decider, b.world.clock.ms, note)))
  }

  function RunAll(source: nat -> Reading, b: FlowBus, steps: seq<FlowStep>): FlowBus
    decreases steps
  {
    if steps == [] then b else RunAll(source, FlowNext(source, b, steps[0]), steps[1..])
  }
}
