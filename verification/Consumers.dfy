/**
  The four consumers of Flow E as the objects they are. Each method runs one event through its consumer: the
  events it publishes are returned, its fields are updated in place, and together they are what the
  corresponding handler of FlowE does to any world that agrees with the fields.
 */
module Consumers {
  import opened Wrappers
  import opened EventBus
  import opened Outcome
  import opened FlowE
  import Clock
  import Duration
  import Store = LearningStore

  /** Fresh ids. */
  class IdSource {
    var next: Id

    constructor (first: Id)
      ensures next == first
    {
      next := first;
    }

    method NewId() returns (id: Id)
      modifies this
      ensures id == old(next) && next == old(next) + 1
    {
      id := next;
      next := next + 1;
    }
  }

  class OutcomeWindowScheduler {
    const clock: Clock.VirtualClock<FlowBus, Window>
    var scheduled: set<Id>

    constructor (clock: Clock.VirtualClock<FlowBus, Window>)
      ensures this.clock == clock && scheduled == {}
    {
      this.clock, scheduled := clock, {};
    }

    method OnExecutedEvent(e: Event, ghost w: World) returns (error: Option<string>)
      requires e.payload.Executed? && Clock.Valid(clock.Snapshot().clock)
      requires w.scheduled == scheduled && w.clock == clock.Snapshot().clock
      modifies this, clock
      ensures Clock.Valid(clock.Snapshot().clock) && clock.Snapshot().world == old(clock.Snapshot().world)
      ensures OnExecuted(w, e) == Attempt(w.(scheduled := scheduled, clock := clock.Snapshot().clock), [], error)
    {
      hide Duration.ParseIsoDuration;
      error := None;
      var p := e.payload;
      if p.action.None? || p.observation.None? { return; }
      if p.action.value in scheduled { return; }
      var executedMs := ExecutedMs(e);
      if executedMs.None? { return; }
      var length := Duration.ParseIsoDuration(p.observation.value);
      if length.None? { return Some("invalid or unsupported ISO-8601 duration: " + p.observation.value); }
      var fireAt := executedMs.value + length.value;
      if fireAt > MAX_DATE_MS || fireAt < -MAX_DATE_MS { return Some("Invalid time value"); }
      scheduled := scheduled + {p.action.value};
      var code := Window(p.action.value, p.observation.value, executedMs.value, e.clientId, e.correlationId, e.eventId);
      var id := clock.ScheduleTimer(fireAt, code);
    }
  }

  class OutcomeMetricsSource {
    const answers: nat -> Reading
    var readCount: nat

    constructor (answers: nat -> Reading)
      ensures this.answers == answers && readCount == 0
    {
      this.answers, readCount := answers, 0;
    }

    method Read() returns (r: Reading)
      modifies this
      ensures r == answers(old(readCount)) && readCount == old(readCount) + 1
    {
      r := answers(readCount);
      readCount := readCount + 1;
    }
  }

  class OutcomeEvaluatorConsumer {
    const source: OutcomeMetricsSource
    const ids: IdSource
    var evaluated: set<Id>

    constructor (source: OutcomeMetricsSource, ids: IdSource)
      ensures this.source == source && this.ids == ids && evaluated == {}
    {
      this.source, this.ids, evaluated := source, ids, {};
    }

    method OnOpenedEvent(e: Event, now: int, ghost w: World) returns (published: seq<Event>, error: Option<string>)
      requires e.payload.Opened?
      requires w.evaluated == evaluated && w.readNo == source.readCount && w.nextId == ids.next && w.clock.ms == now
      modifies this, source, ids
      ensures OnOpened(source.answers, w, e)
           == Attempt(w.(evaluated := evaluated, readNo := source.readCount, nextId := ids.next), published, error)
    {
      published, error := [], None;
      if e.payload.action.None? || e.payload.action.value in evaluated { return; }
      var reading := source.Read();
      match reading {
        case Failed(why) => error := Some(why);
        case Unavailable =>
        case Measured(metrics) =>
          evaluated := evaluated + {e.payload.action.value};
          var evalId := ids.NewId();
          var evaluation := EvaluateOutcome(metrics);
          var eventId := ids.NewId();
          published := [Envelope(eventId, "outcome.evaluated", now, e.clientId, e.correlationId, Some(e.eventId),
                                 EVALUATOR, Evaluated(evalId, e.payload.action.value, evaluation))];
      }
    }
  }

  class LearningAggregator {
    const ids: IdSource
    var seen: set<Id>
    var counts: Counts
    var causalSum: real
    var n: nat

    constructor (ids: IdSource)
      ensures this.ids == ids && seen == {} && counts == Counts(0, 0, 0, 0) && causalSum == 0.0 && n == 0
    {
      this.ids, seen, counts, causalSum, n := ids, {}, Counts(0, 0, 0, 0), 0.0, 0;
    }

    /** The running totals, as the world of Flow E holds them. */
    ghost predicate Mirrors(w: World)
      reads this, ids
    {
      w.seen == seen && w.counts == counts && w.causalSum == causalSum && w.n == n && w.nextId == ids.next
    }

    method TakeSnapshot() returns (s: Snapshot)
      ensures s.sampleSize == n && s.counts == counts && (n == 0 ==> s.meanCausalConfidence == 0.0)
      ensures forall w :: Mirrors(w) ==> s == SnapshotOf(w)
    {
      s := Snapshot(n, counts, if n > 0 then causalSum / n as real else 0.0);
    }

    method OnEvaluatedEvent(e: Event, now: int, ghost w: World) returns (published: seq<Event>)
      requires e.payload.Evaluated? && Mirrors(w) && w.clock.ms == now
      modifies this, ids
      ensures OnEvaluated(w, e)
           == Attempt(w.(seen := seen, counts := counts, causalSum := causalSum, n := n, nextId := ids.next),
                      published, None)
    {
      published := [];
      if e.payload.evalId in seen { return; }
      seen := seen + {e.payload.evalId};
      counts := Counted(counts, e.payload.evaluation.result);
      causalSum := causalSum + e.payload.evaluation.causalConfidence;
      n := n + 1;
      var eventId := ids.NewId();
      assert Mirrors(Aggregated(w, e.payload));
      var snapshot := TakeSnapshot();
      published := [Envelope(eventId, "learning.updated", now, e.clientId, e.correlationId, Some(e.eventId),
                             AGGREGATOR, Learned(snapshot))];
    }
  }

  class LearningSuggestionSink {
    const store: Store.InMemoryLearningStore<Snapshot>
    const ids: IdSource

    constructor (store: Store.InMemoryLearningStore<Snapshot>, ids: IdSource)
      ensures this.store == store && this.ids == ids
    {
      this.store, this.ids := store, ids;
    }

    method OnLearningUpdated(e: Event, now: int, ghost w: World)
      requires e.payload.Learned? && store.Valid()
      requires w.rows == store.rows && w.nextId == ids.next && w.clock.ms == now
      modifies store, ids
      ensures store.Valid()
      ensures OnLearned(w, e) == Attempt(w.(rows := store.rows, nextId := ids.next), [], None)
    {
      var row := store.UpsertRow(UpsertOf(e), ids.next, now);
      if row.Some? { var used := ids.NewId(); }
    }
  }
}
