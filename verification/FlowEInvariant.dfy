/** What holds in every reachable state of Flow E between deliveries, whatever the outside does. */
module FlowEInvariant {
  import opened Wrappers
  import opened EventBus
  import opened Outcome
  import opened Reals
  import opened FlowE
  import Sorting
  import Clock
  import Duration
  import Store = LearningStore

  // ---- Names and ids ----

  predicate SystemMade(e: Event) { e.payload.Evaluated? || e.payload.Learned? || e.actor == SCHEDULER }

  /** An opening published by the scheduler's timer, as opposed to a re-open from outside. */
  predicate IsOpening(e: Event) { e.actor == SCHEDULER && e.payload.Opened? && e.payload.action.Some? }

  /** Ids from `firstId` on name one event each, and those not yet drawn name none. */
  ghost predicate Named(w: World, ps: seq<Event>) {
    && w.firstId <= w.nextId
    && (forall e :: e in ps ==> e.kind == KindOf(e.payload) && e.eventId < w.nextId)
    && (forall e :: e in ps && SystemMade(e) ==> e.eventId >= w.firstId)
    && (forall e :: e in ps && e.payload.Evaluated? ==> e.eventId == e.payload.evalId + 1)
    && (forall e :: e in ps && e.actor == SCHEDULER ==> IsOpening(e))
    && (forall e, f :: e in ps && f in ps && e.eventId == f.eventId && e.eventId >= w.firstId ==> e == f)
  }

  // ---- Windows ----

  ghost function PendingIds(timers: seq<Clock.Timer<Window>>): set<Id> { set t | t in timers :: t.code.action }

  ghost function OpenedIds(ps: seq<Event>): set<Id> { set e | e in ps && IsOpening(e) :: e.payload.action.value }

  ghost predicate DistinctActions(timers: seq<Clock.Timer<Window>>) {
    forall i, j :: 0 <= i < j < |timers| ==> timers[i].code.action != timers[j].code.action
  }

  /** Where a window belongs: `executed_at` plus the parsed period of the event `c`. */
  predicate OpensAt(c: Event, action: Id, period: string, at: int) {
    && c.payload.Executed? && c.payload.action == Some(action) && c.payload.observation == Some(period)
    && ExecutedMs(c).Some? && Duration.ParseIsoDuration(period).Some?
    && at == ExecutedMs(c).value + Duration.ParseIsoDuration(period).value
  }

  /** The timer stands at the time of the window of an executed action that was published. */
  ghost predicate Armed(t: Clock.Timer<Window>, ps: seq<Event>) {
    exists c :: c in ps && c.eventId == t.code.causationId && OpensAt(c, t.code.action, t.code.period, t.fireAt)
  }

  /** The opening is stamped exactly `executed_at` plus the period of the event it names as its cause. */
  ghost predicate Stamped(e: Event, ps: seq<Event>)
    requires IsOpening(e)
  {
    && e.occurredAt == e.payload.openedAt && Stampable(e.occurredAt)
    && exists c :: c in ps && e.causationId == Some(c.eventId)
                   && OpensAt(c, e.payload.action.value, e.payload.period, e.occurredAt)
  }

  /** The window of a published executed action lies outside the years an event can be stamped with. */
  ghost predicate CannotOpen(action: Id, ps: seq<Event>) {
    exists c, period, at :: c in ps && OpensAt(c, action, period, at) && !Stampable(at)
  }

  ghost predicate Partition(scheduled: set<Id>, armed: set<Id>, fired: set<Id>, lost: set<Id>) {
    && scheduled == armed + fired + lost
    && armed !! fired && armed !! lost && fired !! lost
  }

  ghost predicate Windows(w: World, ps: seq<Event>) {
    && Clock.Valid(w.clock)
    && DistinctActions(w.clock.timers)
    && Partition(w.scheduled, PendingIds(w.clock.timers), OpenedIds(ps), w.lost)
    && (forall t :: t in w.clock.timers ==> Armed(t, ps))
    && (forall e :: e in ps && IsOpening(e) ==> Stamped(e, ps))
    && (forall e, f | e in ps && f in ps && IsOpening(e) && IsOpening(f) && e.payload.action == f.payload.action ::
          e == f)
    && (forall a :: a in w.lost ==> CannotOpen(a, ps))
  }

  // ---- Verdicts ----

  ghost function EvaluatedIds(ps: seq<Event>): set<Id> { set e | e in ps && e.payload.Evaluated? :: e.payload.actionId }

  ghost predicate Verdicts(w: World, ps: seq<Event>) {
    && w.evaluated == EvaluatedIds(ps)
    && (forall e, f | e in ps && f in ps && e.payload.Evaluated? && f.payload.Evaluated?
                      && e.payload.actionId == f.payload.actionId :: e == f)
    && (forall e :: e in ps && e.payload.Evaluated? ==> Cautious(e.payload.evaluation))
  }

  predicate Cautious(v: Evaluation) { !v.result.Inconclusive? && 0.1 <= v.causalConfidence <= 0.4 }

  // ---- Aggregation ----

  ghost function EvalIds(ps: seq<Event>): set<Id> { set e | e in ps && e.payload.Evaluated? :: e.payload.evalId }

  /** The sample size is the number of distinct evaluations delivered, and the sum of the result counts. */
  ghost predicate Aggregates(w: World, delivered: seq<Event>) {
    && w.seen == EvalIds(delivered)
    && w.n == |w.seen| == Total(w.counts) && w.counts.inconclusive == 0
    && 0.1 * w.n as real <= w.causalSum <= 0.4 * w.n as real
  }

  /** The distinct `learning.updated` events in the order they first appear. */
  function FirstLearned(ps: seq<Event>): seq<Event> {
    if ps == [] then []
    else
      var rest, last := FirstLearned(ps[..|ps| - 1]), ps[|ps| - 1];
      if last.payload.Learned? && last !in rest then rest + [last] else rest
  }

  /** The i-th snapshot ever published aggregates exactly i + 1 evaluations, with cautious mean confidence. */
  ghost predicate LessonAt(e: Event, i: nat) {
    && e.payload.Learned?
    && e.payload.snapshot.sampleSize == i + 1 == Total(e.payload.snapshot.counts)
    && 0.1 <= e.payload.snapshot.meanCausalConfidence <= 0.4
  }

  ghost predicate Lessons(w: World, ps: seq<Event>) {
    && |FirstLearned(ps)| == w.n
    && forall i :: 0 <= i < |FirstLearned(ps)| ==> LessonAt(FirstLearned(ps)[i], i)
  }

  // ---- Suggestions ----

  predicate RowFor(r: Store.Suggestion<Snapshot>, e: Event) {
    && e.payload.Learned?
    && r.clientId == e.clientId && r.sourceEventId == Some(e.eventId) && r.snapshot == e.payload.snapshot
  }

  /** The rows record the distinct delivered snapshots in delivery order. */
  ghost predicate Rows(w: World, delivered: seq<Event>) {
    && |w.rows| == |FirstLearned(delivered)|
    && (forall i :: 0 <= i < |w.rows| ==> RowFor(w.rows[i], FirstLearned(delivered)[i]))
    && Store.PendingIsNewest(w.rows) && Store.SourcesUnique(w.rows)
  }

  // ---- Subscriptions ----

  predicate IsSub(s: Sub<Handler>, pattern: string, h: Handler) {
    s.pattern == pattern && s.handler == h && s.since == 0
  }

  predicate FourSubs(subs: seq<Sub<Handler>>) {
    && |subs| == 4
    && IsSub(subs[0], "action.executed", Scheduler) && IsSub(subs[1], "outcome.window.opened", Evaluator)
    && IsSub(subs[2], "outcome.evaluated", Aggregator) && IsSub(subs[3], "learning.updated", Sink)
  }

  /** Number of the subscription that handles the payload. */
  function Consumer(p: Payload): nat {
    match p
    case Executed(_, _, _) => 0
    case Opened(_, _, _) => 1
    case Evaluated(_, _, _) => 2
    case Learned(_) => 3
  }

  /** A system-made event whose consumer has settled its id has been delivered. */
  ghost predicate SeenDelivered(w: World, subs: seq<Sub<Handler>>, ps: seq<Event>, delivered: seq<Event>)
    requires |subs| == 4
  {
    && (forall i, id :: 0 <= i < 4 && id in subs[i].seen ==> id < w.nextId)
    && (forall e :: e in ps && e.eventId >= w.firstId && e.eventId in subs[Consumer(e.payload)].seen ==> e in delivered)
  }

  ghost predicate FlowInv(b: FlowBus) {
    && FourSubs(b.subs) && BusInv(b)
    && Named(b.world, b.published)
    && SeenDelivered(b.world, b.subs, b.published, b.delivered)
    && Windows(b.world, b.published)
    && Verdicts(b.world, b.published)
    && Aggregates(b.world, b.delivered)
    && Lessons(b.world, b.published)
    && Rows(b.world, b.delivered)
  }

  // ---- Which subscription an event goes to ----

  lemma KindsAreDistinct(p: Payload, i: nat)
    requires i < 4
    ensures var patterns := ["action.executed", "outcome.window.opened", "outcome.evaluated", "learning.updated"];
      TypeMatches(patterns[i], KindOf(p)) <==> i == Consumer(p)
  {
    var patterns := ["action.executed", "outcome.window.opened", "outcome.evaluated", "learning.updated"];
    assert |patterns[0]| == 15 && |patterns[1]| == 21 && |patterns[2]| == 17 && |patterns[3]| == 16;
    assert KindOf(p) == patterns[Consumer(p)];
    assert patterns[0][14] == 'd' && patterns[1][20] == 'd' && patterns[2][16] == 'd' && patterns[3][15] == 'd';
    var q := patterns[i];
    assert q[|q| - 2..][1] == q[|q| - 1] == 'd';
    assert q != "*";
  }

  lemma MatchesConsumer(subs: seq<Sub<Handler>>, p: Payload, i: nat)
    requires FourSubs(subs) && i < 4
    ensures TypeMatches(subs[i].pattern, KindOf(p)) <==> i == Consumer(p)
  {
    KindsAreDistinct(p, i);
  }

  lemma {:induction false} SkipOthers(source: nat -> Reading, b: FlowBus, e: Event, i: nat)
    requires FourSubs(b.subs) && e.kind == KindOf(e.payload) && i <= 4
    ensures i > Consumer(e.payload) ==> DeliverFrom(Handle(source), b, e, i) == b
    ensures i <= Consumer(e.payload) ==>
              DeliverFrom(Handle(source), b, e, i) == DeliverFrom(Handle(source), b, e, Consumer(e.payload))
    decreases 4 - i
  {
    hide Deliver, TypeMatches;
    if i < 4 && i != Consumer(e.payload) {
      MatchesConsumer(b.subs, e.payload, i);
      SkipOthers(source, b, e, i + 1);
    }
  }

  /** A delivered event reaches exactly its one consumer, and only if that has not settled the id before. */
  lemma ReachesConsumer(source: nat -> Reading, b: FlowBus, e: Event)
    requires FourSubs(b.subs) && e.kind == KindOf(e.payload)
    ensures var i := Consumer(e.payload);
      DeliverFrom(Handle(source), b, e, 0)
        == if e.eventId in b.subs[i].seen then b else Deliver(Handle(source), b, i, e, 0)
  {
    hide Deliver, TypeMatches;
    var i := Consumer(e.payload);
    SkipOthers(source, b, e, 0);
    MatchesConsumer(b.subs, e.payload, i);
    if e.eventId in b.subs[i].seen {
      SkipOthers(source, b, e, i + 1);
    } else {
      var r := Deliver(Handle(source), b, i, e, 0);
      DeliverKeepsSubs(Handle(source), b, i, e, 0);
      SkipOthers(source, r, e, i + 1);
    }
  }

  // ---- What one delivery does, with all its retries ----

  /** A failing scheduler run leaves nothing behind, so retrying it changes nothing. */
  lemma {:induction false} SchedulerDelivers(source: nat -> Reading, b: FlowBus, e: Event, attempt: nat)
    requires FourSubs(b.subs) && e.payload.Executed? && attempt < MaxRuns(b.maxRetries)
    ensures var r := Deliver(Handle(source), b, 0, e, attempt);
      && r.queue == b.queue && r.published == b.published
      && r.world == OnExecuted(b.world, e).world
    decreases MaxRuns(b.maxRetries) - attempt
  {
    var a := OnExecuted(b.world, e);
    assert a.published == [] && (a.error.Some? ==> a.world == b.world);
    assert b.queue + [] == b.queue && b.published + [] == b.published;
    if a.error.Some? && attempt + 1 <= b.maxRetries {
      SchedulerDelivers(source, AfterRun(b, a, Run(0, e.eventId, Retried)), e, attempt + 1);
    }
  }

  /** The evaluator publishes one verdict for an action not evaluated before, or only reads the metrics. */
  lemma {:induction false} EvaluatorDelivers(source: nat -> Reading, b: FlowBus, e: Event, attempt: nat)
    returns (readNo: nat, m: Option<Metrics>)
    requires FourSubs(b.subs) && e.payload.Opened? && attempt < MaxRuns(b.maxRetries)
    ensures var r := Deliver(Handle(source), b, 1, e, attempt);
      var w := b.world.(readNo := readNo);
      if m.Some? then
        && e.payload.action.Some? && e.payload.action.value !in w.evaluated
        && r.world == w.(evaluated := w.evaluated + {e.payload.action.value}, nextId := w.nextId + 2)
        && r.published == b.published + [Verdict(w, e, m.value)]
      else
        r.world == w && r.published == b.published
    ensures m.Some? ==> readNo > 0 && source(readNo - 1) == Measured(m.value)
    decreases MaxRuns(b.maxRetries) - attempt
  {
    var a := OnOpened(source, b.world, e);
    readNo, m := a.world.readNo, None;
    assert b.published + [] == b.published;
    if a.error.Some? {
      if attempt + 1 <= b.maxRetries {
        readNo, m := EvaluatorDelivers(source, AfterRun(b, a, Run(1, e.eventId, Retried)), e, attempt + 1);
      }
    } else if a.published != [] {
      m := Some(source(b.world.readNo).metrics);
    }
  }

  lemma AggregatorDelivers(source: nat -> Reading, b: FlowBus, e: Event)
    requires FourSubs(b.subs) && e.payload.Evaluated?
    ensures var r := Deliver(Handle(source), b, 2, e, 0);
      r.world == OnEvaluated(b.world, e).world && r.published == b.published + OnEvaluated(b.world, e).published
  {
  }

  lemma SinkDelivers(source: nat -> Reading, b: FlowBus, e: Event)
    requires FourSubs(b.subs) && e.payload.Learned?
    ensures var r := Deliver(Handle(source), b, 3, e, 0);
      r.world == OnLearned(b.world, e).world && r.published == b.published
  {
    assert b.published + [] == b.published;
  }

  // ---- One more published event ----

  /** An event that is already there, or one that can only come from outside. */
  ghost predicate Neutral(w: World, ps: seq<Event>, e: Event) {
    e in ps || (!SystemMade(e) && e.kind == KindOf(e.payload) && e.eventId < w.firstId)
  }

  lemma NamedNeutral(w: World, ps: seq<Event>, e: Event)
    requires Named(w, ps) && Neutral(w, ps, e)
    ensures Named(w, ps + [e])
  {
  }

  lemma NamedNew(w: World, ps: seq<Event>, e: Event, w': World)
    requires Named(w, ps) && w'.firstId == w.firstId && w.nextId <= e.eventId < w'.nextId
    requires e.kind == KindOf(e.payload)
    requires e.payload.Evaluated? ==> e.eventId == e.payload.evalId + 1
    requires e.actor == SCHEDULER ==> IsOpening(e)
    ensures Named(w', ps + [e])
  {
  }

  lemma OpenedAppend(ps: seq<Event>, e: Event)
    ensures OpenedIds(ps + [e]) == OpenedIds(ps) + if IsOpening(e) then {e.payload.action.value} else {}
  {
    assert forall x :: x in ps + [e] <==> x in ps || x == e;
  }

  lemma EvaluatedAppend(ps: seq<Event>, e: Event)
    ensures EvaluatedIds(ps + [e]) == EvaluatedIds(ps) + if e.payload.Evaluated? then {e.payload.actionId} else {}
    ensures EvalIds(ps + [e]) == EvalIds(ps) + if e.payload.Evaluated? then {e.payload.evalId} else {}
  {
    assert forall x :: x in ps + [e] <==> x in ps || x == e;
  }

  lemma WitnessesStay(ps: seq<Event>, e: Event)
    ensures forall t :: Armed(t, ps) ==> Armed(t, ps + [e])
    ensures forall f :: IsOpening(f) && Stamped(f, ps) ==> Stamped(f, ps + [e])
    ensures forall a :: CannotOpen(a, ps) ==> CannotOpen(a, ps + [e])
  {
    forall t | Armed(t, ps) ensures Armed(t, ps + [e]) {
      var c :| c in ps && c.eventId == t.code.causationId && OpensAt(c, t.code.action, t.code.period, t.fireAt);
      assert c in ps + [e];
    }
    forall f | IsOpening(f) && Stamped(f, ps) ensures Stamped(f, ps + [e]) {
      var c :| c in ps && f.causationId == Some(c.eventId)
               && OpensAt(c, f.payload.action.value, f.payload.period, f.occurredAt);
      assert c in ps + [e];
    }
    forall a | CannotOpen(a, ps) ensures CannotOpen(a, ps + [e]) {
      var c, period, at :| c in ps && OpensAt(c, a, period, at) && !Stampable(at);
      assert c in ps + [e];
    }
  }

  lemma WindowsSame(w: World, ps: seq<Event>, e: Event)
    requires Windows(w, ps) && (IsOpening(e) ==> e in ps)
    ensures Windows(w, ps + [e])
  {
    hide Armed, Stamped, CannotOpen;
    OpenedAppend(ps, e);
    WitnessesStay(ps, e);
    assert IsOpening(e) ==> e.payload.action.value in OpenedIds(ps);
    assert OpenedIds(ps + [e]) == OpenedIds(ps);
  }

  lemma VerdictsSame(w: World, ps: seq<Event>, e: Event)
    requires Verdicts(w, ps) && (e.payload.Evaluated? ==> e in ps)
    ensures Verdicts(w, ps + [e])
  {
    EvaluatedAppend(ps, e);
    assert e.payload.Evaluated? ==> e.payload.actionId in EvaluatedIds(ps);
    assert EvaluatedIds(ps + [e]) == EvaluatedIds(ps);
  }

  lemma {:induction false} FirstLearnedMembers(ps: seq<Event>, e: Event)
    ensures e in FirstLearned(ps) <==> e in ps && e.payload.Learned?
  {
    if ps != [] {
      FirstLearnedMembers(ps[..|ps| - 1], e);
      assert ps == ps[..|ps| - 1] + [ps[|ps| - 1]];
    }
  }

  lemma FirstLearnedAppend(ps: seq<Event>, e: Event)
    ensures FirstLearned(ps + [e]) == FirstLearned(ps) + if e.payload.Learned? && e !in ps then [e] else []
  {
    assert (ps + [e])[..|ps|] == ps;
    FirstLearnedMembers(ps, e);
  }

  lemma LessonsSame(w: World, ps: seq<Event>, e: Event)
    requires Lessons(w, ps) && (e.payload.Learned? ==> e in ps)
    ensures Lessons(w, ps + [e])
  {
    FirstLearnedAppend(ps, e);
  }

  lemma BusInvAnyWorld(b: FlowBus, w: World)
    requires BusInv(b)
    ensures BusInv(b.(world := w))
  {
    var c := b.(world := w);
    forall i, id | 0 <= i < |c.subs| ensures SettledOnce(c, i, id) { assert SettledOnce(b, i, id); }
    forall k | 0 <= k < |c.deadLetters| ensures Recorded(c, k) { assert Recorded(b, k); }
    forall i, k | 0 <= i < |c.subs| && 0 <= k < |c.delivered| ensures HandledBy(c, i, k) { assert HandledBy(b, i, k); }
  }

  lemma SeenNeutral(w: World, subs: seq<Sub<Handler>>, ps: seq<Event>, delivered: seq<Event>, e: Event, w': World)
    requires |subs| == 4 && SeenDelivered(w, subs, ps, delivered)
    requires w'.firstId == w.firstId && w.nextId <= w'.nextId
    requires Neutral(w, ps, e) || e.eventId >= w.nextId
    ensures SeenDelivered(w', subs, ps + [e], delivered)
  {
  }

  lemma PublishKeeps(b: FlowBus, e: Event)
    requires FlowInv(b) && Neutral(b.world, b.published, e)
    ensures FlowInv(Publish(b, e))
  {
    hide BusInv, Named, Windows, Verdicts, Lessons, Aggregates, Rows, SeenDelivered, IsSub;
    PublishInv(b, e);
    NamedNeutral(b.world, b.published, e);
    SeenNeutral(b.world, b.subs, b.published, b.delivered, e, b.world);
    WindowsSame(b.world, b.published, e);
    VerdictsSame(b.world, b.published, e);
    LessonsSame(b.world, b.published, e);
  }

  // ---- A timer fires ----

  lemma {:induction false} FilteredDistinct(timers: seq<Clock.Timer<Window>>, p: Clock.Timer<Window> -> bool)
    requires DistinctActions(timers)
    ensures DistinctActions(Sorting.Filtered(timers, p))
  {
    if timers != [] {
      var rest := Sorting.Filtered(timers[1..], p);
      FilteredDistinct(timers[1..], p);
      forall j | 0 <= j < |rest| ensures rest[j].code.action != timers[0].code.action {
        assert rest[j] in timers[1..];
        var k :| 0 <= k < |timers[1..]| && timers[1..][k] == rest[j];
        assert timers[k + 1] == rest[j];
      }
    }
  }

  lemma RemovedIsValid(c: Clock.State<Window>, t: Clock.Timer<Window>)
    requires Clock.Valid(c) && DistinctActions(c.timers)
    ensures var c' := Clock.State(t.fireAt, c.seqNo, Clock.Removed(c.timers, t.order));
      && Clock.Valid(c') && DistinctActions(c'.timers)
      && forall u :: u in c'.timers ==> u in c.timers && u.order != t.order
  {
    hide Clock.Increasing, DistinctActions;
    var p := (u: Clock.Timer<Window>) => u.order != t.order;
    FilteredDistinct(c.timers, p);
    Clock.FilteredIncreasing(c.timers, -1, p);
    var rest := Clock.Removed(c.timers, t.order);
    forall i | 0 <= i < |rest| ensures rest[i].order <= c.seqNo { assert rest[i] in c.timers; }
  }

  lemma OthersRemain(c: Clock.State<Window>, t: Clock.Timer<Window>, u: Clock.Timer<Window>)
    requires Clock.Valid(c) && DistinctActions(c.timers) && t in c.timers && u in c.timers && u != t
    ensures u in Clock.Removed(c.timers, t.order) && u.code.action != t.code.action
  {
    var p := (u: Clock.Timer<Window>) => u.order != t.order;
    var k :| 0 <= k < |c.timers| && c.timers[k] == t;
    var j :| 0 <= j < |c.timers| && c.timers[j] == u;
    if u.order == t.order {
      Clock.OrderIdentifies(c.timers, -1, j, k);
    }
    assert p(c.timers[j]);
  }

  lemma RemovedMembers(c: Clock.State<Window>, t: Clock.Timer<Window>)
    requires Clock.Valid(c) && DistinctActions(c.timers) && t in c.timers
    ensures var c' := Clock.State(t.fireAt, c.seqNo, Clock.Removed(c.timers, t.order));
      && Clock.Valid(c') && DistinctActions(c'.timers)
      && PendingIds(c'.timers) == PendingIds(c.timers) - {t.code.action}
      && t.code.action in PendingIds(c.timers)
      && forall u :: u in c'.timers ==> u in c.timers
  {
    hide Clock.Valid, Clock.Removed, DistinctActions;
    RemovedIsValid(c, t);
    forall u | u in c.timers && u != t
      ensures u in Clock.Removed(c.timers, t.order) && u.code.action != t.code.action
    {
      OthersRemain(c, t, u);
    }
  }

  lemma PartitionMoves(scheduled: set<Id>, armed: set<Id>, fired: set<Id>, lost: set<Id>, a: Id)
    requires Partition(scheduled, armed, fired, lost) && a in armed
    ensures Partition(scheduled, armed - {a}, fired + {a}, lost)
    ensures Partition(scheduled, armed - {a}, fired, lost + {a})
  {
  }

  lemma FiredWindowOpens(w: World, ps: seq<Event>, t: Clock.Timer<Window>)
    requires Windows(w, ps) && t in w.clock.timers && Stampable(t.fireAt)
    ensures var clock := Clock.State(t.fireAt, w.clock.seqNo, Clock.Removed(w.clock.timers, t.order));
      Windows(w.(clock := clock, nextId := w.nextId + 1), ps + [Opening(w, t.code, t.fireAt)])
  {
    hide Armed, CannotOpen, Clock.Removed, Clock.Valid, DistinctActions, PendingIds, OpenedIds, Partition;
    var e := Opening(w, t.code, t.fireAt);
    RemovedMembers(w.clock, t);
    OpenedAppend(ps, e);
    WitnessesStay(ps, e);
    PartitionMoves(w.scheduled, PendingIds(w.clock.timers), OpenedIds(ps), w.lost, t.code.action);
    OpeningIsStamped(w, ps, t);
    OpeningIsFirst(w, ps, t.code.action);
  }

  lemma OpeningIsStamped(w: World, ps: seq<Event>, t: Clock.Timer<Window>)
    requires Armed(t, ps) && Stampable(t.fireAt)
    ensures IsOpening(Opening(w, t.code, t.fireAt))
    ensures Stamped(Opening(w, t.code, t.fireAt), ps + [Opening(w, t.code, t.fireAt)])
  {
    var e := Opening(w, t.code, t.fireAt);
    var c :| c in ps && c.eventId == t.code.causationId && OpensAt(c, t.code.action, t.code.period, t.fireAt);
    assert c in ps + [e];
  }

  lemma OpeningIsFirst(w: World, ps: seq<Event>, a: Id)
    requires Partition(w.scheduled, PendingIds(w.clock.timers), OpenedIds(ps), w.lost)
    requires a in PendingIds(w.clock.timers)
    ensures forall f :: f in ps && IsOpening(f) ==> f.payload.action != Some(a)
  {
    forall f | f in ps && IsOpening(f) ensures f.payload.action != Some(a) {
      assert f.payload.action.value in OpenedIds(ps);
    }
  }

  lemma FiredWindowLost(w: World, ps: seq<Event>, t: Clock.Timer<Window>)
    requires Windows(w, ps) && t in w.clock.timers && !Stampable(t.fireAt)
    ensures var clock := Clock.State(t.fireAt, w.clock.seqNo, Clock.Removed(w.clock.timers, t.order));
      Windows(w.(clock := clock, nextId := w.nextId + 1, lost := w.lost + {t.code.action}), ps)
  {
    hide Stamped, Clock.Removed, Clock.Valid, DistinctActions, PendingIds, OpenedIds, Partition;
    RemovedMembers(w.clock, t);
    PartitionMoves(w.scheduled, PendingIds(w.clock.timers), OpenedIds(ps), w.lost, t.code.action);
    assert CannotOpen(t.code.action, ps) by {
      assert Armed(t, ps);
    }
  }

  lemma FireKeeps(b: FlowBus, target: int)
    requires FlowInv(b)
    ensures FlowInv(FireWindow(b, target))
  {
    hide BusInv, Named, Windows, Verdicts, Lessons, Aggregates, Rows, SeenDelivered, IsSub, Clock.Removed;
    hide Clock.HasDue, Clock.NextDue;
    var w := b.world;
    if Clock.HasDue(w.clock, target) {
      Clock.NextDueIsLeast(w.clock, target);
      var t := Clock.NextDue(w.clock, target);
      var clock := Clock.State(t.fireAt, w.clock.seqNo, Clock.Removed(w.clock.timers, t.order));
      var w' := w.(clock := clock, nextId := w.nextId + 1);
      var e := Opening(w, t.code, t.fireAt);
      if Stampable(t.fireAt) {
        BusInvAnyWorld(b, w');
        PublishInv(b.(world := w'), e);
        NamedNew(w, b.published, e, w');
        SeenNeutral(w, b.subs, b.published, b.delivered, e, w');
        FiredWindowOpens(w, b.published, t);
        VerdictsSame(w, b.published, e);
        LessonsSame(w, b.published, e);
        SameButClock(w, w', b.published + [e], b.delivered);
      } else {
        var w'' := w'.(lost := w.lost + {t.code.action});
        BusInvAnyWorld(b, w'');
        FiredWindowLost(w, b.published, t);
        SameButClock(w, w'', b.published, b.delivered);
        LaterIds(w, w'', b.subs, b.published, b.delivered);
      }
    }
  }

  lemma SameButClock(w: World, w': World, ps: seq<Event>, delivered: seq<Event>)
    requires w' == w.(clock := w'.clock, nextId := w'.nextId, lost := w'.lost, scheduled := w'.scheduled,
                      readNo := w'.readNo)
    ensures Verdicts(w, ps) ==> Verdicts(w', ps)
    ensures Lessons(w, ps) ==> Lessons(w', ps)
    ensures Aggregates(w, delivered) ==> Aggregates(w', delivered)
    ensures Rows(w, delivered) ==> Rows(w', delivered)
  {
  }

  lemma LaterIds(w: World, w': World, subs: seq<Sub<Handler>>, ps: seq<Event>, delivered: seq<Event>)
    requires w'.firstId == w.firstId && w.nextId <= w'.nextId && |subs| == 4
    ensures Named(w, ps) ==> Named(w', ps)
    ensures SeenDelivered(w, subs, ps, delivered) ==> SeenDelivered(w', subs, ps, delivered)
  {
  }

  // ---- An event is delivered ----

  /** The event delivered moves from the queue to the delivered ones. */
  function Taken(b: FlowBus): FlowBus
    requires b.queue != []
  {
    b.(queue := b.queue[1..], delivered := b.delivered + [b.queue[0]])
  }

  lemma QueueIsPublished(b: FlowBus)
    requires BusInv(b)
    ensures forall e :: e in b.published <==> e in b.delivered || e in b.queue
  {
    assert b.published == b.delivered + b.queue;
  }

  lemma DeliveredSeen(b: FlowBus, e: Event)
    requires FourSubs(b.subs) && BusInv(b) && e in b.delivered && e.kind == KindOf(e.payload)
    ensures e.eventId in b.subs[Consumer(e.payload)].seen
  {
    var k :| 0 <= k < |b.delivered| && b.delivered[k] == e;
    MatchesConsumer(b.subs, e.payload, Consumer(e.payload));
    assert HandledBy(b, Consumer(e.payload), k);
  }

  /** A system-made event is new to its consumer exactly when it has not been delivered before. */
  lemma SeenIffDelivered(b: FlowBus, e: Event)
    requires FlowInv(b) && e in b.published && SystemMade(e)
    ensures e.eventId in b.subs[Consumer(e.payload)].seen <==> e in b.delivered
  {
    if e in b.delivered {
      DeliveredSeen(b, e);
    }
  }

  lemma AggregatesSame(w: World, delivered: seq<Event>, e: Event)
    requires Aggregates(w, delivered) && (e.payload.Evaluated? ==> e in delivered)
    ensures Aggregates(w, delivered + [e])
  {
    EvaluatedAppend(delivered, e);
    assert e.payload.Evaluated? ==> e.payload.evalId in EvalIds(delivered);
    assert EvalIds(delivered + [e]) == EvalIds(delivered);
  }

  lemma RowsSame(w: World, delivered: seq<Event>, e: Event)
    requires Rows(w, delivered) && (e.payload.Learned? ==> e in delivered)
    ensures Rows(w, delivered + [e])
  {
    FirstLearnedAppend(delivered, e);
  }

  /** The consumer of `e` has settled it, and at most one new event was published. */
  lemma SeenAfter(w: World, subs: seq<Sub<Handler>>, ps: seq<Event>, delivered: seq<Event>, e: Event,
                  w': World, subs': seq<Sub<Handler>>, more: seq<Event>)
    requires |subs| == 4 == |subs'| && SeenDelivered(w, subs, ps, delivered) && Named(w, ps) && e in ps
    requires w'.firstId == w.firstId && w.nextId <= w'.nextId
    requires forall i :: 0 <= i < 4 ==> subs'[i].seen <= subs[i].seen + {e.eventId}
    requires forall f :: f in more ==> f.eventId >= w.nextId
    ensures SeenDelivered(w', subs', ps + more, delivered + [e])
  {
    forall i, id | 0 <= i < 4 && id in subs'[i].seen ensures id < w'.nextId {
      assert id in subs[i].seen || id == e.eventId;
    }
    forall f | f in ps + more && f.eventId >= w.firstId && f.eventId in subs'[Consumer(f.payload)].seen
      ensures f in delivered + [e]
    {
      assert f.eventId in subs[Consumer(f.payload)].seen || f.eventId == e.eventId;
    }
  }

  /** What a delivery that its consumer skips keeps. */
  lemma SkippedKeeps(b: FlowBus)
    requires FlowInv(b) && b.queue != [] && b.queue[0].eventId in b.subs[Consumer(b.queue[0].payload)].seen
    ensures var r := Taken(b);
      && SeenDelivered(r.world, r.subs, r.published, r.delivered)
      && Aggregates(r.world, r.delivered) && Rows(r.world, r.delivered)
  {
    hide BusInv, Named, Windows, Verdicts, Lessons, Aggregates, Rows, SeenDelivered, IsSub;
    var e := b.queue[0];
    QueueIsPublished(b);
    if SystemMade(e) {
      SeenIffDelivered(b, e);
    }
    AggregatesSame(b.world, b.delivered, e);
    RowsSame(b.world, b.delivered, e);
    SeenAfter(b.world, b.subs, b.published, b.delivered, e, b.world, b.subs, []);
    assert b.published + [] == b.published;
  }

  // Executed actions arm windows.

  lemma ScheduleKeepsWindows(w: World, ps: seq<Event>, e: Event)
    requires Windows(w, ps) && e in ps && e.payload.Executed?
    ensures Windows(OnExecuted(w, e).world, ps)
  {
    hide Armed, Stamped, CannotOpen, Clock.Valid, PendingIds, OpenedIds;
    var w' := OnExecuted(w, e).world;
    if w' != w {
      var a := e.payload.action.value;
      var t := w'.clock.timers[|w.clock.timers|];
      assert w'.clock.timers == w.clock.timers + [t];
      Clock.ApplyOpValid(w.clock, Clock.Schedule(t.fireAt, t.code));
      PendingAppend(w.clock.timers, t);
      assert forall u :: u in w.clock.timers ==> u.code.action in PendingIds(w.clock.timers) by {
        PendingMembers(w.clock.timers);
      }
      assert OpensAt(e, a, t.code.period, t.fireAt);
      ArmedBy(t, ps, e);
    }
  }

  lemma ArmedBy(t: Clock.Timer<Window>, ps: seq<Event>, c: Event)
    requires c in ps && c.eventId == t.code.causationId && OpensAt(c, t.code.action, t.code.period, t.fireAt)
    ensures Armed(t, ps)
  {
  }

  lemma PendingMembers(timers: seq<Clock.Timer<Window>>)
    ensures forall u :: u in timers ==> u.code.action in PendingIds(timers)
  {
  }

  lemma PendingAppend(timers: seq<Clock.Timer<Window>>, t: Clock.Timer<Window>)
    ensures PendingIds(timers + [t]) == PendingIds(timers) + {t.code.action}
  {
    assert forall u :: u in timers + [t] <==> u in timers || u == t;
  }

  lemma DeliverExecuted(source: nat -> Reading, b: FlowBus)
    requires FlowInv(b) && b.queue != [] && b.queue[0].payload.Executed?
    requires b.queue[0].eventId !in b.subs[0].seen
    ensures FlowInv(DeliverNext(Handle(source), b))
  {
    hide BusInv, Named, Windows, Verdicts, Lessons, Aggregates, Rows, SeenDelivered, IsSub;
    hide Deliver, OnExecuted, DeliverFrom;
    var e, c := b.queue[0], Taken(b);
    var r := Deliver(Handle(source), c, 0, e, 0);
    QueueIsPublished(b);
    KindIsKnown(b, e);
    ReachesConsumer(source, c, e);
    SchedulerDelivers(source, c, e, 0);
    Delivered(source, b, 0);
    ScheduleKeepsWindows(b.world, b.published, e);
    ScheduledWorld(b.world, e);
    AggregatesSame(b.world, b.delivered, e);
    RowsSame(b.world, b.delivered, e);
    SameButClock(b.world, r.world, b.published, c.delivered);
    SeenAfter(b.world, b.subs, b.published, b.delivered, e, r.world, r.subs, []);
    LaterIds(b.world, r.world, b.subs, b.published, b.delivered);
    assert b.published + [] == b.published;
  }

  lemma ScheduledWorld(w: World, e: Event)
    requires e.payload.Executed?
    ensures var w' := OnExecuted(w, e).world; w' == w.(clock := w'.clock, scheduled := w'.scheduled)
  {
  }

  lemma KindIsKnown(b: FlowBus, e: Event)
    requires Named(b.world, b.published) && e in b.published
    ensures e.kind == KindOf(e.payload)
  {
  }

  /** The bus part of a delivery that reaches its consumer. */
  lemma Delivered(source: nat -> Reading, b: FlowBus, i: nat)
    requires FourSubs(b.subs) && BusInv(b) && b.queue != [] && b.queue[0].kind == KindOf(b.queue[0].payload)
    requires i == Consumer(b.queue[0].payload) && b.queue[0].eventId !in b.subs[i].seen
    ensures var r := Deliver(Handle(source), Taken(b), i, b.queue[0], 0);
      && DeliverNext(Handle(source), b) == r
      && FourSubs(r.subs) && BusInv(r) && r.delivered == Taken(b).delivered
      && forall j :: 0 <= j < 4 ==> r.subs[j].seen <= b.subs[j].seen + {b.queue[0].eventId}
  {
    hide BusInv, Deliver, DeliverFrom;
    ReachesConsumer(source, Taken(b), b.queue[0]);
    DeliverNextInv(Handle(source), b);
    DeliverKeepsSubs(Handle(source), Taken(b), i, b.queue[0], 0);
  }

  // Opened windows are evaluated.

  lemma CautiousOutcome(m: Metrics)
    ensures Cautious(EvaluateOutcome(m))
  {
  }

  lemma VerdictKeeps(w: World, ps: seq<Event>, e: Event, m: Metrics, w': World)
    requires Verdicts(w, ps) && e.payload.Opened? && e.payload.action.Some? && e.payload.action.value !in w.evaluated
    requires w' == w.(evaluated := w.evaluated + {e.payload.action.value}, nextId := w.nextId + 2)
    ensures Verdicts(w', ps + [Verdict(w, e, m)])
  {
    var v := Verdict(w, e, m);
    EvaluatedAppend(ps, v);
    CautiousOutcome(m);
    forall f | f in ps && f.payload.Evaluated? ensures f.payload.actionId != v.payload.actionId {
      assert f.payload.actionId in EvaluatedIds(ps);
    }
  }

  lemma DeliverOpened(source: nat -> Reading, b: FlowBus)
    requires FlowInv(b) && b.queue != [] && b.queue[0].payload.Opened?
    requires b.queue[0].eventId !in b.subs[1].seen
    ensures FlowInv(DeliverNext(Handle(source), b))
  {
    hide BusInv, Named, Windows, Verdicts, Lessons, Aggregates, Rows, SeenDelivered, IsSub, Deliver, DeliverFrom;
    hide EvaluateOutcome;
    var e, c := b.queue[0], Taken(b);
    var r := Deliver(Handle(source), c, 1, e, 0);
    QueueIsPublished(b);
    KindIsKnown(b, e);
    var readNo, m := EvaluatorDelivers(source, c, e, 0);
    Delivered(source, b, 1);
    AggregatesSame(b.world, b.delivered, e);
    RowsSame(b.world, b.delivered, e);
    var w := b.world.(readNo := readNo);
    SameButClock(b.world, w, b.published, c.delivered);
    SameWindows(b.world, w, b.published);
    LaterIds(b.world, w, b.subs, b.published, b.delivered);
    if m.Some? {
      var v := Verdict(w, e, m.value);
      VerdictKeeps(w, b.published, e, m.value, r.world);
      NamedNew(w, b.published, v, r.world);
      WindowsSame(w, b.published, v);
      SameWindows(w, r.world, b.published + [v]);
      LessonsSame(w, b.published, v);
      SameLearning(w, r.world, b.published + [v], c.delivered);
      SeenAfter(b.world, b.subs, b.published, b.delivered, e, r.world, r.subs, [v]);
    } else {
      SeenAfter(b.world, b.subs, b.published, b.delivered, e, r.world, r.subs, []);
      assert b.published + [] == b.published;
    }
  }

  lemma SameWindows(w: World, w': World, ps: seq<Event>)
    requires w'.clock == w.clock && w'.scheduled == w.scheduled && w'.lost == w.lost
    ensures Windows(w, ps) ==> Windows(w', ps)
  {
  }

  lemma SameLearning(w: World, w': World, ps: seq<Event>, delivered: seq<Event>)
    requires w' == w.(evaluated := w'.evaluated, nextId := w'.nextId)
    ensures Lessons(w, ps) ==> Lessons(w', ps)
    ensures Aggregates(w, delivered) ==> Aggregates(w', delivered)
    ensures Rows(w, delivered) ==> Rows(w', delivered)
  {
  }

  // Verdicts are aggregated.

  lemma AggregatedKeeps(w: World, delivered: seq<Event>, e: Event)
    requires Aggregates(w, delivered) && e.payload.Evaluated? && e.payload.evalId !in w.seen
    requires Cautious(e.payload.evaluation)
    ensures Aggregates(Aggregated(w, e.payload), delivered + [e])
  {
    EvaluatedAppend(delivered, e);
  }

  lemma MeanIsCautious(sum: real, n: nat)
    requires n > 0 && 0.1 * n as real <= sum <= 0.4 * n as real
    ensures 0.1 <= sum / n as real <= 0.4
  {
    var mean := sum / n as real;
    assert mean * n as real == sum;
    assert (0.1 - mean) * n as real <= 0.0 && (mean - 0.4) * n as real <= 0.0;
    NotPositive(0.1 - mean, n as real);
    NotPositive(mean - 0.4, n as real);
  }

  lemma LessonKeeps(w: World, ps: seq<Event>, delivered: seq<Event>, e: Event)
    requires Lessons(w, ps) && Aggregates(w, delivered) && Named(w, ps)
    requires e.payload.Evaluated? && e.payload.evalId !in w.seen && Cautious(e.payload.evaluation)
    ensures Lessons(Aggregated(w, e.payload), ps + [Lesson(w, e)])
  {
    hide Aggregates, Lessons, Named;
    var w', l := Aggregated(w, e.payload), Lesson(w, e);
    AggregatedKeeps(w, delivered, e);
    assert w'.n == Total(w'.counts) && 0.1 * w'.n as real <= w'.causalSum <= 0.4 * w'.n as real by {
      AggregateFacts(w', delivered + [e]);
    }
    MeanIsCautious(w'.causalSum, w'.n);
    NewIdIsNew(w, ps, l);
    FirstLearnedAppend(ps, l);
    LessonAdded(w, ps, w', l);
  }

  lemma AggregateFacts(w: World, delivered: seq<Event>)
    requires Aggregates(w, delivered)
    ensures w.n == Total(w.counts) && 0.1 * w.n as real <= w.causalSum <= 0.4 * w.n as real
  {
  }

  lemma NewIdIsNew(w: World, ps: seq<Event>, e: Event)
    requires Named(w, ps) && e.eventId >= w.nextId
    ensures e !in ps
  {
  }

  lemma LessonAdded(w: World, ps: seq<Event>, w': World, l: Event)
    requires Lessons(w, ps) && w'.n == w.n + 1 && l !in ps
    requires LessonAt(l, w.n)
    ensures Lessons(w', ps + [l])
  {
    FirstLearnedAppend(ps, l);
  }

  lemma NotYetSeen(b: FlowBus, e: Event)
    requires FlowInv(b) && e in b.published && e.payload.Evaluated? && e !in b.delivered
    ensures e.payload.evalId !in b.world.seen
  {
    hide BusInv, Windows, Verdicts, Lessons, Rows, SeenDelivered, IsSub;
    QueueIsPublished(b);
    forall f | f in b.delivered && f.payload.Evaluated? ensures f.payload.evalId != e.payload.evalId {
      assert f in b.published;
    }
  }

  lemma DeliverEvaluated(source: nat -> Reading, b: FlowBus)
    requires FlowInv(b) && b.queue != [] && b.queue[0].payload.Evaluated?
    requires b.queue[0].eventId !in b.subs[2].seen
    ensures FlowInv(DeliverNext(Handle(source), b))
  {
    hide BusInv, Named, Windows, Lessons, Aggregates, Rows, SeenDelivered, IsSub, Deliver, DeliverFrom;
    var e, c := b.queue[0], Taken(b);
    var r := Deliver(Handle(source), c, 2, e, 0);
    var w, w', l := b.world, Aggregated(b.world, e.payload), Lesson(b.world, e);
    QueueIsPublished(b);
    KindIsKnown(b, e);
    AggregatorDelivers(source, c, e);
    Delivered(source, b, 2);
    SeenIffDelivered(b, e);
    NotYetSeen(b, e);
    AggregatedKeeps(w, b.delivered, e);
    LessonKeeps(w, b.published, b.delivered, e);
    NamedNew(w, b.published, l, w');
    WindowsSame(w, b.published, l);
    SameWindows(w, w', b.published + [l]);
    VerdictsSame(w, b.published, l);
    RowsSame(w, b.delivered, e);
    SameRows(w, w', c.delivered);
    SeenAfter(w, b.subs, b.published, b.delivered, e, w', r.subs, [l]);
  }

  lemma SameRows(w: World, w': World, delivered: seq<Event>)
    requires w'.rows == w.rows
    ensures Rows(w, delivered) ==> Rows(w', delivered)
  {
  }

  // Snapshots become suggestions.

  lemma SourceNotRecorded(b: FlowBus, e: Event)
    requires FlowInv(b) && e in b.published && e.payload.Learned? && e !in b.delivered
    ensures !Store.RecordedSource(b.world.rows, e.clientId, Some(e.eventId))
  {
    hide BusInv, Windows, Verdicts, Lessons, Aggregates, SeenDelivered, IsSub, FirstLearned;
    QueueIsPublished(b);
    var rows, first := b.world.rows, FirstLearned(b.delivered);
    forall i | 0 <= i < |rows| ensures rows[i].sourceEventId != Some(e.eventId) {
      assert RowFor(rows[i], first[i]) && first[i] in first;
      FirstLearnedMembers(b.delivered, first[i]);
      assert first[i] in b.published;
    }
  }

  lemma RowAdded(w: World, delivered: seq<Event>, e: Event)
    requires Rows(w, delivered) && e.payload.Learned? && e !in delivered
    requires !Store.RecordedSource(w.rows, e.clientId, Some(e.eventId))
    ensures Rows(OnLearned(w, e).world, delivered + [e])
  {
    hide FirstLearned, Store.PendingIsNewest, Store.SourcesUnique;
    FirstLearnedAppend(delivered, e);
    Store.UpsertKeeps(w.rows, UpsertOf(e), w.nextId, w.clock.ms);
  }

  lemma DeliverLearned(source: nat -> Reading, b: FlowBus)
    requires FlowInv(b) && b.queue != [] && b.queue[0].payload.Learned?
    requires b.queue[0].eventId !in b.subs[3].seen
    ensures FlowInv(DeliverNext(Handle(source), b))
  {
    hide BusInv, Named, Windows, Verdicts, Lessons, Aggregates, Rows, SeenDelivered, IsSub, Deliver, DeliverFrom;
    var e, c := b.queue[0], Taken(b);
    var r := Deliver(Handle(source), c, 3, e, 0);
    var w, w' := b.world, OnLearned(b.world, e).world;
    QueueIsPublished(b);
    KindIsKnown(b, e);
    SinkDelivers(source, c, e);
    Delivered(source, b, 3);
    SeenIffDelivered(b, e);
    SourceNotRecorded(b, e);
    RowAdded(w, b.delivered, e);
    AggregatesSame(w, b.delivered, e);
    SameButRows(w, w', b.published, c.delivered);
    SameWindows(w, w', b.published);
    LaterIds(w, w', b.subs, b.published, b.delivered);
    SeenAfter(w, b.subs, b.published, b.delivered, e, w', r.subs, []);
    assert b.published + [] == b.published;
  }

  lemma SameButRows(w: World, w': World, ps: seq<Event>, delivered: seq<Event>)
    requires w' == w.(rows := w'.rows, nextId := w'.nextId)
    ensures Verdicts(w, ps) ==> Verdicts(w', ps)
    ensures Lessons(w, ps) ==> Lessons(w', ps)
    ensures Aggregates(w, delivered) ==> Aggregates(w', delivered)
  {
  }

  lemma DeliverKeeps(source: nat -> Reading, b: FlowBus)
    requires FlowInv(b) && b.queue != []
    ensures FlowInv(DeliverNext(Handle(source), b))
  {
    hide BusInv, Named, Windows, Verdicts, Lessons, Aggregates, Rows, SeenDelivered, IsSub, Deliver, DeliverFrom;
    var e := b.queue[0];
    if e.eventId in b.subs[Consumer(e.payload)].seen {
      SkippedKeeps(b);
      QueueIsPublished(b);
      KindIsKnown(b, e);
      ReachesConsumer(source, Taken(b), e);
      DeliverNextInv(Handle(source), b);
    } else {
      match e.payload
      case Executed(_, _, _) => DeliverExecuted(source, b);
      case Opened(_, _, _) => DeliverOpened(source, b);
      case Evaluated(_, _, _) => DeliverEvaluated(source, b);
      case Learned(_) => DeliverLearned(source, b);
    }
  }

  // ---- Every run ----

  lemma DecideKeepsRows(
    w: World, delivered: seq<Event>, clientId: Id, id: Id, decision: Store.Decision, decider: string,
    note: Option<string>)
    requires Rows(w, delivered)
    ensures Rows(w.(rows := Store.Decide(w.rows, clientId, id, decision, decider, w.clock.ms, note)), delivered)
  {
    hide FirstLearned;
    Store.DecideKeeps(w.rows, clientId, id, decision, decider, w.clock.ms, note);
  }

  lemma NextKeeps(source: nat -> Reading, b: FlowBus, step: FlowStep)
    requires FlowInv(b)
    ensures FlowInv(FlowNext(source, b, step))
  {
    hide BusInv, Named, Verdicts, Lessons, Aggregates, Rows, SeenDelivered, IsSub, DeliverNext;
    var w := b.world;
    match step
    case PublishStep(e) => if FromOutside(b, e) { PublishKeeps(b, e); }
    case RedeliverStep(k) => if k < |b.published| { PublishKeeps(b, b.published[k]); }
    case FireStep(target) => FireKeeps(b, target);
    case TimeStep(ms) =>
      var w' := w.(clock := w.clock.(ms := ms));
      BusInvAnyWorld(b, w');
      SameButClock(w, w', b.published, b.delivered);
      LaterIds(w, w', b.subs, b.published, b.delivered);
    case DeliverStep => if b.queue != [] { DeliverKeeps(source, b); }
    case DecideStep(clientId, id, decision, decider, note) =>
      var w' := w.(rows := Store.Decide(w.rows, clientId, id, decision, decider, w.clock.ms, note));
      BusInvAnyWorld(b, w');
      DecideKeepsRows(w, b.delivered, clientId, id, decision, decider, note);
      SameButRows(w, w', b.published, b.delivered);
      SameWindows(w, w', b.published);
      LaterIds(w, w', b.subs, b.published, b.delivered);
  }

  lemma {:induction false} RunKeeps(source: nat -> Reading, b: FlowBus, steps: seq<FlowStep>)
    requires FlowInv(b)
    ensures FlowInv(RunAll(source, b, steps))
    decreases steps
  {
    hide FlowInv, FlowNext;
    if steps != [] {
      NextKeeps(source, b, steps[0]);
      RunKeeps(source, FlowNext(source, b, steps[0]), steps[1..]);
    }
  }

  lemma InitHolds(maxRetries: int, start: int, firstId: Id)
    ensures FlowInv(Init(maxRetries, start, firstId))
  {
    var b := Init(maxRetries, start, firstId);
    assert PendingIds([]) == {} && OpenedIds([]) == {} && EvaluatedIds([]) == {} && EvalIds([]) == {};
    assert BusInv(b);
  }

  /**
    Flow E over every run of redeliveries, re-opens, retries, timers, deliveries and decisions: an action has
    at most one opening and at most one verdict, each opening is stamped exactly `executed_at` plus the
    period, and the scheduled actions are exactly those still pending, those opened and those lost, no action
    being two of these.
   */
  lemma EveryRunOfFlowE(source: nat -> Reading, maxRetries: int, start: int, firstId: Id, steps: seq<FlowStep>)
    ensures var b := RunAll(source, Init(maxRetries, start, firstId), steps);
      && Partition(b.world.scheduled, PendingIds(b.world.clock.timers), OpenedIds(b.published), b.world.lost)
      && (forall e :: e in b.published && IsOpening(e) ==> Stamped(e, b.published))
      && (forall e, f | e in b.published && f in b.published && IsOpening(e) && IsOpening(f)
                        && e.payload.action == f.payload.action :: e == f)
      && (forall e, f | e in b.published && f in b.published && e.payload.Evaluated? && f.payload.Evaluated?
                        && e.payload.actionId == f.payload.actionId :: e == f)
      && b.delivered + b.queue == b.published
  {
    hide RunAll;
    InitHolds(maxRetries, start, firstId);
    RunKeeps(source, Init(maxRetries, start, firstId), steps);
  }

  /**
    A window is lost only if it lies in no year an event can be stamped with (and then it cannot be opened);
    so as long as no executed action asks for such a window, none is lost.
   */
  lemma NoWindowLost(source: nat -> Reading, maxRetries: int, start: int, firstId: Id, steps: seq<FlowStep>)
    ensures var b := RunAll(source, Init(maxRetries, start, firstId), steps);
      && (forall a :: a in b.world.lost ==> CannotOpen(a, b.published))
      && ((forall c, a, period, at :: c in b.published && OpensAt(c, a, period, at) ==> Stampable(at)) ==>
            b.world.lost == {})
  {
    hide RunAll, OpensAt;
    InitHolds(maxRetries, start, firstId);
    RunKeeps(source, Init(maxRetries, start, firstId), steps);
  }

  /** Such a window does get lost: two weeks after the last instant of the year 9999. */
  lemma WindowBeyond9999IsLost(source: nat -> Reading)
    ensures var e := Envelope(1, "action.executed", 0, 2, 3, None, "executor",
                              Executed(Some(7), Some("P14D"), At(253_402_300_799_999)));
      var steps := [FlowStep.PublishStep(e), FlowStep.DeliverStep, FireStep(254_000_000_000_000)];
      var b := RunAll(source, Init(3, 0, 10), steps);
      b.world.scheduled == {7} == b.world.lost && OpenedIds(b.published) == {} && b.world.clock.timers == []
  {
    hide FlowInv, DeliverNext, RunAll, FireWindow, Duration.ParseIsoDuration;
    var e := Envelope(1, "action.executed", 0, 2, 3, None, "executor",
                      Executed(Some(7), Some("P14D"), At(253_402_300_799_999)));
    var b0 := Init(3, 0, 10);
    var b1 := Publish(b0, e);
    var b2 := DeliverNext(Handle(source), b1);
    InitHolds(3, 0, 10);
    PublishKeeps(b0, e);
    Duration.FourteenDays();
    LostWindowRun(source, b0, e);
    LostWindowArmed(source, b1, e);
    LostWindowFires(b2);
    assert b1.published == [e];
  }

  lemma LostWindowRun(source: nat -> Reading, b: FlowBus, e: Event)
    requires FromOutside(b, e) && b.queue == []
    ensures RunAll(source, b, [FlowStep.PublishStep(e), FlowStep.DeliverStep, FireStep(254_000_000_000_000)])
         == FireWindow(DeliverNext(Handle(source), Publish(b, e)), 254_000_000_000_000)
  {
    hide DeliverNext, FireWindow;
    var steps := [FlowStep.PublishStep(e), FlowStep.DeliverStep, FireStep(254_000_000_000_000)];
    assert steps[1..] == [FlowStep.DeliverStep, FireStep(254_000_000_000_000)];
    assert steps[1..][1..] == [FireStep(254_000_000_000_000)];
    assert steps[1..][1..][1..] == [];
    var b1 := Publish(b, e);
    var b2 := DeliverNext(Handle(source), b1);
    assert b1.queue == [e];
    assert RunAll(source, b2, steps[1..][1..]) == FireWindow(b2, 254_000_000_000_000);
    assert RunAll(source, b1, steps[1..]) == RunAll(source, b2, steps[1..][1..]);
  }

  lemma LostWindowArmed(source: nat -> Reading, b: FlowBus, e: Event)
    requires FourSubs(b.subs) && BusInv(b) && b.queue == [e] && b.subs[0].seen == {}
    requires e.payload == Executed(Some(7), Some("P14D"), At(253_402_300_799_999)) && e.kind == "action.executed"
    requires b.world.scheduled == {} && b.world.clock.timers == []
    requires Duration.ParseIsoDuration("P14D") == Some(14 * 86400 * 1000)
    ensures var r := DeliverNext(Handle(source), b);
      && r.world == OnExecuted(b.world, e).world && r.published == b.published
      && |r.world.clock.timers| == 1 && r.world.clock.timers[0].fireAt == 253_403_510_399_999
      && r.world.clock.timers[0].code.action == 7 && r.world.scheduled == {7} && r.world.lost == b.world.lost
  {
    hide BusInv, Deliver, DeliverFrom, Duration.ParseIsoDuration;
    ReachesConsumer(source, Taken(b), e);
    Delivered(source, b, 0);
    SchedulerDelivers(source, Taken(b), e, 0);
  }

  lemma LostWindowFires(b: FlowBus)
    requires |b.world.clock.timers| == 1 && b.world.clock.timers[0].fireAt == 253_403_510_399_999
    requires b.world.clock.timers[0].code.action == 7
    ensures var r := FireWindow(b, 254_000_000_000_000);
      && r.world.clock.timers == [] && r.world.lost == b.world.lost + {7}
      && r.world.scheduled == b.world.scheduled && r.published == b.published
  {
    var c := b.world.clock;
    var t := c.timers[0];
    assert c.timers == [t];
    var p := (u: Clock.Timer<Window>) => u.fireAt <= 254_000_000_000_000;
    assert Clock.Due(c.timers, 254_000_000_000_000) == [t];
    assert Clock.HasDue(c, 254_000_000_000_000);
    Clock.NextDueIsLeast(c, 254_000_000_000_000);
    assert Clock.Removed(c.timers, t.order) == [];
  }

  /**
    The suggestions in every reachable state: the k-th row ever written holds the k-th distinct delivered
    snapshot, which aggregates exactly k evaluations; and a client's pending row, if it has one, holds the
    last snapshot delivered for that client.
   */
  lemma SuggestionsFollowSnapshots(
    source: nat -> Reading, maxRetries: int, start: int, firstId: Id, steps: seq<FlowStep>, i: nat)
    requires i < |RunAll(source, Init(maxRetries, start, firstId), steps).world.rows|
    ensures var b := RunAll(source, Init(maxRetries, start, firstId), steps);
      var rows, learned := b.world.rows, FirstLearned(b.delivered);
      && |rows| == |learned| && RowFor(rows[i], learned[i])
      && rows[i].snapshot.sampleSize == i + 1 == Total(rows[i].snapshot.counts)
      && (rows[i].status.Pending? ==> forall j :: i < j < |learned| ==> learned[j].clientId != rows[i].clientId)
      && b.world.n == |EvalIds(b.delivered)| == Total(b.world.counts)
  {
    hide RunAll, FirstLearned;
    InitHolds(maxRetries, start, firstId);
    RunKeeps(source, Init(maxRetries, start, firstId), steps);
    var b := RunAll(source, Init(maxRetries, start, firstId), steps);
    FirstLearnedPrefix(b.delivered, b.queue);
    assert b.delivered + b.queue == b.published;
    var learned := FirstLearned(b.delivered);
    assert LessonAt(FirstLearned(b.published)[i], i);
    forall j | i < j < |learned| && b.world.rows[i].status.Pending?
      ensures learned[j].clientId != b.world.rows[i].clientId
    {
      assert RowFor(b.world.rows[j], learned[j]);
    }
  }

  lemma {:induction false} FirstLearnedPrefix(ps: seq<Event>, qs: seq<Event>)
    ensures FirstLearned(ps) <= FirstLearned(ps + qs)
  {
    if qs == [] {
      assert ps + qs == ps;
    } else {
      FirstLearnedPrefix(ps, qs[..|qs| - 1]);
      assert (ps + qs)[..|ps + qs| - 1] == ps + qs[..|qs| - 1];
    }
  }

  // ---- Drain returns ----

  /** Openings come before verdicts, verdicts before snapshots; nothing follows a snapshot. */
  function Stage(e: Event): nat {
    match e.payload
    case Executed(_, _, _) => 3
    case Opened(_, _, _) => 2
    case Evaluated(_, _, _) => 1
    case Learned(_) => 0
  }

  lemma HandlersAreStaged(source: nat -> Reading, subs: seq<Sub<Handler>>)
    requires FourSubs(subs)
    ensures Staged(Handle(source), subs, Stage)
  {
    hide OnExecuted, OnOpened, OnEvaluated, OnLearned;
    forall i, w, e: Event, k | 0 <= i < |subs| && TypeMatches(subs[i].pattern, e.kind)
                               && 0 <= k < |Handle(source)(w, subs[i].handler, e).published|
      ensures Stage(Handle(source)(w, subs[i].handler, e).published[k]) < Stage(e)
    {
      HandlerIsStaged(source, w, subs[i].handler, e);
    }
  }

  lemma EvaluatorIsStaged(source: nat -> Reading, w: World, e: Event)
    requires e.payload.Opened?
    ensures var r := OnOpened(source, w, e).published; r == [] || (|r| == 1 && r[0].payload.Evaluated?)
  {
  }

  lemma HandlerIsStaged(source: nat -> Reading, w: World, h: Handler, e: Event)
    ensures var r := React(source, w, h, e).published;
      r == [] || (|r| == 1 && Stage(r[0]) < Stage(e))
  {
    if h.Evaluator? && e.payload.Opened? {
      EvaluatorIsStaged(source, w, e);
    }
  }

  /** With the four consumers registered, `drain` returns from every reachable state, and settles everything. */
  lemma FlowDrainReturns(source: nat -> Reading, maxRetries: int, start: int, firstId: Id, steps: seq<FlowStep>)
    ensures var b := RunAll(source, Init(maxRetries, start, firstId), steps);
      && Drains(Handle(source), b) && Drain(Handle(source), b).queue == []
      && FlowInv(Drain(Handle(source), b))
  {
    hide RunAll, FlowInv, Drain, Turns;
    var b := RunAll(source, Init(maxRetries, start, firstId), steps);
    InitHolds(maxRetries, start, firstId);
    RunKeeps(source, Init(maxRetries, start, firstId), steps);
    FlowStagedDrain(source, b);
  }

  lemma FlowStagedDrain(source: nat -> Reading, b: FlowBus)
    requires FlowInv(b)
    ensures Drains(Handle(source), b) && Drain(Handle(source), b).queue == []
    ensures FlowInv(Drain(Handle(source), b))
  {
    hide Turns, Staged, BusInv;
    HandlersAreStaged(source, b.subs);
    var n := StagedDrainReturns(Handle(source), b, Stage, 4);
    DrainIs(Handle(source), b, n);
    TurnsKeepFlow(source, b, n);
  }

  lemma {:induction false} TurnsKeepFlow(source: nat -> Reading, b: FlowBus, n: nat)
    requires FlowInv(b)
    ensures FlowInv(Turns(Handle(source), b, n))
    decreases n
  {
    hide FlowInv, DeliverNext;
    if n > 0 && b.queue != [] {
      DeliverKeeps(source, b);
      TurnsKeepFlow(source, DeliverNext(Handle(source), b), n - 1);
    }
  }
}
